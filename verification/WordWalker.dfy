/** The word splitter as the source runs it: on a slice of runes that it shifts and shrinks in
    place while it scans it. */
module WordWalker {
  import opened Naming

  /** `copy(runes[to:], runes[from:])`, for runes[..len]. */
  method ShiftDown(runes: array<char>, to: nat, from: nat, len: nat)
    requires to <= from <= len <= runes.Length
    modifies runes
    ensures runes[..len - (from - to)] == old(runes[..to]) + old(runes[from..len])
  {
    ghost var was := runes[..];
    var gap := from - to;
    var k := to;
    while k < len - gap
      invariant to <= k <= len - gap
      invariant forall j :: to <= j < k ==> runes[j] == was[j + gap]
      invariant forall j :: 0 <= j < to || k <= j < runes.Length ==> runes[j] == was[j]
    {
      runes[k] := runes[k + gap];
      k := k + 1;
    }
    Shifted(runes[..], was, to, from, len);
  }

  lemma {:induction false} Shifted(now: string, was: string, to: nat, from: nat, len: nat)
    requires to <= from <= len <= |now| == |was|
    requires forall j :: to <= j < len - (from - to) ==> now[j] == was[j + (from - to)]
    requires forall j :: 0 <= j < to ==> now[j] == was[j]
    ensures now[..len - (from - to)] == was[..to] + was[from..len]
  {
    forall j | 0 <= j < len - (from - to) ensures now[j] == (was[..to] + was[from..len])[j] {
      assert j >= to ==> was[from..len][j - to] == was[j + (from - to)];
    }
  }

  lemma {:induction false} RunIs(s: string, n: nat)
    requires n <= |s| && (forall i :: 0 <= i < n ==> IsDelimiter(s[i])) && (n < |s| ==> !IsDelimiter(s[n]))
    ensures Run(s) == n
    decreases |s|
  {
    if n > 0 {
      assert forall i :: 0 <= i < n - 1 ==> s[1..][i] == s[i + 1];
      RunIs(s[1..], n - 1);
    }
  }

  lemma {:induction false} SliceOfSlice(s: string, i: nat, k: nat, len: nat)
    requires i + k <= len <= |s|
    ensures s[i..len][k..] == s[i + k..len]
  {
  }

  /** The length of the run of delimiters after runes[i]. */
  method RunAfter(runes: array<char>, i: nat, len: nat) returns (n: nat)
    requires i + 1 < len <= runes.Length && IsDelimiter(runes[i + 1])
    ensures 1 <= n && i + n < len
    ensures forall j :: i < j <= i + n ==> IsDelimiter(runes[j])
    ensures i + n + 1 < len ==> !IsDelimiter(runes[i + n + 1])
  {
    n := 1;
    while i + n + 1 < len && IsDelimiter(runes[i + n + 1])
      invariant 1 <= n && i + n < len
      invariant forall j :: i < j <= i + n ==> IsDelimiter(runes[j])
    {
      n := n + 1;
    }
  }

  /** How many of the delimiters after runes[i] to drop: all but the last one between two digits. */
  method DelimitersToDrop(runes: array<char>, i: nat, len: nat) returns (n: nat)
    requires i + 1 < len <= runes.Length && IsDelimiter(runes[i + 1])
    ensures i + n + 1 <= len && runes[i + n + 1..len] == AfterFirst(runes[i..len])
  {
    ghost var s := runes[i..len];
    n := RunAfter(runes, i, len);
    AfterRun(s, n);
    if i + n + 1 < len && IsDigit(runes[i]) && IsDigit(runes[i + n + 1]) {
      n := n - 1;
    }
    SliceOfSlice(runes[..], i, n + 1, len);
  }

  /** Drop them in place, by shifting down what follows; returns the new length. */
  method DropDelimiters(runes: array<char>, i: nat, len: nat) returns (newLen: nat)
    requires i + 1 < len <= runes.Length && IsDelimiter(runes[i + 1])
    modifies runes
    ensures i < newLen <= len && newLen <= runes.Length
    ensures runes[..i + 1] == old(runes[..i + 1])
    ensures runes[i + 1..newLen] == AfterFirst(old(runes[i..len]))
  {
    var n := DelimitersToDrop(runes, i, len);
    ghost var kept, moved := runes[..i + 1], runes[i + n + 1..len];
    ShiftDown(runes, i + 1, i + n + 1, len);
    newLen := len - n;
    SplitAt(runes[..newLen], kept, moved);
    assert runes[..i + 1] == runes[..newLen][..i + 1];
    assert runes[i + 1..newLen] == runes[..newLen][i + 1..];
  }

  lemma {:induction false} SplitAt(s: string, a: string, b: string)
    requires s == a + b
    ensures s[..|a|] == a && s[|a|..] == b
  {
  }

  lemma {:induction false} AfterRun(s: string, n: nat)
    requires 1 <= n < |s| && (forall j :: 1 <= j <= n ==> IsDelimiter(s[j]))
    requires n + 1 < |s| ==> !IsDelimiter(s[n + 1])
    ensures AfterFirst(s) == if n + 1 < |s| && IsDigit(s[0]) && IsDigit(s[n + 1]) then s[n..] else s[n + 1..]
  {
    assert forall j :: 0 <= j < |s| - 1 ==> s[1..][j] == s[j + 1];
    RunIs(s[1..], n);
  }

  /** `strings.TrimFunc(str, isDelimiter)`, into a slice of runes. */
  method Trimmed(str: string) returns (runes: array<char>)
    ensures fresh(runes) && runes[..] == Trim(str)
  {
    var t := Trim(str);
    runes := new char[|t|](i requires 0 <= i < |t| => t[i]);
  }

  lemma {:induction false} WordsNext(lex: Lexicon, word: string, has: bool, s: string)
    requires s != ""
    ensures var longer := word + [s[0]];
            Words(lex, word, has, s)
            == if !EndsWord(s) && !((longer in lex.commonInitialisms) && !IsLower(s[1])) then
                 Words(lex, longer, has || (longer in lex.commonInitialisms), AfterFirst(s))
               else
                 [WordInfo(longer, (ToUpper(longer) in lex.commonInitialisms),
                           has || (ToUpper(longer) in lex.commonInitialisms))] + Words(lex, "", false, AfterFirst(s))
  {
  }

  lemma {:induction false} NoDelimiterNext(s: string)
    requires |s| == 1 || (|s| > 1 && !IsDelimiter(s[1]))
    ensures AfterFirst(s) == s[1..]
  {
    RunIs(s[1..], 0);
  }

  /** Look at runes[i] and what follows: does a word end here? Delimiters that follow are dropped. */
  method EndOfWord(runes: array<char>, i: nat, len: nat) returns (eow: bool, newLen: nat)
    requires i < len <= runes.Length
    modifies runes
    ensures i < newLen <= len
    ensures runes[..i + 1] == old(runes[..i + 1])
    ensures runes[i + 1..newLen] == AfterFirst(old(runes[i..len]))
    ensures eow <==> EndsWord(old(runes[i..len]))
    ensures !eow ==> newLen == len && runes[..len] == old(runes[..len]) && i + 1 < len
  {
    ghost var text := runes[i..len];
    eow, newLen := false, len;
    if i + 1 == len {
      eow := true;
      NoDelimiterNext(text);
    } else if IsDelimiter(runes[i + 1]) {
      eow := true;
      newLen := DropDelimiters(runes, i, len);
    } else {
      NoDelimiterNext(text);
      if IsLower(runes[i]) && !IsLower(runes[i + 1]) {
        eow := true;
      }
    }
  }

  lemma {:induction false} Append<T>(a: seq<T>, b: seq<T>, c: seq<T>)
    ensures a + (b + c) == (a + b) + c
  {
  }

  /** Whether the word goes on after the first character of `text`. */
  predicate GoesOn(lex: Lexicon, longer: string, text: string)
    requires text != ""
  {
    !EndsWord(text) && !((longer in lex.commonInitialisms) && !IsLower(text[1]))
  }

  function Info(lex: Lexicon, word: string, has: bool): WordInfo {
    var match_ := ToUpper(word) in lex.commonInitialisms;
    WordInfo(word, match_, has || match_)
  }

  /** One character further: the words so far and those to come stay the same. */
  lemma {:induction false} OneFurther(lex: Lexicon, infos: seq<WordInfo>, word: string, has: bool, text: string,
                                      longer: string, rest: string, all: seq<WordInfo>)
    requires text != "" && longer == word + [text[0]] && rest == AfterFirst(text)
    requires infos + Words(lex, word, has, text) == all
    ensures GoesOn(lex, longer, text) ==>
              infos + Words(lex, longer, has || (longer in lex.commonInitialisms), rest) == all
    ensures !GoesOn(lex, longer, text) ==>
              (infos + [Info(lex, longer, has)]) + Words(lex, "", false, rest) == all
  {
    WordsNext(lex, word, has, text);
    Append(infos, [Info(lex, longer, has)], Words(lex, "", false, rest));
  }

  lemma {:induction false} WordSoFar(runes: seq<char>, w: nat, i: nat)
    requires w <= i < |runes|
    ensures runes[w..i + 1] == runes[w..i] + [runes[i]] && runes[..i + 1][w..] == runes[w..i + 1]
  {
  }

  /** The splitter stays in bounds, ends, and hands out the words of the trimmed text. */
  method Walk(lex: Lexicon, str: string) returns (infos: seq<WordInfo>)
    requires IsAscii(str)
    ensures infos == Words(lex, "", false, Trim(str))
  {
    var runes := Trimmed(str);
    ghost var all := Words(lex, "", false, Trim(str));
    var len := runes.Length;
    var w, i := 0, 0;
    var hasCommonInitial := false;
    infos := [];
    assert runes[0..0] == "" && runes[0..len] == Trim(str);
    assert [] + all == all;
    while i + 1 <= len
      invariant 0 <= w <= i <= len <= runes.Length
      invariant infos + Words(lex, runes[w..i], hasCommonInitial, runes[i..len]) == all
      decreases len - i
    {
      w, len, infos, hasCommonInitial := Turn(lex, runes, w, i, len, infos, hasCommonInitial, all);
      i := i + 1;
    }
    assert runes[i..len] == "";
  }

  /** One turn of the loop: read on by one rune and, if a word ends there, hand it out. */
  method Turn(lex: Lexicon, runes: array<char>, w: nat, i: nat, len: nat, infos: seq<WordInfo>, has: bool,
              ghost all: seq<WordInfo>)
    returns (w': nat, len': nat, infos': seq<WordInfo>, has': bool)
    requires w <= i < len <= runes.Length
    requires infos + Words(lex, runes[w..i], has, runes[i..len]) == all
    modifies runes
    ensures w' <= i + 1 <= len' <= len
    ensures infos' + Words(lex, runes[w'..i + 1], has', runes[i + 1..len']) == all
  {
    ghost var text, before := runes[i..len], runes[w..i];
    var eow, word;
    eow, len', word := NextWord(runes, w, i, len);
    OneFurther(lex, infos, before, has, text, word, runes[i + 1..len'], all);
    if !eow && !((word in lex.commonInitialisms) && !IsLower(runes[i + 1])) {
      w', infos', has' := w, infos, has || (word in lex.commonInitialisms);
    } else {
      var info := InfoOf(lex, word, has);
      w', infos', has' := i + 1, infos + [info], false;
      assert runes[w'..i + 1] == "";
    }
  }

  method InfoOf(lex: Lexicon, word: string, has: bool) returns (info: WordInfo)
    ensures info == Info(lex, word, has)
  {
    var matchCommonInitial, hasCommonInitial := false, has;
    if ToUpper(word) in lex.commonInitialisms {
      hasCommonInitial := true;
      matchCommonInitial := true;
    }
    info := WordInfo(word, matchCommonInitial, hasCommonInitial);
  }

  /** The part of a turn that looks at the runes: whether a word ends, and [w, i + 1). */
  method NextWord(runes: array<char>, w: nat, i: nat, len: nat) returns (eow: bool, newLen: nat, word: string)
    requires w <= i < len <= runes.Length
    modifies runes
    ensures i < newLen <= len
    ensures word == runes[w..i + 1] == old(runes[w..i]) + [old(runes[i..len])[0]]
    ensures runes[i + 1..newLen] == AfterFirst(old(runes[i..len]))
    ensures eow <==> EndsWord(old(runes[i..len]))
    ensures !eow ==> i + 1 < newLen && runes[i + 1] == old(runes[i..len])[1]
  {
    ghost var was := runes[..];
    WordSoFar(was, w, i);
    eow, newLen := EndOfWord(runes, i, len);
    word := runes[w..i + 1];
    assert word == runes[..i + 1][w..] == was[..i + 1][w..];
    assert !eow ==> runes[..len][i + 1] == was[..len][i + 1];
  }

  /** `ToGo`: the callback appends each word, in the case the initialisms call for. */
  method ToGoName(lex: Lexicon, name: string) returns (r: string)
    requires IsAscii(name)
    ensures r == ToGo(lex, name)
  {
    if name == "_" {
      return "_";
    }
    var words := Walk(lex, name);
    r := "";
    var i := 0;
    while i < |words|
      invariant 0 <= i <= |words|
      invariant r + PublicWords(words[i..]) == PublicWords(words)
    {
      assert words[i..][0] == words[i] && words[i..][1..] == words[i + 1..];
      var word := PublicWordOf(words[i]);
      Append(r, word, PublicWords(words[i + 1..]));
      r := r + word;
      i := i + 1;
    }
    assert words[i..] == [];
  }

  method PublicWordOf(info: WordInfo) returns (word: string)
    ensures word == PublicWord(info)
  {
    word := info.word;
    if info.matchCommonInitial {
      word := ToUpper(word);
    } else if !info.hasCommonInitial {
      if ToUpper(word) == word || ToLower(word) == word {
        word := UcFirst(ToLower(word));
      }
    }
  }

  /** `ToGoPrivate` */
  method ToGoPrivateName(lex: Lexicon, name: string) returns (r: string)
    requires IsAscii(name)
    ensures r == ToGoPrivate(lex, name)
  {
    if name == "_" {
      return "_";
    }
    var words := Walk(lex, name);
    r := "";
    var first := true;
    var i := 0;
    while i < |words|
      invariant 0 <= i <= |words|
      invariant r + PrivateWords(words[i..], first) == PrivateWords(words, true)
    {
      assert words[i..][0] == words[i] && words[i..][1..] == words[i + 1..];
      var word := PrivateWordOf(words[i], first);
      Append(r, word, PrivateWords(words[i + 1..], false));
      first := false;
      r := r + word;
      i := i + 1;
    }
    assert words[i..] == [];
    assert r == PrivateWords(words, true);
    r := Sanitized(lex, r);
  }

  /** `sanitizeKeywords` */
  method Sanitized(lex: Lexicon, name: string) returns (r: string)
    ensures r == SanitizeKeywords(lex, name)
  {
    var i := 0;
    while i < |lex.keywords|
      invariant 0 <= i <= |lex.keywords|
      invariant forall j :: 0 <= j < i ==> lex.keywords[j] != name
    {
      if name == lex.keywords[i] {
        return name + "Arg";
      }
      i := i + 1;
    }
    return name;
  }

  method PrivateWordOf(info: WordInfo, first: bool) returns (word: string)
    ensures word == PrivateWord(info, first)
  {
    word := info.word;
    if first {
      if ToUpper(word) == word || ToLower(word) == word {
        word := ToLower(info.word);
      } else {
        word := LcFirst(info.word);
      }
    } else if info.matchCommonInitial {
      word := ToUpper(word);
    } else if !info.hasCommonInitial {
      word := UcFirst(ToLower(word));
    }
  }
}
