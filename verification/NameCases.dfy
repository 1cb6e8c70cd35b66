/** Upper and lower case in Go names, said of the letters alone. */
module NameCases {
  import opened Naming
  import opened NamingLaws

  ghost predicate NoLower(s: string) {
    forall i :: 0 <= i < |s| ==> !IsLower(s[i])
  }

  ghost predicate NoUpper(s: string) {
    forall i :: 0 <= i < |s| ==> !IsUpper(s[i])
  }

  /** No lower-case letter first, and no upper-case letter after it. */
  ghost predicate Capitalized(s: string) {
    s != "" ==> !IsLower(s[0]) && NoUpper(s[1..])
  }

  /** `r` is the word as a public name has it: in capitals if it is an initialism, capitalized if it
      holds none and is not of mixed case, and otherwise unchanged. */
  ghost predicate PublicCase(info: WordInfo, r: string) {
    && SameLetters(r, info.word)
    && if info.matchCommonInitial then NoLower(r)
       else if !info.hasCommonInitial && (NoLower(info.word) || NoUpper(info.word)) then Capitalized(r)
       else r == info.word
  }

  /** The same for a private name, whose first word begins with no capital: it has none at all, unless
      the word is of mixed case, which otherwise stays. */
  ghost predicate PrivateCase(info: WordInfo, first: bool, r: string) {
    && SameLetters(r, info.word)
    && if first then
         if NoLower(info.word) || NoUpper(info.word) then NoUpper(r)
         else r != "" && !IsUpper(r[0]) && r[1..] == info.word[1..]
       else if info.matchCommonInitial then NoLower(r)
       else if !info.hasCommonInitial then Capitalized(r)
       else r == info.word
  }

  // --- Each word ---

  lemma {:induction false} OneCase(s: string)
    ensures ToUpper(s) == s <==> NoLower(s)
    ensures ToLower(s) == s <==> NoUpper(s)
    ensures NoLower(ToUpper(s)) && NoUpper(ToLower(s))
  {
    if ToUpper(s) == s {
      forall i | 0 <= i < |s| ensures !IsLower(s[i]) { assert ToUpper(s)[i] == s[i]; }
    }
    if ToLower(s) == s {
      forall i | 0 <= i < |s| ensures !IsUpper(s[i]) { assert ToLower(s)[i] == s[i]; }
    }
  }

  lemma {:induction false} CapitalizedWord(s: string)
    ensures Capitalized(UcFirst(ToLower(s)))
  {
    OneCase(s);
  }

  lemma {:induction false} PublicWordCase(info: WordInfo)
    ensures PublicCase(info, PublicWord(info))
  {
    CaseChanges(info.word);
    OneCase(info.word);
    CapitalizedWord(info.word);
  }

  lemma {:induction false} PrivateWordCase(info: WordInfo, first: bool)
    ensures PrivateCase(info, first, PrivateWord(info, first))
  {
    CaseChanges(info.word);
    OneCase(info.word);
    CapitalizedWord(info.word);
  }

  // --- Which words hold initialisms ---

  /** A word that begins with a lower-case letter is in lower case. */
  ghost predicate LowerThrough(word: string) {
    word != "" && IsLower(word[0]) ==> forall i :: 0 <= i < |word| ==> IsLower(word[i])
  }

  /** Some part of the text at hand that a word began with has been an initialism. */
  ghost predicate Began(lex: Lexicon, word: string, n: nat) {
    exists i :: 0 < i <= n <= |word| && word[..i] in lex.commonInitialisms
  }

  /** The flags of a word: it is an initialism up to case, or a proper beginning of it is one. */
  ghost predicate Flagged(lex: Lexicon, info: WordInfo) {
    && info.word != "" && LowerThrough(info.word)
    && (info.matchCommonInitial <==> ToUpper(info.word) in lex.commonInitialisms)
    && (info.hasCommonInitial <==> info.matchCommonInitial || Began(lex, info.word, |info.word| - 1))
  }

  lemma {:induction false} BeganLonger(lex: Lexicon, word: string, c: char)
    ensures Began(lex, word + [c], |word|) <==> Began(lex, word, |word|)
    ensures Began(lex, word + [c], |word| + 1)
            <==> Began(lex, word, |word|) || word + [c] in lex.commonInitialisms
  {
    var longer := word + [c];
    assert forall i :: 0 < i <= |word| ==> longer[..i] == word[..i];
    assert longer[..|longer|] == longer;
    if i :| 0 < i <= |word| && longer[..i] in lex.commonInitialisms {
      assert word[..i] in lex.commonInitialisms;
    }
    if i :| 0 < i <= |word| && word[..i] in lex.commonInitialisms {
      assert longer[..i] in lex.commonInitialisms;
    }
  }

  lemma {:induction false} WordsAreFlagged(lex: Lexicon, word: string, has: bool, s: string)
    requires has <==> Began(lex, word, |word|)
    requires LowerThrough(word) && (word != "" && IsLower(word[0]) && s != "" ==> IsLower(s[0]))
    ensures forall i :: 0 <= i < |Words(lex, word, has, s)| ==> Flagged(lex, Words(lex, word, has, s)[i])
    decreases |s|
  {
    if s != "" {
      var longer := word + [s[0]];
      var rest := AfterFirst(s);
      BeganLonger(lex, word, s[0]);
      assert LowerThrough(longer);
      if !EndsWord(s) && !(longer in lex.commonInitialisms && !IsLower(s[1])) {
        assert rest == s[1..];
        WordsAreFlagged(lex, longer, has || (longer in lex.commonInitialisms), rest);
      } else {
        WordsAreFlagged(lex, "", false, rest);
      }
    }
  }

  // --- Names ---

  function Joined(parts: seq<string>): string {
    if parts == [] then "" else parts[0] + Joined(parts[1..])
  }

  lemma {:induction false} PublicParts(words: seq<WordInfo>) returns (parts: seq<string>)
    ensures PublicWords(words) == Joined(parts)
    ensures |parts| == |words| && forall i :: 0 <= i < |words| ==> PublicCase(words[i], parts[i])
    decreases |words|
  {
    parts := [];
    if words != [] {
      var rest := PublicParts(words[1..]);
      PublicWordCase(words[0]);
      parts := [PublicWord(words[0])] + rest;
      assert parts[1..] == rest;
      forall i | 0 <= i < |words| ensures PublicCase(words[i], parts[i]) {
        if i > 0 { assert words[i] == words[1..][i - 1] && parts[i] == rest[i - 1]; }
      }
    }
  }

  lemma {:induction false} PrivateParts(words: seq<WordInfo>, first: bool) returns (parts: seq<string>)
    ensures PrivateWords(words, first) == Joined(parts)
    ensures |parts| == |words|
    ensures forall i :: 0 <= i < |words| ==> PrivateCase(words[i], first && i == 0, parts[i])
    decreases |words|
  {
    parts := [];
    if words != [] {
      var rest := PrivateParts(words[1..], false);
      PrivateWordCase(words[0], first);
      parts := [PrivateWord(words[0], first)] + rest;
      assert parts[1..] == rest;
      forall i | 0 <= i < |words| ensures PrivateCase(words[i], first && i == 0, parts[i]) {
        if i > 0 { assert words[i] == words[1..][i - 1] && parts[i] == rest[i - 1]; }
      }
    }
  }

  /** A public name is made of its words, each in its case; if no initialism begins with a lower-case
      letter, the name does not, either. */
  lemma {:induction false} ToGoCases(lex: Lexicon, name: string) returns (words: seq<WordInfo>, parts: seq<string>)
    requires name != "_"
    ensures words == Words(lex, "", false, Trim(name)) && forall i :: 0 <= i < |words| ==> Flagged(lex, words[i])
    ensures |parts| == |words| && forall i :: 0 <= i < |words| ==> PublicCase(words[i], parts[i])
    ensures ToGo(lex, name) == Joined(parts)
    ensures (forall w :: w in lex.commonInitialisms ==> w == "" || !IsLower(w[0])) && ToGo(lex, name) != "" ==>
              !IsLower(ToGo(lex, name)[0])
  {
    words := Words(lex, "", false, Trim(name));
    WordsAreFlagged(lex, "", false, Trim(name));
    parts := PublicParts(words);
    if (forall w :: w in lex.commonInitialisms ==> w == "" || !IsLower(w[0])) && words != [] {
      BeginsUpper(lex, words[0], parts[0]);
    }
  }

  lemma {:induction false} BeginsUpper(lex: Lexicon, info: WordInfo, r: string)
    requires forall w :: w in lex.commonInitialisms ==> w == "" || !IsLower(w[0])
    requires Flagged(lex, info) && PublicCase(info, r)
    ensures r != "" && !IsLower(r[0])
  {
    if IsLower(info.word[0]) && !info.matchCommonInitial {
      assert forall i :: 0 < i <= |info.word| ==> info.word[..i][0] == info.word[0];
      assert NoUpper(info.word);
    }
  }

  /** A private name is made of its words, each in its case, and does not begin with an upper-case
      letter; a keyword gets its suffix. */
  lemma {:induction false} ToGoPrivateCases(lex: Lexicon, name: string)
    returns (words: seq<WordInfo>, parts: seq<string>)
    requires name != "_"
    ensures words == Words(lex, "", false, Trim(name)) && forall i :: 0 <= i < |words| ==> Flagged(lex, words[i])
    ensures |parts| == |words| && forall i :: 0 <= i < |words| ==> PrivateCase(words[i], i == 0, parts[i])
    ensures ToGoPrivate(lex, name) == Joined(parts) + if Joined(parts) in lex.keywords then "Arg" else ""
    ensures Joined(parts) != "" ==> !IsUpper(ToGoPrivate(lex, name)[0])
  {
    words := Words(lex, "", false, Trim(name));
    WordsAreFlagged(lex, "", false, Trim(name));
    parts := PrivateParts(words, true);
    assert Joined(parts) + "" == Joined(parts);
    if words != [] {
      assert |parts[0]| == |words[0].word| && parts[0] != "" && !IsUpper(parts[0][0]);
    }
  }
}
