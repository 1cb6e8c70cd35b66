/** Where the words of a name begin and end, said of positions in the text. */
module NameSplitting {
  import opened Naming

  /** A word may end after the first `n` characters: at the end of the text, before a delimiter, after
      the last of some lower-case letters, and after an initialism that no lower-case letter follows. */
  ghost predicate Stops(lex: Lexicon, text: string, n: int) {
    && 0 < n <= |text|
    && (n < |text| ==>
          || IsDelimiter(text[n])
          || (IsLower(text[n - 1]) && !IsLower(text[n]))
          || (text[..n] in lex.commonInitialisms && !IsLower(text[n])))
  }

  /** The next word begins at `k` if this one ends at `n`: after the delimiters, but at the last of them
      if they stand between two digits. */
  ghost predicate Resumes(text: string, n: int, k: int) {
    && 0 < n <= k <= |text|
    && (forall i :: n <= i < k ==> IsDelimiter(text[i]))
    && (k < |text| ==>
          if IsDelimiter(text[k]) then
            IsDigit(text[n - 1]) && k + 1 < |text| && IsDigit(text[k + 1])
          else
            k == n || !IsDigit(text[n - 1]) || !IsDigit(text[k]))
  }

  /** Each word ends at the first place where it may, and the next one begins thereafter. */
  ghost predicate SplitInto(lex: Lexicon, text: string, words: seq<WordInfo>)
    decreases |text|
  {
    if text == "" then words == []
    else
      && words != []
      && var n := |words[0].word|;
         && n <= |text| && words[0].word == text[..n]
         && Stops(lex, text, n) && (forall i :: 0 < i < n ==> !Stops(lex, text, i))
         && exists k :: Resumes(text, n, k) && SplitInto(lex, text[k..], words[1..])
  }

  lemma {:induction false} AfterFirstResumes(text: string, n: nat) returns (k: nat)
    requires n < |text|
    ensures Resumes(text, n + 1, k) && AfterFirst(text[n..]) == text[k..]
  {
    var s := text[n..];
    var m := Run(s[1..]);
    assert forall i :: 0 <= i < |s| ==> s[i] == text[n + i];
    assert forall i :: 0 <= i < m ==> s[1..][i] == s[i + 1];
    k := n + 1 + m;
    if m > 0 && m + 1 < |s| && IsDigit(s[0]) && IsDigit(s[m + 1]) {
      k := n + m;
    }
    forall i | n + 1 <= i < k ensures IsDelimiter(text[i]) {
      assert text[i] == s[1..][i - n - 1];
    }
    assert m + 1 < |s| ==> s[1..][m] == text[n + 1 + m];
  }

  /** The first word of `text` has come as far as `n`, without a place to end so far. */
  lemma {:induction false} WordsSplit(lex: Lexicon, text: string, n: nat, has: bool)
    requires n < |text| && forall i :: 0 < i <= n ==> !Stops(lex, text, i)
    ensures SplitInto(lex, text, Words(lex, text[..n], has, text[n..]))
    decreases |text|, |text| - n
  {
    var s := text[n..];
    var longer := text[..n] + [s[0]];
    assert longer == text[..n + 1];
    assert n + 1 < |text| ==> s[1] == text[n + 1];
    if !EndsWord(s) && !(longer in lex.commonInitialisms && !IsLower(s[1])) {
      assert AfterFirst(s) == s[1..] == text[n + 1..];
      WordsSplit(lex, text, n + 1, has || (longer in lex.commonInitialisms));
    } else {
      var k := AfterFirstResumes(text, n);
      var rest := text[k..];
      assert Stops(lex, text, n + 1);
      if rest != "" {
        assert rest[..0] == "" && rest[0..] == rest;
        WordsSplit(lex, rest, 0, false);
      }
      assert SplitInto(lex, text[k..], Words(lex, "", false, rest));
    }
  }

  /** The words are cut from the trimmed text exactly where they may end, first come first. */
  lemma {:induction false} WordsAreCut(lex: Lexicon, name: string)
    ensures SplitInto(lex, Trim(name), Words(lex, "", false, Trim(name)))
  {
    var text := Trim(name);
    if text != "" {
      assert text[..0] == "" && text[0..] == text;
      WordsSplit(lex, text, 0, false);
    }
  }
}
