/** Go names match the GraphQL names they come from. */
module NamingLaws {
  import opened Naming
  import GoLexicon

  // --- Case ---

  lemma {:induction false} LowerTwice(c: char)
    ensures Lower(Lower(c)) == Lower(c) && Lower(Upper(c)) == Lower(c)
    ensures IsDelimiter(Lower(c)) == IsDelimiter(c) && IsDelimiter(Upper(c)) == IsDelimiter(c)
    ensures (Lower(c) == '_') == (c == '_') && (Upper(c) == '_') == (c == '_')
  {
  }

  /** Equal but for case, character by character. */
  ghost predicate SameLetters(a: string, b: string) {
    |a| == |b| && forall i :: 0 <= i < |a| ==> Lower(a[i]) == Lower(b[i])
  }

  lemma {:induction false} CaseChanges(s: string)
    ensures SameLetters(ToUpper(s), s) && SameLetters(ToLower(s), s)
    ensures SameLetters(UcFirst(s), s) && SameLetters(LcFirst(s), s)
    ensures SameLetters(UcFirst(ToLower(s)), s)
  {
    WholeCaseChanges(s);
    WholeCaseChanges(ToLower(s));
    FirstCaseChanges(s);
    FirstCaseChanges(ToLower(s));
  }

  lemma {:induction false} WholeCaseChanges(s: string)
    ensures SameLetters(ToUpper(s), s) && SameLetters(ToLower(s), s)
  {
    forall i | 0 <= i < |s| ensures Lower(Lower(s[i])) == Lower(s[i]) && Lower(Upper(s[i])) == Lower(s[i]) {
      LowerTwice(s[i]);
    }
  }

  lemma {:induction false} FirstCaseChanges(s: string)
    ensures SameLetters(UcFirst(s), s) && SameLetters(LcFirst(s), s)
  {
    if s != "" {
      LowerTwice(s[0]);
    }
  }

  lemma {:induction false} SameLettersAppend(a: string, a': string, b: string, b': string)
    requires SameLetters(a, a') && SameLetters(b, b')
    ensures SameLetters(a + b, a' + b')
  {
  }

  lemma {:induction false} PublicLetters(words: seq<WordInfo>)
    ensures SameLetters(PublicWords(words), Concat(words))
    decreases |words|
  {
    if words != [] {
      CaseChanges(words[0].word);
      PublicLetters(words[1..]);
      SameLettersAppend(PublicWord(words[0]), words[0].word, PublicWords(words[1..]), Concat(words[1..]));
    }
  }

  lemma {:induction false} PrivateLetters(words: seq<WordInfo>, first: bool)
    ensures SameLetters(PrivateWords(words, first), Concat(words))
    decreases |words|
  {
    if words != [] {
      CaseChanges(words[0].word);
      PrivateLetters(words[1..], false);
      SameLettersAppend(PrivateWord(words[0], first), words[0].word,
                        PrivateWords(words[1..], false), Concat(words[1..]));
    }
  }

  // --- Delimiters ---

  /** A set of delimiters that does not depend on case. */
  ghost predicate Drops(drop: char -> bool) {
    forall c, d :: Lower(c) == Lower(d) ==> drop(c) == drop(d)
  }

  lemma {:induction false} KnownDrops()
    ensures Drops(UNDERSCORE) && Drops(DELIMITER)
  {
    forall c, d | Lower(c) == Lower(d)
      ensures UNDERSCORE(c) == UNDERSCORE(d) && DELIMITER(c) == DELIMITER(d)
    {
      LowerTwice(c);
      LowerTwice(d);
    }
  }

  lemma {:induction false} WithoutLetters(a: string, b: string, drop: char -> bool)
    requires SameLetters(a, b) && Drops(drop)
    ensures SameLetters(Without(a, drop), Without(b, drop))
    decreases |a|
  {
    if a != "" {
      assert Lower(a[0]) == Lower(b[0]);
      WithoutLetters(a[1..], b[1..], drop);
      SameLettersAppend(if drop(a[0]) then "" else [a[0]], if drop(b[0]) then "" else [b[0]],
                        Without(a[1..], drop), Without(b[1..], drop));
    }
  }

  lemma {:induction false} WithoutAppend(a: string, b: string, drop: char -> bool)
    ensures Without(a + b, drop) == Without(a, drop) + Without(b, drop)
    decreases |a|
  {
    if a == "" {
      assert a + b == b;
    } else {
      assert (a + b)[0] == a[0] && (a + b)[1..] == a[1..] + b;
      WithoutAppend(a[1..], b, drop);
    }
  }

  lemma {:induction false} WithoutAll(s: string, drop: char -> bool)
    requires forall i :: 0 <= i < |s| ==> drop(s[i])
    ensures Without(s, drop) == ""
    decreases |s|
  {
    if s != "" {
      WithoutAll(s[1..], drop);
    }
  }

  /** Every delimiter of `s` is dropped. */
  ghost predicate Covers(drop: char -> bool, s: string) {
    forall i :: 0 <= i < |s| && IsDelimiter(s[i]) ==> drop(s[i])
  }

  lemma {:induction false} CoversSuffix(drop: char -> bool, s: string, k: nat)
    requires Covers(drop, s) && k <= |s|
    ensures Covers(drop, s[k..])
  {
    forall i | 0 <= i < |s[k..]| && IsDelimiter(s[k..][i]) ensures drop(s[k..][i]) {
      assert s[k..][i] == s[k + i];
    }
  }

  /** Between the first character and the rest there are only delimiters. */
  lemma {:induction false} AfterFirstDrops(s: string, drop: char -> bool)
    requires s != "" && Covers(drop, s)
    ensures Covers(drop, AfterFirst(s))
    ensures Without(s, drop) == Without([s[0]], drop) + Without(AfterFirst(s), drop)
  {
    var cut := CutAfterFirst(s);
    CoversSuffix(drop, s, cut);
    WithoutGap(s[0], s[1..cut], s[cut..], drop);
    Parts(s, cut);
  }

  lemma {:induction false} CutAfterFirst(s: string) returns (cut: nat)
    requires s != ""
    ensures 1 <= cut <= |s| && AfterFirst(s) == s[cut..]
    ensures forall i :: 1 <= i < cut ==> IsDelimiter(s[i])
  {
    var n := Run(s[1..]);
    cut := if n > 0 && n + 1 < |s| && IsDigit(s[0]) && IsDigit(s[n + 1]) then n else n + 1;
    forall i | 1 <= i < cut ensures IsDelimiter(s[i]) {
      assert s[i] == s[1..][i - 1];
    }
  }

  lemma {:induction false} Parts(s: string, cut: nat)
    requires 1 <= cut <= |s|
    ensures s == [s[0]] + (s[1..cut] + s[cut..])
  {
  }

  lemma {:induction false} WithoutGap(c: char, gap: string, rest: string, drop: char -> bool)
    requires forall i :: 0 <= i < |gap| ==> drop(gap[i])
    ensures Without([c] + (gap + rest), drop) == Without([c], drop) + Without(rest, drop)
  {
    WithoutAll(gap, drop);
    WithoutAppend(gap, rest, drop);
    WithoutAppend([c], gap + rest, drop);
    assert "" + Without(rest, drop) == Without(rest, drop);
  }

  lemma {:induction false} SqueezeKeepsTheRest(s: string, drop: char -> bool)
    requires Covers(drop, s)
    ensures Without(Squeeze(s), drop) == Without(s, drop)
    decreases |s|
  {
    if s != "" {
      AfterFirstDrops(s, drop);
      SqueezeKeepsTheRest(AfterFirst(s), drop);
      WithoutAppend([s[0]], Squeeze(AfterFirst(s)), drop);
    }
  }

  lemma {:induction false} TrimLeftKeepsTheRest(s: string, drop: char -> bool)
    requires Covers(drop, s)
    ensures Without(TrimLeft(s), drop) == Without(s, drop) && Covers(drop, TrimLeft(s))
    decreases |s|
  {
    if s != "" && IsDelimiter(s[0]) {
      assert forall i :: 0 <= i < |s| - 1 ==> s[1..][i] == s[i + 1];
      TrimLeftKeepsTheRest(s[1..], drop);
    }
  }

  lemma {:induction false} TrimRightKeepsTheRest(s: string, drop: char -> bool)
    requires Covers(drop, s)
    ensures Without(TrimRight(s), drop) == Without(s, drop) && Covers(drop, TrimRight(s))
    decreases |s|
  {
    if s != "" && IsDelimiter(s[|s| - 1]) {
      var n := |s| - 1;
      TrimRightKeepsTheRest(s[..n], drop);
      assert s == s[..n] + [s[n]];
      WithoutAppend(s[..n], [s[n]], drop);
      assert Without([s[n]], drop) == "" by { assert [s[n]][1..] == ""; }
    }
  }

  // --- Names match ---

  lemma {:induction false} WordsKeepTheRest(lex: Lexicon, name: string, drop: char -> bool)
    requires Covers(drop, name)
    ensures Without(Concat(Words(lex, "", false, Trim(name))), drop) == Without(name, drop)
  {
    TrimLeftKeepsTheRest(name, drop);
    TrimRightKeepsTheRest(TrimLeft(name), drop);
    SqueezeKeepsTheRest(Trim(name), drop);
    if Trim(name) != "" {
      WordsMakeUpTheText(lex, "", false, Trim(name));
      assert "" + Squeeze(Trim(name)) == Squeeze(Trim(name));
    }
  }

  lemma {:induction false} SameLettersLower(a: string, b: string)
    requires SameLetters(a, b)
    ensures ToLower(a) == ToLower(b)
  {
  }

  /** Whatever the delimiters, the Go name has the letters and digits of the name, in order. */
  lemma {:induction false} ToGoKeepsLetters(lex: Lexicon, name: string)
    ensures ToLower(Without(ToGo(lex, name), DELIMITER)) == ToLower(Without(name, DELIMITER))
  {
    var words := Words(lex, "", false, Trim(name));
    KnownDrops();
    WordsKeepTheRest(lex, name, DELIMITER);
    PublicLetters(words);
    WithoutLetters(PublicWords(words), Concat(words), DELIMITER);
    if name != "_" {
      SameLettersLower(Without(ToGo(lex, name), DELIMITER), Without(name, DELIMITER));
    }
  }

  /** Underscore is the only delimiter in it, as in every GraphQL name. */
  predicate OnlyUnderscores(name: string) {
    forall i :: 0 <= i < |name| && IsDelimiter(name[i]) ==> name[i] == '_'
  }

  /** The Go name of a GraphQL name matches it. */
  lemma {:induction false} ToGoMatches(lex: Lexicon, name: string)
    requires OnlyUnderscores(name)
    ensures EqualFieldName(ToGo(lex, name), name)
  {
    var words := Words(lex, "", false, Trim(name));
    KnownDrops();
    assert Covers(UNDERSCORE, name);
    WordsKeepTheRest(lex, name, UNDERSCORE);
    PublicLetters(words);
    WithoutLetters(PublicWords(words), Concat(words), UNDERSCORE);
    if name != "_" {
      SameLettersLower(Without(ToGo(lex, name), UNDERSCORE), Without(name, UNDERSCORE));
    }
  }

  /** The private Go name matches, exactly if it is not a keyword. */
  lemma {:induction false} ToGoPrivateMatches(lex: Lexicon, name: string)
    requires OnlyUnderscores(name)
    ensures var plain := PrivateWords(Words(lex, "", false, Trim(name)), true);
            EqualFieldName(ToGoPrivate(lex, name), name) <==> name == "_" || plain !in lex.keywords
  {
    var words := Words(lex, "", false, Trim(name));
    var plain := PrivateWords(words, true);
    KnownDrops();
    assert Covers(UNDERSCORE, name);
    WordsKeepTheRest(lex, name, UNDERSCORE);
    PrivateLetters(words, true);
    WithoutLetters(plain, Concat(words), UNDERSCORE);
    SameLettersLower(Without(plain, UNDERSCORE), Without(name, UNDERSCORE));
    if name != "_" && plain in lex.keywords {
      WithoutAppend(plain, "Arg", UNDERSCORE);
      NoUnderscore();
      assert |Without(ToGoPrivate(lex, name), UNDERSCORE)| == |Without(plain, UNDERSCORE)| + 3;
      assert |ToLower(Without(ToGoPrivate(lex, name), UNDERSCORE))| != |ToLower(Without(name, UNDERSCORE))|;
    }
  }

  lemma {:induction false} NoUnderscore()
    ensures Without("Arg", UNDERSCORE) == "Arg"
  {
    assert "Arg"[1..] == "rg" && "rg"[1..] == "g" && "g"[1..] == "";
  }

  lemma {:induction false} IfIsOneWord(lex: Lexicon)
    requires "i" !in lex.commonInitialisms && "if" !in lex.commonInitialisms && "IF" !in lex.commonInitialisms
    ensures Words(lex, "", false, "if") == [WordInfo("if", false, false)]
  {
    assert "if"[1..] == "f" && "f"[1..] == "" && Run("f") == 0;
    assert AfterFirst("if") == "f" && AfterFirst("f") == "";
    assert "" + ['i'] == "i" && "i" + ['f'] == "if" && ToUpper("if") == "IF";
  }

  lemma {:induction false} IfStaysAsItIs()
    ensures Trim("if") == "if" && PrivateWords([WordInfo("if", false, false)], true) == "if"
  {
    assert ToLower("if") == "if";
    assert [WordInfo("if", false, false)][1..] == [];
  }

  lemma {:induction false} IfGetsASuffix(lex: Lexicon)
    requires "i" !in lex.commonInitialisms && "if" !in lex.commonInitialisms && "IF" !in lex.commonInitialisms
    requires "if" in lex.keywords
    ensures ToGoPrivate(lex, "if") == "ifArg" && !EqualFieldName(ToGoPrivate(lex, "if"), "if")
  {
    IfIsOneWord(lex);
    IfStaysAsItIs();
    ToGoPrivateMatches(lex, "if");
  }

  /** A keyword of Go, by the source's own lists: it gets a suffix, and no longer matches. */
  lemma {:induction false} AKeywordDoesNotMatch()
    ensures ToGoPrivate(GoLexicon.GO, "if") == "ifArg"
    ensures !EqualFieldName(ToGoPrivate(GoLexicon.GO, "if"), "if")
  {
    GoLexicon.IfIsAKeyword();
    IfGetsASuffix(GoLexicon.GO);
  }
}
