/** From GraphQL names to Go names: the word splitter, `ToGo` and `ToGoPrivate`, on ASCII names. */
module Naming {

  // --- Characters ---

  predicate IsAscii(s: string) {
    forall i :: 0 <= i < |s| ==> s[i] as int < 128
  }

  predicate IsLower(c: char) { 'a' <= c <= 'z' }

  predicate IsUpper(c: char) { 'A' <= c <= 'Z' }

  predicate IsDigit(c: char) { '0' <= c <= '9' }

  /** `unicode.IsSpace`, on ASCII. */
  predicate IsSpace(c: char) { c == ' ' || 9 <= c as int <= 13 }

  predicate IsDelimiter(c: char) { c == '-' || c == '_' || IsSpace(c) }

  function Lower(c: char): char {
    if IsUpper(c) then (c as int + 32) as char else c
  }

  function Upper(c: char): char {
    if IsLower(c) then (c as int - 32) as char else c
  }

  function ToLower(s: string): (r: string)
    ensures |r| == |s|
  {
    seq(|s|, i requires 0 <= i < |s| => Lower(s[i]))
  }

  function ToUpper(s: string): (r: string)
    ensures |r| == |s|
  {
    seq(|s|, i requires 0 <= i < |s| => Upper(s[i]))
  }

  function UcFirst(s: string): string {
    if s == "" then "" else [Upper(s[0])] + s[1..]
  }

  function LcFirst(s: string): string {
    if s == "" then "" else [Lower(s[0])] + s[1..]
  }

  // --- The matching relation of codegen/util.go ---

  function Without(s: string, drop: char -> bool): string {
    if s == "" then "" else (if drop(s[0]) then "" else [s[0]]) + Without(s[1..], drop)
  }

  const UNDERSCORE: char -> bool := c => c == '_'

  const DELIMITER: char -> bool := c => IsDelimiter(c)

  predicate EqualFieldName(source: string, target: string) {
    ToLower(Without(source, UNDERSCORE)) == ToLower(Without(target, UNDERSCORE))
  }

  // --- The words of a name ---

  datatype WordInfo = WordInfo(word: string, matchCommonInitial: bool, hasCommonInitial: bool)

  /** The two word lists the naming functions consult. */
  datatype Lexicon = Lexicon(commonInitialisms: set<string>, keywords: seq<string>)

  function TrimLeft(s: string): (r: string)
    ensures r != "" ==> !IsDelimiter(r[0])
  {
    if s != "" && IsDelimiter(s[0]) then TrimLeft(s[1..]) else s
  }

  function TrimRight(s: string): (r: string)
    ensures r <= s && (r != "" ==> !IsDelimiter(r[|r| - 1]))
    decreases |s|
  {
    if s != "" && IsDelimiter(s[|s| - 1]) then TrimRight(s[..|s| - 1]) else s
  }

  function Trim(s: string): string {
    TrimRight(TrimLeft(s))
  }

  /** Length of the run of delimiters `s` begins with. */
  function Run(s: string): (n: nat)
    ensures n <= |s|
    ensures forall i :: 0 <= i < n ==> IsDelimiter(s[i])
    ensures n < |s| ==> !IsDelimiter(s[n])
  {
    if s != "" && IsDelimiter(s[0]) then 1 + Run(s[1..]) else 0
  }

  /** What is left of the text after its first character: the run of delimiters there is dropped,
      but for its last one if it stands between two digits. */
  function AfterFirst(s: string): (r: string)
    requires s != ""
    ensures |r| < |s|
  {
    var n := Run(s[1..]);
    if n > 0 && n + 1 < |s| && IsDigit(s[0]) && IsDigit(s[n + 1]) then s[n..] else s[n + 1..]
  }

  /** The text with its runs of delimiters deleted, or cut to the last one between digits. */
  function Squeeze(s: string): string
    decreases |s|
  {
    if s == "" then "" else [s[0]] + Squeeze(AfterFirst(s))
  }

  /** A word ends at a run of delimiters, at the end of the text, and after a lower-case letter
      that is not followed by another. */
  predicate EndsWord(s: string)
    requires s != ""
  {
    |s| == 1 || IsDelimiter(s[1]) || (IsLower(s[0]) && !IsLower(s[1]))
  }

  /** The words of `s`, the first of them continuing `word`; `has` tells whether `word` has been
      a common initialism before it got longer. */
  function Words(lex: Lexicon, word: string, has: bool, s: string): seq<WordInfo>
    decreases |s|
  {
    if s == "" then []
    else
      var longer := word + [s[0]];
      var rest := AfterFirst(s);
      if !EndsWord(s) && !(longer in lex.commonInitialisms && !IsLower(s[1])) then
        Words(lex, longer, has || (longer in lex.commonInitialisms), rest)
      else
        var match_ := ToUpper(longer) in lex.commonInitialisms;
        [WordInfo(longer, match_, has || match_)] + Words(lex, "", false, rest)
  }

  function Concat(words: seq<WordInfo>): string {
    if words == [] then "" else words[0].word + Concat(words[1..])
  }

  /** The words are not empty and make up the squeezed text. */
  lemma {:induction false} WordsMakeUpTheText(lex: Lexicon, word: string, has: bool, s: string)
    requires s != ""
    ensures word + Squeeze(s) == Concat(Words(lex, word, has, s))
    ensures forall i :: 0 <= i < |Words(lex, word, has, s)| ==> Words(lex, word, has, s)[i].word != ""
    decreases |s|
  {
    var longer := word + [s[0]];
    var rest := AfterFirst(s);
    assert word + Squeeze(s) == longer + Squeeze(rest);
    if !EndsWord(s) && !(longer in lex.commonInitialisms && !IsLower(s[1])) {
      assert rest == s[1..] != "";
      WordsMakeUpTheText(lex, longer, has || (longer in lex.commonInitialisms), rest);
    } else {
      if rest != "" {
        WordsMakeUpTheText(lex, "", false, rest);
        assert "" + Squeeze(rest) == Squeeze(rest);
      }
    }
  }

  // --- Go names ---

  function PublicWord(info: WordInfo): string {
    if info.matchCommonInitial then ToUpper(info.word)
    else if !info.hasCommonInitial && (ToUpper(info.word) == info.word || ToLower(info.word) == info.word) then
      UcFirst(ToLower(info.word))
    else info.word
  }

  function PrivateWord(info: WordInfo, first: bool): string {
    if first then
      if ToUpper(info.word) == info.word || ToLower(info.word) == info.word then ToLower(info.word)
      else LcFirst(info.word)
    else if info.matchCommonInitial then ToUpper(info.word)
    else if !info.hasCommonInitial then UcFirst(ToLower(info.word))
    else info.word
  }

  function PublicWords(words: seq<WordInfo>): string {
    if words == [] then "" else PublicWord(words[0]) + PublicWords(words[1..])
  }

  function PrivateWords(words: seq<WordInfo>, first: bool): string {
    if words == [] then "" else PrivateWord(words[0], first) + PrivateWords(words[1..], false)
  }

  function SanitizeKeywords(lex: Lexicon, name: string): string {
    if name in lex.keywords then name + "Arg" else name
  }

  function ToGo(lex: Lexicon, name: string): string {
    if name == "_" then "_" else PublicWords(Words(lex, "", false, Trim(name)))
  }

  function ToGoPrivate(lex: Lexicon, name: string): string {
    if name == "_" then "_" else SanitizeKeywords(lex, PrivateWords(Words(lex, "", false, Trim(name)), true))
  }
}

/** The word lists of codegen/templates/templates.go. */
module GoLexicon {
  import opened Naming

  const GO := Lexicon(
    { "ACL", "API", "ASCII", "CPU", "CSS", "DNS", "EOF", "GUID", "HTML", "HTTP", "HTTPS", "ID", "IP", "JSON", "LHS",
      "PGP", "QPS", "RAM", "RHS", "RPC", "SLA", "SMTP", "SQL", "SSH", "TCP", "TLS", "TTL", "UDP", "UI", "UID", "UUID",
      "URI", "URL", "UTF8", "VM", "XML", "XMPP", "XSRF", "XSS" },
    ["break", "default", "func", "interface", "select", "case", "defer", "go", "map", "struct", "chan", "else", "goto",
     "package", "switch", "const", "fallthrough", "if", "range", "type", "continue", "for", "import", "return", "var",
     "_"])

  lemma {:induction false} IfIsAKeyword()
    ensures "i" !in GO.commonInitialisms && "if" !in GO.commonInitialisms && "IF" !in GO.commonInitialisms
    ensures "if" in GO.keywords
  {
    assert GO.keywords[17] == "if";
  }
}
