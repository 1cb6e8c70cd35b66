/** JSON text: what the serializer writes, and a parser for it (RFC 8259, integers only). */
module Json {

  datatype Json =
    | Null | True | False
    | Int(n: int)
    | Str(s: string)
    | Arr(items: seq<Json>)
    | Obj(members: seq<Member>)

  datatype Member = Member(alias: string, value: Json)

  datatype Parsed<+T> = Fail | Got(value: T, rest: string)

  // --- What the serializer writes ---

  const HEX := "0123456789ABCDEF"

  /** A character of a quoted string. */
  function Escape(c: char): string {
    if c == '\t' then "\\t"
    else if c == '\r' then "\\r"
    else if c == '\n' then "\\n"
    else if c == '\\' then "\\\\"
    else if c == '"' then "\\\""
    else if c < ' ' then "\\u00" + [HEX[c as int / 16], HEX[c as int % 16]]
    else [c]
  }

  function EscapeAll(s: string): string {
    if s == "" then "" else Escape(s[0]) + EscapeAll(s[1..])
  }

  function Quote(s: string): string {
    "\"" + EscapeAll(s) + "\""
  }

  function Digit(d: int): char
    requires 0 <= d < 10
  {
    "0123456789"[d]
  }

  function Digits(n: nat): (s: string)
    ensures s != "" && forall i :: 0 <= i < |s| ==> IsDigit(s[i])
  {
    if n < 10 then [Digit(n)] else Digits(n / 10) + [Digit(n % 10)]
  }

  function Itoa(n: int): string {
    if n < 0 then "-" + Digits(-n) else Digits(n)
  }

  function Write(j: Json): string
    decreases j
  {
    match j
    case Null => "null"
    case True => "true"
    case False => "false"
    case Int(n) => Itoa(n)
    case Str(s) => Quote(s)
    case Arr(items) => "[" + WriteItems(items) + "]"
    case Obj(members) => "{" + WriteMembers(members) + "}"
  }

  function WriteItems(items: seq<Json>): string
    decreases items
  {
    if items == [] then ""
    else if |items| == 1 then Write(items[0])
    else Write(items[0]) + "," + WriteItems(items[1..])
  }

  function WriteMembers(members: seq<Member>): string
    decreases members
  {
    if members == [] then ""
    else if |members| == 1 then WriteMember(members[0])
    else WriteMember(members[0]) + "," + WriteMembers(members[1..])
  }

  function WriteMember(m: Member): string
    decreases m
  {
    Quote(m.alias) + ":" + Write(m.value)
  }

  // --- The parser ---

  predicate IsSpace(c: char) {
    c == ' ' || c == '\t' || c == '\n' || c == '\r'
  }

  predicate IsDigit(c: char) {
    '0' <= c <= '9'
  }

  function SkipSpace(s: string): (r: string)
    ensures |r| <= |s|
    ensures r != "" ==> !IsSpace(r[0])
  {
    if s != "" && IsSpace(s[0]) then SkipSpace(s[1..]) else s
  }

  predicate StartsWith(s: string, prefix: string) {
    prefix <= s
  }

  function HexValue(c: char): (v: int)
    ensures -1 <= v < 16
  {
    if '0' <= c <= '9' then c as int - '0' as int
    else if 'a' <= c <= 'f' then c as int - 'a' as int + 10
    else if 'A' <= c <= 'F' then c as int - 'A' as int + 10
    else -1
  }

  /** The character after a backslash. Surrogate escapes are not accepted: a Dafny character is
      never a surrogate. */
  function ParseEscape(s: string): (r: Parsed<char>)
    ensures r.Got? ==> |r.rest| < |s|
  {
    if s == "" then Fail
    else if s[0] == '"' || s[0] == '\\' || s[0] == '/' then Got(s[0], s[1..])
    else if s[0] == 'b' then Got(8 as char, s[1..])
    else if s[0] == 'f' then Got(12 as char, s[1..])
    else if s[0] == 'n' then Got('\n', s[1..])
    else if s[0] == 'r' then Got('\r', s[1..])
    else if s[0] == 't' then Got('\t', s[1..])
    else if s[0] == 'u' && |s| >= 5 then
      var a, b, c, d := HexValue(s[1]), HexValue(s[2]), HexValue(s[3]), HexValue(s[4]);
      var v := 4096 * a + 256 * b + 16 * c + d;
      if a < 0 || b < 0 || c < 0 || d < 0 || 0xD800 <= v < 0xE000 then Fail else Got(v as char, s[5..])
    else Fail
  }

  /** The characters up to the closing quote; control characters must be escaped. */
  function ParseChars(s: string): (r: Parsed<string>)
    ensures r.Got? ==> |r.rest| < |s|
    decreases |s|
  {
    if s == "" || s[0] < ' ' then Fail
    else if s[0] == '"' then Got("", s[1..])
    else if s[0] == '\\' then
      match ParseEscape(s[1..])
      case Fail => Fail
      case Got(c, rest) => Prepend(c, ParseChars(rest))
    else Prepend(s[0], ParseChars(s[1..]))
  }

  function Prepend(c: char, r: Parsed<string>): Parsed<string> {
    if r.Got? then Got([c] + r.value, r.rest) else Fail
  }

  function DigitPrefix(s: string): (n: nat)
    ensures n <= |s| && forall i :: 0 <= i < n ==> IsDigit(s[i])
    ensures n < |s| ==> !IsDigit(s[n])
  {
    if s != "" && IsDigit(s[0]) then 1 + DigitPrefix(s[1..]) else 0
  }

  function ValueOf(digits: string): nat
    requires forall i :: 0 <= i < |digits| ==> IsDigit(digits[i])
    decreases |digits|
  {
    if digits == "" then 0
    else
      var last := digits[|digits| - 1];
      assert IsDigit(last);
      10 * ValueOf(digits[..|digits| - 1]) + (last as int - '0' as int)
  }

  /** An integer without leading zeros; fractions and exponents are not accepted. */
  function ParseNumber(s: string): (r: Parsed<int>)
    ensures r.Got? ==> |r.rest| < |s|
  {
    var negative := s != "" && s[0] == '-';
    var t := if negative then s[1..] else s;
    var n := DigitPrefix(t);
    if n == 0 || (n > 1 && t[0] == '0') then Fail
    else if n < |t| && (t[n] == '.' || t[n] == 'e' || t[n] == 'E') then Fail
    else
      var v: int := ValueOf(t[..n]);
      Got(if negative then -v else v, t[n..])
  }

  function ParseValue(text: string): (r: Parsed<Json>)
    ensures r.Got? ==> |r.rest| < |text|
    decreases |text|, 2
  {
    var s := SkipSpace(text);
    if s == "" then Fail
    else if StartsWith(s, "null") then Got(Null, s[4..])
    else if StartsWith(s, "true") then Got(True, s[4..])
    else if StartsWith(s, "false") then Got(False, s[5..])
    else if s[0] == '"' then
      match ParseChars(s[1..])
      case Fail => Fail
      case Got(x, rest) => Got(Str(x), rest)
    else if s[0] == '-' || IsDigit(s[0]) then
      match ParseNumber(s)
      case Fail => Fail
      case Got(n, rest) => Got(Int(n), rest)
    else if s[0] == '[' then
      var t := SkipSpace(s[1..]);
      if t != "" && t[0] == ']' then Got(Arr([]), t[1..])
      else
        match ParseItems(s[1..])
        case Fail => Fail
        case Got(items, rest) => Got(Arr(items), rest)
    else if s[0] == '{' then
      var t := SkipSpace(s[1..]);
      if t != "" && t[0] == '}' then Got(Obj([]), t[1..])
      else
        match ParseMembers(s[1..])
        case Fail => Fail
        case Got(members, rest) => Got(Obj(members), rest)
    else Fail
  }

  /** One or more items, and the closing bracket. */
  function ParseItems(s: string): (r: Parsed<seq<Json>>)
    ensures r.Got? ==> |r.rest| < |s|
    decreases |s|, 3
  {
    match ParseValue(s)
    case Fail => Fail
    case Got(x, rest) =>
      var t := SkipSpace(rest);
      if t == "" then Fail
      else if t[0] == ']' then Got([x], t[1..])
      else if t[0] == ',' then
        match ParseItems(t[1..])
        case Fail => Fail
        case Got(xs, rest') => Got([x] + xs, rest')
      else Fail
  }

  function ParseMember(text: string): (r: Parsed<Member>)
    ensures r.Got? ==> |r.rest| < |text|
    decreases |text|, 3
  {
    var s := SkipSpace(text);
    if s == "" || s[0] != '"' then Fail
    else
      match ParseChars(s[1..])
      case Fail => Fail
      case Got(alias, rest) =>
        var t := SkipSpace(rest);
        if t == "" || t[0] != ':' then Fail
        else
          match ParseValue(t[1..])
          case Fail => Fail
          case Got(x, rest') => Got(Member(alias, x), rest')
  }

  function ParseMembers(s: string): (r: Parsed<seq<Member>>)
    ensures r.Got? ==> |r.rest| < |s|
    decreases |s|, 4
  {
    match ParseMember(s)
    case Fail => Fail
    case Got(m, rest) =>
      var t := SkipSpace(rest);
      if t == "" then Fail
      else if t[0] == '}' then Got([m], t[1..])
      else if t[0] == ',' then
        match ParseMembers(t[1..])
        case Fail => Fail
        case Got(ms, rest') => Got([m] + ms, rest')
      else Fail
  }

  /** A whole JSON text. */
  function Parse(text: string): (r: Parsed<Json>)
  {
    match ParseValue(text)
    case Fail => Fail
    case Got(j, rest) => if SkipSpace(rest) == "" then Got(j, "") else Fail
  }
}
