/** `MarshalID` quotes with `strconv.Quote`, by the rules of Go rather than those of JSON. On ASCII. */
module Ids {
  import opened Json
  import opened JsonRoundTrip

  const LOWER_HEX := "0123456789abcdef"

  /** `strconv.Quote`, character by character. */
  function GoEscape(c: char): string
    requires c as int < 128
  {
    if c == '"' || c == '\\' then ['\\', c]
    else if c == 7 as char then "\\a"
    else if c == 8 as char then "\\b"
    else if c == 12 as char then "\\f"
    else if c == '\n' then "\\n"
    else if c == '\r' then "\\r"
    else if c == '\t' then "\\t"
    else if c == 11 as char then "\\v"
    else if c < ' ' || c == 127 as char then "\\x" + [LOWER_HEX[c as int / 16], LOWER_HEX[c as int % 16]]
    else [c]
  }

  function GoEscapeAll(s: string): string
    requires forall i :: 0 <= i < |s| ==> s[i] as int < 128
  {
    if s == "" then "" else GoEscape(s[0]) + GoEscapeAll(s[1..])
  }

  function GoQuote(s: string): string
    requires forall i :: 0 <= i < |s| ==> s[i] as int < 128
  {
    "\"" + GoEscapeAll(s) + "\""
  }

  /** Control characters for which JSON has no escape that Go would use. */
  predicate Breaks(c: char) {
    c == 127 as char || (c < ' ' && c != 8 as char && c != 12 as char && c != '\n' && c != '\r' && c != '\t')
  }

  lemma {:induction false} GoEscapeDecodes(c: char, rest: string)
    requires c as int < 128
    ensures ParseChars(GoEscape(c) + rest) == if Breaks(c) then Fail else Prepend(c, ParseChars(rest))
  {
    var e := GoEscape(c);
    var t := e + rest;
    assert t[0] == e[0] && t[1..] == e[1..] + rest;
    if e == [c] {
      assert t[1..] == rest;
    } else {
      assert t[1..][0] == e[1];
      if |e| == 2 {
        assert t[1..][1..] == rest;
      }
    }
  }

  lemma {:induction false} GoCharsParse(s: string, end: string)
    requires forall i :: 0 <= i < |s| ==> s[i] as int < 128
    requires end != "" && end[0] == '"'
    ensures ParseChars(GoEscapeAll(s) + end)
         == if exists i :: 0 <= i < |s| && Breaks(s[i]) then Fail else Got(s, end[1..])
    decreases |s|
  {
    if s == "" {
      assert "" + end == end;
    } else {
      var tail := GoEscapeAll(s[1..]) + end;
      assert GoEscapeAll(s) + end == GoEscape(s[0]) + tail;
      GoEscapeDecodes(s[0], tail);
      GoCharsParse(s[1..], end);
      assert [s[0]] + s[1..] == s;
      BreaksBelow(s);
    }
  }

  lemma {:induction false} BreaksBelow(s: string)
    requires s != ""
    ensures (exists i :: 0 <= i < |s| && Breaks(s[i]))
            <==> Breaks(s[0]) || exists i :: 0 <= i < |s[1..]| && Breaks(s[1..][i])
  {
    if i :| 0 <= i < |s| && Breaks(s[i]) {
      if i > 0 {
        assert s[1..][i - 1] == s[i];
      }
    }
    if i :| 0 <= i < |s[1..]| && Breaks(s[1..][i]) {
      assert s[i + 1] == s[1..][i];
    }
  }

  /** The text written for an ID parses to the ID, if and only if it has none of these characters; if it
      has one, the response is not JSON. */
  lemma {:induction false} IdParsesExactlyIfPlain(s: string, rest: string)
    requires forall i :: 0 <= i < |s| ==> s[i] as int < 128
    ensures ParseValue(GoQuote(s) + rest)
         == if exists i :: 0 <= i < |s| && Breaks(s[i]) then Fail else Got(Str(s), rest)
  {
    var t, end := GoQuote(s) + rest, "\"" + rest;
    GoCharsParse(s, end);
    Between(GoEscapeAll(s), rest);
    Quoted(t);
  }

  lemma {:induction false} Between(inner: string, rest: string)
    ensures var t, end := "\"" + inner + "\"" + rest, "\"" + rest;
            t[0] == '"' && t[1..] == inner + end && end[1..] == rest
  {
  }

  lemma {:induction false} Quoted(t: string)
    requires t != "" && t[0] == '"'
    ensures ParseValue(t) == match ParseChars(t[1..]) case Fail => Fail case Got(x, rest) => Got(Str(x), rest)
  {
    NotLiteral(t);
    assert SkipSpace(t) == t;
  }
}
