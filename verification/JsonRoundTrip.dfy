/** Parsing what was written gives back what was to be written. */
module JsonRoundTrip {
  import opened Json

  lemma {:induction false} Assoc(a: string, b: string, c: string)
    ensures (a + b) + c == a + (b + c)
  {
  }

  // --- Strings ---

  lemma {:induction false} EscapeDecodes(c: char, rest: string)
    ensures Escape(c) != "" && !(Escape(c)[0] < ' ') && Escape(c)[0] != '"'
    ensures ParseChars(Escape(c) + rest) == Prepend(c, ParseChars(rest))
  {
    var e := Escape(c);
    var t := e + rest;
    if e == [c] {
      assert t[0] == c && t[1..] == rest;
    } else {
      assert t[0] == '\\';
      assert t[1..] == e[1..] + rest;
      if |e| == 2 {
        assert t[1..][0] == e[1] && t[1..][1..] == rest;
      } else {
        ControlDecodes(c, rest);
      }
    }
  }

  lemma {:induction false} HexDigits(d: int)
    requires 0 <= d < 16
    ensures HexValue(HEX[d]) == d
  {
    assert HEX[0] == '0' && HEX[1] == '1' && HEX[2] == '2' && HEX[3] == '3' && HEX[4] == '4' && HEX[5] == '5'
        && HEX[6] == '6' && HEX[7] == '7' && HEX[8] == '8' && HEX[9] == '9' && HEX[10] == 'A' && HEX[11] == 'B'
        && HEX[12] == 'C' && HEX[13] == 'D' && HEX[14] == 'E' && HEX[15] == 'F';
  }

  lemma {:induction false} ControlDecodes(c: char, rest: string)
    requires c < ' ' && |Escape(c)| == 6
    ensures ParseEscape(Escape(c)[1..] + rest) == Got(c, rest)
  {
    var s := Escape(c)[1..] + rest;
    var hi, lo := c as int / 16, c as int % 16;
    HexDigits(hi);
    HexDigits(lo);
    assert s[0] == 'u' && s[1] == '0' && s[2] == '0' && s[3] == HEX[hi] && s[4] == HEX[lo] && s[5..] == rest;
    assert 16 * hi + lo == c as int;
  }

  lemma {:induction false} CharsRoundTrip(s: string, end: string)
    requires end != "" && end[0] == '"'
    ensures ParseChars(EscapeAll(s) + end) == Got(s, end[1..])
    decreases |s|
  {
    if s == "" {
      assert "" + end == end;
    } else {
      var tail := EscapeAll(s[1..]) + end;
      assert EscapeAll(s) + end == Escape(s[0]) + tail;
      EscapeDecodes(s[0], tail);
      CharsRoundTrip(s[1..], end);
      assert [s[0]] + s[1..] == s;
    }
  }

  lemma {:induction false} QuoteRoundTrip(s: string, rest: string)
    ensures (Quote(s) + rest) != "" && (Quote(s) + rest)[0] == '"'
    ensures ParseChars((Quote(s) + rest)[1..]) == Got(s, rest)
  {
    var end := "\"" + rest;
    assert (Quote(s) + rest)[1..] == EscapeAll(s) + end;
    assert end[1..] == rest;
    CharsRoundTrip(s, end);
  }

  // --- Numbers ---

  lemma {:induction false} DigitsValue(n: nat)
    ensures ValueOf(Digits(n)) == n
    ensures n >= 10 ==> Digits(n)[0] != '0' && |Digits(n)| > 1
    ensures 0 < n < 10 ==> Digits(n)[0] != '0'
    decreases n
  {
    if n < 10 {
      DigitIs(n);
      var d := Digits(n);
      assert |d| == 1 && d[..0] == "";
    } else {
      DigitIs(n % 10);
      DigitsValue(n / 10);
      var d := Digits(n);
      assert d[..|d| - 1] == Digits(n / 10);
    }
  }

  lemma {:induction false} DigitIs(d: int)
    requires 0 <= d < 10
    ensures Digit(d) as int - '0' as int == d
  {
    var s := "0123456789";
    assert s[0] == '0' && s[1] == '1' && s[2] == '2' && s[3] == '3' && s[4] == '4'
        && s[5] == '5' && s[6] == '6' && s[7] == '7' && s[8] == '8' && s[9] == '9';
  }

  lemma {:induction false} DigitPrefixOf(digits: string, rest: string)
    requires forall i :: 0 <= i < |digits| ==> IsDigit(digits[i])
    requires rest != "" ==> !IsDigit(rest[0])
    ensures DigitPrefix(digits + rest) == |digits|
    decreases |digits|
  {
    if digits == "" {
      assert digits + rest == rest;
    } else {
      assert (digits + rest)[0] == digits[0] && (digits + rest)[1..] == digits[1..] + rest;
      DigitPrefixOf(digits[1..], rest);
    }
  }

  /** What may follow a number. */
  predicate EndsNumber(rest: string) {
    rest == "" || !(IsDigit(rest[0]) || rest[0] == '.' || rest[0] == 'e' || rest[0] == 'E')
  }

  lemma {:induction false} UnsignedRoundTrip(n: nat, rest: string)
    requires EndsNumber(rest)
    ensures var t := Digits(n) + rest;
            && t != "" && IsDigit(t[0]) && DigitPrefix(t) == |Digits(n)|
            && t[..DigitPrefix(t)] == Digits(n) && t[DigitPrefix(t)..] == rest
            && !(DigitPrefix(t) > 1 && t[0] == '0')
  {
    DigitsValue(n);
    DigitPrefixOf(Digits(n), rest);
    assert (Digits(n) + rest)[0] == Digits(n)[0];
  }

  /** A text whose digit prefix is well-formed and followed by `rest`, with and without a sign. */
  lemma {:induction false} SignedNumber(t: string, digits: string, v: int, rest: string)
    requires t != "" && IsDigit(t[0]) && DigitPrefix(t) == |digits| && !(DigitPrefix(t) > 1 && t[0] == '0')
    requires t[..DigitPrefix(t)] == digits && t[DigitPrefix(t)..] == rest && EndsNumber(rest)
    requires ValueOf(t[..DigitPrefix(t)]) == v
    ensures ParseNumber(t) == Got(v, rest)
    ensures ParseNumber(['-'] + t) == Got(0 - v, rest)
  {
    var n := DigitPrefix(t);
    assert n < |t| ==> t[n] == rest[0];
    assert (['-'] + t)[1..] == t && (['-'] + t)[0] == '-';
  }

  lemma {:induction false} NumberRoundTrip(n: int, rest: string)
    requires EndsNumber(rest)
    ensures ParseNumber(Itoa(n) + rest) == Got(n, rest)
  {
    var abs: nat := if n < 0 then -n else n;
    var t := Digits(abs) + rest;
    DigitsValue(abs);
    UnsignedRoundTrip(abs, rest);
    SignedNumber(t, Digits(abs), abs, rest);
    if n < 0 {
      Assoc(['-'], Digits(abs), rest);
    }
  }

  // --- Values ---

  lemma {:induction false} NoSpaceFirst(s: string, rest: string)
    requires s != "" && !IsSpace(s[0])
    ensures SkipSpace(s + rest) == s + rest
  {
  }

  /** Which character a written value begins with, and so which case the parser takes. */
  lemma {:induction false} WriteStarts(j: Json)
    ensures var s := Write(j);
            && s != "" && !IsSpace(s[0]) && s[0] != ']' && s[0] != '}'
            && (j.Int? ==> s[0] == '-' || IsDigit(s[0]))
            && (j.Str? ==> s[0] == '"') && (j.Arr? ==> s[0] == '[') && (j.Obj? ==> s[0] == '{')
  {
  }

  lemma {:induction false} ScalarRoundTrip(j: Json, rest: string)
    requires !j.Arr? && !j.Obj? && EndsNumber(rest)
    ensures ParseValue(Write(j) + rest) == Got(j, rest)
  {
    WriteStarts(j);
    NoSpaceFirst(Write(j), rest);
    var t := Write(j) + rest;
    assert t[0] == Write(j)[0];
    match j
    case Null => assert t[..4] == "null" && t[4..] == rest; assert "null" <= t;
    case True => assert t[..4] == "true" && t[4..] == rest; assert "true" <= t;
    case False => assert t[..5] == "false" && t[5..] == rest; assert "false" <= t;
    case Int(n) =>
      NotLiteral(t);
      NumberRoundTrip(n, rest);
    case Str(s) =>
      NotLiteral(t);
      QuoteRoundTrip(s, rest);
  }

  lemma {:induction false} PrefixFirst(t: string, prefix: string)
    requires prefix != "" && prefix <= t
    ensures t[0] == prefix[0]
  {
  }

  lemma {:induction false} NotLiteral(t: string)
    requires t != "" && t[0] != 'n' && t[0] != 't' && t[0] != 'f'
    ensures !StartsWith(t, "null") && !StartsWith(t, "true") && !StartsWith(t, "false")
  {
    if StartsWith(t, "null") { PrefixFirst(t, "null"); }
    if StartsWith(t, "true") { PrefixFirst(t, "true"); }
    if StartsWith(t, "false") { PrefixFirst(t, "false"); }
  }

  lemma {:induction false} ValueRoundTrip(j: Json, rest: string)
    requires EndsNumber(rest)
    ensures ParseValue(Write(j) + rest) == Got(j, rest)
    decreases j, 1
  {
    match j
    case Arr(items) => ArrayRoundTrip(items, rest);
    case Obj(members) => ObjectRoundTrip(members, rest);
    case _ => ScalarRoundTrip(j, rest);
  }

  // --- How the parser goes on after a value ---

  lemma {:induction false} Then(c: char, rest: string)
    requires !IsSpace(c)
    ensures SkipSpace([c] + rest) == [c] + rest && ([c] + rest)[1..] == rest && ([c] + rest)[0] == c
  {
  }

  lemma {:induction false} LastItem(s: string, x: Json, rest: string)
    requires ParseValue(s) == Got(x, [']'] + rest)
    ensures ParseItems(s) == Got([x], rest)
  {
    Then(']', rest);
  }

  lemma {:induction false} OneItemMore(s: string, x: Json, tail: string, xs: seq<Json>, rest: string)
    requires ParseValue(s) == Got(x, [','] + tail) && ParseItems(tail) == Got(xs, rest)
    ensures ParseItems(s) == Got([x] + xs, rest)
  {
    Then(',', tail);
  }

  lemma {:induction false} LastMember(s: string, m: Member, rest: string)
    requires ParseMember(s) == Got(m, ['}'] + rest)
    ensures ParseMembers(s) == Got([m], rest)
  {
    Then('}', rest);
  }

  lemma {:induction false} OneMemberMore(s: string, m: Member, tail: string, ms: seq<Member>, rest: string)
    requires ParseMember(s) == Got(m, [','] + tail) && ParseMembers(tail) == Got(ms, rest)
    ensures ParseMembers(s) == Got([m] + ms, rest)
  {
    Then(',', tail);
  }

  lemma {:induction false} InBrackets(t: string, items: seq<Json>, rest: string)
    requires t != "" && !IsSpace(t[0]) && t[0] != ']' && ParseItems(t) == Got(items, rest)
    ensures ParseValue(['['] + t) == Got(Arr(items), rest)
  {
    Then('[', t);
    NotLiteral(['['] + t);
  }

  lemma {:induction false} InBraces(t: string, members: seq<Member>, rest: string)
    requires t != "" && !IsSpace(t[0]) && t[0] != '}' && ParseMembers(t) == Got(members, rest)
    ensures ParseValue(['{'] + t) == Got(Obj(members), rest)
  {
    Then('{', t);
    NotLiteral(['{'] + t);
  }

  lemma {:induction false} EmptyRoundTrip(rest: string)
    ensures ParseValue("[]" + rest) == Got(Arr([]), rest)
    ensures ParseValue("{}" + rest) == Got(Obj([]), rest)
  {
    assert "[]" + rest == ['['] + ([']'] + rest) && "{}" + rest == ['{'] + (['}'] + rest);
    Then('[', [']'] + rest);
    Then(']', rest);
    Then('{', ['}'] + rest);
    Then('}', rest);
    NotLiteral(['['] + ([']'] + rest));
    NotLiteral(['{'] + (['}'] + rest));
  }

  // --- Arrays and objects ---

  lemma {:induction false} ArrayRoundTrip(items: seq<Json>, rest: string)
    ensures ParseValue(Write(Arr(items)) + rest) == Got(Arr(items), rest)
    decreases items, 1
  {
    if items == [] {
      assert Write(Arr(items)) == "[]";
      EmptyRoundTrip(rest);
    } else {
      var t := WriteItems(items) + ([']'] + rest);
      assert Write(Arr(items)) + rest == ['['] + t;
      WriteStarts(items[0]);
      assert t[0] == Write(items[0])[0];
      ItemsRoundTrip(items, rest);
      InBrackets(t, items, rest);
    }
  }

  lemma {:induction false} WriteItemsMore(items: seq<Json>, end: string)
    requires |items| > 1
    ensures WriteItems(items) + end == Write(items[0]) + ([','] + (WriteItems(items[1..]) + end))
  {
    var a, b := Write(items[0]), WriteItems(items[1..]);
    assert WriteItems(items) == (a + [',']) + b;
    Assoc(a + [','], b, end);
    Assoc(a, [','], b + end);
  }

  lemma {:induction false} WriteMembersMore(members: seq<Member>, end: string)
    requires |members| > 1
    ensures WriteMembers(members) + end == WriteMember(members[0]) + ([','] + (WriteMembers(members[1..]) + end))
  {
    var a, b := WriteMember(members[0]), WriteMembers(members[1..]);
    assert WriteMembers(members) == (a + [',']) + b;
    Assoc(a + [','], b, end);
    Assoc(a, [','], b + end);
  }

  lemma {:induction false} ItemsRoundTrip(items: seq<Json>, rest: string)
    requires items != []
    ensures ParseItems(WriteItems(items) + ([']'] + rest)) == Got(items, rest)
    decreases items, 0
  {
    var s := WriteItems(items) + ([']'] + rest);
    if |items| == 1 {
      ValueRoundTrip(items[0], [']'] + rest);
      LastItem(s, items[0], rest);
      assert items == [items[0]];
    } else {
      var tail := WriteItems(items[1..]) + ([']'] + rest);
      WriteItemsMore(items, [']'] + rest);
      ValueRoundTrip(items[0], [','] + tail);
      ItemsRoundTrip(items[1..], rest);
      OneItemMore(s, items[0], tail, items[1..], rest);
      assert items == [items[0]] + items[1..];
    }
  }

  lemma {:induction false} ObjectRoundTrip(members: seq<Member>, rest: string)
    ensures ParseValue(Write(Obj(members)) + rest) == Got(Obj(members), rest)
    decreases members, 1
  {
    if members == [] {
      assert Write(Obj(members)) == "{}";
      EmptyRoundTrip(rest);
    } else {
      var t := WriteMembers(members) + (['}'] + rest);
      assert Write(Obj(members)) + rest == ['{'] + t;
      assert t[0] == WriteMember(members[0])[0] == '"';
      MembersRoundTrip(members, rest);
      InBraces(t, members, rest);
    }
  }

  lemma {:induction false} MemberText(alias: string, value: string, rest: string)
    ensures (alias + [':'] + value) + rest == alias + ([':'] + (value + rest))
  {
  }

  lemma {:induction false} MemberRoundTrip(m: Member, rest: string)
    requires EndsNumber(rest)
    ensures ParseMember(WriteMember(m) + rest) == Got(m, rest)
    decreases m
  {
    var s := WriteMember(m) + rest;
    var tail := Write(m.value) + rest;
    MemberText(Quote(m.alias), Write(m.value), rest);
    QuoteRoundTrip(m.alias, [':'] + tail);
    assert SkipSpace(s) == s;
    Then(':', tail);
    ValueRoundTrip(m.value, rest);
  }

  lemma {:induction false} MembersRoundTrip(members: seq<Member>, rest: string)
    requires members != []
    ensures ParseMembers(WriteMembers(members) + (['}'] + rest)) == Got(members, rest)
    decreases members, 0
  {
    var s := WriteMembers(members) + (['}'] + rest);
    if |members| == 1 {
      MemberRoundTrip(members[0], ['}'] + rest);
      LastMember(s, members[0], rest);
      assert members == [members[0]];
    } else {
      var tail := WriteMembers(members[1..]) + (['}'] + rest);
      WriteMembersMore(members, ['}'] + rest);
      MemberRoundTrip(members[0], [','] + tail);
      MembersRoundTrip(members[1..], rest);
      OneMemberMore(s, members[0], tail, members[1..], rest);
      assert members == [members[0]] + members[1..];
    }
  }

  /** The written text of any tree parses, as a whole, to that very tree, members in order. */
  lemma {:induction false} RoundTrip(j: Json)
    ensures Parse(Write(j)) == Got(j, "")
  {
    ValueRoundTrip(j, "");
    assert Write(j) + "" == Write(j);
  }
}
