/** The serializer as the source runs it: loops that write pieces to a sink. */
module Serializer {
  import opened Json
  import opened JsonRoundTrip

  /** An `io.Writer`. */
  class Sink {
    var text: string

    constructor ()
      ensures text == ""
    {
      text := "";
    }

    method WriteString(s: string)
      modifies this
      ensures text == old(text) + s
    {
      text := text + s;
    }
  }

  predicate MustEscape(c: char) {
    c < ' ' || c == '\\' || c == '"'
  }

  lemma {:induction false} EscapeAllAppend(a: string, b: string)
    ensures EscapeAll(a + b) == EscapeAll(a) + EscapeAll(b)
    decreases |a|
  {
    if a == "" {
      assert a + b == b;
    } else {
      assert (a + b)[0] == a[0] && (a + b)[1..] == a[1..] + b;
      EscapeAllAppend(a[1..], b);
    }
  }

  /** A run without characters to escape is written as it is. */
  lemma {:induction false} EscapeRun(s: string)
    requires forall i :: 0 <= i < |s| ==> !MustEscape(s[i])
    ensures EscapeAll(s) == s
    decreases |s|
  {
    if s != "" {
      assert !MustEscape(s[0]);
      EscapeRun(s[1..]);
      assert s == [s[0]] + s[1..];
    }
  }

  lemma {:induction false} Glue(base: string, a: string, b: string, c: string)
    ensures ((base + a) + b) + c == base + ((a + b) + c)
  {
    Assoc(base, a, b);
    Assoc(base, a + b, c);
  }

  method WriteEscape(w: Sink, c: char)
    requires MustEscape(c)
    modifies w
    ensures w.text == old(w.text) + Escape(c)
  {
    if c == '\t' {
      w.WriteString("\\t");
    } else if c == '\r' {
      w.WriteString("\\r");
    } else if c == '\n' {
      w.WriteString("\\n");
    } else if c == '\\' {
      w.WriteString("\\\\");
    } else if c == '"' {
      w.WriteString("\\\"");
    } else {
      w.WriteString("\\u00");
      w.WriteString([HEX[c as int / 16], HEX[c as int % 16]]);
      Assoc(old(w.text), "\\u00", [HEX[c as int / 16], HEX[c as int % 16]]);
    }
  }

  /** Runs of plain characters are flushed in one go before each escape and at the end. */
  method WriteQuotedString(w: Sink, s: string)
    modifies w
    ensures w.text == old(w.text) + Quote(s)
  {
    var start := 0;
    w.WriteString("\"");
    ghost var base := w.text;
    var i := 0;
    while i < |s|
      invariant 0 <= start <= i <= |s|
      invariant w.text == base + EscapeAll(s[..start])
      invariant forall k :: start <= k < i ==> !MustEscape(s[k])
    {
      var c := s[i];
      if MustEscape(c) {
        FlushAndEscape(w, s, start, i, base);
        start := i + 1;
      }
      i := i + 1;
    }
    LastRun(s, start);
    Assoc(base, EscapeAll(s[..start]), s[start..]);
    w.WriteString(s[start..]);
    w.WriteString("\"");
    Glue(old(w.text), "\"", EscapeAll(s), "\"");
  }

  method FlushAndEscape(w: Sink, s: string, start: nat, i: nat, ghost base: string)
    requires start <= i < |s| && MustEscape(s[i]) && forall k :: start <= k < i ==> !MustEscape(s[k])
    requires w.text == base + EscapeAll(s[..start])
    modifies w
    ensures w.text == base + EscapeAll(s[..i + 1])
  {
    Flushed(s, start, i);
    Glue(base, EscapeAll(s[..start]), s[start..i], Escape(s[i]));
    w.WriteString(s[start..i]);
    WriteEscape(w, s[i]);
  }

  lemma {:induction false} LastRun(s: string, start: nat)
    requires start <= |s| && forall k :: start <= k < |s| ==> !MustEscape(s[k])
    ensures EscapeAll(s) == EscapeAll(s[..start]) + s[start..]
  {
    var done, run := s[..start], s[start..];
    assert s == done + run;
    assert forall k :: 0 <= k < |run| ==> run[k] == s[start + k];
    EscapeRun(run);
    EscapeAllAppend(done, run);
  }

  lemma {:induction false} Flushed(s: string, start: nat, i: nat)
    requires start <= i < |s| && forall k :: start <= k < i ==> !MustEscape(s[k])
    ensures EscapeAll(s[..i + 1]) == EscapeAll(s[..start]) + s[start..i] + Escape(s[i])
  {
    RunThen(s[..start], s[start..i], s[i]);
    assert s[..i + 1] == (s[..start] + s[start..i]) + [s[i]];
  }

  lemma {:induction false} RunThen(a: string, run: string, c: char)
    requires forall k :: 0 <= k < |run| ==> !MustEscape(run[k])
    ensures EscapeAll((a + run) + [c]) == EscapeAll(a) + run + Escape(c)
  {
    EscapeRun(run);
    EscapeAllAppend(a, run);
    EscapeAllAppend(a + run, [c]);
    EscapeOne(c);
  }

  lemma {:induction false} EscapeOne(c: char)
    ensures EscapeAll([c]) == Escape(c)
  {
    assert [c][1..] == "";
    assert Escape(c) + "" == Escape(c);
  }

  /** `MarshalGQL` of each kind of value. */
  method MarshalGQL(w: Sink, j: Json)
    modifies w
    ensures w.text == old(w.text) + Write(j)
    decreases j, 1
  {
    match j {
      case Null => w.WriteString("null");
      case True => w.WriteString("true");
      case False => w.WriteString("false");
      case Int(n) => w.WriteString(Itoa(n));
      case Str(s) => WriteQuotedString(w, s);
      case Arr(items) => MarshalArray(w, items);
      case Obj(members) => MarshalFieldSet(w, members);
    }
  }

  /** What the loops have written after the first `i` pieces. */
  ghost function Joined(pieces: seq<string>, i: nat): string
    requires i <= |pieces|
  {
    if i == 0 then "" else (Joined(pieces, i - 1) + (if i == 1 then "" else ",")) + pieces[i - 1]
  }

  ghost function Join(pieces: seq<string>): string {
    if pieces == [] then "" else if |pieces| == 1 then pieces[0] else (pieces[0] + ",") + Join(pieces[1..])
  }

  lemma {:induction false} JoinedFrom(pieces: seq<string>, i: nat)
    requires 0 < i <= |pieces|
    ensures Join(pieces) == if i == |pieces| then Joined(pieces, i) else (Joined(pieces, i) + ",") + Join(pieces[i..])
    decreases i
  {
    if i == 1 {
      assert "" + "" + pieces[0] == pieces[0];
    } else {
      JoinedFrom(pieces, i - 1);
      var rest := pieces[i - 1..];
      assert rest[0] == pieces[i - 1] && rest[1..] == pieces[i..];
      if i < |pieces| {
        Glue(Joined(pieces, i - 1) + ",", pieces[i - 1], ",", Join(pieces[i..]));
        Assoc(Joined(pieces, i - 1) + ",", pieces[i - 1], ",");
        Assoc((Joined(pieces, i - 1) + ",") + pieces[i - 1], ",", Join(pieces[i..]));
        Assoc(Joined(pieces, i - 1) + ",", pieces[i - 1] + ",", Join(pieces[i..]));
      }
    }
  }

  ghost function ItemPieces(items: seq<Json>): (r: seq<string>)
    ensures |r| == |items|
  {
    seq(|items|, i requires 0 <= i < |items| => Write(items[i]))
  }

  ghost function MemberPieces(members: seq<Member>): (r: seq<string>)
    ensures |r| == |members|
  {
    seq(|members|, i requires 0 <= i < |members| => WriteMember(members[i]))
  }

  lemma {:induction false} ItemsJoin(items: seq<Json>)
    ensures WriteItems(items) == Join(ItemPieces(items))
    decreases |items|
  {
    if |items| > 1 {
      assert ItemPieces(items)[1..] == ItemPieces(items[1..]);
      ItemsJoin(items[1..]);
    }
  }

  lemma {:induction false} MembersJoin(members: seq<Member>)
    ensures WriteMembers(members) == Join(MemberPieces(members))
    decreases |members|
  {
    if |members| > 1 {
      assert MemberPieces(members)[1..] == MemberPieces(members[1..]);
      MembersJoin(members[1..]);
    }
  }

  lemma {:induction false} Enclosed(before: string, open: string, pieces: seq<string>, close: string)
    ensures ((before + open) + Joined(pieces, |pieces|)) + close == before + ((open + Join(pieces)) + close)
  {
    if pieces != [] {
      JoinedFrom(pieces, |pieces|);
    }
    Glue(before, open, Join(pieces), close);
  }

  /** `Array.MarshalGQL` */
  method MarshalArray(w: Sink, items: seq<Json>)
    modifies w
    ensures w.text == old(w.text) + Write(Arr(items))
    decreases items, 0
  {
    ghost var pieces := ItemPieces(items);
    w.WriteString("[");
    ghost var base := w.text;
    var i := 0;
    while i < |items|
      invariant 0 <= i <= |items|
      invariant w.text == base + Joined(pieces, i)
    {
      ghost var comma := if i == 0 then "" else ",";
      Glue(base, Joined(pieces, i), comma, pieces[i]);
      if i != 0 {
        w.WriteString(",");
      }
      assert w.text == (base + Joined(pieces, i)) + comma;
      MarshalGQL(w, items[i]);
      i := i + 1;
    }
    w.WriteString("]");
    Enclosed(old(w.text), "[", pieces, "]");
    ItemsJoin(items);
  }

  /** `FieldSet.MarshalGQL`: the aliases in order, each with its value. */
  method MarshalFieldSet(w: Sink, members: seq<Member>)
    modifies w
    ensures w.text == old(w.text) + Write(Obj(members))
    decreases members, 0
  {
    ghost var pieces := MemberPieces(members);
    w.WriteString("{");
    ghost var base := w.text;
    var i := 0;
    while i < |members|
      invariant 0 <= i <= |members|
      invariant w.text == base + Joined(pieces, i)
    {
      ghost var comma := if i == 0 then "" else ",";
      var m := members[i];
      Glue(base, Joined(pieces, i), comma, pieces[i]);
      if i != 0 {
        w.WriteString(",");
      }
      ghost var here := w.text;
      assert here == (base + Joined(pieces, i)) + comma;
      WriteQuotedString(w, m.alias);
      w.WriteString(":");
      MarshalGQL(w, m.value);
      Glue(here, Quote(m.alias), ":", Write(m.value));
      i := i + 1;
    }
    w.WriteString("}");
    Enclosed(old(w.text), "{", pieces, "}");
    MembersJoin(members);
  }

  /** Serialize, and parse back: the tree comes back whole. */
  method Serialize(j: Json) returns (text: string)
    ensures text == Write(j) && Parse(text) == Got(j, "")
  {
    var w := new Sink();
    MarshalGQL(w, j);
    text := w.text;
    assert "" + Write(j) == Write(j);
    RoundTrip(j);
  }
}
