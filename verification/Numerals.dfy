/** Which parts of an upload's path are indices, and of what value. */
module Numerals {
  import opened Wrappers
  import opened Variables
  import opened Uploads
  import Json

  function PowerOfTen(n: nat): nat {
    if n == 0 then 1 else 10 * PowerOfTen(n - 1)
  }

  /** Decimal digits, at least one of them. */
  ghost predicate Decimal(s: string) {
    s != "" && forall i :: 0 <= i < |s| ==> '0' <= s[i] <= '9'
  }

  /** What decimal digits stand for: each counts by its place. */
  ghost function PlaceValue(digits: string): int {
    if digits == "" then 0
    else (digits[0] as int - '0' as int) * PowerOfTen(|digits| - 1) + PlaceValue(digits[1..])
  }

  /** `s` is a decimal numeral, with or without a sign, for `v`. */
  ghost predicate StandsFor(s: string, v: int) {
    || (Decimal(s) && v == PlaceValue(s))
    || (s != "" && s[0] == '+' && Decimal(s[1..]) && v == PlaceValue(s[1..]))
    || (s != "" && s[0] == '-' && Decimal(s[1..]) && v == -PlaceValue(s[1..]))
  }

  lemma {:induction false} OneDigitMore(digits: string, c: char)
    ensures PlaceValue(digits + [c]) == 10 * PlaceValue(digits) + (c as int - '0' as int)
    decreases |digits|
  {
    var all := digits + [c];
    if digits == "" {
      assert all == [c] && [c][1..] == "";
    } else {
      var first := digits[0] as int - '0' as int;
      assert all[1..] == digits[1..] + [c] && all[0] == digits[0];
      OneDigitMore(digits[1..], c);
      assert first * PowerOfTen(|digits|) == 10 * (first * PowerOfTen(|digits| - 1));
    }
  }

  lemma {:induction false} ValueIsPlaceValue(digits: string)
    requires forall i :: 0 <= i < |digits| ==> Json.IsDigit(digits[i])
    ensures Json.ValueOf(digits) == PlaceValue(digits)
    decreases |digits|
  {
    if digits != "" {
      var n := |digits| - 1;
      ValueIsPlaceValue(digits[..n]);
      OneDigitMore(digits[..n], digits[n]);
      assert digits[..n] + [digits[n]] == digits;
    }
  }

  lemma {:induction false} DecimalExactly(s: string)
    ensures Decimal(s) <==> s != "" && Json.DigitPrefix(s) == |s|
  {
    if Decimal(s) {
      var n := Json.DigitPrefix(s);
      assert n < |s| ==> Json.IsDigit(s[n]);
    }
    if s != "" && Json.DigitPrefix(s) == |s| {
      forall i | 0 <= i < |s| ensures '0' <= s[i] <= '9' { assert Json.IsDigit(s[i]); }
    }
  }

  /** A part is the index `i` exactly if it is a numeral for `i` that fits into 64 bits, and otherwise
      the key it reads. */
  lemma {:induction false} PartIsExact(s: string)
    ensures forall i :: PartOf(s) == Idx(i) <==>
              -0x8000_0000_0000_0000 <= i <= 0x7FFF_FFFF_FFFF_FFFF && StandsFor(s, i)
    ensures PartOf(s).Idx? || PartOf(s) == Key(s)
  {
    var signed := s != "" && (s[0] == '-' || s[0] == '+');
    var digits := if signed then s[1..] else s;
    DecimalExactly(digits);
    assert signed ==> !Decimal(s);
    if Decimal(digits) {
      ValueIsPlaceValue(digits);
    }
  }
}
