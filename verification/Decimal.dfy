/**
 Exact decimal parsing: 18 fraction digits, magnitude within a signed 128-bit integer.
 */
module Decimal {
  import opened Text
  import opened Wrappers

  const PLACES: nat := 18
  const UNIT: nat := 1_000_000_000_000_000_000
  const MAX_I128: nat := 0x7FFF_FFFF_FFFF_FFFF_FFFF_FFFF_FFFF_FFFF

  datatype Parts = Parts(negative: bool, whole: string, fraction: string)

  /** Strips one leading minus, then splits at the first point. */
  function Dissect(raw: string): Parts {
    var negative := raw != "" && raw[0] == '-';
    var unsigned := if negative then raw[1..] else raw;
    var point := Find(unsigned, '.');
    Parts(negative, unsigned[..point], if point < |unsigned| then unsigned[point + 1..] else "")
  }

  /** The text of the parts; the point may be left out when nothing follows it. */
  function Assemble(p: Parts, point: bool): string
    requires point || p.fraction == ""
  {
    (if p.negative then "-" else "") + p.whole + (if point then "." + p.fraction else "")
  }

  /** The fraction digits that are looked at. */
  function Inspected(fraction: string): (r: string)
    ensures |r| <= PLACES
  {
    if |fraction| <= PLACES then fraction else fraction[..PLACES]
  }

  predicate Readable(p: Parts) {
    (p.whole != "" || p.fraction != "") && AllDigits(p.whole) && AllDigits(Inspected(p.fraction))
  }

  /** The absolute value in units of 10 to the -18; digits beyond the 18th are cut off. */
  function Magnitude(p: Parts): nat
    requires Readable(p)
  {
    var digits := Inspected(p.fraction);
    Shift(Value(p.whole), PLACES) + Shift(Value(digits), PLACES - |digits|)
  }

  function Signed(negative: bool, size: int): int {
    if negative then -size else size
  }

  function Meaning(p: Parts): Option<int> {
    if Readable(p) && Magnitude(p) <= MAX_I128 then Some(Signed(p.negative, Magnitude(p))) else None
  }

  lemma PointSplits(unsigned: string, point: nat)
    requires point < |unsigned| && unsigned[point] == '.'
    ensures unsigned == unsigned[..point] + ("." + unsigned[point + 1..])
  {
    assert unsigned[point..] == "." + unsigned[point + 1..];
  }

  lemma AssembleRest(p: Parts, unsigned: string, point: bool)
    requires point || p.fraction == ""
    requires unsigned == if point then p.whole + ("." + p.fraction) else p.whole
    ensures Assemble(p, point) == (if p.negative then "-" else "") + unsigned
  {
    var sign := if p.negative then "-" else "";
    if point {
      assert sign + p.whole + ("." + p.fraction) == sign + (p.whole + ("." + p.fraction));
    }
  }

  /** The parts of a text say what the text is. */
  lemma DissectExact(raw: string)
    ensures var p := Dissect(raw);
      '.' !in p.whole && (raw == Assemble(p, true) || (p.fraction == "" && raw == Assemble(p, false)))
  {
    var p, negative := Dissect(raw), raw != "" && raw[0] == '-';
    var unsigned := if negative then raw[1..] else raw;
    var point := Find(unsigned, '.');
    assert raw == (if negative then "-" else "") + unsigned;
    if point < |unsigned| {
      PointSplits(unsigned, point);
      AssembleRest(p, unsigned, true);
    } else {
      AssembleRest(p, unsigned, false);
    }
  }

  lemma DissectAssembled(p: Parts, point: bool)
    requires '.' !in p.whole && (point || p.fraction == "") && (!p.negative ==> p.whole == "" || p.whole[0] != '-')
    ensures Dissect(Assemble(p, point)) == p
  {
    var raw := Assemble(p, point);
    var rest := p.whole + (if point then "." + p.fraction else "");
    if p.negative {
      assert raw[0] == '-' && raw[1..] == rest;
    } else {
      assert raw == rest && (raw != "" ==> raw[0] != '-');
    }
    assert rest[..|p.whole|] == p.whole;
    FindFirst(rest, '.', |p.whole|);
    if point {
      assert rest[|p.whole| + 1..] == p.fraction;
    }
  }

  // ---------------------------------------------------------------------------------------
  // The digit loops

  lemma ValuePush(s: string, c: char)
    requires AllDigits(s) && IsDigit(c)
    ensures AllDigits(s + [c]) && Value(s + [c]) == 10 * Value(s) + DigitValue(c)
  {
    assert (s + [c])[..|s|] == s;
  }

  /** The first `k` characters are a numeral beyond the maximum. */
  predicate Exceeds(s: string, k: nat) {
    k <= |s| && AllDigits(s[..k]) && Value(s[..k]) > MAX_I128
  }

  /** The scaled value of all digits read as one numeral. */
  lemma MagnitudeJoined(p: Parts)
    requires Readable(p)
    ensures var digits := Inspected(p.fraction);
      && AllDigits(p.whole + digits)
      && Magnitude(p) == Shift(Value(p.whole + digits), PLACES - |digits|)
  {
    var digits := Inspected(p.fraction);
    var k := |digits|;
    ValueJoin(p.whole, digits);
    ShiftSum(Shift(Value(p.whole), k), Value(digits), PLACES - k);
    ShiftTwice(Value(p.whole), k, PLACES - k);
  }

  /** Too large after the first `k` digits is too large for good. */
  lemma PrefixTooLarge(p: Parts, k: nat)
    requires Exceeds(p.whole + Inspected(p.fraction), k)
    ensures Meaning(p) == None
  {
    if Readable(p) {
      var digits := Inspected(p.fraction);
      MagnitudeJoined(p);
      ValuePrefix(p.whole + digits, k);
      ShiftGrows(Value(p.whole + digits), 0, PLACES - |digits|);
    }
  }

  /** Reads the digits of `s` onto `start`; fails at a character that is no digit or beyond the maximum. */
  method ReadDigits(start: nat, before: string, s: string) returns (r: Option<nat>)
    requires AllDigits(before) && start == Value(before) <= MAX_I128
    ensures r.Some? ==> AllDigits(s) && AllDigits(before + s) && r.value == Value(before + s) <= MAX_I128
    ensures r.None? && AllDigits(s) ==> exists k: nat :: Exceeds(before + s, k)
  {
    var scaled := start;
    ghost var done := before;
    for i := 0 to |s|
      invariant done == before + s[..i] && AllDigits(s[..i])
      invariant AllDigits(done) && scaled == Value(done) <= MAX_I128
    {
      if !IsDigit(s[i]) {
        return None;
      }
      ValuePush(done, s[i]);
      done := done + [s[i]];
      if scaled * 10 > MAX_I128 || scaled * 10 + DigitValue(s[i]) > MAX_I128 {
        assert (before + s)[..|done|] == done;
        assert Exceeds(before + s, |done|);
        return None;
      }
      scaled := scaled * 10 + DigitValue(s[i]);
    }
    assert s[..|s|] == s;
    return Some(scaled);
  }

  /** Appends `n` zeros; fails beyond the maximum. */
  method AppendZeros(start: nat, n: nat) returns (r: Option<nat>)
    requires start <= MAX_I128
    ensures r == if Shift(start, n) <= MAX_I128 then Some(Shift(start, n)) else None
  {
    var scaled := start;
    for j := 0 to n
      invariant scaled == Shift(start, j) <= MAX_I128
    {
      if scaled * 10 > MAX_I128 {
        ShiftGrows(start, j + 1, n);
        return None;
      }
      scaled := scaled * 10;
    }
    return Some(scaled);
  }

  /** The three digit loops. */
  method ParseParts(p: Parts) returns (r: Option<int>)
    requires p.whole != "" || p.fraction != ""
    ensures r == Meaning(p)
  {
    var digits := Inspected(p.fraction);
    ghost var all := p.whole + digits;
    assert "" + p.whole == p.whole;
    var whole := ReadDigits(0, "", p.whole);
    if whole.None? {
      if AllDigits(p.whole) {
        ghost var k: nat :| Exceeds(p.whole, k);
        assert all[..k] == p.whole[..k];
        PrefixTooLarge(p, k);
      }
      return None;
    }
    var both := ReadDigits(whole.value, p.whole, digits);
    if both.None? {
      if AllDigits(digits) {
        ghost var k: nat :| Exceeds(all, k);
        PrefixTooLarge(p, k);
      }
      return None;
    }
    MagnitudeJoined(p);
    var scaled := AppendZeros(both.value, PLACES - |digits|);
    return if scaled.Some? then Some(Signed(p.negative, scaled.value)) else None;
  }

  method ParseDecimal(raw: string) returns (r: Option<int>)
    ensures r == Meaning(Dissect(raw))
  {
    if raw == "" {
      return None;
    }
    var p := Dissect(raw);
    if p.whole == "" && p.fraction == "" {
      return None;
    }
    r := ParseParts(p);
  }

  // ---------------------------------------------------------------------------------------
  // Printing

  function Printed(negative: bool, size: nat): Parts {
    Parts(negative, Numeral(size / UNIT), Padded(size % UNIT, PLACES))
  }

  function Print(v: int): string {
    if v < 0 then Assemble(Printed(true, -v), true) else Assemble(Printed(false, v), true)
  }

  lemma ShiftThree(v: nat, k: nat)
    ensures Shift(v, k + 3) == 1000 * Shift(v, k)
  {
    assert Shift(v, k + 2) == 10 * Shift(v, k + 1) == 100 * Shift(v, k);
  }

  lemma ShiftPlaces(v: nat)
    ensures Shift(v, PLACES) == v * UNIT
  {
    ShiftThree(v, 0);
    ShiftThree(v, 3);
    ShiftThree(v, 6);
    ShiftThree(v, 9);
    ShiftThree(v, 12);
    ShiftThree(v, 15);
  }

  lemma PrintedMeaning(negative: bool, size: nat)
    ensures Meaning(Printed(negative, size)) == if size <= MAX_I128 then Some(Signed(negative, size)) else None
  {
    var p := Printed(negative, size);
    ShiftPlaces(1);
    PaddedValue(size % UNIT, PLACES);
    PowShift(PLACES);
    PaddedWidth(size % UNIT, PLACES);
    ShiftPlaces(size / UNIT);
    assert Inspected(p.fraction) == p.fraction;
    assert Magnitude(p) == size;
  }

  lemma DigitsNoPoint(s: string)
    requires AllDigits(s)
    ensures '.' !in s && '-' !in s
  {
  }

  lemma PrintedDissects(negative: bool, size: nat)
    ensures Dissect(Assemble(Printed(negative, size), true)) == Printed(negative, size)
  {
    DigitsNoPoint(Numeral(size / UNIT));
    DissectAssembled(Printed(negative, size), true);
  }

  /** Parsing inverts printing with 18 places, for every representable magnitude and no other. */
  lemma RoundTrip(v: int)
    ensures Meaning(Dissect(Print(v))) == if -v <= MAX_I128 && v <= MAX_I128 then Some(v) else None
  {
    var negative, size := v < 0, if v < 0 then -v else v;
    PrintedDissects(negative, size);
    PrintedMeaning(negative, size);
  }

  predicate Written(raw: string, p: Parts, point: bool) {
    (point || p.fraction == "") && raw == Assemble(p, point)
  }

  /** Exactly the texts made of an optional minus, digits and 18 inspected fraction digits, not both
      empty and within the maximum, are accepted, and their value is the one of those parts. */
  lemma AcceptedExactly(raw: string, value: int)
    ensures Meaning(Dissect(raw)) == Some(value) <==>
      exists p: Parts, point: bool :: Written(raw, p, point) && Readable(p) && Magnitude(p) <= MAX_I128
                                      && value == Signed(p.negative, Magnitude(p))
  {
    DissectExact(raw);
    if Meaning(Dissect(raw)) == Some(value) {
      var p := Dissect(raw);
      assert Written(raw, p, true) || Written(raw, p, false);
    }
    forall p: Parts, point: bool | Written(raw, p, point) && Readable(p) ensures Dissect(raw) == p {
      DigitsNoPoint(p.whole);
      DissectAssembled(p, point);
    }
  }

  /** What follows the 18th fraction digit changes nothing, whatever it is. */
  lemma TailIgnored(p: Parts, tail: string)
    requires |p.fraction| >= PLACES
    ensures Meaning(p.(fraction := p.fraction + tail)) == Meaning(p)
  {
    assert Inspected(p.fraction + tail) == Inspected(p.fraction);
  }
}
