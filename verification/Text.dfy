/** Splitting, joining and trimming of text, and decimal numerals. */
module Text {

  // ---------------------------------------------------------------------------------------
  // Pieces

  /** The pieces between the separators; there is always at least one. */
  function Split(s: string, sep: char): (pieces: seq<string>)
    ensures pieces != []
  {
    if s == "" then [""]
    else
      var rest := Split(s[1..], sep);
      if s[0] == sep then [""] + rest else [[s[0]] + rest[0]] + rest[1..]
  }

  function Join(pieces: seq<string>, sep: char): string {
    if pieces == [] then ""
    else if |pieces| == 1 then pieces[0]
    else pieces[0] + [sep] + Join(pieces[1..], sep)
  }

  predicate Free(pieces: seq<string>, sep: char) {
    forall i :: 0 <= i < |pieces| ==> sep !in pieces[i]
  }

  lemma {:induction false} SplitFree(s: string, sep: char)
    ensures Free(Split(s, sep), sep)
  {
    if s != "" {
      SplitFree(s[1..], sep);
    }
  }

  /** A piece without separator, then a separator. */
  lemma {:induction false} SplitHead(piece: string, sep: char, s: string)
    requires sep !in piece
    ensures Split(piece + [sep] + s, sep) == [piece] + Split(s, sep)
  {
    var all := piece + [sep] + s;
    if piece == "" {
      assert all[1..] == s;
    } else {
      assert all[0] == piece[0] && piece[0] in piece && all[1..] == piece[1..] + [sep] + s;
      SplitHead(piece[1..], sep, s);
      assert [piece[0]] + piece[1..] == piece;
    }
  }

  lemma {:induction false} SplitOne(piece: string, sep: char)
    requires sep !in piece
    ensures Split(piece, sep) == [piece]
  {
    if piece != "" {
      SplitOne(piece[1..], sep);
      assert piece[0] in piece && [piece[0]] + piece[1..] == piece;
    }
  }

  /** Splitting undoes joining. */
  lemma {:induction false} SplitJoin(pieces: seq<string>, sep: char)
    requires pieces != [] && Free(pieces, sep)
    ensures Split(Join(pieces, sep), sep) == pieces
  {
    if |pieces| == 1 {
      SplitOne(pieces[0], sep);
    } else {
      SplitJoin(pieces[1..], sep);
      SplitHead(pieces[0], sep, Join(pieces[1..], sep));
    }
  }

  /** The position of the first `c`, or the length. */
  function Find(s: string, c: char): (i: nat)
    ensures i <= |s| && c !in s[..i] && (i < |s| ==> s[i] == c)
  {
    if s == "" || s[0] == c then 0
    else
      var i := Find(s[1..], c);
      assert s[..i + 1] == [s[0]] + s[1..][..i];
      i + 1
  }

  lemma {:induction false} FindFirst(s: string, c: char, i: nat)
    requires i <= |s| && c !in s[..i] && (i < |s| ==> s[i] == c)
    ensures Find(s, c) == i
  {
    if i > 0 {
      assert s[0] in s[..i];
      assert s[..i] == [s[0]] + s[1..][..i - 1];
      FindFirst(s[1..], c, i - 1);
    }
  }

  // ---------------------------------------------------------------------------------------
  // Trimming

  /** The characters with the Unicode White_Space property. */
  predicate IsSpace(c: char) {
    || '\t' <= c <= '\r' || c == ' ' || c == '\U{0085}' || c == '\U{00A0}' || c == '\U{1680}'
    || '\U{2000}' <= c <= '\U{200A}' || c == '\U{2028}' || c == '\U{2029}' || c == '\U{202F}'
    || c == '\U{205F}' || c == '\U{3000}'
  }

  predicate Trimmed(s: string) {
    s != "" ==> !IsSpace(s[0]) && !IsSpace(s[|s| - 1])
  }

  function TrimStart(s: string): (r: string)
    ensures r != "" ==> !IsSpace(r[0])
    ensures Trimmed(s) ==> r == s
  {
    if s != "" && IsSpace(s[0]) then TrimStart(s[1..]) else s
  }

  function TrimEnd(s: string): (r: string)
    ensures |r| <= |s| && (r != "" ==> !IsSpace(r[|r| - 1]) && r[0] == s[0])
    ensures Trimmed(s) ==> r == s
  {
    if s != "" && IsSpace(s[|s| - 1]) then TrimEnd(s[..|s| - 1]) else s
  }

  function Trim(s: string): (r: string)
    ensures Trimmed(r) && (Trimmed(s) ==> r == s)
  {
    TrimEnd(TrimStart(s))
  }

  predicate Blank(s: string) {
    forall i :: 0 <= i < |s| ==> IsSpace(s[i])
  }

  lemma {:induction false} TrimEndCuts(s: string)
    ensures var n := |TrimEnd(s)|; TrimEnd(s) == s[..n] && Blank(s[n..])
  {
    if s != "" && IsSpace(s[|s| - 1]) {
      var n := |TrimEnd(s)|;
      TrimEndCuts(s[..|s| - 1]);
      assert s[..|s| - 1][..n] == s[..n] && s[n..] == s[..|s| - 1][n..] + [s[|s| - 1]];
    }
  }

  lemma {:induction false} TrimStartCuts(s: string)
    ensures |TrimStart(s)| <= |s|
    ensures var k := |s| - |TrimStart(s)|; TrimStart(s) == s[k..] && Blank(s[..k])
  {
    if s != "" && IsSpace(s[0]) {
      TrimStartCuts(s[1..]);
      var k := |s| - |TrimStart(s)|;
      assert s[1..][k - 1..] == s[k..] && s[..k] == [s[0]] + s[1..][..k - 1];
    }
  }

  /** Trimming takes off white space on both sides and nothing else. */
  lemma TrimCuts(s: string) returns (front: string, back: string)
    ensures s == front + Trim(s) + back && Blank(front) && Blank(back)
  {
    hide IsSpace;
    TrimStartCuts(s);
    var rest := TrimStart(s);
    TrimEndCuts(rest);
    front, back := s[..|s| - |rest|], rest[|Trim(s)|..];
    assert rest == Trim(s) + back && s == front + rest;
  }

  lemma {:induction false} TrimEndFree(s: string, c: char)
    requires c !in s
    ensures c !in TrimEnd(s)
  {
    if s != "" && IsSpace(s[|s| - 1]) {
      TrimEndFree(s[..|s| - 1], c);
    }
  }

  lemma {:induction false} TrimFree(s: string, c: char)
    requires c !in s
    ensures c !in Trim(s)
  {
    if s != "" && IsSpace(s[0]) {
      TrimFree(s[1..], c);
    } else {
      TrimEndFree(s, c);
    }
  }

  // ---------------------------------------------------------------------------------------
  // Numerals

  predicate IsDigit(c: char) {
    '0' <= c <= '9'
  }

  predicate AllDigits(s: string) {
    forall i :: 0 <= i < |s| ==> IsDigit(s[i])
  }

  function DigitValue(c: char): (d: nat)
    requires IsDigit(c)
    ensures d < 10
  {
    c as int - '0' as int
  }

  function DigitChar(d: nat): (c: char)
    requires d < 10
    ensures IsDigit(c) && DigitValue(c) == d
  {
    ('0' as int + d) as char
  }

  function Value(s: string): nat
    requires AllDigits(s)
  {
    if s == "" then 0 else 10 * Value(s[..|s| - 1]) + DigitValue(s[|s| - 1])
  }

  function Pow10(k: nat): (p: nat)
    ensures p > 0
  {
    if k == 0 then 1 else 10 * Pow10(k - 1)
  }

  /** The numeral of `n` without leading zeros. */
  function Numeral(n: nat): (s: string)
    ensures s != "" && AllDigits(s) && Value(s) == n
    ensures s[0] == '0' ==> n == 0 && |s| == 1
  {
    if n < 10 then [DigitChar(n)]
    else
      var head := Numeral(n / 10);
      var s := head + [DigitChar(n % 10)];
      assert s[..|s| - 1] == head;
      s
  }

  function Zeros(k: nat): (s: string)
    ensures |s| == k && AllDigits(s) && forall i :: 0 <= i < k ==> s[i] == '0'
  {
    if k == 0 then "" else "0" + Zeros(k - 1)
  }

  /** The numeral of `n`, padded with zeros to at least `width` digits. */
  function Padded(n: nat, width: nat): (s: string)
    ensures AllDigits(s) && |s| >= width && s != ""
  {
    var s := Numeral(n);
    if |s| >= width then s else Zeros(width - |s|) + s
  }

  /** `v` with `k` zeros appended: `v` times 10 to the `k`. */
  function Shift(v: nat, k: nat): nat {
    if k == 0 then v else 10 * Shift(v, k - 1)
  }

  lemma {:induction false} ShiftTwice(v: nat, a: nat, b: nat)
    ensures Shift(Shift(v, a), b) == Shift(v, a + b)
  {
    if b > 0 {
      ShiftTwice(v, a, b - 1);
    }
  }

  lemma {:induction false} ShiftSum(v: nat, w: nat, k: nat)
    ensures Shift(v + w, k) == Shift(v, k) + Shift(w, k)
  {
    if k > 0 {
      ShiftSum(v, w, k - 1);
    }
  }

  lemma {:induction false} ShiftGrows(v: nat, a: nat, b: nat)
    requires a <= b
    ensures v <= Shift(v, a) <= Shift(v, b)
  {
    if b > 0 {
      ShiftGrows(v, if a < b then a else a - 1, b - 1);
    }
  }

  lemma {:induction false} ShiftZero(k: nat)
    ensures Shift(0, k) == 0
  {
    if k > 0 {
      ShiftZero(k - 1);
    }
  }

  /** Extending a numeral on the right. */
  lemma {:induction false} ValueJoin(a: string, b: string)
    requires AllDigits(a) && AllDigits(b)
    ensures AllDigits(a + b) && Value(a + b) == Shift(Value(a), |b|) + Value(b)
  {
    if b == "" {
      assert a + b == a;
    } else {
      var c := b[..|b| - 1];
      ValueJoin(a, c);
      assert (a + b)[..|a + b| - 1] == a + c;
    }
  }

  lemma {:induction false} PowShift(k: nat)
    ensures Pow10(k) == Shift(1, k)
  {
    if k > 0 {
      PowShift(k - 1);
    }
  }

  lemma {:induction false} ZerosValue(k: nat)
    ensures Value(Zeros(k)) == 0
  {
    if k > 0 {
      ZerosValue(k - 1);
      assert Zeros(k)[..k - 1] == Zeros(k - 1);
    }
  }

  lemma {:induction false} ValueBound(s: string)
    requires AllDigits(s)
    ensures Value(s) < Pow10(|s|)
  {
    if s != "" {
      ValueBound(s[..|s| - 1]);
    }
  }

  /** A prefix of a numeral is worth no more than the numeral. */
  lemma {:induction false} ValuePrefix(s: string, k: nat)
    requires AllDigits(s) && k <= |s|
    ensures Value(s[..k]) <= Value(s)
  {
    if k == |s| {
      assert s[..k] == s;
    } else {
      ValuePrefix(s[..|s| - 1], k);
      assert s[..|s| - 1][..k] == s[..k];
    }
  }

  lemma PaddedValue(n: nat, width: nat)
    ensures Value(Padded(n, width)) == n
  {
    var s := Numeral(n);
    if |s| < width {
      ValueJoin(Zeros(width - |s|), s);
      ZerosValue(width - |s|);
      ShiftZero(|s|);
    }
  }

  /** The numeral of `n` has at most `k` digits exactly when `n` is below 10 to the k. */
  lemma {:induction false} NumeralWidth(n: nat, k: nat)
    requires k > 0
    ensures |Numeral(n)| <= k <==> n < Pow10(k)
  {
    if k == 1 {
      assert Pow10(1) == 10;
      if n >= 10 {
        assert |Numeral(n)| == |Numeral(n / 10)| + 1;
      }
    } else if n < 10 {
      assert Pow10(k) == 10 * (10 * Pow10(k - 2));
    } else {
      NumeralWidth(n / 10, k - 1);
    }
  }

  lemma PaddedWidth(n: nat, width: nat)
    requires width > 0
    ensures n < Pow10(width) ==> |Padded(n, width)| == width
    ensures n >= Pow10(width) ==> |Padded(n, width)| > width && Padded(n, width) == Numeral(n)
  {
    NumeralWidth(n, width);
  }

  lemma PowStep(k: nat)
    ensures Pow10(k + 1) == 10 * Pow10(k) && Pow10(k) > 0
  {
  }

  lemma ShiftOne(n: nat)
    ensures Shift(n, 1) == 10 * n
  {
    assert Shift(n, 0) == n;
  }

  lemma {:induction false} PowGrows(j: nat, k: nat)
    requires j <= k
    ensures Pow10(j) <= Pow10(k)
  {
    if j < k {
      PowGrows(j, k - 1);
    }
  }

  /** A number of `k` digits, at least as many as the padding asks for, is printed with `k`. */
  lemma PaddedDigits(n: nat, k: nat, width: nat)
    requires k >= width > 1 && Pow10(k - 1) <= n < Pow10(k)
    ensures |Padded(n, width)| == k
  {
    hide Pow10, Numeral;
    NumeralWidth(n, k);
    NumeralWidth(n, k - 1);
    PaddedWidth(n, width);
    if k > width {
      PowGrows(width, k - 1);
    }
  }

  // ---------------------------------------------------------------------------------------
  // Lexicographic order

  /** `a` comes strictly before `b`. */
  predicate Less(a: string, b: string) {
    b != "" && (a == "" || a[0] < b[0] || (a[0] == b[0] && Less(a[1..], b[1..])))
  }

  lemma {:induction false} LessPrefix(p: string, a: string, b: string)
    ensures Less(p + a, p + b) == Less(a, b)
  {
    if p == "" {
      assert p + a == a && p + b == b;
    } else {
      assert (p + a)[1..] == p[1..] + a && (p + b)[1..] == p[1..] + b;
      LessPrefix(p[1..], a, b);
    }
  }

  lemma {:induction false} LessSelf(s: string)
    ensures !Less(s, s)
  {
    if s != "" {
      LessSelf(s[1..]);
    }
  }

  /** The order is total, and not being after is transitive. */
  lemma {:induction false} LessOrder(a: string, b: string, c: string)
    ensures !Less(a, b) || !Less(b, a)
    ensures !Less(b, a) && !Less(c, b) ==> !Less(c, a)
  {
    if a != "" && b != "" {
      LessOrder(a[1..], b[1..], if c != "" then c[1..] else c);
    }
  }
}
