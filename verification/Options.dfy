/**
 Comma-separated settings, and the sizes of the write buffers.
 */
module Options {
  import opened Numbers
  import opened Sequences
  import opened Text
  import opened Wrappers

  // ---------------------------------------------------------------------------------------
  // Comma-separated lists

  function UpperChar(c: char): char {
    if 'a' <= c <= 'z' then (c as int - 32) as char else c
  }

  function Upper(s: string): (r: string)
    ensures |r| == |s|
    ensures forall i :: 0 <= i < |r| ==>
      && !('a' <= r[i] <= 'z')
      && (r[i] == s[i] || ('a' <= s[i] <= 'z' && r[i] as int - 'A' as int == s[i] as int - 'a' as int))
  {
    seq(|s|, i requires 0 <= i < |s| => UpperChar(s[i]))
  }

  function Normal(item: string, uppercase: bool): string {
    if uppercase then Upper(Trim(item)) else Trim(item)
  }

  /** The values of the first `n` pieces, each where it first occurs. */
  function FirstOccurrences(pieces: seq<string>, n: nat, uppercase: bool): seq<string>
    requires n <= |pieces|
  {
    if n == 0 then []
    else
      var before, item := FirstOccurrences(pieces, n - 1, uppercase), Normal(pieces[n - 1], uppercase);
      if item == "" || item in before then before else before + [item]
  }

  method Csv(value: string, uppercase: bool) returns (values: seq<string>)
    ensures var pieces := Split(value, ','); values == FirstOccurrences(pieces, |pieces|, uppercase)
  {
    var pieces := Split(value, ',');
    values := [];
    for n := 0 to |pieces|
      invariant values == FirstOccurrences(pieces, n, uppercase)
    {
      var item := Trim(pieces[n]);
      if item != "" {
        item := if uppercase then Upper(item) else item;
        if item !in values {
          values := values + [item];
        }
      }
    }
  }

  /** The values a list can come out as. */
  predicate Clean(values: seq<string>, uppercase: bool) {
    && NoRepeats(values) && Free(values, ',')
    && forall i :: 0 <= i < |values| ==> values[i] != "" && Normal(values[i], uppercase) == values[i]
  }

  lemma UpperSpace(c: char)
    ensures IsSpace(UpperChar(c)) == IsSpace(c) && UpperChar(UpperChar(c)) == UpperChar(c)
    ensures UpperChar(c) == ',' <==> c == ','
  {
  }

  lemma UpperTwice(s: string)
    ensures Upper(Upper(s)) == Upper(s)
    ensures Trimmed(s) ==> Trimmed(Upper(s))
    ensures ',' !in s ==> ',' !in Upper(s)
  {
    forall i | 0 <= i < |s| ensures Upper(Upper(s))[i] == Upper(s)[i] {
      UpperSpace(s[i]);
    }
    if s != "" {
      UpperSpace(s[0]);
      UpperSpace(s[|s| - 1]);
    }
    forall i | 0 <= i < |s| ensures Upper(s)[i] == ',' <==> s[i] == ',' {
      UpperSpace(s[i]);
    }
  }

  lemma NormalClean(piece: string, uppercase: bool)
    requires ',' !in piece
    ensures ',' !in Normal(piece, uppercase)
    ensures Normal(Normal(piece, uppercase), uppercase) == Normal(piece, uppercase)
  {
    TrimFree(piece, ',');
    UpperTwice(Trim(piece));
  }

  lemma {:induction false} CsvClean(pieces: seq<string>, n: nat, uppercase: bool)
    requires n <= |pieces| && Free(pieces, ',')
    ensures Clean(FirstOccurrences(pieces, n, uppercase), uppercase)
  {
    if n > 0 {
      CsvClean(pieces, n - 1, uppercase);
      NormalClean(pieces[n - 1], uppercase);
    }
  }

  /** The values of a list are exactly the normalised nonblank pieces. */
  lemma {:induction false} CsvComplete(pieces: seq<string>, n: nat, uppercase: bool, v: string)
    requires n <= |pieces|
    ensures v in FirstOccurrences(pieces, n, uppercase) <==>
      v != "" && exists i :: 0 <= i < n && Normal(pieces[i], uppercase) == v
  {
    hide Normal;
    if n > 0 {
      CsvComplete(pieces, n - 1, uppercase, v);
    }
  }

  lemma {:induction false} CleanStays(values: seq<string>, n: nat, uppercase: bool)
    requires n <= |values| && Clean(values, uppercase)
    ensures FirstOccurrences(values, n, uppercase) == values[..n]
  {
    if n > 0 {
      CleanStays(values, n - 1, uppercase);
      assert values[n - 1] !in values[..n - 1];
    }
  }

  /** Writing a parsed list out and parsing it again gives the same list. */
  lemma CsvRoundTrip(value: string, uppercase: bool)
    ensures var pieces := Split(value, ',');
      var values := FirstOccurrences(pieces, |pieces|, uppercase);
      var again := Split(Join(values, ','), ',');
      FirstOccurrences(again, |again|, uppercase) == values
  {
    var pieces := Split(value, ',');
    var values := FirstOccurrences(pieces, |pieces|, uppercase);
    SplitFree(value, ',');
    CsvClean(pieces, |pieces|, uppercase);
    if values == [] {
      assert Split("", ',') == [""];
      assert FirstOccurrences([""], 0, uppercase) == [];
      assert Normal("", uppercase) == "";
    } else {
      SplitJoin(values, ',');
      CleanStays(values, |values|, uppercase);
    }
  }

  // ---------------------------------------------------------------------------------------
  // Buffer sizes, in megabytes

  function Clamp(x: nat, low: nat, high: nat): nat
    requires low <= high
  {
    if x < low then low else if high < x then high else x
  }

  function AutomaticBuffer(memoryMb: nat, allMarkets: bool): nat {
    Clamp(Capped(memoryMb * 30) / 100 / (if allMarkets then 3 else 1), 32, 256)
  }

  datatype Sizes = Sizes(buffer: nat, segment: nat)

  /** Zero means: choose. The sizes conflict exactly when a given segment exceeds the buffer. */
  function BufferSizes(memoryMb: nat, allMarkets: bool, bufferMb: nat, segmentMb: nat): (r: Result<Sizes, string>)
    ensures r.Err? <==> segmentMb > (if bufferMb > 0 then bufferMb else AutomaticBuffer(memoryMb, allMarkets))
    ensures r.Ok? ==> 1 <= r.value.segment <= r.value.buffer
    ensures r.Ok? && bufferMb > 0 ==> r.value.buffer == bufferMb
    ensures r.Ok? && bufferMb == 0 ==>
      var buffer, markets := r.value.buffer, if allMarkets then 3 else 1;
      && 32 <= buffer <= 256
      && (buffer > 32 ==> 100 * (markets * buffer) <= 30 * memoryMb)
      && (buffer < 256 ==> 30 * memoryMb < 100 * (markets * (buffer + 1)))
    ensures r.Ok? && segmentMb > 0 ==> r.value.segment == segmentMb
    ensures r.Ok? && segmentMb == 0 ==>
      var (buffer, segment) := (r.value.buffer, r.value.segment);
      && segment <= 64 && (buffer <= 2 * segment + 1 || segment == 64)
      && (segment > 16 ==> 2 * segment <= buffer) && (segment < 16 ==> segment == buffer)
  {
    var buffer := if bufferMb == 0 then AutomaticBuffer(memoryMb, allMarkets) else bufferMb;
    var automatic := Min(Clamp(buffer / 2, 16, 64), buffer);
    var segment := if segmentMb == 0 then automatic else segmentMb;
    if segment > buffer then Err("segment size must not exceed the per-market buffer size")
    else Ok(Sizes(buffer, segment))
  }
}
