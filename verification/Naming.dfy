/**
 The names of segments: where the encoder publishes them, how the uploader and the compactor
 read the hour and the partition back, and in which order the compactor takes them.
 */
module Naming {
  import opened Numbers
  import opened Buffering
  import opened Markets
  import opened Text
  import opened Wrappers

  /** An hour of the calendar. */
  datatype Hour = Hour(year: nat, month: nat, day: nat, hour: nat)

  const WIDTH: nat := 10

  function DaysIn(year: nat, month: nat): nat {
    if month == 2 then (if year % 4 == 0 && (year % 100 != 0 || year % 400 == 0) then 29 else 28)
    else if month == 4 || month == 6 || month == 9 || month == 11 then 30
    else 31
  }

  predicate OnCalendar(h: Hour) {
    1 <= h.month <= 12 && 1 <= h.day <= DaysIn(h.year, h.month) && h.hour < 24
  }

  // ---------------------------------------------------------------------------------------
  // Writing names

  function Child(parent: string, name: string): string {
    parent + "/" + name
  }

  function MarketName(market: Market): string {
    match market
    case Spot => "spot"
    case Usdm => "usdm"
    case Coinm => "coinm"
  }

  function DayName(h: Hour): string {
    (Padded(h.year, 4) + "-" + Padded(h.month, 2)) + "-" + Padded(h.day, 2)
  }

  function HourName(h: Hour): string {
    Padded(h.hour, 2)
  }

  function SegmentName(sequence: nat): string {
    "segment-" + Padded(sequence, WIDTH) + ".parquet"
  }

  /** The directory of one table and hour below the exchange's directory, on disk or in S3. */
  function Partition(root: string, market: Market, table: string, h: Hour): string {
    Child(Child(Child(Child(root, MarketName(market)), table), DayName(h)), HourName(h))
  }

  function SegmentPath(root: string, market: Market, table: string, h: Hour, sequence: nat): string {
    Child(Partition(root, market, table, h), SegmentName(sequence))
  }

  // ---------------------------------------------------------------------------------------
  // Reading names

  /** What stands before and after the last `c`. */
  function RSplit(s: string, c: char): Option<(string, string)>
    decreases |s|
  {
    if s == "" then None
    else
      var last := |s| - 1;
      if s[last] == c then Some((s[..last], ""))
      else
        match RSplit(s[..last], c)
        case None => None
        case Some((before, after)) => Some((before, after + [s[last]]))
  }

  function LastComponent(path: string): string {
    match RSplit(path, '/')
    case None => path
    case Some((_, name)) => name
  }

  function LeadingDigits(s: string, max: nat): (k: nat)
    ensures k <= |s| && k <= max && AllDigits(s[..k])
  {
    if max == 0 || s == "" || !IsDigit(s[0]) then 0
    else
      var k := LeadingDigits(s[1..], max - 1);
      assert s[..k + 1] == [s[0]] + s[1..][..k];
      k + 1
  }

  datatype Scanned = Scanned(value: nat, rest: string)

  /** Reads one to `max` digits. */
  function Scan(s: string, max: nat): Option<Scanned> {
    var k := LeadingDigits(s, max);
    if k == 0 then None else Some(Scanned(Value(s[..k]), s[k..]))
  }

  /** Reads one to `max` digits and the character `end`. */
  function ScanTo(s: string, max: nat, end: char): Option<Scanned> {
    match Scan(s, max)
    case None => None
    case Some(n) => if n.rest != "" && n.rest[0] == end then Some(Scanned(n.value, n.rest[1..])) else None
  }

  function ParseHour(day: string, hour: string): Option<Hour> {
    match ScanTo(day, 4, '-')
    case None => None
    case Some(y) =>
      match ScanTo(y.rest, 2, '-')
      case None => None
      case Some(m) =>
        match (Scan(m.rest, 2), Scan(hour, 2))
        case (Some(d), Some(h)) =>
          var parsed := Hour(y.value, m.value, d.value, h.value);
          if d.rest == "" && h.rest == "" && OnCalendar(parsed) then Some(parsed) else None
        case _ => None
  }

  function HourFromPath(path: string): Option<Hour> {
    match RSplit(path, '/')
    case None => None
    case Some((directory, _)) =>
      match RSplit(directory, '/')
      case None => None
      case Some((above, hour)) => ParseHour(LastComponent(above), hour)
  }

  function PartitionFromKey(key: string): Option<(string, Hour)> {
    match RSplit(key, '/')
    case None => None
    case Some((partition, _)) =>
      match RSplit(partition, '/')
      case None => None
      case Some((above, hour)) =>
        match RSplit(above, '/')
        case None => None
        case Some((_, day)) =>
          match ParseHour(day, hour)
          case None => None
          case Some(h) => Some((partition, h))
  }

  predicate StartsWith(s: string, prefix: string) {
    prefix <= s
  }

  predicate EndsWith(s: string, suffix: string) {
    |suffix| <= |s| && s[|s| - |suffix|..] == suffix
  }

  predicate IsSourceKey(key: string) {
    EndsWith(key, ".parquet") && StartsWith(LastComponent(key), "segment-")
  }

  // ---------------------------------------------------------------------------------------
  // Reading back what was written

  lemma {:induction false} RSplitLast(before: string, c: char, after: string)
    requires c !in after
    ensures RSplit(before + [c] + after, c) == Some((before, after))
    decreases |after|
  {
    var s := before + [c] + after;
    if after == "" {
      assert s[..|s| - 1] == before;
    } else {
      var front := after[..|after| - 1];
      assert s[..|s| - 1] == before + [c] + front;
      assert s[|s| - 1] == after[|after| - 1] && after[|after| - 1] in after;
      RSplitLast(before, c, front);
      assert front + [s[|s| - 1]] == after;
    }
  }

  /** A numeral holds no separator. */
  lemma DigitsPlain(s: string)
    requires AllDigits(s)
    ensures '/' !in s && '-' !in s
  {
  }

  lemma NamesPlain(h: Hour, sequence: nat)
    ensures '/' !in DayName(h) && '/' !in HourName(h) && '/' !in SegmentName(sequence)
  {
    DigitsPlain(Padded(h.year, 4));
    DigitsPlain(Padded(h.month, 2));
    DigitsPlain(Padded(h.day, 2));
    DigitsPlain(Padded(h.hour, 2));
    DigitsPlain(Padded(sequence, WIDTH));
  }

  lemma {:induction false} LeadingExact(digits: string, rest: string, max: nat)
    requires AllDigits(digits) && (rest == "" || !IsDigit(rest[0]))
    ensures LeadingDigits(digits + rest, max) == if |digits| <= max then |digits| else max
  {
    var s := digits + rest;
    if digits != "" && max > 0 {
      assert s[0] == digits[0] && s[1..] == digits[1..] + rest;
      LeadingExact(digits[1..], rest, max - 1);
    } else if digits == "" {
      assert s == rest;
    }
  }

  lemma ScanToExact(digits: string, max: nat, end: char, rest: string)
    requires AllDigits(digits) && digits != "" && !IsDigit(end)
    ensures ScanTo(digits + [end] + rest, max, end)
         == if |digits| <= max then Some(Scanned(Value(digits), rest)) else None
  {
    var s, tail := digits + [end] + rest, [end] + rest;
    assert s == digits + tail && tail[0] == end && tail[1..] == rest;
    LeadingExact(digits, tail, max);
    if |digits| <= max {
      assert s[..|digits|] == digits && s[|digits|..] == tail;
    } else if max > 0 {
      assert s[max..] != "" && s[max..][0] == digits[max];
    }
  }

  lemma ScanExact(digits: string, max: nat)
    requires AllDigits(digits) && 0 < |digits| <= max
    ensures Scan(digits, max) == Some(Scanned(Value(digits), ""))
  {
    assert digits + "" == digits && digits[..|digits|] == digits;
    LeadingExact(digits, "", max);
  }

  /** The hour is read back exactly for the years that fit four digits. */
  lemma HourReadBack(h: Hour)
    requires OnCalendar(h)
    ensures ParseHour(DayName(h), HourName(h)) == if h.year <= 9999 then Some(h) else None
  {
    var year, month, day, hour := Padded(h.year, 4), Padded(h.month, 2), Padded(h.day, 2), Padded(h.hour, 2);
    assert Pow10(2) == 100;
    assert Pow10(4) == 100 * Pow10(2);
    PaddedWidth(h.year, 4);
    PaddedWidth(h.month, 2);
    PaddedWidth(h.day, 2);
    PaddedWidth(h.hour, 2);
    PaddedValue(h.year, 4);
    PaddedValue(h.month, 2);
    PaddedValue(h.day, 2);
    PaddedValue(h.hour, 2);
    var rest := month + "-" + day;
    assert DayName(h) == year + "-" + rest;
    ScanToExact(year, 4, '-', rest);
    ScanToExact(month, 2, '-', day);
    ScanExact(day, 2);
    ScanExact(hour, 2);
  }

  lemma ChildSplits(parent: string, name: string)
    requires '/' !in name
    ensures RSplit(Child(parent, name), '/') == Some((parent, name))
  {
    RSplitLast(parent, '/', name);
  }

  /** The uploader's retention and the compactor's grouping see the hour and the partition a
      segment was written under, in every year up to 9999 and in no later one. */
  lemma PathReadBack(root: string, market: Market, table: string, h: Hour, sequence: nat)
    requires OnCalendar(h)
    ensures var path := SegmentPath(root, market, table, h, sequence);
      && HourFromPath(path) == (if h.year <= 9999 then Some(h) else None)
      && PartitionFromKey(path) == (if h.year <= 9999 then Some((Partition(root, market, table, h), h)) else None)
  {
    var above := Child(Child(root, MarketName(market)), table);
    NamesPlain(h, sequence);
    ChildSplits(Partition(root, market, table, h), SegmentName(sequence));
    ChildSplits(Child(above, DayName(h)), HourName(h));
    ChildSplits(above, DayName(h));
    HourReadBack(h);
  }

  /** Segments are sources of a compaction, the compacted output and the success marker are not. */
  lemma SourceKeys(partition: string, sequence: nat)
    ensures IsSourceKey(Child(partition, SegmentName(sequence)))
    ensures !IsSourceKey(Child(partition, "compacted.parquet"))
    ensures !IsSourceKey(Child(partition, "_COMPACTION_SUCCESS.json"))
    ensures !IsSourceKey(Child(partition, SegmentName(sequence) + ".uploaded"))
  {
    var name := SegmentName(sequence);
    NamesPlain(Hour(0, 0, 0, 0), sequence);
    ChildSplits(partition, name);
    ChildSplits(partition, "compacted.parquet");
    var key := Child(partition, name);
    assert name[|name| - 8..] == ".parquet" && key[|key| - 8..] == name[|name| - 8..];
    assert name[..8] == "segment-";
    assert "compacted.parquet"[0] == 'c' && "segment-"[0] == 's';
    var marker := Child(partition, "_COMPACTION_SUCCESS.json");
    assert marker[|marker| - 1] == 'n' && ".parquet"[7] == 't';
  }

  // ---------------------------------------------------------------------------------------
  // Names are unique

  lemma ChildInjective(parent: string, name: string, parent': string, name': string)
    requires '/' !in name && '/' !in name' && Child(parent, name) == Child(parent', name')
    ensures parent == parent' && name == name'
  {
    ChildSplits(parent, name);
    ChildSplits(parent', name');
  }

  lemma SegmentNameInjective(a: nat, b: nat)
    requires SegmentName(a) == SegmentName(b)
    ensures a == b
  {
    var x, y := Padded(a, WIDTH), Padded(b, WIDTH);
    assert SegmentName(a)[8..|SegmentName(a)| - 8] == x;
    assert SegmentName(b)[8..|SegmentName(b)| - 8] == y;
    PaddedValue(a, WIDTH);
    PaddedValue(b, WIDTH);
  }

  lemma DayNameSplits(h: Hour)
    ensures RSplit(DayName(h), '-') == Some((Padded(h.year, 4) + "-" + Padded(h.month, 2), Padded(h.day, 2)))
    ensures RSplit(Padded(h.year, 4) + "-" + Padded(h.month, 2), '-') == Some((Padded(h.year, 4), Padded(h.month, 2)))
    ensures Value(Padded(h.year, 4)) == h.year
    ensures Value(Padded(h.month, 2)) == h.month && Value(Padded(h.day, 2)) == h.day
  {
    DigitsPlain(Padded(h.month, 2));
    DigitsPlain(Padded(h.day, 2));
    RSplitLast(Padded(h.year, 4) + "-" + Padded(h.month, 2), '-', Padded(h.day, 2));
    RSplitLast(Padded(h.year, 4), '-', Padded(h.month, 2));
    PaddedValue(h.year, 4);
    PaddedValue(h.month, 2);
    PaddedValue(h.day, 2);
  }

  lemma DayNameInjective(a: Hour, b: Hour)
    requires DayName(a) == DayName(b)
    ensures a.year == b.year && a.month == b.month && a.day == b.day
  {
    DayNameSplits(a);
    DayNameSplits(b);
  }

  lemma HourNameInjective(a: Hour, b: Hour)
    requires HourName(a) == HourName(b)
    ensures a.hour == b.hour
  {
    PaddedValue(a.hour, 2);
    PaddedValue(b.hour, 2);
  }

  /** Equal paths come from the same market, table, hour and sequence number. */
  lemma PathInjective(root: string, market: Market, table: string, h: Hour, sequence: nat,
                      market': Market, table': string, h': Hour, sequence': nat)
    requires '/' !in table && '/' !in table'
    ensures SegmentPath(root, market, table, h, sequence) == SegmentPath(root, market', table', h', sequence') <==>
      market == market' && table == table' && h == h' && sequence == sequence'
  {
    hide DayName, HourName, SegmentName, Padded;
    var base, base' := Child(root, MarketName(market)), Child(root, MarketName(market'));
    var above, above' := Child(base, table), Child(base', table');
    if SegmentPath(root, market, table, h, sequence) == SegmentPath(root, market', table', h', sequence') {
      NamesPlain(h, sequence);
      NamesPlain(h', sequence');
      ChildInjective(Partition(root, market, table, h), SegmentName(sequence),
                     Partition(root, market', table', h'), SegmentName(sequence'));
      ChildInjective(Child(above, DayName(h)), HourName(h), Child(above', DayName(h')), HourName(h'));
      ChildInjective(above, DayName(h), above', DayName(h'));
      ChildInjective(base, table, base', table');
      ChildInjective(root, MarketName(market), root, MarketName(market'));
      SegmentNameInjective(sequence, sequence');
      DayNameInjective(h, h');
      HourNameInjective(h, h');
    }
  }

  /** Fewer than 2 to the 64 steps apart, wrapped sequence numbers differ. */
  lemma SequencesDistinct(first: nat, j: nat, k: nat)
    requires j < k && k - j < U64
    ensures (first + j) % U64 != (first + k) % U64
  {
  }

  lemma PartitionMarket(root: string, market: Market, table: string, h: Hour)
    ensures |Partition(root, market, table, h)| > |root| + 1
    ensures Partition(root, market, table, h)[|root| + 1] == MarketName(market)[0]
  {
    var base := Child(root, MarketName(market));
    assert base[|root| + 1] == MarketName(market)[0];
    assert Child(base, table)[|root| + 1] == base[|root| + 1];
  }

  /** Jobs of different workers, or of one worker with different sequence numbers, are published
      under different paths: the publishing rename replaces no other segment. */
  lemma NeverOverwritten(root: string, a: Job, b: Job, calendar: nat -> Hour)
    requires a.market == b.market ==> a.sequence != b.sequence
    ensures SegmentPath(root, a.market, a.table, calendar(a.hour), a.sequence)
         != SegmentPath(root, b.market, b.table, calendar(b.hour), b.sequence)
  {
    var p := Partition(root, a.market, a.table, calendar(a.hour));
    var q := Partition(root, b.market, b.table, calendar(b.hour));
    if Child(p, SegmentName(a.sequence)) == Child(q, SegmentName(b.sequence)) {
      NamesPlain(calendar(a.hour), a.sequence);
      NamesPlain(calendar(b.hour), b.sequence);
      ChildInjective(p, SegmentName(a.sequence), q, SegmentName(b.sequence));
      SegmentNameInjective(a.sequence, b.sequence);
      PartitionMarket(root, a.market, a.table, calendar(a.hour));
      PartitionMarket(root, b.market, b.table, calendar(b.hour));
    }
  }

  // ---------------------------------------------------------------------------------------
  // Key order

  lemma ValueOne(c: char)
    requires IsDigit(c)
    ensures Value([c]) == DigitValue(c)
  {
    assert [c][..0] == "";
  }

  /** A numeral seen from its first digit. */
  lemma ValueHead(s: string)
    requires AllDigits(s) && s != ""
    ensures Value(s) == Shift(DigitValue(s[0]), |s| - 1) + Value(s[1..]) && Value(s[1..]) < Shift(1, |s| - 1)
  {
    var head, tail := [s[0]], s[1..];
    ValueOne(s[0]);
    ValueJoin(head, tail);
    ValueBound(tail);
    PowShift(|tail|);
    assert s == head + tail;
  }

  lemma DigitDecides(a: nat, b: nat, k: nat, x: nat, y: nat)
    requires a < b && x < Shift(1, k)
    ensures Shift(a, k) + x < Shift(b, k) + y
  {
    ShiftSum(a, 1, k);
    ShiftSum(a + 1, b - a - 1, k);
  }

  /** Digits of equal number decide by value, and only equal ones leave it to what follows. */
  lemma {:induction false} LessDigits(s: string, t: string, x: string, y: string)
    requires AllDigits(s) && AllDigits(t) && |s| == |t|
    ensures Less(s + x, t + y) <==> Value(s) < Value(t) || (Value(s) == Value(t) && Less(x, y))
  {
    if s == "" {
      assert s + x == x && t + y == y;
    } else {
      var k := |s| - 1;
      assert (s + x)[1..] == s[1..] + x && (t + y)[1..] == t[1..] + y;
      LessDigits(s[1..], t[1..], x, y);
      ValueHead(s);
      ValueHead(t);
      var a, b := DigitValue(s[0]), DigitValue(t[0]);
      if a < b {
        DigitDecides(a, b, k, Value(s[1..]), Value(t[1..]));
      } else if b < a {
        DigitDecides(b, a, k, Value(t[1..]), Value(s[1..]));
      }
    }
  }

  lemma NameOrderEqual(a: nat, b: nat)
    requires |Padded(a, WIDTH)| == |Padded(b, WIDTH)|
    ensures Less(SegmentName(a), SegmentName(b)) <==> a < b
  {
    var x, y := Padded(a, WIDTH), Padded(b, WIDTH);
    assert SegmentName(a) == "segment-" + (x + ".parquet") && SegmentName(b) == "segment-" + (y + ".parquet");
    LessPrefix("segment-", x + ".parquet", y + ".parquet");
    LessDigits(x, y, ".parquet", ".parquet");
    PaddedValue(a, WIDTH);
    PaddedValue(b, WIDTH);
    LessSelf(".parquet");
  }

  lemma HeadDecides(a: nat, head: nat, k: nat, tail: nat)
    requires tail < Shift(1, k)
    ensures Shift(a, k) <= Shift(head, k) + tail <==> a <= head
  {
    if a <= head {
      ShiftSum(a, head - a, k);
    } else {
      DigitDecides(head, a, k, tail, 0);
    }
  }

  /** A shorter numeral: its digits are compared with the first digits of the longer one, and the
      point after it is below any digit. */
  lemma NameOrderShorter(a: nat, b: nat, k: nat)
    requires |Padded(b, WIDTH)| == |Padded(a, WIDTH)| + k && k > 0
    ensures Less(SegmentName(a), SegmentName(b)) <==> Shift(a, k) <= b
    ensures Less(SegmentName(b), SegmentName(a)) <==> Shift(a, k) > b
  {
    var x, y := Padded(a, WIDTH), Padded(b, WIDTH);
    var head, tail := y[..|x|], y[|x|..];
    var suffix := ".parquet";
    assert SegmentName(a) == "segment-" + (x + suffix);
    assert y + suffix == head + (tail + suffix);
    assert SegmentName(b) == "segment-" + (head + (tail + suffix));
    LessPrefix("segment-", x + suffix, head + (tail + suffix));
    LessPrefix("segment-", head + (tail + suffix), x + suffix);
    LessDigits(x, head, suffix, tail + suffix);
    LessDigits(head, x, tail + suffix, suffix);
    assert suffix[0] == '.' && (tail + suffix)[0] == tail[0] && IsDigit(tail[0]);
    assert y == head + tail;
    ValueJoin(head, tail);
    ValueBound(tail);
    PowShift(k);
    PaddedValue(a, WIDTH);
    PaddedValue(b, WIDTH);
    HeadDecides(a, Value(head), k, Value(tail));
  }

  /** The compactor's key order is the order of the sequence numbers when their printed widths
      agree; when the earlier number is printed `k` digits shorter, exactly if `a` times 10 to
      the `k` is at most `b`. */
  lemma KeyOrder(partition: string, a: nat, b: nat, k: nat)
    requires a < b && |Padded(b, WIDTH)| == |Padded(a, WIDTH)| + k
    ensures Less(Child(partition, SegmentName(a)), Child(partition, SegmentName(b))) <==> k == 0 || Shift(a, k) <= b
  {
    assert Child(partition, SegmentName(a)) == (partition + "/") + SegmentName(a);
    assert Child(partition, SegmentName(b)) == (partition + "/") + SegmentName(b);
    LessPrefix(partition + "/", SegmentName(a), SegmentName(b));
    if k == 0 {
      NameOrderEqual(a, b);
    } else {
      NameOrderShorter(a, b, k);
    }
  }

  /** The last number of `n` digits and its successor: their printed widths, and that the first
      digits of the successor are the smaller ones. */
  lemma LastOfWidth(n: nat)
    requires n >= WIDTH
    ensures Pow10(n) > 0 && Shift(Pow10(n) - 1, 1) > Pow10(n)
    ensures |Padded(Pow10(n) - 1, WIDTH)| == n && |Padded(Pow10(n), WIDTH)| == n + 1
  {
    hide Pow10, Padded, Shift;
    var a, b := Pow10(n) - 1, Pow10(n);
    PowStep(n - 1);
    PowStep(n);
    ShiftOne(a);
    PaddedDigits(a, n, WIDTH);
    PaddedDigits(b, n + 1, WIDTH);
  }

  /** Where the order breaks: the last number of `n` digits, beyond the padding, and its successor,
      whose key comes first. */
  lemma OutOfOrder(partition: string, n: nat)
    requires n >= WIDTH
    ensures Less(Child(partition, SegmentName(Pow10(n))), Child(partition, SegmentName(Pow10(n) - 1)))
    ensures !Less(Child(partition, SegmentName(Pow10(n) - 1)), Child(partition, SegmentName(Pow10(n))))
  {
    hide Pow10, Padded, SegmentName, Less, Shift;
    LastOfWidth(n);
    var a, b := SegmentName(Pow10(n) - 1), SegmentName(Pow10(n));
    NameOrderShorter(Pow10(n) - 1, Pow10(n), 1);
    LessPrefix(partition + "/", a, b);
    LessPrefix(partition + "/", b, a);
    assert Child(partition, a) == (partition + "/") + a && Child(partition, b) == (partition + "/") + b;
  }
}
