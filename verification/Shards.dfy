/**
 Which connection carries which stream: global streams are dealt out one by one, and all
 streams of one symbol go to the same connection.
 */
module Shards {
  import opened Connections
  import opened Markets

  /** A stream and the connection it is dealt to. */
  datatype Item = Item(shard: nat, text: string)

  function LowerChar(c: char): char {
    if 'A' <= c <= 'Z' then (c as int + 32) as char else c
  }

  function Lower(s: string): string {
    seq(|s|, i requires 0 <= i < |s| => LowerChar(s[i]))
  }

  function StreamName(symbol: string, stream: string): string {
    Lower(symbol) + "@" + stream
  }

  /** The first `n` global streams, dealt out round robin. */
  function GlobalItems(globals: seq<string>, n: nat, count: nat): seq<Item>
    requires n <= |globals| && count > 0
  {
    if n == 0 then [] else GlobalItems(globals, n - 1, count) + [Item((n - 1) % count, globals[n - 1])]
  }

  /** The first `k` streams of one symbol. */
  function SymbolItems(symbol: string, locals: seq<string>, k: nat, shard: nat): seq<Item>
    requires k <= |locals|
  {
    if k == 0 then []
    else SymbolItems(symbol, locals, k - 1, shard) + [Item(shard, StreamName(symbol, locals[k - 1]))]
  }

  /** All streams of the first `n` symbols, symbol by symbol. */
  function PairItems(symbols: seq<string>, n: nat, locals: seq<string>, count: nat): seq<Item>
    requires n <= |symbols| && count > 0
  {
    if n == 0 then []
    else
      PairItems(symbols, n - 1, locals, count) + SymbolItems(symbols[n - 1], locals, |locals|, (n - 1) % count)
  }

  function AllItems(symbols: seq<string>, streams: seq<string>, count: nat): seq<Item>
    requires count > 0
  {
    GlobalItems(Globals(streams), |Globals(streams)|, count) + PairItems(symbols, |symbols|, Locals(streams), count)
  }

  /** What connection `j` carries, in order. */
  function Bin(items: seq<Item>, j: nat): seq<string> {
    if items == [] then []
    else
      var last := items[|items| - 1];
      Bin(items[..|items| - 1], j) + (if last.shard == j then [last.text] else [])
  }

  function Texts(items: seq<Item>): seq<string> {
    seq(|items|, i requires 0 <= i < |items| => items[i].text)
  }

  /** Everything the connections carry. */
  function Gathered(shards: seq<seq<string>>): multiset<string> {
    if shards == [] then multiset{} else multiset(shards[0]) + Gathered(shards[1..])
  }

  predicate Dealt(shards: seq<seq<string>>, items: seq<Item>) {
    forall j :: 0 <= j < |shards| ==> shards[j] == Bin(items, j)
  }

  lemma BinPush(items: seq<Item>, item: Item, j: nat)
    ensures Bin(items + [item], j) == Bin(items, j) + (if item.shard == j then [item.text] else [])
  {
    assert (items + [item])[..|items|] == items;
  }

  lemma DealtPush(shards: seq<seq<string>>, items: seq<Item>, item: Item)
    requires Dealt(shards, items) && item.shard < |shards|
    ensures Dealt(shards[item.shard := shards[item.shard] + [item.text]], items + [item])
  {
    forall j | 0 <= j < |shards|
      ensures shards[item.shard := shards[item.shard] + [item.text]][j] == Bin(items + [item], j)
    {
      BinPush(items, item, j);
    }
  }

  method Deal(symbols: seq<string>, streams: seq<string>, count: nat) returns (shards: seq<seq<string>>)
    requires count > 0
    ensures |shards| == count && Dealt(shards, AllItems(symbols, streams, count))
  {
    var globals, locals := Globals(streams), Locals(streams);
    shards := seq(count, _ => []);
    ghost var items: seq<Item> := [];
    for k := 0 to |globals|
      invariant |shards| == count && items == GlobalItems(globals, k, count) && Dealt(shards, items)
    {
      ghost var item := Item(k % count, globals[k]);
      DealtPush(shards, items, item);
      shards := shards[k % count := shards[k % count] + [globals[k]]];
      items := items + [item];
    }
    ghost var first := items;
    assert first == first + PairItems(symbols, 0, locals, count);
    for n := 0 to |symbols|
      invariant |shards| == count && items == first + PairItems(symbols, n, locals, count) && Dealt(shards, items)
    {
      ghost var done := items;
      assert items == done + SymbolItems(symbols[n], locals, 0, n % count);
      for k := 0 to |locals|
        invariant |shards| == count && Dealt(shards, items)
        invariant items == done + SymbolItems(symbols[n], locals, k, n % count)
      {
        var name := StreamName(symbols[n], locals[k]);
        ghost var item := Item(n % count, name);
        DealtPush(shards, items, item);
        shards := shards[n % count := shards[n % count] + [name]];
        items := items + [item];
      }
    }
  }

  // ---------------------------------------------------------------------------------------
  // Every stream on exactly one connection

  lemma {:induction false} GatheredPush(shards: seq<seq<string>>, j: nat, text: string)
    requires j < |shards|
    ensures Gathered(shards[j := shards[j] + [text]]) == Gathered(shards) + multiset{text}
  {
    var next := shards[j := shards[j] + [text]];
    if j == 0 {
      assert next[1..] == shards[1..];
    } else {
      GatheredPush(shards[1..], j - 1, text);
      assert next[1..] == shards[1..][j - 1 := shards[1..][j - 1] + [text]];
    }
  }

  lemma {:induction false} GatheredEmpty(shards: seq<seq<string>>)
    requires forall j :: 0 <= j < |shards| ==> shards[j] == []
    ensures Gathered(shards) == multiset{}
  {
    if shards != [] {
      GatheredEmpty(shards[1..]);
    }
  }

  predicate InRange(items: seq<Item>, count: nat) {
    forall i :: 0 <= i < |items| ==> items[i].shard < count
  }

  /** Dealing neither loses nor duplicates a stream. */
  lemma {:induction false} DealtConserves(shards: seq<seq<string>>, items: seq<Item>)
    requires Dealt(shards, items) && InRange(items, |shards|)
    ensures Gathered(shards) == multiset(Texts(items))
    decreases |items|
  {
    if items == [] {
      GatheredEmpty(shards);
    } else {
      var front, last := items[..|items| - 1], items[|items| - 1];
      assert items == front + [last];
      var before := seq(|shards|, j requires 0 <= j < |shards| => Bin(front, j));
      DealtConserves(before, front);
      hide Bin, Gathered;
      DealtPush(before, front, last);
      assert shards == before[last.shard := before[last.shard] + [last.text]];
      GatheredPush(before, last.shard, last.text);
      assert Texts(items) == Texts(front) + [last.text];
    }
  }

  lemma TextsJoin(a: seq<Item>, b: seq<Item>)
    ensures Texts(a + b) == Texts(a) + Texts(b)
  {
  }

  function SymbolNames(symbol: string, locals: seq<string>): seq<string> {
    seq(|locals|, k requires 0 <= k < |locals| => StreamName(symbol, locals[k]))
  }

  /** One name per symbol and per-symbol stream, for the first `n` symbols. */
  function Pairs(symbols: seq<string>, n: nat, locals: seq<string>): multiset<string>
    requires n <= |symbols|
  {
    if n == 0 then multiset{}
    else
      Pairs(symbols, n - 1, locals) + multiset(SymbolNames(symbols[n - 1], locals))
  }

  lemma {:induction false} GlobalTexts(globals: seq<string>, n: nat, count: nat)
    requires n <= |globals| && count > 0
    ensures Texts(GlobalItems(globals, n, count)) == globals[..n]
    ensures InRange(GlobalItems(globals, n, count), count)
  {
    if n > 0 {
      GlobalTexts(globals, n - 1, count);
      assert |Texts(GlobalItems(globals, n - 1, count))| == n - 1;
      assert globals[..n] == globals[..n - 1] + [globals[n - 1]];
    }
  }

  lemma {:induction false} SymbolTexts(symbol: string, locals: seq<string>, k: nat, shard: nat)
    requires k <= |locals|
    ensures Texts(SymbolItems(symbol, locals, k, shard)) == SymbolNames(symbol, locals)[..k]
    ensures var items := SymbolItems(symbol, locals, k, shard); forall i :: 0 <= i < |items| ==> items[i].shard == shard
  {
    if k > 0 {
      SymbolTexts(symbol, locals, k - 1, shard);
      TextsJoin(SymbolItems(symbol, locals, k - 1, shard), [Item(shard, StreamName(symbol, locals[k - 1]))]);
    }
  }

  lemma RangeJoin(a: seq<Item>, b: seq<Item>, count: nat)
    requires InRange(a, count) && InRange(b, count)
    ensures InRange(a + b, count)
  {
  }

  lemma {:induction false} PairShards(symbols: seq<string>, n: nat, locals: seq<string>, count: nat)
    requires n <= |symbols| && count > 0
    ensures InRange(PairItems(symbols, n, locals, count), count)
  {
    if n > 0 {
      var shard := (n - 1) % count;
      var before := PairItems(symbols, n - 1, locals, count);
      var last := SymbolItems(symbols[n - 1], locals, |locals|, shard);
      PairShards(symbols, n - 1, locals, count);
      SymbolTexts(symbols[n - 1], locals, |locals|, shard);
      assert InRange(last, count);
      RangeJoin(before, last, count);
    }
  }

  lemma {:induction false} PairTexts(symbols: seq<string>, n: nat, locals: seq<string>, count: nat)
    requires n <= |symbols| && count > 0
    ensures multiset(Texts(PairItems(symbols, n, locals, count))) == Pairs(symbols, n, locals)
  {
    if n > 0 {
      var symbol, shard := symbols[n - 1], (n - 1) % count;
      var before, last, names := PairItems(symbols, n - 1, locals, count),
                                 SymbolItems(symbol, locals, |locals|, shard), SymbolNames(symbol, locals);
      PairTexts(symbols, n - 1, locals, count);
      SymbolTexts(symbol, locals, |locals|, shard);
      assert Texts(last) == names by {
        assert names[..|locals|] == names;
      }
      TextsJoin(before, last);
      assert multiset(Texts(before) + names) == multiset(Texts(before)) + multiset(names);
    } else {
      assert Texts([]) == [];
    }
  }

  /** Every global stream once and every symbol's streams once, whatever the number of connections. */
  lemma EveryStreamOnce(symbols: seq<string>, streams: seq<string>, count: nat, shards: seq<seq<string>>)
    requires count > 0 && |shards| == count && Dealt(shards, AllItems(symbols, streams, count))
    ensures Gathered(shards) == multiset(Globals(streams)) + Pairs(symbols, |symbols|, Locals(streams))
  {
    var globals, locals := Globals(streams), Locals(streams);
    var first, rest := GlobalItems(globals, |globals|, count), PairItems(symbols, |symbols|, locals, count);
    GlobalTexts(globals, |globals|, count);
    PairTexts(symbols, |symbols|, locals, count);
    PairShards(symbols, |symbols|, locals, count);
    TextsJoin(first, rest);
    RangeJoin(first, rest, count);
    assert globals[..|globals|] == globals;
    assert AllItems(symbols, streams, count) == first + rest;
    DealtConserves(shards, first + rest);
  }

  // ---------------------------------------------------------------------------------------
  // The load of a connection

  predicate DealtTo(index: nat, count: nat, j: nat)
    requires count > 0
  {
    index % count == j
  }

  /** How many of the first `n` indices go to connection `j`. */
  function Dealings(n: nat, count: nat, j: nat): nat
    requires count > 0
  {
    if n == 0 then 0 else Dealings(n - 1, count, j) + (if DealtTo(n - 1, count, j) then 1 else 0)
  }

  lemma {:induction false} BinJoin(a: seq<Item>, b: seq<Item>, j: nat)
    ensures Bin(a + b, j) == Bin(a, j) + Bin(b, j)
    decreases |b|
  {
    if b == [] {
      assert a + b == a;
    } else {
      hide Bin;
      var front, last := b[..|b| - 1], b[|b| - 1];
      var whole := a + front;
      BinJoin(a, front, j);
      BinPush(whole, last, j);
      BinPush(front, last, j);
      assert a + b == whole + [last] && b == front + [last];
    }
  }

  lemma {:induction false} GlobalLoad(globals: seq<string>, n: nat, count: nat, j: nat)
    requires n <= |globals| && count > 0
    ensures |Bin(GlobalItems(globals, n, count), j)| == Dealings(n, count, j)
  {
    if n > 0 {
      GlobalLoad(globals, n - 1, count, j);
      BinPush(GlobalItems(globals, n - 1, count), Item((n - 1) % count, globals[n - 1]), j);
    }
  }

  lemma {:induction false} SymbolLoad(symbol: string, locals: seq<string>, k: nat, shard: nat, j: nat)
    requires k <= |locals|
    ensures |Bin(SymbolItems(symbol, locals, k, shard), j)| == if shard == j then k else 0
  {
    if k > 0 {
      SymbolLoad(symbol, locals, k - 1, shard, j);
      BinPush(SymbolItems(symbol, locals, k - 1, shard), Item(shard, StreamName(symbol, locals[k - 1])), j);
    }
  }

  lemma MulStep(p: nat, n: nat)
    ensures p * (n + 1) == p * n + p
  {
  }

  /** `weight` for each of the first `n` indices that goes to connection `j`. */
  function Weighted(weight: nat, n: nat, count: nat, j: nat): nat
    requires count > 0
  {
    if n == 0 then 0 else Weighted(weight, n - 1, count, j) + (if DealtTo(n - 1, count, j) then weight else 0)
  }

  lemma {:induction false} WeightedProduct(weight: nat, n: nat, count: nat, j: nat)
    requires count > 0
    ensures Weighted(weight, n, count, j) == weight * Dealings(n, count, j)
  {
    hide DealtTo;
    if n > 0 {
      WeightedProduct(weight, n - 1, count, j);
      MulStep(weight, Dealings(n - 1, count, j));
    }
  }

  lemma PairItemsStep(symbols: seq<string>, n: nat, locals: seq<string>, count: nat, j: nat) returns (shard: nat)
    requires 0 < n <= |symbols| && count > 0
    ensures PairItems(symbols, n, locals, count)
         == PairItems(symbols, n - 1, locals, count) + SymbolItems(symbols[n - 1], locals, |locals|, shard)
    ensures shard == j <==> DealtTo(n - 1, count, j)
  {
    shard := (n - 1) % count;
  }

  lemma LoadJoin(a: seq<Item>, b: seq<Item>, whole: seq<Item>, j: nat)
    requires whole == a + b
    ensures |Bin(whole, j)| == |Bin(a, j)| + |Bin(b, j)|
  {
    hide Bin;
    BinJoin(a, b, j);
  }

  lemma PairLoadNone(symbols: seq<string>, locals: seq<string>, count: nat, j: nat)
    requires count > 0
    ensures |Bin(PairItems(symbols, 0, locals, count), j)| == Weighted(|locals|, 0, count, j)
  {
  }

  lemma PairLoadStep(symbols: seq<string>, n: nat, locals: seq<string>, count: nat, j: nat)
    requires 0 < n <= |symbols| && count > 0
    ensures |Bin(PairItems(symbols, n, locals, count), j)|
         == |Bin(PairItems(symbols, n - 1, locals, count), j)| + (if DealtTo(n - 1, count, j) then |locals| else 0)
  {
    hide Bin, SymbolItems, PairItems, DealtTo;
    var shard := PairItemsStep(symbols, n, locals, count, j);
    SymbolLoad(symbols[n - 1], locals, |locals|, shard, j);
    LoadJoin(PairItems(symbols, n - 1, locals, count), SymbolItems(symbols[n - 1], locals, |locals|, shard),
             PairItems(symbols, n, locals, count), j);
  }

  lemma {:induction false} PairLoad(symbols: seq<string>, n: nat, locals: seq<string>, count: nat, j: nat)
    requires n <= |symbols| && count > 0
    ensures |Bin(PairItems(symbols, n, locals, count), j)| == Weighted(|locals|, n, count, j)
  {
    hide Bin, PairItems, DealtTo;
    if n == 0 {
      PairLoadNone(symbols, locals, count, j);
    } else {
      PairLoad(symbols, n - 1, locals, count, j);
      PairLoadStep(symbols, n, locals, count, j);
    }
  }

  lemma OneAtLeast(k: int, c: nat)
    requires k >= 1
    ensures k * c >= c
  {
  }

  lemma Distribute(p: int, q: int, c: int)
    ensures (p - q) * c == p * c - q * c
  {
  }

  lemma DivUnique(n: nat, c: nat, q: nat, r: nat)
    requires c > 0 && n == q * c + r && r < c
    ensures n / c == q && n % c == r
  {
    var p, s := n / c, n % c;
    assert n == p * c + s;
    if p > q {
      OneAtLeast(p - q, c);
      Distribute(p, q, c);
    } else if p < q {
      OneAtLeast(q - p, c);
      Distribute(q, p, c);
    }
  }

  lemma DivStep(n: nat, c: nat)
    requires c > 0
    ensures if n % c + 1 == c then (n + 1) / c == n / c + 1 && (n + 1) % c == 0
            else (n + 1) / c == n / c && (n + 1) % c == n % c + 1
  {
    var q, r := n / c, n % c;
    assert n == q * c + r;
    if r + 1 == c {
      assert n + 1 == (q + 1) * c;
      DivUnique(n + 1, c, q + 1, 0);
    } else {
      DivUnique(n + 1, c, q, r + 1);
    }
  }

  lemma {:induction false} DealingsExactAtZero(n: nat, count: nat)
    requires 0 < count
    ensures Dealings(n, count, 0) == n / count + (if 0 < n % count then 1 else 0)
  {
    if n == 0 {
      DivUnique(0, count, 0, 0);
    } else {
      DealingsExactAtZero(n - 1, count);
      DivStep(n - 1, count);
    }
  }

  lemma {:induction false} DealingsExact(n: nat, count: nat, j: nat)
    requires j < count
    ensures Dealings(n, count, j) == n / count + (if j < n % count then 1 else 0)
    ensures Dealings(n, count, j) <= Dealings(n, count, 0) == CeilDiv(n, count)
  {
    if n == 0 {
      DivUnique(0, count, 0, 0);
    } else {
      DealingsExact(n - 1, count, j);
      DealingsExactAtZero(n - 1, count);
      DivStep(n - 1, count);
    }
  }

  /** The load of the fullest connection. */
  function Peak(symbols: nat, locals: nat, globals: nat, count: nat): nat
    requires count > 0
  {
    CeilDiv(globals, count) + locals * CeilDiv(symbols, count)
  }

  function Load(symbols: seq<string>, streams: seq<string>, count: nat, j: nat): nat
    requires count > 0
  {
    |Bin(AllItems(symbols, streams, count), j)|
  }

  lemma MulMonotone(p: nat, a: nat, b: nat)
    requires a <= b
    ensures p * a <= p * b
  {
  }

  lemma LoadParts(symbols: seq<string>, streams: seq<string>, count: nat, j: nat)
    requires j < count
    ensures Load(symbols, streams, count, j)
         == Dealings(|Globals(streams)|, count, j) + |Locals(streams)| * Dealings(|symbols|, count, j)
  {
    var globals, locals := Globals(streams), Locals(streams);
    GlobalLoad(globals, |globals|, count, j);
    PairLoad(symbols, |symbols|, locals, count, j);
    WeightedProduct(|locals|, |symbols|, count, j);
    BinJoin(GlobalItems(globals, |globals|, count), PairItems(symbols, |symbols|, locals, count), j);
  }

  /** No connection carries more than the first one, which carries exactly `Peak`. */
  lemma PeakLoad(symbols: seq<string>, streams: seq<string>, count: nat, j: nat)
    requires j < count
    ensures var peak := Peak(|symbols|, |Locals(streams)|, |Globals(streams)|, count);
      Load(symbols, streams, count, j) <= Load(symbols, streams, count, 0) == peak
  {
    var globals, locals := Globals(streams), Locals(streams);
    LoadParts(symbols, streams, count, j);
    LoadParts(symbols, streams, count, 0);
    DealingsExact(|globals|, count, j);
    DealingsExact(|symbols|, count, j);
    MulMonotone(|locals|, Dealings(|symbols|, count, j), Dealings(|symbols|, count, 0));
  }

  // ---------------------------------------------------------------------------------------
  // Against the stream limit

  lemma CeilDivTight(a: nat, b: nat)
    requires b > 0 && CeilDiv(a, b) > 0
    ensures (CeilDiv(a, b) - 1) * b + 1 <= a
  {
    CeilDivLeast(a, b, CeilDiv(a, b) - 1);
  }

  lemma Cancel(x: int, y: int, c: nat)
    requires c > 0 && c * x <= c * y
    ensures x <= y
  {
    if x > y {
      OneAtLeast(x - y, c);
      Distribute(x, y, c);
    }
  }

  lemma Scaled(a: int, b: int, c: nat)
    requires a <= b
    ensures a * c <= b * c
  {
  }

  lemma Reassociate(a: int, b: int, c: int)
    ensures (a * b) * c == b * (c * a)
  {
  }

  lemma Joined(a: int, b: int, c: int)
    ensures c * (a + b) == a * c + c * b
  {
  }

  lemma CancelStrict(x: int, y: int, c: nat)
    requires c * x < c * y
    ensures x < y
  {
    if x >= y {
      Scaled(y, x, c);
    }
  }

  lemma PeakBoundArith(symbols: nat, locals: nat, globals: nat, count: nat, limit: nat, x: nat, y: nat)
    requires count > 0 && symbols * locals + globals <= count * limit
    requires x > 0 ==> (x - 1) * count + 1 <= globals
    requires y > 0 ==> (y - 1) * count + 1 <= symbols
    ensures x + locals * y <= limit + locals
  {
    var rest := if y > 0 then locals * (y - 1) else 0;
    if y > 0 {
      Scaled((y - 1) * count, symbols, locals);
      Reassociate(y - 1, count, locals);
      Distribute(y, 1, locals);
    }
    assert count * rest <= symbols * locals;
    if x > 0 {
      Joined(x - 1, rest, count);
      CancelStrict(x - 1 + rest, limit, count);
    } else {
      Cancel(rest, limit, count);
    }
  }

  /** Enough connections for the total: the fullest one exceeds the limit by at most one symbol's streams. */
  lemma PeakBound(symbols: nat, locals: nat, globals: nat, count: nat, limit: nat)
    requires count > 0 && symbols * locals + globals <= count * limit
    ensures Peak(symbols, locals, globals, count) <= limit + locals
  {
    var x, y := CeilDiv(globals, count), CeilDiv(symbols, count);
    CeilDivLeast(globals, count, x);
    if x > 0 {
      CeilDivTight(globals, count);
    }
    if y > 0 {
      CeilDivTight(symbols, count);
    }
    PeakBoundArith(symbols, locals, globals, count, limit, x, y);
  }

  /** No per-symbol streams, or no global streams and a limit that is a multiple of the per-symbol
      streams: then the limit itself is kept. */
  lemma PeakWithin(symbols: nat, locals: nat, globals: nat, count: nat, limit: nat, m: nat)
    requires count > 0 && symbols * locals + globals <= count * limit
    requires locals == 0 || (globals == 0 && limit == m * locals)
    ensures Peak(symbols, locals, globals, count) <= limit
  {
    if locals == 0 {
      CeilDivLeast(globals, count, limit);
      assert count * limit == limit * count;
    } else {
      assert count * limit == locals * (m * count);
      Cancel(symbols, m * count, locals);
      CeilDivLeast(symbols, count, m);
      CeilDivLeast(0, count, 0);
      MulMonotone(locals, CeilDiv(symbols, count), m);
    }
  }

  lemma PeakOverArith(symbols: nat, locals: nat, globals: nat, count: nat, limit: nat, x: nat, y: nat)
    requires 0 < count <= symbols && symbols * locals + globals > symbols * limit
    requires globals <= x * count && symbols <= y * count
    ensures x + locals * y > limit
  {
    Scaled(symbols, y * count, locals);
    Reassociate(y, count, locals);
    Joined(x, locals * y, count);
    Scaled(count, symbols, limit);
    CancelStrict(limit, x + locals * y, count);
  }

  /** More streams than one connection per symbol can hold: every admissible count exceeds the limit. */
  lemma PeakOver(symbols: nat, locals: nat, globals: nat, count: nat, limit: nat)
    requires 0 < count <= symbols && symbols * locals + globals > symbols * limit
    ensures Peak(symbols, locals, globals, count) > limit
  {
    var x, y := CeilDiv(globals, count), CeilDiv(symbols, count);
    CeilDivLeast(globals, count, x);
    CeilDivLeast(symbols, count, y);
    PeakOverArith(symbols, locals, globals, count, limit, x, y);
  }

  /** With the counts the allocation hands out, every connection of a group carries at most the
      limit plus one symbol's streams, unless the group needs more connections than there are symbols. */
  lemma AllocationFits(groups: seq<Group>, market: Market, symbols: seq<string>, counts: seq<nat>, g: nat, j: nat)
    requires symbols != [] && g < |groups|
    requires Allocation(Requirements(groups, market, |symbols|), |symbols|, counts)
    requires Raw(|symbols|, market, groups[g]) <= |symbols| && j < counts[g]
    ensures Load(symbols, groups[g].streams, counts[g], j)
         <= StreamLimit(market, groups[g]) + |Locals(groups[g].streams)|
  {
    var streams, limit, count := groups[g].streams, StreamLimit(market, groups[g]), counts[g];
    assert Required(|symbols|, market, groups[g]) <= count;
    CeilDivLeast(|symbols| * |Locals(streams)| + |Globals(streams)|, limit, count);
    PeakBound(|symbols|, |Locals(streams)|, |Globals(streams)|, count, limit);
    PeakLoad(symbols, streams, count, j);
  }

  /** Otherwise the first connection exceeds the limit whatever the count. */
  lemma AllocationOverflows(groups: seq<Group>, market: Market, symbols: seq<string>, counts: seq<nat>, g: nat)
    requires g < |groups| && Allocation(Requirements(groups, market, |symbols|), |symbols|, counts)
    requires symbols != [] && Raw(|symbols|, market, groups[g]) > |symbols|
    ensures 0 < counts[g] && Load(symbols, groups[g].streams, counts[g], 0) > StreamLimit(market, groups[g])
  {
    var streams, limit, count := groups[g].streams, StreamLimit(market, groups[g]), counts[g];
    assert Required(|symbols|, market, groups[g]) <= count <= |symbols|;
    CeilDivLeast(|symbols| * |Locals(streams)| + |Globals(streams)|, limit, |symbols|);
    PeakOver(|symbols|, |Locals(streams)|, |Globals(streams)|, count, limit);
    PeakLoad(symbols, streams, count, 0);
  }

  /** The limit itself is not always kept: 1024 symbols with 3 streams each get 3 connections of at
      most 1024 streams, but the first one carries 1026. */
  lemma LimitExceeded(symbols: seq<string>, group: Group)
    requires |symbols| == 1024 && |Locals(group.streams)| == 3 && Globals(group.streams) == []
    ensures Required(|symbols|, Spot, group) == 3
    ensures Load(symbols, group.streams, 3, 0) == 1026 > StreamLimit(Spot, group)
  {
    PeakLoad(symbols, group.streams, 3, 0);
  }
}
