/**
 How many WebSocket connections each stream group gets, and which connection carries which stream.
 */
module Connections {
  import opened Numbers
  import opened Markets

  datatype Group = Group(name: string, streams: seq<string>)

  function CeilDiv(a: nat, b: nat): nat
    requires b > 0
  {
    if a % b == 0 then a / b else a / b + 1
  }

  predicate IsGlobal(stream: string) {
    stream != "" && stream[0] == '!'
  }

  /** The streams that are not tied to a symbol. */
  function Globals(streams: seq<string>): (r: seq<string>)
    ensures |r| <= |streams|
  {
    if streams == [] then []
    else (if IsGlobal(streams[0]) then [streams[0]] else []) + Globals(streams[1..])
  }

  /** The streams opened once per symbol. */
  function Locals(streams: seq<string>): (r: seq<string>)
    ensures |r| == |streams| - |Globals(streams)|
  {
    if streams == [] then []
    else (if IsGlobal(streams[0]) then [] else [streams[0]]) + Locals(streams[1..])
  }

  /** The streams whose name begins with an exclamation mark are the global ones, the others the local
      ones; both keep how often each occurs. */
  lemma {:induction false} GlobalsExactly(streams: seq<string>, stream: string)
    ensures multiset(Globals(streams))[stream] == if "!" <= stream then multiset(streams)[stream] else 0
    ensures multiset(Locals(streams))[stream] == if "!" <= stream then 0 else multiset(streams)[stream]
  {
    if streams != [] {
      GlobalsExactly(streams[1..], stream);
      assert streams == [streams[0]] + streams[1..];
      assert IsGlobal(streams[0]) <==> "!" <= streams[0];
    }
  }

  function StreamLimit(market: Market, group: Group): (limit: nat)
    ensures limit > 0
  {
    if market.Usdm? && group.name == "public" then 128 else 1024
  }

  /** The connections that hold the group's streams, before any bound is applied. */
  function Raw(symbols: nat, market: Market, group: Group): nat {
    CeilDiv(symbols * |Locals(group.streams)| + |Globals(group.streams)|, StreamLimit(market, group))
  }

  function Required(symbols: nat, market: Market, group: Group): (r: nat)
    ensures r <= symbols
  {
    Min(Max(Raw(symbols, market, group), 1), symbols)
  }

  /** The quotient rounded up is the least number of `b`s that cover `a`. */
  lemma CeilDivLeast(a: nat, b: nat, n: nat)
    requires b > 0
    ensures CeilDiv(a, b) <= n <==> a <= n * b
  {
    var q, r := a / b, a % b;
    assert a == q * b + r;
    if n >= q {
      assert n * b == q * b + (n - q) * b;
      if n > q {
        assert (n - q) * b == b + (n - q - 1) * b;
      }
    } else {
      assert q * b == n * b + (q - n) * b;
      assert (q - n) * b == b + (q - n - 1) * b;
    }
  }

  lemma CeilDivMonotone(a: nat, b: nat, d: nat)
    requires a <= b && d > 0
    ensures CeilDiv(a, d) <= CeilDiv(b, d)
  {
    CeilDivLeast(b, d, CeilDiv(b, d));
    CeilDivLeast(a, d, CeilDiv(b, d));
  }

  // ---------------------------------------------------------------------------------------
  // The greedy allocation, for any load key

  /** The load key of a group at a count; the next connection goes to the smallest. */
  type LoadKey = (nat, nat) -> nat

  predicate Below(key: LoadKey, g: nat, a: nat, h: nat, b: nat) {
    key(g, a) <= key(h, b)
  }

  ghost predicate Monotone(key: LoadKey) {
    forall g: nat, a: nat, b: nat :: a <= b ==> Below(key, g, a, g, b)
  }

  function Sum(counts: seq<nat>): nat {
    if counts == [] then 0 else counts[0] + Sum(counts[1..])
  }

  /** Every group has its required connections and no more than one per symbol. */
  predicate Allocation(required: seq<nat>, symbols: nat, counts: seq<nat>) {
    |counts| == |required| && forall g :: 0 <= g < |counts| ==> required[g] <= counts[g] <= symbols
  }

  /** When group `g` got its last extra connection, no group that may still grow had a smaller key. */
  predicate Fair(key: LoadKey, required: seq<nat>, symbols: nat, counts: seq<nat>)
    requires |counts| == |required|
  {
    forall g, h :: 0 <= g < |counts| && 0 <= h < |counts| && required[g] < counts[g] && counts[h] < symbols ==>
      Below(key, g, counts[g] - 1, h, counts[h])
  }

  lemma {:induction false} SumUpdate(counts: seq<nat>, g: nat, n: nat)
    requires g < |counts|
    ensures Sum(counts[g := n]) == Sum(counts) - counts[g] + n
  {
    if g == 0 {
      assert counts[g := n][1..] == counts[1..];
    } else {
      assert counts[g := n][1..] == counts[1..][g - 1 := n];
      SumUpdate(counts[1..], g - 1, n);
    }
  }

  lemma {:induction false} SumAll(counts: seq<nat>, n: nat)
    requires forall g :: 0 <= g < |counts| ==> counts[g] <= n
    ensures Sum(counts) <= |counts| * n
    ensures (forall g :: 0 <= g < |counts| ==> counts[g] == n) ==> Sum(counts) == |counts| * n
  {
    if counts != [] {
      SumAll(counts[1..], n);
      assert |counts| * n == n + (|counts| - 1) * n;
    }
  }

  lemma {:induction false} SumGreaterEqual(a: seq<nat>, b: seq<nat>)
    requires |a| == |b| && forall g :: 0 <= g < |a| ==> a[g] >= b[g]
    ensures Sum(a) >= Sum(b)
  {
    if a != [] {
      SumGreaterEqual(a[1..], b[1..]);
    }
  }

  lemma {:induction false} SumGreater(a: seq<nat>, b: seq<nat>, h: nat)
    requires |a| == |b| && h < |a| && a[h] > b[h] && forall g :: 0 <= g < |a| ==> a[g] >= b[g]
    ensures Sum(a) > Sum(b)
  {
    if h == 0 {
      SumGreaterEqual(a[1..], b[1..]);
    } else {
      SumGreater(a[1..], b[1..], h - 1);
    }
  }

  lemma {:induction false} SumDominates(a: seq<nat>, b: seq<nat>, h: nat)
    requires |a| == |b| && h < |a| && Sum(a) == Sum(b) && a[h] > b[h]
    ensures exists g :: 0 <= g < |a| && a[g] < b[g]
  {
    if forall g :: 0 <= g < |a| ==> a[g] >= b[g] {
      SumGreater(a, b, h);
    }
  }

  /** The first group with the smallest key among those below the symbol count. */
  method Lightest(key: LoadKey, symbols: nat, counts: seq<nat>) returns (best: int)
    ensures best == -1 <==> forall g :: 0 <= g < |counts| ==> counts[g] >= symbols
    ensures best != -1 ==>
      && 0 <= best < |counts| && counts[best] < symbols
      && (forall h :: 0 <= h < |counts| && counts[h] < symbols ==> Below(key, best, counts[best], h, counts[h]))
      && (forall h :: 0 <= h < best && counts[h] < symbols ==> !Below(key, h, counts[h], best, counts[best]))
  {
    best := -1;
    for g := 0 to |counts|
      invariant -1 <= best < g
      invariant best == -1 <==> forall h :: 0 <= h < g ==> counts[h] >= symbols
      invariant best != -1 ==>
        && counts[best] < symbols
        && (forall h :: 0 <= h < g && counts[h] < symbols ==> Below(key, best, counts[best], h, counts[h]))
        && (forall h :: 0 <= h < best && counts[h] < symbols ==> !Below(key, h, counts[h], best, counts[best]))
    {
      if counts[g] < symbols {
        if best == -1 || key(g, counts[g]) < key(best, counts[best]) {
          best := g;
        }
      }
    }
  }

  lemma FairStep(key: LoadKey, required: seq<nat>, symbols: nat, counts: seq<nat>, best: nat)
    requires |counts| == |required| && best < |counts| && counts[best] < symbols
    requires Monotone(key) && Fair(key, required, symbols, counts)
    requires forall h :: 0 <= h < |counts| && counts[h] < symbols ==> Below(key, best, counts[best], h, counts[h])
    ensures Fair(key, required, symbols, counts[best := counts[best] + 1])
  {
    var next := counts[best := counts[best] + 1];
    forall g, h | 0 <= g < |next| && 0 <= h < |next| && required[g] < next[g] && next[h] < symbols
      ensures Below(key, g, next[g] - 1, h, next[h])
    {
      assert Below(key, g, next[g] - 1, h, counts[h]);
      assert Below(key, h, counts[h], h, next[h]);
    }
  }

  /** Gives each group its required connections, then the spare ones to the lightest group, one by one. */
  method Allocate(key: LoadKey, required: seq<nat>, symbols: nat, wsConnections: nat) returns (counts: seq<nat>)
    requires forall g :: 0 <= g < |required| ==> required[g] <= symbols
    ensures Allocation(required, symbols, counts)
    ensures Monotone(key) ==> Fair(key, required, symbols, counts)
    ensures Sum(counts) == Min(Max(wsConnections, Sum(required)), |required| * symbols)
  {
    counts := required;
    var target := Max(wsConnections, Sum(counts));
    SumAll(counts, symbols);
    while Sum(counts) < target
      invariant Allocation(required, symbols, counts)
      invariant Monotone(key) ==> Fair(key, required, symbols, counts)
      invariant Sum(counts) <= target && Sum(counts) <= |required| * symbols
      decreases target - Sum(counts)
    {
      var best := Lightest(key, symbols, counts);
      if best == -1 {
        SumAll(counts, symbols);
        break;
      }
      if Monotone(key) {
        FairStep(key, required, symbols, counts, best);
      }
      SumUpdate(counts, best, counts[best] + 1);
      counts := counts[best := counts[best] + 1];
      SumAll(counts, symbols);
    }
  }

  /** A fair allocation is optimal: any other one of the same total leaves some group with a key
      no larger than the smallest key here. */
  lemma MaxMin(key: LoadKey, required: seq<nat>, symbols: nat, counts: seq<nat>, other: seq<nat>, h: nat)
    requires Monotone(key) && h < |required|
    requires Allocation(required, symbols, counts) && Fair(key, required, symbols, counts)
    requires Allocation(required, symbols, other) && Sum(other) == Sum(counts)
    ensures exists g :: 0 <= g < |other| && Below(key, g, other[g], h, counts[h])
  {
    if other[h] <= counts[h] {
      assert Below(key, h, other[h], h, counts[h]);
    } else {
      SumDominates(other, counts, h);
      var g :| 0 <= g < |other| && other[g] < counts[g];
      assert Below(key, g, other[g], g, counts[g] - 1);
      assert Below(key, g, counts[g] - 1, h, counts[h]);
      assert Below(key, g, other[g], h, counts[h]);
    }
  }

  // ---------------------------------------------------------------------------------------
  // The connections of the stream groups

  predicate Usable(groups: seq<Group>) {
    forall g :: 0 <= g < |groups| ==> groups[g].streams != []
  }

  function Requirements(groups: seq<Group>, market: Market, symbols: nat): (r: seq<nat>)
    ensures |r| == |groups| && forall g :: 0 <= g < |groups| ==> r[g] == Required(symbols, market, groups[g])
  {
    seq(|groups|, g requires 0 <= g < |groups| => Required(symbols, market, groups[g]))
  }

  /** The required count is the least that holds all streams, or one connection per symbol. */
  lemma RequiredLeast(symbols: nat, market: Market, group: Group, n: nat)
    requires 1 <= n <= symbols
    ensures Required(symbols, market, group) <= n <==>
      n == symbols
      || symbols * |Locals(group.streams)| + |Globals(group.streams)| <= n * StreamLimit(market, group)
  {
    CeilDivLeast(symbols * |Locals(group.streams)| + |Globals(group.streams)|, StreamLimit(market, group), n);
  }

  /** How many times over `count` connections could carry the group's streams. */
  function Headroom(market: Market, group: Group, count: nat): nat
    requires group.streams != []
  {
    CeilDiv(count * StreamLimit(market, group), |group.streams|)
  }

  /** It is the least multiple of the group's streams that its connections cannot exceed. */
  lemma HeadroomLeast(market: Market, group: Group, count: nat, n: nat)
    requires group.streams != []
    ensures Headroom(market, group, count) <= n <==> count * StreamLimit(market, group) <= n * |group.streams|
  {
    CeilDivLeast(count * StreamLimit(market, group), |group.streams|, n);
  }

  function Headrooms(groups: seq<Group>, market: Market): LoadKey
    requires Usable(groups)
  {
    (g: nat, count: nat) => if g < |groups| then Headroom(market, groups[g], count) else 0
  }

  lemma HeadroomMonotone(market: Market, group: Group, a: nat, b: nat)
    requires group.streams != [] && a <= b
    ensures Headroom(market, group, a) <= Headroom(market, group, b)
  {
    var limit := StreamLimit(market, group);
    assert a * limit <= b * limit;
    CeilDivMonotone(a * limit, b * limit, |group.streams|);
  }

  lemma HeadroomsMonotone(groups: seq<Group>, market: Market)
    requires Usable(groups)
    ensures Monotone(Headrooms(groups, market))
  {
    var key := Headrooms(groups, market);
    forall g: nat, a: nat, b: nat | a <= b ensures Below(key, g, a, g, b) {
      if g < |groups| {
        HeadroomMonotone(market, groups[g], a, b);
      }
    }
  }

  method ConnectionCounts(groups: seq<Group>, market: Market, symbols: nat, wsConnections: nat)
    returns (counts: seq<nat>)
    requires Usable(groups)
    ensures Allocation(Requirements(groups, market, symbols), symbols, counts)
    ensures Fair(Headrooms(groups, market), Requirements(groups, market, symbols), symbols, counts)
    ensures Sum(counts) == Min(Max(wsConnections, Sum(Requirements(groups, market, symbols))), |groups| * symbols)
  {
    HeadroomsMonotone(groups, market);
    counts := Allocate(Headrooms(groups, market), Requirements(groups, market, symbols), symbols, wsConnections);
  }
}
