/** What the compiler works out about a board before any run: hops, lead times and
    the priority order. */
module FactoryGraph {
  import opened Counting
  import opened Factory
  import opened FactoryHours
  import opened Relaxation
  import opened BreadthFirst

  const NEVER := 1000000

  // ------------------------------------------------------------------
  // Hops
  // ------------------------------------------------------------------

  function Everyone(b: Board): (live: seq<bool>)
    ensures |live| == |b.machines| && forall i :: 0 <= i < |live| ==> live[i]
  {
    seq(|b.machines|, i => true)
  }

  /** The static hop table, and with every machine live the per-hour distances agree with it. */
  method HopTable(b: Board) returns (hops: array<nat>)
    requires BoardOk(b)
    ensures Shortest(LiveNet(b, Everyone(b)), hops[..])
    ensures hops[..] == LiveDistances(b, Everyone(b))
  {
    var g := LiveNet(b, Everyone(b));
    hops := Hops(g);
    RelaxationIsShortest(g, |b.machines|);
    ShortestIsUnique(g, hops[..], LiveDistances(b, Everyone(b)));
  }

  // ------------------------------------------------------------------
  // Lead times
  // ------------------------------------------------------------------

  function LeadNet(b: Board): (g: Net)
    requires BoardOk(b)
    ensures NetOk(g) && |g.up| == |b.machines|
  {
    var n := |b.machines|;
    assert forall j :: 0 <= j < n ==> MachineOk(b, b.machines[j]);
    Net(seq(n, i requires 0 <= i < n => b.machines[i].upstream), Everyone(b),
        seq(n, i requires 0 <= i < n => b.machines[i].kind == Seller),
        seq(n, i requires 0 <= i < n => if b.machines[i].kind == Seller then b.machines[i].hours else NEVER),
        seq(n, i requires 0 <= i < n => b.machines[i].hours), NEVER)
  }

  /** Lead times as the relaxation loop leaves them. */
  function LeadTimes(b: Board): (lead: seq<nat>)
    requires BoardOk(b)
    ensures |lead| == |b.machines|
  {
    RelaxRounds(LeadNet(b), LeadNet(b).base, |b.machines| + 1)
  }

  method LeadTable(b: Board) returns (lead: array<nat>)
    requires BoardOk(b)
    ensures lead[..] == LeadTimes(b)
  {
    lead := Relax(LeadNet(b), |b.machines| + 1);
  }

  /** Machines each feeding the next, ending at the first seller met. */
  ghost predicate Chain(b: Board, p: seq<nat>)
    requires BoardOk(b)
  {
    && |p| >= 1 && (forall k :: 0 <= k < |p| ==> p[k] < |b.machines|)
    && (forall k :: 0 <= k < |p| - 1 ==> b.machines[p[k]].kind != Seller && p[k] in b.machines[p[k+1]].upstream)
    && b.machines[p[|p|-1]].kind == Seller
  }

  /** Production hours along a chain. */
  function ChainHours(b: Board, p: seq<nat>): nat
    requires forall k :: 0 <= k < |p| ==> p[k] < |b.machines|
  {
    if p == [] then 0 else b.machines[p[0]].hours + ChainHours(b, p[1..])
  }

  lemma ChainIsRoute(b: Board, p: seq<nat>)
    requires BoardOk(b)
    ensures Chain(b, p) <==> Route(LeadNet(b), p)
  {
    var g := LeadNet(b);
    if Chain(b, p) {
      assert forall k :: 0 <= k < |p| - 1 ==> Step(g, p[k], p[k+1]);
    }
    if Route(g, p) {
      forall k | 0 <= k < |p| - 1 ensures b.machines[p[k]].kind != Seller && p[k] in b.machines[p[k+1]].upstream {
        assert Step(g, p[k], p[k+1]);
      }
    }
  }

  lemma {:induction false} CostIsHours(b: Board, p: seq<nat>)
    requires BoardOk(b) && Chain(b, p)
    ensures (forall k :: 0 <= k < |p| ==> p[k] < |LeadNet(b).up|) && Cost(LeadNet(b), p) == ChainHours(b, p)
  {
    if |p| > 1 {
      CostIsHours(b, p[1..]);
    } else {
      assert p[1..] == [];
    }
  }

  /** LEAD TIME is the production hours of the fastest chain to a seller: no chain is
      faster, and a value below the "never" mark is some chain's hours. */
  lemma LeadTimeIsFastest(b: Board, i: nat)
    requires BoardOk(b) && i < |b.machines|
    ensures forall p :: Chain(b, p) && p[0] == i ==> LeadTimes(b)[i] <= ChainHours(b, p)
    ensures LeadTimes(b)[i] < NEVER ==> exists p :: Chain(b, p) && p[0] == i && ChainHours(b, p) == LeadTimes(b)[i]
  {
    var g, lead := LeadNet(b), LeadTimes(b);
    RelaxationIsShortest(g, |b.machines| + 1);
    forall p | Chain(b, p) && p[0] == i ensures lead[i] <= ChainHours(b, p) {
      ChainIsRoute(b, p);
      CostIsHours(b, p);
    }
    if lead[i] < NEVER {
      var p :| RouteOf(g, p, i, lead[i]);
      ChainIsRoute(b, p);
      CostIsHours(b, p);
    }
  }

  /** The lead time of a source is never more than its own hours and its consumer's lead time. */
  lemma LeadTimeStep(b: Board, u: nat, i: nat)
    requires BoardOk(b) && u < |b.machines| && i < |b.machines|
    requires b.machines[u].kind != Seller && u in b.machines[i].upstream
    ensures LeadTimes(b)[u] <= b.machines[u].hours + LeadTimes(b)[i]
  {
    var g, lead := LeadNet(b), LeadTimes(b);
    RelaxationIsShortest(g, |b.machines| + 1);
    if lead[i] < NEVER {
      var p :| RouteOf(g, p, i, lead[i]);
      assert Step(g, u, i) && ([u] + p)[1..] == p;
      assert Route(g, [u] + p);
    }
  }

  // ------------------------------------------------------------------
  // Priority
  // ------------------------------------------------------------------

  lemma BeforeIsTransitive(b: Board, dist: seq<nat>, i: nat, j: nat, k: nat)
    requires |b.ys| == |b.pixelDist| == |dist| && i < |dist| && j < |dist| && k < |dist|
    requires Before(b, dist, i, j) && Before(b, dist, j, k)
    ensures Before(b, dist, i, k)
  {
  }

  lemma BeforeIsTotal(b: Board, dist: seq<nat>, i: nat, j: nat)
    requires |b.ys| == |b.pixelDist| == |dist| && i < |dist| && j < |dist| && i != j
    ensures Before(b, dist, i, j) != Before(b, dist, j, i)
  {
  }

  ghost predicate InPriority(b: Board, dist: seq<nat>, ids: seq<nat>)
    requires |b.ys| == |b.pixelDist| == |dist|
  {
    && (forall k :: 0 <= k < |ids| ==> ids[k] < |dist|)
    && forall k, l :: 0 <= k < l < |ids| ==> Before(b, dist, ids[k], ids[l])
  }

  lemma {:induction false} InsertKeepsPriority(b: Board, dist: seq<nat>, ids: seq<nat>, i: nat)
    requires |b.ys| == |b.pixelDist| == |dist| && InPriority(b, dist, ids) && i < |dist| && i !in ids
    ensures InPriority(b, dist, InsertByPriority(b, dist, ids, i))
  {
    hide Before;
    if ids != [] {
      var n := |ids| - 1;
      BeforeIsTotal(b, dist, ids[n], i);
      if Before(b, dist, ids[n], i) {
        forall k | 0 <= k < n ensures Before(b, dist, ids[k], i) { BeforeIsTransitive(b, dist, ids[k], ids[n], i); }
      } else {
        InsertKeepsPriority(b, dist, ids[..n], i);
        var r := InsertByPriority(b, dist, ids[..n], i);
        forall k | 0 <= k < |r| ensures r[k] < |dist| && Before(b, dist, r[k], ids[n]) { assert r[k] in r; }
      }
    }
  }

  /** The order served is the priority order: strictly nearest first, ties by screen
      distance where that is the metric, then topmost, then board order. */
  lemma {:induction false} SortIsPriority(b: Board, dist: seq<nat>, upto: nat)
    requires |b.ys| == |b.pixelDist| == |dist| && upto <= |dist|
    ensures InPriority(b, dist, SortByPriority(b, dist, upto))
  {
    if upto > 0 {
      SortIsPriority(b, dist, upto - 1);
      assert upto - 1 !in SortByPriority(b, dist, upto - 1);
      hide InPriority;
      InsertKeepsPriority(b, dist, SortByPriority(b, dist, upto - 1), upto - 1);
    }
  }

  /** The order fixed at compile time from the hop table. */
  function StaticOrder(b: Board, hops: seq<nat>): (order: seq<nat>)
    requires BoardOk(b) && |hops| == |b.machines|
  {
    SortByPriority(b, if b.flags.pixels then seq(|b.machines|, i => 0) else hops, |b.machines|)
  }

  /** Under the hops metric, with every machine live, recomputing the order each hour
      changes nothing; and that order is the priority order of the true hop counts. */
  lemma AllLiveOrderIsStatic(b: Board, hops: seq<nat>)
    requires BoardOk(b) && !b.flags.pixels && Shortest(LiveNet(b, Everyone(b)), hops)
    ensures DynamicOrder(b, Everyone(b)) == StaticOrder(b, hops)
    ensures InPriority(b, hops, StaticOrder(b, hops))
  {
    var g := LiveNet(b, Everyone(b));
    RelaxationIsShortest(g, |b.machines|);
    ShortestIsUnique(g, hops, LiveDistances(b, Everyone(b)));
    SortIsPriority(b, hops, |b.machines|);
  }
}
