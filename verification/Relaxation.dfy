/** Shortest routes to a fixed machine by in-place relaxation, and that the routes
    found are the cheapest. */
module Relaxation {
  import opened Counting

  /** `up[j]` lists the sources of machine j.  A fixed machine keeps its base value;
      a route may step only onto open machines; `inf` and above mean "no route". */
  datatype Net = Net(up: seq<seq<nat>>, open: seq<bool>, fixed: seq<bool>, base: seq<nat>, weight: seq<nat>, inf: nat)

  ghost predicate NetOk(g: Net) {
    && |g.up| == |g.open| == |g.fixed| == |g.base| == |g.weight|
    && (forall j, k :: 0 <= j < |g.up| && 0 <= k < |g.up[j]| ==> g.up[j][k] < |g.up|)
    && (forall i :: 0 <= i < |g.base| && !g.fixed[i] ==> g.base[i] == g.inf)
  }

  /** A step of a route: from a machine that is not fixed onto an open machine it feeds. */
  predicate Step(g: Net, i: nat, j: nat)
    requires NetOk(g) && i < |g.up| && j < |g.up|
  {
    !g.fixed[i] && g.open[j] && i in g.up[j]
  }

  /** A route: steps ending at a fixed machine. */
  ghost predicate Route(g: Net, p: seq<nat>)
    requires NetOk(g)
  {
    && |p| >= 1 && (forall k :: 0 <= k < |p| ==> p[k] < |g.up|)
    && (forall k :: 0 <= k < |p| - 1 ==> Step(g, p[k], p[k+1]))
    && g.fixed[p[|p|-1]]
  }

  function Cost(g: Net, p: seq<nat>): nat
    requires NetOk(g) && |p| >= 1 && forall k :: 0 <= k < |p| ==> p[k] < |g.up|
  {
    if |p| == 1 then g.base[p[0]] else g.weight[p[0]] + Cost(g, p[1..])
  }

  ghost predicate Within(g: Net, dist: seq<nat>)
    requires NetOk(g)
  {
    |dist| == |g.up| && forall i :: 0 <= i < |dist| ==> if g.fixed[i] then dist[i] == g.base[i] else dist[i] <= g.inf
  }

  /** Routes of at most `len` machines cost at least what `dist` says. */
  ghost predicate Bounds(g: Net, dist: seq<nat>, len: nat)
    requires NetOk(g) && Within(g, dist)
  {
    forall p :: Route(g, p) && |p| <= len ==> dist[p[0]] <= Cost(g, p)
  }

  ghost predicate RouteOf(g: Net, p: seq<nat>, i: nat, cost: nat)
    requires NetOk(g)
  {
    Route(g, p) && p[0] == i && Cost(g, p) == cost
  }

  /** Every finite value is the cost of some route. */
  ghost predicate Attained(g: Net, dist: seq<nat>)
    requires NetOk(g) && Within(g, dist)
  {
    forall i :: 0 <= i < |dist| && dist[i] < g.inf ==> exists p :: RouteOf(g, p, i, dist[i])
  }

  /** The least cost of any route, or `inf`. */
  ghost predicate Shortest(g: Net, dist: seq<nat>)
    requires NetOk(g)
  {
    && Within(g, dist) && Attained(g, dist)
    && forall p :: Route(g, p) ==> dist[p[0]] <= Cost(g, p)
  }

  /** There is only one such answer. */
  lemma ShortestIsUnique(g: Net, d: seq<nat>, e: seq<nat>)
    requires NetOk(g) && Shortest(g, d) && Shortest(g, e)
    ensures d == e
  {
    forall i | 0 <= i < |d| ensures d[i] == e[i] {
      if d[i] < g.inf { var p :| RouteOf(g, p, i, d[i]); }
      if e[i] < g.inf { var q :| RouteOf(g, q, i, e[i]); }
    }
  }

  // ------------------------------------------------------------------
  // Long routes repeat a machine and can be cut
  // ------------------------------------------------------------------

  ghost function UpTo(n: nat): (s: set<nat>)
    ensures |s| == n && forall i: nat :: i in s <==> i < n
  {
    if n == 0 then {} else UpTo(n - 1) + {n - 1}
  }

  lemma {:induction false} DistinctFits(p: seq<nat>, n: nat)
    requires Distinct(p) && forall k :: 0 <= k < |p| ==> p[k] < n
    ensures |p| <= n
  {
    SeenSize(p);
    SubsetSize(set k | 0 <= k < |p| :: p[k], UpTo(n));
  }

  lemma {:induction false} SeenSize(p: seq<nat>)
    requires Distinct(p)
    ensures |(set k | 0 <= k < |p| :: p[k])| == |p|
  {
    if p != [] {
      var n := |p| - 1;
      SeenSize(p[..n]);
      var front := set k | 0 <= k < n :: p[..n][k];
      assert (set k | 0 <= k < |p| :: p[k]) == front + {p[n]};
      assert p[n] !in front;
    }
  }

  lemma {:induction false} CostSplit(g: Net, p: seq<nat>, a: nat)
    requires NetOk(g) && (forall k :: 0 <= k < |p| ==> p[k] < |g.up|) && a < |p|
    ensures Cost(g, p) >= Cost(g, p[a..])
  {
    if a > 0 {
      CostSplit(g, p[1..], a - 1);
      assert p[1..][a-1..] == p[a..];
    } else {
      assert p[0..] == p;
    }
  }

  lemma {:induction false} CostJoin(g: Net, p: seq<nat>, a: nat, b: nat)
    requires NetOk(g) && (forall k :: 0 <= k < |p| ==> p[k] < |g.up|) && a <= b < |p|
    ensures Cost(g, p[..a] + p[b..]) <= Cost(g, p)
  {
    if a == 0 {
      CostSplit(g, p, b);
      assert p[..0] + p[b..] == p[b..];
    } else {
      CostJoin(g, p[1..], a - 1, b - 1);
      assert (p[..a] + p[b..])[1..] == p[1..][..a-1] + p[1..][b-1..];
    }
  }

  /** Cutting the loop between two visits of a machine leaves a route that costs no more. */
  lemma CutLoop(g: Net, p: seq<nat>, a: nat, b: nat)
    requires NetOk(g) && Route(g, p) && a < b < |p| && p[a] == p[b]
    ensures var q := p[..a] + p[b..]; Route(g, q) && q[0] == p[0] && |q| < |p| && Cost(g, q) <= Cost(g, p)
  {
    var q := p[..a] + p[b..];
    CostJoin(g, p, a, b);
    forall k | 0 <= k < |q| - 1 ensures Step(g, q[k], q[k+1]) {
      if k < a { assert Step(g, p[k], p[k+1]); } else { assert Step(g, p[k + b - a], p[k + b - a + 1]); }
    }
  }

  /** Every route has one of at most n machines from the same start that costs no more. */
  lemma {:induction false} ShortRoute(g: Net, p: seq<nat>) returns (q: seq<nat>)
    requires NetOk(g) && Route(g, p)
    ensures Route(g, q) && q[0] == p[0] && |q| <= |g.up| && Cost(g, q) <= Cost(g, p)
    decreases |p|
  {
    if Distinct(p) {
      DistinctFits(p, |g.up|);
      q := p;
    } else {
      var a, b :| 0 <= a < b < |p| && p[a] == p[b];
      CutLoop(g, p, a, b);
      q := ShortRoute(g, p[..a] + p[b..]);
    }
  }

  // ------------------------------------------------------------------
  // Relaxation
  // ------------------------------------------------------------------

  /** Least value among the open machines i feeds, over the first `upto`. */
  function Nearest(g: Net, dist: seq<nat>, i: nat, upto: nat): nat
    requires upto <= |g.up| == |g.open| == |dist|
  {
    if upto == 0 then g.inf
    else
      var best := Nearest(g, dist, i, upto - 1);
      if i in g.up[upto-1] && g.open[upto-1] && dist[upto-1] < best then dist[upto-1] else best
  }

  /** One machine's value after looking at its neighbours. */
  function Relaxed(g: Net, dist: seq<nat>, i: nat): nat
    requires NetOk(g) && |dist| == |g.up| && i < |dist|
  {
    var best := Nearest(g, dist, i, |g.up|);
    if !g.fixed[i] && best < g.inf && g.weight[i] + best < dist[i] then g.weight[i] + best else dist[i]
  }

  /** Machines 0..upto relaxed in place, one after another. */
  function RelaxRound(g: Net, dist: seq<nat>, upto: nat): (r: seq<nat>)
    requires NetOk(g) && upto <= |g.up| == |dist|
    ensures |r| == |dist|
  {
    if upto == 0 then dist
    else
      var d := RelaxRound(g, dist, upto - 1);
      d[upto - 1 := Relaxed(g, d, upto - 1)]
  }

  /** At most `rounds` rounds, stopping early once nothing moves. */
  function RelaxRounds(g: Net, dist: seq<nat>, rounds: nat): (r: seq<nat>)
    requires NetOk(g) && |g.up| == |dist|
    ensures |r| == |dist|
    decreases rounds
  {
    if rounds == 0 then dist
    else
      var d := RelaxRound(g, dist, |g.up|);
      if d == dist then dist else RelaxRounds(g, d, rounds - 1)
  }

  lemma {:induction false} NearestIs(g: Net, dist: seq<nat>, i: nat, upto: nat)
    requires upto <= |g.up| == |g.open| == |dist|
    ensures forall j :: 0 <= j < upto && i in g.up[j] && g.open[j] ==> Nearest(g, dist, i, upto) <= dist[j]
    ensures var best := Nearest(g, dist, i, upto);
      best == g.inf || exists j :: 0 <= j < upto && i in g.up[j] && g.open[j] && dist[j] == best
  {
    if upto > 0 { NearestIs(g, dist, i, upto - 1); }
  }

  lemma RelaxedBounds(g: Net, dist: seq<nat>, i: nat)
    requires NetOk(g) && Within(g, dist) && i < |dist|
    ensures Relaxed(g, dist, i) <= dist[i]
    ensures forall j :: 0 <= j < |dist| && Step(g, i, j) ==> Relaxed(g, dist, i) <= g.weight[i] + dist[j]
  {
    NearestIs(g, dist, i, |g.up|);
  }

  /** A step onto a machine with a route makes a longer route. */
  lemma Longer(g: Net, dist: seq<nat>, i: nat, j: nat, cost: nat)
    requires NetOk(g) && Within(g, dist) && Attained(g, dist) && i < |dist| && j < |dist| && Step(g, i, j)
    requires dist[j] < g.inf && cost == g.weight[i] + dist[j]
    ensures exists p :: RouteOf(g, p, i, cost)
  {
    var p :| RouteOf(g, p, j, dist[j]);
    assert ([i] + p)[1..] == p;
    assert RouteOf(g, [i] + p, i, cost);
  }

  lemma RelaxedAttained(g: Net, dist: seq<nat>, i: nat)
    requires NetOk(g) && Within(g, dist) && Attained(g, dist) && i < |dist|
    ensures var r := dist[i := Relaxed(g, dist, i)]; Within(g, r) && Attained(g, r)
  {
    hide RouteOf;
    var r := dist[i := Relaxed(g, dist, i)];
    RelaxedBounds(g, dist, i);
    if r[i] != dist[i] {
      NearestIs(g, dist, i, |g.up|);
      var j :| 0 <= j < |g.up| && i in g.up[j] && g.open[j] && dist[j] == Nearest(g, dist, i, |g.up|);
      Longer(g, dist, i, j, r[i]);
    }
    forall k | 0 <= k < |r| && r[k] < g.inf ensures exists p :: RouteOf(g, p, k, r[k]) {
      if k != i { assert r[k] == dist[k]; }
    }
  }

  /** A round keeps what is attained and lowers each machine to its neighbours' old values. */
  ghost predicate Improved(g: Net, dist: seq<nat>, r: seq<nat>, upto: nat)
    requires NetOk(g) && |dist| == |r| == |g.up|
  {
    && Within(g, r) && Attained(g, r) && (forall i :: 0 <= i < |r| ==> r[i] <= dist[i])
    && forall i, j :: 0 <= i < upto && i < |r| && 0 <= j < |r| && Step(g, i, j) ==> r[i] <= g.weight[i] + dist[j]
  }

  lemma ImproveOne(g: Net, dist: seq<nat>, d: seq<nat>, i: nat)
    requires NetOk(g) && Within(g, dist) && i < |d| == |dist| && Improved(g, dist, d, i)
    ensures Improved(g, dist, d[i := Relaxed(g, d, i)], i + 1)
  {
    RelaxedBounds(g, d, i);
    RelaxedAttained(g, d, i);
    hide Relaxed, Step, Attained;
  }

  lemma ImproveNone(g: Net, dist: seq<nat>)
    requires NetOk(g) && Within(g, dist) && Attained(g, dist)
    ensures Improved(g, dist, dist, 0)
  {
  }

  lemma {:induction false} RoundImproves(g: Net, dist: seq<nat>, upto: nat)
    requires NetOk(g) && |dist| == |g.up| && Within(g, dist) && Attained(g, dist) && upto <= |g.up|
    ensures Improved(g, dist, RelaxRound(g, dist, upto), upto)
  {
    hide Within, Attained, Improved, Relaxed, NetOk;
    if upto == 0 {
      ImproveNone(g, dist);
    } else {
      RoundImproves(g, dist, upto - 1);
      ImproveOne(g, dist, RelaxRound(g, dist, upto - 1), upto - 1);
    }
  }

  lemma RoundExtends(g: Net, dist: seq<nat>, len: nat)
    requires NetOk(g) && Within(g, dist) && Attained(g, dist) && len >= 1 && Bounds(g, dist, len)
    ensures var r := RelaxRound(g, dist, |g.up|); Within(g, r) && Attained(g, r) && Bounds(g, r, len + 1)
  {
    RoundImproves(g, dist, |g.up|);
    var r := RelaxRound(g, dist, |g.up|);
    forall p | Route(g, p) && |p| <= len + 1 ensures r[p[0]] <= Cost(g, p) {
      if |p| == 1 {
        assert dist[p[0]] <= Cost(g, p);
      } else {
        TailRoute(g, p);
        assert Step(g, p[0], p[1]);
        assert dist[p[1..][0]] <= Cost(g, p[1..]);
      }
    }
  }

  lemma TailRoute(g: Net, p: seq<nat>)
    requires NetOk(g) && Route(g, p) && |p| > 1
    ensures Route(g, p[1..])
  {
    forall k | 0 <= k < |p[1..]| - 1 ensures Step(g, p[1..][k], p[1..][k+1]) { assert Step(g, p[k+1], p[k+2]); }
  }

  /** A value no step can lower bounds every route. */
  lemma {:induction false} StableBounds(g: Net, dist: seq<nat>, p: seq<nat>)
    requires NetOk(g) && Within(g, dist) && Route(g, p)
    requires forall i, j :: 0 <= i < |dist| && 0 <= j < |dist| && Step(g, i, j) ==> dist[i] <= g.weight[i] + dist[j]
    ensures dist[p[0]] <= Cost(g, p)
  {
    if |p| > 1 {
      TailRoute(g, p);
      StableBounds(g, dist, p[1..]);
      assert Step(g, p[0], p[1]);
    }
  }

  lemma EnoughRounds(g: Net, dist: seq<nat>, len: nat)
    requires NetOk(g) && Within(g, dist) && Attained(g, dist) && Bounds(g, dist, len) && len >= |g.up|
    ensures Shortest(g, dist)
  {
    forall p | Route(g, p) ensures dist[p[0]] <= Cost(g, p) {
      var q := ShortRoute(g, p);
    }
  }

  /** A round that moves nothing has found the answer. */
  lemma QuietRound(g: Net, dist: seq<nat>, len: nat)
    requires NetOk(g) && Within(g, dist) && Attained(g, dist) && len >= 1 && Bounds(g, dist, len) && RelaxRound(g, dist, |g.up|) == dist
    ensures Shortest(g, dist)
  {
    RoundImproves(g, dist, |g.up|);
    forall p | Route(g, p) ensures dist[p[0]] <= Cost(g, p) { StableBounds(g, dist, p); }
  }

  lemma {:induction false} RoundsReach(g: Net, dist: seq<nat>, rounds: nat, len: nat)
    requires NetOk(g) && Within(g, dist) && Attained(g, dist) && len >= 1 && Bounds(g, dist, len) && len + rounds >= |g.up|
    ensures Shortest(g, RelaxRounds(g, dist, rounds))
    decreases rounds
  {
    hide Bounds, Attained, Shortest, NetOk, Within, RelaxRound;
    if rounds == 0 {
      EnoughRounds(g, dist, len);
    } else {
      RoundExtends(g, dist, len);
      var d := RelaxRound(g, dist, |g.up|);
      if d == dist {
        QuietRound(g, dist, len);
      } else {
        RoundsReach(g, d, rounds - 1, len + 1);
      }
    }
  }

  /** Started from the base values, as many rounds as there are machines find the
      cheapest route of every machine. */
  lemma RelaxationIsShortest(g: Net, rounds: nat)
    requires NetOk(g) && rounds >= |g.up|
    ensures Shortest(g, RelaxRounds(g, g.base, rounds))
  {
    forall i | 0 <= i < |g.base| && g.base[i] < g.inf ensures exists p :: RouteOf(g, p, i, g.base[i]) {
      assert RouteOf(g, [i], i, g.base[i]);
    }
    RoundsReach(g, g.base, rounds, 1);
  }

  /** The relaxation loop itself, on the array it updates in place. */
  method Relax(g: Net, rounds: nat) returns (a: array<nat>)
    requires NetOk(g)
    ensures fresh(a) && a[..] == RelaxRounds(g, g.base, rounds)
  {
    var n := |g.up|;
    a := new nat[n](i requires 0 <= i < n => g.base[i]);
    assert a[..] == g.base;
    var k := 0;
    while k < rounds
      invariant fresh(a) && a.Length == n && k <= rounds
      invariant RelaxRounds(g, g.base, rounds) == RelaxRounds(g, a[..], rounds - k)
    {
      var changed := RelaxPass(g, a);
      if !changed { return; }
      k := k + 1;
    }
  }

  method RelaxPass(g: Net, a: array<nat>) returns (changed: bool)
    requires NetOk(g) && a.Length == |g.up|
    modifies a
    ensures a[..] == RelaxRound(g, old(a[..]), |g.up|)
    ensures changed <==> a[..] != old(a[..])
  {
    changed := false;
    ghost var was := a[..];
    var i := 0;
    while i < a.Length
      invariant i <= a.Length && a[..] == RelaxRound(g, was, i)
      invariant changed <==> a[..] != was
      invariant forall k :: 0 <= k < i ==> a[k] <= was[k]
      invariant forall k :: i <= k < a.Length ==> a[k] == was[k]
    {
      if !g.fixed[i] {
        var best := FindNearest(g, a, i);
        if best < g.inf && g.weight[i] + best < a[i] {
          a[i] := g.weight[i] + best;
          changed := true;
          assert a[..][i] != was[i];
        }
      }
      i := i + 1;
    }
  }

  method FindNearest(g: Net, a: array<nat>, i: nat) returns (best: nat)
    requires NetOk(g) && a.Length == |g.up|
    ensures best == Nearest(g, a[..], i, |g.up|)
  {
    best := g.inf;
    for j := 0 to a.Length
      invariant best == Nearest(g, a[..], i, j)
    {
      if i in g.up[j] && g.open[j] && a[j] < best { best := a[j]; }
    }
  }
}
