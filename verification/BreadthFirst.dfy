/** Hops to the nearest seller by breadth-first search. */
module BreadthFirst {
  import opened Counting
  import opened Relaxation

  /** Every machine conducts, every step costs one, and the sources of the search are free. */
  ghost predicate HopNet(g: Net) {
    && NetOk(g) && g.inf > 0
    && forall i :: 0 <= i < |g.up| ==> g.open[i] && g.weight[i] == 1 && (g.fixed[i] ==> g.base[i] == 0)
  }

  /** `now` lowers to d exactly the machines of `hit` that were above it, and `found` lists them. */
  ghost predicate Reached(was: seq<nat>, now: seq<nat>, found: seq<nat>, d: nat, hit: set<nat>) {
    && |now| == |was|
    && (forall i :: 0 <= i < |was| ==> now[i] == if i in hit && was[i] > d then d else was[i])
    && (forall x: nat :: x in found <==> x < |was| && x in hit && was[x] > d)
  }

  ghost function Sources(g: Net, frontier: seq<nat>): set<nat>
    requires forall k :: 0 <= k < |frontier| ==> frontier[k] < |g.up|
  {
    if frontier == [] then {}
    else
      var n := |frontier| - 1;
      Sources(g, frontier[..n]) + set k | 0 <= k < |g.up[frontier[n]]| :: g.up[frontier[n]][k]
  }

  lemma {:induction false} SourcesHas(g: Net, frontier: seq<nat>, i: nat)
    requires forall k :: 0 <= k < |frontier| ==> frontier[k] < |g.up|
    ensures i in Sources(g, frontier) <==> exists j :: j in frontier && i in g.up[j]
  {
    if frontier != [] {
      var n := |frontier| - 1;
      SourcesHas(g, frontier[..n], i);
      assert frontier == frontier[..n] + [frontier[n]];
      var last := g.up[frontier[n]];
      assert i in last <==> exists k :: 0 <= k < |last| && last[k] == i;
    }
  }

  /** What holds between two levels of the search: values up to d are final, and the
      frontier is the machines at exactly d. */
  ghost predicate Level(g: Net, hops: seq<nat>, frontier: seq<nat>, d: nat)
    requires HopNet(g)
  {
    && Within(g, hops) && Attained(g, hops)
    && (forall i :: 0 <= i < |hops| ==> hops[i] <= d || hops[i] == g.inf)
    && (forall i :: 0 <= i < |hops| && g.fixed[i] ==> hops[i] == 0)
    && (forall x: nat :: x in frontier <==> x < |hops| && hops[x] == d && d < g.inf)
    && Closed(g, hops, d)
  }

  /** No step onto a machine nearer than d can lower a value. */
  ghost predicate Closed(g: Net, hops: seq<nat>, d: nat)
    requires HopNet(g) && Within(g, hops)
  {
    forall i, j :: 0 <= i < |hops| && 0 <= j < |hops| && Step(g, i, j) && hops[j] < d ==> hops[i] <= 1 + hops[j]
  }

  lemma NextAttained(g: Net, hops: seq<nat>, frontier: seq<nat>, d: nat, now: seq<nat>, found: seq<nat>)
    requires HopNet(g) && Level(g, hops, frontier, d) && (forall k :: 0 <= k < |frontier| ==> frontier[k] < |g.up|)
    requires Reached(hops, now, found, d + 1, Sources(g, frontier))
    ensures Within(g, now) && Attained(g, now)
  {
    hide RouteOf;
    forall i | 0 <= i < |now| && now[i] < g.inf ensures exists p :: RouteOf(g, p, i, now[i]) {
      if now[i] == hops[i] {
        assert hops[i] < g.inf;
      } else {
        SourcesHas(g, frontier, i);
        var j :| j in frontier && i in g.up[j];
        Longer(g, hops, i, j, d + 1);
      }
    }
  }

  lemma NextClosed(g: Net, hops: seq<nat>, frontier: seq<nat>, d: nat, now: seq<nat>, found: seq<nat>, i: nat, j: nat)
    requires HopNet(g) && Level(g, hops, frontier, d) && (forall k :: 0 <= k < |frontier| ==> frontier[k] < |g.up|)
    requires Reached(hops, now, found, d + 1, Sources(g, frontier)) && d < g.inf
    requires i < |hops| && j < |hops| && Step(g, i, j) && now[j] < d + 1
    ensures now[i] <= 1 + now[j]
  {
    hide Attained;
    assert now[j] == hops[j];
    if hops[j] == d {
      assert j in frontier;
      SourcesHas(g, frontier, i);
    }
  }

  lemma NextFrontier(g: Net, hops: seq<nat>, frontier: seq<nat>, d: nat, now: seq<nat>, found: seq<nat>, x: nat)
    requires HopNet(g) && Level(g, hops, frontier, d) && (forall k :: 0 <= k < |frontier| ==> frontier[k] < |g.up|)
    requires Reached(hops, now, found, d + 1, Sources(g, frontier)) && d < g.inf
    ensures x in found <==> x < |now| && now[x] == d + 1 && d + 1 < g.inf
    ensures x < |now| ==> (now[x] <= d + 1 || now[x] == g.inf) && (g.fixed[x] ==> now[x] == 0)
  {
    hide Attained, Closed, Sources;
    if x < |now| { assert hops[x] <= d || hops[x] == g.inf; }
  }

  lemma NextLevel(g: Net, hops: seq<nat>, frontier: seq<nat>, d: nat, now: seq<nat>, found: seq<nat>)
    requires HopNet(g) && Level(g, hops, frontier, d) && (forall k :: 0 <= k < |frontier| ==> frontier[k] < |g.up|)
    requires Reached(hops, now, found, d + 1, Sources(g, frontier)) && d < g.inf
    ensures Level(g, now, found, d + 1)
  {
    NextAttained(g, hops, frontier, d, now, found);
    forall x: nat
      ensures x in found <==> x < |now| && now[x] == d + 1 && d + 1 < g.inf
      ensures x < |now| ==> (now[x] <= d + 1 || now[x] == g.inf) && (g.fixed[x] ==> now[x] == 0)
    {
      NextFrontier(g, hops, frontier, d, now, found, x);
    }
    assert Closed(g, now, d + 1) by {
      forall i, j | 0 <= i < |now| && 0 <= j < |now| && Step(g, i, j) && now[j] < d + 1 ensures now[i] <= 1 + now[j] {
        NextClosed(g, hops, frontier, d, now, found, i, j);
      }
    }
    hide Attained, Closed, Reached, Step;
  }

  lemma LastLevel(g: Net, hops: seq<nat>, d: nat)
    requires HopNet(g) && Level(g, hops, [], d)
    ensures Shortest(g, hops)
  {
    forall i, j | 0 <= i < |hops| && 0 <= j < |hops| && Step(g, i, j) ensures hops[i] <= g.weight[i] + hops[j] {
      if hops[j] < g.inf { assert j !in []; }
    }
    forall p | Route(g, p) ensures hops[p[0]] <= Cost(g, p) { StableBounds(g, hops, p); }
  }

  /** BREADTH-FIRST SEARCH finds the least number of hops of every machine. */
  method Hops(g: Net) returns (hops: array<nat>)
    requires HopNet(g)
    ensures fresh(hops) && Shortest(g, hops[..])
  {
    var n := |g.up|;
    hops := new nat[n](i requires 0 <= i < n => g.base[i]);
    var frontier: seq<nat> := [];
    for i := 0 to n
      invariant hops[..] == g.base
      invariant forall x: nat :: x in frontier <==> x < i && g.fixed[x]
    {
      if g.fixed[i] { frontier := frontier + [i]; }
    }
    FirstLevel(g, frontier);
    var d := 0;
    while frontier != []
      invariant hops.Length == n && Level(g, hops[..], frontier, d)
      decreases g.inf - d
    {
      assert frontier[0] in frontier;
      forall k | 0 <= k < |frontier| ensures frontier[k] < n { assert frontier[k] in frontier; }
      ghost var was := hops[..];
      var next := Scan(g, hops, frontier, d + 1);
      NextLevel(g, was, frontier, d, hops[..], next);
      frontier := next;
      d := d + 1;
    }
    LastLevel(g, hops[..], d);
  }

  lemma FirstLevel(g: Net, frontier: seq<nat>)
    requires HopNet(g) && forall x: nat :: x in frontier <==> x < |g.up| && g.fixed[x]
    ensures Level(g, g.base, frontier, 0)
  {
    forall i | 0 <= i < |g.base| && g.base[i] < g.inf ensures exists p :: RouteOf(g, p, i, g.base[i]) {
      assert RouteOf(g, [i], i, g.base[i]);
    }
  }

  /** One level: visit the sources of every machine on the frontier. */
  method Scan(g: Net, hops: array<nat>, frontier: seq<nat>, d: nat) returns (next: seq<nat>)
    requires NetOk(g) && hops.Length == |g.up| && forall k :: 0 <= k < |frontier| ==> frontier[k] < |g.up|
    modifies hops
    ensures Reached(old(hops[..]), hops[..], next, d, Sources(g, frontier))
  {
    next := [];
    ghost var was := hops[..];
    for k := 0 to |frontier|
      invariant Reached(was, hops[..], next, d, Sources(g, frontier[..k]))
    {
      ghost var before := hops[..];
      var found := Visit(g, hops, frontier[k], d);
      ghost var here := set l | 0 <= l < |g.up[frontier[k]]| :: g.up[frontier[k]][l];
      BothReached(was, before, hops[..], next, found, d, Sources(g, frontier[..k]), here);
      assert frontier[..k+1][..k] == frontier[..k];
      next := next + found;
    }
    assert frontier[..|frontier|] == frontier;
  }

  lemma BothReached(was: seq<nat>, mid: seq<nat>, now: seq<nat>, xs: seq<nat>, ys: seq<nat>, d: nat, s: set<nat>, t: set<nat>)
    requires Reached(was, mid, xs, d, s) && Reached(mid, now, ys, d, t)
    ensures Reached(was, now, xs + ys, d, s + t)
  {
  }

  method Visit(g: Net, hops: array<nat>, j: nat, d: nat) returns (found: seq<nat>)
    requires NetOk(g) && hops.Length == |g.up| && j < |g.up|
    modifies hops
    ensures Reached(old(hops[..]), hops[..], found, d, set l | 0 <= l < |g.up[j]| :: g.up[j][l])
  {
    found := [];
    ghost var was := hops[..];
    for k := 0 to |g.up[j]|
      invariant Reached(was, hops[..], found, d, set l | 0 <= l < k :: g.up[j][l])
    {
      var i := g.up[j][k];
      ghost var before, seen := hops[..], set l | 0 <= l < k :: g.up[j][l];
      if hops[i] > d {
        hops[i] := d;
        BothReached(was, before, hops[..], found, [i], d, seen, {i});
        found := found + [i];
      } else {
        BothReached(was, before, hops[..], found, [], d, seen, {i});
        assert found + [] == found;
      }
      assert (set l | 0 <= l < k + 1 :: g.up[j][l]) == seen + {i};
    }
  }
}
