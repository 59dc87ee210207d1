/** Whole hours and whole runs: who acts, in which order, on which plan. */
module FactoryHours {
  import opened Counting
  import opened Factory
  import opened Relaxation

  // ------------------------------------------------------------------
  // Priority order
  // ------------------------------------------------------------------

  /** Hops through live machines: a busy or switched-off machine conducts nothing. */
  function LiveNet(b: Board, live: seq<bool>): (g: Net)
    requires BoardOk(b) && |live| == |b.machines|
    ensures NetOk(g) && |g.up| == |b.machines|
  {
    var n := |b.machines|;
    var g := Net(seq(n, i requires 0 <= i < n => b.machines[i].upstream), live,
                 seq(n, i requires 0 <= i < n => b.machines[i].kind == Seller),
                 seq(n, i requires 0 <= i < n => if b.machines[i].kind == Seller && live[i] then 0 else INF_HOPS),
                 seq(n, i => 1), INF_HOPS);
    assert forall j :: 0 <= j < n ==> MachineOk(b, b.machines[j]);
    g
  }

  /** Hops to a live seller through live machines. */
  function LiveDistances(b: Board, live: seq<bool>): (r: seq<nat>)
    requires BoardOk(b) && |live| == |b.machines|
    ensures |r| == |live|
  {
    var g := LiveNet(b, live);
    RelaxRounds(g, g.base, |b.machines|)
  }

  /** Closer first; then, under the pixel metric, nearer on screen; then topmost. */
  predicate Before(b: Board, dist: seq<nat>, i: nat, j: nat)
    requires i < |dist| && j < |dist| && |b.ys| == |b.pixelDist| == |dist|
  {
    || dist[i] < dist[j]
    || (dist[i] == dist[j] && b.flags.pixels && b.pixelDist[i] < b.pixelDist[j])
    || (dist[i] == dist[j] && (b.flags.pixels ==> b.pixelDist[i] == b.pixelDist[j]) && b.ys[i] < b.ys[j])
    || (dist[i] == dist[j] && (b.flags.pixels ==> b.pixelDist[i] == b.pixelDist[j]) && b.ys[i] == b.ys[j] && i < j)
  }

  function InsertByPriority(b: Board, dist: seq<nat>, ids: seq<nat>, i: nat): (r: seq<nat>)
    requires |b.ys| == |b.pixelDist| == |dist| && i < |dist| && forall k :: 0 <= k < |ids| ==> ids[k] < |dist|
    ensures |r| == |ids| + 1 && forall x :: x in r <==> x in ids || x == i
  {
    if ids == [] then [i]
    else
      var n := |ids| - 1;
      assert ids == ids[..n] + [ids[n]];
      if Before(b, dist, ids[n], i) then ids + [i] else InsertByPriority(b, dist, ids[..n], i) + [ids[n]]
  }

  function SortByPriority(b: Board, dist: seq<nat>, upto: nat): (r: seq<nat>)
    requires |b.ys| == |b.pixelDist| == |dist| && upto <= |dist|
    ensures |r| == upto && forall i: nat :: i in r <==> i < upto
  {
    if upto == 0 then []
    else
      var front := SortByPriority(b, dist, upto - 1);
      assert forall k :: 0 <= k < |front| ==> front[k] in front;
      InsertByPriority(b, dist, front, upto - 1)
  }

  /** Priority recomputed through live machines only. */
  function DynamicOrder(b: Board, live: seq<bool>): (order: seq<nat>)
    requires BoardOk(b) && |live| == |b.machines|
    ensures IdsOk(b, order)
    ensures forall i: nat :: i < |b.machines| ==> i in order
  {
    var order := SortByPriority(b, LiveDistances(b, live), |b.machines|);
    assert forall k :: 0 <= k < |order| ==> order[k] in order;
    order
  }

  // ------------------------------------------------------------------
  // Passes over the machines
  // ------------------------------------------------------------------

  function AdvanceAll(b: Board, s: State, h: nat, ids: seq<nat>): (r: State)
    requires Shape(b, s) && IdsOk(b, ids)
    ensures Shape(b, r)
  {
    if ids == [] then s
    else
      var n := |ids| - 1;
      Advance(b, AdvanceAll(b, s, h, ids[..n]), h, ids[n])
  }

  function SettleAll(b: Board, s: State, ids: seq<nat>): (r: State)
    requires Shape(b, s) && BoardOk(b) && IdsOk(b, ids)
    ensures Shape(b, r)
  {
    if ids == [] then s
    else
      var n := |ids| - 1;
      Settle(b, SettleAll(b, s, ids[..n]), ids[n])
  }

  ghost predicate PlansOk(b: Board, plans: seq<Option<Plan>>) {
    |plans| == |b.machines| && forall i :: 0 <= i < |plans| && plans[i].Some? ==> PlanFits(b, i, plans[i].value)
  }

  function AllocateAll(b: Board, s: State, h: nat, ids: seq<nat>, plans: seq<Option<Plan>>): (r: State)
    requires Shape(b, s) && BoardOk(b) && IdsOk(b, ids) && PlansOk(b, plans)
    ensures Shape(b, r)
  {
    if ids == [] then s
    else
      var n := |ids| - 1;
      Allocate(b, AllocateAll(b, s, h, ids[..n], plans), h, ids[n], plans[ids[n]])
  }

  ghost predicate ClipsOk(b: Board, list: seq<Overfull>) {
    forall k :: 0 <= k < |list| ==> list[k].machine < |b.machines| && list[k].item < b.items
  }

  function TrimAll(b: Board, s: State, list: seq<Overfull>): (r: State)
    requires Shape(b, s) && ClipsOk(b, list)
    ensures Shape(b, r)
  {
    if list == [] then s
    else
      var n := |list| - 1;
      Trim(b, TrimAll(b, s, list[..n]), list[n])
  }

  // ------------------------------------------------------------------
  // Two ways to drive a run
  // ------------------------------------------------------------------

  /** Constant settings, or a per-hour matrix of settings. */
  datatype Drive = Constant(knobs: Knobs) | Hourly(knobs: Knobs, matrix: seq<seq<int>>)

  ghost predicate DriveOk(b: Board, d: Drive) {
    && KnobsOk(b, d.knobs)
    && (d.Hourly? ==> |d.matrix| == |b.machines| && forall i :: 0 <= i < |d.matrix| ==> |d.matrix[i]| == b.horizon + 1)
  }

  /** The output setting machine i is dialled to in hour h. */
  function SettingAt(b: Board, d: Drive, i: nat, h: nat): int
    requires DriveOk(b, d) && i < |b.machines| && h <= b.horizon
  {
    if d.Constant? then d.knobs.setting[i] else d.matrix[i][h]
  }

  function PlansAt(b: Board, d: Drive, h: nat): (plans: seq<Option<Plan>>)
    requires BoardOk(b) && DriveOk(b, d) && h <= b.horizon
    ensures |plans| == |b.machines|
  {
    seq(|b.machines|, i requires 0 <= i < |b.machines| =>
      assert MachineOk(b, b.machines[i]);
      PlanOf(b, i, d.knobs.recipe[i], SettingAt(b, d, i, h), d.knobs.mods[i]))
  }

  lemma PlansAtOk(b: Board, d: Drive, h: nat)
    requires BoardOk(b) && DriveOk(b, d) && h <= b.horizon
    ensures PlansOk(b, PlansAt(b, d, h))
  {
    forall i | 0 <= i < |b.machines| && PlansAt(b, d, h)[i].Some? ensures PlanFits(b, i, PlansAt(b, d, h)[i].value) {
      PlanOfFits(b, i, d.knobs.recipe[i], SettingAt(b, d, i, h), d.knobs.mods[i]);
    }
  }

  function WithPlan(ids: seq<nat>, plans: seq<Option<Plan>>): (r: seq<nat>)
    requires forall k :: 0 <= k < |ids| ==> ids[k] < |plans|
    ensures forall k :: 0 <= k < |r| ==> r[k] < |plans|
  {
    if ids == [] then []
    else
      var n := |ids| - 1;
      if plans[ids[n]].Some? then WithPlan(ids[..n], plans) + [ids[n]] else WithPlan(ids[..n], plans)
  }

  function AllIds(n: nat): (ids: seq<nat>)
    ensures |ids| == n && forall k :: 0 <= k < n ==> ids[k] == k
  {
    seq(n, k => k)
  }

  /** Machines that take part: under constant settings those without a plan are dropped. */
  function TakingPart(b: Board, d: Drive, ids: seq<nat>, plans: seq<Option<Plan>>): (r: seq<nat>)
    requires IdsOk(b, ids) && |plans| == |b.machines|
    ensures IdsOk(b, r)
  {
    if d.Constant? then WithPlan(ids, plans) else ids
  }

  /** Machines conducting items this hour. */
  function LiveNow(b: Board, d: Drive, s: State, h: nat, plans: seq<Option<Plan>>): (live: seq<bool>)
    requires DriveOk(b, d) && Shape(b, s) && h <= b.horizon && |plans| == |b.machines|
    ensures |live| == |b.machines|
  {
    seq(|b.machines|, i requires 0 <= i < |b.machines| =>
      s.rem[i] == 0 && if d.Constant? then plans[i].Some? else d.matrix[i][h] > 0)
  }

  function OrderNow(b: Board, d: Drive, s: State, h: nat, plans: seq<Option<Plan>>): (order: seq<nat>)
    requires BoardOk(b) && DriveOk(b, d) && Shape(b, s) && h <= b.horizon && |plans| == |b.machines|
    ensures IdsOk(b, order)
  {
    TakingPart(b, d, if b.flags.recompute then DynamicOrder(b, LiveNow(b, d, s, h, plans)) else b.fixedOrder, plans)
  }

  /** Everything after the deposits of an hour. */
  function RestOfHour(b: Board, s: State, h: nat, order: seq<nat>, plans: seq<Option<Plan>>): (r: State)
    requires BoardOk(b) && Shape(b, s) && IdsOk(b, order) && PlansOk(b, plans)
    ensures Shape(b, r)
  {
    var s1 := if b.flags.twoHourLate then SettleAll(b, s, order) else s;
    var s2 := AllocateAll(b, s1, h, order, plans);
    TrimAll(b, s2, s2.overfull).(overfull := [])
  }

  /** One hour. */
  function Hour(b: Board, d: Drive, s: State, h: nat): (r: State)
    requires BoardOk(b) && DriveOk(b, d) && Shape(b, s) && h <= b.horizon
    ensures Shape(b, r)
  {
    var plans := PlansAt(b, d, h);
    PlansAtOk(b, d, h);
    var s1 := AdvanceAll(b, s.(overfull := []), h, TakingPart(b, d, AllIds(|b.machines|), plans));
    RestOfHour(b, s1, h, OrderNow(b, d, s1, h, plans), plans)
  }

  /** State at the end of hour h. */
  function Run(b: Board, d: Drive, h: nat): (r: State)
    requires BoardOk(b) && DriveOk(b, d) && h <= b.horizon
    ensures Shape(b, r)
  {
    StartShape(b);
    if h == 0 then Start(b) else Hour(b, d, Run(b, d, h - 1), h)
  }

  /** Money at the end of each hour up to h, the starting money first. */
  function MoneySeries(b: Board, d: Drive, h: nat): (series: seq<real>)
    requires BoardOk(b) && DriveOk(b, d) && h <= b.horizon
    ensures |series| == h + 1
  {
    if h == 0 then [b.startingMoney] else MoneySeries(b, d, h - 1) + [Run(b, d, h).money]
  }
}
