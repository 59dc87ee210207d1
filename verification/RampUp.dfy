/** The ramp-up bound: nothing can be sold before the fastest chain has had time to
    fill, whatever the flags. */
module RampUp {
  import opened Counting
  import opened Factory
  import opened FactoryHours
  import opened FactoryLaws
  import opened FactoryJobs
  import opened FactoryGraph

  /** An empty board without 1-hour mods, where every maker and seller recipe in use
      takes at least one item. */
  ghost predicate ColdStart(b: Board, k: Knobs)
    requires KnobsOk(b, k) && BoardOk(b)
  {
    && (forall i, x :: 0 <= i < |b.machines| && 0 <= x < b.items ==> b.initial[i][x] == 0)
    && (forall i :: 0 <= i < |b.machines| ==> !k.mods[i].oneHour && Hungry(b, k, i))
  }

  ghost predicate Hungry(b: Board, k: Knobs, i: nat)
    requires i < |b.machines| == |k.recipe|
  {
    var m, ri := b.machines[i], k.recipe[i];
    m.kind != Supplier && 0 <= ri < |m.recipes| ==> exists x :: 0 <= x < |m.recipes[ri].inputs| && m.recipes[ri].inputs[x].qty > 0
  }

  /** `phi` never promises more hours to a sale than the board needs: a supplier is at
      least `bound - 1` away, a seller at most its own hours, and a source at most its
      own hours further than whatever it feeds. */
  ghost predicate Potential(b: Board, phi: seq<int>, bound: int) {
    && |phi| == |b.machines|
    && (forall i :: 0 <= i < |phi| && b.machines[i].kind == Supplier ==> phi[i] >= bound - 1)
    && (forall i :: 0 <= i < |phi| && b.machines[i].kind == Seller ==> phi[i] <= b.machines[i].hours)
    && (forall u, i :: 0 <= u < |phi| && 0 <= i < |phi| && Feeds(b, u, i) ==> phi[u] <= b.machines[u].hours + phi[i])
  }

  predicate Feeds(b: Board, u: nat, i: nat)
    requires u < |b.machines| && i < |b.machines|
  {
    b.machines[u].kind != Seller && u in b.machines[i].upstream
  }

  // ------------------------------------------------------------------
  // The invariant
  // ------------------------------------------------------------------

  /** A pending job was started late enough. */
  ghost predicate LateJob(b: Board, phi: seq<int>, bound: int, s: State, i: nat)
    requires Shape(b, s) && i < |b.machines| == |phi|
  {
    s.units[i] > 0 ==> s.job[i].Some? && s.job[i].value.hours == b.machines[i].hours && s.started[i] + phi[i] >= bound
  }

  /** Stock is late enough, and sellers keep none. */
  ghost predicate LateStock(b: Board, phi: seq<int>, bound: int, buf: Storage, h: nat, u: nat, x: nat)
    requires StorageOk(b, buf) && u < |b.machines| == |phi| && x < b.items
  {
    buf[u][x] > 0 ==> b.machines[u].kind != Seller && h + phi[u] >= bound + b.machines[u].hours
  }

  ghost predicate Quiet(b: Board, phi: seq<int>, bound: int, s: State, h: nat)
    requires Shape(b, s) && |phi| == |b.machines|
  {
    && (forall i :: 0 <= i < |b.machines| ==> LateJob(b, phi, bound, s, i))
    && (forall u, x :: 0 <= u < |b.machines| && 0 <= x < b.items ==> LateStock(b, phi, bound, s.buf, h, u, x))
    && (h < bound ==> s.revenue == 0.0)
  }

  /** Less stock and fewer jobs stay quiet. */
  lemma LessIsQuiet(b: Board, phi: seq<int>, bound: int, s: State, t: State, h: nat)
    requires Shape(b, s) && Shape(b, t) && |phi| == |b.machines| && Quiet(b, phi, bound, s, h)
    requires forall u, x :: 0 <= u < |b.machines| && 0 <= x < b.items ==> t.buf[u][x] <= s.buf[u][x]
    requires forall i :: 0 <= i < |b.machines| && t.units[i] > 0 ==> s.units[i] > 0 && t.job[i] == s.job[i] && t.started[i] == s.started[i]
    requires t.revenue == s.revenue
    ensures Quiet(b, phi, bound, t, h)
  {
    forall i | 0 <= i < |b.machines| ensures LateJob(b, phi, bound, t, i) { assert LateJob(b, phi, bound, s, i); }
    forall u, x | 0 <= u < |b.machines| && 0 <= x < b.items ensures LateStock(b, phi, bound, t.buf, h, u, x) {
      assert LateStock(b, phi, bound, s.buf, h, u, x);
    }
  }

  lemma LaterIsQuiet(b: Board, phi: seq<int>, bound: int, s: State, h: nat, later: nat)
    requires Shape(b, s) && |phi| == |b.machines| && Quiet(b, phi, bound, s, h) && h <= later
    ensures Quiet(b, phi, bound, s, later)
  {
    forall u, x | 0 <= u < |b.machines| && 0 <= x < b.items ensures LateStock(b, phi, bound, s.buf, later, u, x) {
      assert LateStock(b, phi, bound, s.buf, h, u, x);
    }
  }

  // ------------------------------------------------------------------
  // Deposits
  // ------------------------------------------------------------------

  lemma StockQuiet(b: Board, phi: seq<int>, bound: int, s: State, h: nat, i: nat, item: nat, cap: nat, units: nat)
    requires Shape(b, s) && |phi| == |b.machines| && Quiet(b, phi, bound, s, h) && i < |b.machines| && item < b.items
    requires b.machines[i].kind != Seller && h + phi[i] >= bound + b.machines[i].hours
    ensures Quiet(b, phi, bound, Stock(b, s, i, item, cap, units), h)
  {
    var t := Stock(b, s, i, item, cap, units);
    forall j | 0 <= j < |b.machines| ensures LateJob(b, phi, bound, t, j) { assert LateJob(b, phi, bound, s, j); }
    forall u, x | 0 <= u < |b.machines| && 0 <= x < b.items ensures LateStock(b, phi, bound, t.buf, h, u, x) {
      assert LateStock(b, phi, bound, s.buf, h, u, x);
    }
  }

  lemma DeliverQuiet(b: Board, phi: seq<int>, bound: int, s: State, h: nat, i: nat)
    requires Shape(b, s) && Potential(b, phi, bound) && Quiet(b, phi, bound, s, h) && i < |b.machines| && s.units[i] > 0
    requires s.started[i] + b.machines[i].hours == h
    ensures Quiet(b, phi, bound, Deliver(b, s, h, i), h)
  {
    assert JobOk(b, i, s.units[i], s.awaiting[i], s.job[i]);
    assert LateJob(b, phi, bound, s, i);
    var units, p := s.units[i], s.job[i].value;
    var s1 := s.(units := s.units[i := 0], delivered := s.delivered + [Delivery(i, p.kind, s.started[i], p.hours, h, units)]);
    LessIsQuiet(b, phi, bound, s, s1, h);
    if p.kind == Seller {
      var s2 := HandOver(b, s1, i, p, units);
      assert h >= bound;
      SoldIsQuiet(b, phi, bound, s1, s2, h);
      LessIsQuiet(b, phi, bound, s2, Deliver(b, s, h, i), h);
    } else if p.recipe.output.Some? {
      StockQuiet(b, phi, bound, s1, h, i, p.recipe.output.value, p.cap, units);
      LessIsQuiet(b, phi, bound, Stock(b, s1, i, p.recipe.output.value, p.cap, units), Deliver(b, s, h, i), h);
    } else {
      LessIsQuiet(b, phi, bound, s1, Deliver(b, s, h, i), h);
    }
  }

  lemma SoldIsQuiet(b: Board, phi: seq<int>, bound: int, s: State, t: State, h: nat)
    requires Shape(b, s) && Shape(b, t) && |phi| == |b.machines| && Quiet(b, phi, bound, s, h) && h >= bound
    requires t.buf == s.buf && t.units == s.units && t.job == s.job && t.started == s.started
    ensures Quiet(b, phi, bound, t, h)
  {
    forall i | 0 <= i < |b.machines| ensures LateJob(b, phi, bound, t, i) { assert LateJob(b, phi, bound, s, i); }
    forall u, x | 0 <= u < |b.machines| && 0 <= x < b.items ensures LateStock(b, phi, bound, t.buf, h, u, x) {
      assert LateStock(b, phi, bound, s.buf, h, u, x);
    }
  }

  lemma AdvanceQuiet(b: Board, phi: seq<int>, bound: int, s: State, h: nat, i: nat)
    requires Shape(b, s) && Potential(b, phi, bound) && Quiet(b, phi, bound, s, h) && i < |b.machines| && h >= 1
    requires JobAt(b, s, i, h - 1, 2)
    ensures Quiet(b, phi, bound, Advance(b, s, h, i), h)
  {
    var t := Tick(s, i);
    LessIsQuiet(b, phi, bound, s, t, h);
    assert LateJob(b, phi, bound, s, i);
    if t.rem[i] == 0 && t.units[i] > 0 { DeliverQuiet(b, phi, bound, t, h, i); }
  }

  lemma {:induction false} AdvanceAllQuiet(b: Board, phi: seq<int>, bound: int, s: State, h: nat, ids: seq<nat>)
    requires Shape(b, s) && IdsOk(b, ids) && Distinct(ids) && h >= 1 && JobsAt(b, s, h - 1, 2) && Punctual(s)
    requires Potential(b, phi, bound) && Quiet(b, phi, bound, s, h)
    ensures Quiet(b, phi, bound, AdvanceAll(b, s, h, ids), h)
  {
    hide Quiet, Potential, Advance, Punctual;
    if ids != [] {
      var n := |ids| - 1;
      AdvanceAllQuiet(b, phi, bound, s, h, ids[..n]);
      AdvanceAllJobs(b, s, h, ids[..n]);
      var t := AdvanceAll(b, s, h, ids[..n]);
      assert ids[n] !in ids[..n];
      assert AdvancedJob(b, s, t, h, ids[n], false) && JobAt(b, s, ids[n], h - 1, 2);
      AdvanceQuiet(b, phi, bound, t, h, ids[n]);
    }
  }

  // ------------------------------------------------------------------
  // Consumption
  // ------------------------------------------------------------------

  lemma ConsumeQuiet(b: Board, phi: seq<int>, bound: int, s: State, h: nat, i: nat, p: Plan, units: nat)
    requires Shape(b, s) && BoardOk(b) && |phi| == |b.machines| && Quiet(b, phi, bound, s, h) && i < |b.machines| && PlanFits(b, i, p)
    requires NeedsOk(s.buf, p.needs) && Covered(s.buf, p.needs)
    ensures Quiet(b, phi, bound, Consume(b, s, i, p, units), h)
  {
    PlanNeeds(b, s.buf, i, p);
    var r := Consume(b, s, i, p, units);
    forall u, x | 0 <= u < |b.machines| && 0 <= x < b.items ensures r.buf[u][x] <= s.buf[u][x] {
      DrawAllTakesNeeds(s.buf, p.needs, b.items, x);
    }
    LessIsQuiet(b, phi, bound, s, r, h);
  }

  lemma SettleQuiet(b: Board, phi: seq<int>, bound: int, s: State, h: nat, i: nat)
    requires Shape(b, s) && BoardOk(b) && |phi| == |b.machines| && Quiet(b, phi, bound, s, h) && i < |b.machines|
    ensures Quiet(b, phi, bound, Settle(b, s, i), h)
  {
    if s.awaiting[i] {
      assert JobOk(b, i, s.units[i], s.awaiting[i], s.job[i]);
      var p := s.job[i].value;
      NeedsInRange(b, s, i, p);
      var t := s.(awaiting := s.awaiting[i := false]);
      LessIsQuiet(b, phi, bound, s, t, h);
      if Covered(s.buf, p.needs) {
        ConsumeQuiet(b, phi, bound, t, h, i, p, t.units[i]);
      } else {
        LessIsQuiet(b, phi, bound, t, Settle(b, s, i), h);
      }
    }
  }

  lemma {:induction false} SettleAllQuiet(b: Board, phi: seq<int>, bound: int, s: State, h: nat, ids: seq<nat>)
    requires Shape(b, s) && BoardOk(b) && IdsOk(b, ids) && |phi| == |b.machines| && Quiet(b, phi, bound, s, h)
    ensures Quiet(b, phi, bound, SettleAll(b, s, ids), h)
  {
    hide Quiet, Settle;
    if ids != [] {
      var n := |ids| - 1;
      SettleAllQuiet(b, phi, bound, s, h, ids[..n]);
      SettleQuiet(b, phi, bound, SettleAll(b, s, ids[..n]), h, ids[n]);
    }
  }

  // ------------------------------------------------------------------
  // Starting jobs
  // ------------------------------------------------------------------

  /** The plan of machine i takes its full hours and, unless it is a supplier, some input. */
  ghost predicate SlowPlan(b: Board, i: nat, p: Plan)
    requires i < |b.machines|
  {
    p.hours == b.machines[i].hours && (p.kind != Supplier ==> exists k :: 0 <= k < |p.needs| && p.needs[k].amount > 0)
  }

  lemma BeginQuiet(b: Board, phi: seq<int>, bound: int, s: State, h: nat, i: nat, p: Plan, units: nat, hours: nat)
    requires Shape(b, s) && |phi| == |b.machines| && Quiet(b, phi, bound, s, h) && i < |b.machines| && PlanFits(b, i, p)
    requires SlowPlan(b, i, p) && h + phi[i] >= bound
    ensures Quiet(b, phi, bound, Begin(b, s, h, i, p, units, hours), h)
  {
    var t := Begin(b, s, h, i, p, units, hours);
    forall j | 0 <= j < |b.machines| ensures LateJob(b, phi, bound, t, j) { assert LateJob(b, phi, bound, s, j); }
    forall u, x | 0 <= u < |b.machines| && 0 <= x < b.items ensures LateStock(b, phi, bound, t.buf, h, u, x) {
      assert LateStock(b, phi, bound, s.buf, h, u, x);
    }
  }

  lemma {:induction false} SomeSource(buf: Storage, sources: seq<nat>, item: nat)
    requires SourcesOk(buf, sources, item) && Available(buf, sources, item) > 0
    ensures exists k :: 0 <= k < |sources| && buf[sources[k]][item] > 0
  {
    if sources != [] && buf[sources[0]][item] == 0 {
      assert forall k :: 0 <= k < |sources[1..]| ==> sources[1..][k] == sources[k+1];
      SomeSource(buf, sources[1..], item);
      var k :| 0 <= k < |sources[1..]| && buf[sources[1..][k]][item] > 0;
      assert sources[k+1] == sources[1..][k];
    }
  }

  /** A machine that finds its inputs is itself late enough. */
  lemma FedIsLate(b: Board, phi: seq<int>, bound: int, s: State, h: nat, i: nat, p: Plan)
    requires Shape(b, s) && Potential(b, phi, bound) && Quiet(b, phi, bound, s, h) && i < |b.machines| && PlanFits(b, i, p)
    requires SlowPlan(b, i, p) && p.kind != Supplier && NeedsOk(s.buf, p.needs) && Covered(s.buf, p.needs)
    ensures h + phi[i] >= bound
  {
    var k :| 0 <= k < |p.needs| && p.needs[k].amount > 0;
    var sources, item := p.needs[k].sources, p.needs[k].item;
    assert SourcesOk(s.buf, sources, item);
    SomeSource(s.buf, sources, item);
    var l :| 0 <= l < |sources| && s.buf[sources[l]][item] > 0;
    assert LateStock(b, phi, bound, s.buf, h, sources[l], item);
    assert Feeds(b, sources[l], i);
  }

  lemma OrderQuiet(b: Board, phi: seq<int>, bound: int, s: State, h: nat, i: nat, p: Plan)
    requires Shape(b, s) && Potential(b, phi, bound) && Quiet(b, phi, bound, s, h) && i < |b.machines| && PlanFits(b, i, p)
    requires SlowPlan(b, i, p) && p.kind == Supplier && h >= 1
    ensures Quiet(b, phi, bound, Order(b, s, h, i, p), h)
  {
    assert h + phi[i] >= bound;
    LessIsQuiet(b, phi, bound, s, Skip(b, s, i), h);
    PlaceQuiet(b, phi, bound, s, h, i, p, p.units);
    hide Quiet, Place, Skip, Shape, Potential, PlanFits, SlowPlan;
    if b.flags.partialFunds && p.recipe.purchaseCost > 0.0 {
      var afford := Affordable(s.money, p.recipe.purchaseCost);
      if 0 < afford < p.units { PlaceQuiet(b, phi, bound, s, h, i, p, afford); }
    }
  }

  lemma PlaceQuiet(b: Board, phi: seq<int>, bound: int, s: State, h: nat, i: nat, p: Plan, units: nat)
    requires Shape(b, s) && |phi| == |b.machines| && Quiet(b, phi, bound, s, h) && i < |b.machines| && PlanFits(b, i, p)
    requires SlowPlan(b, i, p) && h + phi[i] >= bound
    ensures Quiet(b, phi, bound, Place(b, s, h, i, p, units), h)
  {
    var t := Bill(b, s, i, Amount(units, p.recipe.purchaseCost));
    LessIsQuiet(b, phi, bound, s, t, h);
    BeginQuiet(b, phi, bound, t, h, i, p, units, p.hours);
  }

  lemma ProduceQuiet(b: Board, phi: seq<int>, bound: int, s: State, h: nat, i: nat, p: Plan)
    requires Shape(b, s) && BoardOk(b) && Potential(b, phi, bound) && Quiet(b, phi, bound, s, h) && i < |b.machines| && PlanFits(b, i, p)
    requires SlowPlan(b, i, p) && p.kind != Supplier
    ensures Quiet(b, phi, bound, Produce(b, s, h, i, p), h)
  {
    NeedsInRange(b, s, i, p);
    LessIsQuiet(b, phi, bound, s, Skip(b, s, i), h);
    if Covered(s.buf, p.needs) && Amount(p.units, p.unitCost) <= s.money + EPS {
      FedIsLate(b, phi, bound, s, h, i, p);
      if b.flags.twoHourLate && p.hours == 2 {
        var t := Begin(b, s, h, i, p, p.units, 2);
        BeginQuiet(b, phi, bound, s, h, i, p, p.units, 2);
        LessIsQuiet(b, phi, bound, t, t.(awaiting := t.awaiting[i := true]), h);
      } else {
        ConsumeQuiet(b, phi, bound, s, h, i, p, p.units);
        BeginQuiet(b, phi, bound, Consume(b, s, i, p, p.units), h, i, p, p.units, p.hours);
      }
    }
  }

  lemma AllocateQuiet(b: Board, phi: seq<int>, bound: int, s: State, h: nat, i: nat, plan: Option<Plan>)
    requires Shape(b, s) && BoardOk(b) && Potential(b, phi, bound) && Quiet(b, phi, bound, s, h) && i < |b.machines| && h >= 1
    requires plan.Some? ==> PlanFits(b, i, plan.value) && SlowPlan(b, i, plan.value)
    ensures Quiet(b, phi, bound, Allocate(b, s, h, i, plan), h)
  {
    hide Quiet, Order, Produce, Potential, BoardOk;
    if plan.Some? {
      if plan.value.kind == Supplier {
        OrderQuiet(b, phi, bound, s, h, i, plan.value);
      } else {
        ProduceQuiet(b, phi, bound, s, h, i, plan.value);
      }
    }
  }

  ghost predicate SlowPlans(b: Board, plans: seq<Option<Plan>>) {
    |plans| == |b.machines| && forall i :: 0 <= i < |plans| && plans[i].Some? ==> SlowPlan(b, i, plans[i].value)
  }

  lemma {:induction false} AllocateAllQuiet(b: Board, phi: seq<int>, bound: int, s: State, h: nat, ids: seq<nat>, plans: seq<Option<Plan>>)
    requires Shape(b, s) && BoardOk(b) && IdsOk(b, ids) && PlansOk(b, plans) && SlowPlans(b, plans)
    requires Potential(b, phi, bound) && Quiet(b, phi, bound, s, h) && h >= 1
    ensures Quiet(b, phi, bound, AllocateAll(b, s, h, ids, plans), h)
  {
    hide Quiet, Allocate, Potential, BoardOk;
    if ids != [] {
      var n := |ids| - 1;
      AllocateAllQuiet(b, phi, bound, s, h, ids[..n], plans);
      AllocateQuiet(b, phi, bound, AllocateAll(b, s, h, ids[..n], plans), h, ids[n], plans[ids[n]]);
    }
  }

  lemma {:induction false} TrimAllQuiet(b: Board, phi: seq<int>, bound: int, s: State, h: nat, list: seq<Overfull>)
    requires Shape(b, s) && ClipsOk(b, list) && |phi| == |b.machines| && Quiet(b, phi, bound, s, h)
    ensures Quiet(b, phi, bound, TrimAll(b, s, list), h)
  {
    hide Quiet;
    if list != [] {
      var n := |list| - 1;
      TrimAllQuiet(b, phi, bound, s, h, list[..n]);
      var t := TrimAll(b, s, list[..n]);
      LessIsQuiet(b, phi, bound, t, Trim(b, t, list[n]), h);
    }
  }

  // ------------------------------------------------------------------
  // Hours and runs
  // ------------------------------------------------------------------

  lemma PositiveRequirement(qty: nat, setting: nat, half: bool)
    requires qty > 0 && setting > 0
    ensures Requirement(qty, setting, half) > 0
  {
    assert qty * setting >= 1;
  }

  lemma PlansAreSlow(b: Board, d: Drive, h: nat)
    requires BoardOk(b) && DriveOk(b, d) && h <= b.horizon && ColdStart(b, d.knobs)
    ensures SlowPlans(b, PlansAt(b, d, h))
  {
    forall i | 0 <= i < |b.machines| && PlansAt(b, d, h)[i].Some? ensures SlowPlan(b, i, PlansAt(b, d, h)[i].value) {
      var m, ri, mods, setting := b.machines[i], d.knobs.recipe[i], d.knobs.mods[i], SettingAt(b, d, i, h);
      assert MachineOk(b, m) && Hungry(b, d.knobs, i);
      var p := PlansAt(b, d, h)[i].value;
      assert PlanOf(b, i, ri, setting, mods) == Some(p);
      if m.kind != Supplier {
        var x :| 0 <= x < |m.recipes[ri].inputs| && m.recipes[ri].inputs[x].qty > 0;
        PositiveRequirement(m.recipes[ri].inputs[x].qty, if setting <= OutputMax(m, mods) then setting else OutputMax(m, mods), mods.halfMaterials);
        assert p.needs[x].amount > 0;
      }
    }
  }

  lemma RestQuiet(b: Board, phi: seq<int>, bound: int, s: State, h: nat, order: seq<nat>, plans: seq<Option<Plan>>)
    requires BoardOk(b) && Shape(b, s) && IdsOk(b, order) && PlansOk(b, plans) && SlowPlans(b, plans)
    requires |phi| == |b.machines| && Potential(b, phi, bound) && Quiet(b, phi, bound, s, h) && h >= 1
    ensures Quiet(b, phi, bound, RestOfHour(b, s, h, order, plans), h)
  {
    hide Quiet, Potential, BoardOk, SettleAll, AllocateAll, TrimAll;
    var s1 := if b.flags.twoHourLate then SettleAll(b, s, order) else s;
    if b.flags.twoHourLate { SettleAllQuiet(b, phi, bound, s, h, order); }
    AllocateAllQuiet(b, phi, bound, s1, h, order, plans);
    var s2 := AllocateAll(b, s1, h, order, plans);
    TrimAllQuiet(b, phi, bound, s2, h, s2.overfull);
    var s3 := TrimAll(b, s2, s2.overfull);
    LessIsQuiet(b, phi, bound, s3, s3.(overfull := []), h);
  }

  lemma HourQuiet(b: Board, d: Drive, phi: seq<int>, bound: int, s: State, h: nat)
    requires BoardOk(b) && DriveOk(b, d) && Shape(b, s) && 1 <= h <= b.horizon && ColdStart(b, d.knobs)
    requires s.overfull == [] && JobsAt(b, s, h - 1, 2) && Punctual(s)
    requires |phi| == |b.machines| && Potential(b, phi, bound) && Quiet(b, phi, bound, s, h - 1)
    ensures Quiet(b, phi, bound, Hour(b, d, s, h), h)
  {
    hide Quiet, Potential, BoardOk, JobsAt, Punctual, ColdStart, AdvanceAll, RestOfHour, OrderNow, TakingPart, PlansAt;
    var plans := PlansAt(b, d, h);
    PlansAtOk(b, d, h);
    PlansAreSlow(b, d, h);
    LaterIsQuiet(b, phi, bound, s, h - 1, h);
    assert s.(overfull := []) == s;
    var ids := TakingPart(b, d, AllIds(|b.machines|), plans);
    EveryoneAdvances(b, d, plans);
    AdvanceAllQuiet(b, phi, bound, s, h, ids);
    var s1 := AdvanceAll(b, s, h, ids);
    RestQuiet(b, phi, bound, s1, h, OrderNow(b, d, s1, h, plans), plans);
  }

  lemma {:induction false} RunQuiet(b: Board, d: Drive, phi: seq<int>, bound: int, h: nat)
    requires BoardOk(b) && DriveOk(b, d) && h <= b.horizon && ColdStart(b, d.knobs) && |phi| == |b.machines| && Potential(b, phi, bound)
    ensures Quiet(b, phi, bound, Run(b, d, h), h)
  {
    hide BoardOk, Hour, Shape, Potential, ColdStart, Quiet, Start, EndJobs, JobsAt, Punctual, PlanlessIdle, PlansAt;
    if h == 0 {
      StartQuiet(b, d.knobs, phi, bound);
    } else {
      RunQuiet(b, d, phi, bound, h - 1);
      RunJobs(b, d, h - 1);
      EndGivesJobs(b, d, Run(b, d, h - 1), h - 1, PlansAt(b, d, h - 1));
      NothingOverfull(b, d, h - 1);
      HourQuiet(b, d, phi, bound, Run(b, d, h - 1), h);
    }
  }

  lemma StartQuiet(b: Board, k: Knobs, phi: seq<int>, bound: int)
    requires BoardOk(b) && KnobsOk(b, k) && ColdStart(b, k) && |phi| == |b.machines|
    ensures Shape(b, Start(b)) && Quiet(b, phi, bound, Start(b), 0)
  {
    StartShape(b);
    forall u, x | 0 <= u < |b.machines| && 0 <= x < b.items ensures LateStock(b, phi, bound, Start(b).buf, 0, u, x) {
      assert b.initial[u][x] == 0;
    }
  }

  // ------------------------------------------------------------------
  // The bound
  // ------------------------------------------------------------------

  /** RAMP-UP over every run, under every flag: no revenue is booked before hour 1 +
      the least lead time of any supplier. */
  lemma NothingSoldBeforeLeadTime(b: Board, d: Drive, h: nat)
    requires BoardOk(b) && DriveOk(b, d) && h <= b.horizon && ColdStart(b, d.knobs)
    requires forall i :: 0 <= i < |b.machines| && b.machines[i].kind == Supplier ==> h < 1 + LeadTimes(b)[i]
    ensures Run(b, d, h).revenue == 0.0
  {
    var lead := LeadTimes(b);
    var phi: seq<int> := seq(|lead|, i requires 0 <= i < |lead| => lead[i]);
    assert Potential(b, phi, h + 1) by {
      forall i | 0 <= i < |phi| && b.machines[i].kind == Seller ensures phi[i] <= b.machines[i].hours {
        LeadTimeIsFastest(b, i);
        assert Chain(b, [i]);
        assert ChainHours(b, [i]) == b.machines[i].hours + ChainHours(b, []);
      }
      forall u, i | 0 <= u < |phi| && 0 <= i < |phi| && Feeds(b, u, i) ensures phi[u] <= b.machines[u].hours + phi[i] {
        LeadTimeStep(b, u, i);
      }
    }
    RunQuiet(b, d, phi, h + 1, h);
  }

  ghost predicate ReachesSeller(b: Board, i: nat)
    requires BoardOk(b)
  {
    exists p :: Chain(b, p) && p[0] == i
  }

  /** Where no supplier reaches a seller, nothing is ever sold. */
  lemma NothingSoldWithoutChain(b: Board, d: Drive, h: nat)
    requires BoardOk(b) && DriveOk(b, d) && h <= b.horizon && ColdStart(b, d.knobs)
    requires forall i :: 0 <= i < |b.machines| && b.machines[i].kind == Supplier ==> !ReachesSeller(b, i)
    ensures Run(b, d, h).revenue == 0.0
  {
    var n := |b.machines|;
    ghost var phi: seq<int> := seq(n, i requires 0 <= i < n => if ReachesSeller(b, i) then 0 else h + 1);
    assert Potential(b, phi, h + 1) by {
      forall i | 0 <= i < n && b.machines[i].kind == Seller ensures phi[i] <= b.machines[i].hours {
        assert Chain(b, [i]);
      }
      forall u, i | 0 <= u < n && 0 <= i < n && Feeds(b, u, i) ensures phi[u] <= b.machines[u].hours + phi[i] {
        if ReachesSeller(b, i) {
          var p :| Chain(b, p) && p[0] == i;
          assert Chain(b, [u] + p);
        }
      }
    }
    RunQuiet(b, d, phi, h + 1, h);
  }
}
