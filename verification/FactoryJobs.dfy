/** Laws of every run: jobs keep their time and deliver on time. */
module FactoryJobs {
  import opened Counting
  import opened Factory
  import opened FactoryHours

  // ------------------------------------------------------------------
  // The job invariant
  // ------------------------------------------------------------------

  /** The pending job of machine i in hour h: units are pending exactly while
      hours remain, the remaining hours follow from the starting hour, and a job
      whose inputs are not yet taken is a two-hour job with `left` hours to go. */
  ghost predicate JobAt(b: Board, s: State, i: nat, h: nat, left: nat)
    requires Shape(b, s) && i < |b.machines|
  {
    && (s.units[i] > 0 <==> s.rem[i] > 0)
    && (s.units[i] > 0 ==> s.job[i].Some? && s.started[i] <= h && s.started[i] + s.job[i].value.hours == h + s.rem[i])
    && (s.awaiting[i] ==> b.flags.twoHourLate && s.units[i] > 0 && s.rem[i] == left && s.job[i].value.hours == 2)
  }

  ghost predicate JobsAt(b: Board, s: State, h: nat, left: nat)
    requires Shape(b, s)
  {
    forall i :: 0 <= i < |b.machines| ==> JobAt(b, s, i, h, left)
  }

  /** Every delivery came exactly its production hours after its start. */
  ghost predicate Punctual(s: State) {
    forall k :: 0 <= k < |s.delivered| ==> s.delivered[k].hour == s.delivered[k].started + s.delivered[k].hours
  }

  ghost predicate SameJob(s: State, t: State, j: nat)
    requires j < |s.units| == |s.rem| == |s.job| == |s.awaiting| == |s.started|
    requires j < |t.units| == |t.rem| == |t.job| == |t.awaiting| == |t.started|
  {
    t.units[j] == s.units[j] && t.rem[j] == s.rem[j] && t.job[j] == s.job[j] && t.awaiting[j] == s.awaiting[j] && t.started[j] == s.started[j]
  }

  ghost predicate IdleJob(s: State, i: nat)
    requires i < |s.units| == |s.rem| == |s.awaiting|
  {
    s.units[i] == 0 && s.rem[i] == 0 && !s.awaiting[i]
  }

  lemma DeliverJob(b: Board, s: State, h: nat, i: nat)
    requires Shape(b, s) && i < |b.machines| && s.units[i] > 0
    ensures s.job[i].Some?
    ensures var r, p := Deliver(b, s, h, i), s.job[i].value;
      && r.units == s.units[i := 0] && r.rem == s.rem && r.job == s.job && r.awaiting == s.awaiting && r.started == s.started
      && r.delivered == s.delivered + [Delivery(i, p.kind, s.started[i], p.hours, h, s.units[i])]
  {
    assert JobOk(b, i, s.units[i], s.awaiting[i], s.job[i]);
  }

  lemma AdvanceJob(b: Board, s: State, h: nat, i: nat)
    requires Shape(b, s) && i < |b.machines| && h >= 1 && JobAt(b, s, i, h - 1, 2) && Punctual(s)
    ensures var r := Advance(b, s, h, i);
      JobAt(b, r, i, h, 1) && Punctual(r) && (IdleJob(s, i) ==> IdleJob(r, i))
    ensures forall j :: 0 <= j < |b.machines| && j != i ==> SameJob(s, Advance(b, s, h, i), j)
  {
    var t := Tick(s, i);
    if t.rem[i] == 0 && t.units[i] > 0 {
      DeliverJob(b, t, h, i);
      hide Deliver, Shape;
    }
  }

  /** What the first pass does to the job of machine j when it visits it or not. */
  ghost predicate AdvancedJob(b: Board, s: State, r: State, h: nat, j: nat, visited: bool)
    requires Shape(b, s) && Shape(b, r) && j < |b.machines|
  {
    if visited then JobAt(b, r, j, h, 1) && (IdleJob(s, j) ==> IdleJob(r, j)) else SameJob(s, r, j)
  }

  lemma AdvanceStep(b: Board, s: State, t: State, h: nat, i: nat)
    requires Shape(b, s) && Shape(b, t) && i < |b.machines| && h >= 1 && JobAt(b, s, i, h - 1, 2) && Punctual(t) && AdvancedJob(b, s, t, h, i, false)
    ensures AdvancedJob(b, s, Advance(b, t, h, i), h, i, true) && Punctual(Advance(b, t, h, i))
    ensures forall j :: 0 <= j < |b.machines| && j != i ==> SameJob(t, Advance(b, t, h, i), j)
  {
    hide Advance;
    AdvanceJob(b, t, h, i);
  }

  lemma AdvancedCarries(b: Board, s: State, t: State, r: State, h: nat, j: nat, visited: bool)
    requires Shape(b, s) && Shape(b, t) && Shape(b, r) && j < |b.machines| && AdvancedJob(b, s, t, h, j, visited) && SameJob(t, r, j)
    ensures AdvancedJob(b, s, r, h, j, visited)
  {
  }

  lemma {:induction false} AdvanceAllJobs(b: Board, s: State, h: nat, ids: seq<nat>)
    requires Shape(b, s) && IdsOk(b, ids) && Distinct(ids) && h >= 1 && JobsAt(b, s, h - 1, 2) && Punctual(s)
    ensures Punctual(AdvanceAll(b, s, h, ids))
    ensures forall j :: 0 <= j < |b.machines| ==> AdvancedJob(b, s, AdvanceAll(b, s, h, ids), h, j, j in ids)
  {
    if ids != [] {
      var n := |ids| - 1;
      AdvanceAllJobs(b, s, h, ids[..n]);
      var t := AdvanceAll(b, s, h, ids[..n]);
      assert ids[n] !in ids[..n];
      assert AdvancedJob(b, s, t, h, ids[n], false);
      AdvanceStep(b, s, t, h, ids[n]);
      hide Advance, Shape, JobAt, Punctual;
      forall j | 0 <= j < |b.machines|
        ensures AdvancedJob(b, s, Advance(b, t, h, ids[n]), h, j, j in ids)
      {
        assert j in ids <==> j in ids[..n] || j == ids[n];
        if j != ids[n] {
          assert AdvancedJob(b, s, t, h, j, j in ids[..n]);
          AdvancedCarries(b, s, t, Advance(b, t, h, ids[n]), h, j, j in ids[..n]);
        }
      }
    }
  }

  lemma SettleJob(b: Board, s: State, h: nat, i: nat)
    requires Shape(b, s) && BoardOk(b) && i < |b.machines| && JobAt(b, s, i, h, 1)
    ensures var r := Settle(b, s, i);
      JobAt(b, r, i, h, 2) && !r.awaiting[i] && r.delivered == s.delivered && (IdleJob(s, i) ==> IdleJob(r, i))
    ensures forall j :: 0 <= j < |b.machines| && j != i ==> SameJob(s, Settle(b, s, i), j)
  {
  }

  /** What the deferred pass does to the job of machine j when it visits it or not. */
  ghost predicate SettledJob(b: Board, s: State, r: State, h: nat, j: nat, visited: bool)
    requires Shape(b, s) && Shape(b, r) && j < |b.machines|
  {
    if visited then JobAt(b, r, j, h, 2) && !r.awaiting[j] && (IdleJob(s, j) ==> IdleJob(r, j)) else SameJob(s, r, j)
  }

  lemma SettleStep(b: Board, s: State, t: State, h: nat, i: nat, visited: bool)
    requires Shape(b, s) && Shape(b, t) && BoardOk(b) && i < |b.machines| && JobAt(b, s, i, h, 1) && SettledJob(b, s, t, h, i, visited)
    ensures SettledJob(b, s, Settle(b, t, i), h, i, true) && Settle(b, t, i).delivered == t.delivered
    ensures forall j :: 0 <= j < |b.machines| && j != i ==> SameJob(t, Settle(b, t, i), j)
  {
    if !visited { SettleJob(b, t, h, i); }
  }

  /** After the deferred pass, every machine it visited has settled. */
  lemma {:induction false} SettleAllJobs(b: Board, s: State, h: nat, ids: seq<nat>)
    requires Shape(b, s) && BoardOk(b) && IdsOk(b, ids) && JobsAt(b, s, h, 1)
    ensures SettleAll(b, s, ids).delivered == s.delivered
    ensures forall j :: 0 <= j < |b.machines| ==> SettledJob(b, s, SettleAll(b, s, ids), h, j, j in ids)
  {
    if ids != [] {
      var n := |ids| - 1;
      SettleAllJobs(b, s, h, ids[..n]);
      var t := SettleAll(b, s, ids[..n]);
      SettleStep(b, s, t, h, ids[n], ids[n] in ids[..n]);
      hide Settle, Shape, BoardOk, JobAt;
      forall j | 0 <= j < |b.machines|
        ensures SettledJob(b, s, Settle(b, t, ids[n]), h, j, j in ids)
      {
        assert j in ids <==> j in ids[..n] || j == ids[n];
        if j != ids[n] {
          assert SettledJob(b, s, t, h, j, j in ids[..n]);
          assert SameJob(t, Settle(b, t, ids[n]), j);
          SettledCarries(b, s, t, Settle(b, t, ids[n]), h, j, j in ids[..n]);
        }
      }
    }
  }

  lemma SettledCarries(b: Board, s: State, t: State, r: State, h: nat, j: nat, visited: bool)
    requires Shape(b, s) && Shape(b, t) && Shape(b, r) && j < |b.machines| && SettledJob(b, s, t, h, j, visited) && SameJob(t, r, j)
    ensures SettledJob(b, s, r, h, j, visited)
  {
  }

  /** A step that leaves machine i with a sound job and every other machine's job alone. */
  ghost predicate OneJobMoves(b: Board, s: State, r: State, h: nat, i: nat)
    requires Shape(b, s) && Shape(b, r) && i < |b.machines|
  {
    JobAt(b, r, i, h, 2) && r.delivered == s.delivered && forall j :: 0 <= j < |b.machines| && j != i ==> SameJob(s, r, j)
  }

  lemma BeginJob(b: Board, s: State, t: State, h: nat, i: nat, p: Plan, units: nat)
    requires Shape(b, s) && Shape(b, t) && i < |b.machines| && PlanFits(b, i, p) && units > 0 && !t.awaiting[i]
    requires t.units == s.units && t.rem == s.rem && t.job == s.job && t.awaiting == s.awaiting && t.started == s.started && t.delivered == s.delivered
    ensures OneJobMoves(b, s, Begin(b, t, h, i, p, units, p.hours), h, i)
  {
  }

  lemma OrderJob(b: Board, s: State, h: nat, i: nat, p: Plan)
    requires Shape(b, s) && i < |b.machines| && PlanFits(b, i, p) && p.units > 0 && IdleJob(s, i)
    ensures OneJobMoves(b, s, Order(b, s, h, i, p), h, i)
  {
    hide Begin, OneJobMoves, Shape, Amount, PlanFits, Affordable;
    var price := p.recipe.purchaseCost;
    SkipJob(b, s, h, i);
    BeginJob(b, s, Bill(b, s, i, Amount(p.units, price)), h, i, p, p.units);
    if b.flags.partialFunds && price > 0.0 {
      var afford := Affordable(s.money, price);
      if 0 < afford < p.units { BeginJob(b, s, Bill(b, s, i, Amount(afford, price)), h, i, p, afford); }
    }
  }

  lemma SkipJob(b: Board, s: State, h: nat, i: nat)
    requires Shape(b, s) && i < |b.machines| && JobAt(b, s, i, h, 2)
    ensures OneJobMoves(b, s, Skip(b, s, i), h, i) && OneJobMoves(b, s, s, h, i)
  {
  }

  lemma ReserveJob(b: Board, s: State, h: nat, i: nat, p: Plan)
    requires Shape(b, s) && i < |b.machines| && PlanFits(b, i, p) && p.units > 0 && IdleJob(s, i) && b.flags.twoHourLate && p.hours == 2
    ensures var t := Begin(b, s, h, i, p, p.units, 2); var u := t.(awaiting := t.awaiting[i := true]);
      Shape(b, u) && OneJobMoves(b, s, u, h, i)
  {
  }

  lemma ProduceJob(b: Board, s: State, h: nat, i: nat, p: Plan)
    requires Shape(b, s) && BoardOk(b) && i < |b.machines| && PlanFits(b, i, p) && p.units > 0 && IdleJob(s, i)
    ensures OneJobMoves(b, s, Produce(b, s, h, i, p), h, i)
  {
    NeedsInRange(b, s, i, p);
    SkipJob(b, s, h, i);
    hide Begin, OneJobMoves, Shape, Amount, PlanFits, BoardOk, DrawAll, Tally, Covered;
    if b.flags.twoHourLate && p.hours == 2 {
      ReserveJob(b, s, h, i, p);
    } else {
      BeginJob(b, s, Consume(b, s, i, p, p.units), h, i, p, p.units);
    }
  }

  lemma AllocateJob(b: Board, s: State, h: nat, i: nat, plan: Option<Plan>)
    requires Shape(b, s) && BoardOk(b) && i < |b.machines| && (plan.Some? ==> PlanFits(b, i, plan.value)) && JobAt(b, s, i, h, 2)
    ensures OneJobMoves(b, s, Allocate(b, s, h, i, plan), h, i)
    ensures plan.None? ==> Allocate(b, s, h, i, plan) == s
  {
    SkipJob(b, s, h, i);
    if s.rem[i] == 0 && s.units[i] == 0 && plan.Some? && plan.value.units > 0 {
      hide Order, Produce, OneJobMoves, Shape, BoardOk, PlanFits;
      OrderJob(b, s, h, i, plan.value);
      ProduceJob(b, s, h, i, plan.value);
    }
  }

  lemma {:induction false} AllocateAllJobs(b: Board, s: State, h: nat, ids: seq<nat>, plans: seq<Option<Plan>>)
    requires Shape(b, s) && BoardOk(b) && IdsOk(b, ids) && PlansOk(b, plans) && JobsAt(b, s, h, 2)
    ensures var r := AllocateAll(b, s, h, ids, plans);
      JobsAt(b, r, h, 2) && r.delivered == s.delivered && forall j :: 0 <= j < |b.machines| && plans[j].None? ==> SameJob(s, r, j)
  {
    if ids != [] {
      var n := |ids| - 1;
      AllocateAllJobs(b, s, h, ids[..n], plans);
      var t := AllocateAll(b, s, h, ids[..n], plans);
      AllocateJob(b, t, h, ids[n], plans[ids[n]]);
      hide Allocate;
      forall j | 0 <= j < |b.machines|
        ensures JobAt(b, Allocate(b, t, h, ids[n], plans[ids[n]]), j, h, 2)
        ensures plans[j].None? ==> SameJob(s, Allocate(b, t, h, ids[n], plans[ids[n]]), j)
      {
        assert JobAt(b, t, j, h, 2);
        if j != ids[n] { assert SameJob(t, Allocate(b, t, h, ids[n], plans[ids[n]]), j); }
      }
    }
  }

  lemma {:induction false} TrimAllJobs(b: Board, s: State, list: seq<Overfull>)
    requires Shape(b, s) && ClipsOk(b, list)
    ensures var r := TrimAll(b, s, list);
      r.units == s.units && r.rem == s.rem && r.job == s.job && r.awaiting == s.awaiting && r.started == s.started
      && r.delivered == s.delivered && r.due == s.due && r.money == s.money && r.overfull == s.overfull
  {
    if list != [] { TrimAllJobs(b, s, list[..|list|-1]); }
  }

  // ------------------------------------------------------------------
  // Constant settings: a machine without a plan never acts
  // ------------------------------------------------------------------

  /** Under constant settings the planless machines are idle. */
  ghost predicate PlanlessIdle(b: Board, d: Drive, s: State, plans: seq<Option<Plan>>)
    requires Shape(b, s) && |plans| == |b.machines|
  {
    d.Constant? ==> forall i :: 0 <= i < |b.machines| && plans[i].None? ==> IdleJob(s, i)
  }

  lemma {:induction false} WithPlanMember(ids: seq<nat>, plans: seq<Option<Plan>>, i: nat)
    requires forall k :: 0 <= k < |ids| ==> ids[k] < |plans|
    ensures i in WithPlan(ids, plans) <==> i in ids && i < |plans| && plans[i].Some?
  {
    if ids != [] {
      WithPlanMember(ids[..|ids|-1], plans, i);
      assert ids == ids[..|ids|-1] + [ids[|ids|-1]];
    }
  }

  lemma {:induction false} WithPlanDistinct(ids: seq<nat>, plans: seq<Option<Plan>>)
    requires Distinct(ids) && forall k :: 0 <= k < |ids| ==> ids[k] < |plans|
    ensures Distinct(WithPlan(ids, plans))
  {
    if ids != [] {
      var n := |ids| - 1;
      WithPlanDistinct(ids[..n], plans);
      WithPlanMember(ids[..n], plans, ids[n]);
      assert ids[n] !in ids[..n];
      var r := WithPlan(ids[..n], plans);
      assert forall k :: 0 <= k < |r| ==> r[k] in r;
    }
  }

  lemma TakingPartMember(b: Board, d: Drive, ids: seq<nat>, plans: seq<Option<Plan>>, i: nat)
    requires IdsOk(b, ids) && |plans| == |b.machines| && i < |b.machines|
    ensures i in TakingPart(b, d, ids, plans) <==> i in ids && (d.Constant? ==> plans[i].Some?)
  {
    WithPlanMember(ids, plans, i);
  }

  lemma EveryoneAdvances(b: Board, d: Drive, plans: seq<Option<Plan>>)
    requires |plans| == |b.machines|
    ensures var ids := TakingPart(b, d, AllIds(|b.machines|), plans);
      Distinct(ids) && forall i :: 0 <= i < |b.machines| ==> (i in ids <==> (d.Constant? ==> plans[i].Some?))
  {
    var all := AllIds(|b.machines|);
    WithPlanDistinct(all, plans);
    forall i | 0 <= i < |b.machines| ensures i in TakingPart(b, d, all, plans) <==> (d.Constant? ==> plans[i].Some?) {
      assert all[i] == i;
      TakingPartMember(b, d, all, plans, i);
    }
  }

  lemma EveryoneOrdered(b: Board, d: Drive, s: State, h: nat, plans: seq<Option<Plan>>)
    requires BoardOk(b) && DriveOk(b, d) && Shape(b, s) && h <= b.horizon && |plans| == |b.machines|
    ensures forall i :: 0 <= i < |b.machines| ==> (i in OrderNow(b, d, s, h, plans) <==> (d.Constant? ==> plans[i].Some?))
  {
    var base := if b.flags.recompute then DynamicOrder(b, LiveNow(b, d, s, h, plans)) else b.fixedOrder;
    forall i | 0 <= i < |b.machines| ensures i in OrderNow(b, d, s, h, plans) <==> (d.Constant? ==> plans[i].Some?) {
      assert i in base;
      TakingPartMember(b, d, base, plans, i);
    }
  }

  /** What holds at every hour's end. */
  ghost predicate EndJobs(b: Board, d: Drive, s: State, h: nat, plans: seq<Option<Plan>>)
    requires Shape(b, s) && |plans| == |b.machines|
  {
    JobsAt(b, s, h, 2) && Punctual(s) && PlanlessIdle(b, d, s, plans)
  }

  lemma AdvancePass(b: Board, d: Drive, s: State, h: nat, plans: seq<Option<Plan>>)
    requires BoardOk(b) && Shape(b, s) && h >= 1 && |plans| == |b.machines| && EndJobs(b, d, s, h - 1, plans)
    ensures var r := AdvanceAll(b, s, h, TakingPart(b, d, AllIds(|b.machines|), plans));
      JobsAt(b, r, h, 1) && Punctual(r) && PlanlessIdle(b, d, r, plans)
  {
    var ids := TakingPart(b, d, AllIds(|b.machines|), plans);
    EveryoneAdvances(b, d, plans);
    AdvanceAllJobs(b, s, h, ids);
    var r := AdvanceAll(b, s, h, ids);
    forall i | 0 <= i < |b.machines|
      ensures JobAt(b, r, i, h, 1) && (d.Constant? && plans[i].None? ==> IdleJob(r, i))
    {
      assert AdvancedJob(b, s, r, h, i, i in ids);
      if i !in ids { assert IdleJob(s, i); }
    }
  }

  lemma RestPass(b: Board, d: Drive, s: State, h: nat, order: seq<nat>, plans: seq<Option<Plan>>)
    requires BoardOk(b) && Shape(b, s) && IdsOk(b, order) && PlansOk(b, plans)
    requires JobsAt(b, s, h, 1) && Punctual(s) && PlanlessIdle(b, d, s, plans)
    requires forall i :: 0 <= i < |b.machines| ==> (i in order <==> (d.Constant? ==> plans[i].Some?))
    ensures EndJobs(b, d, RestOfHour(b, s, h, order, plans), h, plans)
  {
    var s1 := if b.flags.twoHourLate then SettleAll(b, s, order) else s;
    if b.flags.twoHourLate { SettleAllJobs(b, s, h, order); }
    forall i | 0 <= i < |b.machines|
      ensures JobAt(b, s1, i, h, 2) && (d.Constant? && plans[i].None? ==> IdleJob(s1, i))
    {
      assert JobAt(b, s, i, h, 1);
      if b.flags.twoHourLate {
        assert SettledJob(b, s, s1, h, i, i in order);
        if i !in order { assert IdleJob(s, i); }
      }
    }
    AllocateAllJobs(b, s1, h, order, plans);
    var s2 := AllocateAll(b, s1, h, order, plans);
    TrimAllJobs(b, s2, s2.overfull);
    AfterTrim(b, d, s1, s2, TrimAll(b, s2, s2.overfull).(overfull := []), h, plans);
  }

  lemma AfterTrim(b: Board, d: Drive, s1: State, s2: State, r: State, h: nat, plans: seq<Option<Plan>>)
    requires Shape(b, s1) && Shape(b, s2) && Shape(b, r) && |plans| == |b.machines|
    requires JobsAt(b, s2, h, 2) && Punctual(s1) && PlanlessIdle(b, d, s1, plans) && s2.delivered == s1.delivered
    requires forall j :: 0 <= j < |b.machines| && plans[j].None? ==> SameJob(s1, s2, j)
    requires r.units == s2.units && r.rem == s2.rem && r.job == s2.job && r.awaiting == s2.awaiting && r.started == s2.started && r.delivered == s2.delivered
    ensures EndJobs(b, d, r, h, plans)
  {
    forall i | 0 <= i < |b.machines|
      ensures JobAt(b, r, i, h, 2) && (d.Constant? && plans[i].None? ==> IdleJob(r, i))
    {
      assert JobAt(b, s2, i, h, 2);
      if d.Constant? && plans[i].None? { assert SameJob(s1, s2, i) && IdleJob(s1, i); }
    }
  }

  lemma HourJobs(b: Board, d: Drive, s: State, h: nat)
    requires BoardOk(b) && DriveOk(b, d) && Shape(b, s) && 1 <= h <= b.horizon
    requires s.overfull == [] && EndJobs(b, d, s, h - 1, PlansAt(b, d, h))
    ensures EndJobs(b, d, Hour(b, d, s, h), h, PlansAt(b, d, h))
  {
    hide EndJobs, JobsAt, Shape, AdvanceAll, RestOfHour, PlanlessIdle, Punctual;
    var plans := PlansAt(b, d, h);
    PlansAtOk(b, d, h);
    assert s.(overfull := []) == s;
    AdvancePass(b, d, s, h, plans);
    var s1 := AdvanceAll(b, s, h, TakingPart(b, d, AllIds(|b.machines|), plans));
    EveryoneOrdered(b, d, s1, h, plans);
    RestPass(b, d, s1, h, OrderNow(b, d, s1, h, plans), plans);
  }

  lemma ConstantPlans(b: Board, d: Drive, h: nat, g: nat)
    requires BoardOk(b) && DriveOk(b, d) && h <= b.horizon && g <= b.horizon && d.Constant?
    ensures PlansAt(b, d, h) == PlansAt(b, d, g)
  {
  }

  lemma OtherPlans(b: Board, d: Drive, s: State, h: nat, g: nat)
    requires BoardOk(b) && DriveOk(b, d) && Shape(b, s) && h <= b.horizon && g <= b.horizon && EndJobs(b, d, s, h, PlansAt(b, d, h))
    ensures EndJobs(b, d, s, h, PlansAt(b, d, g))
  {
    if d.Constant? { ConstantPlans(b, d, h, g); }
  }

  lemma NothingOverfull(b: Board, d: Drive, h: nat)
    requires BoardOk(b) && DriveOk(b, d) && h <= b.horizon
    ensures Run(b, d, h).overfull == []
  {
  }

  lemma {:induction false} RunJobs(b: Board, d: Drive, h: nat)
    requires BoardOk(b) && DriveOk(b, d) && h <= b.horizon
    ensures EndJobs(b, d, Run(b, d, h), h, PlansAt(b, d, h))
  {
    hide EndJobs, Hour, Start, Shape, BoardOk, PlansAt;
    if h == 0 {
      StartJobs(b, d);
    } else {
      RunJobs(b, d, h - 1);
      NothingOverfull(b, d, h - 1);
      OtherPlans(b, d, Run(b, d, h - 1), h - 1, h);
      HourJobs(b, d, Run(b, d, h - 1), h);
    }
  }

  lemma StartJobs(b: Board, d: Drive)
    requires BoardOk(b) && DriveOk(b, d)
    ensures Shape(b, Start(b)) && EndJobs(b, d, Start(b), 0, PlansAt(b, d, 0))
  {
  }

  lemma EndGivesJobs(b: Board, d: Drive, s: State, h: nat, plans: seq<Option<Plan>>)
    requires Shape(b, s) && |plans| == |b.machines| && EndJobs(b, d, s, h, plans)
    ensures JobsAt(b, s, h, 2) && Punctual(s)
  {
  }

  /** JOBS over every run, at every hour's end: units are pending exactly while
      hours remain; a job reserved for late consumption has exactly two hours
      left; and the remaining hours are the production hours less the hours
      since the start. */
  lemma JobInvariant(b: Board, d: Drive, h: nat, i: nat)
    requires BoardOk(b) && DriveOk(b, d) && h <= b.horizon && i < |b.machines|
    ensures var s := Run(b, d, h); s.units[i] > 0 <==> s.rem[i] > 0
    ensures var s := Run(b, d, h); s.awaiting[i] ==> s.rem[i] == 2
    ensures var s := Run(b, d, h); s.units[i] > 0 ==> s.job[i].Some? && s.started[i] + s.job[i].value.hours == h + s.rem[i]
  {
    RunJobs(b, d, h);
    assert JobAt(b, Run(b, d, h), i, h, 2);
  }

  /** Every deposit of every run comes exactly its production hours after its start. */
  lemma DeliveriesArePunctual(b: Board, d: Drive, h: nat, k: nat)
    requires BoardOk(b) && DriveOk(b, d) && h <= b.horizon && k < |Run(b, d, h).delivered|
    ensures var e := Run(b, d, h).delivered[k]; e.hour == e.started + e.hours
  {
    RunJobs(b, d, h);
  }
}
