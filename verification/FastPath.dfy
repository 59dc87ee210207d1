/** The optimised run is the plain run: dropping machines without a plan, freezing the
    plans, and drawing from a single source change nothing. */
module FastPath {
  import opened Counting
  import opened Factory
  import opened FactoryHours
  import opened FactoryLaws
  import opened FactoryJobs

  // ------------------------------------------------------------------
  // Single-source draws
  // ------------------------------------------------------------------

  /** Every input has exactly one upstream source. */
  predicate SingleSource(needs: seq<Need>) {
    forall k :: 0 <= k < |needs| ==> |needs[k].sources| == 1
  }

  predicate SimpleCovered(buf: Storage, needs: seq<Need>)
    requires NeedsOk(buf, needs) && SingleSource(needs)
  {
    forall k :: 0 <= k < |needs| ==>
      assert SourcesOk(buf, needs[k].sources, needs[k].item);
      buf[needs[k].sources[0]][needs[k].item] >= needs[k].amount
  }

  /** Subtract each need from its one source. */
  function SimpleDrawAll(buf: Storage, needs: seq<Need>, items: nat): (r: Storage)
    requires Rect(buf, items) && NeedsDistinct(needs, items) && NeedsOk(buf, needs) && SingleSource(needs) && SimpleCovered(buf, needs)
    decreases |needs|
  {
    if needs == [] then buf
    else
      var d := needs[0];
      assert SourcesOk(buf, d.sources, d.item);
      var u := d.sources[0];
      var next := SetSlot(buf, u, d.item, buf[u][d.item] - d.amount);
      SimpleTail(buf, next, needs, items);
      SimpleDrawAll(next, needs[1..], items)
  }

  lemma SimpleTail(buf: Storage, next: Storage, needs: seq<Need>, items: nat)
    requires Rect(buf, items) && NeedsDistinct(needs, items) && NeedsOk(buf, needs) && SingleSource(needs) && SimpleCovered(buf, needs)
    requires needs != [] && |next| == |buf| && (forall m :: 0 <= m < |buf| ==> |next[m]| == |buf[m]|)
    requires forall m, x :: 0 <= m < |buf| && 0 <= x < |buf[m]| && x != needs[0].item ==> next[m][x] == buf[m][x]
    ensures Rect(next, items) && NeedsDistinct(needs[1..], items) && NeedsOk(next, needs[1..])
    ensures SingleSource(needs[1..]) && SimpleCovered(next, needs[1..])
  {
    forall k | 0 <= k < |needs[1..]|
      ensures SourcesOk(next, needs[1..][k].sources, needs[1..][k].item)
      ensures next[needs[1..][k].sources[0]][needs[1..][k].item] >= needs[1..][k].amount
    {
      assert needs[1..][k] == needs[k+1];
      assert SourcesOk(buf, needs[k+1].sources, needs[k+1].item);
      assert needs[0].item != needs[k+1].item;
    }
  }

  lemma OneSource(buf: Storage, d: Need)
    requires SourcesOk(buf, d.sources, d.item) && |d.sources| == 1
    ensures Available(buf, d.sources, d.item) == buf[d.sources[0]][d.item]
    ensures d.amount <= buf[d.sources[0]][d.item] ==>
      Draw(buf, d.sources, d.item, d.amount) == SetSlot(buf, d.sources[0], d.item, buf[d.sources[0]][d.item] - d.amount)
  {
    var u, have := d.sources[0], buf[d.sources[0]][d.item];
    assert d.sources[1..] == [];
    if have == 0 {
      var row: seq<nat> := buf[u][d.item := 0];
      assert row == buf[u];
      assert Draw(buf, [], d.item, d.amount) == buf;
    }
  }

  /** SINGLE SOURCE: the flat check and the flat subtraction are the greedy ones. */
  lemma {:induction false} SimpleIsGreedy(buf: Storage, needs: seq<Need>, items: nat)
    requires Rect(buf, items) && NeedsDistinct(needs, items) && NeedsOk(buf, needs) && SingleSource(needs)
    ensures SimpleCovered(buf, needs) <==> Covered(buf, needs)
    ensures SimpleCovered(buf, needs) ==> SimpleDrawAll(buf, needs, items) == DrawAll(buf, needs)
    decreases |needs|
  {
    forall k | 0 <= k < |needs|
      ensures SourcesOk(buf, needs[k].sources, needs[k].item)
      ensures Available(buf, needs[k].sources, needs[k].item) == buf[needs[k].sources[0]][needs[k].item]
    {
      OneSource(buf, needs[k]);
    }
    if needs != [] && SimpleCovered(buf, needs) {
      var d := needs[0];
      OneSource(buf, d);
      var next := SetSlot(buf, d.sources[0], d.item, buf[d.sources[0]][d.item] - d.amount);
      SimpleTail(buf, next, needs, items);
      SimpleIsGreedy(next, needs[1..], items);
    }
  }

  // ------------------------------------------------------------------
  // Constant settings against a constant matrix
  // ------------------------------------------------------------------

  function ConstantMatrix(b: Board, k: Knobs): (m: seq<seq<int>>)
    requires KnobsOk(b, k)
    ensures |m| == |b.machines| && forall i :: 0 <= i < |m| ==> |m[i]| == b.horizon + 1
  {
    seq(|b.machines|, i requires 0 <= i < |b.machines| => seq(b.horizon + 1, h => k.setting[i]))
  }

  /** Every machine dialled above zero can run. */
  ghost predicate Honest(b: Board, k: Knobs)
    requires BoardOk(b) && KnobsOk(b, k)
  {
    forall i :: 0 <= i < |b.machines| && k.setting[i] > 0 ==>
      assert MachineOk(b, b.machines[i]);
      PlanOf(b, i, k.recipe[i], k.setting[i], k.mods[i]).Some?
  }

  lemma SamePlans(b: Board, k: Knobs, h: nat)
    requires BoardOk(b) && KnobsOk(b, k) && h <= b.horizon
    ensures PlansAt(b, Constant(k), h) == PlansAt(b, Hourly(k, ConstantMatrix(b, k)), h)
  {
    var d, e := Constant(k), Hourly(k, ConstantMatrix(b, k));
    forall i | 0 <= i < |b.machines| ensures SettingAt(b, d, i, h) == SettingAt(b, e, i, h) {
    }
  }

  lemma IdleAdvance(b: Board, s: State, h: nat, i: nat)
    requires Shape(b, s) && i < |b.machines| && IdleJob(s, i)
    ensures Advance(b, s, h, i) == s
  {
  }

  lemma {:induction false} AdvanceWithoutIdle(b: Board, s: State, h: nat, ids: seq<nat>, plans: seq<Option<Plan>>)
    requires Shape(b, s) && IdsOk(b, ids) && Distinct(ids) && |plans| == |b.machines| && h >= 1
    requires JobsAt(b, s, h - 1, 2) && Punctual(s) && forall i :: 0 <= i < |plans| && plans[i].None? ==> IdleJob(s, i)
    ensures IdsOk(b, WithPlan(ids, plans)) && AdvanceAll(b, s, h, WithPlan(ids, plans)) == AdvanceAll(b, s, h, ids)
  {
    hide Advance, JobsAt, Punctual, Shape;
    if ids != [] {
      var n := |ids| - 1;
      AdvanceWithoutIdle(b, s, h, ids[..n], plans);
      var kept := WithPlan(ids[..n], plans);
      if plans[ids[n]].None? {
        AdvanceAllJobs(b, s, h, ids[..n]);
        var t := AdvanceAll(b, s, h, ids[..n]);
        assert ids[n] !in ids[..n];
        assert AdvancedJob(b, s, t, h, ids[n], false);
        IdleAdvance(b, t, h, ids[n]);
      } else {
        assert (kept + [ids[n]])[..|kept|] == kept;
      }
    }
  }

  lemma SettleIdle(b: Board, s: State, i: nat)
    requires Shape(b, s) && BoardOk(b) && i < |b.machines| && !s.awaiting[i]
    ensures Settle(b, s, i) == s
  {
  }

  lemma {:induction false} SettleWithoutIdle(b: Board, s: State, h: nat, ids: seq<nat>, plans: seq<Option<Plan>>)
    requires Shape(b, s) && BoardOk(b) && IdsOk(b, ids) && |plans| == |b.machines| && JobsAt(b, s, h, 1)
    requires forall i :: 0 <= i < |plans| && plans[i].None? ==> IdleJob(s, i)
    ensures IdsOk(b, WithPlan(ids, plans)) && SettleAll(b, s, WithPlan(ids, plans)) == SettleAll(b, s, ids)
  {
    hide Settle, JobsAt, Shape, BoardOk;
    if ids != [] {
      var n := |ids| - 1;
      SettleWithoutIdle(b, s, h, ids[..n], plans);
      var kept := WithPlan(ids[..n], plans);
      if plans[ids[n]].None? {
        SettleAllJobs(b, s, h, ids[..n]);
        var t := SettleAll(b, s, ids[..n]);
        assert SettledJob(b, s, t, h, ids[n], ids[n] in ids[..n]);
        SettleIdle(b, t, ids[n]);
      } else {
        assert (kept + [ids[n]])[..|kept|] == kept;
      }
    }
  }

  lemma AllocateNothing(b: Board, s: State, h: nat, i: nat)
    requires Shape(b, s) && BoardOk(b) && i < |b.machines|
    ensures Allocate(b, s, h, i, None) == s
  {
  }

  lemma {:induction false} AllocateWithoutIdle(b: Board, s: State, h: nat, ids: seq<nat>, plans: seq<Option<Plan>>)
    requires Shape(b, s) && BoardOk(b) && IdsOk(b, ids) && PlansOk(b, plans)
    ensures IdsOk(b, WithPlan(ids, plans)) && AllocateAll(b, s, h, WithPlan(ids, plans), plans) == AllocateAll(b, s, h, ids, plans)
  {
    hide Allocate, Shape, BoardOk;
    if ids != [] {
      var n := |ids| - 1;
      AllocateWithoutIdle(b, s, h, ids[..n], plans);
      var kept := WithPlan(ids[..n], plans);
      if plans[ids[n]].None? {
        AllocateNothing(b, AllocateAll(b, s, h, ids[..n], plans), h, ids[n]);
      } else {
        assert (kept + [ids[n]])[..|kept|] == kept;
      }
    }
  }

  /** Nothing after the deposits depends on machines without a plan being visited. */
  lemma RestWithoutIdle(b: Board, s: State, h: nat, order: seq<nat>, plans: seq<Option<Plan>>)
    requires BoardOk(b) && Shape(b, s) && IdsOk(b, order) && PlansOk(b, plans) && JobsAt(b, s, h, 1)
    requires forall i :: 0 <= i < |plans| && plans[i].None? ==> IdleJob(s, i)
    ensures IdsOk(b, WithPlan(order, plans)) && RestOfHour(b, s, h, WithPlan(order, plans), plans) == RestOfHour(b, s, h, order, plans)
  {
    hide SettleAll, AllocateAll, Shape, BoardOk, JobsAt;
    if b.flags.twoHourLate { SettleWithoutIdle(b, s, h, order, plans); }
    AllocateWithoutIdle(b, if b.flags.twoHourLate then SettleAll(b, s, order) else s, h, order, plans);
  }

  /** Both paths see the same machines live. */
  lemma SameLive(b: Board, k: Knobs, s: State, h: nat)
    requires BoardOk(b) && KnobsOk(b, k) && Shape(b, s) && h <= b.horizon && Honest(b, k)
    ensures var plans := PlansAt(b, Constant(k), h);
      LiveNow(b, Constant(k), s, h, plans) == LiveNow(b, Hourly(k, ConstantMatrix(b, k)), s, h, plans)
  {
    var d, e, plans := Constant(k), Hourly(k, ConstantMatrix(b, k)), PlansAt(b, Constant(k), h);
    forall i | 0 <= i < |b.machines| ensures LiveNow(b, d, s, h, plans)[i] == LiveNow(b, e, s, h, plans)[i] {
      assert MachineOk(b, b.machines[i]);
      assert plans[i] == PlanOf(b, i, k.recipe[i], k.setting[i], k.mods[i]);
      assert ConstantMatrix(b, k)[i][h] == k.setting[i];
    }
  }

  lemma HourIsPlain(b: Board, k: Knobs, s: State, h: nat)
    requires BoardOk(b) && KnobsOk(b, k) && Shape(b, s) && 1 <= h <= b.horizon && (b.flags.recompute ==> Honest(b, k))
    requires s.overfull == [] && EndJobs(b, Constant(k), s, h - 1, PlansAt(b, Constant(k), h))
    ensures Hour(b, Constant(k), s, h) == Hour(b, Hourly(k, ConstantMatrix(b, k)), s, h)
  {
    var d, e := Constant(k), Hourly(k, ConstantMatrix(b, k));
    var plans := PlansAt(b, d, h);
    hide PlansAt, AdvanceAll, RestOfHour, Shape, BoardOk, JobsAt, Punctual, PlanlessIdle, Honest, DynamicOrder, LiveNow;
    SamePlans(b, k, h);
    PlansAtOk(b, d, h);
    assert s.(overfull := []) == s;
    var all := AllIds(|b.machines|);
    EndMeansIdle(b, k, s, h - 1, plans);
    AdvanceWithoutIdle(b, s, h, all, plans);
    var s1 := AdvanceAll(b, s, h, all);
    AdvancePass(b, d, s, h, plans);
    PassMeansIdle(b, k, s1, plans);
    var base := if b.flags.recompute then DynamicOrder(b, LiveNow(b, d, s1, h, plans)) else b.fixedOrder;
    if b.flags.recompute { SameLive(b, k, s1, h); }
    BaseOrderOk(b);
    RestWithoutIdle(b, s1, h, base, plans);
  }

  lemma BaseOrderOk(b: Board)
    requires BoardOk(b)
    ensures IdsOk(b, b.fixedOrder)
  {
  }

  lemma EndMeansIdle(b: Board, k: Knobs, s: State, h: nat, plans: seq<Option<Plan>>)
    requires Shape(b, s) && |plans| == |b.machines| && EndJobs(b, Constant(k), s, h, plans)
    ensures JobsAt(b, s, h, 2) && Punctual(s) && forall i :: 0 <= i < |plans| && plans[i].None? ==> IdleJob(s, i)
  {
  }

  lemma PassMeansIdle(b: Board, k: Knobs, s: State, plans: seq<Option<Plan>>)
    requires Shape(b, s) && |plans| == |b.machines| && PlanlessIdle(b, Constant(k), s, plans)
    ensures forall i :: 0 <= i < |plans| && plans[i].None? ==> IdleJob(s, i)
  {
  }

  /** FAST PATH over every run: constant settings, with plan-less machines dropped and
      plans frozen, give hour by hour the very state of the per-hour path under a
      constant matrix.  Recomputed priorities need every positive dial to be able to run. */
  lemma {:induction false} FastRunIsPlain(b: Board, k: Knobs, h: nat)
    requires BoardOk(b) && KnobsOk(b, k) && h <= b.horizon && (b.flags.recompute ==> Honest(b, k))
    ensures Run(b, Constant(k), h) == Run(b, Hourly(k, ConstantMatrix(b, k)), h)
  {
    hide Hour, Start, BoardOk, Shape, EndJobs, PlansAt, Honest;
    if h > 0 {
      var d := Constant(k);
      FastRunIsPlain(b, k, h - 1);
      RunJobs(b, d, h - 1);
      NothingOverfull(b, d, h - 1);
      OtherPlans(b, d, Run(b, d, h - 1), h - 1, h);
      HourIsPlain(b, k, Run(b, d, h - 1), h);
    }
  }

  lemma {:induction false} FastMoneyIsPlain(b: Board, k: Knobs, h: nat)
    requires BoardOk(b) && KnobsOk(b, k) && h <= b.horizon && (b.flags.recompute ==> Honest(b, k))
    ensures MoneySeries(b, Constant(k), h) == MoneySeries(b, Hourly(k, ConstantMatrix(b, k)), h)
  {
    hide Run, BoardOk, Honest, ConstantMatrix;
    FastRunIsPlain(b, k, h);
    if h > 0 { FastMoneyIsPlain(b, k, h - 1); }
  }
}
