/** The simulator as it runs: one object whose fields the hour loop updates in place,
    with the memoised plans and the single-source fast path. */
module Simulation {
  import opened Counting
  import opened Factory
  import opened FactoryHours
  import opened FactoryLaws
  import opened FactoryJobs
  import opened Relaxation
  import opened FastPath

  const CACHE_LIMIT := 200000

  type PlanKey = (nat, int, int, Mods)

  class Simulator {
    const b: Board
    var cache: map<PlanKey, Option<Plan>>
    var buf: Storage
    var units: seq<nat>
    var rem: seq<nat>
    var job: seq<Option<Plan>>
    var due: seq<real>
    var awaiting: seq<bool>
    var money: real
    var revenue: real
    var cost: real
    var skipped: set<nat>
    var overfull: seq<Overfull>
    ghost var started: seq<nat>
    ghost var consumed: seq<nat>
    ghost var deposits: seq<nat>
    ghost var destroyed: seq<nat>
    ghost var delivered: seq<Delivery>

    ghost function View(): State
      reads this
    {
      State(buf, units, rem, job, due, awaiting, started, money, revenue, cost, skipped, overfull,
            consumed, deposits, destroyed, delivered)
    }

    ghost predicate Valid()
      reads this
    {
      BoardOk(b) && Shape(b, View())
    }

    /** Every memoised plan is the plan. */
    ghost predicate CacheOk()
      reads this`cache
    {
      BoardOk(b) && forall key :: key in cache ==> KeyOk(key) && cache[key] == PlanOf(b, key.0, key.1, key.2, key.3)
    }

    ghost predicate KeyOk(key: PlanKey) {
      key.0 < |b.machines| && |b.machines[key.0].modCosts| == 4
    }

    constructor (board: Board)
      requires BoardOk(board)
      ensures b == board && Valid() && CacheOk() && View() == Start(board)
    {
      StartShape(board);
      var n := |board.machines|;
      b, cache := board, map[];
      buf, units, rem, job := board.initial, seq(n, i => 0), seq(n, i => 0), seq(n, i => None);
      due, awaiting := seq(n, i => 0.0), seq(n, i => false);
      money, revenue, cost, skipped, overfull := board.startingMoney, 0.0, 0.0, {}, [];
      started, consumed, deposits, destroyed, delivered :=
        seq(n, i => 0), seq(board.items, x => 0), seq(board.items, x => 0), seq(board.items, x => 0), [];
    }

    // ----------------------------------------------------------------
    // Plans
    // ----------------------------------------------------------------

    /** MEMOISATION: the cached answer, or a fresh one that is then cached. */
    method PlanFor(i: nat, ri: int, setting: int, mods: Mods) returns (p: Option<Plan>)
      requires CacheOk() && i < |b.machines|
      modifies `cache
      ensures CacheOk() && |b.machines[i].modCosts| == 4 && p == PlanOf(b, i, ri, setting, mods)
    {
      assert MachineOk(b, b.machines[i]);
      var key := (i, ri, setting, mods);
      if key in cache { return cache[key]; }
      if |cache| > CACHE_LIMIT { cache := map[]; }
      p := PlanOf(b, i, ri, setting, mods);
      cache := cache[key := p];
    }

    method AllPlans(k: Knobs) returns (plans: seq<Option<Plan>>)
      requires CacheOk() && KnobsOk(b, k)
      modifies `cache
      ensures CacheOk() && forall h :: 0 <= h <= b.horizon ==> plans == PlansAt(b, Constant(k), h)
    {
      plans := [];
      for i := 0 to |b.machines|
        invariant CacheOk() && |plans| == i
        invariant forall j :: 0 <= j < i ==> |b.machines[j].modCosts| == 4 && plans[j] == PlanOf(b, j, k.recipe[j], k.setting[j], k.mods[j])
      {
        var p := PlanFor(i, k.recipe[i], k.setting[i], k.mods[i]);
        plans := plans + [p];
      }
    }

    // ----------------------------------------------------------------
    // Advance and deposit
    // ----------------------------------------------------------------

    method StockOutput(i: nat, item: nat, cap: nat, made: nat)
      requires Valid() && i < |b.machines| && item < b.items
      modifies `buf, `overfull, `deposits, `destroyed
      ensures Valid() && View() == Stock(b, old(View()), i, item, cap, made)
    {
      var now := buf[i][item] + made;
      deposits := deposits[item := deposits[item] + made];
      if b.flags.clipBeforePull && now > cap {
        destroyed := destroyed[item := destroyed[item] + (now - cap)];
        now := cap;
      } else if now > cap {
        overfull := overfull + [Overfull(i, item, cap)];
      }
      buf := SetSlot(buf, i, item, now);
    }

    method BookOutput(i: nat, p: Plan, made: nat)
      requires Valid() && i < |b.machines| && PlanFits(b, i, p)
      modifies `buf, `money, `revenue, `overfull, `deposits, `destroyed
      ensures Valid() && View() == HandOver(b, old(View()), i, p, made)
    {
      if p.kind == Seller {
        money := money + Amount(made, p.recipe.salePrice);
        revenue := revenue + Amount(made, p.recipe.salePrice);
      } else if p.recipe.output.Some? {
        StockOutput(i, p.recipe.output.value, p.cap, made);
      }
    }

    method DeliverJob(h: nat, i: nat)
      requires Valid() && i < |b.machines| && units[i] > 0
      modifies `buf, `units, `due, `money, `revenue, `cost, `overfull, `deposits, `destroyed, `delivered
      ensures Valid() && View() == Deliver(b, old(View()), h, i)
    {
      assert JobOk(b, i, units[i], awaiting[i], job[i]);
      var made, p := units[i], job[i].value;
      delivered := delivered + [Delivery(i, p.kind, started[i], p.hours, h, made)];
      units := units[i := 0];
      BookOutput(i, p, made);
      hide HandOver;
      ChargeDue(i);
    }

    /** Pay what was put off until delivery. */
    method ChargeDue(i: nat)
      requires i < |due|
      modifies `due, `money, `cost
      ensures due == old(due)[i := 0.0] && money == old(money) - old(due[i]) && cost == old(cost) + old(due[i])
    {
      if due[i] != 0.0 {
        money := money - due[i];
        cost := cost + due[i];
        due := due[i := 0.0];
      }
    }

    method AdvanceMachines(h: nat, ids: seq<nat>)
      requires Valid() && IdsOk(b, ids)
      modifies `buf, `units, `rem, `due, `money, `revenue, `cost, `overfull, `deposits, `destroyed, `delivered
      ensures Valid() && View() == AdvanceAll(b, old(View()), h, ids)
    {
      ghost var s := View();
      for k := 0 to |ids|
        invariant Valid() && View() == AdvanceAll(b, s, h, ids[..k])
      {
        assert ids[..k+1][..k] == ids[..k];
        AdvanceMachine(h, ids[k]);
      }
      assert ids[..|ids|] == ids;
    }

    method AdvanceMachine(h: nat, i: nat)
      requires Valid() && i < |b.machines|
      modifies `buf, `units, `rem, `due, `money, `revenue, `cost, `overfull, `deposits, `destroyed, `delivered
      ensures Valid() && View() == Advance(b, old(View()), h, i)
    {
      if rem[i] > 0 { rem := rem[i := rem[i] - 1]; }
      if rem[i] == 0 && units[i] > 0 { DeliverJob(h, i); }
    }

    // ----------------------------------------------------------------
    // Inputs
    // ----------------------------------------------------------------

    method AvailableNow(sources: seq<nat>, item: nat) returns (avail: nat)
      requires SourcesOk(buf, sources, item)
      ensures avail == Available(buf, sources, item)
    {
      avail := 0;
      for k := 0 to |sources|
        invariant avail + Available(buf, sources[k..], item) == Available(buf, sources, item)
      {
        assert sources[k..][0] == sources[k] && sources[k..][1..] == sources[k+1..];
        avail := avail + buf[sources[k]][item];
      }
    }

    method InputsReady(needs: seq<Need>) returns (ok: bool)
      requires NeedsOk(buf, needs)
      ensures ok == Covered(buf, needs)
    {
      for k := 0 to |needs|
        invariant forall l :: 0 <= l < k ==> Available(buf, needs[l].sources, needs[l].item) >= needs[l].amount
      {
        var avail := AvailableNow(needs[k].sources, needs[k].item);
        if avail < needs[k].amount { return false; }
      }
      return true;
    }

    /** GREEDY DRAW, in edge order. */
    method DrawNeed(sources: seq<nat>, item: nat, need: nat)
      requires SourcesOk(buf, sources, item)
      modifies `buf
      ensures buf == Draw(old(buf), sources, item, need)
    {
      var left := need;
      for k := 0 to |sources|
        invariant SourcesOk(buf, sources, item)
        invariant Draw(buf, sources[k..], item, left) == Draw(old(buf), sources, item, need)
      {
        assert sources[k..][0] == sources[k] && sources[k..][1..] == sources[k+1..];
        var have := buf[sources[k]][item];
        if have > 0 {
          if have >= left {
            buf := SetSlot(buf, sources[k], item, have - left);
            return;
          }
          buf := SetSlot(buf, sources[k], item, 0);
          left := left - have;
        }
      }
    }

    method TakeInputs(needs: seq<Need>)
      requires NeedsOk(buf, needs)
      modifies `buf
      ensures buf == DrawAll(old(buf), needs)
    {
      for k := 0 to |needs|
        invariant NeedsOk(buf, needs)
        invariant DrawAll(buf, needs[k..]) == DrawAll(old(buf), needs)
      {
        assert needs[k..][0] == needs[k] && needs[k..][1..] == needs[k+1..];
        ghost var was := buf;
        DrawNeed(needs[k].sources, needs[k].item, needs[k].amount);
        DrawKeepsNeeds(was, needs, needs[k]);
      }
    }

    lemma DrawKeepsNeeds(was: Storage, needs: seq<Need>, d: Need)
      requires NeedsOk(was, needs) && SourcesOk(was, d.sources, d.item)
      ensures NeedsOk(Draw(was, d.sources, d.item, d.amount), needs)
    {
      forall k | 0 <= k < |needs| ensures SourcesOk(Draw(was, d.sources, d.item, d.amount), needs[k].sources, needs[k].item) {
        assert SourcesOk(was, needs[k].sources, needs[k].item);
      }
    }

    /** The flat check of the single-source fast path. */
    method SimpleReady(needs: seq<Need>) returns (ok: bool)
      requires NeedsOk(buf, needs) && SingleSource(needs)
      ensures ok == SimpleCovered(buf, needs)
    {
      for k := 0 to |needs|
        invariant forall l :: 0 <= l < k ==>
          assert SourcesOk(buf, needs[l].sources, needs[l].item);
          buf[needs[l].sources[0]][needs[l].item] >= needs[l].amount
      {
        assert SourcesOk(buf, needs[k].sources, needs[k].item);
        if buf[needs[k].sources[0]][needs[k].item] < needs[k].amount { return false; }
      }
      return true;
    }

    /** The flat subtraction of the single-source fast path. */
    method SimpleTake(needs: seq<Need>)
      requires Rect(buf, b.items) && NeedsDistinct(needs, b.items) && NeedsOk(buf, needs) && SingleSource(needs) && SimpleCovered(buf, needs)
      modifies `buf
      ensures buf == SimpleDrawAll(old(buf), needs, b.items)
    {
      assert needs[0..] == needs;
      for k := 0 to |needs|
        invariant Rect(buf, b.items) && NeedsDistinct(needs[k..], b.items) && NeedsOk(buf, needs[k..])
        invariant SingleSource(needs[k..]) && SimpleCovered(buf, needs[k..])
        invariant SimpleDrawAll(buf, needs[k..], b.items) == SimpleDrawAll(old(buf), needs, b.items)
      {
        var d := needs[k];
        assert needs[k..][0] == d && needs[k..][1..] == needs[k+1..];
        assert SourcesOk(buf, d.sources, d.item);
        ghost var was := buf;
        buf := SetSlot(buf, d.sources[0], d.item, buf[d.sources[0]][d.item] - d.amount);
        SimpleTail(was, buf, needs[k..], b.items);
      }
    }

    /** Whichever path applies, the answer is the greedy one. */
    method Ready(i: nat, p: Plan) returns (ok: bool)
      requires Valid() && i < |b.machines| && PlanFits(b, i, p)
      ensures NeedsOk(buf, p.needs) && ok == Covered(buf, p.needs)
    {
      PlanNeeds(b, buf, i, p);
      if SingleSource(p.needs) {
        SimpleIsGreedy(buf, p.needs, b.items);
        ok := SimpleReady(p.needs);
      } else {
        ok := InputsReady(p.needs);
      }
    }

    method Take(i: nat, p: Plan)
      requires Valid() && i < |b.machines| && PlanFits(b, i, p) && NeedsOk(buf, p.needs) && Covered(buf, p.needs)
      modifies `buf
      ensures buf == DrawAll(old(buf), p.needs)
    {
      PlanNeeds(b, buf, i, p);
      if SingleSource(p.needs) {
        SimpleIsGreedy(buf, p.needs, b.items);
        SimpleTake(p.needs);
      } else {
        TakeInputs(p.needs);
      }
    }

    /** Take the inputs of a plan and pay for the run. */
    method ConsumeInputs(i: nat, p: Plan, made: nat, deferred: bool)
      requires Valid() && i < |b.machines| && PlanFits(b, i, p) && NeedsOk(buf, p.needs) && Covered(buf, p.needs)
      modifies `buf, `money, `cost, `consumed
      ensures Valid() && View() == Consume(b, old(View()), i, p, made)
    {
      NeedsInRange(b, View(), i, p);
      hide DrawAll, Covered, Tally, Amount, PlanFits;
      DrawInputs(i, p, deferred);
      consumed := Tally(consumed, p.needs);
      Pay(Amount(made, p.unitCost));
    }

    method DrawInputs(i: nat, p: Plan, deferred: bool)
      requires Valid() && i < |b.machines| && PlanFits(b, i, p) && NeedsOk(buf, p.needs) && Covered(buf, p.needs)
      modifies `buf
      ensures buf == DrawAll(old(buf), p.needs)
    {
      hide DrawAll, Covered;
      if deferred { TakeInputs(p.needs); } else { Take(i, p); }
    }

    method Pay(c: real)
      modifies `money, `cost
      ensures money == old(money) - c && cost == old(cost) + c
    {
      if c != 0.0 {
        money := money - c;
        cost := cost + c;
      }
    }

    // ----------------------------------------------------------------
    // Deferred consumption
    // ----------------------------------------------------------------

    method SettleMachine(i: nat)
      requires Valid() && i < |b.machines|
      modifies `buf, `units, `rem, `awaiting, `money, `cost, `skipped, `consumed
      ensures Valid() && View() == Settle(b, old(View()), i)
    {
      if !awaiting[i] { return; }
      assert JobOk(b, i, units[i], awaiting[i], job[i]);
      var p := job[i].value;
      NeedsInRange(b, View(), i, p);
      awaiting := awaiting[i := false];
      var ok := InputsReady(p.needs);
      if ok {
        ConsumeInputs(i, p, units[i], true);
      } else {
        units, rem, skipped := units[i := 0], rem[i := 0], skipped + {i};
      }
    }

    method SettleMachines(ids: seq<nat>)
      requires Valid() && IdsOk(b, ids)
      modifies `buf, `units, `rem, `awaiting, `money, `cost, `skipped, `consumed
      ensures Valid() && View() == SettleAll(b, old(View()), ids)
    {
      ghost var s := View();
      for k := 0 to |ids|
        invariant Valid() && View() == SettleAll(b, s, ids[..k])
      {
        assert ids[..k+1][..k] == ids[..k];
        SettleMachine(ids[k]);
      }
      assert ids[..|ids|] == ids;
    }

    // ----------------------------------------------------------------
    // Allocation
    // ----------------------------------------------------------------

    method BeginJob(h: nat, i: nat, p: Plan, made: nat, hours: nat)
      requires Valid() && i < |b.machines| && PlanFits(b, i, p)
      modifies `units, `job, `rem, `started
      ensures Valid() && View() == Begin(b, old(View()), h, i, p, made, hours)
    {
      units, job, rem, started := units[i := made], job[i := Some(p)], rem[i := hours], started[i := h];
    }

    method OrderSupplies(h: nat, i: nat, p: Plan)
      requires Valid() && i < |b.machines| && PlanFits(b, i, p)
      modifies `units, `job, `rem, `due, `money, `cost, `skipped, `started
      ensures Valid() && View() == Order(b, old(View()), h, i, p)
    {
      var price, made := p.recipe.purchaseCost, p.units;
      if Amount(made, price) > money + EPS {
        if b.flags.partialFunds && price > 0.0 {
          var afford := Affordable(money, price);
          if afford <= 0 {
            skipped := skipped + {i};
            return;
          }
          made := if afford < made then afford else made;
        } else {
          skipped := skipped + {i};
          return;
        }
      }
      if b.flags.costAtDelivery {
        due := due[i := Amount(made, price)];
      } else {
        money, cost := money - Amount(made, price), cost + Amount(made, price);
      }
      BeginJob(h, i, p, made, p.hours);
    }

    method ProduceGoods(h: nat, i: nat, p: Plan)
      requires Valid() && i < |b.machines| && PlanFits(b, i, p)
      modifies `buf, `units, `job, `rem, `awaiting, `money, `cost, `skipped, `started, `consumed
      ensures Valid() && View() == Produce(b, old(View()), h, i, p)
    {
      NeedsInRange(b, View(), i, p);
      var ok := Ready(i, p);
      if !ok || Amount(p.units, p.unitCost) > money + EPS {
        skipped := skipped + {i};
      } else if b.flags.twoHourLate && p.hours == 2 {
        BeginJob(h, i, p, p.units, 2);
        awaiting := awaiting[i := true];
      } else {
        ConsumeInputs(i, p, p.units, false);
        BeginJob(h, i, p, p.units, p.hours);
      }
    }

    method AllocateMachine(h: nat, i: nat, plan: Option<Plan>)
      requires Valid() && i < |b.machines| && (plan.Some? ==> PlanFits(b, i, plan.value))
      modifies `buf, `units, `job, `rem, `due, `awaiting, `money, `cost, `skipped, `started, `consumed
      ensures Valid() && View() == Allocate(b, old(View()), h, i, plan)
    {
      if rem[i] > 0 || units[i] > 0 || plan.None? { return; }
      var p := plan.value;
      if p.units <= 0 { return; }
      if b.flags.idleWhenFull && p.kind != Seller && p.recipe.output.Some? && buf[i][p.recipe.output.value] >= p.cap { return; }
      if p.kind == Supplier {
        OrderSupplies(h, i, p);
      } else {
        ProduceGoods(h, i, p);
      }
    }

    /** The plan of a machine this hour: frozen, or looked up as it is reached. */
    method PlanNow(d: Drive, h: nat, i: nat, frozen: seq<Option<Plan>>) returns (plan: Option<Plan>)
      requires CacheOk() && i < |b.machines| && DriveOk(b, d) && h <= b.horizon && (d.Constant? ==> frozen == PlansAt(b, d, h))
      modifies `cache
      ensures CacheOk() && plan == PlansAt(b, d, h)[i]
    {
      if d.Constant? {
        plan := frozen[i];
      } else {
        plan := PlanFor(i, d.knobs.recipe[i], d.matrix[i][h], d.knobs.mods[i]);
      }
    }

    /** Serve one machine on the plan it has now. */
    method AllocateNext(d: Drive, h: nat, i: nat, frozen: seq<Option<Plan>>)
      requires Valid() && CacheOk() && i < |b.machines| && DriveOk(b, d) && h <= b.horizon && (d.Constant? ==> frozen == PlansAt(b, d, h))
      modifies `cache, `buf, `units, `job, `rem, `due, `awaiting, `money, `cost, `skipped, `started, `consumed
      ensures Valid() && CacheOk() && PlansOk(b, PlansAt(b, d, h))
      ensures View() == Allocate(b, old(View()), h, i, PlansAt(b, d, h)[i])
    {
      PlansAtOk(b, d, h);
      hide Allocate, PlansAt, BoardOk, Shape, PlanFits;
      var plan := PlanNow(d, h, i, frozen);
      AllocateMachine(h, i, plan);
    }

    /** Serve the machines in order, on frozen plans or on plans looked up as they are reached. */
    method AllocateMachines(d: Drive, h: nat, ids: seq<nat>, frozen: seq<Option<Plan>>)
      requires Valid() && CacheOk() && IdsOk(b, ids) && DriveOk(b, d) && h <= b.horizon && (d.Constant? ==> frozen == PlansAt(b, d, h))
      modifies `cache, `buf, `units, `job, `rem, `due, `awaiting, `money, `cost, `skipped, `started, `consumed
      ensures Valid() && CacheOk() && PlansOk(b, PlansAt(b, d, h)) && View() == AllocateAll(b, old(View()), h, ids, PlansAt(b, d, h))
    {
      ghost var s, plans := View(), PlansAt(b, d, h);
      PlansAtOk(b, d, h);
      hide Allocate, PlansAt, BoardOk, Shape, PlanFits;
      for k := 0 to |ids|
        invariant Valid() && CacheOk() && View() == AllocateAll(b, s, h, ids[..k], plans)
      {
        assert ids[..k+1][..k] == ids[..k];
        AllocateNext(d, h, ids[k], frozen);
      }
      assert ids[..|ids|] == ids;
    }

    // ----------------------------------------------------------------
    // Overflow
    // ----------------------------------------------------------------

    method TrimOverfull()
      requires Valid()
      modifies `buf, `destroyed
      ensures Valid() && View() == TrimAll(b, old(View()), old(overfull))
    {
      ghost var s := View();
      for k := 0 to |overfull|
        invariant Valid() && overfull == s.overfull && ClipsOk(b, overfull) && View() == TrimAll(b, s, overfull[..k])
      {
        assert overfull[..k+1][..k] == overfull[..k];
        TrimSlot(overfull[k]);
      }
      assert overfull[..|overfull|] == overfull;
    }

    method TrimSlot(o: Overfull)
      requires Valid() && o.machine < |b.machines| && o.item < b.items
      modifies `buf, `destroyed
      ensures Valid() && View() == Trim(b, old(View()), o)
    {
      var cur := buf[o.machine][o.item];
      if cur > o.cap {
        destroyed := destroyed[o.item := destroyed[o.item] + (cur - o.cap)];
        buf := SetSlot(buf, o.machine, o.item, o.cap);
      }
    }

    // ----------------------------------------------------------------
    // The hour loop
    // ----------------------------------------------------------------

    method Keep(ids: seq<nat>, plans: seq<Option<Plan>>) returns (kept: seq<nat>)
      requires forall k :: 0 <= k < |ids| ==> ids[k] < |plans|
      ensures kept == WithPlan(ids, plans)
    {
      kept := [];
      for k := 0 to |ids|
        invariant kept == WithPlan(ids[..k], plans)
      {
        assert ids[..k+1][..k] == ids[..k];
        if plans[ids[k]].Some? { kept := kept + [ids[k]]; }
      }
      assert ids[..|ids|] == ids;
    }

    /** The order of this hour: recomputed through live machines, or the standing one. */
    method OrderFor(d: Drive, h: nat, frozen: seq<Option<Plan>>, standing: seq<nat>) returns (order: seq<nat>)
      requires Valid() && DriveOk(b, d) && h <= b.horizon && (d.Constant? ==> frozen == PlansAt(b, d, h))
      requires standing == TakingPart(b, d, b.fixedOrder, PlansAt(b, d, h))
      ensures IdsOk(b, order) && order == OrderNow(b, d, View(), h, PlansAt(b, d, h))
    {
      if !b.flags.recompute { return standing; }
      var live: seq<bool> := [];
      for i := 0 to |b.machines|
        invariant |live| == i && forall j :: 0 <= j < i ==> live[j] == LiveNow(b, d, View(), h, PlansAt(b, d, h))[j]
      {
        live := live + [rem[i] == 0 && if d.Constant? then frozen[i].Some? else d.matrix[i][h] > 0];
      }
      assert live == LiveNow(b, d, View(), h, PlansAt(b, d, h));
      var g := LiveNet(b, live);
      var dist := Relax(g, |b.machines|);
      order := SortByPriority(b, dist[..], |b.machines|);
      assert order == DynamicOrder(b, live) && forall k :: 0 <= k < |order| ==> order[k] in order;
      if d.Constant? { order := Keep(order, frozen); }
    }

    method ClearOverfull()
      requires Valid()
      modifies `overfull
      ensures Valid() && View() == old(View()).(overfull := [])
    {
      overfull := [];
    }

    /** Everything after the deposits. */
    method FinishHour(d: Drive, h: nat, order: seq<nat>, frozen: seq<Option<Plan>>)
      requires Valid() && CacheOk() && IdsOk(b, order) && DriveOk(b, d) && h <= b.horizon && (d.Constant? ==> frozen == PlansAt(b, d, h))
      modifies this
      ensures Valid() && CacheOk() && PlansOk(b, PlansAt(b, d, h)) && View() == RestOfHour(b, old(View()), h, order, PlansAt(b, d, h))
    {
      hide SettleAll, AllocateAll, TrimAll, Shape, BoardOk, PlansAt, DriveOk;
      if b.flags.twoHourLate { SettleMachines(order); }
      AllocateMachines(d, h, order, frozen);
      TrimOverfull();
      ClearOverfull();
    }

    /** The deposits of an hour, on a cleared list of overfull slots. */
    method OpenHour(h: nat, acting: seq<nat>)
      requires Valid() && CacheOk() && IdsOk(b, acting)
      modifies this
      ensures Valid() && CacheOk() && View() == AdvanceAll(b, old(View()).(overfull := []), h, acting)
    {
      hide AdvanceAll, Shape, BoardOk;
      ClearOverfull();
      AdvanceMachines(h, acting);
    }

    method PlayHour(d: Drive, h: nat, frozen: seq<Option<Plan>>, acting: seq<nat>, standing: seq<nat>)
      requires Valid() && CacheOk() && DriveOk(b, d) && h <= b.horizon && (d.Constant? ==> frozen == PlansAt(b, d, h))
      requires acting == TakingPart(b, d, AllIds(|b.machines|), PlansAt(b, d, h))
      requires standing == TakingPart(b, d, b.fixedOrder, PlansAt(b, d, h))
      modifies this
      ensures Valid() && CacheOk() && View() == Hour(b, d, old(View()), h)
    {
      PlansAtOk(b, d, h);
      hide AdvanceAll, RestOfHour, Shape, BoardOk, OrderNow, PlansAt, TakingPart, DriveOk, Valid, CacheOk, PlansOk;
      OpenHour(h, acting);
      var order := OrderFor(d, h, frozen, standing);
      FinishHour(d, h, order, frozen);
    }

    /** The plans frozen for the run and the machines that take part; per-hour settings freeze nothing. */
    method Prepare(d: Drive) returns (frozen: seq<Option<Plan>>, acting: seq<nat>, standing: seq<nat>)
      requires Valid() && CacheOk() && DriveOk(b, d)
      modifies `cache
      ensures CacheOk()
      ensures forall h :: 0 <= h <= b.horizon && d.Constant? ==> frozen == PlansAt(b, d, h)
      ensures IdsOk(b, b.fixedOrder)
      ensures forall h :: 0 <= h <= b.horizon ==> acting == TakingPart(b, d, AllIds(|b.machines|), PlansAt(b, d, h))
      ensures forall h :: 0 <= h <= b.horizon ==> standing == TakingPart(b, d, b.fixedOrder, PlansAt(b, d, h))
    {
      BaseOrderOk(b);
      frozen, acting, standing := [], AllIds(|b.machines|), b.fixedOrder;
      if d.Constant? {
        frozen := AllPlans(d.knobs);
        assert frozen == PlansAt(b, d, 0);
        acting := Keep(acting, frozen);
        standing := Keep(standing, frozen);
      }
    }

    /** The object stands at the end of hour h, with this money series behind it. */
    ghost predicate Played(d: Drive, h: nat, series: seq<real>)
      requires BoardOk(b) && DriveOk(b, d) && h <= b.horizon
      reads this
    {
      View() == Run(b, d, h) && series == MoneySeries(b, d, h)
    }

    method Open(d: Drive) returns (series: seq<real>)
      requires BoardOk(b) && DriveOk(b, d) && View() == Start(b)
      ensures Played(d, 0, series)
    {
      series := [money];
      assert money == View().money;
    }

    method NextHour(d: Drive, h: nat, frozen: seq<Option<Plan>>, acting: seq<nat>, standing: seq<nat>, series: seq<real>) returns (more: seq<real>)
      requires Valid() && CacheOk() && DriveOk(b, d) && 1 <= h <= b.horizon && (d.Constant? ==> frozen == PlansAt(b, d, h))
      requires acting == TakingPart(b, d, AllIds(|b.machines|), PlansAt(b, d, h))
      requires standing == TakingPart(b, d, b.fixedOrder, PlansAt(b, d, h))
      requires Played(d, h - 1, series)
      modifies this
      ensures Valid() && CacheOk() && Played(d, h, more)
    {
      hide Hour, Shape, BoardOk, PlansAt, TakingPart, DriveOk, Valid, CacheOk;
      PlayHour(d, h, frozen, acting, standing);
      more := series + [money];
    }

    /** A WHOLE RUN: the object ends in the state of the specification, and the money
        appended hour by hour is its money series. */
    method Play(d: Drive) returns (series: seq<real>)
      requires Valid() && CacheOk() && View() == Start(b) && DriveOk(b, d)
      modifies this
      ensures Valid() && CacheOk() && View() == Run(b, d, b.horizon) && series == MoneySeries(b, d, b.horizon)
    {
      assert BoardOk(b);
      hide Run, MoneySeries, Hour, Start, Shape, BoardOk, PlansAt, TakingPart, DriveOk, Valid, CacheOk;
      series := Open(d);
      var frozen, acting, standing := Prepare(d);
      for h := 1 to b.horizon + 1
        invariant Valid() && CacheOk() && Played(d, h - 1, series)
      {
        series := NextHour(d, h, frozen, acting, standing, series);
      }
    }
  }
}
