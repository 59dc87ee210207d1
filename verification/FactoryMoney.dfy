/** Law of every run: charged at the order and consumed in the first hour, money
    never falls below the affordability tolerance. */
module FactoryMoney {
  import opened Counting
  import opened Factory
  import opened FactoryHours

  /** Prices that cannot turn a sale into an expense. */
  ghost predicate PricesOk(b: Board) {
    forall i, k :: 0 <= i < |b.machines| && 0 <= k < |b.machines[i].recipes| ==> b.machines[i].recipes[k].salePrice >= 0.0
  }

  /** Every charge is made where its affordability was checked. */
  predicate ChecksEveryCharge(f: Flags) { !f.costAtDelivery && !f.twoHourLate }

  /** No charge is outstanding and the purse is within the tolerance. */
  ghost predicate Solvent(s: State) {
    && s.money >= -EPS
    && (forall i :: 0 <= i < |s.due| ==> s.due[i] == 0.0)
    && (forall i :: 0 <= i < |s.job| && s.job[i].Some? ==> s.job[i].value.recipe.salePrice >= 0.0)
  }

  lemma RevenueIsGain(units: nat, price: real)
    requires price >= 0.0
    ensures Amount(units, price) >= 0.0
  {
  }

  /** Rounding down keeps an order within the purse. */
  lemma AffordedFits(money: real, price: real, units: nat)
    requires price > 0.0 && units as int <= Affordable(money, price)
    ensures Amount(units, price) <= money
  {
    var q := money / price;
    assert units as real <= q.Floor as real <= q;
    assert units as real * price <= q * price;
    assert q * price == money;
  }

  lemma AdvanceSolvent(b: Board, s: State, h: nat, i: nat)
    requires Shape(b, s) && i < |b.machines| && Solvent(s)
    ensures Solvent(Advance(b, s, h, i))
  {
    var t := Tick(s, i);
    if t.rem[i] == 0 && t.units[i] > 0 {
      assert JobOk(b, i, t.units[i], t.awaiting[i], t.job[i]);
      RevenueIsGain(t.units[i], t.job[i].value.recipe.salePrice);
      hide Amount, SetSlot;
    }
  }

  lemma OrderSolvent(b: Board, s: State, h: nat, i: nat, p: Plan)
    requires Shape(b, s) && i < |b.machines| && PlanFits(b, i, p) && p.recipe.salePrice >= 0.0
    requires ChecksEveryCharge(b.flags) && Solvent(s)
    ensures Solvent(Order(b, s, h, i, p))
  {
    var price := p.recipe.purchaseCost;
    if b.flags.partialFunds && price > 0.0 {
      var afford := Affordable(s.money, price);
      if afford > 0 { AffordedFits(s.money, price, if afford < p.units then afford else p.units); }
    }
    hide Amount, Affordable, Shape, PlanFits;
  }

  lemma ProduceSolvent(b: Board, s: State, h: nat, i: nat, p: Plan)
    requires Shape(b, s) && BoardOk(b) && i < |b.machines| && PlanFits(b, i, p) && p.recipe.salePrice >= 0.0
    requires ChecksEveryCharge(b.flags) && Solvent(s)
    ensures Solvent(Produce(b, s, h, i, p))
  {
    NeedsInRange(b, s, i, p);
    hide Amount, DrawAll, Tally, Covered, Shape, PlanFits, BoardOk;
  }

  lemma AllocateSolvent(b: Board, s: State, h: nat, i: nat, plan: Option<Plan>)
    requires Shape(b, s) && BoardOk(b) && i < |b.machines|
    requires plan.Some? ==> PlanFits(b, i, plan.value) && plan.value.recipe.salePrice >= 0.0
    requires ChecksEveryCharge(b.flags) && Solvent(s)
    ensures Solvent(Allocate(b, s, h, i, plan))
  {
    hide Solvent, Order, Produce;
    if plan.Some? {
      OrderSolvent(b, s, h, i, plan.value);
      ProduceSolvent(b, s, h, i, plan.value);
    }
  }

  lemma {:induction false} AdvanceAllSolvent(b: Board, s: State, h: nat, ids: seq<nat>)
    requires Shape(b, s) && IdsOk(b, ids) && Solvent(s)
    ensures Solvent(AdvanceAll(b, s, h, ids))
  {
    hide Solvent, Advance;
    if ids != [] {
      var n := |ids| - 1;
      AdvanceAllSolvent(b, s, h, ids[..n]);
      AdvanceSolvent(b, AdvanceAll(b, s, h, ids[..n]), h, ids[n]);
    }
  }

  ghost predicate PlansPriced(plans: seq<Option<Plan>>) {
    forall i :: 0 <= i < |plans| && plans[i].Some? ==> plans[i].value.recipe.salePrice >= 0.0
  }

  lemma {:induction false} AllocateAllSolvent(b: Board, s: State, h: nat, ids: seq<nat>, plans: seq<Option<Plan>>)
    requires Shape(b, s) && BoardOk(b) && IdsOk(b, ids) && PlansOk(b, plans) && PlansPriced(plans)
    requires ChecksEveryCharge(b.flags) && Solvent(s)
    ensures Solvent(AllocateAll(b, s, h, ids, plans))
  {
    hide Solvent, Allocate;
    if ids != [] {
      var n := |ids| - 1;
      AllocateAllSolvent(b, s, h, ids[..n], plans);
      AllocateSolvent(b, AllocateAll(b, s, h, ids[..n], plans), h, ids[n], plans[ids[n]]);
    }
  }

  lemma {:induction false} TrimAllSolvent(b: Board, s: State, list: seq<Overfull>)
    requires Shape(b, s) && ClipsOk(b, list) && Solvent(s)
    ensures Solvent(TrimAll(b, s, list).(overfull := []))
  {
    if list != [] { TrimAllSolvent(b, s, list[..|list|-1]); }
  }

  lemma PricedPlans(b: Board, d: Drive, h: nat)
    requires BoardOk(b) && DriveOk(b, d) && h <= b.horizon && PricesOk(b)
    ensures PlansPriced(PlansAt(b, d, h))
  {
  }

  lemma HourSolvent(b: Board, d: Drive, s: State, h: nat)
    requires BoardOk(b) && DriveOk(b, d) && Shape(b, s) && h <= b.horizon
    requires PricesOk(b) && ChecksEveryCharge(b.flags) && Solvent(s)
    ensures Solvent(Hour(b, d, s, h))
  {
    hide AdvanceAll, AllocateAll, TrimAll, OrderNow, PlansAt, TakingPart, PricesOk, BoardOk, PlansPriced;
    var plans := PlansAt(b, d, h);
    PlansAtOk(b, d, h);
    PricedPlans(b, d, h);
    var ids := TakingPart(b, d, AllIds(|b.machines|), plans);
    var s0 := s.(overfull := []);
    AdvanceAllSolvent(b, s0, h, ids);
    var s1 := AdvanceAll(b, s0, h, ids);
    var order := OrderNow(b, d, s1, h, plans);
    AllocateAllSolvent(b, s1, h, order, plans);
    var s2 := AllocateAll(b, s1, h, order, plans);
    TrimAllSolvent(b, s2, s2.overfull);
  }

  lemma {:induction false} RunSolvent(b: Board, d: Drive, h: nat)
    requires BoardOk(b) && DriveOk(b, d) && h <= b.horizon
    requires PricesOk(b) && ChecksEveryCharge(b.flags) && b.startingMoney >= -EPS
    ensures Solvent(Run(b, d, h))
  {
    hide Hour, Shape, BoardOk, PricesOk;
    if h > 0 {
      hide Solvent, Start;
      RunSolvent(b, d, h - 1);
      HourSolvent(b, d, Run(b, d, h - 1), h);
    }
  }

  /** FLOOR over every run: suppliers charged at the order and inputs taken at the
      first hour, money stays at or above minus the tolerance at every hour. */
  lemma MoneyFloor(b: Board, d: Drive, h: nat)
    requires BoardOk(b) && DriveOk(b, d) && h <= b.horizon
    requires PricesOk(b) && ChecksEveryCharge(b.flags) && b.startingMoney >= -EPS
    ensures Run(b, d, h).money >= -EPS
  {
    RunSolvent(b, d, h);
  }
}
