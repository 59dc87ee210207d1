/** Law of every run: the totals are the sums over the jobs, each job being the plan of
    the hour it was started in. */
module FactoryLedger {
  import opened Counting
  import opened Factory
  import opened FactoryHours
  import opened FactoryLaws
  import opened FactoryJobs

  // ------------------------------------------------------------------
  // What one job is worth
  // ------------------------------------------------------------------

  /** The plan of machine i as dialled in the given hour. */
  function PlanFrom(b: Board, d: Drive, i: nat, h: nat): (p: Option<Plan>)
    requires BoardOk(b) && DriveOk(b, d)
  {
    if i < |b.machines| && h <= b.horizon then PlansAt(b, d, h)[i] else None
  }

  function Sale(p: Plan, units: nat): real {
    if p.kind == Seller then Amount(units, p.recipe.salePrice) else 0.0
  }

  /** Suppliers pay the purchase, everyone else the production. */
  function Charge(p: Plan, units: nat): real {
    if p.kind == Supplier then Amount(units, p.recipe.purchaseCost) else Amount(units, p.unitCost)
  }

  function Made(p: Plan, units: nat, x: nat): nat {
    if p.kind != Seller && p.recipe.output == Some(x) then units else 0
  }

  function Eaten(p: Plan, x: nat): nat {
    if p.kind == Supplier then 0 else AmountOf(p.needs, x)
  }

  /** All or nothing: a job runs its whole plan; only a supplier short of money runs less. */
  predicate Full(b: Board, p: Plan, units: nat) {
    0 < units <= p.units && (p.kind != Supplier || !b.flags.partialFunds ==> units == p.units)
  }

  // ------------------------------------------------------------------
  // Sums over delivered jobs
  // ------------------------------------------------------------------

  ghost predicate EntryOk(b: Board, d: Drive, e: Delivery)
    requires BoardOk(b) && DriveOk(b, d)
  {
    var p := PlanFrom(b, d, e.machine, e.started);
    p.Some? && e.kind == p.value.kind && e.hours == p.value.hours && Full(b, p.value, e.units)
  }

  function Sales(b: Board, d: Drive, log: seq<Delivery>): real
    requires BoardOk(b) && DriveOk(b, d)
  {
    if log == [] then 0.0
    else
      var e := log[|log|-1];
      var p := PlanFrom(b, d, e.machine, e.started);
      Sales(b, d, log[..|log|-1]) + if p.Some? then Sale(p.value, e.units) else 0.0
  }

  function Charges(b: Board, d: Drive, log: seq<Delivery>): real
    requires BoardOk(b) && DriveOk(b, d)
  {
    if log == [] then 0.0
    else
      var e := log[|log|-1];
      var p := PlanFrom(b, d, e.machine, e.started);
      Charges(b, d, log[..|log|-1]) + if p.Some? then Charge(p.value, e.units) else 0.0
  }

  function Output(b: Board, d: Drive, log: seq<Delivery>, x: nat): nat
    requires BoardOk(b) && DriveOk(b, d)
  {
    if log == [] then 0
    else
      var e := log[|log|-1];
      var p := PlanFrom(b, d, e.machine, e.started);
      Output(b, d, log[..|log|-1], x) + if p.Some? then Made(p.value, e.units, x) else 0
  }

  function Intake(b: Board, d: Drive, log: seq<Delivery>, x: nat): nat
    requires BoardOk(b) && DriveOk(b, d)
  {
    if log == [] then 0
    else
      var e := log[|log|-1];
      var p := PlanFrom(b, d, e.machine, e.started);
      Intake(b, d, log[..|log|-1], x) + if p.Some? then Eaten(p.value, x) else 0
  }

  // ------------------------------------------------------------------
  // Sums over pending jobs
  // ------------------------------------------------------------------

  /** Already charged: a supplier at its order, the others once their inputs are taken. */
  predicate Paid(b: Board, p: Plan, awaiting: bool) {
    if p.kind == Supplier then !b.flags.costAtDelivery else !awaiting
  }

  function PendingCharge(b: Board, units: nat, job: Option<Plan>, awaiting: bool): real {
    if units > 0 && job.Some? && Paid(b, job.value, awaiting) then Charge(job.value, units) else 0.0
  }

  function PendingIntake(units: nat, job: Option<Plan>, awaiting: bool, x: nat): nat {
    if units > 0 && job.Some? && !awaiting then Eaten(job.value, x) else 0
  }

  function PendingCharges(b: Board, s: State, n: nat): real
    requires n <= |s.units| == |s.job| == |s.awaiting|
  {
    if n == 0 then 0.0 else PendingCharges(b, s, n - 1) + PendingCharge(b, s.units[n-1], s.job[n-1], s.awaiting[n-1])
  }

  function PendingIntakes(s: State, x: nat, n: nat): nat
    requires n <= |s.units| == |s.job| == |s.awaiting|
  {
    if n == 0 then 0 else PendingIntakes(s, x, n - 1) + PendingIntake(s.units[n-1], s.job[n-1], s.awaiting[n-1], x)
  }

  ghost predicate OnlyJob(s: State, t: State, i: nat) {
    && |s.units| == |s.job| == |s.awaiting| == |t.units| == |t.job| == |t.awaiting|
    && forall j :: 0 <= j < |s.units| && j != i ==> t.units[j] == s.units[j] && t.job[j] == s.job[j] && t.awaiting[j] == s.awaiting[j]
  }

  lemma {:induction false} ChargesMove(b: Board, s: State, t: State, i: nat, n: nat)
    requires OnlyJob(s, t, i) && n <= |s.units| && i < |s.units|
    ensures PendingCharges(b, t, n) + (if i < n then PendingCharge(b, s.units[i], s.job[i], s.awaiting[i]) else 0.0)
         == PendingCharges(b, s, n) + (if i < n then PendingCharge(b, t.units[i], t.job[i], t.awaiting[i]) else 0.0)
  {
    hide PendingCharge;
    if n > 0 { ChargesMove(b, s, t, i, n - 1); }
  }

  lemma {:induction false} IntakesMove(s: State, t: State, i: nat, x: nat, n: nat)
    requires OnlyJob(s, t, i) && n <= |s.units| && i < |s.units|
    ensures PendingIntakes(t, x, n) + (if i < n then PendingIntake(s.units[i], s.job[i], s.awaiting[i], x) else 0)
         == PendingIntakes(s, x, n) + (if i < n then PendingIntake(t.units[i], t.job[i], t.awaiting[i], x) else 0)
  {
    hide PendingIntake;
    if n > 0 { IntakesMove(s, t, i, x, n - 1); }
  }

  // ------------------------------------------------------------------
  // The invariant
  // ------------------------------------------------------------------

  ghost predicate JobLedger(b: Board, d: Drive, s: State, i: nat)
    requires BoardOk(b) && DriveOk(b, d) && Shape(b, s) && i < |b.machines|
  {
    && (s.units[i] > 0 ==> s.job[i].Some? && s.job[i] == PlanFrom(b, d, i, s.started[i]) && Full(b, s.job[i].value, s.units[i]))
    && (s.awaiting[i] ==> s.units[i] > 0 && s.job[i].value.kind != Supplier)
    && s.due[i] == if s.units[i] > 0 && s.job[i].value.kind == Supplier && b.flags.costAtDelivery then Charge(s.job[i].value, s.units[i]) else 0.0
  }

  ghost predicate Totals(b: Board, d: Drive, s: State)
    requires BoardOk(b) && DriveOk(b, d) && Shape(b, s)
  {
    && s.revenue == Sales(b, d, s.delivered)
    && s.cost == Charges(b, d, s.delivered) + PendingCharges(b, s, |b.machines|)
    && (forall x :: 0 <= x < b.items ==> s.deposits[x] == Output(b, d, s.delivered, x))
    && (forall x :: 0 <= x < b.items ==> s.consumed[x] == Intake(b, d, s.delivered, x) + PendingIntakes(s, x, |b.machines|))
  }

  ghost predicate Ledger(b: Board, d: Drive, s: State)
    requires BoardOk(b) && DriveOk(b, d) && Shape(b, s)
  {
    && Totals(b, d, s)
    && (forall i :: 0 <= i < |b.machines| ==> JobLedger(b, d, s, i))
    && (forall k :: 0 <= k < |s.delivered| ==> EntryOk(b, d, s.delivered[k]))
  }

  /** Changes that touch neither jobs nor totals. */
  lemma SameLedger(b: Board, d: Drive, s: State, t: State)
    requires BoardOk(b) && DriveOk(b, d) && Shape(b, s) && Shape(b, t) && Ledger(b, d, s)
    requires t.units == s.units && t.job == s.job && t.due == s.due && t.awaiting == s.awaiting && t.started == s.started
    requires t.revenue == s.revenue && t.cost == s.cost && t.consumed == s.consumed && t.deposits == s.deposits && t.delivered == s.delivered
    ensures Ledger(b, d, t)
  {
    ChargesSame(b, s, t, |b.machines|);
    forall x | 0 <= x < b.items ensures PendingIntakes(t, x, |b.machines|) == PendingIntakes(s, x, |b.machines|) {
      IntakesSame(s, t, x, |b.machines|);
    }
    forall i | 0 <= i < |b.machines| ensures JobLedger(b, d, t, i) { assert JobLedger(b, d, s, i); }
  }

  lemma {:induction false} ChargesSame(b: Board, s: State, t: State, n: nat)
    requires n <= |s.units| == |s.job| == |s.awaiting| && t.units == s.units && t.job == s.job && t.awaiting == s.awaiting
    ensures PendingCharges(b, t, n) == PendingCharges(b, s, n)
  {
    if n > 0 { ChargesSame(b, s, t, n - 1); }
  }

  lemma {:induction false} IntakesSame(s: State, t: State, x: nat, n: nat)
    requires n <= |s.units| == |s.job| == |s.awaiting| && t.units == s.units && t.job == s.job && t.awaiting == s.awaiting
    ensures PendingIntakes(t, x, n) == PendingIntakes(s, x, n)
  {
    if n > 0 { IntakesSame(s, t, x, n - 1); }
  }

  // ------------------------------------------------------------------
  // Deliveries
  // ------------------------------------------------------------------

  /** The log grows by one job, and every sum by that job. */
  lemma LogGrows(b: Board, d: Drive, log: seq<Delivery>, e: Delivery, p: Plan, x: nat)
    requires BoardOk(b) && DriveOk(b, d) && PlanFrom(b, d, e.machine, e.started) == Some(p)
    ensures Sales(b, d, log + [e]) == Sales(b, d, log) + Sale(p, e.units)
    ensures Charges(b, d, log + [e]) == Charges(b, d, log) + Charge(p, e.units)
    ensures Output(b, d, log + [e], x) == Output(b, d, log, x) + Made(p, e.units, x)
    ensures Intake(b, d, log + [e], x) == Intake(b, d, log, x) + Eaten(p, x)
  {
    assert (log + [e])[..|log|] == log;
    hide PlanFrom;
  }

  /** What a hand-over adds to the totals. */
  lemma HandOverAdds(b: Board, s: State, i: nat, p: Plan, units: nat)
    requires Shape(b, s) && i < |b.machines| && PlanFits(b, i, p)
    ensures var r := HandOver(b, s, i, p, units);
      && r.revenue == s.revenue + Sale(p, units) && r.cost == s.cost && r.consumed == s.consumed && r.due == s.due
      && r.units == s.units && r.job == s.job && r.awaiting == s.awaiting && r.started == s.started && r.delivered == s.delivered
    ensures forall x :: 0 <= x < b.items ==> HandOver(b, s, i, p, units).deposits[x] == s.deposits[x] + Made(p, units, x)
  {
    hide SetSlot, Amount;
  }

  /** What a delivery moves. */
  lemma DeliverMoves(b: Board, s: State, h: nat, i: nat)
    requires Shape(b, s) && i < |b.machines| && s.units[i] > 0
    ensures s.job[i].Some?
    ensures var r, p, u := Deliver(b, s, h, i), s.job[i].value, s.units[i];
      && r.units == s.units[i := 0] && r.job == s.job && r.awaiting == s.awaiting && r.started == s.started && r.due == s.due[i := 0.0]
      && r.delivered == s.delivered + [Delivery(i, p.kind, s.started[i], p.hours, h, u)]
      && r.revenue == s.revenue + Sale(p, u) && r.cost == s.cost + s.due[i] && r.consumed == s.consumed
      && forall x :: 0 <= x < b.items ==> r.deposits[x] == s.deposits[x] + Made(p, u, x)
  {
    assert JobOk(b, i, s.units[i], s.awaiting[i], s.job[i]);
    var p, u := s.job[i].value, s.units[i];
    var s1 := s.(units := s.units[i := 0], delivered := s.delivered + [Delivery(i, p.kind, s.started[i], p.hours, h, u)]);
    HandOverAdds(b, s1, i, p, u);
    hide HandOver, Sale, Made;
  }

  lemma DeliverItem(b: Board, d: Drive, s: State, h: nat, i: nat, x: nat)
    requires BoardOk(b) && DriveOk(b, d) && Shape(b, s) && Ledger(b, d, s) && i < |b.machines| && s.units[i] > 0 && !s.awaiting[i] && x < b.items
    ensures Deliver(b, s, h, i).deposits[x] == Output(b, d, Deliver(b, s, h, i).delivered, x)
    ensures var r := Deliver(b, s, h, i); r.consumed[x] == Intake(b, d, r.delivered, x) + PendingIntakes(r, x, |b.machines|)
  {
    assert JobLedger(b, d, s, i);
    DeliverMoves(b, s, h, i);
    hide Deliver, Sales, Charges, Output, Intake, Sale, Charge, Made, Eaten, PendingCharges, PendingIntakes, PlanFrom, BoardOk, DriveOk;
    var p, u, r := s.job[i].value, s.units[i], Deliver(b, s, h, i);
    LogGrows(b, d, s.delivered, Delivery(i, p.kind, s.started[i], p.hours, h, u), p, x);
    IntakesMove(s, r, i, x, |b.machines|);
  }

  lemma DeliverShape(b: Board, s: State, h: nat, i: nat)
    requires Shape(b, s) && i < |b.machines| && s.units[i] > 0
    ensures Shape(b, Deliver(b, s, h, i))
  {
  }

  lemma DeliverMoney(b: Board, d: Drive, s: State, h: nat, i: nat)
    requires BoardOk(b) && DriveOk(b, d) && Shape(b, s) && Ledger(b, d, s) && i < |b.machines| && s.units[i] > 0 && !s.awaiting[i]
    ensures var r := Deliver(b, s, h, i);
      r.revenue == Sales(b, d, r.delivered) && r.cost == Charges(b, d, r.delivered) + PendingCharges(b, r, |b.machines|)
  {
    assert JobLedger(b, d, s, i);
    DeliverMoves(b, s, h, i);
    hide Deliver, Sales, Charges, Output, Intake, Sale, Charge, Made, Eaten, PendingCharges, PendingIntakes, PlanFrom, BoardOk, DriveOk, Shape;
    var p, u, r := s.job[i].value, s.units[i], Deliver(b, s, h, i);
    ChargesMove(b, s, r, i, |b.machines|);
    LogGrows(b, d, s.delivered, Delivery(i, p.kind, s.started[i], p.hours, h, u), p, 0);
  }

  lemma DeliverTotals(b: Board, d: Drive, s: State, h: nat, i: nat)
    requires BoardOk(b) && DriveOk(b, d) && Shape(b, s) && Ledger(b, d, s) && i < |b.machines| && s.units[i] > 0 && !s.awaiting[i]
    ensures Totals(b, d, Deliver(b, s, h, i))
  {
    DeliverShape(b, s, h, i);
    hide Deliver, Ledger, JobLedger, Sales, Charges, Output, Intake, PendingCharges, PendingIntakes, BoardOk, DriveOk, JobOk;
    DeliverMoney(b, d, s, h, i);
    forall x | 0 <= x < b.items
      ensures Deliver(b, s, h, i).deposits[x] == Output(b, d, Deliver(b, s, h, i).delivered, x)
      ensures var r := Deliver(b, s, h, i); r.consumed[x] == Intake(b, d, r.delivered, x) + PendingIntakes(r, x, |b.machines|)
    {
      DeliverItem(b, d, s, h, i, x);
    }
  }

  lemma DeliverLedger(b: Board, d: Drive, s: State, h: nat, i: nat)
    requires BoardOk(b) && DriveOk(b, d) && Shape(b, s) && Ledger(b, d, s) && i < |b.machines| && s.units[i] > 0 && !s.awaiting[i]
    ensures Ledger(b, d, Deliver(b, s, h, i))
  {
    DeliverTotals(b, d, s, h, i);
    assert JobOk(b, i, s.units[i], s.awaiting[i], s.job[i]) && JobLedger(b, d, s, i);
    DeliverMoves(b, s, h, i);
    var r := Deliver(b, s, h, i);
    hide Deliver, Totals, PlanFrom, Charge, Made, Sale, BoardOk, DriveOk;
    forall j | 0 <= j < |b.machines| ensures JobLedger(b, d, r, j) { assert JobLedger(b, d, s, j); }
  }

  lemma AdvanceLedger(b: Board, d: Drive, s: State, h: nat, i: nat)
    requires BoardOk(b) && DriveOk(b, d) && Shape(b, s) && Ledger(b, d, s) && i < |b.machines| && h >= 1 && JobAt(b, s, i, h - 1, 2)
    ensures Ledger(b, d, Advance(b, s, h, i))
  {
    var t := Tick(s, i);
    SameLedger(b, d, s, t);
    if t.rem[i] == 0 && t.units[i] > 0 { DeliverLedger(b, d, t, h, i); }
  }

  lemma {:induction false} AdvanceAllLedger(b: Board, d: Drive, s: State, h: nat, ids: seq<nat>)
    requires BoardOk(b) && DriveOk(b, d) && Shape(b, s) && IdsOk(b, ids) && Distinct(ids) && h >= 1
    requires JobsAt(b, s, h - 1, 2) && Punctual(s) && Ledger(b, d, s)
    ensures Ledger(b, d, AdvanceAll(b, s, h, ids))
  {
    hide Ledger, Advance, Punctual, BoardOk, DriveOk;
    if ids != [] {
      var n := |ids| - 1;
      AdvanceAllLedger(b, d, s, h, ids[..n]);
      AdvanceAllJobs(b, s, h, ids[..n]);
      var t := AdvanceAll(b, s, h, ids[..n]);
      assert ids[n] !in ids[..n];
      assert AdvancedJob(b, s, t, h, ids[n], false) && JobAt(b, s, ids[n], h - 1, 2);
      AdvanceLedger(b, d, t, h, ids[n]);
    }
  }

  // ------------------------------------------------------------------
  // One machine's job moves, and the totals with it
  // ------------------------------------------------------------------

  /** A step on machine i outside the deliveries: cost and consumption move with its pending job. */
  lemma JobMoves(b: Board, d: Drive, s: State, t: State, i: nat)
    requires BoardOk(b) && DriveOk(b, d) && Shape(b, s) && Shape(b, t) && Ledger(b, d, s) && i < |b.machines| && OnlyJob(s, t, i)
    requires t.revenue == s.revenue && t.deposits == s.deposits && t.delivered == s.delivered && JobLedger(b, d, t, i)
    requires forall j :: 0 <= j < |b.machines| && j != i ==> t.due[j] == s.due[j] && t.started[j] == s.started[j]
    requires t.cost - s.cost == PendingCharge(b, t.units[i], t.job[i], t.awaiting[i]) - PendingCharge(b, s.units[i], s.job[i], s.awaiting[i])
    requires forall x :: 0 <= x < b.items ==>
      t.consumed[x] + PendingIntake(s.units[i], s.job[i], s.awaiting[i], x) == s.consumed[x] + PendingIntake(t.units[i], t.job[i], t.awaiting[i], x)
    ensures Ledger(b, d, t)
  {
    ChargesMove(b, s, t, i, |b.machines|);
    hide PendingCharge, PendingIntake, PendingCharges, PendingIntakes, Intake, Charges, Sales, Output, PlanFrom, Charge, Full;
    forall x | 0 <= x < b.items ensures t.consumed[x] == Intake(b, d, t.delivered, x) + PendingIntakes(t, x, |b.machines|) {
      IntakesMove(s, t, i, x, |b.machines|);
    }
    forall j | 0 <= j < |b.machines| ensures JobLedger(b, d, t, j) { assert JobLedger(b, d, s, j); }
  }

  lemma SettleLedger(b: Board, d: Drive, s: State, i: nat)
    requires BoardOk(b) && DriveOk(b, d) && Shape(b, s) && Ledger(b, d, s) && i < |b.machines|
    ensures Ledger(b, d, Settle(b, s, i))
  {
    if s.awaiting[i] {
      assert JobOk(b, i, s.units[i], s.awaiting[i], s.job[i]) && JobLedger(b, d, s, i);
      var p := s.job[i].value;
      NeedsInRange(b, s, i, p);
      var r := Settle(b, s, i);
      forall x | 0 <= x < b.items && Covered(s.buf, p.needs) ensures r.consumed[x] == s.consumed[x] + AmountOf(p.needs, x) {
        TallyAdds(s.consumed, p.needs, x);
      }
      hide Tally, DrawAll, Covered, AmountOf, Amount, Ledger, PlanFrom;
      JobMoves(b, d, s, r, i);
    }
  }

  lemma {:induction false} SettleAllLedger(b: Board, d: Drive, s: State, ids: seq<nat>)
    requires BoardOk(b) && DriveOk(b, d) && Shape(b, s) && Ledger(b, d, s) && IdsOk(b, ids)
    ensures Ledger(b, d, SettleAll(b, s, ids))
  {
    hide Ledger, Settle, BoardOk, DriveOk;
    if ids != [] {
      var n := |ids| - 1;
      SettleAllLedger(b, d, s, ids[..n]);
      SettleLedger(b, d, SettleAll(b, s, ids[..n]), ids[n]);
    }
  }

  ghost predicate Idle(s: State, i: nat)
    requires i < |s.units| == |s.rem|
  {
    s.rem[i] == 0 && s.units[i] == 0
  }

  lemma PlaceLedger(b: Board, d: Drive, s: State, h: nat, i: nat, p: Plan, units: nat)
    requires BoardOk(b) && DriveOk(b, d) && Shape(b, s) && Ledger(b, d, s) && i < |b.machines| && PlanFits(b, i, p)
    requires Idle(s, i) && PlanFrom(b, d, i, h) == Some(p) && p.kind == Supplier && Full(b, p, units)
    ensures Ledger(b, d, Place(b, s, h, i, p, units))
  {
    assert JobLedger(b, d, s, i);
    var r := Place(b, s, h, i, p, units);
    hide Amount, Ledger, PlanFrom, AmountOf;
    assert JobLedger(b, d, r, i);
    JobMoves(b, d, s, r, i);
  }

  lemma OrderLedger(b: Board, d: Drive, s: State, h: nat, i: nat, p: Plan)
    requires BoardOk(b) && DriveOk(b, d) && Shape(b, s) && Ledger(b, d, s) && i < |b.machines| && PlanFits(b, i, p)
    requires Idle(s, i) && PlanFrom(b, d, i, h) == Some(p) && p.kind == Supplier && p.units > 0
    ensures Ledger(b, d, Order(b, s, h, i, p))
  {
    SameLedger(b, d, s, Skip(b, s, i));
    hide Ledger, Place, Skip, PlanFrom, Shape, BoardOk, DriveOk, PlanFits, Idle;
    PlaceLedger(b, d, s, h, i, p, p.units);
    if b.flags.partialFunds && p.recipe.purchaseCost > 0.0 {
      var afford := Affordable(s.money, p.recipe.purchaseCost);
      if 0 < afford < p.units { PlaceLedger(b, d, s, h, i, p, afford); }
    }
  }

  lemma ReserveLedger(b: Board, d: Drive, s: State, h: nat, i: nat, p: Plan)
    requires BoardOk(b) && DriveOk(b, d) && Shape(b, s) && Ledger(b, d, s) && i < |b.machines| && PlanFits(b, i, p)
    requires Idle(s, i) && PlanFrom(b, d, i, h) == Some(p) && p.kind != Supplier && p.units > 0
    ensures var t := Begin(b, s, h, i, p, p.units, 2); var u := t.(awaiting := t.awaiting[i := true]);
      Shape(b, u) && Ledger(b, d, u)
  {
    assert JobLedger(b, d, s, i);
    var t := Begin(b, s, h, i, p, p.units, 2);
    var u := t.(awaiting := t.awaiting[i := true]);
    hide Amount, Ledger, PlanFrom, AmountOf;
    assert JobLedger(b, d, u, i);
    JobMoves(b, d, s, u, i);
  }

  lemma RunNowLedger(b: Board, d: Drive, s: State, h: nat, i: nat, p: Plan)
    requires BoardOk(b) && DriveOk(b, d) && Shape(b, s) && Ledger(b, d, s) && i < |b.machines| && PlanFits(b, i, p)
    requires Idle(s, i) && PlanFrom(b, d, i, h) == Some(p) && p.kind != Supplier && p.units > 0
    ensures Ledger(b, d, Begin(b, Consume(b, s, i, p, p.units), h, i, p, p.units, p.hours))
  {
    assert JobLedger(b, d, s, i);
    NeedsInRange(b, s, i, p);
    var r := Begin(b, Consume(b, s, i, p, p.units), h, i, p, p.units, p.hours);
    forall x | 0 <= x < b.items ensures r.consumed[x] == s.consumed[x] + AmountOf(p.needs, x) { TallyAdds(s.consumed, p.needs, x); }
    hide Amount, Ledger, PlanFrom, AmountOf, Tally, DrawAll;
    assert JobLedger(b, d, r, i);
    JobMoves(b, d, s, r, i);
  }

  lemma AllocateLedger(b: Board, d: Drive, s: State, h: nat, i: nat, plan: Option<Plan>)
    requires BoardOk(b) && DriveOk(b, d) && Shape(b, s) && Ledger(b, d, s) && i < |b.machines| && plan == PlanFrom(b, d, i, h)
    requires plan.Some? ==> PlanFits(b, i, plan.value)
    ensures Ledger(b, d, Allocate(b, s, h, i, plan))
  {
    if s.rem[i] == 0 && s.units[i] == 0 && plan.Some? && plan.value.units > 0 {
      var p := plan.value;
      SameLedger(b, d, s, Skip(b, s, i));
      NeedsInRange(b, s, i, p);
      hide Ledger, Order, Begin, Consume, Skip, PlanFrom, Shape, BoardOk, DriveOk, PlanFits, Covered;
      if p.kind == Supplier {
        OrderLedger(b, d, s, h, i, p);
      } else {
        ReserveLedger(b, d, s, h, i, p);
        RunNowLedger(b, d, s, h, i, p);
      }
    }
  }

  lemma {:induction false} AllocateAllLedger(b: Board, d: Drive, s: State, h: nat, ids: seq<nat>)
    requires BoardOk(b) && DriveOk(b, d) && Shape(b, s) && IdsOk(b, ids) && h <= b.horizon && Ledger(b, d, s)
    requires PlansOk(b, PlansAt(b, d, h))
    ensures Ledger(b, d, AllocateAll(b, s, h, ids, PlansAt(b, d, h)))
  {
    hide Ledger, Allocate, BoardOk, DriveOk, PlansAt, Shape;
    if ids != [] {
      var n := |ids| - 1;
      AllocateAllLedger(b, d, s, h, ids[..n]);
      AllocateLedger(b, d, AllocateAll(b, s, h, ids[..n], PlansAt(b, d, h)), h, ids[n], PlansAt(b, d, h)[ids[n]]);
    }
  }

  lemma {:induction false} TrimAllLedger(b: Board, d: Drive, s: State, list: seq<Overfull>)
    requires BoardOk(b) && DriveOk(b, d) && Shape(b, s) && ClipsOk(b, list) && Ledger(b, d, s)
    ensures Ledger(b, d, TrimAll(b, s, list).(overfull := []))
  {
    hide Ledger;
    if list == [] {
      SameLedger(b, d, s, s.(overfull := []));
    } else {
      var n := |list| - 1;
      TrimAllLedger(b, d, s, list[..n]);
      SameLedger(b, d, TrimAll(b, s, list[..n]).(overfull := []), TrimAll(b, s, list).(overfull := []));
    }
  }

  // ------------------------------------------------------------------
  // Hours and runs
  // ------------------------------------------------------------------

  lemma RestLedger(b: Board, d: Drive, s: State, h: nat, order: seq<nat>)
    requires BoardOk(b) && DriveOk(b, d) && Shape(b, s) && IdsOk(b, order) && h <= b.horizon && Ledger(b, d, s)
    requires PlansOk(b, PlansAt(b, d, h))
    ensures Ledger(b, d, RestOfHour(b, s, h, order, PlansAt(b, d, h)))
  {
    hide Ledger, SettleAll, AllocateAll, TrimAll, BoardOk, DriveOk, PlansAt;
    var s1 := if b.flags.twoHourLate then SettleAll(b, s, order) else s;
    if b.flags.twoHourLate { SettleAllLedger(b, d, s, order); }
    AllocateAllLedger(b, d, s1, h, order);
    var s2 := AllocateAll(b, s1, h, order, PlansAt(b, d, h));
    TrimAllLedger(b, d, s2, s2.overfull);
  }

  lemma HourLedger(b: Board, d: Drive, s: State, h: nat)
    requires BoardOk(b) && DriveOk(b, d) && Shape(b, s) && 1 <= h <= b.horizon && Ledger(b, d, s)
    requires s.overfull == [] && JobsAt(b, s, h - 1, 2) && Punctual(s)
    ensures Ledger(b, d, Hour(b, d, s, h))
  {
    hide Ledger, AdvanceAll, RestOfHour, BoardOk, DriveOk, PlansAt, JobsAt, Punctual, OrderNow, TakingPart;
    var plans := PlansAt(b, d, h);
    PlansAtOk(b, d, h);
    assert s.(overfull := []) == s;
    EveryoneAdvances(b, d, plans);
    var ids := TakingPart(b, d, AllIds(|b.machines|), plans);
    AdvanceAllLedger(b, d, s, h, ids);
    var s1 := AdvanceAll(b, s, h, ids);
    RestLedger(b, d, s1, h, OrderNow(b, d, s1, h, plans));
  }

  lemma {:induction false} NothingPending(b: Board, s: State, x: nat, n: nat)
    requires n <= |s.units| == |s.job| == |s.awaiting| && forall i :: 0 <= i < n ==> s.units[i] == 0
    ensures PendingCharges(b, s, n) == 0.0 && PendingIntakes(s, x, n) == 0
  {
    if n > 0 { NothingPending(b, s, x, n - 1); }
  }

  lemma StartLedger(b: Board, d: Drive)
    requires BoardOk(b) && DriveOk(b, d)
    ensures Shape(b, Start(b)) && Ledger(b, d, Start(b))
  {
    NothingPending(b, Start(b), 0, |b.machines|);
    forall x | 0 <= x < b.items ensures PendingIntakes(Start(b), x, |b.machines|) == 0 { NothingPending(b, Start(b), x, |b.machines|); }
  }

  lemma {:induction false} RunLedger(b: Board, d: Drive, h: nat)
    requires BoardOk(b) && DriveOk(b, d) && h <= b.horizon
    ensures Ledger(b, d, Run(b, d, h))
  {
    hide Ledger, Hour, Start, Shape, BoardOk, DriveOk, EndJobs, JobsAt, Punctual, PlansAt;
    if h == 0 {
      StartLedger(b, d);
    } else {
      RunLedger(b, d, h - 1);
      RunJobs(b, d, h - 1);
      EndGivesJobs(b, d, Run(b, d, h - 1), h - 1, PlansAt(b, d, h - 1));
      NothingOverfull(b, d, h - 1);
      HourLedger(b, d, Run(b, d, h - 1), h);
    }
  }

  /** LEDGER over every run, under every flag: revenue is what the delivered seller jobs
      sold; cost is what the delivered jobs and the pending jobs already charged cost;
      an item's deposits are what delivered jobs made of it; and its consumption is what
      delivered jobs, and pending jobs that have taken their inputs, needed. */
  lemma TotalsAreSums(b: Board, d: Drive, h: nat, x: nat)
    requires BoardOk(b) && DriveOk(b, d) && h <= b.horizon && x < b.items
    ensures var s := Run(b, d, h);
      && s.revenue == Sales(b, d, s.delivered)
      && s.cost == Charges(b, d, s.delivered) + PendingCharges(b, s, |b.machines|)
      && s.deposits[x] == Output(b, d, s.delivered, x)
      && s.consumed[x] == Intake(b, d, s.delivered, x) + PendingIntakes(s, x, |b.machines|)
  {
    RunLedger(b, d, h);
  }

  /** ALL OR NOTHING over every run: each delivery is the whole plan its machine had been
      dialled to in the hour it started; only a supplier, and only under partial orders,
      delivers less. */
  lemma DeliveriesAreWholePlans(b: Board, d: Drive, h: nat, k: nat)
    requires BoardOk(b) && DriveOk(b, d) && h <= b.horizon && k < |Run(b, d, h).delivered|
    ensures EntryOk(b, d, Run(b, d, h).delivered[k])
  {
    RunLedger(b, d, h);
  }
}
