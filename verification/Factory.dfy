/** The factory board, one machine's plan, and one hour of the simulation as a
    function from state to state. */
module Factory {
  import opened Counting

  datatype Kind = Supplier | Maker | Seller

  datatype Input = Input(item: nat, qty: nat)

  datatype Recipe = Recipe(
    inputs: seq<Input>,
    output: Option<nat>,
    outQty: nat,
    salePrice: real,
    purchaseCost: real,
    productionCost: real)

  datatype Mods = Mods(doubleOutput: bool, halfMaterials: bool, oneHour: bool, doubleStorage: bool)

  /** `upstream` lists the sources of a machine in edge order; `modCosts` follows
      the order of the fields of `Mods`. */
  datatype Machine = Machine(
    kind: Kind,
    recipes: seq<Recipe>,
    storageMax: nat,
    outputMax: nat,
    hours: nat,
    modCosts: seq<real>,
    upstream: seq<nat>)

  /** The unstated rules; each field is the non-default reading except
      `idleWhenFull`. */
  datatype Flags = Flags(
    twoHourLate: bool,
    costAtDelivery: bool,
    clipBeforePull: bool,
    recompute: bool,
    pixels: bool,
    separateOutput: bool,
    multiplicative: bool,
    partialFunds: bool,
    idleWhenFull: bool)

  datatype Board = Board(
    machines: seq<Machine>,
    items: nat,
    horizon: nat,
    startingMoney: real,
    initial: seq<seq<nat>>,
    flags: Flags,
    fixedOrder: seq<nat>,
    pixelDist: seq<real>,
    ys: seq<real>)

  /** Knob positions: recipe index, output setting and mods per machine. */
  datatype Knobs = Knobs(recipe: seq<int>, setting: seq<int>, mods: seq<Mods>)

  datatype Need = Need(item: nat, amount: nat, sources: seq<nat>)

  /** One machine's whole decision under one knob position. */
  datatype Plan = Plan(
    recipe: Recipe,
    units: nat,
    hours: nat,
    unitCost: real,
    cap: nat,
    needs: seq<Need>,
    kind: Kind)

  type Storage = seq<seq<nat>>

  const EPS := 0.000000001
  const INF_HOPS := 9999

  // ------------------------------------------------------------------
  // Well-formed boards
  // ------------------------------------------------------------------

  ghost predicate RecipeOk(b: Board, r: Recipe) {
    && (forall k :: 0 <= k < |r.inputs| ==> r.inputs[k].item < b.items)
    && (forall k, l :: 0 <= k < l < |r.inputs| ==> r.inputs[k].item != r.inputs[l].item)
    && (r.output.Some? ==> r.output.value < b.items)
  }

  ghost predicate MachineOk(b: Board, m: Machine) {
    && m.hours >= 1 && |m.modCosts| == 4
    && (forall k :: 0 <= k < |m.upstream| ==> m.upstream[k] < |b.machines|)
    && Distinct(m.upstream)
    && (forall k :: 0 <= k < |m.recipes| ==> RecipeOk(b, m.recipes[k]))
  }

  ghost predicate IdsOk(b: Board, ids: seq<nat>) {
    forall k :: 0 <= k < |ids| ==> ids[k] < |b.machines|
  }

  ghost predicate StorageOk(b: Board, buf: Storage) {
    |buf| == |b.machines| && forall m :: 0 <= m < |buf| ==> |buf[m]| == b.items
  }

  ghost predicate BoardOk(b: Board) {
    && (forall i :: 0 <= i < |b.machines| ==> MachineOk(b, b.machines[i]))
    && StorageOk(b, b.initial)
    && IdsOk(b, b.fixedOrder) && (forall i: nat :: i < |b.machines| ==> i in b.fixedOrder)
    && |b.pixelDist| == |b.ys| == |b.machines|
  }

  ghost predicate KnobsOk(b: Board, k: Knobs) {
    |k.recipe| == |k.setting| == |k.mods| == |b.machines|
  }

  // ------------------------------------------------------------------
  // Plans
  // ------------------------------------------------------------------

  /** Input units for one run; half materials halves the total and rounds up. */
  function Requirement(qty: nat, setting: nat, half: bool): nat {
    if half then (qty * setting + 1) / 2 else qty * setting
  }

  function OutputMax(m: Machine, mods: Mods): nat {
    if mods.doubleOutput then 2 * m.outputMax else m.outputMax
  }

  function StorageCap(b: Board, m: Machine, mods: Mods): nat {
    var store := if mods.doubleStorage then 2 * m.storageMax else m.storageMax;
    if b.flags.separateOutput then store + OutputMax(m, mods) else store
  }

  function ModOn(mods: Mods, k: nat): bool {
    match k case 0 => mods.doubleOutput case 1 => mods.halfMaterials case 2 => mods.oneHour case _ => mods.doubleStorage
  }

  /** Per-item production cost after the increments of the first k mods. */
  function UnitCost(base: real, costs: seq<real>, mods: Mods, multiplicative: bool, k: nat): real
    requires k <= |costs|
  {
    if k == 0 then base
    else
      var before := UnitCost(base, costs, mods, multiplicative, k - 1);
      if !ModOn(mods, k - 1) then before
      else if multiplicative then before * (1.0 + costs[k-1]) else before + costs[k-1]
  }

  function NeedsOf(m: Machine, r: Recipe, setting: nat, half: bool): (needs: seq<Need>)
    ensures |needs| == |r.inputs|
  {
    seq(|r.inputs|, k requires 0 <= k < |r.inputs| =>
      Need(r.inputs[k].item, Requirement(r.inputs[k].qty, setting, half), m.upstream))
  }

  /** The plan of machine i, or None when it cannot run at all. */
  function PlanOf(b: Board, i: nat, ri: int, setting: int, mods: Mods): Option<Plan>
    requires i < |b.machines| && |b.machines[i].modCosts| == 4
  {
    var m := b.machines[i];
    if ri < 0 || ri >= |m.recipes| || setting <= 0 then None
    else
      var r := m.recipes[ri];
      var s := if setting <= OutputMax(m, mods) then setting else OutputMax(m, mods);
      if s <= 0 then None
      else Some(Plan(r, s * r.outQty, if mods.oneHour then 1 else m.hours,
                     UnitCost(r.productionCost, m.modCosts, mods, b.flags.multiplicative, 4),
                     StorageCap(b, m, mods), NeedsOf(m, r, s, mods.halfMaterials), m.kind))
  }

  /** What the hour loop may rely on about the plan of machine i. */
  ghost predicate PlanFits(b: Board, i: nat, p: Plan)
    requires i < |b.machines|
  {
    && p.kind == b.machines[i].kind && p.hours >= 1
    && RecipeOk(b, p.recipe)
    && (forall k :: 0 <= k < |p.needs| ==> p.needs[k].item < b.items && p.needs[k].sources == b.machines[i].upstream)
    && (forall k, l :: 0 <= k < l < |p.needs| ==> p.needs[k].item != p.needs[l].item)
  }

  lemma PlanOfFits(b: Board, i: nat, ri: int, setting: int, mods: Mods)
    requires BoardOk(b) && i < |b.machines|
    ensures MachineOk(b, b.machines[i])
    ensures PlanOf(b, i, ri, setting, mods).Some? ==> PlanFits(b, i, PlanOf(b, i, ri, setting, mods).value)
  {
    var m := b.machines[i];
    assert MachineOk(b, m);
    if PlanOf(b, i, ri, setting, mods).Some? { assert RecipeOk(b, m.recipes[ri]); }
  }

  // ------------------------------------------------------------------
  // Drawing from upstream storage
  // ------------------------------------------------------------------

  ghost predicate SourcesOk(buf: Storage, sources: seq<nat>, item: nat) {
    forall k :: 0 <= k < |sources| ==> sources[k] < |buf| && item < |buf[sources[k]]|
  }

  function Available(buf: Storage, sources: seq<nat>, item: nat): nat
    requires SourcesOk(buf, sources, item)
  {
    if sources == [] then 0
    else
      assert forall k :: 0 <= k < |sources[1..]| ==> sources[1..][k] == sources[k+1];
      buf[sources[0]][item] + Available(buf, sources[1..], item)
  }

  function SetSlot(buf: Storage, m: nat, item: nat, v: nat): (r: Storage)
    requires m < |buf| && item < |buf[m]|
    ensures |r| == |buf| && forall k :: 0 <= k < |buf| ==> |r[k]| == |buf[k]|
    ensures forall k, x :: 0 <= k < |buf| && 0 <= x < |buf[k]| ==> r[k][x] == if k == m && x == item then v else buf[k][x]
  {
    var row: seq<nat> := buf[m][item := v];
    buf[m := row]
  }

  /** Pull `need` units greedily, in source order. */
  function Draw(buf: Storage, sources: seq<nat>, item: nat, need: nat): (r: Storage)
    requires SourcesOk(buf, sources, item)
    ensures |r| == |buf| && forall k :: 0 <= k < |buf| ==> |r[k]| == |buf[k]|
    decreases |sources|
  {
    if sources == [] then buf
    else
      assert forall k :: 0 <= k < |sources[1..]| ==> sources[1..][k] == sources[k+1];
      var have := buf[sources[0]][item];
      if have <= 0 then Draw(buf, sources[1..], item, need)
      else if have >= need then SetSlot(buf, sources[0], item, have - need)
      else Draw(SetSlot(buf, sources[0], item, 0), sources[1..], item, need - have)
  }

  ghost predicate NeedsOk(buf: Storage, needs: seq<Need>) {
    forall k :: 0 <= k < |needs| ==> SourcesOk(buf, needs[k].sources, needs[k].item)
  }

  /** Every requirement is covered. */
  predicate Covered(buf: Storage, needs: seq<Need>)
    requires NeedsOk(buf, needs)
  {
    forall k :: 0 <= k < |needs| ==> Available(buf, needs[k].sources, needs[k].item) >= needs[k].amount
  }

  function DrawAll(buf: Storage, needs: seq<Need>): (r: Storage)
    requires NeedsOk(buf, needs)
    ensures |r| == |buf| && forall k :: 0 <= k < |buf| ==> |r[k]| == |buf[k]|
    decreases |needs|
  {
    if needs == [] then buf
    else
      assert SourcesOk(buf, needs[0].sources, needs[0].item);
      var next := Draw(buf, needs[0].sources, needs[0].item, needs[0].amount);
      assert forall k :: 0 <= k < |needs[1..]| ==> needs[1..][k] == needs[k+1];
      DrawAll(next, needs[1..])
  }

  function Tally(counts: seq<nat>, needs: seq<Need>): (r: seq<nat>)
    requires forall k :: 0 <= k < |needs| ==> needs[k].item < |counts|
    ensures |r| == |counts|
    decreases |needs|
  {
    if needs == [] then counts
    else Tally(counts[needs[0].item := counts[needs[0].item] + needs[0].amount], needs[1..])
  }

  /** Money for a number of items. */
  function Amount(units: nat, each: real): real { units as real * each }

  // ------------------------------------------------------------------
  // State
  // ------------------------------------------------------------------

  /** A job reaching its end: started and delivered in these hours. */
  datatype Delivery = Delivery(machine: nat, kind: Kind, started: nat, hours: nat, hour: nat, units: nat)

  datatype Overfull = Overfull(machine: nat, item: nat, cap: nat)

  /** `units`, `rem`, `job`, `due` and `awaiting` describe the pending job of each
      machine; `started` is the hour it was started in.  `consumed`, `deposits`
      and `destroyed` are the per-item totals of the logs. */
  datatype State = State(
    buf: Storage,
    units: seq<nat>,
    rem: seq<nat>,
    job: seq<Option<Plan>>,
    due: seq<real>,
    awaiting: seq<bool>,
    started: seq<nat>,
    money: real,
    revenue: real,
    cost: real,
    skipped: set<nat>,
    overfull: seq<Overfull>,
    consumed: seq<nat>,
    deposits: seq<nat>,
    destroyed: seq<nat>,
    delivered: seq<Delivery>)

  ghost predicate JobOk(b: Board, i: nat, units: nat, awaiting: bool, job: Option<Plan>)
    requires i < |b.machines|
  {
    units > 0 || awaiting ==> job.Some? && PlanFits(b, i, job.value)
  }

  ghost predicate Shape(b: Board, s: State) {
    && |s.units| == |s.rem| == |s.job| == |s.due| == |s.awaiting| == |s.started| == |b.machines|
    && StorageOk(b, s.buf)
    && |s.consumed| == |s.deposits| == |s.destroyed| == b.items
    && (forall i :: 0 <= i < |b.machines| ==> JobOk(b, i, s.units[i], s.awaiting[i], s.job[i]))
    && (forall k :: 0 <= k < |s.overfull| ==> s.overfull[k].machine < |b.machines| && s.overfull[k].item < b.items)
  }

  function Start(b: Board): State
    requires BoardOk(b)
  {
    var n := |b.machines|;
    State(b.initial, seq(n, i => 0), seq(n, i => 0), seq(n, i => None), seq(n, i => 0.0), seq(n, i => false), seq(n, i => 0),
          b.startingMoney, 0.0, 0.0, {}, [], seq(b.items, x => 0), seq(b.items, x => 0), seq(b.items, x => 0), [])
  }

  lemma StartShape(b: Board)
    requires BoardOk(b)
    ensures Shape(b, Start(b))
  {
  }

  // ------------------------------------------------------------------
  // Step 1 and 2: advance and deposit
  // ------------------------------------------------------------------

  /** Put finished output into the machine's own storage. */
  function Stock(b: Board, s: State, i: nat, item: nat, cap: nat, units: nat): (r: State)
    requires Shape(b, s) && i < |b.machines| && item < b.items
    ensures Shape(b, r)
  {
    var now := s.buf[i][item] + units;
    var s1 := s.(deposits := s.deposits[item := s.deposits[item] + units]);
    if b.flags.clipBeforePull && now > cap then
      s1.(buf := SetSlot(s.buf, i, item, cap), destroyed := s.destroyed[item := s.destroyed[item] + (now - cap)])
    else
      s1.(buf := SetSlot(s.buf, i, item, now),
          overfull := if now > cap then s.overfull + [Overfull(i, item, cap)] else s.overfull)
  }

  /** Finished output becomes money at a seller and stock anywhere else. */
  function HandOver(b: Board, s: State, i: nat, p: Plan, units: nat): (r: State)
    requires Shape(b, s) && i < |b.machines| && PlanFits(b, i, p)
    ensures Shape(b, r)
  {
    if p.kind == Seller then
      s.(money := s.money + Amount(units, p.recipe.salePrice), revenue := s.revenue + Amount(units, p.recipe.salePrice))
    else if p.recipe.output.Some? then Stock(b, s, i, p.recipe.output.value, p.cap, units)
    else s
  }

  /** A finished job hands over its output and, when charged at delivery, its cost. */
  function Deliver(b: Board, s: State, h: nat, i: nat): (r: State)
    requires Shape(b, s) && i < |b.machines| && s.units[i] > 0
    ensures Shape(b, r)
  {
    assert JobOk(b, i, s.units[i], s.awaiting[i], s.job[i]);
    var units, p := s.units[i], s.job[i].value;
    var s1 := s.(units := s.units[i := 0],
                 delivered := s.delivered + [Delivery(i, p.kind, s.started[i], p.hours, h, units)]);
    var s2 := HandOver(b, s1, i, p, units);
    s2.(money := s2.money - s2.due[i], cost := s2.cost + s2.due[i], due := s2.due[i := 0.0])
  }

  function Tick(s: State, i: nat): State
    requires i < |s.rem|
  {
    if s.rem[i] > 0 then s.(rem := s.rem[i := s.rem[i] - 1]) else s
  }

  function Advance(b: Board, s: State, h: nat, i: nat): (r: State)
    requires Shape(b, s) && i < |b.machines|
    ensures Shape(b, r)
  {
    var t := Tick(s, i);
    if t.rem[i] != 0 || t.units[i] <= 0 then t else Deliver(b, t, h, i)
  }

  // ------------------------------------------------------------------
  // Step 4a: deferred consumption of two-hour jobs
  // ------------------------------------------------------------------

  lemma NeedsInRange(b: Board, s: State, i: nat, p: Plan)
    requires Shape(b, s) && BoardOk(b) && i < |b.machines| && PlanFits(b, i, p)
    ensures NeedsOk(s.buf, p.needs) && forall k :: 0 <= k < |p.needs| ==> p.needs[k].item < |s.consumed|
  {
    assert MachineOk(b, b.machines[i]);
  }

  /** Take the inputs of a plan and pay its production cost. */
  function Consume(b: Board, s: State, i: nat, p: Plan, units: nat): (r: State)
    requires Shape(b, s) && BoardOk(b) && i < |b.machines| && PlanFits(b, i, p)
    ensures Shape(b, r)
  {
    NeedsInRange(b, s, i, p);
    var c := Amount(units, p.unitCost);
    s.(buf := DrawAll(s.buf, p.needs), consumed := Tally(s.consumed, p.needs), money := s.money - c, cost := s.cost + c)
  }

  function Settle(b: Board, s: State, i: nat): (r: State)
    requires Shape(b, s) && BoardOk(b) && i < |b.machines|
    ensures Shape(b, r)
  {
    if !s.awaiting[i] then s
    else
      assert JobOk(b, i, s.units[i], s.awaiting[i], s.job[i]);
      var p := s.job[i].value;
      NeedsInRange(b, s, i, p);
      var t := s.(awaiting := s.awaiting[i := false]);
      if Covered(s.buf, p.needs) then Consume(b, t, i, p, t.units[i])
      else
        var u := t.(units := t.units[i := 0], rem := t.rem[i := 0], skipped := t.skipped + {i});
        u
  }

  // ------------------------------------------------------------------
  // Steps 4b and 5: allocate and charge
  // ------------------------------------------------------------------

  function Skip(b: Board, s: State, i: nat): (r: State)
    requires Shape(b, s)
    ensures Shape(b, r)
  {
    var t := s.(skipped := s.skipped + {i});
    t
  }

  function Begin(b: Board, s: State, h: nat, i: nat, p: Plan, units: nat, hours: nat): (r: State)
    requires Shape(b, s) && i < |b.machines| && PlanFits(b, i, p)
    ensures Shape(b, r)
  {
    var t := s.(units := s.units[i := units], job := s.job[i := Some(p)], rem := s.rem[i := hours], started := s.started[i := h]);
    t
  }

  /** Whole units a purse affords. */
  function Affordable(money: real, price: real): int
    requires price > 0.0
  {
    (money / price).Floor
  }

  /** A supplier's order: affordability is decided now, the charge may wait for delivery. */
  function Order(b: Board, s: State, h: nat, i: nat, p: Plan): (r: State)
    requires Shape(b, s) && i < |b.machines| && PlanFits(b, i, p)
    ensures Shape(b, r)
  {
    var price := p.recipe.purchaseCost;
    if Amount(p.units, price) <= s.money + EPS then Place(b, s, h, i, p, p.units)
    else if b.flags.partialFunds && price > 0.0 then
      var afford := Affordable(s.money, price);
      if afford <= 0 then Skip(b, s, i) else Place(b, s, h, i, p, if afford < p.units then afford else p.units)
    else Skip(b, s, i)
  }

  function Place(b: Board, s: State, h: nat, i: nat, p: Plan, units: nat): (r: State)
    requires Shape(b, s) && i < |b.machines| && PlanFits(b, i, p)
    ensures Shape(b, r)
  {
    Begin(b, Bill(b, s, i, Amount(units, p.recipe.purchaseCost)), h, i, p, units, p.hours)
  }

  /** Charge an order now, or note it to be charged at delivery. */
  function Bill(b: Board, s: State, i: nat, c: real): (r: State)
    requires Shape(b, s) && i < |b.machines|
    ensures Shape(b, r)
  {
    if b.flags.costAtDelivery then s.(due := s.due[i := c]) else s.(money := s.money - c, cost := s.cost + c)
  }

  /** A maker or seller: the full requirement or nothing at all. */
  function Produce(b: Board, s: State, h: nat, i: nat, p: Plan): (r: State)
    requires Shape(b, s) && BoardOk(b) && i < |b.machines| && PlanFits(b, i, p)
    ensures Shape(b, r)
  {
    NeedsInRange(b, s, i, p);
    if !Covered(s.buf, p.needs) then Skip(b, s, i)
    else if Amount(p.units, p.unitCost) > s.money + EPS then Skip(b, s, i)
    else if b.flags.twoHourLate && p.hours == 2 then
      var t := Begin(b, s, h, i, p, p.units, 2);
      var u := t.(awaiting := t.awaiting[i := true]);
      u
    else Begin(b, Consume(b, s, i, p, p.units), h, i, p, p.units, p.hours)
  }

  predicate StandsDown(b: Board, s: State, i: nat, p: Plan)
    requires StorageFits(b, s.buf, i, p)
  {
    b.flags.idleWhenFull && p.kind != Seller && p.recipe.output.Some? && s.buf[i][p.recipe.output.value] >= p.cap
  }

  predicate StorageFits(b: Board, buf: Storage, i: nat, p: Plan) {
    i < |buf| && (p.recipe.output.Some? ==> p.recipe.output.value < |buf[i]|)
  }

  function Allocate(b: Board, s: State, h: nat, i: nat, plan: Option<Plan>): (r: State)
    requires Shape(b, s) && BoardOk(b) && i < |b.machines| && (plan.Some? ==> PlanFits(b, i, plan.value))
    ensures Shape(b, r)
  {
    if s.rem[i] > 0 || s.units[i] > 0 || plan.None? then s
    else
      var p := plan.value;
      if p.units <= 0 then s
      else if StandsDown(b, s, i, p) then s
      else if p.kind == Supplier then Order(b, s, h, i, p)
      else Produce(b, s, h, i, p)
  }

  /** Overflow cleared after production. */
  function Trim(b: Board, s: State, o: Overfull): (r: State)
    requires Shape(b, s) && o.machine < |b.machines| && o.item < b.items
    ensures Shape(b, r)
  {
    var cur := s.buf[o.machine][o.item];
    if cur > o.cap then
      var t := s.(buf := SetSlot(s.buf, o.machine, o.item, o.cap), destroyed := s.destroyed[o.item := s.destroyed[o.item] + (cur - o.cap)]);
      t
    else s
  }
}
