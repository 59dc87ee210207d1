/** Laws of every run: conservation, honest books, caps. */
module FactoryLaws {
  import opened Counting
  import opened Factory
  import opened FactoryHours

  // ------------------------------------------------------------------
  // Greedy drawing takes exactly what is asked
  // ------------------------------------------------------------------

  /** Stock of one item over the first n machines. */
  function Total(buf: Storage, item: nat, n: nat): nat
    requires n <= |buf| && forall m :: 0 <= m < n ==> item < |buf[m]|
  {
    if n == 0 then 0 else Total(buf, item, n - 1) + buf[n-1][item]
  }

  lemma {:induction false} TotalSet(buf: Storage, m: nat, x: nat, v: nat, item: nat, n: nat)
    requires m < |buf| && x < |buf[m]| && n <= |buf| && forall k :: 0 <= k < |buf| ==> item < |buf[k]|
    ensures Total(SetSlot(buf, m, x, v), item, n) + (if item == x && m < n then buf[m][x] else 0)
         == Total(buf, item, n) + (if item == x && m < n then v else 0)
  {
    if n > 0 { TotalSet(buf, m, x, v, item, n - 1); }
  }

  ghost predicate Rect(buf: Storage, items: nat) {
    forall m :: 0 <= m < |buf| ==> |buf[m]| == items
  }

  lemma {:induction false} AvailableSet(buf: Storage, sources: seq<nat>, item: nat, m: nat, x: nat, v: nat)
    requires SourcesOk(buf, sources, item) && m < |buf| && x < |buf[m]| && (x != item || m !in sources)
    ensures SourcesOk(SetSlot(buf, m, x, v), sources, item)
    ensures Available(SetSlot(buf, m, x, v), sources, item) == Available(buf, sources, item)
  {
    if sources != [] {
      assert sources[0] in sources;
      assert forall k :: 0 <= k < |sources[1..]| ==> sources[1..][k] == sources[k+1];
      AvailableSet(buf, sources[1..], item, m, x, v);
    }
  }

  /** A draw that is covered removes exactly the need, from that item only. */
  lemma {:induction false} DrawTakesNeed(buf: Storage, sources: seq<nat>, item: nat, need: nat, items: nat)
    requires Rect(buf, items) && item < items && SourcesOk(buf, sources, item) && Distinct(sources)
    requires Available(buf, sources, item) >= need
    ensures Rect(Draw(buf, sources, item, need), items)
    ensures Total(Draw(buf, sources, item, need), item, |buf|) + need == Total(buf, item, |buf|)
    ensures forall m, x :: 0 <= m < |buf| && 0 <= x < items ==>
      if x == item then Draw(buf, sources, item, need)[m][x] <= buf[m][x] else Draw(buf, sources, item, need)[m][x] == buf[m][x]
    decreases |sources|
  {
    if sources != [] {
      var u, rest := sources[0], sources[1..];
      assert forall k :: 0 <= k < |rest| ==> rest[k] == sources[k+1];
      var have := buf[u][item];
      if have <= 0 {
        DrawTakesNeed(buf, rest, item, need, items);
      } else if have >= need {
        TotalSet(buf, u, item, have - need, item, |buf|);
      } else {
        var next := SetSlot(buf, u, item, 0);
        assert u !in rest;
        AvailableSet(buf, rest, item, u, item, 0);
        TotalSet(buf, u, item, 0, item, |buf|);
        DrawTakesNeed(next, rest, item, need - have, items);
      }
    }
  }

  lemma {:induction false} SameItemSameTotal(buf: Storage, other: Storage, item: nat, n: nat)
    requires n <= |buf| == |other| && (forall m :: 0 <= m < |buf| ==> item < |buf[m]| == |other[m]| && buf[m][item] == other[m][item])
    ensures Total(buf, item, n) == Total(other, item, n)
  {
    if n > 0 { SameItemSameTotal(buf, other, item, n - 1); }
  }

  lemma {:induction false} SameItemSameAvailable(buf: Storage, other: Storage, sources: seq<nat>, item: nat)
    requires SourcesOk(buf, sources, item) && |other| == |buf|
    requires forall m :: 0 <= m < |buf| && item < |buf[m]| ==> |other[m]| == |buf[m]| && other[m][item] == buf[m][item]
    ensures SourcesOk(other, sources, item) && Available(other, sources, item) == Available(buf, sources, item)
  {
    if sources != [] {
      assert forall k :: 0 <= k < |sources[1..]| ==> sources[1..][k] == sources[k+1];
      SameItemSameAvailable(buf, other, sources[1..], item);
    }
  }

  ghost predicate NeedsDistinct(needs: seq<Need>, items: nat) {
    && (forall k :: 0 <= k < |needs| ==> needs[k].item < items && Distinct(needs[k].sources))
    && (forall k, l :: 0 <= k < l < |needs| ==> needs[k].item != needs[l].item)
  }

  /** Amount of one item in a list of needs. */
  function AmountOf(needs: seq<Need>, item: nat): nat {
    if needs == [] then 0 else (if needs[0].item == item then needs[0].amount else 0) + AmountOf(needs[1..], item)
  }

  lemma {:induction false} AmountAbsent(needs: seq<Need>, item: nat)
    requires forall k :: 0 <= k < |needs| ==> needs[k].item != item
    ensures AmountOf(needs, item) == 0
  {
    if needs != [] { AmountAbsent(needs[1..], item); }
  }

  lemma {:induction false} TallyAdds(counts: seq<nat>, needs: seq<Need>, item: nat)
    requires item < |counts| && forall k :: 0 <= k < |needs| ==> needs[k].item < |counts|
    ensures Tally(counts, needs)[item] == counts[item] + AmountOf(needs, item)
    decreases |needs|
  {
    if needs != [] {
      TallyAdds(counts[needs[0].item := counts[needs[0].item] + needs[0].amount], needs[1..], item);
    }
  }

  lemma CoveredTail(buf: Storage, next: Storage, needs: seq<Need>, items: nat)
    requires Rect(buf, items) && Rect(next, items) && |next| == |buf| && needs != []
    requires NeedsDistinct(needs, items) && NeedsOk(buf, needs) && Covered(buf, needs)
    requires forall m, x :: 0 <= m < |buf| && 0 <= x < items && x != needs[0].item ==> next[m][x] == buf[m][x]
    ensures NeedsDistinct(needs[1..], items) && NeedsOk(next, needs[1..]) && Covered(next, needs[1..])
  {
    forall k | 0 <= k < |needs[1..]|
      ensures SourcesOk(next, needs[1..][k].sources, needs[1..][k].item)
      ensures Available(next, needs[1..][k].sources, needs[1..][k].item) >= needs[1..][k].amount
    {
      assert needs[1..][k] == needs[k+1];
      assert needs[0].item != needs[k+1].item;
      SameItemSameAvailable(buf, next, needs[k+1].sources, needs[k+1].item);
    }
  }

  /** Drawing a covered plan removes exactly its amounts, item by item. */
  lemma {:induction false} DrawAllTakesNeeds(buf: Storage, needs: seq<Need>, items: nat, item: nat)
    requires Rect(buf, items) && item < items && NeedsDistinct(needs, items) && NeedsOk(buf, needs) && Covered(buf, needs)
    ensures Rect(DrawAll(buf, needs), items)
    ensures Total(DrawAll(buf, needs), item, |buf|) + AmountOf(needs, item) == Total(buf, item, |buf|)
    ensures forall m :: 0 <= m < |buf| ==> DrawAll(buf, needs)[m][item] <= buf[m][item]
    decreases |needs|
  {
    if needs != [] {
      var d := needs[0];
      assert SourcesOk(buf, d.sources, d.item);
      var next := Draw(buf, d.sources, d.item, d.amount);
      DrawTakesNeed(buf, d.sources, d.item, d.amount, items);
      CoveredTail(buf, next, needs, items);
      DrawAllTakesNeeds(next, needs[1..], items, item);
      if d.item == item {
        AmountAbsent(needs[1..], item);
      } else {
        SameItemSameTotal(buf, next, item, |buf|);
      }
    }
  }

  lemma PlanNeeds(b: Board, buf: Storage, i: nat, p: Plan)
    requires BoardOk(b) && StorageOk(b, buf) && i < |b.machines| && PlanFits(b, i, p)
    ensures NeedsOk(buf, p.needs) && NeedsDistinct(p.needs, b.items) && Rect(buf, b.items)
  {
    assert MachineOk(b, b.machines[i]);
  }

  // ------------------------------------------------------------------
  // The books
  // ------------------------------------------------------------------

  /** Per item: initial stock and deposits against stock, consumption and losses. */
  ghost predicate ItemBalanced(b: Board, s: State, x: nat)
    requires BoardOk(b) && Shape(b, s) && x < b.items
  {
    Total(b.initial, x, |b.machines|) + s.deposits[x] == Total(s.buf, x, |b.machines|) + s.consumed[x] + s.destroyed[x]
  }

  /** Output slot of machine i under these knobs. */
  function OutputItem(b: Board, k: Knobs, i: nat): Option<nat>
    requires i < |b.machines| && |k.recipe| == |b.machines|
  {
    if 0 <= k.recipe[i] < |b.machines[i].recipes| then b.machines[i].recipes[k.recipe[i]].output else None
  }

  ghost predicate CapHolds(b: Board, k: Knobs, s: State, i: nat)
    requires BoardOk(b) && KnobsOk(b, k) && Shape(b, s) && i < |b.machines|
  {
    var x, cap := OutputItem(b, k, i), StorageCap(b, b.machines[i], k.mods[i]);
    x.Some? && x.value < b.items && b.initial[i][x.value] <= cap ==>
      s.buf[i][x.value] <= cap || Overfull(i, x.value, cap) in s.overfull
  }

  /** A pending job runs a plan of its machine's dialled recipe and mods. */
  ghost predicate JobFrom(b: Board, k: Knobs, i: nat, p: Plan)
    requires i < |b.machines| && KnobsOk(b, k)
  {
    && 0 <= k.recipe[i] < |b.machines[i].recipes| && p.recipe == b.machines[i].recipes[k.recipe[i]]
    && p.cap == StorageCap(b, b.machines[i], k.mods[i])
    && p.hours == if k.mods[i].oneHour then 1 else b.machines[i].hours
  }

  /** What every step keeps. */
  ghost predicate Books(b: Board, k: Knobs, s: State)
    requires BoardOk(b) && KnobsOk(b, k) && Shape(b, s)
  {
    && (forall x :: 0 <= x < b.items ==> ItemBalanced(b, s, x))
    && s.money == b.startingMoney + s.revenue - s.cost
    && (forall i :: 0 <= i < |b.machines| ==> CapHolds(b, k, s, i))
    && (forall i :: 0 <= i < |b.machines| && (s.units[i] > 0 || s.awaiting[i]) ==> s.job[i].Some? && JobFrom(b, k, i, s.job[i].value))
  }

  lemma StartBooks(b: Board, k: Knobs)
    requires BoardOk(b) && KnobsOk(b, k)
    ensures Shape(b, Start(b)) && EndBooks(b, k, Start(b))
  {
  }

  // Deposits

  lemma StockBooks(b: Board, k: Knobs, s: State, i: nat, p: Plan, units: nat)
    requires BoardOk(b) && KnobsOk(b, k) && Shape(b, s) && Books(b, k, s) && i < |b.machines|
    requires PlanFits(b, i, p) && JobFrom(b, k, i, p) && p.recipe.output.Some?
    ensures Books(b, k, Stock(b, s, i, p.recipe.output.value, p.cap, units))
  {
    var item := p.recipe.output.value;
    var now := s.buf[i][item] + units;
    var r := Stock(b, s, i, item, p.cap, units);
    forall x | 0 <= x < b.items ensures ItemBalanced(b, r, x) {
      assert ItemBalanced(b, s, x);
      TotalSet(s.buf, i, item, if b.flags.clipBeforePull && now > p.cap then p.cap else now, x, |b.machines|);
    }
    forall j | 0 <= j < |b.machines| ensures CapHolds(b, k, r, j) {
      assert CapHolds(b, k, s, j);
      StockCap(b, k, s, i, p, units, j);
    }
  }

  lemma StockCap(b: Board, k: Knobs, s: State, i: nat, p: Plan, units: nat, j: nat)
    requires BoardOk(b) && KnobsOk(b, k) && Shape(b, s) && i < |b.machines| && j < |b.machines|
    requires PlanFits(b, i, p) && JobFrom(b, k, i, p) && p.recipe.output.Some? && CapHolds(b, k, s, j)
    ensures CapHolds(b, k, Stock(b, s, i, p.recipe.output.value, p.cap, units), j)
  {
    var item := p.recipe.output.value;
    var r := Stock(b, s, i, item, p.cap, units);
    var x := OutputItem(b, k, j);
    if x.Some? && x.value < b.items {
      assert forall o :: o in s.overfull ==> o in r.overfull;
      if j == i {
        assert x.value == item;
        if !(b.flags.clipBeforePull && s.buf[i][item] + units > p.cap) && s.buf[i][item] + units > p.cap {
          assert r.overfull[|s.overfull|] == Overfull(i, item, p.cap);
        }
      }
    }
  }

  lemma DeliverBooks(b: Board, k: Knobs, s: State, h: nat, i: nat)
    requires BoardOk(b) && KnobsOk(b, k) && Shape(b, s) && Books(b, k, s) && i < |b.machines| && s.units[i] > 0
    ensures Books(b, k, Deliver(b, s, h, i))
  {
    assert JobOk(b, i, s.units[i], s.awaiting[i], s.job[i]);
    var p := s.job[i].value;
    var s1 := s.(units := s.units[i := 0], delivered := s.delivered + [Delivery(i, p.kind, s.started[i], p.hours, h, s.units[i])]);
    SameStores(b, k, s, s1);
    var s2 := HandOver(b, s1, i, p, s.units[i]);
    if p.kind == Seller {
      SameStores(b, k, s1, s2);
    } else if p.recipe.output.Some? {
      StockBooks(b, k, s1, i, p, s.units[i]);
    }
    SameStores(b, k, s2, Deliver(b, s, h, i));
  }

  /** Nothing but jobs and money moved, and money moved with its books. */
  lemma SameStores(b: Board, k: Knobs, s: State, t: State)
    requires BoardOk(b) && KnobsOk(b, k) && Shape(b, s) && Books(b, k, s) && Shape(b, t)
    requires t.buf == s.buf && t.overfull == s.overfull && t.consumed == s.consumed && t.deposits == s.deposits && t.destroyed == s.destroyed
    requires t.money - t.revenue + t.cost == s.money - s.revenue + s.cost
    requires forall i :: 0 <= i < |b.machines| && (t.units[i] > 0 || t.awaiting[i]) ==> t.job[i].Some? && JobFrom(b, k, i, t.job[i].value)
    ensures Books(b, k, t)
  {
    forall x | 0 <= x < b.items ensures ItemBalanced(b, t, x) { assert ItemBalanced(b, s, x); }
    forall i | 0 <= i < |b.machines| ensures CapHolds(b, k, t, i) { assert CapHolds(b, k, s, i); }
  }

  lemma AdvanceBooks(b: Board, k: Knobs, s: State, h: nat, i: nat)
    requires BoardOk(b) && KnobsOk(b, k) && Shape(b, s) && Books(b, k, s) && i < |b.machines|
    ensures Books(b, k, Advance(b, s, h, i))
  {
    var t := Tick(s, i);
    SameStores(b, k, s, t);
    if t.rem[i] == 0 && t.units[i] > 0 { DeliverBooks(b, k, t, h, i); }
  }

  // Consumption

  lemma ConsumeBooks(b: Board, k: Knobs, s: State, i: nat, p: Plan, units: nat)
    requires BoardOk(b) && KnobsOk(b, k) && Shape(b, s) && Books(b, k, s) && i < |b.machines| && PlanFits(b, i, p)
    requires NeedsOk(s.buf, p.needs) && Covered(s.buf, p.needs)
    ensures Books(b, k, Consume(b, s, i, p, units))
  {
    PlanNeeds(b, s.buf, i, p);
    var r := Consume(b, s, i, p, units);
    forall x | 0 <= x < b.items ensures ItemBalanced(b, r, x) {
      assert ItemBalanced(b, s, x);
      DrawAllTakesNeeds(s.buf, p.needs, b.items, x);
      TallyAdds(s.consumed, p.needs, x);
    }
    forall j | 0 <= j < |b.machines| ensures CapHolds(b, k, r, j) {
      assert CapHolds(b, k, s, j);
      var x := OutputItem(b, k, j);
      if x.Some? && x.value < b.items { DrawAllTakesNeeds(s.buf, p.needs, b.items, x.value); }
    }
  }

  lemma SettleBooks(b: Board, k: Knobs, s: State, i: nat)
    requires BoardOk(b) && KnobsOk(b, k) && Shape(b, s) && Books(b, k, s) && i < |b.machines|
    ensures Books(b, k, Settle(b, s, i))
  {
    if s.awaiting[i] {
      assert JobOk(b, i, s.units[i], s.awaiting[i], s.job[i]);
      var p := s.job[i].value;
      NeedsInRange(b, s, i, p);
      var t := s.(awaiting := s.awaiting[i := false]);
      SameStores(b, k, s, t);
      if Covered(s.buf, p.needs) {
        ConsumeBooks(b, k, t, i, p, t.units[i]);
      } else {
        SameStores(b, k, t, Settle(b, s, i));
      }
    }
  }

  // Allocation

  lemma BeginBooks(b: Board, k: Knobs, s: State, h: nat, i: nat, p: Plan, units: nat, hours: nat)
    requires BoardOk(b) && KnobsOk(b, k) && Shape(b, s) && Books(b, k, s) && i < |b.machines| && PlanFits(b, i, p) && JobFrom(b, k, i, p)
    ensures Books(b, k, Begin(b, s, h, i, p, units, hours))
  {
    SameStores(b, k, s, Begin(b, s, h, i, p, units, hours));
  }

  lemma PlaceBooks(b: Board, k: Knobs, s: State, h: nat, i: nat, p: Plan, units: nat)
    requires BoardOk(b) && KnobsOk(b, k) && Shape(b, s) && Books(b, k, s) && i < |b.machines| && PlanFits(b, i, p) && JobFrom(b, k, i, p)
    ensures Books(b, k, Place(b, s, h, i, p, units))
  {
    var t := Bill(b, s, i, Amount(units, p.recipe.purchaseCost));
    SameStores(b, k, s, t);
    BeginBooks(b, k, t, h, i, p, units, p.hours);
  }

  lemma SkipBooks(b: Board, k: Knobs, s: State, i: nat)
    requires BoardOk(b) && KnobsOk(b, k) && Shape(b, s) && Books(b, k, s)
    ensures Books(b, k, Skip(b, s, i))
  {
    SameStores(b, k, s, Skip(b, s, i));
  }

  lemma ProduceBooks(b: Board, k: Knobs, s: State, h: nat, i: nat, p: Plan)
    requires BoardOk(b) && KnobsOk(b, k) && Shape(b, s) && Books(b, k, s) && i < |b.machines| && PlanFits(b, i, p) && JobFrom(b, k, i, p)
    ensures Books(b, k, Produce(b, s, h, i, p))
  {
    NeedsInRange(b, s, i, p);
    SkipBooks(b, k, s, i);
    if Covered(s.buf, p.needs) && Amount(p.units, p.unitCost) <= s.money + EPS {
      if b.flags.twoHourLate && p.hours == 2 {
        var t := Begin(b, s, h, i, p, p.units, 2);
        BeginBooks(b, k, s, h, i, p, p.units, 2);
        SameStores(b, k, t, t.(awaiting := t.awaiting[i := true]));
      } else {
        ConsumeBooks(b, k, s, i, p, p.units);
        BeginBooks(b, k, Consume(b, s, i, p, p.units), h, i, p, p.units, p.hours);
      }
    }
  }

  lemma OrderBooks(b: Board, k: Knobs, s: State, h: nat, i: nat, p: Plan)
    requires BoardOk(b) && KnobsOk(b, k) && Shape(b, s) && Books(b, k, s) && i < |b.machines| && PlanFits(b, i, p) && JobFrom(b, k, i, p)
    ensures Books(b, k, Order(b, s, h, i, p))
  {
    hide Books, Place, Skip;
    SkipBooks(b, k, s, i);
    PlaceBooks(b, k, s, h, i, p, p.units);
    if b.flags.partialFunds && p.recipe.purchaseCost > 0.0 {
      var afford := Affordable(s.money, p.recipe.purchaseCost);
      if 0 < afford < p.units { PlaceBooks(b, k, s, h, i, p, afford); }
    }
  }

  lemma AllocateBooks(b: Board, k: Knobs, s: State, h: nat, i: nat, plan: Option<Plan>)
    requires BoardOk(b) && KnobsOk(b, k) && Shape(b, s) && Books(b, k, s) && i < |b.machines|
    requires plan.Some? ==> PlanFits(b, i, plan.value) && JobFrom(b, k, i, plan.value)
    ensures Books(b, k, Allocate(b, s, h, i, plan))
  {
    hide Books, Order, Produce;
    if plan.Some? {
      OrderBooks(b, k, s, h, i, plan.value);
      ProduceBooks(b, k, s, h, i, plan.value);
    }
  }

  // Trimming

  lemma TrimBooks(b: Board, k: Knobs, s: State, o: Overfull)
    requires BoardOk(b) && KnobsOk(b, k) && Shape(b, s) && Books(b, k, s) && o.machine < |b.machines| && o.item < b.items
    ensures Books(b, k, Trim(b, s, o))
  {
    var r := Trim(b, s, o);
    if s.buf[o.machine][o.item] > o.cap {
      forall x | 0 <= x < b.items ensures ItemBalanced(b, r, x) {
        assert ItemBalanced(b, s, x);
        TotalSet(s.buf, o.machine, o.item, o.cap, x, |b.machines|);
      }
      forall i | 0 <= i < |b.machines| ensures CapHolds(b, k, r, i) { assert CapHolds(b, k, s, i); }
    }
  }

  lemma {:induction false} TrimAllBooks(b: Board, k: Knobs, s: State, list: seq<Overfull>)
    requires BoardOk(b) && KnobsOk(b, k) && Shape(b, s) && Books(b, k, s) && ClipsOk(b, list)
    ensures Books(b, k, TrimAll(b, s, list))
    ensures TrimAll(b, s, list).overfull == s.overfull
    ensures forall o :: o in list ==> o.machine < |b.machines| && o.item < b.items && TrimAll(b, s, list).buf[o.machine][o.item] <= o.cap
  {
    hide Books;
    if list != [] {
      var n := |list| - 1;
      TrimAllBooks(b, k, s, list[..n]);
      var t := TrimAll(b, s, list[..n]);
      TrimBooks(b, k, t, list[n]);
      forall o | o in list ensures o.machine < |b.machines| && o.item < b.items && Trim(b, t, list[n]).buf[o.machine][o.item] <= o.cap {
        assert list == list[..n] + [list[n]];
      }
    }
  }

  // Passes

  lemma {:induction false} AdvanceAllBooks(b: Board, k: Knobs, s: State, h: nat, ids: seq<nat>)
    requires BoardOk(b) && KnobsOk(b, k) && Shape(b, s) && Books(b, k, s) && IdsOk(b, ids)
    ensures Books(b, k, AdvanceAll(b, s, h, ids))
  {
    hide Books, Advance;
    if ids != [] {
      var n := |ids| - 1;
      AdvanceAllBooks(b, k, s, h, ids[..n]);
      AdvanceBooks(b, k, AdvanceAll(b, s, h, ids[..n]), h, ids[n]);
    }
  }

  lemma {:induction false} SettleAllBooks(b: Board, k: Knobs, s: State, ids: seq<nat>)
    requires BoardOk(b) && KnobsOk(b, k) && Shape(b, s) && Books(b, k, s) && IdsOk(b, ids)
    ensures Books(b, k, SettleAll(b, s, ids))
  {
    hide Books, Settle;
    if ids != [] {
      var n := |ids| - 1;
      SettleAllBooks(b, k, s, ids[..n]);
      SettleBooks(b, k, SettleAll(b, s, ids[..n]), ids[n]);
    }
  }

  ghost predicate PlansFrom(b: Board, k: Knobs, plans: seq<Option<Plan>>)
    requires KnobsOk(b, k)
  {
    |plans| == |b.machines| && forall i :: 0 <= i < |plans| && plans[i].Some? ==> JobFrom(b, k, i, plans[i].value)
  }

  lemma {:induction false} AllocateAllBooks(b: Board, k: Knobs, s: State, h: nat, ids: seq<nat>, plans: seq<Option<Plan>>)
    requires BoardOk(b) && KnobsOk(b, k) && Shape(b, s) && Books(b, k, s) && IdsOk(b, ids) && PlansOk(b, plans) && PlansFrom(b, k, plans)
    ensures Books(b, k, AllocateAll(b, s, h, ids, plans))
  {
    hide Books, Allocate;
    if ids != [] {
      var n := |ids| - 1;
      AllocateAllBooks(b, k, s, h, ids[..n], plans);
      AllocateBooks(b, k, AllocateAll(b, s, h, ids[..n], plans), h, ids[n], plans[ids[n]]);
    }
  }

  /** At an hour's end nothing is waiting to be trimmed. */
  ghost predicate EndBooks(b: Board, k: Knobs, s: State)
    requires BoardOk(b) && KnobsOk(b, k) && Shape(b, s)
  {
    Books(b, k, s) && s.overfull == []
  }

  lemma RestBooks(b: Board, k: Knobs, s: State, h: nat, order: seq<nat>, plans: seq<Option<Plan>>)
    requires BoardOk(b) && KnobsOk(b, k) && Shape(b, s) && Books(b, k, s) && IdsOk(b, order)
    requires PlansOk(b, plans) && PlansFrom(b, k, plans)
    ensures EndBooks(b, k, RestOfHour(b, s, h, order, plans))
  {
    hide Books;
    var s1 := if b.flags.twoHourLate then SettleAll(b, s, order) else s;
    if b.flags.twoHourLate { SettleAllBooks(b, k, s, order); }
    AllocateAllBooks(b, k, s1, h, order, plans);
    var s2 := AllocateAll(b, s1, h, order, plans);
    TrimAllBooks(b, k, s2, s2.overfull);
    ClearTrimmed(b, k, TrimAll(b, s2, s2.overfull));
  }

  /** Once every overfull slot is trimmed the list can be dropped. */
  lemma ClearTrimmed(b: Board, k: Knobs, s: State)
    requires BoardOk(b) && KnobsOk(b, k) && Shape(b, s) && Books(b, k, s)
    requires forall o :: o in s.overfull ==> o.machine < |b.machines| && o.item < b.items && s.buf[o.machine][o.item] <= o.cap
    ensures Shape(b, s.(overfull := [])) && EndBooks(b, k, s.(overfull := []))
  {
    var r := s.(overfull := []);
    forall x | 0 <= x < b.items ensures ItemBalanced(b, r, x) { assert ItemBalanced(b, s, x); }
    forall i | 0 <= i < |b.machines| ensures CapHolds(b, k, r, i) { assert CapHolds(b, k, s, i); }
  }

  lemma PlansAtFrom(b: Board, d: Drive, h: nat)
    requires BoardOk(b) && DriveOk(b, d) && h <= b.horizon
    ensures PlansFrom(b, d.knobs, PlansAt(b, d, h))
  {
  }

  lemma HourBooks(b: Board, d: Drive, s: State, h: nat)
    requires BoardOk(b) && DriveOk(b, d) && Shape(b, s) && EndBooks(b, d.knobs, s) && h <= b.horizon
    ensures EndBooks(b, d.knobs, Hour(b, d, s, h))
  {
    hide Books, AdvanceAll, RestOfHour, OrderNow, PlansAt, TakingPart;
    var plans := PlansAt(b, d, h);
    PlansAtOk(b, d, h);
    PlansAtFrom(b, d, h);
    var ids := TakingPart(b, d, AllIds(|b.machines|), plans);
    assert s.(overfull := []) == s;
    AdvanceAllBooks(b, d.knobs, s, h, ids);
    var s1 := AdvanceAll(b, s, h, ids);
    RestBooks(b, d.knobs, s1, h, OrderNow(b, d, s1, h, plans), plans);
  }

  lemma {:induction false} RunBooks(b: Board, d: Drive, h: nat)
    requires BoardOk(b) && DriveOk(b, d) && h <= b.horizon
    ensures EndBooks(b, d.knobs, Run(b, d, h))
  {
    hide EndBooks, Hour, Start, Shape, BoardOk;
    if h == 0 {
      StartBooks(b, d.knobs);
    } else {
      RunBooks(b, d, h - 1);
      HourBooks(b, d, Run(b, d, h - 1), h);
    }
  }

  /** CONSERVATION over every run: per item, initial stock and deposits equal
      final stock, consumption and destruction; and money is the starting money
      plus all revenue minus all cost, at the end of every hour. */
  lemma Conservation(b: Board, d: Drive, h: nat, x: nat)
    requires BoardOk(b) && DriveOk(b, d) && h <= b.horizon && x < b.items
    ensures var s := Run(b, d, h);
      Total(b.initial, x, |b.machines|) + s.deposits[x] == Total(s.buf, x, |b.machines|) + s.consumed[x] + s.destroyed[x]
    ensures var s := Run(b, d, h); s.money == b.startingMoney + s.revenue - s.cost
  {
    RunBooks(b, d, h);
    assert ItemBalanced(b, Run(b, d, h), x);
  }

  /** CAPS over every run: an output slot that started within its cap is within
      its cap at every hour's end, under both overflow timings. */
  lemma OutputWithinCap(b: Board, d: Drive, h: nat, i: nat)
    requires BoardOk(b) && DriveOk(b, d) && h <= b.horizon && i < |b.machines|
    ensures var x, cap := OutputItem(b, d.knobs, i), StorageCap(b, b.machines[i], d.knobs.mods[i]);
      x.Some? && x.value < b.items && b.initial[i][x.value] <= cap ==> Run(b, d, h).buf[i][x.value] <= cap
  {
    RunBooks(b, d, h);
    assert CapHolds(b, d.knobs, Run(b, d, h), i);
  }
}
