/** Enumeration, and the dispatcher that picks a counter. */
module Solve {
  import opened Counting
  import opened Puzzle
  import opened Clip
  import opened Subsets
  import opened FreeParts
  import opened LatticeDp
  import opened CountDp
  import opened MeetCount

  const ENUMERATE_CEILING := 22

  /** Is the subset of one row inside the budgets? */
  predicate InsideBudgets(rules: Rules, weight: int, slots: int, cost: int) {
    && (rules.weightMax.Some? ==> weight <= rules.weightMax.value)
    && (rules.slotMax.Some? ==> slots <= rules.slotMax.value)
    && (rules.moneyMax.Some? ==> cost <= rules.moneyMax.value)
  }

  /** Validity of one row of the subset arrays: budgets, then obstacles. */
  method RowValid(cp: ClippedPuzzle, rules: Rules, table: SubsetTable, m: nat) returns (ok: bool)
    requires WellFormed(cp) && TableHolds(cp, rules.aggregation, table) && m < |table.agg|
    requires !ValidityUndecidable(cp, rules)
    ensures |Tuples(Twos(|cp.attrs|))[m]| == |cp.attrs|
    ensures ok == MachineValid(cp, rules, Tuples(Twos(|cp.attrs|))[m])
  {
    ghost var t := Tuples(Twos(|cp.attrs|))[m];
    assert Describes(cp, rules.aggregation, t, table.weight[m], table.slots[m], table.cost[m], table.agg[m]);
    if !InsideBudgets(rules, table.weight[m], table.slots[m], table.cost[m]) { return false; }
    if !NonNegative(table.agg[m]) { return false; }
    var mask := ValidMask(ToVec(table.agg[m]), cp, rules);
    ok := mask.value;
  }

  /** Count the valid subsets by looking at every one of them: what the machine's
      rows say, which is the number of valid builds where the width has room. */
  method CountByEnumeration(cp: ClippedPuzzle, rules: Rules) returns (r: Result<nat>)
    requires WellFormed(cp)
    ensures r.Err? <==> rules.duplicatesAllowed || |cp.weights| > MAX_ENUMERATE_PARTS || ValidityUndecidable(cp, rules)
    ensures r.Ok? ==> r.value == CountMachine(cp, rules)
    ensures r.Ok? && ArraysTrusted(cp.caps, rules.aggregation) ==> r.value == CountValid(cp, rules)
  {
    if rules.duplicatesAllowed { return Err(Unsupported); }
    if |cp.weights| > MAX_ENUMERATE_PARTS { return Err(TooManyParts); }
    if ValidityUndecidable(cp, rules) { return Err(TooManyObstacles); }
    var arrays := SubsetArrays(cp, rules.aggregation);
    var table := arrays.value;
    ghost var ts := Tuples(Twos(|cp.attrs|));
    var total := 0;
    for m := 0 to |table.agg|
      invariant total + Count(ts[m..], c => MachineValid(cp, rules, c)) == CountMachine(cp, rules)
    {
      CountFrom(ts, m, c => MachineValid(cp, rules, c));
      var ok := RowValid(cp, rules, table, m);
      if ok { total := total + 1; }
    }
    if ArraysTrusted(cp.caps, rules.aggregation) { MachineCountsExactly(cp, rules); }
    return Ok(total);
  }

  /** The table is small enough, or the subsets are few enough, or they can be halved. */
  predicate SomeCounterFits(cp: ClippedPuzzle, rules: Rules) {
    || Product(AxisSizes(cp, rules)) <= STATE_SPACE_LIMIT
    || (!rules.duplicatesAllowed && |cp.weights| <= MAX_ENUMERATE_PARTS)
    || Supported(cp, rules)
  }

  /** The dispatcher reads fixed-width arrays: it wants concrete builds of a small
      puzzle, or the table does not fit. */
  predicate ReadsArrays(cp: ClippedPuzzle, rules: Rules, wantsBuilds: bool) {
    || (!rules.duplicatesAllowed && |cp.weights| <= ENUMERATE_CEILING && wantsBuilds)
    || Product(AxisSizes(cp, rules)) > STATE_SPACE_LIMIT
  }

  /** One puzzle, several counters: enumeration, the DP, meet in the middle. */
  method CountCore(cp: ClippedPuzzle, rules: Rules, wantsBuilds: bool) returns (r: Result<nat>)
    requires WellFormed(cp) && (ReadsArrays(cp, rules, wantsBuilds) ==> ArraysTrusted(cp.caps, rules.aggregation))
    ensures r.Ok? ==> r.value == CountValid(cp, rules)
    ensures r.Ok? <==> !ValidityUndecidable(cp, rules) && SomeCounterFits(cp, rules)
  {
    var subsetOnly := !rules.duplicatesAllowed;
    if subsetOnly && |cp.weights| <= ENUMERATE_CEILING && wantsBuilds {
      r := CountByEnumeration(cp, rules);
      return;
    }
    r := CountByDp(cp, rules);
    if r != Err(StateSpaceTooLarge) { return; }
    if subsetOnly && |cp.weights| <= MAX_ENUMERATE_PARTS {
      r := CountByEnumeration(cp, rules);
    } else if Supported(cp, rules) {
      r := CountMeetInMiddle(cp, rules);
    } else {
      r := Err(Unsupported);
    }
  }

  /** The puzzle the counters see: clipped, and under threshold semantics without
      its free parts. */
  ghost function Counted(p: BuilderPuzzle): ClippedPuzzle {
    var cp := ClipOf(p);
    ClipOfWellFormed(p);
    if p.rules.semantics.Threshold? then CoreOf(cp, FreeMask(cp, p.rules)) else cp
  }

  /** Some route answers: any counter that fits under threshold semantics, the
      table alone when obstacles spend. */
  ghost predicate Answerable(p: BuilderPuzzle) {
    && !ValidityUndecidable(Counted(p), p.rules)
    && if p.rules.semantics.Threshold? then SomeCounterFits(Counted(p), p.rules)
       else Product(AxisSizes(Counted(p), p.rules)) <= STATE_SPACE_LIMIT
  }

  /** The report's total: answered exactly when some route can, and whichever
      route answers, it is the reference count. */
  method SolveBuilder(p: BuilderPuzzle, wantsBuilds: bool) returns (r: Result<nat>)
    requires p.rules.semantics.Threshold? && ReadsArrays(Counted(p), p.rules, wantsBuilds)
         ==> ArraysTrusted(ClipOf(p).caps, p.rules.aggregation)
    ensures r.Ok? <==> Answerable(p)
    ensures r.Ok? ==> r.value == TotalValid(Restocked(p))
    ensures r.Ok? && Stocked(p) ==> r.value == TotalValid(p)
  {
    CountValidIsTotal(p);
    ClipOfWellFormed(p);
    hide Product, AxisSizes, TotalValid, CountValid, ClipOf, WellFormed;
    var cp := ClipPuzzle(p);
    if !p.rules.semantics.Threshold? {
      r := CountByDp(cp, p.rules);
      return;
    }
    FactoringIsExact(cp, p.rules);
    var multiplier := FreeMultiplier(cp, p.rules);
    var core := Core(cp, p.rules);
    var count := CountCore(core, p.rules, wantsBuilds);
    match count
    case Err(e) => return Err(e);
    case Ok(n) => return Ok(n * multiplier);
  }

  /** The puzzle with its free parts taken out. */
  method Core(cp: ClippedPuzzle, rules: Rules) returns (core: ClippedPuzzle)
    requires WellFormed(cp)
    ensures core == CoreOf(cp, FreeMask(cp, rules)) && core.caps == cp.caps
  {
    core := CoreOf(cp, FreeMask(cp, rules));
  }
}
