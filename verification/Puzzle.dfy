/** The builder puzzle over raw attributes, and the reference count.

    A build is a copy count per part.  `Accepts` is the specification every fast
    counter is held to: the build fits the budgets and clears the obstacles. */
module Puzzle {
  import opened Counting

  datatype Aggregation = Sum | Min | Max
  datatype Semantics = Threshold | Consumable | Mixed
  datatype Ordering = Ordered | Unordered
  datatype FailureMode = AllMustPass | CountPassed

  datatype Rules = Rules(
    semantics: Semantics,
    aggregation: Aggregation,
    duplicatesAllowed: bool,
    ordering: Ordering,
    failureMode: FailureMode,
    weightMax: Option<nat>,
    slotMax: Option<nat>,
    moneyMax: Option<nat>)

  datatype Part = Part(weight: nat, qtyAvailable: int, attributes: map<string, nat>, cost: nat, slots: nat)

  /** `spends` is the per-obstacle kind that only mixed semantics consults. */
  datatype Obstacle = Obstacle(needs: map<string, nat>, spends: bool)

  /** `obstacles` are in visiting order. */
  datatype BuilderPuzzle = BuilderPuzzle(names: seq<string>, parts: seq<Part>, obstacles: seq<Obstacle>, rules: Rules)

  datatype Error = TooManyParts | TooManyObstacles | StateSpaceTooLarge | Unsupported
  datatype Result<+T> = Ok(value: T) | Err(error: Error)

  /** One number per attribute. */
  type Vec = seq<nat>

  const BRUTE_FORCE_CEILING := 16
  const COUNT_PASSED_MIN_PASSED := 1

  // ------------------------------------------------------------------
  // Capability vectors and obstacle walks
  // ------------------------------------------------------------------

  predicate Dominates(a: Vec, r: Vec) {
    |a| == |r| && forall k :: 0 <= k < |r| ==> a[k] >= r[k]
  }

  predicate IsMatrix(rows: seq<Vec>, n: nat) {
    forall i :: 0 <= i < |rows| ==> |rows[i]| == n
  }

  function Minus(a: Vec, r: Vec): Vec
    requires Dominates(a, r)
  {
    seq(|a|, k requires 0 <= k < |a| => a[k] - r[k])
  }

  /** Obstacles cleared when each is checked against the full capability. */
  function Cleared(a: Vec, reqs: seq<Vec>): nat {
    if reqs == [] then 0 else (if Dominates(a, reqs[0]) then 1 else 0) + Cleared(a, reqs[1..])
  }

  /** Obstacles cleared when walking the sequence: a cleared obstacle that spends
      takes its requirement out of the pool, a failed one takes nothing. */
  function Walk(pool: Vec, reqs: seq<Vec>, spends: seq<bool>): nat
    requires |reqs| == |spends|
    decreases |reqs|
  {
    if reqs == [] then 0
    else if Dominates(pool, reqs[0]) then
      1 + Walk(if spends[0] then Minus(pool, reqs[0]) else pool, reqs[1..], spends[1..])
    else Walk(pool, reqs[1..], spends[1..])
  }

  /** Increasing index lists of length k drawn from lo..m. */
  function Combinations(lo: nat, m: nat, k: nat): seq<seq<nat>>
    decreases m - lo, k
  {
    if k == 0 then [[]]
    else if lo >= m then []
    else Prepend(lo, Combinations(lo + 1, m, k - 1)) + Combinations(lo + 1, m, k)
  }

  function Prepend(x: nat, xss: seq<seq<nat>>): (r: seq<seq<nat>>)
    ensures |r| == |xss| && forall i :: 0 <= i < |xss| ==> r[i] == [x] + xss[i]
  {
    seq(|xss|, i requires 0 <= i < |xss| => [x] + xss[i])
  }

  predicate IsCombination(comb: seq<nat>, lo: nat, m: nat, k: nat) {
    && |comb| == k
    && (forall i :: 0 <= i < k ==> lo <= comb[i] < m)
    && (forall i, j :: 0 <= i < j < k ==> comb[i] < comb[j])
  }

  /** Total requirement of the obstacles in `comb` on attribute k. */
  function CombinedNeed(reqs: seq<Vec>, comb: seq<nat>, k: nat): nat
    requires forall i :: 0 <= i < |comb| ==> comb[i] < |reqs|
    requires forall i :: 0 <= i < |reqs| ==> k < |reqs[i]|
  {
    if comb == [] then 0 else reqs[comb[0]][k] + CombinedNeed(reqs, comb[1..], k)
  }

  predicate Affords(a: Vec, reqs: seq<Vec>, comb: seq<nat>)
    requires IsMatrix(reqs, |a|)
    requires forall i :: 0 <= i < |comb| ==> comb[i] < |reqs|
  {
    forall k :: 0 <= k < |a| ==> a[k] >= CombinedNeed(reqs, comb, k)
  }

  /** Some k obstacles are affordable together. */
  predicate AffordsSome(a: Vec, reqs: seq<Vec>, k: nat)
    requires IsMatrix(reqs, |a|)
  {
    exists comb | comb in Combinations(0, |reqs|, k) ::
      IsCombination(comb, 0, |reqs|, k) && Affords(a, reqs, comb)
  }

  /** The largest affordable set has at most k obstacles: its size. */
  function LargestAffordable(a: Vec, reqs: seq<Vec>, k: nat): (best: nat)
    requires IsMatrix(reqs, |a|)
    ensures best <= k
    ensures best > 0 ==> AffordsSome(a, reqs, best)
    ensures forall j :: best < j <= k ==> !AffordsSome(a, reqs, j)
  {
    if k == 0 then 0 else if AffordsSome(a, reqs, k) then k else LargestAffordable(a, reqs, k - 1)
  }

  function SpendsUnder(semantics: Semantics, spends: seq<bool>): seq<bool> {
    match semantics
    case Threshold => seq(|spends|, i => false)
    case Consumable => seq(|spends|, i => true)
    case Mixed => spends
  }

  /** How many obstacles a capability clears under the rules. */
  function Passed(a: Vec, reqs: seq<Vec>, spends: seq<bool>, rules: Rules): nat
    requires IsMatrix(reqs, |a|) && |spends| == |reqs|
  {
    if rules.semantics.Threshold? then Cleared(a, reqs)
    else if rules.semantics.Consumable? && rules.ordering.Unordered? then
      LargestAffordable(a, reqs, |reqs|)
    else Walk(a, reqs, SpendsUnder(rules.semantics, spends))
  }

  predicate Succeeds(passed: nat, obstacles: nat, mode: FailureMode) {
    if mode.AllMustPass? then passed == obstacles else passed >= COUNT_PASSED_MIN_PASSED
  }

  lemma PrependMember(x: nat, xss: seq<seq<nat>>, ys: seq<nat>)
    ensures ys in Prepend(x, xss) <==> ys != [] && ys[0] == x && ys[1..] in xss
  {
    var r := Prepend(x, xss);
    if ys in r {
      var i :| 0 <= i < |r| && r[i] == ys;
      assert ys[1..] == xss[i];
    }
    if ys != [] && ys[0] == x && ys[1..] in xss {
      var i :| 0 <= i < |xss| && xss[i] == ys[1..];
      assert r[i] == ys;
    }
  }

  lemma CombinationSplit(comb: seq<nat>, lo: nat, m: nat, k: nat)
    requires k > 0 && lo < m
    ensures IsCombination(comb, lo, m, k) <==>
      IsCombination(comb, lo + 1, m, k) || (comb != [] && comb[0] == lo && IsCombination(comb[1..], lo + 1, m, k - 1))
  {
    if comb != [] && comb[0] == lo && IsCombination(comb[1..], lo + 1, m, k - 1) {
      forall i | 0 <= i < k ensures lo <= comb[i] < m { if i > 0 { assert comb[i] == comb[1..][i-1]; } }
      forall i, j | 0 <= i < j < k ensures comb[i] < comb[j] {
        assert comb[j] == comb[1..][j-1];
        if i > 0 { assert comb[i] == comb[1..][i-1]; }
      }
    }
    if IsCombination(comb, lo, m, k) && comb[0] != lo {
      forall i | 0 <= i < k ensures lo + 1 <= comb[i] { assert comb[0] <= comb[i]; }
    }
  }

  lemma CombinationEnds(comb: seq<nat>, lo: nat, m: nat, k: nat)
    ensures k == 0 ==> (IsCombination(comb, lo, m, k) <==> comb == [])
    ensures k > 0 && lo >= m ==> !IsCombination(comb, lo, m, k)
  {
    if k > 0 && lo >= m { assert |comb| == k ==> !(lo <= comb[0] < m); }
  }

  lemma {:induction false} CombinationsMember(lo: nat, m: nat, k: nat, comb: seq<nat>)
    ensures comb in Combinations(lo, m, k) <==> IsCombination(comb, lo, m, k)
    decreases m - lo, k
  {
    hide IsCombination;
    CombinationEnds(comb, lo, m, k);
    if k > 0 && lo < m {
      PrependMember(lo, Combinations(lo + 1, m, k - 1), comb);
      CombinationSplit(comb, lo, m, k);
      if comb != [] { CombinationsMember(lo + 1, m, k - 1, comb[1..]); }
      CombinationsMember(lo + 1, m, k, comb);
    }
  }

  // ------------------------------------------------------------------
  // Aggregating a build
  // ------------------------------------------------------------------

  /** Total of `v` over the copies in `c`; `c` may cover a prefix of the parts. */
  function Dot(c: Tuple, v: seq<nat>): nat
    requires |c| <= |v|
  {
    if c == [] then 0 else Dot(c[..|c|-1], v) + c[|c|-1] * v[|c|-1]
  }

  function LeastChosen(c: Tuple, v: seq<nat>): Option<nat>
    requires |c| <= |v|
  {
    if c == [] then None
    else
      var before := LeastChosen(c[..|c|-1], v);
      var x := v[|c|-1];
      if c[|c|-1] == 0 then before
      else if before.Some? && before.value <= x then before else Some(x)
  }

  function GreatestChosen(c: Tuple, v: seq<nat>): Option<nat>
    requires |c| <= |v|
  {
    if c == [] then None
    else
      var before := GreatestChosen(c[..|c|-1], v);
      var x := v[|c|-1];
      if c[|c|-1] == 0 then before
      else if before.Some? && before.value >= x then before else Some(x)
  }

  /** One attribute of a build.  The empty build aggregates to 0. */
  function Aggregate(aggregation: Aggregation, c: Tuple, v: seq<nat>): nat
    requires |c| <= |v|
  {
    match aggregation
    case Sum => Dot(c, v)
    case Min => (match LeastChosen(c, v) case None => 0 case Some(x) => x)
    case Max => (match GreatestChosen(c, v) case None => 0 case Some(x) => x)
  }

  // ------------------------------------------------------------------
  // The reference: raw attributes, every build, no shortcuts
  // ------------------------------------------------------------------

  function Attr(part: Part, name: string): nat {
    if name in part.attributes then part.attributes[name] else 0
  }

  function Required(o: Obstacle, name: string): nat {
    if name in o.needs then o.needs[name] else 0
  }

  function Weights(p: BuilderPuzzle): seq<nat> {
    seq(|p.parts|, i requires 0 <= i < |p.parts| => p.parts[i].weight)
  }

  function Slots(p: BuilderPuzzle): seq<nat> {
    seq(|p.parts|, i requires 0 <= i < |p.parts| => p.parts[i].slots)
  }

  function Costs(p: BuilderPuzzle): seq<nat> {
    seq(|p.parts|, i requires 0 <= i < |p.parts| => p.parts[i].cost)
  }

  function Column(p: BuilderPuzzle, k: nat): seq<nat>
    requires k < |p.names|
  {
    seq(|p.parts|, i requires 0 <= i < |p.parts| => Attr(p.parts[i], p.names[k]))
  }

  function Requirements(p: BuilderPuzzle): (reqs: seq<Vec>)
    ensures |reqs| == |p.obstacles| && IsMatrix(reqs, |p.names|)
  {
    seq(|p.obstacles|, i requires 0 <= i < |p.obstacles| =>
      seq(|p.names|, k requires 0 <= k < |p.names| => Required(p.obstacles[i], p.names[k])))
  }

  function Kinds(p: BuilderPuzzle): seq<bool> {
    seq(|p.obstacles|, i requires 0 <= i < |p.obstacles| => p.obstacles[i].spends)
  }

  function RawAggregate(p: BuilderPuzzle, c: Tuple): (agg: Vec)
    requires |c| == |p.parts|
    ensures |agg| == |p.names|
  {
    seq(|p.names|, k requires 0 <= k < |p.names| => Aggregate(p.rules.aggregation, c, Column(p, k)))
  }

  predicate Within(x: nat, budget: Option<nat>) {
    budget.None? || x <= budget.value
  }

  predicate RawFits(p: BuilderPuzzle, c: Tuple)
    requires |c| == |p.parts|
  {
    && Within(Dot(c, Weights(p)), p.rules.weightMax)
    && Within(Dot(c, Slots(p)), p.rules.slotMax)
    && Within(Dot(c, Costs(p)), p.rules.moneyMax)
  }

  /** The specification: this build is one of the puzzle's valid builds. */
  predicate Accepts(p: BuilderPuzzle, c: Tuple)
    requires |c| == |p.parts|
  {
    && RawFits(p, c)
    && Succeeds(Passed(RawAggregate(p, c), Requirements(p), Kinds(p), p.rules), |p.obstacles|, p.rules.failureMode)
  }

  /** Copy choices per part (0 up to the number available). */
  function RawRanges(p: BuilderPuzzle): (sizes: seq<nat>)
    ensures |sizes| == |p.parts|
  {
    seq(|p.parts|, i requires 0 <= i < |p.parts| =>
      var top := Larger(p.parts[i].qtyAvailable, 0);
      (if p.rules.duplicatesAllowed then top else Smaller(top, 1)) + 1)
  }

  /** Every list entry of a box has one index per axis. */
  predicate Accepted(p: BuilderPuzzle, c: Tuple) { |c| == |p.parts| && Accepts(p, c) }

  /** The number of valid builds. */
  function TotalValid(p: BuilderPuzzle): nat {
    Count(Tuples(RawRanges(p)), c => Accepted(p, c))
  }

  /** The number of valid builds is the size of the set of valid builds. */
  lemma TotalValidIsCardinality(p: BuilderPuzzle, builds: set<Tuple>)
    requires forall c :: c in builds <==> InBox(c, RawRanges(p)) && Accepts(p, c)
    ensures TotalValid(p) == |builds|
  {
    var ts := Tuples(RawRanges(p));
    TuplesDistinct(RawRanges(p));
    forall c ensures c in ts <==> InBox(c, RawRanges(p)) { TuplesMember(RawRanges(p), c); }
    CountIsCardinality(ts, c => Accepted(p, c), builds);
  }

  /** Obstacles cleared by one capability vector: the reference loops. */
  method RawPassed(agg: Vec, reqs: seq<Vec>, kinds: seq<bool>, rules: Rules) returns (passed: nat)
    requires IsMatrix(reqs, |agg|) && |kinds| == |reqs|
    ensures passed == Passed(agg, reqs, kinds, rules)
  {
    var m := |reqs|;
    passed := 0;
    if rules.semantics.Threshold? {
      for i := 0 to m
        invariant passed + Cleared(agg, reqs[i..]) == Cleared(agg, reqs)
      {
        if Dominates(agg, reqs[i]) { passed := passed + 1; }
      }
      return;
    }
    if rules.semantics.Consumable? && rules.ordering.Unordered? {
      var k := m;
      while k > 0
        invariant 0 <= k <= m
        invariant LargestAffordable(agg, reqs, m) == LargestAffordable(agg, reqs, k)
      {
        if AffordsSome(agg, reqs, k) { return k; }
        k := k - 1;
      }
      return 0;
    }
    var spends := SpendsUnder(rules.semantics, kinds);
    var remaining := agg;
    for i := 0 to m
      invariant |remaining| == |agg|
      invariant passed + Walk(remaining, reqs[i..], spends[i..]) == Walk(agg, reqs, spends)
    {
      if Dominates(remaining, reqs[i]) {
        passed := passed + 1;
        if rules.semantics.Consumable? || kinds[i] {
          remaining := Minus(remaining, reqs[i]);
        }
      }
    }
  }

  /** Builds inside the budgets whose capability misses one obstacle's requirement. */
  predicate Eliminates(p: BuilderPuzzle, o: nat, c: Tuple)
    requires o < |p.obstacles|
  {
    |c| == |p.parts| && RawFits(p, c) && !Dominates(RawAggregate(p, c), Requirements(p)[o])
  }

  function Eliminated(p: BuilderPuzzle, o: nat): nat
    requires o < |p.obstacles|
  {
    Count(Tuples(RawRanges(p)), c => Eliminates(p, o, c))
  }

  /** One round of the reference loop: is this build valid, and which obstacles does it miss? */
  method Judge(p: BuilderPuzzle, c: Tuple) returns (ok: bool, missed: seq<bool>)
    requires |c| == |p.parts|
    ensures ok == Accepted(p, c)
    ensures |missed| == |p.obstacles|
    ensures forall o :: 0 <= o < |p.obstacles| ==> missed[o] == Eliminates(p, o, c)
  {
    if !RawFits(p, c) { return false, seq(|p.obstacles|, o => false); }
    var agg, reqs := RawAggregate(p, c), Requirements(p);
    missed := seq(|reqs|, o requires 0 <= o < |reqs| => !Dominates(agg, reqs[o]));
    var passed := RawPassed(agg, reqs, Kinds(p), p.rules);
    ok := Succeeds(passed, |reqs|, p.rules.failureMode);
  }

  /** The reference solver: total and per-obstacle eliminations over every build. */
  method BruteForce(p: BuilderPuzzle) returns (r: Result<(nat, seq<nat>)>)
    ensures |p.parts| > BRUTE_FORCE_CEILING ==> r == Err(TooManyParts)
    ensures |p.parts| <= BRUTE_FORCE_CEILING ==> r.Ok? && r.value.0 == TotalValid(p)
    ensures r.Ok? ==> |r.value.1| == |p.obstacles|
    ensures r.Ok? ==> forall o :: 0 <= o < |p.obstacles| ==> r.value.1[o] == Eliminated(p, o)
  {
    if |p.parts| > BRUTE_FORCE_CEILING { return Err(TooManyParts); }
    var combos := Tuples(RawRanges(p));
    var total := 0;
    var elimination: seq<nat> := seq(|p.obstacles|, o => 0);
    for i := 0 to |combos|
      invariant total + Count(combos[i..], c => Accepted(p, c)) == TotalValid(p)
      invariant |elimination| == |p.obstacles|
      invariant forall o :: 0 <= o < |p.obstacles| ==>
        elimination[o] + Count(combos[i..], c => Eliminates(p, o, c)) == Eliminated(p, o)
    {
      var c := combos[i];
      assert |c| == |p.parts| by { assert c in combos; TuplesMember(RawRanges(p), c); }
      CountFrom(combos, i, c => Accepted(p, c));
      forall o | 0 <= o < |p.obstacles|
        ensures Count(combos[i..], c => Eliminates(p, o, c))
             == (if Eliminates(p, o, c) then 1 else 0) + Count(combos[i+1..], c => Eliminates(p, o, c))
      {
        CountFrom(combos, i, c => Eliminates(p, o, c));
      }
      var ok, missed := Judge(p, c);
      if ok { total := total + 1; }
      elimination := seq(|missed|, o requires 0 <= o < |missed| => elimination[o] + if missed[o] then 1 else 0);
    }
    return Ok((total, elimination));
  }
}
