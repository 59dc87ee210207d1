/** The minimal cores of the solution set, found two ways. */
module Antichain {
  import opened Counting
  import opened Puzzle
  import opened Clip
  import opened Subsets
  import opened CountDp
  import opened MeetCount
  import opened Solve

  /** A subset of the parts. */
  type Parts = set<nat>

  ghost predicate InRange(s: Parts, n: nat) { forall i :: i in s ==> i < n }

  /** One copy of each part of the subset. */
  function Indicator(s: Parts, n: nat): (t: Tuple)
    ensures |t| == n && forall i :: 0 <= i < n ==> t[i] == if i in s then 1 else 0
  {
    seq(n, i => if i in s then 1 else 0)
  }

  ghost predicate FitsSet(cp: ClippedPuzzle, rules: Rules, s: Parts)
    requires WellFormed(cp)
  {
    Fits(cp, rules, Indicator(s, |cp.weights|))
  }

  ghost predicate ValidSet(cp: ClippedPuzzle, rules: Rules, s: Parts)
    requires WellFormed(cp)
  {
    InRange(s, |cp.weights|) && ValidBuild(cp, rules, Indicator(s, |cp.weights|))
  }

  /** Valid, but invalid after any single removal. */
  ghost predicate IsCore(cp: ClippedPuzzle, rules: Rules, s: Parts)
    requires WellFormed(cp)
  {
    ValidSet(cp, rules, s) && forall i :: i in s ==> !ValidSet(cp, rules, s - {i})
  }

  // ------------------------------------------------------------------
  // Monotonicity
  // ------------------------------------------------------------------

  ghost predicate Below(c: Tuple, d: Tuple) {
    |c| == |d| && forall i :: 0 <= i < |c| ==> c[i] <= d[i] <= 1
  }

  lemma {:induction false} DotMonotone(c: Tuple, d: Tuple, v: seq<nat>)
    requires Below(c, d) && |c| <= |v|
    ensures Dot(c, v) <= Dot(d, v)
  {
    if c != [] {
      var n := |c| - 1;
      DotMonotone(c[..n], d[..n], v);
      CopiesMonotone(v[n], c[n], d[n]);
      assert c[n] * v[n] == v[n] * c[n] && d[n] * v[n] == v[n] * d[n];
    }
  }

  lemma {:induction false} GreatestMonotone(c: Tuple, d: Tuple, v: seq<nat>)
    requires Below(c, d) && |c| <= |v|
    ensures GreatestChosen(c, v).Some? ==> GreatestChosen(d, v).Some? && GreatestChosen(c, v).value <= GreatestChosen(d, v).value
  {
    if c != [] { GreatestMonotone(c[..|c|-1], d[..|d|-1], v); }
  }

  lemma ValidAggregateMonotone(cp: ClippedPuzzle, rules: Rules, a: Vec, b: Vec)
    requires WellFormed(cp) && |a| == |cp.caps| && Dominates(b, a) && ValidAggregate(cp, rules, a)
    ensures ValidAggregate(cp, rules, b)
  {
    if rules.failureMode.CountPassed? {
      PassedOne(a, cp.reqs, cp.spends, rules);
      PassedOne(b, cp.reqs, cp.spends, rules);
      var i :| 0 <= i < |cp.reqs| && Dominates(a, cp.reqs[i]);
      assert Dominates(b, cp.reqs[i]);
    }
  }

  lemma AggregateMonotone(cp: ClippedPuzzle, rules: Rules, c: Tuple, d: Tuple)
    requires WellFormed(cp) && Below(c, d) && |c| == |cp.weights| && !rules.aggregation.Min?
    ensures Dominates(AggregateCounts(cp, rules.aggregation, d), AggregateCounts(cp, rules.aggregation, c))
  {
    forall k | 0 <= k < |cp.caps|
      ensures AggregateCounts(cp, rules.aggregation, d)[k] >= AggregateCounts(cp, rules.aggregation, c)[k]
    {
      DotMonotone(c, d, AttrColumn(cp, k));
      GreatestMonotone(c, d, AttrColumn(cp, k));
    }
  }

  lemma SubsetBelow(s: Parts, t: Parts, n: nat)
    requires s <= t
    ensures Below(Indicator(s, n), Indicator(t, n))
  {
  }

  /** A subset of something inside the budgets is inside the budgets. */
  lemma FitsShrinks(cp: ClippedPuzzle, rules: Rules, s: Parts, t: Parts)
    requires WellFormed(cp) && s <= t && FitsSet(cp, rules, t)
    ensures FitsSet(cp, rules, s)
  {
    var c, d := Indicator(s, |cp.weights|), Indicator(t, |cp.weights|);
    SubsetBelow(s, t, |cp.weights|);
    DotMonotone(c, d, cp.weights);
    DotMonotone(c, d, cp.slots);
    DotMonotone(c, d, cp.costs);
  }

  /** Under sum and max a superset of a valid build that still fits is valid. */
  lemma ValidGrows(cp: ClippedPuzzle, rules: Rules, s: Parts, t: Parts)
    requires WellFormed(cp) && !rules.aggregation.Min?
    requires s <= t && InRange(t, |cp.weights|) && ValidSet(cp, rules, s) && FitsSet(cp, rules, t)
    ensures ValidSet(cp, rules, t)
  {
    var c, d := Indicator(s, |cp.weights|), Indicator(t, |cp.weights|);
    SubsetBelow(s, t, |cp.weights|);
    AggregateMonotone(cp, rules, c, d);
    ValidAggregateMonotone(cp, rules, AggregateCounts(cp, rules.aggregation, c), AggregateCounts(cp, rules.aggregation, d));
  }

  lemma ValidFits(cp: ClippedPuzzle, rules: Rules, s: Parts)
    requires WellFormed(cp) && ValidSet(cp, rules, s)
    ensures FitsSet(cp, rules, s)
  {
  }

  // ------------------------------------------------------------------
  // The antichain describes the solution set
  // ------------------------------------------------------------------

  /** Every valid build contains a core. */
  lemma {:induction false} ContainsCore(cp: ClippedPuzzle, rules: Rules, s: Parts) returns (core: Parts)
    requires WellFormed(cp) && ValidSet(cp, rules, s)
    ensures core <= s && IsCore(cp, rules, core)
    decreases |s|
  {
    if IsCore(cp, rules, s) {
      core := s;
    } else {
      var i :| i in s && ValidSet(cp, rules, s - {i});
      core := ContainsCore(cp, rules, s - {i});
    }
  }

  /** A core contains no other core. */
  lemma CoresIncomparable(cp: ClippedPuzzle, rules: Rules, a: Parts, b: Parts)
    requires WellFormed(cp) && !rules.aggregation.Min? && IsCore(cp, rules, a) && IsCore(cp, rules, b) && a <= b
    ensures a == b
  {
    if a != b {
      var i :| i in b && i !in a;
      ValidFits(cp, rules, b);
      FitsShrinks(cp, rules, b - {i}, b);
      ValidGrows(cp, rules, a, b - {i});
    }
  }

  /** A build is valid exactly when it fits the budgets and contains a core. */
  lemma AntichainDescribes(cp: ClippedPuzzle, rules: Rules, s: Parts)
    requires WellFormed(cp) && !rules.aggregation.Min? && InRange(s, |cp.weights|)
    ensures ValidSet(cp, rules, s) <==> FitsSet(cp, rules, s) && exists core :: core <= s && IsCore(cp, rules, core)
  {
    if ValidSet(cp, rules, s) {
      var core := ContainsCore(cp, rules, s);
    }
    if FitsSet(cp, rules, s) && exists core :: core <= s && IsCore(cp, rules, core) {
      var core :| core <= s && IsCore(cp, rules, core);
      ValidGrows(cp, rules, core, s);
    }
  }

  // ------------------------------------------------------------------
  // Bitmasks
  // ------------------------------------------------------------------

  function PartsOf(mask: nat, n: nat): (s: Parts)
    ensures forall i :: i in s <==> 0 <= i < n && Bit(mask, i) == 1
  {
    set i: nat | i < n && Bit(mask, i) == 1
  }

  lemma {:induction false} BitValue(mask: nat, i: nat)
    ensures Bit(mask, i) == 0 || Bit(mask, i) == 1
  {
    if i > 0 { BitValue(mask / 2, i - 1); }
  }

  lemma {:induction false} BitBound(mask: nat, i: nat)
    requires Bit(mask, i) == 1
    ensures mask >= Power2(i)
  {
    if i > 0 { BitBound(mask / 2, i - 1); }
  }

  /** Clearing one set bit clears exactly that bit. */
  lemma {:induction false} ClearBit(mask: nat, i: nat, j: nat)
    requires Bit(mask, i) == 1
    ensures mask >= Power2(i) && Bit(mask - Power2(i), j) == if j == i then 0 else Bit(mask, j)
  {
    BitBound(mask, i);
    if i == 0 {
      if j > 0 { assert (mask - 1) / 2 == mask / 2; }
    } else {
      BitBound(mask / 2, i - 1);
      assert (mask - Power2(i)) / 2 == mask / 2 - Power2(i - 1);
      if j > 0 { ClearBit(mask / 2, i - 1, j - 1); }
    }
  }

  /** Row m of the subset list is the subset whose bits are set in m. */
  lemma RowIsParts(n: nat, m: nat)
    requires m < Power2(n)
    ensures |Tuples(Twos(n))| == Power2(n) && Tuples(Twos(n))[m] == Indicator(PartsOf(m, n), n)
  {
    TwosLength(n);
    assert Tuples(Twos(n))[m] in Tuples(Twos(n));
    TuplesMember(Twos(n), Tuples(Twos(n))[m]);
    forall i | 0 <= i < n ensures Tuples(Twos(n))[m][i] == Indicator(PartsOf(m, n), n)[i] {
      BitmaskOrder(n, m, i);
      BitValue(m, i);
    }
  }

  /** Every subset is some row. */
  lemma PartsHaveRow(n: nat, s: Parts) returns (m: nat)
    requires InRange(s, n)
    ensures m < Power2(n) && PartsOf(m, n) == s
  {
    var t := Indicator(s, n);
    assert InBox(t, Twos(n));
    TuplesMember(Twos(n), t);
    TwosLength(n);
    m :| 0 <= m < |Tuples(Twos(n))| && Tuples(Twos(n))[m] == t;
    RowIsParts(n, m);
    forall i ensures i in PartsOf(m, n) <==> i in s {
      if 0 <= i < n { assert t[i] == Indicator(PartsOf(m, n), n)[i]; }
    }
  }

  lemma ClearedParts(n: nat, m: nat, i: nat)
    requires m < Power2(n) && i in PartsOf(m, n)
    ensures m >= Power2(i) && PartsOf(m - Power2(i), n) == PartsOf(m, n) - {i}
  {
    BitBound(m, i);
    forall j | 0 <= j < n
      ensures Bit(m - Power2(i), j) == if j == i then 0 else Bit(m, j)
    {
      ClearBit(m, i, j);
    }
  }

  // ------------------------------------------------------------------
  // Cores by enumeration
  // ------------------------------------------------------------------

  ghost predicate OkTable(cp: ClippedPuzzle, rules: Rules, ok: seq<bool>)
    requires WellFormed(cp)
  {
    |ok| == Power2(|cp.weights|) && forall m :: 0 <= m < |ok| ==> ok[m] == ValidSet(cp, rules, PartsOf(m, |cp.weights|))
  }

  /** Validity of every subset, by bitmask. */
  method ValidTable(cp: ClippedPuzzle, rules: Rules) returns (r: Result<seq<bool>>)
    requires WellFormed(cp) && ArraysTrusted(cp.caps, rules.aggregation)
    ensures r.Err? <==> |cp.weights| > MAX_ENUMERATE_PARTS || ValidityUndecidable(cp, rules)
    ensures r.Ok? ==> OkTable(cp, rules, r.value)
  {
    if |cp.weights| > MAX_ENUMERATE_PARTS { return Err(TooManyParts); }
    if ValidityUndecidable(cp, rules) { return Err(TooManyObstacles); }
    var arrays := SubsetArrays(cp, rules.aggregation);
    var ok: seq<bool> := [];
    TwosLength(|cp.weights|);
    for m := 0 to |arrays.value.agg|
      invariant |ok| == m
      invariant forall j :: 0 <= j < m ==> ok[j] == ValidSet(cp, rules, PartsOf(j, |cp.weights|))
    {
      var valid := RowValid(cp, rules, arrays.value, m);
      ExactRowIsValid(cp, rules, Tuples(Twos(|cp.attrs|))[m]);
      RowIsParts(|cp.weights|, m);
      ok := ok + [valid];
    }
    r := Ok(ok);
  }

  /** The rows that survive removing each of the first `bits` parts. */
  ghost predicate MinimalSoFar(cp: ClippedPuzzle, rules: Rules, m: nat, bits: nat)
    requires WellFormed(cp)
  {
    forall i :: i in PartsOf(m, |cp.weights|) && i < bits ==> !ValidSet(cp, rules, PartsOf(m, |cp.weights|) - {i})
  }

  lemma OneMoreBit(cp: ClippedPuzzle, rules: Rules, ok: seq<bool>, m: nat, bit: nat)
    requires WellFormed(cp) && OkTable(cp, rules, ok) && m < |ok| && bit < |cp.weights|
    ensures Bit(m, bit) == 1 ==> m >= Power2(bit)
    ensures MinimalSoFar(cp, rules, m, bit + 1) <==>
      MinimalSoFar(cp, rules, m, bit) && !(Bit(m, bit) == 1 && ok[m - Power2(bit)])
  {
    if Bit(m, bit) == 1 { ClearedParts(|cp.weights|, m, bit); }
  }

  /** Clear, bit by bit, every valid mask that stays valid without that part. */
  method AntichainByEnumeration(cp: ClippedPuzzle, rules: Rules) returns (r: Result<seq<nat>>)
    requires WellFormed(cp) && ArraysTrusted(cp.caps, rules.aggregation)
    ensures r.Err? <==> |cp.weights| > MAX_ENUMERATE_PARTS || ValidityUndecidable(cp, rules)
    ensures r.Ok? ==> forall s: Parts ::
      IsCore(cp, rules, s) <==> exists m :: m in r.value && m < Power2(|cp.weights|) && s == PartsOf(m, |cp.weights|)
  {
    var table := ValidTable(cp, rules);
    if table.Err? { return Err(table.error); }
    var n, ok := |cp.weights|, table.value;
    var minimal := ok;
    for bit := 0 to n
      invariant |minimal| == |ok|
      invariant forall m :: 0 <= m < |ok| ==> minimal[m] == (ok[m] && MinimalSoFar(cp, rules, m, bit))
    {
      forall m | 0 <= m < |ok|
        ensures Bit(m, bit) == 1 ==> m >= Power2(bit)
        ensures (ok[m] && MinimalSoFar(cp, rules, m, bit + 1)) == (minimal[m] && !(Bit(m, bit) == 1 && ok[m - Power2(bit)]))
      {
        OneMoreBit(cp, rules, ok, m, bit);
      }
      minimal := seq(|ok|, m requires 0 <= m < |ok| && |minimal| == |ok| && (Bit(m, bit) == 1 ==> m >= Power2(bit)) =>
        minimal[m] && !(Bit(m, bit) == 1 && ok[m - Power2(bit)]));
    }
    var picked := PickTrue(minimal);
    CoresPicked(cp, rules, ok, minimal, picked);
    r := Ok(picked);
  }

  method PickTrue(minimal: seq<bool>) returns (picked: seq<nat>)
    ensures forall m :: m in picked <==> 0 <= m < |minimal| && minimal[m]
  {
    picked := [];
    for m := 0 to |minimal|
      invariant forall j :: j in picked <==> 0 <= j < m && minimal[j]
    {
      if minimal[m] { picked := picked + [m]; }
    }
  }

  lemma CoresPicked(cp: ClippedPuzzle, rules: Rules, ok: seq<bool>, minimal: seq<bool>, picked: seq<nat>)
    requires WellFormed(cp) && OkTable(cp, rules, ok) && |minimal| == |ok|
    requires forall m :: 0 <= m < |ok| ==> minimal[m] == (ok[m] && MinimalSoFar(cp, rules, m, |cp.weights|))
    requires forall m :: m in picked <==> 0 <= m < |minimal| && minimal[m]
    ensures forall s: Parts ::
      IsCore(cp, rules, s) <==> exists m :: m in picked && m < Power2(|cp.weights|) && s == PartsOf(m, |cp.weights|)
  {
    var n := |cp.weights|;
    forall m | 0 <= m < |ok| ensures minimal[m] == IsCore(cp, rules, PartsOf(m, n)) {
    }
    forall s: Parts
      ensures IsCore(cp, rules, s) <==> exists m :: m in picked && m < Power2(n) && s == PartsOf(m, n)
    {
      if IsCore(cp, rules, s) {
        var m := PartsHaveRow(n, s);
        assert m in picked;
      }
    }
  }

  // ------------------------------------------------------------------
  // Cores by increasing size
  // ------------------------------------------------------------------

  /** Everything found so far is exactly the cores with fewer than k parts. */
  ghost predicate FoundBelow(cp: ClippedPuzzle, rules: Rules, found: seq<Parts>, k: nat)
    requires WellFormed(cp)
  {
    forall s: Parts :: s in found <==> IsCore(cp, rules, s) && |s| < k
  }

  /** A candidate that contains no smaller core is valid exactly when it is a core. */
  lemma LiveCandidate(cp: ClippedPuzzle, rules: Rules, found: seq<Parts>, k: nat, s: Parts)
    requires WellFormed(cp) && !rules.aggregation.Min? && FoundBelow(cp, rules, found, k) && |s| == k
    ensures IsCore(cp, rules, s) <==> (forall f :: f in found ==> !(f <= s)) && ValidSet(cp, rules, s)
  {
    if IsCore(cp, rules, s) {
      forall f | f in found ensures !(f <= s) {
        if f <= s { CoresIncomparable(cp, rules, f, s); }
      }
    }
    if ValidSet(cp, rules, s) && !IsCore(cp, rules, s) {
      var i :| i in s && ValidSet(cp, rules, s - {i});
      var core := ContainsCore(cp, rules, s - {i});
      SubsetSize(core, s - {i});
      assert core in found && core <= s;
    }
  }

  function CombinationParts(comb: seq<nat>): Parts { set i | i in comb }

  lemma {:induction false} CombinationSize(comb: seq<nat>, n: nat)
    requires IsCombination(comb, 0, n, |comb|)
    ensures InRange(CombinationParts(comb), n) && |CombinationParts(comb)| == |comb|
  {
    if comb != [] {
      var m := |comb| - 1;
      CombinationSize(comb[..m], n);
      assert CombinationParts(comb) == CombinationParts(comb[..m]) + {comb[m]};
      assert comb[m] !in comb[..m];
    } else {
      assert CombinationParts(comb) == {};
    }
  }

  lemma PartsSnoc(front: seq<nat>, x: nat)
    ensures CombinationParts(front + [x]) == CombinationParts(front) + {x}
  {
  }

  lemma CombinationSnoc(front: seq<nat>, n: nat, k: nat)
    requires IsCombination(front, 0, n, k)
    ensures IsCombination(front + [n], 0, n + 1, k + 1) && IsCombination(front, 0, n + 1, k)
  {
  }

  /** Every set of k parts is the set of one combination. */
  lemma {:induction false} PartsAsCombination(s: Parts, n: nat) returns (comb: seq<nat>)
    requires InRange(s, n)
    ensures IsCombination(comb, 0, n, |s|) && CombinationParts(comb) == s
    decreases n
  {
    if n == 0 {
      assert s == {};
      comb := [];
    } else if n - 1 in s {
      hide CombinationParts, IsCombination;
      var front := PartsAsCombination(s - {n - 1}, n - 1);
      comb := front + [n - 1];
      PartsSnoc(front, n - 1);
      CombinationSnoc(front, n - 1, |s| - 1);
    } else {
      hide CombinationParts, IsCombination;
      comb := PartsAsCombination(s, n - 1);
      CombinationSnoc(comb, n - 1, |s|);
    }
  }

  /** Is one candidate inside the budgets and valid? */
  method CandidateValid(cp: ClippedPuzzle, rules: Rules, s: Parts) returns (ok: bool)
    requires WellFormed(cp) && InRange(s, |cp.weights|) && !ValidityUndecidable(cp, rules)
    ensures ok == ValidSet(cp, rules, s)
  {
    var t := Indicator(s, |cp.weights|);
    if !Fits(cp, rules, t) { return false; }
    var mask := ValidMask(AggregateCounts(cp, rules.aggregation, t), cp, rules);
    ok := mask.value;
  }

  /** Candidates of one size, in combination order. */
  ghost predicate FoundUpTo(cp: ClippedPuzzle, rules: Rules, before: seq<Parts>, found: seq<Parts>, combs: seq<seq<nat>>, j: nat, k: nat)
    requires WellFormed(cp) && j <= |combs|
  {
    forall s: Parts :: s in found <==>
      s in before || (IsCore(cp, rules, s) && exists i :: 0 <= i < j && CombinationParts(combs[i]) == s)
  }

  /** Record one candidate when it contains no smaller core and is valid. */
  method TryCandidate(cp: ClippedPuzzle, rules: Rules, before: seq<Parts>, found: seq<Parts>, k: nat, s: Parts) returns (next: seq<Parts>)
    requires WellFormed(cp) && !rules.aggregation.Min? && !ValidityUndecidable(cp, rules) && FoundBelow(cp, rules, before, k)
    requires InRange(s, |cp.weights|) && |s| == k
    ensures next == if IsCore(cp, rules, s) then found + [s] else found
  {
    next := found;
    LiveCandidate(cp, rules, before, k, s);
    if forall f | f in before :: !(f <= s) {
      var ok := CandidateValid(cp, rules, s);
      if ok { next := found + [s]; }
    }
  }

  lemma NthCombination(n: nat, k: nat, j: nat)
    requires j < |Combinations(0, n, k)|
    ensures InRange(CombinationParts(Combinations(0, n, k)[j]), n) && |CombinationParts(Combinations(0, n, k)[j])| == k
  {
    var combs := Combinations(0, n, k);
    assert combs[j] in combs;
    CombinationsMember(0, n, k, combs[j]);
    CombinationSize(combs[j], n);
  }

  method SearchSize(cp: ClippedPuzzle, rules: Rules, before: seq<Parts>, k: nat) returns (found: seq<Parts>)
    requires WellFormed(cp) && !rules.aggregation.Min? && !ValidityUndecidable(cp, rules) && FoundBelow(cp, rules, before, k)
    ensures FoundBelow(cp, rules, found, k + 1)
  {
    hide IsCore, ValidSet, WellFormed, FoundBelow, ValidityUndecidable, Combinations;
    var n := |cp.weights|;
    var combs := Combinations(0, n, k);
    found := before;
    for j := 0 to |combs|
      invariant FoundUpTo(cp, rules, before, found, combs, j, k)
    {
      NthCombination(n, k, j);
      found := TryCandidate(cp, rules, before, found, k, CombinationParts(combs[j]));
    }
    SizeDone(cp, rules, before, found, combs, k);
  }

  lemma SizeDone(cp: ClippedPuzzle, rules: Rules, before: seq<Parts>, found: seq<Parts>, combs: seq<seq<nat>>, k: nat)
    requires WellFormed(cp) && FoundBelow(cp, rules, before, k) && combs == Combinations(0, |cp.weights|, k)
    requires FoundUpTo(cp, rules, before, found, combs, |combs|, k)
    ensures FoundBelow(cp, rules, found, k + 1)
  {
    var n := |cp.weights|;
    forall s: Parts ensures s in found <==> IsCore(cp, rules, s) && |s| < k + 1 {
      if s in found && s !in before {
        var i :| 0 <= i < |combs| && CombinationParts(combs[i]) == s;
        assert combs[i] in combs;
        CombinationsMember(0, n, k, combs[i]);
        CombinationSize(combs[i], n);
      }
      if IsCore(cp, rules, s) && |s| == k {
        var comb := PartsAsCombination(s, n);
        CombinationsMember(0, n, k, comb);
        var i :| 0 <= i < |combs| && combs[i] == comb;
      }
    }
  }

  /** Increasing-size search: the same cores as the enumeration finds. */
  method AntichainBySizeSearch(cp: ClippedPuzzle, rules: Rules) returns (found: seq<Parts>)
    requires WellFormed(cp) && !rules.aggregation.Min? && !ValidityUndecidable(cp, rules)
    ensures forall s: Parts :: s in found <==> IsCore(cp, rules, s)
  {
    var n := |cp.weights|;
    found := [];
    for k := 0 to n + 1
      invariant FoundBelow(cp, rules, found, k)
    {
      found := SearchSize(cp, rules, found, k);
    }
    forall s: Parts | IsCore(cp, rules, s) ensures |s| < n + 1 {
      var comb := PartsAsCombination(s, n);
      CombinationShort(comb, n);
    }
  }

  lemma {:induction false} CombinationShort(comb: seq<nat>, n: nat)
    requires IsCombination(comb, 0, n, |comb|)
    ensures |comb| <= n
  {
    if comb != [] {
      FullCombinationBottom(comb, 0, |comb| - 1);
    }
  }
}
