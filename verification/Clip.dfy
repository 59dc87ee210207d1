/** Attribute clipping: the saturated puzzle, and why no obstacle can tell. */
module Clip {
  import opened Counting
  import opened Puzzle

  datatype ClippedPuzzle = ClippedPuzzle(
    caps: Vec,
    weights: seq<nat>,
    attrs: seq<Vec>,
    qty: seq<nat>,
    slots: seq<nat>,
    costs: seq<nat>,
    reqs: seq<Vec>,
    spends: seq<bool>)

  const MAX_SUBSET_SEARCH := 14

  ghost predicate WellFormed(cp: ClippedPuzzle) {
    && |cp.weights| == |cp.attrs| == |cp.qty| == |cp.slots| == |cp.costs|
    && |cp.spends| == |cp.reqs|
    && IsMatrix(cp.attrs, |cp.caps|)
    && IsMatrix(cp.reqs, |cp.caps|)
    && forall i, k :: 0 <= i < |cp.attrs| && 0 <= k < |cp.caps| ==> cp.attrs[i][k] <= cp.caps[k]
  }

  /** Saturate a capability at the caps. */
  function Saturate(a: Vec, caps: Vec): (r: Vec)
    requires |a| == |caps|
    ensures |r| == |caps|
  {
    seq(|caps|, k requires 0 <= k < |caps| => Smaller(a[k], caps[k]))
  }

  // ------------------------------------------------------------------
  // What the obstacles ask for, attribute by attribute
  // ------------------------------------------------------------------

  /** The largest single ask. */
  function PeakNeed(reqs: seq<Vec>, k: nat): nat
    requires forall i :: 0 <= i < |reqs| ==> k < |reqs[i]|
  {
    if reqs == [] then 0 else Larger(reqs[0][k], PeakNeed(reqs[1..], k))
  }

  /** The sum of all asks. */
  function TotalNeed(reqs: seq<Vec>, k: nat): nat
    requires forall i :: 0 <= i < |reqs| ==> k < |reqs[i]|
  {
    if reqs == [] then 0 else reqs[0][k] + TotalNeed(reqs[1..], k)
  }

  /** The pool that survives the whole sequence, spending where `spends` says. */
  function SequenceNeed(reqs: seq<Vec>, spends: seq<bool>, k: nat): nat
    requires |reqs| == |spends|
    requires forall i :: 0 <= i < |reqs| ==> k < |reqs[i]|
    decreases |reqs|
  {
    if reqs == [] then 0
    else Larger(reqs[0][k], (if spends[0] then reqs[0][k] else 0) + SequenceNeed(reqs[1..], spends[1..], k))
  }

  function Need(semantics: Semantics, reqs: seq<Vec>, spends: seq<bool>, k: nat): nat
    requires |reqs| == |spends|
    requires forall i :: 0 <= i < |reqs| ==> k < |reqs[i]|
  {
    match semantics
    case Threshold => PeakNeed(reqs, k)
    case Consumable => TotalNeed(reqs, k)
    case Mixed => SequenceNeed(reqs, spends, k)
  }

  /** The cap policy: the peak when nothing is spent, else the sum. */
  function Cap(semantics: Semantics, reqs: seq<Vec>, k: nat): nat
    requires forall i :: 0 <= i < |reqs| ==> k < |reqs[i]|
  {
    if semantics.Threshold? then PeakNeed(reqs, k) else TotalNeed(reqs, k)
  }

  lemma {:induction false} PeakBounds(reqs: seq<Vec>, k: nat)
    requires forall i :: 0 <= i < |reqs| ==> k < |reqs[i]|
    ensures forall i :: 0 <= i < |reqs| ==> reqs[i][k] <= PeakNeed(reqs, k)
    ensures PeakNeed(reqs, k) <= TotalNeed(reqs, k)
  {
    if reqs != [] {
      PeakBounds(reqs[1..], k);
      forall i | 0 <= i < |reqs| ensures reqs[i][k] <= PeakNeed(reqs, k) {
        if i > 0 { assert reqs[i] == reqs[1..][i-1]; }
      }
    }
  }

  lemma {:induction false} SequenceNeedBounds(reqs: seq<Vec>, spends: seq<bool>, k: nat)
    requires |reqs| == |spends|
    requires forall i :: 0 <= i < |reqs| ==> k < |reqs[i]|
    ensures PeakNeed(reqs, k) <= SequenceNeed(reqs, spends, k) <= TotalNeed(reqs, k)
    ensures (forall i :: 0 <= i < |spends| ==> spends[i]) ==> SequenceNeed(reqs, spends, k) == TotalNeed(reqs, k)
    ensures (forall i :: 0 <= i < |spends| ==> !spends[i]) ==> SequenceNeed(reqs, spends, k) == PeakNeed(reqs, k)
    decreases |reqs|
  {
    if reqs != [] {
      SequenceNeedBounds(reqs[1..], spends[1..], k);
      PeakBounds(reqs, k);
      PeakBounds(reqs[1..], k);
    }
  }

  // ------------------------------------------------------------------
  // One capability vector replaces the walk
  // ------------------------------------------------------------------

  lemma {:induction false} WalkAtMost(pool: Vec, reqs: seq<Vec>, spends: seq<bool>)
    requires |reqs| == |spends|
    ensures Walk(pool, reqs, spends) <= |reqs|
    decreases |reqs|
  {
    if reqs != [] {
      WalkAtMost(pool, reqs[1..], spends[1..]);
      if Dominates(pool, reqs[0]) { WalkAtMost(Minus(pool, reqs[0]), reqs[1..], spends[1..]); }
    }
  }

  /** The walk clears every obstacle exactly when the capability covers the
      sequence's need on every attribute. */
  lemma {:induction false} WalkClearsAll(pool: Vec, reqs: seq<Vec>, spends: seq<bool>)
    requires |reqs| == |spends| && IsMatrix(reqs, |pool|)
    ensures Walk(pool, reqs, spends) == |reqs|
       <==> forall k :: 0 <= k < |pool| ==> pool[k] >= SequenceNeed(reqs, spends, k)
    decreases |reqs|
  {
    if reqs != [] {
      WalkAtMost(pool, reqs[1..], spends[1..]);
      if Dominates(pool, reqs[0]) {
        var rest := if spends[0] then Minus(pool, reqs[0]) else pool;
        WalkClearsAll(rest, reqs[1..], spends[1..]);
        assert forall k :: 0 <= k < |pool| ==>
          (pool[k] >= SequenceNeed(reqs, spends, k) <==> rest[k] >= SequenceNeed(reqs[1..], spends[1..], k));
      } else {
        var k :| 0 <= k < |pool| && pool[k] < reqs[0][k];
        assert pool[k] < SequenceNeed(reqs, spends, k);
      }
    }
  }

  /** At least one obstacle is cleared exactly when one is affordable on its own. */
  lemma {:induction false} WalkClearsOne(pool: Vec, reqs: seq<Vec>, spends: seq<bool>)
    requires |reqs| == |spends| && IsMatrix(reqs, |pool|)
    ensures Walk(pool, reqs, spends) >= 1 <==> exists i :: 0 <= i < |reqs| && Dominates(pool, reqs[i])
    decreases |reqs|
  {
    if reqs != [] && !Dominates(pool, reqs[0]) {
      WalkClearsOne(pool, reqs[1..], spends[1..]);
      if exists i :: 0 <= i < |reqs| && Dominates(pool, reqs[i]) {
        var i :| 0 <= i < |reqs| && Dominates(pool, reqs[i]);
        assert Dominates(pool, reqs[1..][i-1]);
      }
    }
  }

  lemma {:induction false} ClearedIsWalk(a: Vec, reqs: seq<Vec>, spends: seq<bool>)
    requires |reqs| == |spends| && forall i :: 0 <= i < |spends| ==> !spends[i]
    ensures Cleared(a, reqs) == Walk(a, reqs, spends)
    decreases |reqs|
  {
    if reqs != [] { ClearedIsWalk(a, reqs[1..], spends[1..]); }
  }

  lemma {:induction false} CombinedFrom(reqs: seq<Vec>, comb: seq<nat>, lo: nat, k: nat)
    requires forall i :: 0 <= i < |reqs| ==> k < |reqs[i]|
    requires lo + |comb| == |reqs|
    requires forall i :: 0 <= i < |comb| ==> comb[i] == lo + i
    ensures CombinedNeed(reqs, comb, k) == TotalNeed(reqs[lo..], k)
    decreases |comb|
  {
    if comb != [] {
      CombinedFrom(reqs, comb[1..], lo + 1, k);
      assert reqs[lo..][1..] == reqs[lo+1..];
    }
  }

  lemma {:induction false} FullCombination(comb: seq<nat>, lo: nat, m: nat, i: nat)
    requires lo <= m && IsCombination(comb, lo, m, m - lo) && i < |comb|
    ensures comb[i] == lo + i
  {
    FullCombinationTop(comb, lo, m, i);
    FullCombinationBottom(comb, lo, i);
  }

  lemma {:induction false} FullCombinationBottom(comb: seq<nat>, lo: nat, i: nat)
    requires i < |comb| && comb[0] >= lo && forall a, b :: 0 <= a < b < |comb| ==> comb[a] < comb[b]
    ensures comb[i] >= lo + i
  {
    if i > 0 { FullCombinationBottom(comb, lo, i - 1); }
  }

  lemma {:induction false} FullCombinationTop(comb: seq<nat>, lo: nat, m: nat, i: nat)
    requires IsCombination(comb, lo, m, |comb|) && lo <= m && i < |comb| && |comb| == m - lo
    ensures comb[i] <= lo + i
    decreases |comb| - i
  {
    if i + 1 < |comb| { FullCombinationTop(comb, lo, m, i + 1); }
  }

  /** Every obstacle is affordable together exactly when the total need is covered. */
  lemma AffordsAll(a: Vec, reqs: seq<Vec>)
    requires IsMatrix(reqs, |a|)
    ensures AffordsSome(a, reqs, |reqs|) <==> forall k :: 0 <= k < |a| ==> a[k] >= TotalNeed(reqs, k)
  {
    var m := |reqs|;
    var all := seq(m, i => i);
    CombinationsMember(0, m, m, all);
    forall comb, k | IsCombination(comb, 0, m, m) && 0 <= k < |a|
      ensures CombinedNeed(reqs, comb, k) == TotalNeed(reqs, k)
    {
      forall i | 0 <= i < m ensures comb[i] == i { FullCombination(comb, 0, m, i); }
      CombinedFrom(reqs, comb, 0, k);
      assert reqs[0..] == reqs;
    }
    if forall k :: 0 <= k < |a| ==> a[k] >= TotalNeed(reqs, k) {
      assert Affords(a, reqs, all);
    }
  }

  /** Some obstacle is affordable alone whenever any non-empty set is affordable together. */
  lemma AffordsOne(a: Vec, reqs: seq<Vec>, k: nat)
    requires IsMatrix(reqs, |a|) && k > 0 && AffordsSome(a, reqs, k)
    ensures exists i :: 0 <= i < |reqs| && Dominates(a, reqs[i])
  {
    var comb :| comb in Combinations(0, |reqs|, k) && IsCombination(comb, 0, |reqs|, k) && Affords(a, reqs, comb);
    forall j | 0 <= j < |a| ensures a[j] >= reqs[comb[0]][j] {
      assert a[j] >= CombinedNeed(reqs, comb, j);
    }
    assert Dominates(a, reqs[comb[0]]);
  }

  lemma SingleAffords(a: Vec, reqs: seq<Vec>, i: nat)
    requires IsMatrix(reqs, |a|) && i < |reqs| && Dominates(a, reqs[i])
    ensures AffordsSome(a, reqs, 1)
  {
    CombinationsMember(0, |reqs|, 1, [i]);
    forall k | 0 <= k < |a| ensures CombinedNeed(reqs, [i], k) == reqs[i][k] {
      assert CombinedNeed(reqs, [i][1..], k) == 0;
    }
    assert Affords(a, reqs, [i]);
  }

  /** Every obstacle cleared: one elementwise test, whatever the semantics. */
  lemma PassedAll(a: Vec, reqs: seq<Vec>, spends: seq<bool>, rules: Rules)
    requires IsMatrix(reqs, |a|) && |spends| == |reqs|
    ensures Passed(a, reqs, spends, rules) == |reqs|
       <==> forall k :: 0 <= k < |a| ==> a[k] >= Need(rules.semantics, reqs, spends, k)
  {
    var under := SpendsUnder(rules.semantics, spends);
    forall k | 0 <= k < |a|
      ensures Need(rules.semantics, reqs, spends, k) == SequenceNeed(reqs, under, k)
    {
      SequenceNeedBounds(reqs, under, k);
    }
    WalkClearsAll(a, reqs, under);
    if rules.semantics.Threshold? { ClearedIsWalk(a, reqs, under); }
    if rules.semantics.Consumable? && rules.ordering.Unordered? { AffordsAll(a, reqs); }
  }

  /** At least one obstacle cleared: one obstacle affordable alone, whatever the
      semantics and the order. */
  lemma PassedOne(a: Vec, reqs: seq<Vec>, spends: seq<bool>, rules: Rules)
    requires IsMatrix(reqs, |a|) && |spends| == |reqs|
    ensures Passed(a, reqs, spends, rules) >= 1
       <==> exists i :: 0 <= i < |reqs| && Dominates(a, reqs[i])
  {
    var under := SpendsUnder(rules.semantics, spends);
    WalkClearsOne(a, reqs, under);
    if rules.semantics.Threshold? { ClearedIsWalk(a, reqs, under); }
    if rules.semantics.Consumable? && rules.ordering.Unordered? {
      var best := LargestAffordable(a, reqs, |reqs|);
      if best > 0 { AffordsOne(a, reqs, best); }
      if exists i :: 0 <= i < |reqs| && Dominates(a, reqs[i]) {
        var i :| 0 <= i < |reqs| && Dominates(a, reqs[i]);
        SingleAffords(a, reqs, i);
      }
    }
  }

  /** The cheapest-obstacle prune loses no build: a capability that clears
      anything covers the columnwise minimum of the requirements. */
  lemma PruneLosesNothing(a: Vec, reqs: seq<Vec>, spends: seq<bool>, rules: Rules, cheapest: Vec)
    requires IsMatrix(reqs, |a|) && |spends| == |reqs|
    requires |cheapest| == |a|
    requires forall i, k :: 0 <= i < |reqs| && 0 <= k < |a| ==> cheapest[k] <= reqs[i][k]
    requires Passed(a, reqs, spends, rules) >= 1
    ensures Dominates(a, cheapest)
  {
    PassedOne(a, reqs, spends, rules);
  }

  lemma {:induction false} TotalNeedAppend(xs: seq<Vec>, ys: seq<Vec>, k: nat)
    requires forall i :: 0 <= i < |xs| ==> k < |xs[i]|
    requires forall i :: 0 <= i < |ys| ==> k < |ys[i]|
    ensures TotalNeed(xs + ys, k) == TotalNeed(xs, k) + TotalNeed(ys, k)
  {
    if xs == [] {
      assert xs + ys == ys;
    } else {
      assert (xs + ys)[1..] == xs[1..] + ys;
      TotalNeedAppend(xs[1..], ys, k);
    }
  }

  lemma {:induction false} TotalNeedPermuted(xs: seq<Vec>, ys: seq<Vec>, n: nat, k: nat)
    requires multiset(xs) == multiset(ys) && IsMatrix(xs, n) && IsMatrix(ys, n) && k < n
    ensures TotalNeed(xs, k) == TotalNeed(ys, k)
  {
    if xs == [] {
      assert |ys| == |multiset(ys)|;
    } else {
      var i := MatchFirst(xs, ys);
      TotalNeedPermuted(xs[1..], RemoveAt(ys, i), n, k);
      assert ys == ys[..i] + ([ys[i]] + ys[i+1..]);
      TotalNeedAppend(ys[..i], [ys[i]] + ys[i+1..], k);
      TotalNeedAppend(ys[..i], ys[i+1..], k);
      assert ([ys[i]] + ys[i+1..])[1..] == ys[i+1..];
    }
  }

  /** Consumable obstacles: every order of the sequence clears all of them, or none does. */
  lemma OrderIsIrrelevant(a: Vec, reqs: seq<Vec>, reordered: seq<Vec>, spends: seq<bool>)
    requires IsMatrix(reqs, |a|) && multiset(reqs) == multiset(reordered)
    requires |spends| == |reqs| && forall i :: 0 <= i < |spends| ==> spends[i]
    ensures |reordered| == |reqs|
    ensures Walk(a, reqs, spends) == |reqs| <==> Walk(a, reordered, spends) == |reqs|
  {
    assert |reqs| == |multiset(reqs)| == |reordered|;
    forall i | 0 <= i < |reordered| ensures |reordered[i]| == |a| {
      assert reordered[i] in multiset(reqs);
    }
    WalkClearsAll(a, reqs, spends);
    WalkClearsAll(a, reordered, spends);
    forall k | 0 <= k < |a| ensures SequenceNeed(reqs, spends, k) == SequenceNeed(reordered, spends, k) {
      SequenceNeedBounds(reqs, spends, k);
      SequenceNeedBounds(reordered, spends, k);
      TotalNeedPermuted(reqs, reordered, |a|, k);
    }
  }

  // ------------------------------------------------------------------
  // Clipping is invisible to the obstacles
  // ------------------------------------------------------------------

  /** `b` is `a` saturated at a ceiling that covers everything still to be spent. */
  ghost predicate SaturatedAbove(a: Vec, b: Vec, reqs: seq<Vec>)
    requires IsMatrix(reqs, |a|)
  {
    |b| == |a| && forall k :: 0 <= k < |a| ==> b[k] == a[k] || (b[k] < a[k] && b[k] >= TotalNeed(reqs, k))
  }

  lemma {:induction false} WalkIgnoresSaturation(a: Vec, b: Vec, reqs: seq<Vec>, spends: seq<bool>)
    requires |reqs| == |spends| && IsMatrix(reqs, |a|) && SaturatedAbove(a, b, reqs)
    ensures Walk(a, reqs, spends) == Walk(b, reqs, spends)
    decreases |reqs|
  {
    if reqs != [] {
      assert Dominates(a, reqs[0]) == Dominates(b, reqs[0]);
      if Dominates(a, reqs[0]) && spends[0] {
        WalkIgnoresSaturation(Minus(a, reqs[0]), Minus(b, reqs[0]), reqs[1..], spends[1..]);
      } else {
        WalkIgnoresSaturation(a, b, reqs[1..], spends[1..]);
      }
    }
  }

  lemma {:induction false} ClearedIgnoresSaturation(a: Vec, b: Vec, reqs: seq<Vec>)
    requires IsMatrix(reqs, |a|) && |b| == |a|
    requires forall k :: 0 <= k < |a| ==> b[k] == a[k] || (b[k] < a[k] && b[k] >= PeakNeed(reqs, k))
    ensures Cleared(a, reqs) == Cleared(b, reqs)
  {
    if reqs != [] {
      forall k | 0 <= k < |a| ensures reqs[0][k] <= PeakNeed(reqs, k) { PeakBounds(reqs, k); }
      assert Dominates(a, reqs[0]) == Dominates(b, reqs[0]);
      ClearedIgnoresSaturation(a, b, reqs[1..]);
    }
  }

  lemma {:induction false} CombinedAtMostTotal(reqs: seq<Vec>, comb: seq<nat>, lo: nat, k: nat)
    requires forall i :: 0 <= i < |reqs| ==> k < |reqs[i]|
    requires lo <= |reqs| && IsCombination(comb, lo, |reqs|, |comb|)
    ensures CombinedNeed(reqs, comb, k) <= TotalNeed(reqs[lo..], k)
    decreases |reqs| - lo
  {
    if comb != [] {
      assert lo <= comb[0] < |reqs|;
      assert reqs[lo..][1..] == reqs[lo+1..];
      if comb[0] == lo {
        forall i | 0 <= i < |comb[1..]| ensures lo + 1 <= comb[1..][i] { assert comb[0] < comb[i+1]; }
        CombinedAtMostTotal(reqs, comb[1..], lo + 1, k);
      } else {
        forall i | 0 <= i < |comb| ensures lo + 1 <= comb[i] { assert i == 0 || comb[0] < comb[i]; }
        CombinedAtMostTotal(reqs, comb, lo + 1, k);
      }
    }
  }

  lemma AffordsIgnoresSaturation(a: Vec, b: Vec, reqs: seq<Vec>, j: nat)
    requires IsMatrix(reqs, |a|) && SaturatedAbove(a, b, reqs)
    ensures AffordsSome(a, reqs, j) == AffordsSome(b, reqs, j)
  {
    forall comb | comb in Combinations(0, |reqs|, j) && IsCombination(comb, 0, |reqs|, j)
      ensures Affords(a, reqs, comb) == Affords(b, reqs, comb)
    {
      forall k | 0 <= k < |a| ensures CombinedNeed(reqs, comb, k) <= TotalNeed(reqs, k) {
        CombinedAtMostTotal(reqs, comb, 0, k);
        assert reqs[0..] == reqs;
      }
    }
  }

  lemma {:induction false} LargestIgnoresSaturation(a: Vec, b: Vec, reqs: seq<Vec>, j: nat)
    requires IsMatrix(reqs, |a|) && SaturatedAbove(a, b, reqs)
    ensures LargestAffordable(a, reqs, j) == LargestAffordable(b, reqs, j)
  {
    if j > 0 {
      AffordsIgnoresSaturation(a, b, reqs, j);
      LargestIgnoresSaturation(a, b, reqs, j - 1);
    }
  }

  ghost predicate PolicyCaps(caps: Vec, reqs: seq<Vec>, semantics: Semantics)
    requires IsMatrix(reqs, |caps|)
  {
    forall k :: 0 <= k < |caps| ==> caps[k] == Cap(semantics, reqs, k)
  }

  /** THE CLIP: saturating a capability at the policy's caps changes the number of
      obstacles cleared under no semantics and no ordering. */
  lemma ClippingIsInvisible(a: Vec, caps: Vec, reqs: seq<Vec>, spends: seq<bool>, rules: Rules)
    requires |a| == |caps| && |spends| == |reqs| && IsMatrix(reqs, |caps|) && PolicyCaps(caps, reqs, rules.semantics)
    ensures Passed(Saturate(a, caps), reqs, spends, rules) == Passed(a, reqs, spends, rules)
  {
    var b := Saturate(a, caps);
    if rules.semantics.Threshold? {
      ClearedIgnoresSaturation(a, b, reqs);
    } else {
      assert SaturatedAbove(a, b, reqs);
      LargestIgnoresSaturation(a, b, reqs, |reqs|);
      WalkIgnoresSaturation(a, b, reqs, SpendsUnder(rules.semantics, spends));
    }
  }

  // ------------------------------------------------------------------
  // Clipped aggregates
  // ------------------------------------------------------------------

  function AttrColumn(cp: ClippedPuzzle, k: nat): seq<nat>
    requires k < |cp.caps| && IsMatrix(cp.attrs, |cp.caps|)
  {
    seq(|cp.attrs|, i requires 0 <= i < |cp.attrs| => cp.attrs[i][k])
  }

  /** Capability of a whole build from clipped attributes, saturated. */
  function AggregateCounts(cp: ClippedPuzzle, aggregation: Aggregation, c: Tuple): (agg: Vec)
    requires |c| <= |cp.attrs| && IsMatrix(cp.attrs, |cp.caps|)
    ensures |agg| == |cp.caps|
  {
    seq(|cp.caps|, k requires 0 <= k < |cp.caps| =>
      Smaller(Aggregate(aggregation, c, AttrColumn(cp, k)), cp.caps[k]))
  }

  function ClipColumn(v: seq<nat>, cap: nat): (w: seq<nat>)
    ensures |w| == |v|
  {
    seq(|v|, i requires 0 <= i < |v| => Smaller(v[i], cap))
  }

  lemma {:induction false} DotSaturates(c: Tuple, v: seq<nat>, cap: nat)
    requires |c| <= |v|
    ensures Smaller(Dot(c, ClipColumn(v, cap)), cap) == Smaller(Dot(c, v), cap)
    ensures Dot(c, ClipColumn(v, cap)) <= Dot(c, v)
  {
    if c != [] {
      var n := |c| - 1;
      DotSaturates(c[..n], v, cap);
      SaturatingStep(Dot(c[..n], ClipColumn(v, cap)), Dot(c[..n], v), c[n], v[n], cap);
    }
  }

  /** Adding copies of a clipped value to a saturated total saturates like adding the raw ones. */
  lemma SaturatingStep(x: nat, y: nat, copies: nat, v: nat, cap: nat)
    requires Smaller(x, cap) == Smaller(y, cap) && x <= y
    ensures Smaller(x + copies * Smaller(v, cap), cap) == Smaller(y + copies * v, cap)
    ensures x + copies * Smaller(v, cap) <= y + copies * v
  {
    var a, b := copies * Smaller(v, cap), copies * v;
    if v > cap {
      CopiesMonotone(copies, cap, v);
      if copies == 0 {
        assert a == 0 && b == 0;
      } else {
        assert a >= cap;
      }
    }
  }

  lemma {:induction false} CopiesMonotone(copies: nat, x: nat, y: nat)
    requires x <= y
    ensures copies * x <= copies * y
    ensures copies > 0 ==> copies * x >= x
  {
    if copies > 0 {
      CopiesMonotone(copies - 1, x, y);
      assert copies * x == (copies - 1) * x + x && copies * y == (copies - 1) * y + y;
    }
  }

  lemma {:induction false} LeastSaturates(c: Tuple, v: seq<nat>, cap: nat)
    requires |c| <= |v|
    ensures LeastChosen(c, ClipColumn(v, cap)).Some? == LeastChosen(c, v).Some?
    ensures LeastChosen(c, v).Some? ==> LeastChosen(c, ClipColumn(v, cap)).value == Smaller(LeastChosen(c, v).value, cap)
  {
    if c != [] { LeastSaturates(c[..|c|-1], v, cap); }
  }

  lemma {:induction false} GreatestSaturates(c: Tuple, v: seq<nat>, cap: nat)
    requires |c| <= |v|
    ensures GreatestChosen(c, ClipColumn(v, cap)).Some? == GreatestChosen(c, v).Some?
    ensures GreatestChosen(c, v).Some? ==> GreatestChosen(c, ClipColumn(v, cap)).value == Smaller(GreatestChosen(c, v).value, cap)
  {
    if c != [] { GreatestSaturates(c[..|c|-1], v, cap); }
  }

  lemma AggregateSaturates(aggregation: Aggregation, c: Tuple, v: seq<nat>, cap: nat)
    requires |c| <= |v|
    ensures Smaller(Aggregate(aggregation, c, ClipColumn(v, cap)), cap) == Smaller(Aggregate(aggregation, c, v), cap)
  {
    DotSaturates(c, v, cap);
    LeastSaturates(c, v, cap);
    GreatestSaturates(c, v, cap);
  }

  // ------------------------------------------------------------------
  // Running aggregates: a partial build, seeded with the neutral element
  // ------------------------------------------------------------------

  predicate Chosen(c: Tuple) { exists i :: 0 <= i < |c| && c[i] > 0 }

  /** One attribute of a partial build, seeded with the aggregation's neutral
      element: the cap for min, zero otherwise. */
  function Running(aggregation: Aggregation, c: Tuple, v: seq<nat>, cap: nat): nat
    requires |c| <= |v|
  {
    match aggregation
    case Sum => Smaller(Dot(c, v), cap)
    case Min => (match LeastChosen(c, v) case None => cap case Some(x) => x)
    case Max => (match GreatestChosen(c, v) case None => 0 case Some(x) => x)
  }

  /** Fold one running value into another. */
  function Combine(aggregation: Aggregation, a: nat, b: nat, cap: nat): nat {
    match aggregation
    case Sum => Smaller(a + b, cap)
    case Min => Smaller(a, b)
    case Max => Larger(a, b)
  }

  lemma {:induction false} ChosenBounds(c: Tuple, v: seq<nat>, cap: nat)
    requires |c| <= |v| && forall i :: 0 <= i < |v| ==> v[i] <= cap
    ensures LeastChosen(c, v).Some? == GreatestChosen(c, v).Some? == Chosen(c)
    ensures Chosen(c) ==> LeastChosen(c, v).value <= cap && GreatestChosen(c, v).value <= cap
    ensures !Chosen(c) ==> Dot(c, v) == 0
  {
    if c != [] {
      var n := |c| - 1;
      ChosenBounds(c[..n], v, cap);
      if Chosen(c) {
        var i :| 0 <= i < |c| && c[i] > 0;
        if i < n { assert c[..n][i] > 0; }
      } else {
        assert c[n] == 0;
      }
      if Chosen(c[..n]) {
        var i :| 0 <= i < n && c[..n][i] > 0;
        assert c[i] > 0;
      }
    }
  }

  lemma DotStep(c: Tuple, copies: nat, v: seq<nat>)
    requires |c| < |v|
    ensures Dot(c + [copies], v) == Dot(c, v) + copies * v[|c|]
  {
    assert (c + [copies])[..|c|] == c;
  }

  lemma ChosenStep(c: Tuple, copies: nat)
    ensures Chosen(c + [copies]) <==> Chosen(c) || copies > 0
  {
    var d := c + [copies];
    if Chosen(c) {
      var i :| 0 <= i < |c| && c[i] > 0;
      assert d[i] > 0;
    }
    if copies > 0 { assert d[|c|] > 0; }
  }

  lemma SaturateAgain(x: nat, delta: nat, cap: nat)
    ensures Smaller(Smaller(x, cap) + delta, cap) == Smaller(x + delta, cap)
  {
  }

  lemma ChosenPrefix(c: Tuple, copies: nat, v: seq<nat>)
    requires |c| < |v|
    ensures var d := c + [copies]; d[..|d|-1] == c && d[|d|-1] == copies
    ensures LeastChosen(c + [copies], v) ==
      if copies == 0 then LeastChosen(c, v)
      else if LeastChosen(c, v).Some? && LeastChosen(c, v).value <= v[|c|] then LeastChosen(c, v) else Some(v[|c|])
    ensures GreatestChosen(c + [copies], v) ==
      if copies == 0 then GreatestChosen(c, v)
      else if GreatestChosen(c, v).Some? && GreatestChosen(c, v).value >= v[|c|] then GreatestChosen(c, v) else Some(v[|c|])
  {
    assert (c + [copies])[..|c|] == c;
  }

  // ------------------------------------------------------------------
  // The clipped puzzle and its own notion of validity
  // ------------------------------------------------------------------

  /** The clipped view of a puzzle. */
  function ClipOf(p: BuilderPuzzle): ClippedPuzzle {
    var reqs := Requirements(p);
    var caps := seq(|p.names|, k requires 0 <= k < |p.names| => Cap(p.rules.semantics, reqs, k));
    ClippedPuzzle(
      caps,
      Weights(p),
      seq(|p.parts|, i requires 0 <= i < |p.parts| =>
        seq(|p.names|, k requires 0 <= k < |p.names| => Smaller(Attr(p.parts[i], p.names[k]), caps[k]))),
      seq(|p.parts|, i requires 0 <= i < |p.parts| => Larger(p.parts[i].qtyAvailable, 0)),
      Slots(p),
      Costs(p),
      reqs,
      Kinds(p))
  }

  lemma ClipOfWellFormed(p: BuilderPuzzle)
    ensures WellFormed(ClipOf(p)) && PolicyCaps(ClipOf(p).caps, ClipOf(p).reqs, p.rules.semantics)
  {
  }

  predicate Fits(cp: ClippedPuzzle, rules: Rules, c: Tuple)
    requires |c| <= |cp.weights| && |c| <= |cp.slots| && |c| <= |cp.costs|
  {
    && Within(Dot(c, cp.weights), rules.weightMax)
    && Within(Dot(c, cp.slots), rules.slotMax)
    && Within(Dot(c, cp.costs), rules.moneyMax)
  }

  /** The capability a build must reach to clear everything. */
  function RequiredVector(cp: ClippedPuzzle, semantics: Semantics): (needed: Vec)
    requires |cp.spends| == |cp.reqs| && IsMatrix(cp.reqs, |cp.caps|)
    ensures |needed| == |cp.caps|
  {
    seq(|cp.caps|, k requires 0 <= k < |cp.caps| => Smaller(Need(semantics, cp.reqs, cp.spends, k), cp.caps[k]))
  }

  /** Validity of an aggregate, budgets aside. */
  predicate ValidAggregate(cp: ClippedPuzzle, rules: Rules, agg: Vec)
    requires |cp.spends| == |cp.reqs| && IsMatrix(cp.reqs, |cp.caps|) && |agg| == |cp.caps|
  {
    if rules.failureMode.AllMustPass? then Dominates(agg, RequiredVector(cp, rules.semantics))
    else Passed(agg, cp.reqs, cp.spends, rules) >= COUNT_PASSED_MIN_PASSED
  }

  ghost predicate ValidBuild(cp: ClippedPuzzle, rules: Rules, c: Tuple)
    requires WellFormed(cp)
  {
    |c| == |cp.weights| && Fits(cp, rules, c) && ValidAggregate(cp, rules, AggregateCounts(cp, rules.aggregation, c))
  }

  /** Copy choices per part on the clipped side: without duplicates a part is in
      or out whatever its stock says. */
  function CopyRanges(cp: ClippedPuzzle, rules: Rules): (sizes: seq<nat>)
    ensures |sizes| == |cp.qty|
  {
    seq(|cp.qty|, i requires 0 <= i < |cp.qty| => (if rules.duplicatesAllowed then cp.qty[i] else 1) + 1)
  }

  /** What every fast counter must return. */
  ghost function CountValid(cp: ClippedPuzzle, rules: Rules): nat
    requires WellFormed(cp)
  {
    Count(Tuples(CopyRanges(cp, rules)), c => ValidBuild(cp, rules, c))
  }

  /** With policy caps the required vector is an exact test for clearing everything. */
  lemma ValidAggregateIsSuccess(cp: ClippedPuzzle, rules: Rules, agg: Vec)
    requires WellFormed(cp) && PolicyCaps(cp.caps, cp.reqs, rules.semantics) && |agg| == |cp.caps|
    ensures ValidAggregate(cp, rules, agg)
       <==> Succeeds(Passed(agg, cp.reqs, cp.spends, rules), |cp.reqs|, rules.failureMode)
  {
    PassedAll(agg, cp.reqs, cp.spends, rules);
    forall k | 0 <= k < |cp.caps|
      ensures RequiredVector(cp, rules.semantics)[k] == Need(rules.semantics, cp.reqs, cp.spends, k)
    {
      SequenceNeedBounds(cp.reqs, cp.spends, k);
    }
  }

  /** Aggregating clipped attributes with saturation is saturating the raw aggregate. */
  lemma ClippedAggregateIsSaturated(p: BuilderPuzzle, c: Tuple)
    requires |c| == |p.parts|
    ensures WellFormed(ClipOf(p)) && |ClipOf(p).caps| == |p.names|
    ensures AggregateCounts(ClipOf(p), p.rules.aggregation, c) == Saturate(RawAggregate(p, c), ClipOf(p).caps)
  {
    var cp := ClipOf(p);
    ClipOfWellFormed(p);
    var raw, agg := RawAggregate(p, c), AggregateCounts(cp, p.rules.aggregation, c);
    forall k | 0 <= k < |cp.caps| ensures agg[k] == Saturate(raw, cp.caps)[k] {
      assert AttrColumn(cp, k) == ClipColumn(Column(p, k), cp.caps[k]);
      AggregateSaturates(p.rules.aggregation, c, Column(p, k), cp.caps[k]);
    }
  }

  /** A build is valid on the clipped puzzle exactly when the reference accepts it. */
  lemma ClippedValidIsAccepted(p: BuilderPuzzle, c: Tuple)
    requires |c| == |p.parts|
    ensures WellFormed(ClipOf(p)) && (ValidBuild(ClipOf(p), p.rules, c) <==> Accepts(p, c))
  {
    var cp := ClipOf(p);
    ClipOfWellFormed(p);
    var raw := RawAggregate(p, c);
    ClippedAggregateIsSaturated(p, c);
    ClippingIsInvisible(raw, cp.caps, cp.reqs, cp.spends, p.rules);
    ValidAggregateIsSuccess(cp, p.rules, Saturate(raw, cp.caps));
  }

  /** No part is out of stock, or duplicates are allowed. */
  ghost predicate Stocked(p: BuilderPuzzle) {
    p.rules.duplicatesAllowed || forall i :: 0 <= i < |p.parts| ==> p.parts[i].qtyAvailable >= 1
  }

  /** The shelf the fast counters see: where only subsets are counted, at least one
      copy of every part. */
  function Restocked(p: BuilderPuzzle): BuilderPuzzle {
    if p.rules.duplicatesAllowed then p
    else p.(parts := seq(|p.parts|, i requires 0 <= i < |p.parts| =>
      p.parts[i].(qtyAvailable := Larger(p.parts[i].qtyAvailable, 1))))
  }

  /** Restocking changes how many copies there are and nothing else. */
  lemma RestockedAccepts(p: BuilderPuzzle)
    ensures |Restocked(p).parts| == |p.parts| && Restocked(p).obstacles == p.obstacles && Restocked(p).rules == p.rules
    ensures RawRanges(Restocked(p)) == CopyRanges(ClipOf(p), p.rules)
    ensures Stocked(p) ==> RawRanges(Restocked(p)) == RawRanges(p)
    ensures forall c: Tuple | |c| == |p.parts| ::
      Accepts(Restocked(p), c) == Accepts(p, c) && RawFits(Restocked(p), c) == RawFits(p, c)
      && RawAggregate(Restocked(p), c) == RawAggregate(p, c)
    ensures Requirements(Restocked(p)) == Requirements(p)
  {
    var q := Restocked(p);
    assert RawRanges(q) == CopyRanges(ClipOf(p), p.rules);
    if Stocked(p) { assert RawRanges(q) == RawRanges(p); }
    assert Weights(q) == Weights(p) && Slots(q) == Slots(p) && Costs(q) == Costs(p) && Kinds(q) == Kinds(p);
    assert Requirements(q) == Requirements(p);
    forall c: Tuple | |c| == |p.parts| ensures RawAggregate(q, c) == RawAggregate(p, c) {
      forall k | 0 <= k < |p.names| ensures RawAggregate(q, c)[k] == RawAggregate(p, c)[k] {
        assert Column(q, k) == Column(p, k);
      }
    }
  }

  /** Counting on the clipped puzzle is counting with the reference on the
      restocked shelf, which is the puzzle's own where nothing is out of stock. */
  lemma CountValidIsTotal(p: BuilderPuzzle)
    ensures WellFormed(ClipOf(p)) && CountValid(ClipOf(p), p.rules) == TotalValid(Restocked(p))
    ensures Stocked(p) ==> TotalValid(Restocked(p)) == TotalValid(p)
  {
    var cp, q := ClipOf(p), Restocked(p);
    ClipOfWellFormed(p);
    RestockedAccepts(p);
    var ts := Tuples(RawRanges(q));
    forall c | c in ts ensures ValidBuild(cp, p.rules, c) == Accepted(q, c) && Accepted(q, c) == Accepted(p, c) {
      TuplesMember(RawRanges(q), c);
      ClippedValidIsAccepted(p, c);
    }
    CountCongruent(ts, c => ValidBuild(cp, p.rules, c), c => Accepted(q, c));
    CountCongruent(ts, c => Accepted(p, c), c => Accepted(q, c));
  }

  /** A valid build that needs a part the shelf does not have. */
  ghost predicate Phantom(p: BuilderPuzzle, c: Tuple) {
    InBox(c, RawRanges(Restocked(p))) && !InBox(c, RawRanges(p)) && Accepted(p, c)
  }

  /** Builds of a larger box that stay inside the shelf are the reference's. */
  lemma StockedBuilds(p: BuilderPuzzle, big: seq<nat>)
    requires |big| == |p.parts| && forall i :: 0 <= i < |big| ==> RawRanges(p)[i] <= big[i]
    ensures Count(Tuples(big), c => InBox(c, RawRanges(p)) && Accepted(p, c)) == TotalValid(p)
  {
    var small, ts := RawRanges(p), Tuples(big);
    hide RawRanges, Accepts, Tuples, TotalValid, Count;
    var builds := set c | c in ts && InBox(c, small) && Accepted(p, c);
    TuplesDistinct(big);
    CountIsCardinality(ts, c => InBox(c, small) && Accepted(p, c), builds);
    forall c ensures c in builds <==> InBox(c, small) && Accepts(p, c) {
      TuplesMember(big, c);
      if InBox(c, small) { BoxGrows(c, small, big); }
    }
    TotalValidIsCardinality(p, builds);
  }

  /** The fast count exceeds the reference's by exactly the builds that need an
      out-of-stock part. */
  lemma OverCount(p: BuilderPuzzle)
    ensures WellFormed(ClipOf(p))
    ensures CountValid(ClipOf(p), p.rules)
         == TotalValid(p) + Count(Tuples(RawRanges(Restocked(p))), c => Phantom(p, c))
  {
    var big, small := RawRanges(Restocked(p)), RawRanges(p);
    CountValidIsTotal(p);
    RestockedAccepts(p);
    StockedBuilds(p, big);
    hide Accepts, RawRanges, Restocked, ClipOf, CountValid, Tuples, Count, WellFormed;
    forall c | c in Tuples(big) ensures InBox(c, big) && Accepted(Restocked(p), c) == Accepted(p, c) {
      TuplesMember(big, c);
    }
    CountSplit(Tuples(big), c => Accepted(Restocked(p), c), c => InBox(c, small) && Accepted(p, c), c => Phantom(p, c));
  }

  lemma BoxGrows(c: Tuple, small: seq<nat>, big: seq<nat>)
    requires InBox(c, small) && |small| == |big| && forall i :: 0 <= i < |small| ==> small[i] <= big[i]
    ensures InBox(c, big)
  {
  }

  // ------------------------------------------------------------------
  // When the clipped count and the reference part ways: subset counting
  // ignores the stock of a part, the reference does not
  // ------------------------------------------------------------------

  /** Same parts on the table, any rules and obstacles with the same duplicates flag. */
  ghost predicate SameShelf(p: BuilderPuzzle, q: BuilderPuzzle) {
    q.parts == p.parts && q.rules.duplicatesAllowed == p.rules.duplicatesAllowed
  }

  lemma {:induction false} ProductBelow(sizes: seq<nat>, larger: seq<nat>)
    requires |sizes| == |larger|
    requires forall i :: 0 <= i < |sizes| ==> 1 <= sizes[i] <= larger[i]
    ensures 1 <= Product(sizes) <= Product(larger)
    ensures (exists i :: 0 <= i < |sizes| && sizes[i] < larger[i]) ==> Product(sizes) < Product(larger)
  {
    if sizes != [] {
      var n := |sizes| - 1;
      ProductBelow(sizes[..n], larger[..n]);
      ProductGrows(Product(sizes[..n]), Product(larger[..n]), sizes[n], larger[n]);
      if exists i :: 0 <= i < |sizes| && sizes[i] < larger[i] {
        var i :| 0 <= i < |sizes| && sizes[i] < larger[i];
        if i < n { assert sizes[..n][i] < larger[..n][i]; }
      }
    }
  }

  lemma ProductGrows(a: nat, b: nat, x: nat, y: nat)
    requires 1 <= a <= b && 1 <= x <= y
    ensures 1 <= a * x <= b * y
    ensures a < b || x < y ==> a * x < b * y
  {
    CopiesMonotone(a, x, y);
    CopiesMonotone(y, a, b);
    assert b * y == y * b && a * y == y * a;
    if x < y { CopiesMonotone(a, 1, y - x); assert a * (y - x) == a * y - a * x; }
    if a < b { CopiesMonotone(y, 1, b - a); assert y * (b - a) == y * b - y * a; }
  }

  lemma {:induction false} CountAll<T>(xs: seq<T>, p: T -> bool)
    requires forall x :: x in xs ==> p(x)
    ensures Count(xs, p) == |xs|
  {
    if xs != [] {
      assert xs[0] in xs;
      CountAll(xs[1..], p);
    }
  }

  /** With no obstacles and no budgets every build in range is valid on both sides. */
  lemma OpenPuzzleCounts(q: BuilderPuzzle)
    requires q.obstacles == [] && q.rules.failureMode.AllMustPass?
    requires q.rules.weightMax.None? && q.rules.slotMax.None? && q.rules.moneyMax.None?
    ensures WellFormed(ClipOf(q))
    ensures CountValid(ClipOf(q), q.rules) == Product(CopyRanges(ClipOf(q), q.rules))
    ensures TotalValid(q) == Product(RawRanges(q))
  {
    var cp := ClipOf(q);
    ClipOfWellFormed(q);
    var ts, us := Tuples(CopyRanges(cp, q.rules)), Tuples(RawRanges(q));
    forall c: Tuple | |c| == |q.parts| ensures Accepts(q, c) && ValidBuild(cp, q.rules, c) {
      PassedAll(RawAggregate(q, c), Requirements(q), Kinds(q), q.rules);
      ClippedValidIsAccepted(q, c);
    }
    forall c | c in ts ensures ValidBuild(cp, q.rules, c) { TuplesMember(CopyRanges(cp, q.rules), c); }
    forall c | c in us ensures Accepted(q, c) { TuplesMember(RawRanges(q), c); }
    CountAll(ts, c => ValidBuild(cp, q.rules, c));
    CountAll(us, c => Accepted(q, c));
    TuplesDistinct(CopyRanges(cp, q.rules));
    TuplesDistinct(RawRanges(q));
  }

  /** The clipped count equals the reference for every puzzle over these parts
      exactly when no part is out of stock, or duplicates are allowed. */
  lemma AgreementNeedsStock(p: BuilderPuzzle)
    ensures Stocked(p) <==>
      forall q | SameShelf(p, q) :: WellFormed(ClipOf(q)) && CountValid(ClipOf(q), q.rules) == TotalValid(q)
  {
    if Stocked(p) {
      forall q | SameShelf(p, q)
        ensures WellFormed(ClipOf(q)) && CountValid(ClipOf(q), q.rules) == TotalValid(q)
      {
        CountValidIsTotal(q);
      }
    } else {
      var q := p.(obstacles := [], rules := p.rules.(failureMode := AllMustPass, weightMax := None, slotMax := None, moneyMax := None));
      assert SameShelf(p, q);
      OpenPuzzleCounts(q);
      var i :| 0 <= i < |p.parts| && p.parts[i].qtyAvailable < 1;
      assert RawRanges(q)[i] < CopyRanges(ClipOf(q), q.rules)[i];
      ProductBelow(RawRanges(q), CopyRanges(ClipOf(q), q.rules));
    }
  }

  // ------------------------------------------------------------------
  // The loops
  // ------------------------------------------------------------------

  function Zeros(n: nat): (v: Vec)
    ensures |v| == n && forall k :: 0 <= k < n ==> v[k] == 0
  {
    seq(n, k => 0)
  }

  function Plus(a: Vec, b: Vec): (v: Vec)
    requires |a| == |b|
    ensures |v| == |a| && forall k :: 0 <= k < |a| ==> v[k] == a[k] + b[k]
  {
    seq(|a|, k requires 0 <= k < |a| => a[k] + b[k])
  }

  function Higher(a: Vec, b: Vec): (v: Vec)
    requires |a| == |b|
    ensures |v| == |a| && forall k :: 0 <= k < |a| ==> v[k] == Larger(a[k], b[k])
  {
    seq(|a|, k requires 0 <= k < |a| => Larger(a[k], b[k]))
  }

  method ColumnPeaks(reqs: seq<Vec>, n: nat) returns (need: Vec)
    requires IsMatrix(reqs, n)
    ensures |need| == n && forall k :: 0 <= k < n ==> need[k] == PeakNeed(reqs, k)
  {
    need := Zeros(n);
    for i := 0 to |reqs|
      invariant |need| == n
      invariant forall k :: 0 <= k < n ==> Larger(need[k], PeakNeed(reqs[i..], k)) == PeakNeed(reqs, k)
    {
      assert reqs[i..][1..] == reqs[i+1..];
      need := Higher(need, reqs[i]);
    }
  }

  method ColumnTotals(reqs: seq<Vec>, n: nat) returns (need: Vec)
    requires IsMatrix(reqs, n)
    ensures |need| == n && forall k :: 0 <= k < n ==> need[k] == TotalNeed(reqs, k)
  {
    need := Zeros(n);
    for i := 0 to |reqs|
      invariant |need| == n
      invariant forall k :: 0 <= k < n ==> need[k] + TotalNeed(reqs[i..], k) == TotalNeed(reqs, k)
    {
      assert reqs[i..][1..] == reqs[i+1..];
      need := Plus(need, reqs[i]);
    }
  }

  method SequenceNeeds(reqs: seq<Vec>, spends: seq<bool>, n: nat) returns (need: Vec)
    requires IsMatrix(reqs, n) && |spends| == |reqs|
    ensures |need| == n && forall k :: 0 <= k < n ==> need[k] == SequenceNeed(reqs, spends, k)
  {
    var spent := Zeros(n);
    need := Zeros(n);
    for i := 0 to |reqs|
      invariant |need| == |spent| == n
      invariant forall k :: 0 <= k < n ==>
        Larger(need[k], spent[k] + SequenceNeed(reqs[i..], spends[i..], k)) == Larger(spent[k], SequenceNeed(reqs, spends, k))
      invariant forall k :: 0 <= k < n ==> spent[k] <= need[k] <= SequenceNeed(reqs, spends, k)
    {
      assert reqs[i..][1..] == reqs[i+1..] && spends[i..][1..] == spends[i+1..];
      need := Higher(need, Plus(spent, reqs[i]));
      if spends[i] { spent := Plus(spent, reqs[i]); }
    }
  }

  /** The single vector a build must reach to clear everything. */
  method RequiredCapacity(cp: ClippedPuzzle, rules: Rules) returns (needed: Vec)
    requires WellFormed(cp)
    ensures needed == RequiredVector(cp, rules.semantics)
  {
    var need: Vec;
    match rules.semantics {
      case Threshold => need := ColumnPeaks(cp.reqs, |cp.caps|);
      case Consumable => need := ColumnTotals(cp.reqs, |cp.caps|);
      case Mixed => need := SequenceNeeds(cp.reqs, cp.spends, |cp.caps|);
    }
    needed := Saturate(need, cp.caps);
  }

  /** The unordered subset search refuses more than fourteen obstacles. */
  predicate SearchTooWide(cp: ClippedPuzzle, rules: Rules) {
    rules.semantics.Consumable? && rules.ordering.Unordered? && |cp.reqs| > MAX_SUBSET_SEARCH
  }

  /** How many obstacles one capability clears: largest affordable set, walk, or
      independent checks. */
  method PassesCount(agg: Vec, cp: ClippedPuzzle, rules: Rules) returns (r: Result<nat>)
    requires WellFormed(cp) && |agg| == |cp.caps|
    ensures SearchTooWide(cp, rules) ==> r == Err(TooManyObstacles)
    ensures !SearchTooWide(cp, rules) ==> r == Ok(Passed(agg, cp.reqs, cp.spends, rules))
  {
    var m := |cp.reqs|;
    var passed: nat := 0;
    if rules.semantics.Threshold? {
      for i := 0 to m
        invariant passed + Cleared(agg, cp.reqs[i..]) == Cleared(agg, cp.reqs)
      {
        if Dominates(agg, cp.reqs[i]) { passed := passed + 1; }
      }
      return Ok(passed);
    }
    if rules.semantics.Consumable? && rules.ordering.Unordered? {
      if m > MAX_SUBSET_SEARCH { return Err(TooManyObstacles); }
      passed := m;
      while passed > 0 && !AffordsSome(agg, cp.reqs, passed)
        invariant 0 <= passed <= m
        invariant LargestAffordable(agg, cp.reqs, m) == LargestAffordable(agg, cp.reqs, passed)
      {
        passed := passed - 1;
      }
      return Ok(passed);
    }
    var spends := SpendsUnder(rules.semantics, cp.spends);
    var remaining := agg;
    for i := 0 to m
      invariant |remaining| == |agg|
      invariant passed + Walk(remaining, cp.reqs[i..], spends[i..]) == Walk(agg, cp.reqs, spends)
    {
      if Dominates(remaining, cp.reqs[i]) {
        passed := passed + 1;
        if rules.semantics.Consumable? || cp.spends[i] { remaining := Minus(remaining, cp.reqs[i]); }
      }
    }
    return Ok(passed);
  }

  predicate ValidityUndecidable(cp: ClippedPuzzle, rules: Rules) {
    rules.failureMode.CountPassed? && SearchTooWide(cp, rules)
  }

  /** Validity of one aggregate row. */
  method ValidMask(agg: Vec, cp: ClippedPuzzle, rules: Rules) returns (r: Result<bool>)
    requires WellFormed(cp) && |agg| == |cp.caps|
    ensures ValidityUndecidable(cp, rules) ==> r == Err(TooManyObstacles)
    ensures !ValidityUndecidable(cp, rules) ==> r == Ok(ValidAggregate(cp, rules, agg))
  {
    if rules.failureMode.AllMustPass? {
      var needed := RequiredCapacity(cp, rules);
      return Ok(Dominates(agg, needed));
    }
    var passed := PassesCount(agg, cp, rules);
    match passed
    case Err(e) => return Err(e);
    case Ok(n) => return Ok(n >= COUNT_PASSED_MIN_PASSED);
  }

  /** Build the clipped view: read the requirements, pick the cap policy, clip
      every part. */
  method ClipPuzzle(p: BuilderPuzzle) returns (cp: ClippedPuzzle)
    ensures cp == ClipOf(p)
  {
    var reqs := Requirements(p);
    var n := |p.names|;
    var caps: Vec;
    if p.rules.semantics.Threshold? { caps := ColumnPeaks(reqs, n); } else { caps := ColumnTotals(reqs, n); }
    assert caps == ClipOf(p).caps;
    var attrs: seq<Vec>, qty: seq<nat> := [], [];
    for i := 0 to |p.parts|
      invariant attrs == ClipOf(p).attrs[..i] && qty == ClipOf(p).qty[..i]
    {
      var row: Vec := seq(n, k requires 0 <= k < n => Smaller(Attr(p.parts[i], p.names[k]), caps[k]));
      assert row == ClipOf(p).attrs[i];
      attrs, qty := attrs + [row], qty + [Larger(p.parts[i].qtyAvailable, 0)];
    }
    cp := ClippedPuzzle(caps, Weights(p), attrs, qty, Slots(p), Costs(p), reqs, Kinds(p));
  }
}
