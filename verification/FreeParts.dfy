/** Inert parts: leaving them out and multiplying back is exact. */
module FreeParts {
  import opened Counting
  import opened Puzzle
  import opened Clip

  /** A part that weighs nothing, competes for no capped budget and adds nothing. */
  predicate IsFree(cp: ClippedPuzzle, rules: Rules, i: nat)
    requires i < |cp.weights| == |cp.attrs| == |cp.slots| == |cp.costs|
  {
    && cp.weights[i] == 0
    && (rules.slotMax.Some? ==> cp.slots[i] == 0)
    && (rules.moneyMax.Some? ==> cp.costs[i] == 0)
    && forall k :: 0 <= k < |cp.attrs[i]| ==> cp.attrs[i][k] == 0
  }

  /** Which parts are reported free: none under min. */
  function FreeMask(cp: ClippedPuzzle, rules: Rules): (free: seq<bool>)
    requires |cp.weights| == |cp.attrs| == |cp.slots| == |cp.costs|
    ensures |free| == |cp.weights|
  {
    seq(|cp.weights|, i requires 0 <= i < |cp.weights| => !rules.aggregation.Min? && IsFree(cp, rules, i))
  }

  /** The entries whose part is not free. */
  function Keep<T>(xs: seq<T>, free: seq<bool>): (r: seq<T>)
    requires |xs| <= |free|
    ensures |r| <= |xs|
  {
    if xs == [] then []
    else
      var n := |xs| - 1;
      if free[n] then Keep(xs[..n], free) else Keep(xs[..n], free) + [xs[n]]
  }

  /** Number of ways to add the free parts. */
  function FreeWays(sizes: seq<nat>, free: seq<bool>): nat
    requires |sizes| <= |free|
  {
    if sizes == [] then 1
    else
      var n := |sizes| - 1;
      FreeWays(sizes[..n], free) * if free[n] then sizes[n] else 1
  }

  /** The puzzle over the parts that are not free. */
  function CoreOf(cp: ClippedPuzzle, free: seq<bool>): ClippedPuzzle
    requires |free| == |cp.weights| == |cp.attrs| == |cp.slots| == |cp.costs| == |cp.qty|
  {
    cp.(weights := Keep(cp.weights, free), attrs := Keep(cp.attrs, free), qty := Keep(cp.qty, free),
        slots := Keep(cp.slots, free), costs := Keep(cp.costs, free))
  }

  // ------------------------------------------------------------------
  // Counting with inert axes
  // ------------------------------------------------------------------

  lemma {:induction false} CountExtended(ts: seq<Tuple>, k: nat, p: Tuple -> bool, q: Tuple -> bool)
    requires forall t :: t in ts ==> p(t + [k]) == q(t)
    ensures Count(Extend(ts, k), p) == Count(ts, q)
  {
    if ts != [] {
      assert ts[0] in ts;
      assert Extend(ts, k)[1..] == Extend(ts[1..], k);
      CountExtended(ts[1..], k, p, q);
    }
  }

  lemma KeepSnoc<T>(xs: seq<T>, x: T, free: seq<bool>)
    requires |xs| < |free|
    ensures Keep(xs + [x], free) == if free[|xs|] then Keep(xs, free) else Keep(xs, free) + [x]
  {
    assert (xs + [x])[..|xs|] == xs;
  }

  /** Counting a property that ignores the free axes: count without them, times
      the ways to fill them. */
  lemma {:induction false} CountKept(sizes: seq<nat>, free: seq<bool>, p: Tuple -> bool, q: Tuple -> bool)
    requires |sizes| <= |free|
    requires forall t :: InBox(t, sizes) ==> p(t) == q(Keep(t, free))
    ensures Count(Tuples(sizes), p) == Count(Tuples(Keep(sizes, free)), q) * FreeWays(sizes, free)
    decreases |sizes|, 1
  {
    if sizes == [] {
      var e: Tuple := [];
      assert InBox(e, sizes) && Keep(e, free) == [];
      assert Tuples(sizes) == [e] && [e][1..] == [];
    } else if free[|sizes|-1] {
      FreeAxis(sizes, free, p, q);
    } else {
      KeptAxis(sizes, free, p, q);
    }
  }

  lemma {:induction false} FreeAxis(sizes: seq<nat>, free: seq<bool>, p: Tuple -> bool, q: Tuple -> bool)
    requires sizes != [] && |sizes| <= |free| && free[|sizes|-1]
    requires forall t :: InBox(t, sizes) ==> p(t) == q(Keep(t, free))
    ensures Count(Tuples(sizes), p) == Count(Tuples(Keep(sizes, free)), q) * FreeWays(sizes, free)
    decreases |sizes|, 0
  {
    var n := |sizes| - 1;
    var ts, kept := Tuples(sizes[..n]), Keep(sizes[..n], free);
    assert Keep(sizes, free) == kept;
    if sizes[n] > 0 {
      var drop := (t: Tuple) => p(t + [0]);
      forall t | InBox(t, sizes[..n]) ensures drop(t) == q(Keep(t, free)) {
        InertEntry(sizes, free, p, q, t, 0);
      }
      CountKept(sizes[..n], free, drop, q);
      forall t, k: nat | t in ts && k < sizes[n] ensures p(t + [k]) == drop(t) {
        TuplesMember(sizes[..n], t);
        InertEntry(sizes, free, p, q, t, k);
      }
      SpreadInert(ts, sizes[n], p, drop);
    }
    Rearrange(Count(Tuples(kept), q), FreeWays(sizes[..n], free), sizes[n]);
  }

  lemma InertEntry(sizes: seq<nat>, free: seq<bool>, p: Tuple -> bool, q: Tuple -> bool, t: Tuple, k: nat)
    requires sizes != [] && |sizes| <= |free| && free[|sizes|-1]
    requires forall t :: InBox(t, sizes) ==> p(t) == q(Keep(t, free))
    requires InBox(t, sizes[..|sizes|-1]) && k < sizes[|sizes|-1]
    ensures p(t + [k]) == q(Keep(t, free))
  {
    assert InBox(t + [k], sizes);
    KeepSnoc(t, k, free);
  }

  lemma Distribute(a: nat, b: nat, c: nat)
    ensures (a + b) * c == a * c + b * c
  {
  }

  lemma Rearrange(a: nat, b: nat, c: nat)
    ensures (a * b) * c == a * (b * c)
  {
  }

  lemma {:induction false} SpreadInert(ts: seq<Tuple>, size: nat, p: Tuple -> bool, q: Tuple -> bool)
    requires forall t, k: nat :: t in ts && k < size ==> p(t + [k]) == q(t)
    ensures Count(Spread(ts, size), p) == Count(ts, q) * size
  {
    if size > 0 {
      hide Count, Extend;
      var n, c := size - 1, Count(ts, q);
      SpreadInert(ts, n, p, q);
      CountAppend(Spread(ts, n), Extend(ts, n), p);
      CountExtended(ts, n, p, q);
      Distribute(n, 1, c);
      assert c * size == (n + 1) * c;
    }
  }

  lemma {:induction false} SpreadKept(ts: seq<Tuple>, us: seq<Tuple>, size: nat, ways: nat, p: Tuple -> bool, q: Tuple -> bool)
    requires forall k: nat :: k < size ==> Count(Extend(ts, k), p) == Count(Extend(us, k), q) * ways
    ensures Count(Spread(ts, size), p) == Count(Spread(us, size), q) * ways
  {
    if size > 0 {
      SpreadKept(ts, us, size - 1, ways, p, q);
      assert Count(Extend(ts, size - 1), p) == Count(Extend(us, size - 1), q) * ways;
      CountAppend(Spread(ts, size - 1), Extend(ts, size - 1), p);
      CountAppend(Spread(us, size - 1), Extend(us, size - 1), q);
      Distribute(Count(Spread(us, size - 1), q), Count(Extend(us, size - 1), q), ways);
    }
  }

  lemma {:induction false} KeptAxis(sizes: seq<nat>, free: seq<bool>, p: Tuple -> bool, q: Tuple -> bool)
    requires sizes != [] && |sizes| <= |free| && !free[|sizes|-1]
    requires forall t :: InBox(t, sizes) ==> p(t) == q(Keep(t, free))
    ensures Count(Tuples(sizes), p) == Count(Tuples(Keep(sizes, free)), q) * FreeWays(sizes, free)
    decreases |sizes|, 0
  {
    var n := |sizes| - 1;
    var ts, us := Tuples(sizes[..n]), Tuples(Keep(sizes[..n], free));
    var ways := FreeWays(sizes[..n], free);
    forall k: nat | k < sizes[n] ensures Count(Extend(ts, k), p) == Count(Extend(us, k), q) * ways {
      var pk := (t: Tuple) => p(t + [k]);
      var qk := (u: Tuple) => q(u + [k]);
      forall t | InBox(t, sizes[..n]) ensures pk(t) == qk(Keep(t, free)) {
        assert InBox(t + [k], sizes);
        KeepSnoc(t, k, free);
      }
      CountKept(sizes[..n], free, pk, qk);
      CountExtended(ts, k, p, pk);
      CountExtended(us, k, q, qk);
    }
    SpreadKept(ts, us, sizes[n], ways, p, q);
    var kept := Keep(sizes[..n], free);
    assert Keep(sizes, free) == kept + [sizes[n]];
    assert (kept + [sizes[n]])[..|kept|] == kept;
  }

  // ------------------------------------------------------------------
  // Inert parts change nothing about a build
  // ------------------------------------------------------------------

  lemma {:induction false} KeepLength<S, T>(xs: seq<S>, ys: seq<T>, free: seq<bool>)
    requires |xs| == |ys| <= |free|
    ensures |Keep(xs, free)| == |Keep(ys, free)|
  {
    if xs != [] { KeepLength(xs[..|xs|-1], ys[..|ys|-1], free); }
  }

  lemma {:induction false} KeepPrefix<T>(xs: seq<T>, free: seq<bool>, n: nat)
    requires n <= |xs| <= |free|
    ensures Keep(xs[..n], free) <= Keep(xs, free)
    decreases |xs|
  {
    if n < |xs| {
      KeepPrefix(xs[..|xs|-1], free, n);
      assert xs[..|xs|-1][..n] == xs[..n];
    } else {
      assert xs[..n] == xs;
    }
  }

  /** The value kept at the end of a prefix is the value of its last part. */
  lemma KeepLast<T>(xs: seq<T>, free: seq<bool>, n: nat)
    requires n < |xs| <= |free| && !free[n]
    ensures |Keep(xs[..n], free)| < |Keep(xs, free)| && Keep(xs, free)[|Keep(xs[..n], free)|] == xs[n]
  {
    assert xs[..n+1] == xs[..n] + [xs[n]];
    KeepSnoc(xs[..n], xs[n], free);
    KeepPrefix(xs, free, n + 1);
  }

  lemma {:induction false} DotKept(c: Tuple, v: seq<nat>, free: seq<bool>)
    requires |c| <= |v| == |free| && forall i :: 0 <= i < |v| && free[i] ==> v[i] == 0
    ensures |Keep(c, free)| <= |Keep(v, free)| && Dot(Keep(c, free), Keep(v, free)) == Dot(c, v)
  {
    if c != [] {
      var n := |c| - 1;
      DotKept(c[..n], v, free);
      if free[n] {
        assert c[n] * v[n] == 0;
      } else {
        KeepLast(v, free, n);
        KeepLength(c[..n], v[..n], free);
        var kc, kv := Keep(c[..n], free), Keep(v, free);
        assert Keep(c, free) == kc + [c[n]];
        DotStep(kc, c[n], kv);
        assert kv[|kc|] == v[n];
      }
    }
  }

  function OrZero(x: Option<nat>): nat { match x case None => 0 case Some(v) => v }

  lemma {:induction false} GreatestKept(c: Tuple, v: seq<nat>, free: seq<bool>)
    requires |c| <= |v| == |free| && forall i :: 0 <= i < |v| && free[i] ==> v[i] == 0
    ensures |Keep(c, free)| <= |Keep(v, free)|
    ensures OrZero(GreatestChosen(Keep(c, free), Keep(v, free))) == OrZero(GreatestChosen(c, v))
  {
    if c != [] {
      var n := |c| - 1;
      GreatestKept(c[..n], v, free);
      if !free[n] {
        KeepLast(v, free, n);
        KeepLength(c[..n], v[..n], free);
        var kc, kv := Keep(c[..n], free), Keep(v, free);
        assert Keep(c, free) == kc + [c[n]];
        ChosenPrefix(kc, c[n], kv);
        assert kv[|kc|] == v[n];
      }
    }
  }

  lemma {:induction false} KeepColumn(rows: seq<Vec>, k: nat, free: seq<bool>, n: nat)
    requires |rows| <= |free| && IsMatrix(rows, n) && k < n
    ensures forall i :: 0 <= i < |Keep(rows, free)| ==> Keep(rows, free)[i] in rows
    ensures IsMatrix(Keep(rows, free), n)
    ensures |Keep(ColumnOf(rows, k, n), free)| == |Keep(rows, free)|
    ensures forall i :: 0 <= i < |Keep(rows, free)| ==> Keep(ColumnOf(rows, k, n), free)[i] == Keep(rows, free)[i][k]
  {
    if rows != [] {
      var m := |rows| - 1;
      KeepColumn(rows[..m], k, free, n);
      assert ColumnOf(rows, k, n)[..m] == ColumnOf(rows[..m], k, n);
    }
  }

  function ColumnOf(rows: seq<Vec>, k: nat, n: nat): (v: seq<nat>)
    requires IsMatrix(rows, n) && k < n
    ensures |v| == |rows|
  {
    seq(|rows|, i requires 0 <= i < |rows| => rows[i][k])
  }

  lemma {:induction false} KeepMember<T>(xs: seq<T>, free: seq<bool>, x: T)
    requires |xs| <= |free| && x in Keep(xs, free)
    ensures x in xs
  {
    if xs != [] && x in Keep(xs[..|xs|-1], free) { KeepMember(xs[..|xs|-1], free, x); }
  }

  lemma CoreWellFormed(cp: ClippedPuzzle, free: seq<bool>)
    requires WellFormed(cp) && |free| == |cp.weights|
    ensures WellFormed(CoreOf(cp, free))
    ensures forall k :: 0 <= k < |cp.caps| ==> AttrColumn(CoreOf(cp, free), k) == Keep(AttrColumn(cp, k), free)
  {
    var core := CoreOf(cp, free);
    KeepLength(cp.weights, cp.attrs, free);
    KeepLength(cp.weights, cp.qty, free);
    KeepLength(cp.weights, cp.slots, free);
    KeepLength(cp.weights, cp.costs, free);
    forall i | 0 <= i < |core.attrs|
      ensures |core.attrs[i]| == |cp.caps| && forall k :: 0 <= k < |cp.caps| ==> core.attrs[i][k] <= cp.caps[k]
    {
      KeepMember(cp.attrs, free, core.attrs[i]);
    }
    forall k | 0 <= k < |cp.caps| ensures AttrColumn(core, k) == Keep(AttrColumn(cp, k), free) {
      KeepColumn(cp.attrs, k, free, |cp.caps|);
      assert ColumnOf(cp.attrs, k, |cp.caps|) == AttrColumn(cp, k);
    }
  }

  lemma FitsInert(cp: ClippedPuzzle, rules: Rules, c: Tuple, free: seq<bool>)
    requires WellFormed(cp) && |c| == |cp.weights| && !rules.aggregation.Min? && free == FreeMask(cp, rules)
    ensures |Keep(c, free)| == |Keep(cp.weights, free)| == |Keep(cp.slots, free)| == |Keep(cp.costs, free)| == |Keep(cp.attrs, free)|
    ensures Fits(cp, rules, c) == Fits(CoreOf(cp, free), rules, Keep(c, free))
  {
    KeepLength(c, cp.weights, free);
    KeepLength(c, cp.slots, free);
    KeepLength(c, cp.costs, free);
    KeepLength(c, cp.attrs, free);
    DotKept(c, cp.weights, free);
    if rules.slotMax.Some? { DotKept(c, cp.slots, free); }
    if rules.moneyMax.Some? { DotKept(c, cp.costs, free); }
  }

  lemma AggregateInert(cp: ClippedPuzzle, rules: Rules, c: Tuple, free: seq<bool>)
    requires WellFormed(cp) && |c| == |cp.weights| && !rules.aggregation.Min? && free == FreeMask(cp, rules)
    ensures |Keep(c, free)| <= |Keep(cp.attrs, free)| && IsMatrix(Keep(cp.attrs, free), |cp.caps|)
    ensures AggregateCounts(cp, rules.aggregation, c) == AggregateCounts(CoreOf(cp, free), rules.aggregation, Keep(c, free))
  {
    CoreWellFormed(cp, free);
    KeepLength(c, cp.attrs, free);
    var a, b := AggregateCounts(cp, rules.aggregation, c), AggregateCounts(CoreOf(cp, free), rules.aggregation, Keep(c, free));
    forall k | 0 <= k < |cp.caps| ensures a[k] == b[k] {
      ColumnInert(cp, rules, c, k);
    }
  }

  /** Validity of a build does not depend on the free parts it uses. */
  lemma FreePartsAreInert(cp: ClippedPuzzle, rules: Rules, c: Tuple)
    requires WellFormed(cp) && |c| == |cp.weights| && !rules.aggregation.Min?
    ensures WellFormed(CoreOf(cp, FreeMask(cp, rules)))
    ensures ValidBuild(cp, rules, c) <==> ValidBuild(CoreOf(cp, FreeMask(cp, rules)), rules, Keep(c, FreeMask(cp, rules)))
  {
    hide FreeMask, Keep, Fits, AggregateCounts, Dot;
    var free := FreeMask(cp, rules);
    CoreWellFormed(cp, free);
    FitsInert(cp, rules, c, free);
    AggregateInert(cp, rules, c, free);
  }

  lemma ColumnInert(cp: ClippedPuzzle, rules: Rules, c: Tuple, k: nat)
    requires WellFormed(cp) && |c| == |cp.weights| && !rules.aggregation.Min? && k < |cp.caps|
    ensures WellFormed(CoreOf(cp, FreeMask(cp, rules)))
    ensures |Keep(c, FreeMask(cp, rules))| <= |CoreOf(cp, FreeMask(cp, rules)).attrs|
    ensures Aggregate(rules.aggregation, c, AttrColumn(cp, k))
         == Aggregate(rules.aggregation, Keep(c, FreeMask(cp, rules)), AttrColumn(CoreOf(cp, FreeMask(cp, rules)), k))
  {
    var free := FreeMask(cp, rules);
    CoreWellFormed(cp, free);
    KeepLength(c, cp.attrs, free);
    DotKept(c, AttrColumn(cp, k), free);
    GreatestKept(c, AttrColumn(cp, k), free);
  }

  lemma {:induction false} KeepNothingFree<T>(xs: seq<T>, free: seq<bool>)
    requires |xs| <= |free| && forall i :: 0 <= i < |free| ==> !free[i]
    ensures Keep(xs, free) == xs
  {
    if xs != [] { KeepNothingFree(xs[..|xs|-1], free); }
  }

  lemma {:induction false} NoFreeWays(sizes: seq<nat>, free: seq<bool>)
    requires |sizes| <= |free| && forall i :: 0 <= i < |free| ==> !free[i]
    ensures FreeWays(sizes, free) == 1
  {
    if sizes != [] { NoFreeWays(sizes[..|sizes|-1], free); }
  }

  lemma {:induction false} KeepMapped(qty: seq<nat>, sizes: seq<nat>, free: seq<bool>, duplicates: bool)
    requires |qty| == |sizes| <= |free|
    requires forall i :: 0 <= i < |qty| ==> sizes[i] == (if duplicates then qty[i] else 1) + 1
    ensures |Keep(qty, free)| == |Keep(sizes, free)|
    ensures forall i :: 0 <= i < |Keep(qty, free)| ==> Keep(sizes, free)[i] == (if duplicates then Keep(qty, free)[i] else 1) + 1
  {
    if qty != [] { KeepMapped(qty[..|qty|-1], sizes[..|sizes|-1], free, duplicates); }
  }

  /** Factoring inert parts out is exact: the count over all parts is the count
      over the others times the ways to add the free ones, under every
      aggregation, budget combination and failure mode. */
  lemma FactoringIsExact(cp: ClippedPuzzle, rules: Rules)
    requires WellFormed(cp)
    ensures WellFormed(CoreOf(cp, FreeMask(cp, rules)))
    ensures CountValid(cp, rules)
         == CountValid(CoreOf(cp, FreeMask(cp, rules)), rules) * FreeWays(CopyRanges(cp, rules), FreeMask(cp, rules))
  {
    var free := FreeMask(cp, rules);
    var core, sizes := CoreOf(cp, free), CopyRanges(cp, rules);
    CoreWellFormed(cp, free);
    if rules.aggregation.Min? {
      KeepNothingFree(cp.weights, free);
      KeepNothingFree(cp.attrs, free);
      KeepNothingFree(cp.qty, free);
      KeepNothingFree(cp.slots, free);
      KeepNothingFree(cp.costs, free);
      NoFreeWays(sizes, free);
      assert core == cp;
    } else {
      KeepMapped(cp.qty, sizes, free, rules.duplicatesAllowed);
      assert CopyRanges(core, rules) == Keep(sizes, free);
      forall t | InBox(t, sizes) ensures ValidBuild(cp, rules, t) == ValidBuild(core, rules, Keep(t, free)) {
        FreePartsAreInert(cp, rules, t);
      }
      CountKept(sizes, free, t => ValidBuild(cp, rules, t), t => ValidBuild(core, rules, t));
    }
  }

  // ------------------------------------------------------------------
  // The loops
  // ------------------------------------------------------------------

  /** Positions of the free parts, in order. */
  function FreeIndices(free: seq<bool>, n: nat): seq<nat>
    requires n <= |free|
  {
    if n == 0 then [] else if free[n-1] then FreeIndices(free, n - 1) + [n-1] else FreeIndices(free, n - 1)
  }

  method FindFreeParts(cp: ClippedPuzzle, rules: Rules) returns (out: seq<nat>)
    requires WellFormed(cp)
    ensures out == FreeIndices(FreeMask(cp, rules), |cp.weights|)
  {
    out := [];
    if rules.aggregation.Min? {
      NoFreeIndices(FreeMask(cp, rules), |cp.weights|);
      return;
    }
    for i := 0 to |cp.weights|
      invariant out == FreeIndices(FreeMask(cp, rules), i)
    {
      if cp.weights[i] == 0
         && (rules.slotMax.None? || cp.slots[i] == 0)
         && (rules.moneyMax.None? || cp.costs[i] == 0)
         && forall k :: 0 <= k < |cp.attrs[i]| ==> cp.attrs[i][k] == 0
      {
        out := out + [i];
      }
    }
  }

  lemma {:induction false} NoFreeIndices(free: seq<bool>, n: nat)
    requires n <= |free| && forall i :: 0 <= i < |free| ==> !free[i]
    ensures FreeIndices(free, n) == []
  {
    if n > 0 { NoFreeIndices(free, n - 1); }
  }

  method StockMultiplier(qty: seq<nat>, free: seq<nat>) returns (mult: nat)
    requires forall j :: 0 <= j < |free| ==> free[j] < |qty|
    ensures mult == StockProduct(qty, free)
  {
    mult := 1;
    for j := 0 to |free|
      invariant mult == StockProduct(qty, free[..j])
    {
      assert free[..j+1][..j] == free[..j];
      mult := mult * (qty[free[j]] + 1);
    }
    assert free[..|free|] == free;
  }

  /** Two to the number of free parts, or the product of their stocks plus one. */
  method FreeMultiplier(cp: ClippedPuzzle, rules: Rules) returns (mult: nat)
    requires WellFormed(cp)
    ensures mult == FreeWays(CopyRanges(cp, rules), FreeMask(cp, rules))
  {
    var free := FindFreeParts(cp, rules);
    ghost var mask, sizes := FreeMask(cp, rules), CopyRanges(cp, rules);
    assert sizes[..|cp.weights|] == sizes;
    if !rules.duplicatesAllowed {
      SubsetWays(sizes, mask, |cp.weights|);
      mult := Power2(|free|);
    } else {
      StockWays(cp.qty, sizes, mask, |cp.weights|);
      mult := StockMultiplier(cp.qty, free);
    }
  }

  ghost function StockProduct(qty: seq<nat>, free: seq<nat>): nat
    requires forall j :: 0 <= j < |free| ==> free[j] < |qty|
  {
    if free == [] then 1 else StockProduct(qty, free[..|free|-1]) * (qty[free[|free|-1]] + 1)
  }

  lemma {:induction false} IndicesInRange(free: seq<bool>, n: nat)
    requires n <= |free|
    ensures forall j :: 0 <= j < |FreeIndices(free, n)| ==> FreeIndices(free, n)[j] < n
  {
    if n > 0 { IndicesInRange(free, n - 1); }
  }

  lemma {:induction false} SubsetWays(sizes: seq<nat>, free: seq<bool>, n: nat)
    requires n <= |sizes| <= |free| && forall i :: 0 <= i < |sizes| ==> sizes[i] == 2
    ensures FreeWays(sizes[..n], free) == Power2(|FreeIndices(free, n)|)
  {
    if n > 0 {
      SubsetWays(sizes, free, n - 1);
      assert sizes[..n][..n-1] == sizes[..n-1];
    }
  }

  lemma StockProductSnoc(qty: seq<nat>, free: seq<nat>, i: nat)
    requires (forall j :: 0 <= j < |free| ==> free[j] < |qty|) && i < |qty|
    ensures StockProduct(qty, free + [i]) == StockProduct(qty, free) * (qty[i] + 1)
  {
    assert (free + [i])[..|free|] == free;
  }

  lemma FreeWaysSnoc(sizes: seq<nat>, free: seq<bool>, n: nat)
    requires 0 < n <= |sizes| <= |free|
    ensures FreeWays(sizes[..n], free) == FreeWays(sizes[..n-1], free) * if free[n-1] then sizes[n-1] else 1
  {
    assert sizes[..n][..n-1] == sizes[..n-1];
  }

  lemma {:induction false} StockWays(qty: seq<nat>, sizes: seq<nat>, free: seq<bool>, n: nat)
    requires n <= |sizes| == |qty| <= |free| && forall i :: 0 <= i < |sizes| ==> sizes[i] == qty[i] + 1
    ensures forall j :: 0 <= j < |FreeIndices(free, n)| ==> FreeIndices(free, n)[j] < |qty|
    ensures FreeWays(sizes[..n], free) == StockProduct(qty, FreeIndices(free, n))
  {
    IndicesInRange(free, n);
    if n > 0 {
      StockWays(qty, sizes, free, n - 1);
      FreeWaysSnoc(sizes, free, n);
      if free[n-1] { StockProductSnoc(qty, FreeIndices(free, n - 1), n - 1); }
      hide FreeWays, StockProduct;
      assert sizes[n-1] == qty[n-1] + 1;
    }
  }
}
