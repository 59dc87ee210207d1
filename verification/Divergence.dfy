/** Solving under every reading of the unresolved rules: the readings enumerated, what
    they agree on, and the one flag that causes their disagreement. */
module Divergence {
  import opened Counting

  type Key = (string, string, string)
  type Assignment = map<string, string>
  type Options = map<string, seq<string>>

  datatype Action = Action(target: string, setting: string, value: string, reason: string) {
    function Key(): Key { (target, setting, value) }
  }

  /** One reading solved; `failed` is the error case. */
  datatype Reading = Reading(assignment: Assignment, actions: seq<Action>, failed: bool)

  // ------------------------------------------------------------------
  // Planning
  // ------------------------------------------------------------------

  /** Readings of a list of flags; a flag without options counts once. */
  function Product(flags: seq<string>, options: Options): nat
    requires forall f :: f in flags ==> f in options
  {
    if flags == [] then 1
    else
      var n := |options[flags[0]]|;
      (if n > 1 then n else 1) * Product(flags[1..], options)
  }

  /** PLANNING: leading flags are pinned to their first option, one by one, until the
      rest fits the cap; nothing more is pinned than that takes. */
  method PlanInterpretations(unresolved: seq<string>, options: Options, cap: nat)
    returns (varying: seq<string>, pinned: Assignment, truncated: bool)
    requires forall f :: f in unresolved ==> f in options && options[f] != []
    ensures exists k :: 0 <= k <= |unresolved| && varying == unresolved[k..] && pinned.Keys == (set j | 0 <= j < k :: unresolved[j])
              && truncated == (k > 0)
              && forall j :: 0 <= j < k ==> Product(unresolved[j..], options) > cap
    ensures forall f :: f in pinned ==> pinned[f] == options[f][0]
    ensures varying == [] || Product(varying, options) <= cap
  {
    var k := 0;
    pinned, truncated := map[], false;
    while k < |unresolved| && Product(unresolved[k..], options) > cap
      invariant k <= |unresolved| && truncated == (k > 0)
      invariant pinned.Keys == set j | 0 <= j < k :: unresolved[j]
      invariant forall f :: f in pinned ==> f in options && options[f] != [] && pinned[f] == options[f][0]
      invariant forall j :: 0 <= j < k ==> Product(unresolved[j..], options) > cap
    {
      var lead := unresolved[k];
      pinned := pinned[lead := options[lead][0]];
      truncated := true;
      k := k + 1;
    }
    varying := unresolved[k..];
  }

  // ------------------------------------------------------------------
  // Enumeration
  // ------------------------------------------------------------------

  /** Every combination of the varying flags on top of the pinned ones, the first flag slowest. */
  function Enumerate(varying: seq<string>, options: Options, pinned: Assignment): seq<Assignment>
    requires forall f :: f in varying ==> f in options
    decreases |varying|, 1, 0
  {
    if varying == [] then [pinned] else EnumerateOver(varying, options, pinned, options[varying[0]])
  }

  function EnumerateOver(varying: seq<string>, options: Options, pinned: Assignment, values: seq<string>): seq<Assignment>
    requires varying != [] && forall f :: f in varying ==> f in options
    decreases |varying|, 0, |values|
  {
    if values == [] then []
    else Enumerate(varying[1..], options, pinned[varying[0] := values[0]]) + EnumerateOver(varying, options, pinned, values[1..])
  }

  /** An assignment of the product: each varying flag at one of its options, the rest as pinned. */
  predicate InProduct(a: Assignment, varying: seq<string>, options: Options, pinned: Assignment)
    requires forall f :: f in varying ==> f in options
  {
    && (forall f :: f in varying ==> f in a && a[f] in options[f])
    && (forall f :: f in a && f !in varying ==> f in pinned && a[f] == pinned[f])
    && (forall f :: f in pinned ==> f in a)
  }

  /** COMPLETENESS: the enumeration is the whole product and nothing else. */
  lemma {:induction false} EnumerateIsProduct(varying: seq<string>, options: Options, pinned: Assignment, a: Assignment)
    requires Distinct(varying) && forall f :: f in varying ==> f in options
    ensures a in Enumerate(varying, options, pinned) <==> InProduct(a, varying, options, pinned)
    decreases |varying|, 1, 0
  {
    if varying == [] {
      if InProduct(a, varying, options, pinned) { assert a == pinned; }
    } else {
      EnumerateOverIs(varying, options, pinned, options[varying[0]], a);
    }
  }

  lemma {:induction false} EnumerateOverIs(varying: seq<string>, options: Options, pinned: Assignment, values: seq<string>, a: Assignment)
    requires varying != [] && Distinct(varying) && forall f :: f in varying ==> f in options
    ensures a in EnumerateOver(varying, options, pinned, values)
       <==> varying[0] in a && a[varying[0]] in values && InProduct(a, varying[1..], options, pinned[varying[0] := a[varying[0]]])
    decreases |varying|, 0, |values|
  {
    if values != [] {
      var f := varying[0];
      EnumerateIsProduct(varying[1..], options, pinned[f := values[0]], a);
      EnumerateOverIs(varying, options, pinned, values[1..], a);
      assert f !in varying[1..];
    }
  }

  /** One entry per combination. */
  lemma {:induction false} EnumerateSize(varying: seq<string>, options: Options, pinned: Assignment)
    requires forall f :: f in varying ==> f in options && options[f] != []
    ensures |Enumerate(varying, options, pinned)| == Product(varying, options)
    decreases |varying|, 1, 0
  {
    if varying != [] { EnumerateOverSize(varying, options, pinned, options[varying[0]]); }
  }

  lemma OneMore(n: nat, p: nat)
    ensures (n + 1) * p == p + n * p
  {
  }

  lemma {:induction false} EnumerateOverSize(varying: seq<string>, options: Options, pinned: Assignment, values: seq<string>)
    requires varying != [] && forall f :: f in varying ==> f in options && options[f] != []
    ensures |EnumerateOver(varying, options, pinned, values)| == |values| * Product(varying[1..], options)
    decreases |varying|, 0, |values|
  {
    if values != [] {
      hide Product, Enumerate;
      var p, rest := Product(varying[1..], options), |values[1..]|;
      EnumerateSize(varying[1..], options, pinned[varying[0] := values[0]]);
      EnumerateOverSize(varying, options, pinned, values[1..]);
      OneMore(rest, p);
      assert |values| == rest + 1;
    }
  }

  // ------------------------------------------------------------------
  // What the readings recommend
  // ------------------------------------------------------------------

  function KeySet(actions: seq<Action>): set<Key> {
    set k | 0 <= k < |actions| :: actions[k].Key()
  }

  function Succeeded(results: seq<Reading>): (ok: seq<Reading>)
    ensures forall r :: r in ok <==> r in results && !r.failed
  {
    if results == [] then []
    else
      var n := |results| - 1;
      assert results == results[..n] + [results[n]];
      if results[n].failed then Succeeded(results[..n]) else Succeeded(results[..n]) + [results[n]]
  }

  function Union(sets: seq<set<Key>>): (u: set<Key>)
    ensures forall x :: x in u <==> exists k :: 0 <= k < |sets| && x in sets[k]
  {
    if sets == [] then {}
    else
      var n := |sets| - 1;
      var u := Union(sets[..n]) + sets[n];
      assert forall k :: 0 <= k < n ==> sets[..n][k] == sets[k];
      u
  }

  function Shared(sets: seq<set<Key>>): (i: set<Key>)
    requires sets != []
    ensures forall x :: x in i <==> forall k :: 0 <= k < |sets| ==> x in sets[k]
  {
    if |sets| == 1 then sets[0]
    else
      var n := |sets| - 1;
      assert forall k :: 0 <= k < n ==> sets[..n][k] == sets[k];
      Shared(sets[..n]) * sets[n]
  }

  /** Actions some but not all of these readings recommend. */
  function Disputed(sets: seq<set<Key>>): nat {
    if sets == [] then 0 else |Union(sets) - Shared(sets)|
  }

  function SetsOf(ok: seq<Reading>): (r: seq<set<Key>>)
    ensures |r| == |ok| && forall k :: 0 <= k < |r| ==> r[k] == KeySet(ok[k].actions)
  {
    seq(|ok|, k requires 0 <= k < |ok| => KeySet(ok[k].actions))
  }

  lemma {:induction false} DisputedSame(xs: seq<set<Key>>, ys: seq<set<Key>>)
    requires (forall s :: s in xs <==> s in ys) && xs != [] && ys != []
    ensures Disputed(xs) == Disputed(ys)
  {
    forall x ensures x in Union(xs) <==> x in Union(ys) {
      if x in Union(xs) { var k :| 0 <= k < |xs| && x in xs[k]; assert xs[k] in ys; }
      if x in Union(ys) { var k :| 0 <= k < |ys| && x in ys[k]; assert ys[k] in xs; }
    }
    forall x ensures x in Shared(xs) <==> x in Shared(ys) {
      if x in Shared(xs) { forall k | 0 <= k < |ys| ensures x in ys[k] { assert ys[k] in xs; } }
      if x in Shared(ys) { forall k | 0 <= k < |xs| ensures x in xs[k] { assert xs[k] in ys; } }
    }
    assert Union(xs) == Union(ys) && Shared(xs) == Shared(ys);
  }

  /** Nothing is disputed exactly when all the sets are the same. */
  lemma DisputedZero(sets: seq<set<Key>>)
    ensures Disputed(sets) == 0 <==> forall k, l :: 0 <= k < |sets| && 0 <= l < |sets| ==> sets[k] == sets[l]
  {
    if sets != [] {
      var open := Union(sets) - Shared(sets);
      if open == {} {
        forall k, l | 0 <= k < |sets| && 0 <= l < |sets| ensures sets[k] == sets[l] {
          forall x ensures x in sets[k] <==> x in sets[l] {
            if x in sets[k] { assert x in Union(sets) && x !in open; }
            if x in sets[l] { assert x in Union(sets) && x !in open; }
          }
        }
      } else {
        var x :| x in open;
        var k :| 0 <= k < |sets| && x in sets[k];
        var l :| 0 <= l < |sets| && x !in sets[l];
        assert sets[k] != sets[l];
      }
    }
  }

  // ------------------------------------------------------------------
  // Buckets
  // ------------------------------------------------------------------

  /** The readings with one value of a flag, as their recommendation sets. */
  datatype Bucket = Bucket(value: string, sets: seq<set<Key>>)

  /** A flag an assignment does not mention reads as "None". */
  function ValueOf(a: Assignment, flag: string): string {
    if flag in a then a[flag] else "None"
  }

  function AddTo(buckets: seq<Bucket>, value: string, s: set<Key>): seq<Bucket> {
    if buckets == [] then [Bucket(value, [s])]
    else if buckets[0].value == value then [Bucket(value, buckets[0].sets + [s])] + buckets[1..]
    else [buckets[0]] + AddTo(buckets[1..], value, s)
  }

  function Buckets(ok: seq<Reading>, flag: string): seq<Bucket> {
    if ok == [] then []
    else
      var n := |ok| - 1;
      AddTo(Buckets(ok[..n], flag), ValueOf(ok[n].assignment, flag), KeySet(ok[n].actions))
  }

  method FillBuckets(ok: seq<Reading>, flag: string) returns (buckets: seq<Bucket>)
    ensures buckets == Buckets(ok, flag)
  {
    buckets := [];
    for k := 0 to |ok|
      invariant buckets == Buckets(ok[..k], flag)
    {
      buckets := AddTo(buckets, ValueOf(ok[k].assignment, flag), KeySet(ok[k].actions));
      assert ok[..k+1][..k] == ok[..k];
    }
    assert ok[..|ok|] == ok;
  }

  /** Set s is filed under this value. */
  predicate Filed(buckets: seq<Bucket>, value: string, s: set<Key>) {
    exists k :: 0 <= k < |buckets| && buckets[k].value == value && s in buckets[k].sets
  }

  ghost predicate Tidy(buckets: seq<Bucket>) {
    && (forall k, l :: 0 <= k < l < |buckets| ==> buckets[k].value != buckets[l].value)
    && forall k :: 0 <= k < |buckets| ==> buckets[k].sets != []
  }

  lemma {:induction false} AddToFiles(buckets: seq<Bucket>, value: string, s: set<Key>, v: string, t: set<Key>)
    ensures Filed(AddTo(buckets, value, s), v, t) <==> Filed(buckets, v, t) || (v == value && t == s)
  {
    var r := AddTo(buckets, value, s);
    if buckets == [] {
      assert r[0] == Bucket(value, [s]);
      if v == value && t == s { assert t in r[0].sets; }
    } else {
      FiledSplit(buckets, v, t);
      FiledSplit(r, v, t);
      if buckets[0].value == value {
        assert r[1..] == buckets[1..];
      } else {
        assert r[1..] == AddTo(buckets[1..], value, s);
        AddToFiles(buckets[1..], value, s, v, t);
      }
    }
  }

  lemma FiledSplit(buckets: seq<Bucket>, v: string, t: set<Key>)
    requires buckets != []
    ensures Filed(buckets, v, t) <==> (buckets[0].value == v && t in buckets[0].sets) || Filed(buckets[1..], v, t)
  {
    if Filed(buckets[1..], v, t) {
      var k :| 0 <= k < |buckets[1..]| && buckets[1..][k].value == v && t in buckets[1..][k].sets;
      assert buckets[k+1].value == v;
    }
    if Filed(buckets, v, t) {
      var k :| 0 <= k < |buckets| && buckets[k].value == v && t in buckets[k].sets;
      if k > 0 { assert buckets[1..][k-1] == buckets[k]; }
    }
  }

  predicate HasValue(buckets: seq<Bucket>, v: string) { exists l :: 0 <= l < |buckets| && buckets[l].value == v }

  lemma {:induction false} AddToValues(buckets: seq<Bucket>, value: string, s: set<Key>, v: string)
    ensures HasValue(AddTo(buckets, value, s), v) <==> HasValue(buckets, v) || v == value
  {
    var r := AddTo(buckets, value, s);
    if buckets == [] {
      assert r[0].value == value;
    } else {
      assert r[0].value == buckets[0].value;
      assert buckets == [buckets[0]] + buckets[1..] && r == [r[0]] + r[1..];
      HasValueCons(buckets[0], buckets[1..], v);
      HasValueCons(r[0], r[1..], v);
      if buckets[0].value != value { AddToValues(buckets[1..], value, s, v); }
    }
  }

  lemma HasValueCons(first: Bucket, rest: seq<Bucket>, v: string)
    ensures HasValue([first] + rest, v) <==> first.value == v || HasValue(rest, v)
  {
    var r := [first] + rest;
    assert r[0] == first && forall l :: 0 <= l < |rest| ==> r[l+1] == rest[l];
  }

  lemma {:induction false} AddToTidy(buckets: seq<Bucket>, value: string, s: set<Key>)
    requires Tidy(buckets)
    ensures Tidy(AddTo(buckets, value, s))
  {
    if buckets != [] && buckets[0].value != value {
      var rest := AddTo(buckets[1..], value, s);
      AddToTidy(buckets[1..], value, s);
      AddToValues(buckets[1..], value, s, buckets[0].value);
      assert !HasValue(rest, buckets[0].value);
    }
  }

  /** A reading files set t under value v. */
  predicate Says(ok: seq<Reading>, flag: string, v: string, t: set<Key>) {
    exists k :: 0 <= k < |ok| && ValueOf(ok[k].assignment, flag) == v && KeySet(ok[k].actions) == t
  }

  /** BUCKETS partition the readings by value: each value once, holding exactly its readings' sets. */
  lemma {:induction false} BucketsPartition(ok: seq<Reading>, flag: string)
    ensures Tidy(Buckets(ok, flag))
    ensures forall v, t :: Filed(Buckets(ok, flag), v, t) <==> Says(ok, flag, v, t)
  {
    if ok != [] {
      var n := |ok| - 1;
      BucketsPartition(ok[..n], flag);
      var value, s := ValueOf(ok[n].assignment, flag), KeySet(ok[n].actions);
      AddToTidy(Buckets(ok[..n], flag), value, s);
      forall v, t ensures Filed(Buckets(ok, flag), v, t) <==> Says(ok, flag, v, t) {
        AddToFiles(Buckets(ok[..n], flag), value, s, v, t);
        SaysSplit(ok, flag, v, t);
      }
    }
  }

  lemma SaysSplit(ok: seq<Reading>, flag: string, v: string, t: set<Key>)
    requires ok != []
    ensures var n := |ok| - 1;
      Says(ok, flag, v, t) <==> Says(ok[..n], flag, v, t) || (ValueOf(ok[n].assignment, flag) == v && KeySet(ok[n].actions) == t)
  {
    var n := |ok| - 1;
    if Says(ok[..n], flag, v, t) {
      var k :| 0 <= k < n && ValueOf(ok[..n][k].assignment, flag) == v && KeySet(ok[..n][k].actions) == t;
      assert ok[k] == ok[..n][k];
    }
    if Says(ok, flag, v, t) {
      var k :| 0 <= k < |ok| && ValueOf(ok[k].assignment, flag) == v && KeySet(ok[k].actions) == t;
      if k < n { assert ok[..n][k] == ok[k]; }
    }
  }

  // ------------------------------------------------------------------
  // The flag that causes the split
  // ------------------------------------------------------------------

  predicate Uniform(sets: seq<set<Key>>) {
    forall k :: 0 <= k < |sets| ==> sets[k] == sets[0]
  }

  /** The same recommendations inside every bucket, different ones across buckets. */
  predicate Explains(buckets: seq<Bucket>) {
    && |buckets| >= 2
    && (forall k :: 0 <= k < |buckets| ==> buckets[k].sets != [] && Uniform(buckets[k].sets))
    && exists k, l :: 0 <= k < l < |buckets| && buckets[k].sets[0] != buckets[l].sets[0]
  }

  /** Every reading of the product, in its order, none of them failed. */
  ghost predicate Complete(ok: seq<Reading>, varying: seq<string>, options: Options, pinned: Assignment) {
    && Distinct(varying) && (forall f :: f in varying ==> f in options)
    && |ok| == |Enumerate(varying, options, pinned)|
    && forall k :: 0 <= k < |ok| ==> !ok[k].failed && ok[k].assignment == Enumerate(varying, options, pinned)[k]
  }

  lemma SaysOf(ok: seq<Reading>, flag: string, k: nat)
    requires k < |ok|
    ensures Says(ok, flag, ValueOf(ok[k].assignment, flag), KeySet(ok[k].actions))
  {
  }

  /** An explaining flag decides the recommendations, and they do differ. */
  lemma ExplainsMeans(ok: seq<Reading>, f: string)
    requires Explains(Buckets(ok, f))
    ensures forall k, l :: 0 <= k < |ok| && 0 <= l < |ok| && ValueOf(ok[k].assignment, f) == ValueOf(ok[l].assignment, f) ==>
      KeySet(ok[k].actions) == KeySet(ok[l].actions)
    ensures exists k, l :: 0 <= k < |ok| && 0 <= l < |ok| && KeySet(ok[k].actions) != KeySet(ok[l].actions)
  {
    var bs := Buckets(ok, f);
    BucketsPartition(ok, f);
    forall k, l | 0 <= k < |ok| && 0 <= l < |ok| && ValueOf(ok[k].assignment, f) == ValueOf(ok[l].assignment, f)
      ensures KeySet(ok[k].actions) == KeySet(ok[l].actions)
    {
      SaysOf(ok, f, k);
      SaysOf(ok, f, l);
      var v := ValueOf(ok[k].assignment, f);
      assert Filed(bs, v, KeySet(ok[k].actions)) && Filed(bs, v, KeySet(ok[l].actions));
    }
    var i, j :| 0 <= i < j < |bs| && bs[i].sets[0] != bs[j].sets[0];
    assert Filed(bs, bs[i].value, bs[i].sets[0]) && Filed(bs, bs[j].value, bs[j].sets[0]);
    assert Says(ok, f, bs[i].value, bs[i].sets[0]) && Says(ok, f, bs[j].value, bs[j].sets[0]);
  }

  /** Only a flag that varies can explain anything. */
  lemma ExplainsVaries(ok: seq<Reading>, varying: seq<string>, options: Options, pinned: Assignment, f: string)
    requires Complete(ok, varying, options, pinned) && Explains(Buckets(ok, f))
    ensures f in varying
  {
    if f !in varying {
      ExplainsMeans(ok, f);
      forall k | 0 <= k < |ok| ensures ValueOf(ok[k].assignment, f) == ValueOf(pinned, f) {
        assert ok[k].assignment in Enumerate(varying, options, pinned);
        EnumerateIsProduct(varying, options, pinned, ok[k].assignment);
      }
      assert false;
    }
  }

  /** MIXING: the product holds the reading that differs from reading l only in taking
      the value of f from reading k. */
  lemma Mixed(ok: seq<Reading>, varying: seq<string>, options: Options, pinned: Assignment, f: string, k: nat, l: nat) returns (m: nat)
    requires Complete(ok, varying, options, pinned) && f in varying && k < |ok| && l < |ok|
    ensures m < |ok| && ValueOf(ok[m].assignment, f) == ValueOf(ok[k].assignment, f)
    ensures forall g :: g != f ==> ValueOf(ok[m].assignment, g) == ValueOf(ok[l].assignment, g)
  {
    var all := Enumerate(varying, options, pinned);
    assert ok[k].assignment in all && ok[l].assignment in all;
    EnumerateIsProduct(varying, options, pinned, ok[k].assignment);
    EnumerateIsProduct(varying, options, pinned, ok[l].assignment);
    var a := ok[l].assignment[f := ok[k].assignment[f]];
    EnumerateIsProduct(varying, options, pinned, a);
    m :| 0 <= m < |all| && all[m] == a;
  }

  /** UNIQUENESS: over the complete product at most one flag explains the split. */
  lemma AtMostOneExplains(ok: seq<Reading>, varying: seq<string>, options: Options, pinned: Assignment, f: string, g: string)
    requires Complete(ok, varying, options, pinned) && Explains(Buckets(ok, f)) && Explains(Buckets(ok, g))
    ensures f == g
  {
    ExplainsVaries(ok, varying, options, pinned, f);
    ExplainsMeans(ok, f);
    ExplainsMeans(ok, g);
    if f != g {
      var k, l :| 0 <= k < |ok| && 0 <= l < |ok| && KeySet(ok[k].actions) != KeySet(ok[l].actions);
      var m := Mixed(ok, varying, options, pinned, f, k, l);
      assert false;
    }
  }

  // ------------------------------------------------------------------
  // Leverage
  // ------------------------------------------------------------------

  function Residual(buckets: seq<Bucket>): nat {
    if buckets == [] then 0 else Residual(buckets[..|buckets|-1]) + Disputed(buckets[|buckets|-1].sets)
  }

  /** Disputed actions that knowing the flag would settle, on average over its values. */
  function Gain(ok: seq<Reading>, flag: string): real
    requires ok != []
  {
    var bs := Buckets(ok, flag);
    SomeBucket(ok, flag);
    Disputed(SetsOf(ok)) as real - Residual(bs) as real / |bs| as real
  }

  lemma SomeBucket(ok: seq<Reading>, flag: string)
    requires ok != []
    ensures Buckets(ok, flag) != []
  {
  }

  lemma {:induction false} ResidualSame(buckets: seq<Bucket>, c: nat)
    requires forall k :: 0 <= k < |buckets| ==> Disputed(buckets[k].sets) == c
    ensures Residual(buckets) == |buckets| * c
  {
    hide Disputed;
    if buckets != [] {
      var n := |buckets| - 1;
      ResidualSame(buckets[..n], c);
      assert Residual(buckets) == n * c + c;
    }
  }

  /** The readings of an explaining flag differ, and none of its buckets is disputed. */
  lemma ExplainingSettles(ok: seq<Reading>, f: string)
    requires Explains(Buckets(ok, f))
    ensures Disputed(SetsOf(ok)) > 0
    ensures forall k :: 0 <= k < |Buckets(ok, f)| ==> Disputed(Buckets(ok, f)[k].sets) == 0
  {
    var bs := Buckets(ok, f);
    forall k | 0 <= k < |bs| ensures Disputed(bs[k].sets) == 0 { DisputedZero(bs[k].sets); }
    ExplainsMeans(ok, f);
    DisputedZero(SetsOf(ok));
    var k, l :| 0 <= k < |ok| && 0 <= l < |ok| && KeySet(ok[k].actions) != KeySet(ok[l].actions);
    assert SetsOf(ok)[k] != SetsOf(ok)[l];
  }

  /** Resolving the explaining flag settles everything. */
  lemma ExplainingGain(ok: seq<Reading>, f: string)
    requires ok != [] && Explains(Buckets(ok, f))
    ensures Gain(ok, f) == Disputed(SetsOf(ok)) as real && Gain(ok, f) > 0.0
  {
    hide Disputed, Explains, Buckets, Residual, SetsOf;
    var bs := Buckets(ok, f);
    SomeBucket(ok, f);
    ExplainingSettles(ok, f);
    ResidualSame(bs, 0);
    assert Residual(bs) == 0;
    Average(|bs|, 0);
  }

  lemma FiledIsSaid(ok: seq<Reading>, g: string, b: nat, s: set<Key>) returns (l: nat)
    requires b < |Buckets(ok, g)| && s in Buckets(ok, g)[b].sets
    ensures l < |ok| && ValueOf(ok[l].assignment, g) == Buckets(ok, g)[b].value && KeySet(ok[l].actions) == s
  {
    var bs := Buckets(ok, g);
    BucketsPartition(ok, g);
    assert Filed(bs, bs[b].value, s);
    assert Says(ok, g, bs[b].value, s);
    l :| 0 <= l < |ok| && ValueOf(ok[l].assignment, g) == bs[b].value && KeySet(ok[l].actions) == s;
  }

  lemma SaidIsFiled(ok: seq<Reading>, g: string, b: nat, l: nat)
    requires b < |Buckets(ok, g)| && l < |ok| && ValueOf(ok[l].assignment, g) == Buckets(ok, g)[b].value
    ensures KeySet(ok[l].actions) in Buckets(ok, g)[b].sets
  {
    var bs, s := Buckets(ok, g), KeySet(ok[l].actions);
    BucketsPartition(ok, g);
    SaysOf(ok, g, l);
    assert Filed(bs, bs[b].value, s);
    var c :| 0 <= c < |bs| && bs[c].value == bs[b].value && s in bs[c].sets;
    assert c == b;
  }

  lemma BucketFilled(ok: seq<Reading>, g: string, b: nat)
    requires b < |Buckets(ok, g)|
    ensures Buckets(ok, g)[b].sets != []
  {
    BucketsPartition(ok, g);
  }

  /** Every bucket of another flag still holds every recommendation set. */
  lemma OtherBucketHoldsAll(ok: seq<Reading>, varying: seq<string>, options: Options, pinned: Assignment, f: string, g: string, b: nat)
    requires Complete(ok, varying, options, pinned) && Explains(Buckets(ok, f)) && g != f && b < |Buckets(ok, g)|
    ensures Disputed(Buckets(ok, g)[b].sets) == Disputed(SetsOf(ok))
  {
    var sets := Buckets(ok, g)[b].sets;
    BucketFilled(ok, g, b);
    ExplainsVaries(ok, varying, options, pinned, f);
    ExplainsMeans(ok, f);
    hide Complete, Explains, Buckets, KeySet, ValueOf, Disputed;
    var l := FiledIsSaid(ok, g, b, sets[0]);
    forall s ensures s in sets <==> s in SetsOf(ok) {
      if s in sets {
        var k := FiledIsSaid(ok, g, b, s);
        assert SetsOf(ok)[k] == s;
      }
      if s in SetsOf(ok) {
        var k :| 0 <= k < |ok| && SetsOf(ok)[k] == s;
        var m := Mixed(ok, varying, options, pinned, f, k, l);
        SaidIsFiled(ok, g, b, m);
      }
    }
    DisputedSame(sets, SetsOf(ok));
  }

  /** Resolving any other flag settles nothing. */
  lemma OtherGain(ok: seq<Reading>, varying: seq<string>, options: Options, pinned: Assignment, f: string, g: string)
    requires ok != [] && Complete(ok, varying, options, pinned) && Explains(Buckets(ok, f)) && g != f
    ensures Gain(ok, g) == 0.0
  {
    var bs, c := Buckets(ok, g), Disputed(SetsOf(ok));
    SomeBucket(ok, g);
    forall k | 0 <= k < |bs| ensures Disputed(bs[k].sets) == c { OtherBucketHoldsAll(ok, varying, options, pinned, f, g, k); }
    ResidualSame(bs, c);
    Average(|bs|, c);
  }

  lemma Average(n: nat, c: nat)
    requires n > 0
    ensures (n * c) as real / n as real == c as real
  {
    assert (n * c) as real == n as real * c as real;
  }

  method GainNow(ok: seq<Reading>, flag: string, overall: nat) returns (gain: real)
    requires ok != [] && overall == Disputed(SetsOf(ok))
    ensures gain == Gain(ok, flag)
  {
    hide Disputed, SetsOf, Residual;
    var buckets := FillBuckets(ok, flag);
    SomeBucket(ok, flag);
    gain := overall as real - Residual(buckets) as real / |buckets| as real;
  }

  /** The leverage loop over the successful readings: a flag of greatest gain. */
  method MostGain(ok: seq<Reading>, flags: seq<string>) returns (best: int)
    requires ok != [] && flags != []
    ensures 0 <= best < |flags|
    ensures forall k :: 0 <= k < |flags| ==> Gain(ok, flags[k]) <= Gain(ok, flags[best])
  {
    var overall := Disputed(SetsOf(ok));
    hide *;
    best := -1;
    var bestGain := -1.0;
    for k := 0 to |flags|
      invariant -1 <= best < |flags| && (best == -1 ==> bestGain == -1.0 && k == 0)
      invariant best >= 0 ==> bestGain == Gain(ok, flags[best])
      invariant forall j :: 0 <= j < k ==> Gain(ok, flags[j]) <= bestGain
    {
      var gain := GainNow(ok, flags[k], overall);
      GainIsNotNegative(ok, flags[k]);
      if gain > bestGain { best, bestGain := k, gain; }
    }
  }

  /** The flag that settles the most disputed actions once its value is known. */
  method HighestLeverage(ok: seq<Reading>, flags: seq<string>) returns (best: Option<string>)
    ensures best.None? <==> flags == []
    ensures best.Some? && ok == [] ==> best.value == flags[0]
    ensures best.Some? && ok != [] ==> best.value in flags
    ensures best.Some? && ok != [] ==> forall k :: 0 <= k < |flags| ==> Gain(ok, flags[k]) <= Gain(ok, best.value)
  {
    if flags == [] { return None; }
    if ok == [] { return Some(flags[0]); }
    var k := MostGain(ok, flags);
    return Some(flags[k]);
  }

  /** LEVERAGE: over the complete product the flag recommended for an experiment is the
      one that explains the split, whenever one does and is asked about. */
  lemma LeverageFindsTheCause(ok: seq<Reading>, varying: seq<string>, options: Options, pinned: Assignment, flags: seq<string>, f: string, best: string)
    requires Complete(ok, varying, options, pinned) && Explains(Buckets(ok, f)) && f in flags && ok != []
    requires forall k :: 0 <= k < |flags| ==> Gain(ok, flags[k]) <= Gain(ok, best)
    ensures best == f
  {
    ExplainingGain(ok, f);
    var k :| 0 <= k < |flags| && flags[k] == f;
    hide Gain, Complete, Explains;
    if best != f { OtherGain(ok, varying, options, pinned, f, best); }
  }

  lemma {:induction false} ResidualBound(buckets: seq<Bucket>, c: nat)
    requires forall k :: 0 <= k < |buckets| ==> Disputed(buckets[k].sets) <= c
    ensures Residual(buckets) <= |buckets| * c
  {
    hide Disputed;
    if buckets != [] {
      var n := |buckets| - 1;
      ResidualBound(buckets[..n], c);
      assert Residual(buckets) <= n * c + c;
    }
  }

  lemma AverageBound(sum: nat, n: nat, c: nat)
    requires n > 0 && sum <= n * c
    ensures c as real - sum as real / n as real >= 0.0
  {
    Average(n, c);
    assert sum as real / n as real <= (n * c) as real / n as real;
  }

  /** Fewer readings never dispute more. */
  lemma DisputedSubset(xs: seq<set<Key>>, ys: seq<set<Key>>)
    requires xs != [] && ys != [] && forall s :: s in xs ==> s in ys
    ensures Disputed(xs) <= Disputed(ys)
  {
    forall x | x in Union(xs) - Shared(xs) ensures x in Union(ys) - Shared(ys) {
      var k :| 0 <= k < |xs| && x in xs[k];
      assert xs[k] in ys;
      var l :| 0 <= l < |xs| && x !in xs[l];
      assert xs[l] in ys;
    }
    SubsetSize(Union(xs) - Shared(xs), Union(ys) - Shared(ys));
  }

  lemma BucketDisputesLess(ok: seq<Reading>, flag: string, k: nat)
    requires ok != [] && k < |Buckets(ok, flag)|
    ensures Disputed(Buckets(ok, flag)[k].sets) <= Disputed(SetsOf(ok))
  {
    var sets := Buckets(ok, flag)[k].sets;
    BucketFilled(ok, flag, k);
    forall s | s in sets ensures s in SetsOf(ok) {
      var l := FiledIsSaid(ok, flag, k, s);
      assert SetsOf(ok)[l] == s;
    }
    DisputedSubset(sets, SetsOf(ok));
  }

  /** No flag loses: splitting the readings never adds disputes on average. */
  lemma GainIsNotNegative(ok: seq<Reading>, flag: string)
    requires ok != []
    ensures Gain(ok, flag) >= 0.0
  {
    var bs, c := Buckets(ok, flag), Disputed(SetsOf(ok));
    SomeBucket(ok, flag);
    hide Disputed, Buckets, Residual;
    forall k | 0 <= k < |bs| ensures Disputed(bs[k].sets) <= c { BucketDisputesLess(ok, flag, k); }
    ResidualBound(bs, c);
    AverageBound(Residual(bs), |bs|, c);
  }

  // ------------------------------------------------------------------
  // Consensus and groups
  // ------------------------------------------------------------------

  /** First action recorded under each key. */
  function IndexOf(actions: seq<Action>): (index: map<Key, Action>)
    ensures forall k :: k in index <==> k in KeySet(actions)
    ensures forall k :: k in index ==> index[k].Key() == k
  {
    if actions == [] then map[]
    else
      var n := |actions| - 1;
      var before := IndexOf(actions[..n]);
      KeySetSnoc(actions);
      if actions[n].Key() in before then before else before[actions[n].Key() := actions[n]]
  }

  lemma KeySetSnoc(actions: seq<Action>)
    requires actions != []
    ensures KeySet(actions) == KeySet(actions[..|actions|-1]) + {actions[|actions|-1].Key()}
  {
    var n := |actions| - 1;
    forall k ensures k in KeySet(actions) <==> k in KeySet(actions[..n]) + {actions[n].Key()} {
      if k in KeySet(actions[..n]) {
        var j :| 0 <= j < n && actions[..n][j].Key() == k;
        assert actions[j].Key() == k;
      }
      if k in KeySet(actions) {
        var j :| 0 <= j < |actions| && actions[j].Key() == k;
        if j < n { assert actions[..n][j].Key() == k; }
      }
    }
  }

  function Gathered(ok: seq<Reading>): seq<Action> {
    if ok == [] then [] else Gathered(ok[..|ok|-1]) + ok[|ok|-1].actions
  }

  function KeepShared(actions: seq<Action>, index: map<Key, Action>, common: set<Key>): seq<Action>
    requires forall k :: k in common ==> k in index
  {
    if actions == [] then []
    else
      (if actions[0].Key() in common then [index[actions[0].Key()]] else []) + KeepShared(actions[1..], index, common)
  }

  lemma {:induction false} GatheredHas(ok: seq<Reading>, k: Key)
    ensures k in KeySet(Gathered(ok)) <==> exists j :: 0 <= j < |ok| && k in KeySet(ok[j].actions)
  {
    if ok != [] {
      var n := |ok| - 1;
      GatheredHas(ok[..n], k);
      KeySetJoin(Gathered(ok[..n]), ok[n].actions);
      hide KeySet, Gathered;
      assert forall j :: 0 <= j < n ==> ok[..n][j] == ok[j];
    }
  }

  lemma KeySetJoin(xs: seq<Action>, ys: seq<Action>)
    ensures KeySet(xs + ys) == KeySet(xs) + KeySet(ys)
  {
    forall k ensures k in KeySet(xs + ys) <==> k in KeySet(xs) + KeySet(ys) {
      if k in KeySet(xs) { var j :| 0 <= j < |xs| && xs[j].Key() == k; assert (xs + ys)[j].Key() == k; }
      if k in KeySet(ys) { var j :| 0 <= j < |ys| && ys[j].Key() == k; assert (xs + ys)[|xs| + j].Key() == k; }
    }
  }

  lemma {:induction false} KeepSharedKeys(actions: seq<Action>, index: map<Key, Action>, common: set<Key>)
    requires forall k :: k in common ==> k in index && index[k].Key() == k
    ensures KeySet(KeepShared(actions, index, common)) == KeySet(actions) * common
  {
    if actions != [] {
      KeepSharedKeys(actions[1..], index, common);
      var head := if actions[0].Key() in common then [index[actions[0].Key()]] else [];
      KeySetJoin(head, KeepShared(actions[1..], index, common));
      assert actions == [actions[0]] + actions[1..];
      KeySetJoin([actions[0]], actions[1..]);
      assert KeySet([actions[0]]) == {actions[0].Key()};
      assert KeySet(head) == {actions[0].Key()} * common;
    }
  }

  /** What every reading recommends is what the first recommends and the rest share. */
  lemma SharedIsInFirst(ok: seq<Reading>, index: map<Key, Action>)
    requires ok != [] && (forall k :: k in index <==> k in KeySet(Gathered(ok))) && forall k :: k in index ==> index[k].Key() == k
    ensures forall k :: k in Shared(SetsOf(ok)) ==> k in index
    ensures KeySet(KeepShared(ok[0].actions, index, Shared(SetsOf(ok)))) == Shared(SetsOf(ok))
  {
    var common := Shared(SetsOf(ok));
    forall k | k in common ensures k in index && k in KeySet(ok[0].actions) {
      assert k in SetsOf(ok)[0];
      GatheredHas(ok, k);
    }
    KeepSharedKeys(ok[0].actions, index, common);
  }

  ghost predicate SomeoneSays(ok: seq<Reading>, k: Key) {
    exists j :: 0 <= j < |ok| && k in KeySet(ok[j].actions)
  }

  lemma IndexIsWhatIsSaid(ok: seq<Reading>)
    ensures forall k :: k in IndexOf(Gathered(ok)) <==> SomeoneSays(ok, k)
    ensures forall k :: k in IndexOf(Gathered(ok)) ==> IndexOf(Gathered(ok))[k].Key() == k
  {
    forall k ensures k in IndexOf(Gathered(ok)) <==> SomeoneSays(ok, k) { GatheredHas(ok, k); }
  }

  /** CONSENSUS over the successful readings: exactly the actions every one of them
      recommends, in the order of the first, each as it was first recorded. */
  method ConsensusAndIndex(ok: seq<Reading>) returns (consensus: seq<Action>, index: map<Key, Action>)
    ensures forall k :: k in index <==> SomeoneSays(ok, k)
    ensures forall k :: k in index ==> index[k].Key() == k
    ensures ok == [] ==> consensus == []
    ensures ok != [] ==> KeySet(consensus) == Shared(SetsOf(ok))
  {
    IndexIsWhatIsSaid(ok);
    index := IndexOf(Gathered(ok));
    if ok == [] { return [], index; }
    SharedIsInFirst(ok, index);
    consensus := KeepShared(ok[0].actions, index, Shared(SetsOf(ok)));
  }

  /** A divergent group: per value of the flag, what its readings add to the consensus. */
  datatype Group = Group(flag: string, byOption: seq<(string, set<Key>)>)

  function OptionSets(buckets: seq<Bucket>, consensus: set<Key>): (r: seq<(string, set<Key>)>)
    requires forall k :: 0 <= k < |buckets| ==> buckets[k].sets != []
    ensures |r| == |buckets|
  {
    seq(|buckets|, k requires 0 <= k < |buckets| => (buckets[k].value, buckets[k].sets[0] - consensus))
  }

  /** A group that names an explaining flag and lists it faithfully. */
  ghost predicate GroupOf(ok: seq<Reading>, flags: seq<string>, consensus: set<Key>, g: Group) {
    g.flag in flags && Explains(Buckets(ok, g.flag)) && g.byOption == OptionSets(Buckets(ok, g.flag), consensus)
  }

  ghost predicate Named(groups: seq<Group>, flag: string) {
    exists j :: 0 <= j < |groups| && groups[j].flag == flag
  }

  lemma NamedSnoc(groups: seq<Group>, g: Group, flag: string)
    ensures Named(groups + [g], flag) <==> Named(groups, flag) || g.flag == flag
  {
    var r := groups + [g];
    if Named(groups, flag) { var j :| 0 <= j < |groups| && groups[j].flag == flag; assert r[j].flag == flag; }
    if g.flag == flag { assert r[|groups|].flag == flag; }
  }

  /** The flags that explain the split, each with its group. */
  method Attribute(ok: seq<Reading>, flags: seq<string>, consensus: set<Key>) returns (groups: seq<Group>)
    ensures forall j :: 0 <= j < |groups| ==> GroupOf(ok, flags, consensus, groups[j])
    ensures forall l :: 0 <= l < |flags| && Explains(Buckets(ok, flags[l])) ==> Named(groups, flags[l])
  {
    groups := [];
    hide Explains, Buckets, Named;
    for k := 0 to |flags|
      invariant forall j :: 0 <= j < |groups| ==> GroupOf(ok, flags, consensus, groups[j])
      invariant forall l :: 0 <= l < k && Explains(Buckets(ok, flags[l])) ==> Named(groups, flags[l])
    {
      var buckets := FillBuckets(ok, flags[k]);
      if Explains(buckets) {
        ExplainsFilled(buckets);
        var g := Group(flags[k], OptionSets(buckets, consensus));
        forall l | 0 <= l <= k && Explains(Buckets(ok, flags[l])) ensures Named(groups + [g], flags[l]) { NamedSnoc(groups, g, flags[l]); }
        groups := groups + [g];
      }
    }
  }

  lemma ExplainsFilled(buckets: seq<Bucket>)
    requires Explains(buckets)
    ensures forall k :: 0 <= k < |buckets| ==> buckets[k].sets != []
  {
  }

  /** What some reading with each value adds to the consensus. */
  function UnionSets(buckets: seq<Bucket>, consensus: set<Key>): (r: seq<(string, set<Key>)>)
    ensures |r| == |buckets|
  {
    seq(|buckets|, k requires 0 <= k < |buckets| => (buckets[k].value, Union(buckets[k].sets) - consensus))
  }

  lemma FiledIsListed(buckets: seq<Bucket>, consensus: set<Key>, b: nat, x: Key)
    requires b < |buckets|
    ensures x in UnionSets(buckets, consensus)[b].1 <==> x !in consensus && exists s :: s in buckets[b].sets && x in s
  {
    var sets := buckets[b].sets;
    if s :| s in sets && x in s {
      var k :| 0 <= k < |sets| && sets[k] == s;
      assert x in sets[k];
    }
  }

  /** A value's partial list holds exactly what some reading with that value
      recommends beyond the consensus. */
  lemma PartialLists(ok: seq<Reading>, f: string, consensus: set<Key>, b: nat, x: Key)
    requires b < |Buckets(ok, f)|
    ensures x in UnionSets(Buckets(ok, f), consensus)[b].1 <==>
      x !in consensus && exists k :: 0 <= k < |ok| && ValueOf(ok[k].assignment, f) == Buckets(ok, f)[b].value && x in KeySet(ok[k].actions)
  {
    var bs := Buckets(ok, f);
    BucketsPartition(ok, f);
    FiledIsListed(bs, consensus, b, x);
    if s :| s in bs[b].sets && x in s {
      assert Filed(bs, bs[b].value, s);
      assert Says(ok, f, bs[b].value, s);
    }
    if k :| 0 <= k < |ok| && ValueOf(ok[k].assignment, f) == bs[b].value && x in KeySet(ok[k].actions) {
      SaysOf(ok, f, k);
      assert Filed(bs, bs[b].value, KeySet(ok[k].actions));
    }
  }

  /** The best explanation there is: a flag with at least two values, whose values
      leave the least disputed in all, with the union of each value's lists. */
  ghost predicate PartialGroup(ok: seq<Reading>, flags: seq<string>, consensus: set<Key>, g: Group) {
    && g.flag in flags && |Buckets(ok, g.flag)| >= 2
    && (forall f :: f in flags && |Buckets(ok, f)| >= 2 ==> Residual(Buckets(ok, g.flag)) <= Residual(Buckets(ok, f)))
    && g.byOption == UnionSets(Buckets(ok, g.flag), consensus)
  }

  /** When no flag explains the split: the first flag with at least two values whose
      values leave the least disputed in all. */
  method BestPartial(ok: seq<Reading>, flags: seq<string>, consensus: set<Key>) returns (best: Option<Group>)
    ensures best.None? ==> forall f :: f in flags ==> |Buckets(ok, f)| < 2
    ensures best.Some? ==> PartialGroup(ok, flags, consensus, best.value)
  {
    hide Buckets, Residual, UnionSets;
    best := None;
    var least := 0;
    for k := 0 to |flags|
      invariant best.None? ==> forall l :: 0 <= l < k ==> |Buckets(ok, flags[l])| < 2
      invariant best.Some? ==> PartialGroup(ok, flags[..k], consensus, best.value) && least == Residual(Buckets(ok, best.value.flag))
    {
      var buckets := FillBuckets(ok, flags[k]);
      assert flags[..k+1] == flags[..k] + [flags[k]];
      if |buckets| >= 2 {
        var residual := Residual(buckets);
        if best.None? || residual < least { best, least := Some(Group(flags[k], UnionSets(buckets, consensus))), residual; }
      }
    }
    assert flags[..|flags|] == flags;
  }

  /** ATTRIBUTION: nothing to explain gives no group; otherwise every flag that
      explains the split and no other, or, when there is none, the best partial
      explanation, which is then named in the note. */
  method AttributeDivergence(ok: seq<Reading>, flags: seq<string>, consensus: set<Key>) returns (groups: seq<Group>, note: Option<string>)
    ensures |ok| < 2 || Disputed(SetsOf(ok)) == 0 ==> groups == [] && note == None
    ensures |ok| >= 2 && Disputed(SetsOf(ok)) > 0 && note == None ==>
      (forall j :: 0 <= j < |groups| ==> GroupOf(ok, flags, consensus, groups[j]))
      && (forall f :: f in flags && Explains(Buckets(ok, f)) ==> Named(groups, f))
      && (groups == [] ==> forall f :: f in flags ==> |Buckets(ok, f)| < 2)
    ensures note.Some? ==> |groups| == 1 && groups[0].flag == note.value && PartialGroup(ok, flags, consensus, groups[0])
    ensures note.Some? ==> forall f :: f in flags ==> !Explains(Buckets(ok, f))
  {
    hide Buckets, Explains, Residual, UnionSets, Disputed, Named;
    if |ok| < 2 || Disputed(SetsOf(ok)) == 0 { return [], None; }
    groups := Attribute(ok, flags, consensus);
    if groups != [] { return groups, None; }
    forall f | f in flags ensures !Explains(Buckets(ok, f)) {
      var l :| 0 <= l < |flags| && flags[l] == f;
      NobodyNamed(groups, flags[l]);
    }
    var best := BestPartial(ok, flags, consensus);
    match best
    case None => return [], None;
    case Some(g) => return [g], Some(g.flag);
  }

  lemma NobodyNamed(groups: seq<Group>, flag: string)
    requires groups == []
    ensures !Named(groups, flag)
  {
  }

  /** REBUILDING: for an explaining flag, the consensus with a value's own list is exactly
      what every reading with that value recommends. */
  lemma GroupRebuilds(ok: seq<Reading>, f: string, k: nat, b: nat)
    requires Explains(Buckets(ok, f)) && k < |ok| && b < |Buckets(ok, f)|
    requires ValueOf(ok[k].assignment, f) == Buckets(ok, f)[b].value
    ensures var consensus := Shared(SetsOf(ok));
      consensus + OptionSets(Buckets(ok, f), consensus)[b].1 == KeySet(ok[k].actions)
      && consensus !! OptionSets(Buckets(ok, f), consensus)[b].1
  {
    var bs := Buckets(ok, f);
    BucketsPartition(ok, f);
    assert Filed(bs, bs[b].value, bs[b].sets[0]);
    assert Says(ok, f, bs[b].value, bs[b].sets[0]);
    ExplainsMeans(ok, f);
    assert KeySet(ok[k].actions) == bs[b].sets[0];
    var consensus := Shared(SetsOf(ok));
    forall x | x in consensus ensures x in KeySet(ok[k].actions) { assert x in SetsOf(ok)[k]; }
  }
}
