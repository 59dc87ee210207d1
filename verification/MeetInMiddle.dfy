/** Meet in the middle: collapse each half onto (weight, aggregate) keys, sort one
    half, and answer every left key with a prefix count and a binary search. */
module MeetInMiddle {
  import opened Counting
  import opened Puzzle
  import opened Clip
  import opened Grids
  import opened Subsets
  import opened Halves

  const MAX_MITM_PARTS := 44
  const COLLAPSE_LIMIT := 5_000_000

  type Entry = (Point, nat)

  // ------------------------------------------------------------------
  // Mixed-radix keys
  // ------------------------------------------------------------------

  function Lattice(caps: Vec): nat {
    if caps == [] then 1 else (caps[0] + 1) * Lattice(caps[1..])
  }

  ghost predicate UnderCaps(v: Vec, caps: Vec) {
    |v| == |caps| && forall k :: 0 <= k < |caps| ==> v[k] <= caps[k]
  }

  function Encode(v: Vec, caps: Vec): nat
    requires |v| == |caps|
  {
    if v == [] then 0 else v[0] + (caps[0] + 1) * Encode(v[1..], caps[1..])
  }

  function Digits(x: nat, caps: Vec): (v: Vec)
    ensures |v| == |caps|
  {
    if caps == [] then [] else [x % (caps[0] + 1)] + Digits(x / (caps[0] + 1), caps[1..])
  }

  lemma {:induction false} LatticePositive(caps: Vec)
    ensures Lattice(caps) >= 1
  {
    if caps != [] {
      LatticePositive(caps[1..]);
      CopiesMonotone(caps[0] + 1, 1, Lattice(caps[1..]));
    }
  }

  lemma DivMod(q: nat, r: nat, d: nat)
    requires r < d
    ensures (q * d + r) / d == q && (q * d + r) % d == r
  {
    var x := q * d + r;
    DivideOut(x / d, x % d, q, r, d);
  }

  /** Decoding an encoded vector gives it back, and codes fill 0..Lattice. */
  lemma {:induction false} EncodeDigits(v: Vec, caps: Vec)
    requires UnderCaps(v, caps)
    ensures Encode(v, caps) < Lattice(caps) && Digits(Encode(v, caps), caps) == v
  {
    if v != [] {
      EncodeDigits(v[1..], caps[1..]);
      var size, rest := caps[0] + 1, Encode(v[1..], caps[1..]);
      assert size * rest == rest * size;
      DivMod(rest, v[0], size);
      OffsetBound(rest, Lattice(caps[1..]), v[0], size);
      assert Lattice(caps[1..]) * size == size * Lattice(caps[1..]);
      assert v == [v[0]] + v[1..];
    }
  }

  lemma Parts(x: nat, d: nat, count: nat)
    requires d > 0 && x < count * d
    ensures x == (x / d) * d + x % d && x % d < d && x / d < count
  {
    if x / d >= count { CopiesMonotone(d, count, x / d); }
  }

  /** Encoding decoded digits gives the code back. */
  lemma {:induction false} DigitsEncode(x: nat, caps: Vec)
    requires x < Lattice(caps)
    ensures UnderCaps(Digits(x, caps), caps) && Encode(Digits(x, caps), caps) == x
  {
    if caps != [] {
      var size, count := caps[0] + 1, Lattice(caps[1..]);
      assert size * count == count * size;
      Parts(x, size, count);
      DigitsEncode(x / size, caps[1..]);
      OneDigit(Digits(x / size, caps[1..]), caps, x / size, x % size);
    }
  }

  lemma OneDigit(w: Vec, caps: Vec, q: nat, r: nat)
    requires caps != [] && r < caps[0] + 1 && UnderCaps(w, caps[1..]) && Encode(w, caps[1..]) == q
    ensures UnderCaps([r] + w, caps) && Encode([r] + w, caps) == q * (caps[0] + 1) + r
  {
    assert ([r] + w)[1..] == w;
  }

  /** Code of an aggregate, with a growing stride. */
  method EncodeAggregate(v: Vec, caps: Vec) returns (key: nat)
    requires |v| == |caps|
    ensures key == Encode(v, caps)
  {
    key := 0;
    var stride: nat := 1;
    for k := 0 to |caps|
      invariant key + stride * Encode(v[k..], caps[k..]) == Encode(v, caps)
    {
      var size, rest := caps[k] + 1, Encode(v[k+1..], caps[k+1..]);
      assert v[k..][1..] == v[k+1..] && caps[k..][1..] == caps[k+1..];
      StrideStep(stride, v[k], size, rest);
      key := key + v[k] * stride;
      stride := stride * size;
    }
  }

  lemma StrideStep(stride: nat, digit: nat, size: nat, rest: nat)
    ensures stride * (digit + size * rest) == digit * stride + (stride * size) * rest
  {
    assert stride * (size * rest) == (stride * size) * rest;
  }

  /** Digits of a code, lowest axis first. */
  method DecodeAggregate(key: nat, caps: Vec) returns (v: Vec)
    ensures v == Digits(key, caps)
  {
    v := [];
    var rest := key;
    for k := 0 to |caps|
      invariant |v| == k
      invariant v + Digits(rest, caps[k..]) == Digits(key, caps)
    {
      var size := caps[k] + 1;
      assert caps[k..][1..] == caps[k+1..];
      v, rest := v + [rest % size], rest / size;
    }
  }

  // ------------------------------------------------------------------
  // Collapsing a half
  // ------------------------------------------------------------------

  /** Too heavy to fit even alone. */
  function Light(job: Job, p: Point): Option<Point> {
    if Within(p.weight, job.weightMax) then Some(p) else None
  }

  /** The point a key stands for: too heavy is dropped, and without a weight
      budget the weight is forgotten. */
  function Normal(job: Job, p: Point): Option<Point> {
    match job.weightMax
    case None => Some(Point(0, p.agg))
    case Some(w) => if p.weight <= w then Some(p) else None
  }

  lemma NormalMeets(job: Job, q: Point, p: Point)
    ensures Meets(job, q, p) == (Normal(job, p).Some? && Meets(job, q, Normal(job, p).value))
    ensures Meets(job, q, p) == (Light(job, p).Some? && Meets(job, q, Light(job, p).value))
  {
  }

  lemma NormalInterchangeable(job: Job, points: seq<Point>)
    ensures Interchangeable(job, points, FilterMap(points, p => Normal(job, p)))
    ensures Interchangeable(job, points, FilterMap(points, p => Light(job, p)))
  {
    forall q: Point
      ensures Partners(job, q, points) == Partners(job, q, FilterMap(points, p => Normal(job, p)))
      ensures Partners(job, q, points) == Partners(job, q, FilterMap(points, p => Light(job, p)))
    {
      forall p | p in points
        ensures Meets(job, q, p) == (Normal(job, p).Some? && Meets(job, q, Normal(job, p).value))
        ensures Meets(job, q, p) == (Light(job, p).Some? && Meets(job, q, Light(job, p).value))
      {
        NormalMeets(job, q, p);
      }
      CountFilterMap(points, p => Normal(job, p), x => Meets(job, q, x), x => Meets(job, q, x));
      CountFilterMap(points, p => Light(job, p), x => Meets(job, q, x), x => Meets(job, q, x));
    }
  }

  lemma SameMultiset(job: Job, xs: seq<Point>, ys: seq<Point>)
    requires multiset(xs) == multiset(ys)
    ensures Interchangeable(job, xs, ys)
  {
    forall q: Point ensures Partners(job, q, xs) == Partners(job, q, ys) {
      CountByMultiset(xs, ys, x => Meets(job, q, x));
    }
  }

  lemma InterchangeableTrans(job: Job, xs: seq<Point>, ys: seq<Point>, zs: seq<Point>)
    requires Interchangeable(job, xs, ys) && Interchangeable(job, ys, zs)
    ensures Interchangeable(job, xs, zs)
  {
  }

  /** Number of weight keys. */
  function WeightKeys(job: Job): nat {
    match job.weightMax case None => 1 case Some(w) => w + 1
  }

  ghost predicate Keyed(job: Job, p: Point) {
    UnderCaps(p.agg, job.caps) && p.weight < WeightKeys(job)
  }

  function KeyOf(job: Job, p: Point): nat
    requires |p.agg| == |job.caps|
  {
    p.weight * Lattice(job.caps) + Encode(p.agg, job.caps)
  }

  function PointAt(job: Job, key: nat): Point
    requires Lattice(job.caps) >= 1
  {
    Point(key / Lattice(job.caps), Digits(key % Lattice(job.caps), job.caps))
  }

  /** Keys and points correspond one to one. */
  lemma KeyRoundTrip(job: Job, p: Point)
    requires Keyed(job, p)
    ensures Lattice(job.caps) >= 1
    ensures KeyOf(job, p) < WeightKeys(job) * Lattice(job.caps)
    ensures PointAt(job, KeyOf(job, p)) == p
  {
    LatticePositive(job.caps);
    EncodeDigits(p.agg, job.caps);
    DivMod(p.weight, Encode(p.agg, job.caps), Lattice(job.caps));
    OffsetBound(p.weight, WeightKeys(job), Encode(p.agg, job.caps), Lattice(job.caps));
  }

  lemma PointRoundTrip(job: Job, key: nat)
    requires key < WeightKeys(job) * Lattice(job.caps)
    ensures Lattice(job.caps) >= 1
    ensures Keyed(job, PointAt(job, key)) && KeyOf(job, PointAt(job, key)) == key
  {
    hide Lattice, Encode, Digits;
    LatticePositive(job.caps);
    var lattice := Lattice(job.caps);
    Parts(key, lattice, WeightKeys(job));
    DigitsEncode(key % lattice, job.caps);
  }

  /** The bin of every key holds the multiplicity of its point. */
  ghost predicate Bins(job: Job, counts: seq<nat>, points: seq<Point>) {
    && |counts| == WeightKeys(job) * Lattice(job.caps) && Lattice(job.caps) >= 1
    && forall key :: 0 <= key < |counts| ==> counts[key] == multiset(points)[PointAt(job, key)]
  }

  /** Count the points of every key. */
  method BinCount(job: Job, points: seq<Point>) returns (counts: array<nat>)
    requires forall p :: p in points ==> Keyed(job, p)
    ensures fresh(counts) && Bins(job, counts[..], points)
  {
    LatticePositive(job.caps);
    counts := new nat[WeightKeys(job) * Lattice(job.caps)](i => 0);
    for i := 0 to |points|
      invariant Bins(job, counts[..], points[..i])
    {
      var p := points[i];
      assert p in points;
      var code := EncodeAggregate(p.agg, job.caps);
      var key := p.weight * Lattice(job.caps) + code;
      KeyRoundTrip(job, p);
      ghost var before := counts[..];
      counts[key] := counts[key] + 1;
      BinStep(job, before, points, i, key);
      assert counts[..] == before[key := before[key] + 1];
    }
    assert points[..|points|] == points;
  }

  lemma BinStep(job: Job, counts: seq<nat>, points: seq<Point>, i: nat, key: nat)
    requires i < |points| && Keyed(job, points[i]) && Bins(job, counts, points[..i]) && key == KeyOf(job, points[i])
    ensures key < |counts| && Bins(job, counts[key := counts[key] + 1], points[..i+1])
  {
    KeyRoundTrip(job, points[i]);
    assert points[..i+1] == points[..i] + [points[i]];
    forall other | 0 <= other < |counts|
      ensures multiset(points[..i+1])[PointAt(job, other)]
           == multiset(points[..i])[PointAt(job, other)] + if other == key then 1 else 0
    {
      PointRoundTrip(job, other);
    }
  }

  lemma {:induction false} ExpandSnoc(entries: seq<Entry>, p: Point, n: nat)
    ensures multiset(Expand(entries + [(p, n)])) == multiset(Expand(entries))[p := multiset(Expand(entries))[p] + n]
  {
    if entries == [] {
      assert Expand([(p, n)][1..]) == [];
      assert Expand([(p, n)]) == Repeat(p, n);
      RepeatMultiset(p, n);
    } else {
      assert (entries + [(p, n)])[1..] == entries[1..] + [(p, n)];
      ExpandSnoc(entries[1..], p, n);
    }
  }

  lemma {:induction false} RepeatMultiset(p: Point, n: nat)
    ensures multiset(Repeat(p, n)) == multiset{}[p := n]
  {
    if n > 0 {
      RepeatMultiset(p, n - 1);
      assert Repeat(p, n) == Repeat(p, n - 1) + [p];
    }
  }

  /** Entries usable by the meeting. */
  ghost predicate EntriesOk(job: Job, entries: seq<Entry>) {
    forall e :: e in entries ==> UnderCaps(e.0.agg, job.caps)
  }

  ghost predicate Listed(job: Job, entries: seq<Entry>, points: seq<Point>, n: nat) {
    forall q: Point :: multiset(Expand(entries))[q] ==
      if UnderCaps(q.agg, job.caps) && KeyOf(job, q) < n then multiset(points)[q] else 0
  }

  /** Reading one more bin adds the point of that key and no other. */
  lemma OneMoreKey(job: Job, counts: seq<nat>, points: seq<Point>, n: nat, q: Point)
    requires Bins(job, counts, points) && n < |counts| && (forall p :: p in points ==> Keyed(job, p))
    ensures (if UnderCaps(q.agg, job.caps) && KeyOf(job, q) < n + 1 then multiset(points)[q] else 0)
         == (if UnderCaps(q.agg, job.caps) && KeyOf(job, q) < n then multiset(points)[q] else 0)
          + if q == PointAt(job, n) then counts[n] else 0
  {
    PointRoundTrip(job, n);
    if UnderCaps(q.agg, job.caps) && KeyOf(job, q) == n && q in points { KeyRoundTrip(job, q); }
  }

  lemma ListStep(job: Job, entries: seq<Entry>, counts: seq<nat>, points: seq<Point>, n: nat)
    requires Bins(job, counts, points) && n < |counts| && (forall p :: p in points ==> Keyed(job, p))
    requires Listed(job, entries, points, n)
    ensures counts[n] > 0 ==> Listed(job, entries + [(PointAt(job, n), counts[n])], points, n + 1)
    ensures counts[n] == 0 ==> Listed(job, entries, points, n + 1)
  {
    var p := PointAt(job, n);
    ExpandSnoc(entries, p, counts[n]);
    forall q: Point
      ensures (if UnderCaps(q.agg, job.caps) && KeyOf(job, q) < n + 1 then multiset(points)[q] else 0)
           == (if UnderCaps(q.agg, job.caps) && KeyOf(job, q) < n then multiset(points)[q] else 0)
            + if q == p then counts[n] else 0
    {
      OneMoreKey(job, counts, points, n, q);
    }
    hide KeyOf, PointAt, Keyed, Bins, Expand, UnderCaps;
  }

  /** Read the non-empty bins back as points with multiplicity. */
  method ReadBins(job: Job, counts: array<nat>, ghost points: seq<Point>) returns (entries: seq<Entry>)
    requires Bins(job, counts[..], points) && forall p :: p in points ==> Keyed(job, p)
    ensures EntriesOk(job, entries) && multiset(Expand(entries)) == multiset(points)
  {
    entries := [];
    for n := 0 to counts.Length
      invariant Listed(job, entries, points, n) && EntriesOk(job, entries)
    {
      ListStep(job, entries, counts[..], points, n);
      PointRoundTrip(job, n);
      if counts[n] > 0 {
        var agg := DecodeAggregate(n % Lattice(job.caps), job.caps);
        entries := entries + [(Point(n / Lattice(job.caps), agg), counts[n])];
      }
    }
    forall q: Point ensures multiset(Expand(entries))[q] == multiset(points)[q] {
      if q in points { KeyRoundTrip(job, q); }
    }
    assert multiset(Expand(entries)) == multiset(points);
  }

  lemma {:induction false} ExpandOnes(points: seq<Point>, entries: seq<Entry>)
    requires |entries| == |points| && forall i :: 0 <= i < |points| ==> entries[i] == (points[i], 1)
    ensures Expand(entries) == points
  {
    if points != [] {
      ExpandOnes(points[1..], entries[1..]);
      assert Repeat(points[0], 1) == [points[0]];
    }
  }

  lemma NormalKeyed(job: Job, points: seq<Point>)
    requires forall p :: p in points ==> UnderCaps(p.agg, job.caps)
    ensures forall p :: p in FilterMap(points, p => Normal(job, p)) ==> Keyed(job, p)
    ensures forall p :: p in FilterMap(points, p => Light(job, p)) ==> UnderCaps(p.agg, job.caps)
  {
    forall q | q in FilterMap(points, p => Normal(job, p)) ensures Keyed(job, q) {
      FilterMapMember(points, p => Normal(job, p), q);
    }
    forall q | q in FilterMap(points, p => Light(job, p)) ensures UnderCaps(q.agg, job.caps) {
      FilterMapMember(points, p => Light(job, p), q);
    }
  }

  /** Every point once. */
  function Ones(points: seq<Point>): (entries: seq<Entry>)
    ensures |entries| == |points| && forall i :: 0 <= i < |points| ==> entries[i] == (points[i], 1)
  {
    seq(|points|, i requires 0 <= i < |points| => (points[i], 1))
  }

  lemma OnesOk(job: Job, points: seq<Point>)
    requires forall p :: p in points ==> UnderCaps(p.agg, job.caps)
    ensures EntriesOk(job, Ones(points)) && Expand(Ones(points)) == points
  {
    ExpandOnes(points, Ones(points));
    forall e | e in Ones(points) ensures UnderCaps(e.0.agg, job.caps) {
      var i :| 0 <= i < |points| && Ones(points)[i] == e;
      assert points[i] in points;
    }
  }

  /** Collapse a half onto distinct keys; too large a key space is left as it is. */
  method CollapseHalf(job: Job, points: seq<Point>) returns (entries: seq<Entry>)
    requires forall p :: p in points ==> UnderCaps(p.agg, job.caps)
    ensures EntriesOk(job, entries) && Interchangeable(job, points, Expand(entries))
  {
    NormalInterchangeable(job, points);
    NormalKeyed(job, points);
    if |job.caps| == 0 || Lattice(job.caps) * WeightKeys(job) > COLLAPSE_LIMIT {
      var kept := FilterMap(points, p => Light(job, p));
      entries := Ones(kept);
      OnesOk(job, kept);
    } else {
      var kept := FilterMap(points, p => Normal(job, p));
      var counts := BinCount(job, kept);
      entries := ReadBins(job, counts, kept);
      SameMultiset(job, kept, Expand(entries));
      InterchangeableTrans(job, points, kept, Expand(entries));
    }
  }

  // ------------------------------------------------------------------
  // What a left key demands of the right half
  // ------------------------------------------------------------------

  /** The threshold vector: what the right half must supply. */
  function Shortfall(job: Job, l: Vec): (t: Vec)
    requires |l| == |job.needed|
    ensures |t| == |l|
  {
    seq(|l|, k requires 0 <= k < |l| =>
      match job.aggregation
      case Sum => if job.needed[k] >= l[k] then job.needed[k] - l[k] else 0
      case Min => job.needed[k]
      case Max => if l[k] >= job.needed[k] then 0 else job.needed[k])
  }

  /** Left keys that can be completed at all. */
  predicate KeepLeft(job: Job, l: Point) {
    && Within(l.weight, job.weightMax)
    && (job.aggregation.Min? ==> Dominates(l.agg, job.needed))
  }

  /** Heaviest right key a left key leaves room for; `heaviest` bounds every right weight. */
  function Limit(job: Job, l: Point, heaviest: nat): int {
    match job.weightMax case None => heaviest case Some(w) => w - l.weight
  }

  /** A kept left key meets exactly the right keys that are light enough and
      cover its threshold; a dropped one meets none. */
  lemma ThresholdIsExact(job: Job, l: Point, r: Point, heaviest: nat)
    requires JobOk(job) && UnderCaps(l.agg, job.caps) && UnderCaps(r.agg, job.caps) && r.weight <= heaviest
    ensures !KeepLeft(job, l) ==> !Meets(job, l, r)
    ensures KeepLeft(job, l) ==>
      (Meets(job, l, r) <==> r.weight <= Limit(job, l, heaviest) && Dominates(r.agg, Shortfall(job, l.agg)))
  {
    var t := Shortfall(job, l.agg);
    if KeepLeft(job, l) {
      assert forall k :: 0 <= k < |job.caps| ==>
        (Combine(job.aggregation, l.agg[k], r.agg[k], job.caps[k]) >= job.needed[k] <==> r.agg[k] >= t[k]);
    } else if job.aggregation.Min? && !Dominates(l.agg, job.needed) {
      var k :| 0 <= k < |job.caps| && l.agg[k] < job.needed[k];
      assert Combine(job.aggregation, l.agg[k], r.agg[k], job.caps[k]) < job.needed[k];
    }
  }

  // ------------------------------------------------------------------
  // Sorting, prefix counts and binary search
  // ------------------------------------------------------------------

  predicate Sorted(entries: seq<Entry>) {
    forall i, j :: 0 <= i < j < |entries| ==> entries[i].0.weight <= entries[j].0.weight
  }

  /** Insert after every entry that is not heavier. */
  function InsertByWeight(entries: seq<Entry>, e: Entry): (r: seq<Entry>)
    ensures multiset(r) == multiset(entries) + multiset{e}
  {
    if entries == [] then [e]
    else
      var n := |entries| - 1;
      assert entries == entries[..n] + [entries[n]];
      if entries[n].0.weight <= e.0.weight then entries + [e]
      else InsertByWeight(entries[..n], e) + [entries[n]]
  }

  predicate NoneOver(entries: seq<Entry>, limit: nat) {
    forall i :: 0 <= i < |entries| ==> entries[i].0.weight <= limit
  }

  lemma {:induction false} InsertNoneOver(entries: seq<Entry>, e: Entry, limit: nat)
    requires NoneOver(entries, limit) && e.0.weight <= limit
    ensures NoneOver(InsertByWeight(entries, e), limit)
  {
    if entries != [] { InsertNoneOver(entries[..|entries|-1], e, limit); }
  }

  lemma {:induction false} InsertSorted(entries: seq<Entry>, e: Entry)
    requires Sorted(entries)
    ensures Sorted(InsertByWeight(entries, e))
  {
    if entries != [] {
      var n := |entries| - 1;
      assert NoneOver(entries[..n], entries[n].0.weight);
      if entries[n].0.weight > e.0.weight {
        InsertSorted(entries[..n], e);
        InsertNoneOver(entries[..n], e, entries[n].0.weight);
      }
    }
  }

  /** Stable sort by weight. */
  method SortByWeight(entries: seq<Entry>) returns (r: seq<Entry>)
    ensures Sorted(r) && multiset(r) == multiset(entries)
  {
    r := [];
    for i := 0 to |entries|
      invariant Sorted(r) && multiset(r) == multiset(entries[..i])
    {
      InsertSorted(r, entries[i]);
      r := InsertByWeight(r, entries[i]);
      assert entries[..i+1] == entries[..i] + [entries[i]];
    }
    assert entries[..|entries|] == entries;
  }

  /** Mass of the entries covering a threshold. */
  ghost function Covering(entries: seq<Entry>, thr: Vec): nat {
    SumOver(entries, (e: Entry) => if Dominates(e.0.agg, thr) then e.1 else 0)
  }

  lemma CoveringSnoc(entries: seq<Entry>, i: nat, thr: Vec)
    requires i < |entries|
    ensures Covering(entries[..i+1], thr) == Covering(entries[..i], thr) + if Dominates(entries[i].0.agg, thr) then entries[i].1 else 0
  {
    assert entries[..i+1] == entries[..i] + [entries[i]];
    SumOverAppend(entries[..i], [entries[i]], (e: Entry) => if Dominates(e.0.agg, thr) then e.1 else 0);
    var none: seq<Entry> := [];
    assert [entries[i]][1..] == none;
  }

  /** prefix[i] is the covering mass of the first i entries. */
  method PrefixCounts(entries: seq<Entry>, thr: Vec) returns (prefix: seq<nat>)
    ensures |prefix| == |entries| + 1
    ensures forall i :: 0 <= i <= |entries| ==> prefix[i] == Covering(entries[..i], thr)
  {
    prefix := [0];
    for i := 0 to |entries|
      invariant |prefix| == i + 1
      invariant forall j :: 0 <= j <= i ==> prefix[j] == Covering(entries[..j], thr)
    {
      CoveringSnoc(entries, i, thr);
      prefix := prefix + [prefix[i] + if Dominates(entries[i].0.agg, thr) then entries[i].1 else 0];
    }
  }

  /** First position whose weight exceeds the limit. */
  method SearchRight(entries: seq<Entry>, limit: int) returns (pos: nat)
    requires Sorted(entries)
    ensures pos <= |entries|
    ensures forall i :: 0 <= i < pos ==> entries[i].0.weight <= limit
    ensures forall i :: pos <= i < |entries| ==> entries[i].0.weight > limit
  {
    var lo, hi := 0, |entries|;
    while lo < hi
      invariant 0 <= lo <= hi <= |entries|
      invariant forall i :: 0 <= i < lo ==> entries[i].0.weight <= limit
      invariant forall i :: hi <= i < |entries| ==> entries[i].0.weight > limit
    {
      var mid := (lo + hi) / 2;
      if entries[mid].0.weight <= limit { lo := mid + 1; } else { hi := mid; }
    }
    pos := lo;
  }

  /** Mass of the right entries that meet a left key. */
  ghost function Answer(job: Job, right: seq<Entry>, l: Point): nat {
    SumOver(right, (e: Entry) => if Meets(job, l, e.0) then e.1 else 0)
  }

  ghost predicate NoHeavier(right: seq<Entry>, heaviest: nat) {
    forall e :: e in right ==> e.0.weight <= heaviest
  }

  /** What a kept key finds in the right half is what the prefix up to the search
      position holds of it. */
  lemma KeptAnswers(job: Job, right: seq<Entry>, l: Point, limit: int, thr: Vec, pos: nat, meets: Entry -> nat)
    requires pos <= |right| && |thr| == |job.caps| && EntriesOk(job, right)
    requires forall e :: meets(e) == if Meets(job, l, e.0) then e.1 else 0
    requires forall e :: e in right ==> (Meets(job, l, e.0) <==> e.0.weight <= limit && Dominates(e.0.agg, thr))
    requires forall i :: 0 <= i < pos ==> right[i].0.weight <= limit
    requires forall i :: pos <= i < |right| ==> right[i].0.weight > limit
    ensures SumOver(right, meets) == Covering(right[..pos], thr)
  {
    hide Meets, EntriesOk, Dominates, SumOver;
    assert right == right[..pos] + right[pos..];
    SumOverAppend(right[..pos], right[pos..], meets);
    forall i | 0 <= i < |right|
      ensures meets(right[i]) == if i < pos && Dominates(right[i].0.agg, thr) then right[i].1 else 0
    {
      assert right[i] in right;
    }
    LightCovers(right[..pos], thr, meets);
    ZeroSum(right[pos..], meets);
  }

  lemma LightCovers(light: seq<Entry>, thr: Vec, meets: Entry -> nat)
    requires forall i :: 0 <= i < |light| ==> meets(light[i]) == if Dominates(light[i].0.agg, thr) then light[i].1 else 0
    ensures SumOver(light, meets) == Covering(light, thr)
  {
    hide Dominates, SumOver;
    SumOverCongruent(light, meets, (e: Entry) => if Dominates(e.0.agg, thr) then e.1 else 0);
  }

  /** The prefix count at the search position is the answer of a kept key. */
  lemma PrefixAnswers(job: Job, right: seq<Entry>, l: Point, heaviest: nat, pos: nat)
    requires JobOk(job) && EntriesOk(job, right) && UnderCaps(l.agg, job.caps) && NoHeavier(right, heaviest)
    requires pos <= |right|
    requires forall i :: 0 <= i < pos ==> right[i].0.weight <= Limit(job, l, heaviest)
    requires forall i :: pos <= i < |right| ==> right[i].0.weight > Limit(job, l, heaviest)
    ensures KeepLeft(job, l) ==> Answer(job, right, l) == Covering(right[..pos], Shortfall(job, l.agg))
    ensures !KeepLeft(job, l) ==> Answer(job, right, l) == 0
  {
    var meets := (e: Entry) => if Meets(job, l, e.0) then e.1 else 0;
    forall e | e in right
      ensures !KeepLeft(job, l) ==> !Meets(job, l, e.0)
      ensures KeepLeft(job, l) ==>
        (Meets(job, l, e.0) <==> e.0.weight <= Limit(job, l, heaviest) && Dominates(e.0.agg, Shortfall(job, l.agg)))
    {
      ThresholdIsExact(job, l, e.0, heaviest);
    }
    assert Answer(job, right, l) == SumOver(right, meets);
    hide Meets, KeepLeft, Limit, EntriesOk, NoHeavier, UnderCaps, Dominates;
    if KeepLeft(job, l) {
      KeptAnswers(job, right, l, Limit(job, l, heaviest), Shortfall(job, l.agg), pos, meets);
    } else {
      ZeroSum(right, meets);
    }
  }
}
