/** When a set of paths cannot be rebuilt: the list marker over something that is
    not a dictionary, alone in a dictionary that the collapse visits. */
module Markers {
  import opened Counting
  import opened Documents
  import opened Flattening
  import opened Unflattening

  // ------------------------------------------------------------------
  // A path as the names it passes through
  // ------------------------------------------------------------------

  /** One entry as a write: the names from the root down, a list step spelled out as
      the marker and the tag.  A non-dictionary found at a stop ends the walk. */
  datatype Write = Write(names: seq<string>, stops: seq<bool>, value: Doc)

  function Names(path: seq<Token>): seq<string> {
    if path == [] then []
    else
      match path[0]
      case Key(k) => [k] + Names(path[1..])
      case Slot(l) => [LIST, l] + Names(path[1..])
  }

  function Stops(path: seq<Token>): (stops: seq<bool>)
    ensures |stops| == |Names(path)| && (stops != [] ==> !stops[|stops|-1])
    ensures path != [] ==> stops != []
  {
    if path == [] then []
    else
      match path[0]
      case Key(k) => [false] + Stops(path[1..])
      case Slot(l) => [true, false] + Stops(path[1..])
  }

  function WriteOf(f: Field): Write { Write(Names(Tokenize(f.key)), Stops(Tokenize(f.key)), f.value) }

  function WritesOf(flat: Dict): (ws: seq<Write>)
    ensures |ws| == |flat| && forall k :: 0 <= k < |ws| ==> ws[k] == WriteOf(flat[k])
  {
    seq(|flat|, k requires 0 <= k < |flat| => WriteOf(flat[k]))
  }

  predicate WriteOk(w: Write) {
    |w.names| == |w.stops| && (w.stops != [] ==> !w.stops[|w.stops|-1]) && IsEmptyOrLeaf(w.value)
  }

  /** What a dictionary holds under a name, as the dictionary to go on in. */
  function Below(d: Dict, name: string): Dict {
    if Has(d, name) && Lookup(d, name).Obj? then Lookup(d, name).fields else []
  }

  function Put(d: Dict, names: seq<string>, stops: seq<bool>, value: Doc): Dict
    requires |names| == |stops|
    decreases |names|
  {
    if names == [] then d
    else if stops[0] && Has(d, names[0]) && !Lookup(d, names[0]).Obj? then d
    else if |names| == 1 then if Has(d, names[0]) && Lookup(d, names[0]).Obj? then d else Assign(d, names[0], value)
    else Assign(d, names[0], Obj(Put(Below(d, names[0]), names[1..], stops[1..], value)))
  }

  lemma PutSlot(d: Dict, l: string, names: seq<string>, stops: seq<bool>, value: Doc)
    requires |names| == |stops|
    ensures Put(d, [LIST, l] + names, [true, false] + stops, value) ==
      if Has(d, LIST) && !Lookup(d, LIST).Obj? then d
      else Assign(d, LIST, Obj(Put(Below(d, LIST), [l] + names, [false] + stops, value)))
  {
    assert ([LIST, l] + names)[1..] == [l] + names && ([true, false] + stops)[1..] == [false] + stops;
  }

  lemma {:induction false} InsertIsPut(d: Dict, path: seq<Token>, value: Doc)
    ensures Insert(d, path, value) == Put(d, Names(path), Stops(path), value)
    decreases |path|, 1
  {
    if path != [] && path[0].Slot? {
      InsertAtIsPut(Below(d, LIST), path[0].tag, path[1..], value);
      PutSlot(d, path[0].tag, Names(path[1..]), Stops(path[1..]), value);
    } else if path != [] {
      InsertAtIsPut(d, path[0].name, path[1..], value);
    }
    hide Put, InsertAt, Assign;
  }

  lemma {:induction false} InsertAtIsPut(d: Dict, name: string, rest: seq<Token>, value: Doc)
    ensures InsertAt(d, name, rest, value) == Put(d, [name] + Names(rest), [false] + Stops(rest), value)
    decreases |rest|, 2
  {
    var names, stops := [name] + Names(rest), [false] + Stops(rest);
    assert names[1..] == Names(rest) && stops[1..] == Stops(rest);
    if rest != [] { InsertIsPut(Below(d, name), rest, value); }
  }

  function Build(ws: seq<Write>): Dict
    requires forall k :: 0 <= k < |ws| ==> WriteOk(ws[k])
  {
    if ws == [] then []
    else
      var w := ws[|ws|-1];
      assert WriteOk(w);
      Put(Build(ws[..|ws|-1]), w.names, w.stops, w.value)
  }

  ghost predicate Writable(flat: Dict) {
    forall k :: 0 <= k < |flat| ==> IsEmptyOrLeaf(flat[k].value)
  }

  lemma {:induction false} InsertAllIsBuild(flat: Dict)
    requires Writable(flat)
    ensures InsertAll([], flat) == Build(WritesOf(flat))
  {
    if flat != [] {
      var n := |flat| - 1;
      InsertAllIsBuild(flat[..n]);
      assert WritesOf(flat)[..n] == WritesOf(flat[..n]);
      InsertIsPut(InsertAll([], flat[..n]), Tokenize(flat[n].key), flat[n].value);
    }
  }

  // ------------------------------------------------------------------
  // What is at a place, read off the writes
  // ------------------------------------------------------------------

  /** The write walks into a non-dictionary at one of its stops. */
  ghost predicate Dropped(ws: seq<Write>, w: Write)
    decreases |ws|, 3
  {
    exists m | 0 <= m < |w.names| && m < |w.stops| :: w.stops[m] && ScalarAt(ws, w.names[..m+1])
  }

  ghost predicate Kept(ws: seq<Write>, i: nat)
    requires i < |ws|
    decreases |ws|, 0
  {
    !Dropped(ws[..i], ws[i])
  }

  /** A dictionary: some write that is kept goes below the place or writes one there. */
  ghost predicate DictAt(ws: seq<Write>, place: seq<string>)
    decreases |ws|, 1
  {
    exists i | 0 <= i < |ws| :: Kept(ws, i) && (place < ws[i].names || (place == ws[i].names && ws[i].value.Obj?))
  }

  /** Anything else: some write that is kept ends there, and children win. */
  ghost predicate ScalarAt(ws: seq<Write>, place: seq<string>)
    decreases |ws|, 2
  {
    !DictAt(ws, place) && exists i | 0 <= i < |ws| :: Kept(ws, i) && place == ws[i].names
  }

  // ------------------------------------------------------------------
  // The tree holds what the writes say
  // ------------------------------------------------------------------

  /** What a document holds at a place. */
  function Find(d: Doc, place: seq<string>): Option<Doc>
    decreases |place|
  {
    if place == [] then Some(d)
    else if d.Obj? && Has(d.fields, place[0]) then Find(Lookup(d.fields, place[0]), place[1..])
    else None
  }

  predicate DictIn(d: Dict, place: seq<string>) { Find(Obj(d), place).Some? && Find(Obj(d), place).value.Obj? }

  predicate ScalarIn(d: Dict, place: seq<string>) { Find(Obj(d), place).Some? && !Find(Obj(d), place).value.Obj? }

  predicate Stopped(d: Dict, names: seq<string>, stops: seq<bool>)
    requires |names| == |stops|
    decreases |names|
  {
    names != [] && Has(d, names[0])
    && if Lookup(d, names[0]).Obj? then Stopped(Lookup(d, names[0]).fields, names[1..], stops[1..]) else stops[0]
  }

  lemma FindOne(d: Dict, place: seq<string>)
    requires |place| == 1
    ensures Find(Obj(d), place) == if Has(d, place[0]) then Some(Lookup(d, place[0])) else None
  {
    assert place[1..] == [];
  }

  lemma FindBelow(d: Dict, place: seq<string>)
    requires |place| > 1
    ensures Find(Obj(d), place) == Find(Obj(Below(d, place[0])), place[1..])
  {
  }

  lemma {:induction false} StoppedAtStop(d: Dict, names: seq<string>, stops: seq<bool>)
    requires |names| == |stops| && (stops != [] ==> !stops[|stops|-1])
    ensures Stopped(d, names, stops) <==> exists m | 0 <= m < |names| :: stops[m] && ScalarIn(d, names[..m+1])
    decreases |names|
  {
    if names != [] {
      var c := Below(d, names[0]);
      StoppedAtStop(c, names[1..], stops[1..]);
      forall m | 1 <= m < |names| ensures ScalarIn(d, names[..m+1]) == ScalarIn(c, names[1..][..m]) {
        assert names[..m+1][1..] == names[1..][..m];
        FindBelow(d, names[..m+1]);
      }
      FindOne(d, names[..1]);
      if Stopped(c, names[1..], stops[1..]) {
        var m :| 0 <= m < |names| - 1 && stops[1..][m] && ScalarIn(c, names[1..][..m+1]);
        assert stops[m+1] && ScalarIn(d, names[..m+2]);
      }
      if m :| 0 <= m < |names| && stops[m] && ScalarIn(d, names[..m+1]) {
        if m > 0 { assert stops[1..][m-1] && ScalarIn(c, names[1..][..m]); }
      }
    }
  }

  lemma AssignSame(d: Dict, name: string)
    requires Has(d, name)
    ensures Assign(d, name, Lookup(d, name)) == d
  {
    assert Field(name, Lookup(d, name)) == d[At(d, name)];
  }

  lemma {:induction false} StoppedChangesNothing(d: Dict, names: seq<string>, stops: seq<bool>, value: Doc)
    requires |names| == |stops| && (stops != [] ==> !stops[|stops|-1]) && Stopped(d, names, stops)
    ensures Put(d, names, stops, value) == d
    decreases |names|
  {
    if Lookup(d, names[0]).Obj? {
      StoppedChangesNothing(Lookup(d, names[0]).fields, names[1..], stops[1..], value);
      AssignSame(d, names[0]);
    }
  }

  lemma NothingInside(v: Doc, place: seq<string>)
    requires IsEmptyOrLeaf(v) && place != []
    ensures Find(v, place) == None
  {
  }

  lemma PutElsewhere(d: Dict, names: seq<string>, stops: seq<bool>, value: Doc, place: seq<string>)
    requires |names| == |stops| && place != [] && (names == [] || place[0] != names[0])
    ensures Find(Obj(Put(d, names, stops, value)), place) == Find(Obj(d), place)
  {
    if names != [] {
      AssignOther(d, names[0], value, place[0]);
      AssignOther(d, names[0], Obj(Put(Below(d, names[0]), names[1..], stops[1..], value)), place[0]);
    }
  }

  /** The last name: a dictionary already there stays, anything else gives way. */
  lemma PutLast(d: Dict, name: string, stops: seq<bool>, value: Doc, place: seq<string>)
    requires |stops| == 1 && !stops[0] && IsEmptyOrLeaf(value) && place != [] && place[0] == name
    ensures Find(Obj(Put(d, [name], stops, value)), place) ==
      if DictIn(d, [name]) then Find(Obj(d), place) else if |place| == 1 then Some(value) else None
    ensures !DictIn(d, [name]) && |place| > 1 ==> Find(Obj(d), place) == None
  {
    FindOne(d, [name]);
    if |place| == 1 {
      FindOne(d, place);
      FindOne(Put(d, [name], stops, value), place);
    } else if !DictIn(d, [name]) {
      NothingInside(value, place[1..]);
    }
  }

  /** A name on the way leads on into the dictionary below it. */
  lemma PutOn(d: Dict, names: seq<string>, stops: seq<bool>, value: Doc, place: seq<string>)
    requires |names| == |stops| > 1 && !Stopped(d, names, stops) && place != [] && place[0] == names[0]
    ensures Find(Obj(Put(d, names, stops, value)), place)
         == Find(Obj(Put(Below(d, names[0]), names[1..], stops[1..], value)), place[1..])
    ensures |place| > 1 ==> Find(Obj(d), place) == Find(Obj(Below(d, names[0])), place[1..])
    ensures !Stopped(Below(d, names[0]), names[1..], stops[1..])
  {
  }

  /** One write that is not stopped, seen at one place. */
  lemma {:induction false} PutFinds(d: Dict, names: seq<string>, stops: seq<bool>, value: Doc, place: seq<string>)
    requires |names| == |stops| && (stops != [] ==> !stops[|stops|-1]) && !Stopped(d, names, stops)
    requires IsEmptyOrLeaf(value) && place != []
    ensures DictIn(Put(d, names, stops, value), place)
        <==> DictIn(d, place) || place < names || (place == names && value.Obj?)
    ensures ScalarIn(Put(d, names, stops, value), place)
        <==> if place <= names then place == names && !value.Obj? && !DictIn(d, place) else ScalarIn(d, place)
    decreases |names|
  {
    hide Put, Stopped, Below, Find;
    if names == [] || place[0] != names[0] {
      PutElsewhere(d, names, stops, value, place);
      assert !(place <= names);
    } else if |names| == 1 {
      assert names == [names[0]];
      PutLast(d, names[0], stops, value, place);
      assert |place| == 1 ==> place == names;
    } else {
      PutOn(d, names, stops, value, place);
      var c := Below(d, names[0]);
      assert place == [place[0]] + place[1..] && names == [names[0]] + names[1..];
      if |place| == 1 {
        FindHere(Put(c, names[1..], stops[1..], value), place[1..]);
      } else {
        PutFinds(c, names[1..], stops[1..], value, place[1..]);
        Prefixes(place, names);
      }
    }
  }

  lemma FindHere(d: Dict, place: seq<string>)
    requires place == []
    ensures Find(Obj(d), place) == Some(Obj(d))
  {
  }

  lemma Prefixes(place: seq<string>, names: seq<string>)
    requires place != [] && names != [] && place[0] == names[0]
    ensures place <= names <==> place[1..] <= names[1..]
    ensures place == names <==> place[1..] == names[1..]
  {
    assert place == [place[0]] + place[1..] && names == [names[0]] + names[1..];
  }

  /** One more write, seen at one place. */
  lemma OneMoreWrite(ws: seq<Write>, place: seq<string>)
    requires ws != []
    ensures var before, w := ws[..|ws|-1], ws[|ws|-1];
      var below := place < w.names || (place == w.names && w.value.Obj?);
      && (DictAt(ws, place) <==> DictAt(before, place) || (!Dropped(before, w) && below))
      && (ScalarAt(ws, place) <==>
          !DictAt(ws, place) && (ScalarAt(before, place) || (!Dropped(before, w) && place == w.names)))
  {
    var n := |ws| - 1;
    var before := ws[..n];
    assert forall i :: 0 <= i < n ==> before[..i] == ws[..i];
    assert forall i :: 0 <= i < n ==> Kept(before, i) == Kept(ws, i);
    assert Kept(ws, n) == !Dropped(before, ws[n]);
    hide Dropped, Kept;
  }

  /** What stops a write is what the tree holds. */
  lemma DroppedIsStopped(ws: seq<Write>, d: Dict, w: Write)
    requires WriteOk(w) && forall place :: place != [] ==> ScalarAt(ws, place) == ScalarIn(d, place)
    ensures Dropped(ws, w) == Stopped(d, w.names, w.stops)
  {
    StoppedAtStop(d, w.names, w.stops);
    hide ScalarAt, ScalarIn, Stopped;
    if m :| 0 <= m < |w.names| && w.stops[m] && ScalarIn(d, w.names[..m+1]) {
      assert ScalarAt(ws, w.names[..m+1]);
    }
  }

  lemma EmptyBuild(place: seq<string>)
    requires place != []
    ensures !DictAt([], place) && !ScalarAt([], place) && !DictIn([], place) && !ScalarIn([], place)
  {
  }

  /** The tree built from the writes holds exactly what the writes say. */
  lemma {:induction false} BuildHolds(ws: seq<Write>)
    requires forall k :: 0 <= k < |ws| ==> WriteOk(ws[k])
    ensures forall place :: place != [] ==>
      DictAt(ws, place) == DictIn(Build(ws), place) && ScalarAt(ws, place) == ScalarIn(Build(ws), place)
  {
    if ws == [] {
      forall place: seq<string> | place != []
        ensures DictAt(ws, place) == DictIn(Build(ws), place) && ScalarAt(ws, place) == ScalarIn(Build(ws), place)
      {
        EmptyBuild(place);
      }
    } else {
      var n := |ws| - 1;
      BuildHolds(ws[..n]);
      forall place: seq<string> | place != []
        ensures DictAt(ws, place) == DictIn(Build(ws), place) && ScalarAt(ws, place) == ScalarIn(Build(ws), place)
      {
        WriteHolds(ws[..n], ws[n], Build(ws[..n]), place);
        assert ws == ws[..n] + [ws[n]];
      }
    }
  }

  lemma WriteHolds(before: seq<Write>, w: Write, d: Dict, place: seq<string>)
    requires WriteOk(w) && place != []
    requires forall r :: r != [] ==> DictAt(before, r) == DictIn(d, r) && ScalarAt(before, r) == ScalarIn(d, r)
    ensures DictAt(before + [w], place) == DictIn(Put(d, w.names, w.stops, w.value), place)
    ensures ScalarAt(before + [w], place) == ScalarIn(Put(d, w.names, w.stops, w.value), place)
  {
    var ws := before + [w];
    assert ws[..|ws|-1] == before;
    OneMoreWrite(ws, place);
    DroppedIsStopped(before, d, w);
    if Stopped(d, w.names, w.stops) {
      StoppedChangesNothing(d, w.names, w.stops, w.value);
    } else {
      PutFinds(d, w.names, w.stops, w.value, place);
    }
    hide DictAt, ScalarAt, Dropped, Stopped, Put, Find;
  }

  // ------------------------------------------------------------------
  // Where the collapse looks
  // ------------------------------------------------------------------

  ghost predicate Tidy(d: Doc)
    decreases d
  {
    d.Obj? ==> DistinctKeys(d.fields) && forall k :: 0 <= k < |d.fields| ==> Tidy(d.fields[k].value)
  }

  lemma AssignTidy(d: Dict, name: string, value: Doc)
    requires Tidy(Obj(d)) && Tidy(value)
    ensures Tidy(Obj(Assign(d, name, value)))
  {
  }

  lemma BelowTidy(d: Dict, name: string)
    requires Tidy(Obj(d))
    ensures Tidy(Obj(Below(d, name)))
  {
    if Has(d, name) && Lookup(d, name).Obj? { assert Obj(Below(d, name)) == d[At(d, name)].value; }
  }

  lemma {:induction false} PutTidy(d: Dict, names: seq<string>, stops: seq<bool>, value: Doc)
    requires |names| == |stops| && Tidy(Obj(d)) && IsEmptyOrLeaf(value)
    ensures Tidy(Obj(Put(d, names, stops, value)))
    decreases |names|
  {
    if names != [] {
      assert Tidy(value);
      AssignTidy(d, names[0], value);
      BelowTidy(d, names[0]);
      PutTidy(Below(d, names[0]), names[1..], stops[1..], value);
      AssignTidy(d, names[0], Obj(Put(Below(d, names[0]), names[1..], stops[1..], value)));
    }
  }

  lemma {:induction false} BuildTidy(ws: seq<Write>)
    requires forall k :: 0 <= k < |ws| ==> WriteOk(ws[k])
    ensures Tidy(Obj(Build(ws)))
  {
    if ws != [] {
      var n := |ws| - 1;
      BuildTidy(ws[..n]);
      PutTidy(Build(ws[..n]), ws[n].names, ws[n].stops, ws[n].value);
    }
  }

  predicate MarkedDoc(d: Doc) { d.Obj? && IsMarked(d.fields) }

  /** The marker stands over something that is not a dictionary. */
  predicate Broken(d: Doc) { MarkedDoc(d) && !d.fields[0].value.Obj? }

  /** The collapse recurses to this place: through a marked dictionary it goes
      straight to the values of the list. */
  predicate Reaches(d: Doc, place: seq<string>)
    decreases |place|
  {
    if place == [] then true
    else if !d.Obj? then false
    else if IsMarked(d.fields) then
      var inner := d.fields[0].value;
      |place| >= 2 && place[0] == LIST && inner.Obj? && Has(inner.fields, place[1])
      && Reaches(Lookup(inner.fields, place[1]), place[2..])
    else Has(d.fields, place[0]) && Reaches(Lookup(d.fields, place[0]), place[1..])
  }

  lemma {:induction false} BrokenFails(d: Doc, place: seq<string>)
    requires Reaches(d, place) && Find(d, place).Some? && Broken(Find(d, place).value)
    ensures !Collapsible(d)
    decreases |place|
  {
    if place != [] {
      if IsMarked(d.fields) {
        var inner := d.fields[0].value;
        assert At(d.fields, LIST) == 0;
        assert place[1..][1..] == place[2..];
        BrokenFails(Lookup(inner.fields, place[1]), place[2..]);
      } else {
        BrokenFails(Lookup(d.fields, place[0]), place[1..]);
      }
    }
  }

  lemma FieldFound(d: Dict, k: nat)
    requires DistinctKeys(d) && k < |d|
    ensures Has(d, d[k].key) && Lookup(d, d[k].key) == d[k].value
  {
    AtIs(d, d[k].key, k);
  }

  lemma {:induction false} FailsBroken(d: Doc) returns (place: seq<string>)
    requires Tidy(d) && !Collapsible(d)
    ensures Reaches(d, place) && Find(d, place).Some? && Broken(Find(d, place).value)
    decreases d
  {
    if Broken(d) { return []; }
    if IsMarked(d.fields) {
      var inner := d.fields[0].value;
      assert inner < d && Tidy(inner);
      var k :| 0 <= k < |inner.fields| && !Collapsible(inner.fields[k].value);
      assert inner.fields[k].value < inner;
      var rest := FailsBroken(inner.fields[k].value);
      FieldFound(inner.fields, k);
      FieldFound(d.fields, 0);
      place := [LIST, inner.fields[k].key] + rest;
      assert place[2..] == rest && place[1..][1..] == rest;
    } else {
      var k :| 0 <= k < |d.fields| && !Collapsible(d.fields[k].value);
      var rest := FailsBroken(d.fields[k].value);
      FieldFound(d.fields, k);
      place := [d.fields[k].key] + rest;
      assert place[1..] == rest;
    }
  }

  // ------------------------------------------------------------------
  // The condition, read off the writes
  // ------------------------------------------------------------------

  ghost predicate Present(ws: seq<Write>, place: seq<string>) { DictAt(ws, place) || ScalarAt(ws, place) }

  /** The dictionary at a place holds the list marker and nothing else. */
  ghost predicate OnlyMarker(ws: seq<Write>, place: seq<string>) {
    Present(ws, place + [LIST]) && forall k :: k != LIST ==> !Present(ws, place + [k])
  }

  /** From a place the collapse goes on to `rest`: name by name, but through a
      dictionary that holds only the marker in one stride to the list's values. */
  ghost predicate Visits(ws: seq<Write>, place: seq<string>, rest: seq<string>)
    decreases |rest|
  {
    if rest == [] then true
    else if OnlyMarker(ws, place) then
      |rest| >= 2 && rest[0] == LIST && Visits(ws, place + rest[..2], rest[2..])
    else Visits(ws, place + rest[..1], rest[1..])
  }

  ghost predicate Holds(ws: seq<Write>, d: Dict) {
    forall place :: place != [] ==> DictAt(ws, place) == DictIn(d, place) && ScalarAt(ws, place) == ScalarIn(d, place)
  }

  lemma {:induction false} FindJoin(d: Doc, a: seq<string>, b: seq<string>)
    ensures Find(d, a + b) == if Find(d, a).Some? then Find(Find(d, a).value, b) else None
    decreases |a|
  {
    if a == [] {
      assert a + b == b;
    } else {
      assert (a + b)[1..] == a[1..] + b;
      if d.Obj? && Has(d.fields, a[0]) { FindJoin(Lookup(d.fields, a[0]), a[1..], b); }
    }
  }

  lemma PresentIsFound(ws: seq<Write>, root: Dict, place: seq<string>, d: Doc, name: string)
    requires Holds(ws, root) && Find(Obj(root), place) == Some(d)
    ensures Present(ws, place + [name]) <==> d.Obj? && Has(d.fields, name)
  {
    FindJoin(Obj(root), place, [name]);
    if d.Obj? { FindOne(d.fields, [name]); }
    hide DictAt, ScalarAt, Find;
  }

  lemma OtherKey(d: Dict) returns (k: string)
    requires DistinctKeys(d) && |d| > 1
    ensures k != LIST && Has(d, k)
  {
    FieldFound(d, 0);
    FieldFound(d, 1);
    k := if d[0].key == LIST then d[1].key else d[0].key;
  }

  lemma LoneKey(d: Dict)
    requires DistinctKeys(d) && Has(d, LIST) && forall k :: k != LIST ==> !Has(d, k)
    ensures IsMarked(d)
  {
    if |d| > 1 { var k := OtherKey(d); }
  }

  lemma OnlyMarkerIsMarked(ws: seq<Write>, root: Dict, place: seq<string>, d: Doc)
    requires Holds(ws, root) && Find(Obj(root), place) == Some(d) && Tidy(d)
    ensures OnlyMarker(ws, place) <==> MarkedDoc(d)
  {
    forall k ensures Present(ws, place + [k]) <==> d.Obj? && Has(d.fields, k) {
      PresentIsFound(ws, root, place, d, k);
    }
    hide Present, Holds, Find;
    if d.Obj? {
      if MarkedDoc(d) { assert At(d.fields, LIST) == 0; }
      if OnlyMarker(ws, place) { LoneKey(d.fields); }
    }
  }

  lemma {:induction false} FindTidy(d: Doc, place: seq<string>)
    requires Tidy(d) && Find(d, place).Some?
    ensures Tidy(Find(d, place).value)
    decreases |place|
  {
    if place != [] { FindTidy(Lookup(d.fields, place[0]), place[1..]); }
  }

  lemma {:induction false} VisitsReaches(ws: seq<Write>, root: Dict, place: seq<string>, d: Doc, rest: seq<string>)
    requires Holds(ws, root) && Find(Obj(root), place) == Some(d) && Tidy(d)
    ensures Visits(ws, place, rest) && Find(d, rest).Some? <==> Reaches(d, rest) && Find(d, rest).Some?
    decreases |rest|
  {
    OnlyMarkerIsMarked(ws, root, place, d);
    if rest != [] {
      var stride := if MarkedDoc(d) then 2 else 1;
      if |rest| >= stride {
        FindJoin(Obj(root), place, rest[..stride]);
        FindJoin(d, rest[..stride], rest[stride..]);
        assert rest == rest[..stride] + rest[stride..];
        if Find(d, rest[..stride]).Some? {
          var e := Find(d, rest[..stride]).value;
          FindTidy(d, rest[..stride]);
          VisitsReaches(ws, root, place + rest[..stride], e, rest[stride..]);
          Stride(d, rest, stride);
        }
      }
    }
  }

  /** One stride of the collapse. */
  lemma Stride(d: Doc, rest: seq<string>, stride: nat)
    requires stride == (if MarkedDoc(d) then 2 else 1) && |rest| >= stride && Find(d, rest[..stride]).Some?
    ensures Reaches(d, rest) <==>
      Reaches(Find(d, rest[..stride]).value, rest[stride..]) && (MarkedDoc(d) ==> rest[0] == LIST)
  {
    if MarkedDoc(d) { TwoNames(d, rest); } else { OneName(d, rest); }
  }

  lemma OneName(d: Doc, rest: seq<string>)
    requires rest != [] && !MarkedDoc(d) && Find(d, rest[..1]).Some?
    ensures Reaches(d, rest) == Reaches(Find(d, rest[..1]).value, rest[1..])
  {
    FindOne(d.fields, rest[..1]);
    hide Find;
  }

  lemma TwoNames(d: Doc, rest: seq<string>)
    requires |rest| >= 2 && MarkedDoc(d) && Find(d, rest[..2]).Some?
    ensures Reaches(d, rest) == Reaches(Find(d, rest[..2]).value, rest[2..]) && rest[0] == LIST
  {
    var inner := d.fields[0].value;
    assert rest[..2][1..] == [rest[1]];
    assert Has(d.fields, rest[0]) && At(d.fields, LIST) == 0;
    assert Find(d, rest[..2]) == Find(inner, [rest[1]]);
    FindOne(inner.fields, [rest[1]]);
    hide Find, Tidy;
  }

  // ------------------------------------------------------------------
  // When unflatten fails
  // ------------------------------------------------------------------

  /** A non-dictionary under the marker, alone in a dictionary the collapse visits. */
  ghost predicate BrokenAt(ws: seq<Write>, place: seq<string>) {
    Visits(ws, [], place) && OnlyMarker(ws, place) && ScalarAt(ws, place + [LIST])
  }

  lemma BrokenAtIsBroken(ws: seq<Write>, root: Dict, place: seq<string>)
    requires Holds(ws, root) && Tidy(Obj(root))
    ensures BrokenAt(ws, place) <==>
      Reaches(Obj(root), place) && Find(Obj(root), place).Some? && Broken(Find(Obj(root), place).value)
  {
    var found := Find(Obj(root), place);
    VisitsReaches(ws, root, [], Obj(root), place);
    FindJoin(Obj(root), place, [LIST]);
    if found.Some? {
      FindTidy(Obj(root), place);
      OnlyMarkerIsMarked(ws, root, place, found.value);
      if found.value.Obj? { FindOne(found.value.fields, [LIST]); }
      if MarkedDoc(found.value) { assert At(found.value.fields, LIST) == 0; }
    }
    hide Visits, Reaches, Find, Tidy, DistinctKeys, DictAt, IsMarked;
  }

  /** EXACTLY WHEN: a flat dictionary fails to rebuild if and only if its writes
      leave a non-dictionary under the list marker as the only child of a
      dictionary that the collapse visits. */
  lemma UnflattenFailsIff(flat: Dict)
    requires Writable(flat)
    ensures Unflatten(flat) == None <==> exists place :: BrokenAt(WritesOf(flat), place)
  {
    var ws := WritesOf(flat);
    var root := Build(ws);
    InsertAllIsBuild(flat);
    BuildHolds(ws);
    BuildTidy(ws);
    if !Collapsible(Obj(root)) {
      var place := FailsBroken(Obj(root));
      BrokenAtIsBroken(ws, root, place);
    }
    if place :| BrokenAt(ws, place) {
      BrokenAtIsBroken(ws, root, place);
      BrokenFails(Obj(root), place);
    }
  }

  /** TOTALITY: a flat dictionary in which no path ends at the list marker rebuilds,
      however its paths conflict. */
  lemma UnflattenIsTotal(flat: Dict)
    requires Writable(flat)
    requires forall k :: 0 <= k < |flat| ==> var names := Names(Tokenize(flat[k].key)); names != [] ==> names[|names|-1] != LIST
    ensures Unflatten(flat).Some?
  {
    UnflattenFailsIff(flat);
    var ws := WritesOf(flat);
    forall place ensures !BrokenAt(ws, place) {
      var marker := place + [LIST];
      forall i | 0 <= i < |ws| ensures marker != ws[i].names {
        assert marker[|marker|-1] == LIST;
      }
    }
  }

  // ------------------------------------------------------------------
  // The marker as a last step, and no list under a scalar
  // ------------------------------------------------------------------

  predicate Unmarked(path: seq<Token>) {
    forall k :: 0 <= k < |path| ==> path[k] != Key(LIST) && path[k] != Slot(LIST)
  }

  /** The path names the list marker nowhere but in a last key. */
  predicate MarkerLast(path: seq<Token>) {
    Unmarked(path) || (path != [] && path[|path|-1] == Key(LIST) && Unmarked(path[..|path|-1]))
  }

  /** No list step goes through a marker that some path sets to a non-dictionary. */
  ghost predicate NoListUnderScalar(ws: seq<Write>) {
    forall i, j, m | 0 <= i < |ws| && 0 <= j < |ws| && 0 <= m < |ws[j].names| && m < |ws[j].stops| ::
      ws[j].stops[m] && ws[j].names[..m+1] == ws[i].names ==> ws[i].value.Obj?
  }

  /** A path sets a marker to a non-dictionary, nothing goes below the marker, and
      its dictionary gets no other key. */
  ghost predicate LoneMarker(ws: seq<Write>, i: nat) {
    i < |ws| && ws[i].names != [] && !ws[i].value.Obj?
    && var n := |ws[i].names| - 1;
      ws[i].names[n] == LIST
      && forall j :: 0 <= j < |ws| && ws[i].names[..n] < ws[j].names ==>
        ws[j].names == ws[i].names && !ws[j].value.Obj?
  }

  lemma AllKept(ws: seq<Write>, i: nat)
    requires NoListUnderScalar(ws) && i < |ws|
    ensures Kept(ws, i)
  {
    var before := ws[..i];
    forall m | 0 <= m < |ws[i].names| && m < |ws[i].stops| && ws[i].stops[m]
      ensures !ScalarAt(before, ws[i].names[..m+1])
    {
      forall j | 0 <= j < i && ws[i].names[..m+1] == before[j].names && Kept(before, j)
        ensures DictAt(before, ws[i].names[..m+1])
      {
        assert ws[j].value.Obj?;
      }
    }
  }

  /** Where every write is kept, the places are the paths themselves. */
  lemma PlacesArePaths(ws: seq<Write>, place: seq<string>)
    requires NoListUnderScalar(ws)
    ensures DictAt(ws, place) <==>
      exists i | 0 <= i < |ws| :: place < ws[i].names || (place == ws[i].names && ws[i].value.Obj?)
    ensures ScalarAt(ws, place) <==> !DictAt(ws, place) && exists i | 0 <= i < |ws| :: place == ws[i].names
  {
    forall i | 0 <= i < |ws| ensures Kept(ws, i) { AllKept(ws, i); }
    hide Kept, NoListUnderScalar;
  }

  lemma PresentIsPrefix(ws: seq<Write>, place: seq<string>)
    requires NoListUnderScalar(ws)
    ensures Present(ws, place) <==> exists i | 0 <= i < |ws| :: place <= ws[i].names
  {
    PlacesArePaths(ws, place);
    hide DictAt, ScalarAt, NoListUnderScalar;
    if i :| 0 <= i < |ws| && place <= ws[i].names { assert place < ws[i].names || place == ws[i].names; }
  }

  lemma VisitsKey(ws: seq<Write>, place: seq<string>, k: string, rest: seq<string>)
    requires k != LIST && Present(ws, place + [k])
    ensures Visits(ws, place, [k] + rest) == Visits(ws, place + [k], rest)
  {
    var names := [k] + rest;
    assert names[..1] == [k] && names[1..] == rest;
    hide Present;
  }

  lemma VisitsSlot(ws: seq<Write>, place: seq<string>, l: string, rest: seq<string>)
    requires l != LIST && Present(ws, place + [LIST, l])
    ensures Visits(ws, place, [LIST, l] + rest) == Visits(ws, place + [LIST, l], rest)
  {
    var names, marker := [LIST, l] + rest, place + [LIST];
    assert names[..2] == [LIST, l] && names[2..] == rest && names[..1] == [LIST] && names[1..] == [l] + rest;
    assert marker + [l] == place + [LIST, l];
    hide Present;
    if !OnlyMarker(ws, place) { VisitsKey(ws, marker, l, rest); }
  }

  lemma OnTheWay(ws: seq<Write>, place: seq<string>, step: seq<string>, rest: seq<string>)
    requires NoListUnderScalar(ws) && exists i | 0 <= i < |ws| :: place + (step + rest) <= ws[i].names
    ensures Present(ws, place + step) && exists i | 0 <= i < |ws| :: (place + step) + rest <= ws[i].names
  {
    PresentIsPrefix(ws, place + step);
    hide Present, NoListUnderScalar;
    assert place + (step + rest) == (place + step) + rest;
    var i :| 0 <= i < |ws| && place + (step + rest) <= ws[i].names;
    assert place + step <= ws[i].names;
  }

  /** The collapse visits every place on the way of an unmarked path. */
  lemma {:induction false} VisitsUnmarked(ws: seq<Write>, place: seq<string>, rest: seq<Token>)
    requires NoListUnderScalar(ws) && Unmarked(rest) && exists i | 0 <= i < |ws| :: place + Names(rest) <= ws[i].names
    ensures Visits(ws, place, Names(rest))
    decreases |rest|
  {
    if rest == [] { return; }
    hide Present, NoListUnderScalar, Visits;
    match rest[0] {
      case Key(k) =>
        OnTheWay(ws, place, [k], Names(rest[1..]));
        VisitsUnmarked(ws, place + [k], rest[1..]);
        VisitsKey(ws, place, k, Names(rest[1..]));
      case Slot(l) =>
        OnTheWay(ws, place, [LIST, l], Names(rest[1..]));
        VisitsUnmarked(ws, place + [LIST, l], rest[1..]);
        VisitsSlot(ws, place, l, Names(rest[1..]));
    }
  }

  lemma {:induction false} NamesSnoc(path: seq<Token>, t: Token)
    ensures Names(path + [t]) == Names(path) + Names([t])
  {
    if path == [] {
      assert path + [t] == [t];
    } else {
      assert (path + [t])[1..] == path[1..] + [t];
      NamesSnoc(path[1..], t);
    }
  }

  lemma NamesOne(t: Token)
    ensures Names([t]) == match t case Key(k) => [k] case Slot(l) => [LIST, l]
  {
    assert [t][1..] == [];
  }

  lemma MarkerIsLastKey(path: seq<Token>)
    requires MarkerLast(path) && Names(path) != [] && Names(path)[|Names(path)|-1] == LIST
    ensures path != [] && Unmarked(path[..|path|-1]) && Names(path[..|path|-1]) == Names(path)[..|Names(path)|-1]
  {
    var n := |path| - 1;
    assert path == path[..n] + [path[n]];
    NamesSnoc(path[..n], path[n]);
    NamesOne(path[n]);
  }

  lemma LoneIsOnly(ws: seq<Write>, i: nat, place: seq<string>)
    requires NoListUnderScalar(ws) && LoneMarker(ws, i) && ws[i].names == place + [LIST]
    ensures OnlyMarker(ws, place) && ScalarAt(ws, place + [LIST])
  {
    var n := |place|;
    assert ws[i].names[..n] == place;
    PlacesArePaths(ws, place + [LIST]);
    hide DictAt, ScalarAt, NoListUnderScalar;
    forall k | k != LIST ensures !Present(ws, place + [k]) {
      PresentIsPrefix(ws, place + [k]);
      hide Present;
      forall j | 0 <= j < |ws| ensures !(place + [k] <= ws[j].names) {
        assert (place + [k])[n] == k;
      }
    }
  }

  lemma LoneIsBroken(ws: seq<Write>, i: nat, path: seq<Token>)
    requires NoListUnderScalar(ws) && LoneMarker(ws, i) && MarkerLast(path) && Names(path) == ws[i].names
    ensures BrokenAt(ws, ws[i].names[..|ws[i].names|-1])
  {
    var place := ws[i].names[..|ws[i].names|-1];
    assert place + [LIST] == ws[i].names && [] + place == place;
    MarkerIsLastKey(path);
    LoneIsOnly(ws, i, place);
    hide Visits, OnlyMarker, ScalarAt, NoListUnderScalar, LoneMarker, MarkerLast;
    VisitsUnmarked(ws, [], path[..|path|-1]);
  }

  lemma OnlyChild(ws: seq<Write>, place: seq<string>, j: nat)
    requires NoListUnderScalar(ws) && OnlyMarker(ws, place) && ScalarAt(ws, place + [LIST]) && j < |ws| && place < ws[j].names
    ensures ws[j].names == place + [LIST] && !ws[j].value.Obj?
  {
    var marker, next := place + [LIST], place + [ws[j].names[|place|]];
    PresentIsPrefix(ws, next);
    PlacesArePaths(ws, marker);
    hide Present, DictAt, NoListUnderScalar;
    assert next <= ws[j].names;
    assert next == marker;
    assert marker < ws[j].names || marker == ws[j].names;
  }

  lemma BrokenIsLone(ws: seq<Write>, place: seq<string>) returns (i: nat)
    requires NoListUnderScalar(ws) && BrokenAt(ws, place)
    ensures LoneMarker(ws, i)
  {
    var marker := place + [LIST];
    PlacesArePaths(ws, marker);
    i :| 0 <= i < |ws| && marker == ws[i].names;
    assert marker[..|place|] == place;
    hide OnlyMarker, ScalarAt, NoListUnderScalar, Visits;
    OnlyChild(ws, place, i);
    forall j | 0 <= j < |ws| && place < ws[j].names ensures ws[j].names == marker && !ws[j].value.Obj? {
      OnlyChild(ws, place, j);
    }
  }

  /** Where the marker is only ever a last key and no list goes through a scalar, a
      flat dictionary fails exactly when some marker over a non-dictionary is the
      only key of its dictionary. */
  lemma LoneMarkerFails(flat: Dict)
    requires Writable(flat) && NoListUnderScalar(WritesOf(flat))
    requires forall k :: 0 <= k < |flat| ==> MarkerLast(Tokenize(flat[k].key))
    ensures Unflatten(flat) == None <==> exists i :: LoneMarker(WritesOf(flat), i)
  {
    var ws := WritesOf(flat);
    UnflattenFailsIff(flat);
    hide NoListUnderScalar, LoneMarker, BrokenAt, Unflatten;
    if place :| BrokenAt(ws, place) { var i := BrokenIsLone(ws, place); }
    if i: nat :| i < |ws| && LoneMarker(ws, i) { LoneIsBroken(ws, i, Tokenize(flat[i].key)); }
  }

  lemma OneWrite(w: Write, place: seq<string>)
    requires WriteOk(w) && w.names == place + [LIST]
    ensures NoListUnderScalar([w])
    ensures (exists i :: LoneMarker([w], i)) <==> !w.value.Obj?
  {
    var ws, n := [w], |w.names| - 1;
    assert w.names[n] == LIST && w.names[..n] == place;
    forall m | 0 <= m < |w.names| && m < |w.stops| && w.stops[m] ensures w.names[..m+1] != w.names {
      assert |w.names[..m+1]| == m + 1;
    }
    if !w.value.Obj? { assert LoneMarker(ws, 0); }
  }

  /** A path that ends at the marker, on its own: whatever its parent, it fails
      exactly on a value other than the empty dictionary. */
  lemma MarkerPathFails(key: string, parent: seq<Token>, v: Doc)
    requires Tokenize(key) == parent + [Key(LIST)] && Unmarked(parent) && IsEmptyOrLeaf(v)
    ensures Unflatten([Field(key, v)]) == None <==> !v.Obj?
  {
    var flat, path := [Field(key, v)], parent + [Key(LIST)];
    assert path[..|path|-1] == parent;
    NamesSnoc(parent, Key(LIST));
    NamesOne(Key(LIST));
    assert WritesOf(flat) == [WriteOf(flat[0])];
    hide Tokenize, Unflatten, NoListUnderScalar, LoneMarker, Names, Stops;
    OneWrite(WriteOf(flat[0]), Names(parent));
    LoneMarkerFails(flat);
  }
}
