/** Applying field changes to a document in place of rebuilding it: nothing else moves. */
module Deltas {
  import opened Counting
  import opened Documents
  import opened Flattening

  // ------------------------------------------------------------------
  // Reading an index
  // ------------------------------------------------------------------

  predicate Digit(c: char) { '0' <= c <= '9' }

  function DigitValue(c: char): nat
    requires Digit(c)
  {
    (c as int) - ('0' as int)
  }

  function ParseDigits(s: string): Option<nat> {
    if s == "" then None
    else if !Digit(s[|s|-1]) then None
    else if |s| == 1 then Some(DigitValue(s[0]))
    else
      match ParseDigits(s[..|s|-1])
      case None => None
      case Some(n) => Some(10 * n + DigitValue(s[|s|-1]))
  }

  /** A signed decimal integer. */
  function ParseInt(s: string): Option<int> {
    if s != "" && s[0] == '-' then
      match ParseDigits(s[1..])
      case None => None
      case Some(n) => var m: int := n; Some(-m)
    else
      match ParseDigits(s)
      case None => None
      case Some(n) => Some(n)
  }

  lemma {:induction false} ParseDecimal(n: nat)
    ensures Decimal(n) != "" && Digit(Decimal(n)[0]) && ParseDigits(Decimal(n)) == Some(n)
  {
    if n >= 10 {
      ParseDecimal(n / 10);
      LastDigit(Decimal(n / 10), n % 10);
    } else {
      LastDigit("", n);
      assert "" + [DIGITS[n]] == Decimal(n);
    }
  }

  lemma DigitChar(d: nat)
    requires d < 10
    ensures Digit(DIGITS[d]) && DigitValue(DIGITS[d]) == d
  {
  }

  /** Appending a digit appends its value. */
  lemma LastDigit(front: string, d: nat)
    requires d < 10 && (front != "" ==> ParseDigits(front).Some?)
    ensures Digit(DIGITS[d]) && DigitValue(DIGITS[d]) == d
    ensures ParseDigits(front + [DIGITS[d]]) == if front == "" then Some(d) else Some(10 * ParseDigits(front).value + d)
  {
    hide ParseDigits, Digit, DigitValue;
    DigitChar(d);
    AppendDigit(front, DIGITS[d]);
  }

  lemma AppendDigit(front: string, c: char)
    requires Digit(c) && (front != "" ==> ParseDigits(front).Some?)
    ensures ParseDigits(front + [c]) == if front == "" then Some(DigitValue(c)) else Some(10 * ParseDigits(front).value + DigitValue(c))
  {
    hide Digit, DigitValue;
    var s := front + [c];
    assert s[..|s|-1] == front && s[|s|-1] == c;
  }

  // ------------------------------------------------------------------
  // Writing at a path
  // ------------------------------------------------------------------

  /** The id of a list element, else its name. */
  function KeyValue(v: Doc): Option<Doc> {
    if !v.Obj? then None
    else if Has(v.fields, "id") && Truthy(Lookup(v.fields, "id")) then Some(Lookup(v.fields, "id"))
    else if Has(v.fields, "name") then Some(Lookup(v.fields, "name"))
    else None
  }

  /** First element known by this name, or the length. */
  function Known(items: seq<Doc>, name: string): (j: nat)
    ensures j <= |items|
    ensures j < |items| ==> KeyValue(items[j]) == Some(Leaf(Text(name)))
    ensures forall i :: 0 <= i < j ==> KeyValue(items[i]) != Some(Leaf(Text(name)))
  {
    if items == [] || KeyValue(items[0]) == Some(Leaf(Text(name))) then 0 else 1 + Known(items[1..], name)
  }

  /** The element a tag addresses: by name, else by position counted from either end. */
  function Addressed(items: seq<Doc>, name: string): (j: Option<nat>)
    ensures j.Some? ==> j.value < |items|
  {
    var j := Known(items, name);
    if j < |items| then Some(j)
    else
      match ParseInt(name)
      case None => None
      case Some(n) =>
        if 0 <= n < |items| then Some(n) else if -|items| <= n < 0 then Some(n + |items|) else None
  }

  /** WRITE at a path; None is the error of a path that does not lead anywhere. */
  function SetPath(d: Doc, path: seq<Token>, value: Doc): Option<Doc>
    decreases |path|
  {
    if path == [] then Some(d)
    else
      match path[0]
      case Slot(name) =>
        if !d.Arr? then None
        else
          (match Addressed(d.items, name)
           case None => None
           case Some(j) =>
             if |path| == 1 then Some(Arr(d.items[j := value]))
             else
               match SetPath(d.items[j], path[1..], value)
               case None => None
               case Some(child) => Some(Arr(d.items[j := child])))
      case Key(name) =>
        if !d.Obj? then None
        else if |path| == 1 then Some(Obj(Assign(d.fields, name, value)))
        else if !Has(d.fields, name) then None
        else
          match SetPath(Lookup(d.fields, name), path[1..], value)
          case None => None
          case Some(child) => Some(Obj(Assign(d.fields, name, child)))
  }

  // ------------------------------------------------------------------
  // Tags that lead back to their element
  // ------------------------------------------------------------------

  /** A list element without text to be known by has no truthy id or name at all. */
  predicate TextKeyed(v: Doc) {
    KeyValue(v).Some? && Truthy(KeyValue(v).value) ==> KeyValue(v).value.Leaf? && KeyValue(v).value.scalar.Text?
  }

  /** The id or name an element goes by is a scalar. */
  predicate LeafKeyed(v: Doc) { KeyValue(v).Some? && Truthy(KeyValue(v).value) ==> KeyValue(v).value.Leaf? }

  /** The tag written for an element leads back to it. */
  ghost predicate OwnTag(show: Doc -> string, items: seq<Doc>, j: nat)
    requires j < |items|
  {
    TagOf(show, items[j], j) != "" && Addressed(items, TagOf(show, items[j], j)) == Some(j)
  }

  /** Below an element, the path spares what the element goes by: it does not end in
      its id or name, and enters one only where the element goes by a scalar. */
  predicate Spared(v: Doc, rest: seq<Token>) {
    rest != [] && (rest[0] == Key("id") || rest[0] == Key("name")) ==> |rest| > 1 && LeafKeyed(v)
  }

  /** Every list step of the path leads back to the element it was written for. */
  ghost predicate Leads(show: Doc -> string, d: Doc, path: seq<Token>)
    decreases |path|, 1
  {
    path == [] ||
    match path[0]
    case Key(name) => d.Obj? && Has(d.fields, name) && Leads(show, Lookup(d.fields, name), path[1..])
    case Slot(_) => d.Arr? && exists j :: 0 <= j < |d.items| && LeadsAt(show, d.items, j, path)
  }

  ghost predicate LeadsAt(show: Doc -> string, items: seq<Doc>, j: nat, path: seq<Token>)
    requires j < |items| && path != []
    decreases |path|, 0
  {
    && path[0] == Slot(TagOf(show, items[j], j)) && OwnTag(show, items, j)
    && Spared(items[j], path[1..]) && Leads(show, items[j], path[1..])
  }

  // ------------------------------------------------------------------
  // Replacing one entry
  // ------------------------------------------------------------------

  function Replace(es: seq<Entry>, path: seq<Token>, value: Doc): (r: seq<Entry>)
    ensures |r| == |es|
    ensures forall k :: 0 <= k < |es| ==> r[k] == if es[k].path == path then Entry(path, value) else es[k]
  {
    seq(|es|, k requires 0 <= k < |es| => if es[k].path == path then Entry(path, value) else es[k])
  }

  lemma ReplaceUnder(t: Token, es: seq<Entry>, rest: seq<Token>, value: Doc)
    ensures Replace(Under(t, es), [t] + rest, value) == Under(t, Replace(es, rest, value))
  {
    forall k | 0 <= k < |es| ensures (([t] + es[k].path == [t] + rest) <==> es[k].path == rest) {
      assert ([t] + es[k].path)[1..] == es[k].path && ([t] + rest)[1..] == rest;
    }
  }

  lemma ReplaceElsewhere(es: seq<Entry>, path: seq<Token>, value: Doc)
    requires forall k :: 0 <= k < |es| ==> es[k].path != path
    ensures Replace(es, path, value) == es
  {
  }

  lemma ReplaceJoin(xs: seq<Entry>, ys: seq<Entry>, path: seq<Token>, value: Doc)
    ensures Replace(xs + ys, path, value) == Replace(xs, path, value) + Replace(ys, path, value)
  {
  }

  ghost predicate Holds(es: seq<Entry>, path: seq<Token>, value: Doc) { Entry(path, value) in es }

  /** Changing one field's value replaces its entry and leaves the others. */
  lemma {:induction false} FieldReplaced(show: Doc -> string, fields: Dict, j: nat, child: Doc, rest: seq<Token>, value: Doc)
    requires j < |fields| && DistinctKeys(fields)
    requires Entries(show, child) == Replace(Entries(show, fields[j].value), rest, value)
    ensures FieldEntries(show, fields[j := Field(fields[j].key, child)]) == Replace(FieldEntries(show, fields), [Key(fields[j].key)] + rest, value)
    decreases |fields|
  {
    var n := |fields| - 1;
    var path, changed := [Key(fields[j].key)] + rest, fields[j := Field(fields[j].key, child)];
    var front, last := FieldEntries(show, fields[..n]), Under(Key(fields[n].key), Entries(show, fields[n].value));
    ReplaceJoin(front, last, path, value);
    if j == n {
      assert changed[..n] == fields[..n];
      NoFieldPath(show, fields[..n], path);
      ReplaceElsewhere(front, path, value);
      ReplaceUnder(Key(fields[n].key), Entries(show, fields[n].value), rest, value);
    } else {
      assert changed[..n] == fields[..n][j := Field(fields[j].key, child)];
      FieldReplaced(show, fields[..n], j, child, rest, value);
      assert path[0] == Key(fields[j].key) != Key(fields[n].key);
      ReplaceElsewhere(last, path, value);
    }
  }

  lemma {:induction false} NoFieldPath(show: Doc -> string, fields: Dict, path: seq<Token>)
    requires path != [] && forall k :: 0 <= k < |fields| ==> path[0] != Key(fields[k].key)
    ensures forall k :: 0 <= k < |FieldEntries(show, fields)| ==> FieldEntries(show, fields)[k].path != path
  {
    if fields != [] {
      var n := |fields| - 1;
      NoFieldPath(show, fields[..n], path);
      var last := Under(Key(fields[n].key), Entries(show, fields[n].value));
      assert forall k :: 0 <= k < |last| ==> last[k].path[0] == Key(fields[n].key);
    }
  }

  lemma ItemEntriesSplit(show: Doc -> string, items: seq<Doc>, n: nat)
    requires |items| == n + 1
    ensures ItemEntries(show, items) == ItemEntries(show, items[..n]) + Under(Slot(TagOf(show, items[n], n)), Entries(show, items[n]))
  {
  }

  /** Likewise for one element of a list that keeps its tag. */
  lemma {:induction false} ItemReplaced(show: Doc -> string, items: seq<Doc>, j: nat, child: Doc, rest: seq<Token>, value: Doc)
    requires j < |items| && DistinctTags(show, items) && TagOf(show, child, j) == TagOf(show, items[j], j)
    requires Entries(show, child) == Replace(Entries(show, items[j]), rest, value)
    ensures ItemEntries(show, items[j := child]) == Replace(ItemEntries(show, items), [Slot(TagOf(show, items[j], j))] + rest, value)
    decreases |items|
  {
    hide TagOf, Replace, Entries, ItemEntries;
    var n := |items| - 1;
    var path, changed := [Slot(TagOf(show, items[j], j))] + rest, items[j := child];
    var tag := Slot(TagOf(show, items[n], n));
    var front, last := ItemEntries(show, items[..n]), Under(tag, Entries(show, items[n]));
    ItemEntriesSplit(show, items, n);
    ItemEntriesSplit(show, changed, n);
    ReplaceJoin(front, last, path, value);
    if j == n {
      assert changed[..n] == items[..n];
      NoItemPath(show, items[..n], path);
      ReplaceElsewhere(front, path, value);
      ReplaceUnder(tag, Entries(show, items[n]), rest, value);
    } else {
      assert changed[..n] == items[..n][j := child];
      ItemReplaced(show, items[..n], j, child, rest, value);
      assert path[0] != tag;
      ReplaceElsewhere(last, path, value);
    }
  }

  ghost predicate DistinctTags(show: Doc -> string, items: seq<Doc>) {
    forall i, j :: 0 <= i < j < |items| ==> TagOf(show, items[i], i) != TagOf(show, items[j], j)
  }

  lemma {:induction false} NoItemPath(show: Doc -> string, items: seq<Doc>, path: seq<Token>)
    requires path != [] && forall k :: 0 <= k < |items| ==> path[0] != Slot(TagOf(show, items[k], k))
    ensures forall k :: 0 <= k < |ItemEntries(show, items)| ==> ItemEntries(show, items)[k].path != path
  {
    if items != [] {
      var n := |items| - 1;
      NoItemPath(show, items[..n], path);
      var last := Under(Slot(TagOf(show, items[n], n)), Entries(show, items[n]));
      assert forall k :: 0 <= k < |last| ==> last[k].path[0] == Slot(TagOf(show, items[n], n));
    }
  }

  // ------------------------------------------------------------------
  // Following a path to its leaf
  // ------------------------------------------------------------------

  lemma HoldsUnder(t: Token, es: seq<Entry>, path: seq<Token>, value: Doc)
    ensures Holds(Under(t, es), path, value) <==> path != [] && path[0] == t && Holds(es, path[1..], value)
  {
    var below := Under(t, es);
    if Holds(below, path, value) {
      var k :| 0 <= k < |below| && below[k] == Entry(path, value);
      assert path[1..] == es[k].path && es[k] == Entry(path[1..], value);
    }
    if path != [] && path[0] == t && Holds(es, path[1..], value) {
      var k :| 0 <= k < |es| && es[k] == Entry(path[1..], value);
      assert below[k].path == path;
      assert below[k] == Entry(path, value);
    }
  }

  lemma HoldsJoin(xs: seq<Entry>, ys: seq<Entry>, path: seq<Token>, value: Doc)
    ensures Holds(xs + ys, path, value) <==> Holds(xs, path, value) || Holds(ys, path, value)
  {
  }

  /** A path of an object starts with one of its keys and goes on inside that value. */
  lemma {:induction false} FieldPath(show: Doc -> string, fields: Dict, path: seq<Token>, value: Doc) returns (j: nat)
    requires Holds(FieldEntries(show, fields), path, value)
    ensures j < |fields| && path != [] && path[0] == Key(fields[j].key) && Holds(Entries(show, fields[j].value), path[1..], value)
    decreases |fields|
  {
    hide Holds;
    var n := |fields| - 1;
    SomeField(show, fields, path, value);
    HoldsJoin(FieldEntries(show, fields[..n]), Under(Key(fields[n].key), Entries(show, fields[n].value)), path, value);
    HoldsUnder(Key(fields[n].key), Entries(show, fields[n].value), path, value);
    if Holds(FieldEntries(show, fields[..n]), path, value) { j := FieldPath(show, fields[..n], path, value); } else { j := n; }
  }

  lemma SomeField(show: Doc -> string, fields: Dict, path: seq<Token>, value: Doc)
    requires Holds(FieldEntries(show, fields), path, value)
    ensures fields != []
  {
  }

  lemma {:induction false} ItemPath(show: Doc -> string, items: seq<Doc>, path: seq<Token>, value: Doc) returns (j: nat)
    requires Holds(ItemEntries(show, items), path, value)
    ensures j < |items| && path != [] && path[0] == Slot(TagOf(show, items[j], j)) && Holds(Entries(show, items[j]), path[1..], value)
    decreases |items|
  {
    hide Holds, TagOf;
    var n := |items| - 1;
    SomeItem(show, items, path, value);
    var tag := Slot(TagOf(show, items[n], n));
    HoldsJoin(ItemEntries(show, items[..n]), Under(tag, Entries(show, items[n])), path, value);
    HoldsUnder(tag, Entries(show, items[n]), path, value);
    if Holds(ItemEntries(show, items[..n]), path, value) { j := ItemPath(show, items[..n], path, value); } else { j := n; }
  }

  lemma SomeItem(show: Doc -> string, items: seq<Doc>, path: seq<Token>, value: Doc)
    requires Holds(ItemEntries(show, items), path, value)
    ensures items != []
  {
  }

  /** ... and the other way round. */
  lemma {:induction false} FieldHolds(show: Doc -> string, fields: Dict, j: nat, rest: seq<Token>, value: Doc)
    requires j < |fields| && Holds(Entries(show, fields[j].value), rest, value)
    ensures Holds(FieldEntries(show, fields), [Key(fields[j].key)] + rest, value)
    decreases |fields|
  {
    hide Holds;
    var n := |fields| - 1;
    var path, last := [Key(fields[j].key)] + rest, Under(Key(fields[n].key), Entries(show, fields[n].value));
    HoldsJoin(FieldEntries(show, fields[..n]), last, path, value);
    assert path[1..] == rest;
    if j == n { HoldsUnder(Key(fields[n].key), Entries(show, fields[n].value), path, value); }
    else { FieldHolds(show, fields[..n], j, rest, value); }
  }

  lemma {:induction false} ItemHolds(show: Doc -> string, items: seq<Doc>, j: nat, rest: seq<Token>, value: Doc)
    requires j < |items| && Holds(Entries(show, items[j]), rest, value)
    ensures Holds(ItemEntries(show, items), [Slot(TagOf(show, items[j], j))] + rest, value)
    decreases |items|
  {
    hide Holds, TagOf;
    var n := |items| - 1;
    var path, tag := [Slot(TagOf(show, items[j], j))] + rest, Slot(TagOf(show, items[n], n));
    HoldsJoin(ItemEntries(show, items[..n]), Under(tag, Entries(show, items[n])), path, value);
    assert path[1..] == rest;
    if j == n { HoldsUnder(tag, Entries(show, items[n]), path, value); }
    else { ItemHolds(show, items[..n], j, rest, value); }
  }

  lemma TextKeyTag(show: Doc -> string, v: Doc, i: nat, tag: string)
    requires KeyValue(v) == Some(Leaf(Text(tag))) && tag != ""
    ensures TagOf(show, v, i) == tag
  {
  }

  lemma IndexTag(show: Doc -> string, v: Doc, i: nat)
    requires TextKeyed(v)
    ensures TagOf(show, v, i) != ""
    ensures TagOf(show, v, i) == Decimal(i) || KeyValue(v) == Some(Leaf(Text(TagOf(show, v, i))))
  {
    ParseDecimal(i);
  }

  /** EXACTLY WHEN the tag written for an element leads back to it: the element is
      known by text or by position, or its id reads as its own position, counted
      from either end. */
  lemma TagAddresses(show: Doc -> string, items: seq<Doc>, j: nat)
    requires j < |items| && DistinctTags(show, items) && TagOf(show, items[j], j) != ""
    ensures Addressed(items, TagOf(show, items[j], j)) == Some(j) <==>
      TextKeyed(items[j]) || ParseInt(TagOf(show, items[j], j)) in {Some(j), Some(j - |items|)}
  {
    KnownByText(show, items, j, Known(items, TagOf(show, items[j], j)));
    hide TagOf, KeyValue, TextKeyed, ParseInt, DistinctTags, Known;
  }

  lemma KnownByText(show: Doc -> string, items: seq<Doc>, j: nat, k: nat)
    requires j < |items| && DistinctTags(show, items) && TagOf(show, items[j], j) != "" && k == Known(items, TagOf(show, items[j], j))
    ensures k <= |items| && (k < |items| ==> k == j && TextKeyed(items[j]))
    ensures k == |items| && TextKeyed(items[j]) ==> ParseInt(TagOf(show, items[j], j)) == Some(j)
  {
    var tag := TagOf(show, items[j], j);
    if k < |items| { TextKeyTag(show, items[k], k, tag); }
    if TextKeyed(items[j]) { IndexTag(show, items[j], j); }
    ParseDecimal(j);
    hide TagOf, Decimal, ParseDigits;
  }

  // ------------------------------------------------------------------
  // Documents alike in every key and tag
  // ------------------------------------------------------------------

  /** The same id or name to go by, or none either way. */
  predicate SameKey(v: Doc, w: Doc) {
    && (KeyValue(w).Some? && Truthy(KeyValue(w).value) <==> KeyValue(v).Some? && Truthy(KeyValue(v).value))
    && (KeyValue(v).Some? && Truthy(KeyValue(v).value) ==> KeyValue(w) == KeyValue(v))
  }

  lemma TagKept(show: Doc -> string, v: Doc, w: Doc, i: nat)
    requires SameKey(v, w)
    ensures TagOf(show, w, i) == TagOf(show, v, i) && LeafKeyed(v) == LeafKeyed(w)
  {
  }

  /** The same keys, list lengths and names of elements; only scalars may differ. */
  ghost predicate Alike(d: Doc, r: Doc)
    decreases d
  {
    match d
    case Leaf(_) => r.Leaf?
    case Obj(fields) =>
      && r.Obj? && |r.fields| == |fields|
      && forall k :: 0 <= k < |fields| ==> r.fields[k].key == fields[k].key && Alike(fields[k].value, r.fields[k].value)
    case Arr(items) =>
      && r.Arr? && |r.items| == |items|
      && forall k :: 0 <= k < |items| ==> SameKey(items[k], r.items[k]) && Alike(items[k], r.items[k])
  }

  lemma {:induction false} AlikeItself(d: Doc)
    ensures Alike(d, d)
    decreases d
  {
    match d
    case Leaf(_) =>
    case Obj(fields) => forall k | 0 <= k < |fields| ensures Alike(fields[k].value, fields[k].value) { AlikeItself(fields[k].value); }
    case Arr(items) => forall k | 0 <= k < |items| ensures Alike(items[k], items[k]) { AlikeItself(items[k]); }
  }

  lemma FieldAlike(fields: Dict, j: nat, child: Doc)
    requires j < |fields| && Alike(fields[j].value, child)
    ensures Alike(Obj(fields), Obj(fields[j := Field(fields[j].key, child)]))
  {
    forall k | 0 <= k < |fields| ensures Alike(fields[k].value, fields[k].value) { AlikeItself(fields[k].value); }
  }

  lemma ItemAlike(items: seq<Doc>, j: nat, child: Doc)
    requires j < |items| && Alike(items[j], child) && SameKey(items[j], child)
    ensures Alike(Arr(items), Arr(items[j := child]))
  {
    forall k | 0 <= k < |items| ensures SameKey(items[k], items[k]) && Alike(items[k], items[k]) { AlikeItself(items[k]); }
    hide SameKey;
  }

  lemma {:induction false} KnownAlike(items: seq<Doc>, now: seq<Doc>, name: string)
    requires |now| == |items| && name != "" && forall k :: 0 <= k < |items| ==> SameKey(items[k], now[k])
    ensures Known(now, name) == Known(items, name)
  {
    if items != [] {
      assert KeyValue(items[0]) == Some(Leaf(Text(name))) <==> KeyValue(now[0]) == Some(Leaf(Text(name)));
      KnownAlike(items[1..], now[1..], name);
    }
  }

  lemma OwnTagAlike(show: Doc -> string, items: seq<Doc>, now: seq<Doc>, j: nat)
    requires |now| == |items| && j < |items| && forall k :: 0 <= k < |items| ==> SameKey(items[k], now[k])
    ensures TagOf(show, now[j], j) == TagOf(show, items[j], j) && OwnTag(show, now, j) == OwnTag(show, items, j)
  {
    hide TagOf, SameKey, KeyValue, Truthy, Addressed;
    TagKept(show, items[j], now[j], j);
    var tag := TagOf(show, items[j], j);
    if tag != "" {
      KnownAlike(items, now, tag);
      AddressedBy(items, now, tag);
    }
  }

  lemma AddressedBy(items: seq<Doc>, now: seq<Doc>, name: string)
    requires |now| == |items| && Known(now, name) == Known(items, name)
    ensures Addressed(now, name) == Addressed(items, name)
  {
  }

  lemma LookupAlike(d: Dict, now: Dict, name: string)
    requires |now| == |d| && forall k :: 0 <= k < |d| ==> now[k].key == d[k].key
    ensures At(now, name) == At(d, name)
  {
    if Has(d, name) { AtIs(now, name, At(d, name)); }
  }

  /** A path leads as well in a document that is alike. */
  lemma {:induction false} LeadsAlike(show: Doc -> string, d: Doc, r: Doc, path: seq<Token>)
    requires Alike(d, r) && Leads(show, d, path)
    ensures Leads(show, r, path)
    decreases |path|
  {
    if path != [] && path[0].Key? {
      LookupAlike(d.fields, r.fields, path[0].name);
      LeadsAlike(show, Lookup(d.fields, path[0].name), Lookup(r.fields, path[0].name), path[1..]);
    } else if path != [] {
      var j :| 0 <= j < |d.items| && LeadsAt(show, d.items, j, path);
      OwnTagAlike(show, d.items, r.items, j);
      TagKept(show, d.items[j], r.items[j], j);
      LeadsAlike(show, d.items[j], r.items[j], path[1..]);
      hide TagOf, OwnTag, SameKey, LeafKeyed, Alike;
      assert LeadsAt(show, r.items, j, path);
    }
  }

  // ------------------------------------------------------------------
  // The write changes one entry
  // ------------------------------------------------------------------

  /** A write deep inside one value of an element that goes by a scalar leaves its key alone. */
  lemma KeyKept(v: Doc, name: string, child: Doc)
    requires v.Obj? && LeafKeyed(v) && Has(v.fields, name)
    requires !Lookup(v.fields, name).Leaf? && Truthy(Lookup(v.fields, name)) && Truthy(child) && !child.Leaf?
    ensures SameKey(v, Obj(Assign(v.fields, name, child)))
  {
    if name != "id" { AssignOther(v.fields, name, child, "id"); }
    if name != "name" { AssignOther(v.fields, name, child, "name"); }
  }

  /** Writing a key other than id and name keeps what the element goes by. */
  lemma KeyUntouched(v: Doc, name: string, value: Doc)
    requires v.Obj? && name != "id" && name != "name"
    ensures SameKey(v, Obj(Assign(v.fields, name, value)))
  {
    AssignOther(v.fields, name, value, "id");
    AssignOther(v.fields, name, value, "name");
  }

  lemma AssignAt(d: Dict, j: nat, value: Doc)
    requires j < |d| && DistinctKeys(d)
    ensures Has(d, d[j].key) && Lookup(d, d[j].key) == d[j].value
    ensures Assign(d, d[j].key, value) == d[j := Field(d[j].key, value)]
  {
    AtIs(d, d[j].key, j);
  }

  lemma LeafOnly(show: Doc -> string, d: Doc, value: Doc)
    requires Holds(Entries(show, d), [], value)
    ensures d == value && IsEmptyOrLeaf(d)
  {
    if !IsEmptyOrLeaf(d) {
      if d.Obj? { var j := FieldPath(show, d.fields, [], value); } else { var j := ItemPath(show, d.items, [], value); }
    }
  }

  lemma ContainerOnly(show: Doc -> string, d: Doc, path: seq<Token>, value: Doc)
    requires Holds(Entries(show, d), path, value) && path != []
    ensures !d.Leaf? && Truthy(d) && !IsEmptyOrLeaf(d)
  {
  }

  lemma AssignWellFormed(show: Doc -> string, fields: Dict, name: string, value: Doc)
    requires WellFormed(show, Obj(fields)) && TokenOk(Key(name)) && name != LIST && WellFormed(show, value)
    ensures WellFormed(show, Obj(Assign(fields, name, value)))
  {
    hide TokenOk;
  }

  lemma ItemWellFormed(show: Doc -> string, items: seq<Doc>, q: nat, w: Doc)
    requires WellFormed(show, Arr(items)) && q < |items| && WellFormed(show, w) && TagOf(show, w, q) == TagOf(show, items[q], q)
    ensures WellFormed(show, Arr(items[q := w]))
  {
    var r := items[q := w];
    assert forall i :: 0 <= i < |r| ==> TagOf(show, r[i], i) == TagOf(show, items[i], i);
    hide TagOf, TokenOk;
  }

  ghost predicate Writes(show: Doc -> string, d: Doc, path: seq<Token>, value: Doc) {
    var r := SetPath(d, path, value);
    && r.Some? && WellFormed(show, r.value) && Entries(show, r.value) == Replace(Entries(show, d), path, value)
    && !r.value.Leaf? && Truthy(r.value) && Alike(d, r.value)
  }

  /** A written element keeps what it goes by. */
  lemma ElementKept(show: Doc -> string, v: Doc, path: seq<Token>, was: Doc, value: Doc)
    requires WellFormed(show, v) && path != [] && Holds(Entries(show, v), path, was) && Spared(v, path) && Writes(show, v, path, value)
    requires v.Obj? && |path| > 1 && path[0].Key? && Has(v.fields, path[0].name) ==> Writes(show, Lookup(v.fields, path[0].name), path[1..], value)
    ensures SameKey(v, SetPath(v, path, value).value)
  {
    ContainerOnly(show, v, path, was);
    if v.Obj? {
      assert DistinctKeys(v.fields);
      hide WellFormed, SameKey, LeafKeyed, Entries, Replace, Holds, Alike;
      var j := FieldPath(show, v.fields, path, was);
      AssignAt(v.fields, j, value);
      if path[0] != Key("id") && path[0] != Key("name") {
        KeyUntouched(v, path[0].name, if |path| == 1 then value else SetPath(v.fields[j].value, path[1..], value).value);
      } else {
        ContainerOnly(show, v.fields[j].value, path[1..], was);
        KeyKept(v, path[0].name, SetPath(v.fields[j].value, path[1..], value).value);
      }
    } else {
      assert KeyValue(v) == None == KeyValue(SetPath(v, path, value).value);
    }
  }

  lemma LeafReplaced(show: Doc -> string, v: Doc, value: Doc)
    requires v.Leaf? && value.Leaf?
    ensures Entries(show, value) == Replace(Entries(show, v), [], value)
  {
  }

  lemma FieldWritten(show: Doc -> string, fields: Dict, j: nat, rest: seq<Token>, child: Doc, value: Doc)
    requires WellFormed(show, Obj(fields)) && j < |fields| && WellFormed(show, child) && Alike(fields[j].value, child)
    requires Entries(show, child) == Replace(Entries(show, fields[j].value), rest, value)
    requires if rest == [] then child == value else SetPath(fields[j].value, rest, value) == Some(child)
    ensures Writes(show, Obj(fields), [Key(fields[j].key)] + rest, value)
  {
    assert ([Key(fields[j].key)] + rest)[1..] == rest;
    AssignAt(fields, j, child);
    FieldReplaced(show, fields, j, child, rest, value);
    FieldAlike(fields, j, child);
    assert TokenOk(Key(fields[j].key)) && fields[j].key != LIST;
    AssignWellFormed(show, fields, fields[j].key, child);
    hide WellFormed, Replace, Assign, DistinctKeys, Alike;
  }

  /** The write through a tag that leads back to its element. */
  lemma SetItem(show: Doc -> string, items: seq<Doc>, j: nat, rest: seq<Token>, value: Doc)
    requires j < |items| && OwnTag(show, items, j) && (rest != [] ==> SetPath(items[j], rest, value).Some?)
    ensures SetPath(Arr(items), [Slot(TagOf(show, items[j], j))] + rest, value) ==
      Some(Arr(items[j := if rest == [] then value else SetPath(items[j], rest, value).value]))
  {
    assert ([Slot(TagOf(show, items[j], j))] + rest)[1..] == rest;
    hide TagOf, Addressed;
  }

  lemma ItemWritten(show: Doc -> string, items: seq<Doc>, j: nat, rest: seq<Token>, child: Doc, value: Doc)
    requires WellFormed(show, Arr(items)) && j < |items| && WellFormed(show, child) && SameKey(items[j], child) && Alike(items[j], child)
    requires Entries(show, child) == Replace(Entries(show, items[j]), rest, value)
    requires SetPath(Arr(items), [Slot(TagOf(show, items[j], j))] + rest, value) == Some(Arr(items[j := child]))
    ensures Writes(show, Arr(items), [Slot(TagOf(show, items[j], j))] + rest, value)
  {
    TagKept(show, items[j], child, j);
    assert DistinctTags(show, items);
    ItemReplaced(show, items, j, child, rest, value);
    ItemWellFormed(show, items, j, child);
    ItemAlike(items, j, child);
    hide SetPath, Replace, TagOf, WellFormed, SameKey, DistinctTags, Alike;
  }

  /** WRITING along a path that leads succeeds, keeps every path and tag, and changes
      that entry only. */
  lemma {:induction false} SetPathReplaces(show: Doc -> string, d: Doc, path: seq<Token>, was: Doc, value: Doc)
    requires WellFormed(show, d) && path != [] && Holds(Entries(show, d), path, was) && was.Leaf? && value.Leaf? && Leads(show, d, path)
    ensures Writes(show, d, path, value)
    decreases |path|, 1
  {
    ContainerOnly(show, d, path, was);
    if d.Obj? { SetFieldReplaces(show, d.fields, path, was, value); } else { SetItemReplaces(show, d.items, path, was, value); }
  }

  lemma {:induction false} SetFieldReplaces(show: Doc -> string, fields: Dict, path: seq<Token>, was: Doc, value: Doc)
    requires WellFormed(show, Obj(fields)) && path != [] && Holds(FieldEntries(show, fields), path, was) && was.Leaf? && value.Leaf?
    requires Leads(show, Obj(fields), path)
    ensures Writes(show, Obj(fields), path, value)
    decreases |path|, 0
  {
    hide Replace, Holds, SetPath, Alike;
    var j := FieldPath(show, fields, path, was);
    var v, rest := fields[j].value, path[1..];
    AssignAt(fields, j, value);
    assert WellFormed(show, v) && Leads(show, v, rest);
    assert path == [Key(fields[j].key)] + rest;
    if rest == [] {
      LeafOnly(show, v, was);
      LeafReplaced(show, v, value);
      LeavesAlike(v, value);
      FieldWritten(show, fields, j, rest, value, value);
    } else {
      SetPathReplaces(show, v, rest, was, value);
      FieldWritten(show, fields, j, rest, SetPath(v, rest, value).value, value);
    }
  }

  lemma LeavesAlike(v: Doc, w: Doc)
    requires v.Leaf? && w.Leaf?
    ensures Alike(v, w) && SameKey(v, w)
  {
  }

  /** The element a leading path goes through is the one its entry belongs to. */
  lemma ElementLeads(show: Doc -> string, items: seq<Doc>, j: nat, path: seq<Token>)
    requires WellFormed(show, Arr(items)) && j < |items| && path != [] && path[0] == Slot(TagOf(show, items[j], j))
    requires Leads(show, Arr(items), path)
    ensures WellFormed(show, items[j]) && LeadsAt(show, items, j, path)
  {
    hide TagOf, OwnTag, Spared;
    var i :| 0 <= i < |items| && LeadsAt(show, items, i, path);
    assert TagOf(show, items[i], i) == TagOf(show, items[j], j);
  }

  lemma {:induction false} SetItemReplaces(show: Doc -> string, items: seq<Doc>, path: seq<Token>, was: Doc, value: Doc)
    requires WellFormed(show, Arr(items)) && path != [] && Holds(ItemEntries(show, items), path, was) && was.Leaf? && value.Leaf?
    requires Leads(show, Arr(items), path)
    ensures Writes(show, Arr(items), path, value)
    decreases |path|, 0
  {
    hide Replace, Holds, SetPath, Alike, TagOf, OwnTag, Spared, SameKey, Writes, WellFormed;
    var j := ItemPath(show, items, path, was);
    var v, rest := items[j], path[1..];
    ElementLeads(show, items, j, path);
    assert path == [Slot(TagOf(show, v, j))] + rest;
    if rest == [] {
      LeafOnly(show, v, was);
      LeafWritten(show, items, j, value);
    } else {
      SetPathReplaces(show, v, rest, was, value);
      InnerWrites(show, v, rest, was, value);
      ElementKept(show, v, rest, was, value);
      InnerWritten(show, items, j, rest, value);
    }
  }

  lemma LeafWritten(show: Doc -> string, items: seq<Doc>, j: nat, value: Doc)
    requires WellFormed(show, Arr(items)) && j < |items| && items[j].Leaf? && value.Leaf? && OwnTag(show, items, j)
    ensures Writes(show, Arr(items), [Slot(TagOf(show, items[j], j))] + [], value)
  {
    SetItem(show, items, j, [], value);
    LeafReplaced(show, items[j], value);
    LeavesAlike(items[j], value);
    ItemWritten(show, items, j, [], value, value);
  }

  lemma InnerWritten(show: Doc -> string, items: seq<Doc>, j: nat, rest: seq<Token>, value: Doc)
    requires WellFormed(show, Arr(items)) && j < |items| && rest != [] && Writes(show, items[j], rest, value) && OwnTag(show, items, j)
    requires SameKey(items[j], SetPath(items[j], rest, value).value)
    ensures Writes(show, Arr(items), [Slot(TagOf(show, items[j], j))] + rest, value)
  {
    hide SetPath, TagOf, Replace, SameKey, WellFormed, OwnTag, Alike;
    SetItem(show, items, j, rest, value);
    ItemWritten(show, items, j, rest, SetPath(items[j], rest, value).value, value);
  }

  lemma {:induction false} InnerWrites(show: Doc -> string, v: Doc, path: seq<Token>, was: Doc, value: Doc)
    requires WellFormed(show, v) && path != [] && Holds(Entries(show, v), path, was) && was.Leaf? && value.Leaf? && Leads(show, v, path)
    ensures v.Obj? && |path| > 1 && path[0].Key? && Has(v.fields, path[0].name) ==> Writes(show, Lookup(v.fields, path[0].name), path[1..], value)
    decreases |path|, 0
  {
    if v.Obj? && |path| > 1 {
      ContainerOnly(show, v, path, was);
      var j := FieldPath(show, v.fields, path, was);
      AssignAt(v.fields, j, value);
      assert WellFormed(show, v.fields[j].value);
      SetPathReplaces(show, v.fields[j].value, path[1..], was, value);
    }
  }

  // ------------------------------------------------------------------
  // Documents known by text
  // ------------------------------------------------------------------

  /** Every list element is known by text, or by its position. */
  ghost predicate TextTags(d: Doc)
    decreases d
  {
    match d
    case Leaf(_) => true
    case Obj(fields) => forall k :: 0 <= k < |fields| ==> TextTags(fields[k].value)
    case Arr(items) => forall k :: 0 <= k < |items| ==> TextKeyed(items[k]) && TextTags(items[k])
  }

  /** The path does not end in the id or name of a list element. */
  predicate KeepsTags(path: seq<Token>) {
    |path| >= 2 && path[|path|-2].Slot? ==> path[|path|-1] != Key("id") && path[|path|-1] != Key("name")
  }

  /** Where elements are known by text, every leaf path that ends in no id or name leads. */
  lemma {:induction false} TextKeysLead(show: Doc -> string, d: Doc, path: seq<Token>, was: Doc)
    requires WellFormed(show, d) && TextTags(d) && Holds(Entries(show, d), path, was) && was.Leaf? && KeepsTags(path)
    ensures Leads(show, d, path)
    decreases |path|, 1
  {
    hide Holds, TextKeyed, TagOf, OwnTag, LeadsAt;
    if path != [] {
      ContainerOnly(show, d, path, was);
      if d.Obj? { TextFieldLeads(show, d.fields, path, was); } else { TextItemLeads(show, d.items, path, was); }
    }
  }

  lemma {:induction false} TextFieldLeads(show: Doc -> string, fields: Dict, path: seq<Token>, was: Doc)
    requires WellFormed(show, Obj(fields)) && TextTags(Obj(fields)) && Holds(FieldEntries(show, fields), path, was) && was.Leaf? && KeepsTags(path)
    ensures Leads(show, Obj(fields), path)
    decreases |path|, 0
  {
    hide Holds, TextKeyed, LeadsAt;
    var j := FieldPath(show, fields, path, was);
    AssignAt(fields, j, was);
    assert WellFormed(show, fields[j].value) && TextTags(fields[j].value);
    hide WellFormed, TextTags;
    TextKeysLead(show, fields[j].value, path[1..], was);
  }

  lemma {:induction false} TextItemLeads(show: Doc -> string, items: seq<Doc>, path: seq<Token>, was: Doc)
    requires WellFormed(show, Arr(items)) && TextTags(Arr(items)) && Holds(ItemEntries(show, items), path, was) && was.Leaf? && KeepsTags(path)
    ensures Leads(show, Arr(items), path)
    decreases |path|, 0
  {
    hide Holds, TextKeyed, TagOf, LeadsAt;
    var j := ItemPath(show, items, path, was);
    assert WellFormed(show, items[j]) && TextTags(items[j]) && TextKeyed(items[j]);
    hide WellFormed, TextTags;
    TextKeysLead(show, items[j], path[1..], was);
    TextKeyLeads(show, items, j, path);
  }

  lemma TextKeyLeads(show: Doc -> string, items: seq<Doc>, j: nat, path: seq<Token>)
    requires WellFormed(show, Arr(items)) && j < |items| && TextKeyed(items[j]) && KeepsTags(path)
    requires path != [] && path[0] == Slot(TagOf(show, items[j], j)) && Leads(show, items[j], path[1..])
    ensures LeadsAt(show, items, j, path)
  {
    IndexTag(show, items[j], j);
    assert DistinctTags(show, items);
    TagAddresses(show, items, j);
    assert Spared(items[j], path[1..]) by { if |path| > 1 { assert path[1..][0] == path[1]; } }
    hide TagOf, Addressed, Leads, WellFormed, DistinctTags, TextKeyed;
  }

  // ------------------------------------------------------------------
  // Applying changes
  // ------------------------------------------------------------------

  datatype Change = Change(path: string, value: Scalar)

  datatype Outcome = Outcome(merged: Doc, changed: seq<string>, rejected: seq<string>, noOps: seq<string>)

  /** The path exists and holds a scalar. */
  predicate Changeable(flat: Dict, path: string) {
    Has(flat, path) && Lookup(flat, path).Leaf?
  }

  /** `coerce` keeps the previous field's type. */
  function Coerced(coerce: (Scalar, Scalar) -> Scalar, flat: Dict, c: Change): Scalar
    requires Changeable(flat, c.path)
  {
    coerce(Lookup(flat, c.path).scalar, c.value)
  }

  predicate Moves(coerce: (Scalar, Scalar) -> Scalar, flat: Dict, c: Change) {
    Changeable(flat, c.path) && Coerced(coerce, flat, c) != Lookup(flat, c.path).scalar
  }

  function ApplyOne(coerce: (Scalar, Scalar) -> Scalar, flat: Dict, r: Outcome, c: Change): Outcome {
    if !Changeable(flat, c.path) then r.(rejected := r.rejected + [c.path])
    else if !Moves(coerce, flat, c) then r.(noOps := r.noOps + [c.path])
    else
      match SetPath(r.merged, Tokenize(c.path), Leaf(Coerced(coerce, flat, c)))
      case None => r.(rejected := r.rejected + [c.path])
      case Some(d) => r.(merged := d, changed := r.changed + [c.path])
  }

  function Apply(coerce: (Scalar, Scalar) -> Scalar, flat: Dict, previous: Doc, changes: seq<Change>): Outcome {
    if changes == [] then Outcome(previous, [], [], [])
    else
      var n := |changes| - 1;
      ApplyOne(coerce, flat, Apply(coerce, flat, previous, changes[..n]), changes[n])
  }

  /** The loop over the changes. */
  method ApplyChanges(show: Doc -> string, coerce: (Scalar, Scalar) -> Scalar, previous: Doc, changes: seq<Change>) returns (r: Outcome)
    ensures r == Apply(coerce, Flatten(show, previous, ""), previous, changes)
  {
    var flat := Flatten(show, previous, "");
    var merged, changed, rejected, noOps := previous, [], [], [];
    for k := 0 to |changes|
      invariant Outcome(merged, changed, rejected, noOps) == Apply(coerce, flat, previous, changes[..k])
    {
      var c := changes[k];
      assert changes[..k+1][..k] == changes[..k];
      if !Has(flat, c.path) {
        rejected := rejected + [c.path];
      } else {
        var was := Lookup(flat, c.path);
        if !was.Leaf? {
          rejected := rejected + [c.path];
        } else {
          var value := coerce(was.scalar, c.value);
          if value == was.scalar {
            noOps := noOps + [c.path];
          } else {
            var parts := PathTokens(c.path);
            var written := SetPath(merged, parts, Leaf(value));
            match written
            case None => rejected := rejected + [c.path];
            case Some(d) =>
              merged := d;
              changed := changed + [c.path];
          }
        }
      }
    }
    assert changes[..|changes|] == changes;
    return Outcome(merged, changed, rejected, noOps);
  }

  // ------------------------------------------------------------------
  // Applying to the document is applying to its paths
  // ------------------------------------------------------------------

  /** The same changes applied to the flat dictionary. */
  function FlatApply(coerce: (Scalar, Scalar) -> Scalar, flat: Dict, changes: seq<Change>): Dict {
    if changes == [] then flat
    else
      var n := |changes| - 1;
      var before, c := FlatApply(coerce, flat, changes[..n]), changes[n];
      if Moves(coerce, flat, c) then Assign(before, c.path, Leaf(Coerced(coerce, flat, c))) else before
  }

  /** Same keys in the same order, scalars where there were scalars. */
  ghost predicate SameFrame(flat: Dict, now: Dict) {
    |now| == |flat| && forall k :: 0 <= k < |flat| ==> now[k].key == flat[k].key && (flat[k].value.Leaf? ==> now[k].value.Leaf?)
  }

  lemma {:induction false} FlatApplyFrame(coerce: (Scalar, Scalar) -> Scalar, flat: Dict, changes: seq<Change>)
    ensures SameFrame(flat, FlatApply(coerce, flat, changes))
  {
    if changes != [] {
      var n := |changes| - 1;
      FlatApplyFrame(coerce, flat, changes[..n]);
      var before, c := FlatApply(coerce, flat, changes[..n]), changes[n];
      if Moves(coerce, flat, c) {
        AtIs(before, c.path, At(flat, c.path));
      }
    }
  }

  lemma RootIs(show: Doc -> string, fields: Dict)
    requires WellFormed(show, Obj(fields))
    ensures Flatten(show, Obj(fields), "") == Rendered([], FieldEntries(show, fields))
    ensures Sound(FieldEntries(show, fields)) && Readable([], FieldEntries(show, fields))
    ensures forall k :: 0 <= k < |FieldEntries(show, fields)| ==> FieldEntries(show, fields)[k].path != []
  {
    FieldsFlatten(show, fields, []);
    FieldEntriesSound(show, fields);
    ReadableUnder([], FieldEntries(show, fields));
  }

  lemma ReplaceRendered(es: seq<Entry>, k: nat, value: Doc)
    requires Sound(es) && Readable([], es) && k < |es|
    ensures Rendered([], Replace(es, es[k].path, value)) == Assign(Rendered([], es), Render(es[k].path), value)
  {
    var d, r := Rendered([], es), Replace(es, es[k].path, value);
    RenderedDistinct([], es);
    assert [] + es[k].path == es[k].path;
    AssignAt(d, k, value);
    forall l | 0 <= l < |es| && l != k ensures r[l] == es[l] { }
  }

  lemma RenderedAt(es: seq<Entry>, k: nat)
    requires Sound(es) && Readable([], es) && k < |es|
    ensures Rendered([], es)[k] == Field(Render(es[k].path), es[k].value) && Tokenize(Render(es[k].path)) == es[k].path
    ensures At(Rendered([], es), Render(es[k].path)) == k
  {
    assert [] + es[k].path == es[k].path;
    TokenizeRender(es[k].path);
    RenderedDistinct([], es);
    hide Tokenize, Render, Sound, Readable;
    AtIs(Rendered([], es), Render(es[k].path), k);
  }

  /** A path of the flat dictionary, as an entry of the document. */
  lemma FlatHolds(show: Doc -> string, fields: Dict, path: string)
    requires WellFormed(show, Obj(fields)) && Has(Flatten(show, Obj(fields), ""), path)
    ensures Holds(FieldEntries(show, fields), Tokenize(path), Lookup(Flatten(show, Obj(fields), ""), path))
    ensures Tokenize(path) != [] && Render(Tokenize(path)) == path
  {
    RootIs(show, fields);
    var flat, es := Flatten(show, Obj(fields), ""), FieldEntries(show, fields);
    hide Flatten, FieldEntries, WellFormed, Tokenize, Render, Sound, Readable;
    var k := At(flat, path);
    RenderedAt(es, k);
    assert es[k] == Entry(Tokenize(path), Lookup(flat, path));
  }

  /** ... and an entry of the document in the flat dictionary. */
  lemma HeldIsFlat(show: Doc -> string, fields: Dict, path: seq<Token>, value: Doc)
    requires WellFormed(show, Obj(fields)) && Holds(FieldEntries(show, fields), path, value)
    ensures var flat := Flatten(show, Obj(fields), ""); Has(flat, Render(path)) && Lookup(flat, Render(path)) == value
  {
    RootIs(show, fields);
    var es := FieldEntries(show, fields);
    hide Flatten, FieldEntries, WellFormed, Tokenize, Render, Sound, Readable;
    var k :| 0 <= k < |es| && es[k] == Entry(path, value);
    RenderedAt(es, k);
  }

  /** One accepted change, on the document and on its paths. */
  lemma ChangeCommutes(show: Doc -> string, fields: Dict, path: string, value: Scalar)
    requires WellFormed(show, Obj(fields)) && Changeable(Flatten(show, Obj(fields), ""), path) && Leads(show, Obj(fields), Tokenize(path))
    ensures var r := SetPath(Obj(fields), Tokenize(path), Leaf(value));
      r.Some? && r.value.Obj? && WellFormed(show, r.value) && Alike(Obj(fields), r.value)
      && Flatten(show, r.value, "") == Assign(Flatten(show, Obj(fields), ""), path, Leaf(value))
  {
    var flat, es := Flatten(show, Obj(fields), ""), FieldEntries(show, fields);
    FlatHolds(show, fields, path);
    SetFieldReplaces(show, fields, Tokenize(path), Lookup(flat, path), Leaf(value));
    var r := SetPath(Obj(fields), Tokenize(path), Leaf(value)).value;
    RootIs(show, fields);
    RootIs(show, r.fields);
    EntriesOfRoot(show, fields, r.fields, Tokenize(path), Leaf(value));
    var k :| 0 <= k < |es| && es[k] == Entry(Tokenize(path), Lookup(flat, path));
    hide Flatten, FieldEntries, WellFormed, SetPath, Leads, Alike, Tokenize;
    ReplaceRendered(es, k, Leaf(value));
  }

  lemma EntriesOfRoot(show: Doc -> string, fields: Dict, now: Dict, path: seq<Token>, value: Doc)
    requires Entries(show, Obj(now)) == Replace(Entries(show, Obj(fields)), path, value) && |now| == |fields| && fields != []
    ensures FieldEntries(show, now) == Replace(FieldEntries(show, fields), path, value)
  {
  }

  /** Every change that moves a value goes along a path that leads. */
  ghost predicate AllLead(show: Doc -> string, coerce: (Scalar, Scalar) -> Scalar, flat: Dict, previous: Doc, changes: seq<Change>) {
    forall k :: 0 <= k < |changes| && Moves(coerce, flat, changes[k]) ==> Leads(show, previous, Tokenize(changes[k].path))
  }

  lemma {:induction false} AlikeChain(a: Doc, b: Doc, c: Doc)
    requires Alike(a, b) && Alike(b, c)
    ensures Alike(a, c)
    decreases a
  {
    match a
    case Leaf(_) =>
    case Obj(fields) =>
      forall k | 0 <= k < |fields| ensures Alike(fields[k].value, c.fields[k].value) {
        AlikeChain(fields[k].value, b.fields[k].value, c.fields[k].value);
      }
    case Arr(items) =>
      forall k | 0 <= k < |items| ensures SameKey(items[k], c.items[k]) && Alike(items[k], c.items[k]) {
        AlikeChain(items[k], b.items[k], c.items[k]);
      }
  }

  /** DELTA: when the paths of the changes lead back to their elements and spare what
      the elements go by, flattening the merged document is the flat dictionary with
      the same changes: every path kept, in order, nothing conjured, nothing else moved. */
  lemma {:induction false} ApplyCommutes(show: Doc -> string, coerce: (Scalar, Scalar) -> Scalar, previous: Doc, changes: seq<Change>)
    requires previous.Obj? && WellFormed(show, previous)
    requires AllLead(show, coerce, Flatten(show, previous, ""), previous, changes)
    ensures var flat := Flatten(show, previous, ""); var r := Apply(coerce, flat, previous, changes);
      r.merged.Obj? && WellFormed(show, r.merged) && Alike(previous, r.merged)
      && Flatten(show, r.merged, "") == FlatApply(coerce, flat, changes)
  {
    var flat := Flatten(show, previous, "");
    if changes == [] {
      AlikeItself(previous);
    } else {
      var n := |changes| - 1;
      var c := changes[n];
      ApplyCommutes(show, coerce, previous, changes[..n]);
      OneMoreChange(show, coerce, previous, changes[..n], c);
    }
    hide Alike, Flatten, WellFormed, Leads;
  }

  /** One more change, after changes that commute. */
  lemma OneMoreChange(show: Doc -> string, coerce: (Scalar, Scalar) -> Scalar, previous: Doc, changes: seq<Change>, c: Change)
    requires previous.Obj? && WellFormed(show, previous)
    requires var flat := Flatten(show, previous, ""); var before := Apply(coerce, flat, previous, changes).merged;
      before.Obj? && WellFormed(show, before) && Alike(previous, before) && Flatten(show, before, "") == FlatApply(coerce, flat, changes)
    requires Moves(coerce, Flatten(show, previous, ""), c) ==> Leads(show, previous, Tokenize(c.path))
    ensures var flat := Flatten(show, previous, ""); var before := Apply(coerce, flat, previous, changes);
      var after := ApplyOne(coerce, flat, before, c);
      && after.merged.Obj? && WellFormed(show, after.merged) && Alike(previous, after.merged)
      && Flatten(show, after.merged, "") ==
        (if Moves(coerce, flat, c) then Assign(FlatApply(coerce, flat, changes), c.path, Leaf(Coerced(coerce, flat, c)))
         else FlatApply(coerce, flat, changes))
      && after == if !Changeable(flat, c.path) then before.(rejected := before.rejected + [c.path])
         else if Moves(coerce, flat, c) then before.(merged := after.merged, changed := before.changed + [c.path])
         else before.(noOps := before.noOps + [c.path])
  {
    var flat := Flatten(show, previous, "");
    hide Flatten, WellFormed, Alike, Leads, Apply, Tokenize;
    var before := Apply(coerce, flat, previous, changes).merged;
    FlatApplyFrame(coerce, flat, changes);
    if Moves(coerce, flat, c) {
      StillChangeable(flat, FlatApply(coerce, flat, changes), c.path);
      LeadsAlike(show, previous, before, Tokenize(c.path));
      ChangeCommutes(show, before.fields, c.path, Coerced(coerce, flat, c));
      AlikeChain(previous, before, SetPath(before, Tokenize(c.path), Leaf(Coerced(coerce, flat, c))).value);
    }
  }

  lemma StillChangeable(flat: Dict, now: Dict, path: string)
    requires SameFrame(flat, now) && Changeable(flat, path)
    ensures Changeable(now, path)
  {
    AtIs(now, path, At(flat, path));
  }

  function PathsOf(changes: seq<Change>, keep: Change -> bool): seq<string> {
    if changes == [] then []
    else
      var n := |changes| - 1;
      PathsOf(changes[..n], keep) + if keep(changes[n]) then [changes[n].path] else []
  }

  /** REPORT: rejected lists exactly the changes at unknown paths and containers, in
      order; changed exactly those that move a value; the rest are no-ops. */
  lemma {:induction false} ApplyReports(show: Doc -> string, coerce: (Scalar, Scalar) -> Scalar, previous: Doc, changes: seq<Change>,
                                        unknown: Change -> bool, moving: Change -> bool, still: Change -> bool)
    requires previous.Obj? && WellFormed(show, previous)
    requires AllLead(show, coerce, Flatten(show, previous, ""), previous, changes)
    requires forall c :: unknown(c) <==> !Changeable(Flatten(show, previous, ""), c.path)
    requires forall c :: moving(c) <==> Moves(coerce, Flatten(show, previous, ""), c)
    requires forall c :: still(c) <==> !unknown(c) && !moving(c)
    ensures var r := Apply(coerce, Flatten(show, previous, ""), previous, changes);
      r.rejected == PathsOf(changes, unknown) && r.changed == PathsOf(changes, moving) && r.noOps == PathsOf(changes, still)
  {
    var flat := Flatten(show, previous, "");
    if changes != [] {
      var n := |changes| - 1;
      ApplyReports(show, coerce, previous, changes[..n], unknown, moving, still);
      ApplyCommutes(show, coerce, previous, changes[..n]);
      OneMoreChange(show, coerce, previous, changes[..n], changes[n]);
    }
    hide Alike, Flatten, WellFormed, Leads, ApplyOne;
  }

  /** FRAME: a path not among the changed holds what it held. */
  lemma {:induction false} UntouchedValue(coerce: (Scalar, Scalar) -> Scalar, flat: Dict, changes: seq<Change>, k: nat)
    requires k < |flat| && forall l :: 0 <= l < |changes| && changes[l].path == flat[k].key ==> !Moves(coerce, flat, changes[l])
    ensures SameFrame(flat, FlatApply(coerce, flat, changes)) && FlatApply(coerce, flat, changes)[k] == flat[k]
  {
    FlatApplyFrame(coerce, flat, changes);
    if changes != [] {
      var n := |changes| - 1;
      UntouchedValue(coerce, flat, changes[..n], k);
    }
  }

  // ------------------------------------------------------------------
  // When a tag leads elsewhere
  // ------------------------------------------------------------------

  /** A plain path: it sets or enters no id or name of a list element, and has no
      empty tag. */
  predicate Plainly(path: seq<Token>) {
    && path != []
    && (forall k :: 0 <= k < |path| ==> path[k] != Slot(""))
    && forall k :: 0 < k < |path| && path[k-1].Slot? ==> path[k] != Key("id") && path[k] != Key("name")
  }

  lemma PlainTail(path: seq<Token>)
    requires Plainly(path) && |path| > 1
    ensures Plainly(path[1..])
  {
  }

  /** Writing below an element along a plain path, wherever it lands, leaves what the
      element goes by alone. */
  lemma PlainKeepsKey(v: Doc, tag: string, rest: seq<Token>, value: Doc)
    requires Plainly([Slot(tag)] + rest) && rest != [] && SetPath(v, rest, value).Some?
    ensures SameKey(v, SetPath(v, rest, value).value)
  {
    var path := [Slot(tag)] + rest;
    assert path[1] == rest[0] && path[0].Slot?;
    if v.Obj? {
      KeyUntouched(v, rest[0].name, if |rest| == 1 then value else SetPath(Lookup(v.fields, rest[0].name), rest[1..], value).value);
    } else {
      assert KeyValue(v) == None == KeyValue(SetPath(v, rest, value).value);
    }
  }

  /** A write along a path that does not lead fails, or leaves the path's value as it was. */
  lemma {:induction false} Misses(show: Doc -> string, d: Doc, path: seq<Token>, was: Doc, value: Doc)
    requires WellFormed(show, d) && Plainly(path) && Holds(Entries(show, d), path, was) && was.Leaf? && value.Leaf?
    requires !Leads(show, d, path) && SetPath(d, path, value).Some?
    ensures Holds(Entries(show, SetPath(d, path, value).value), path, was)
    decreases |path|
  {
    ContainerOnly(show, d, path, was);
    if d.Obj? { MissesField(show, d.fields, path, was, value); } else { MissesItem(show, d.items, path, was, value); }
  }

  lemma {:induction false} MissesField(show: Doc -> string, fields: Dict, path: seq<Token>, was: Doc, value: Doc)
    requires WellFormed(show, Obj(fields)) && Plainly(path) && Holds(FieldEntries(show, fields), path, was) && was.Leaf? && value.Leaf?
    requires !Leads(show, Obj(fields), path) && SetPath(Obj(fields), path, value).Some?
    ensures SetPath(Obj(fields), path, value).value.Obj?
    ensures Holds(FieldEntries(show, SetPath(Obj(fields), path, value).value.fields), path, was)
    ensures SetPath(Obj(fields), path, value).value.fields != []
    decreases |path|, 0
  {
    var j := FieldPath(show, fields, path, was);
    var v, rest := fields[j].value, path[1..];
    AssignAt(fields, j, value);
    assert WellFormed(show, v);
    assert path == [Key(fields[j].key)] + rest;
    assert !Leads(show, v, rest);
    PlainTail(path);
    Misses(show, v, rest, was, value);
    var child := SetPath(v, rest, value).value;
    AssignAt(fields, j, child);
    hide Holds, Leads, WellFormed, FieldEntries, Entries;
    FieldHolds(show, fields[j := Field(fields[j].key, child)], j, rest, was);
  }

  lemma {:induction false} MissesItem(show: Doc -> string, items: seq<Doc>, path: seq<Token>, was: Doc, value: Doc)
    requires WellFormed(show, Arr(items)) && Plainly(path) && Holds(ItemEntries(show, items), path, was) && was.Leaf? && value.Leaf?
    requires !Leads(show, Arr(items), path) && SetPath(Arr(items), path, value).Some?
    ensures SetPath(Arr(items), path, value).value.Arr?
    ensures Holds(ItemEntries(show, SetPath(Arr(items), path, value).value.items), path, was)
    ensures SetPath(Arr(items), path, value).value.items != []
    decreases |path|, 0
  {
    var j := ItemPath(show, items, path, was);
    var v, rest := items[j], path[1..];
    var tag := TagOf(show, v, j);
    assert path == [Slot(tag)] + rest && WellFormed(show, v);
    assert tag != "" by { assert path[0] != Slot(""); }
    assert Spared(v, rest) by { if rest != [] { assert path[1] == rest[0] && path[0].Slot?; } }
    if rest == [] { ScalarLeads(show, items, j, was); }
    if OwnTag(show, items, j) {
      assert !LeadsAt(show, items, j, path);
      assert !Leads(show, v, rest);
      PlainTail(path);
      SetItemThrough(show, items, j, rest, value);
      Misses(show, v, rest, was, value);
      var child := SetPath(v, rest, value).value;
      PlainKeepsKey(v, tag, rest, value);
      TagKept(show, v, child, j);
      hide Holds, Leads, WellFormed, ItemEntries, Entries, TagOf, SameKey;
      ItemHolds(show, items[j := child], j, rest, was);
    } else {
      hide Holds, Leads, WellFormed, ItemEntries, Entries, TagOf;
      var r := SetPath(Arr(items), path, value).value.items;
      assert r[j] == v;
      ItemHolds(show, r, j, rest, was);
    }
  }

  /** A scalar element goes by its position, which leads back to it. */
  lemma ScalarLeads(show: Doc -> string, items: seq<Doc>, j: nat, was: Doc)
    requires WellFormed(show, Arr(items)) && j < |items| && Holds(Entries(show, items[j]), [], was) && was.Leaf?
    requires TagOf(show, items[j], j) != ""
    ensures OwnTag(show, items, j)
  {
    LeafOnly(show, items[j], was);
    assert DistinctTags(show, items);
    TagAddresses(show, items, j);
  }

  lemma SetItemThrough(show: Doc -> string, items: seq<Doc>, j: nat, rest: seq<Token>, value: Doc)
    requires j < |items| && OwnTag(show, items, j) && rest != [] && SetPath(Arr(items), [Slot(TagOf(show, items[j], j))] + rest, value).Some?
    ensures SetPath(items[j], rest, value).Some?
    ensures SetPath(Arr(items), [Slot(TagOf(show, items[j], j))] + rest, value) == Some(Arr(items[j := SetPath(items[j], rest, value).value]))
  {
    assert ([Slot(TagOf(show, items[j], j))] + rest)[1..] == rest;
    hide TagOf, Addressed;
  }

  /** EXACTLY WHEN a write along a plain path does to the document what it does to its
      entries: when every list step leads back to its element. */
  lemma WriteCommutesIff(show: Doc -> string, d: Doc, path: seq<Token>, was: Doc, value: Doc)
    requires WellFormed(show, d) && Plainly(path) && Holds(Entries(show, d), path, was) && was.Leaf? && value.Leaf? && was != value
    ensures Leads(show, d, path) <==>
      SetPath(d, path, value).Some? && Entries(show, SetPath(d, path, value).value) == Replace(Entries(show, d), path, value)
  {
    if Leads(show, d, path) {
      SetPathReplaces(show, d, path, was, value);
    } else if SetPath(d, path, value).Some? {
      Misses(show, d, path, was, value);
      var es := Entries(show, d);
      assert !Holds(Replace(es, path, value), path, was);
    }
  }

  /** The last token is a key a document may have. */
  predicate EndsInKey(path: seq<Token>) {
    path != [] && path[|path|-1].Key? && TokenOk(path[|path|-1]) && path[|path|-1].name != LIST
  }

  /** A write along a plain path that ends in a key, wherever it lands, leaves a
      document whose paths can be told apart. */
  lemma {:induction false} PlainKeepsWellFormed(show: Doc -> string, d: Doc, path: seq<Token>, value: Doc)
    requires WellFormed(show, d) && Plainly(path) && EndsInKey(path) && value.Leaf? && SetPath(d, path, value).Some?
    ensures WellFormed(show, SetPath(d, path, value).value) && SetPath(d, path, value).value.Obj? == d.Obj?
    decreases |path|
  {
    if |path| == 1 {
      AssignWellFormed(show, d.fields, path[0].name, value);
    } else {
      PlainTail(path);
      assert EndsInKey(path[1..]);
      if d.Obj? {
        var k := At(d.fields, path[0].name);
        PlainKeepsWellFormed(show, d.fields[k].value, path[1..], value);
        AssignWellFormed(show, d.fields, path[0].name, SetPath(d.fields[k].value, path[1..], value).value);
      } else {
        var q := Addressed(d.items, path[0].tag).value;
        assert path == [Slot(path[0].tag)] + path[1..];
        PlainKeepsWellFormed(show, d.items[q], path[1..], value);
        PlainKeepsKey(d.items[q], path[0].tag, path[1..], value);
        TagKept(show, d.items[q], SetPath(d.items[q], path[1..], value).value, q);
        ItemWellFormed(show, d.items, q, SetPath(d.items[q], path[1..], value).value);
      }
    }
  }

  /** A leaf path that ends in a key ends in one a document may have. */
  lemma {:induction false} LeafPathEnds(show: Doc -> string, d: Doc, path: seq<Token>, was: Doc)
    requires WellFormed(show, d) && Holds(Entries(show, d), path, was) && path != [] && path[|path|-1].Key?
    ensures EndsInKey(path)
    decreases |path|
  {
    ContainerOnly(show, d, path, was);
    if d.Obj? {
      var j := FieldPath(show, d.fields, path, was);
      assert TokenOk(Key(d.fields[j].key)) && d.fields[j].key != LIST && WellFormed(show, d.fields[j].value);
      if |path| > 1 { LeafPathEnds(show, d.fields[j].value, path[1..], was); }
    } else {
      var j := ItemPath(show, d.items, path, was);
      assert WellFormed(show, d.items[j]);
      LeafPathEnds(show, d.items[j], path[1..], was);
    }
  }

  /** EXACTLY WHEN a change at a plain path that ends in a key, at any depth, does to
      the document what it does to the paths: when every list step leads back to its
      element.  Otherwise the path keeps its value, and something else is written or
      the change is rejected. */
  lemma DeltaCommutesIff(show: Doc -> string, coerce: (Scalar, Scalar) -> Scalar, previous: Doc, c: Change)
    requires previous.Obj? && WellFormed(show, previous) && Moves(coerce, Flatten(show, previous, ""), c)
    requires Plainly(Tokenize(c.path)) && Tokenize(c.path)[|Tokenize(c.path)|-1].Key?
    ensures var flat := Flatten(show, previous, "");
      Leads(show, previous, Tokenize(c.path)) <==>
      Flatten(show, Apply(coerce, flat, previous, [c]).merged, "") == FlatApply(coerce, flat, [c])
    ensures var flat := Flatten(show, previous, "");
      var after := Flatten(show, Apply(coerce, flat, previous, [c]).merged, "");
      !Leads(show, previous, Tokenize(c.path)) ==> Has(after, c.path) && Lookup(after, c.path) == Lookup(flat, c.path)
  {
    var flat := Flatten(show, previous, "");
    var path, was, value := Tokenize(c.path), Lookup(flat, c.path), Leaf(Coerced(coerce, flat, c));
    assert [c][..0] == [] && [c][0] == c;
    FlatHolds(show, previous.fields, c.path);
    if Leads(show, previous, path) {
      ChangeCommutes(show, previous.fields, c.path, Coerced(coerce, flat, c));
    } else if SetPath(previous, path, value).Some? {
      MissesField(show, previous.fields, path, was, value);
      LeafPathEnds(show, previous, path, was);
      PlainKeepsWellFormed(show, previous, path, value);
      HeldIsFlat(show, SetPath(previous, path, value).value.fields, path, was);
    }
    hide Flatten, WellFormed, Leads, Tokenize, Render, SetPath, Assign, Holds, Plainly;
  }

  /** Two misdirected writes can cancel, so for several changes only one direction
      holds: ids 1 and -2 send each write to the other element. */
  lemma MisdirectionsCancel(show: Doc -> string, a: Doc, b: Doc, value: Doc)
    requires show(Leaf(Int(1))) == "1" && show(Leaf(Int(-2))) == "-2"
    ensures var items := [Obj([Field("id", Leaf(Int(1))), Field("v", a)]), Obj([Field("id", Leaf(Int(-2))), Field("v", b)])];
      var once := SetPath(Arr(items), [Slot("1"), Key("v")], value);
      && TagOf(show, items[0], 0) == "1" && TagOf(show, items[1], 1) == "-2" && !OwnTag(show, items, 0) && !OwnTag(show, items, 1)
      && once.Some? && SetPath(once.value, [Slot("-2"), Key("v")], value) ==
        Some(Arr([Obj([Field("id", Leaf(Int(1))), Field("v", value)]), Obj([Field("id", Leaf(Int(-2))), Field("v", value)])]))
  {
    var left, right := Numbered(1, a), Numbered(-2, b);
    ReadsAs();
    NumberedBy(show, 1, a);
    NumberedBy(show, -2, b);
    NumberedBy(show, -2, value);
    WriteNumbered([left, right], 1, -2, b, "1", value);
    WriteNumbered([left, Numbered(-2, value)], 0, 1, a, "-2", value);
    assert [left, right][1 := Numbered(-2, value)] == [left, Numbered(-2, value)];
    assert [left, Numbered(-2, value)][0 := Numbered(1, value)] == [Numbered(1, value), Numbered(-2, value)];
    assert NoneKnown([left, right], "1") && NoneKnown([left, right], "-2") && NoneKnown([left, Numbered(-2, value)], "-2");
    KnownNowhere([left, right], "1");
    KnownNowhere([left, right], "-2");
  }

  function Numbered(id: int, v: Doc): Doc { Obj([Field("id", Leaf(Int(id))), Field("v", v)]) }

  predicate NoneKnown(items: seq<Doc>, name: string) {
    forall k :: 0 <= k < |items| ==> KeyValue(items[k]) != Some(Leaf(Text(name)))
  }

  lemma KnownNowhere(items: seq<Doc>, name: string)
    requires NoneKnown(items, name)
    ensures Known(items, name) == |items|
  {
  }

  lemma ReadsAs()
    ensures ParseInt("1") == Some(1) && ParseInt("-2") == Some(-2)
  {
    assert "-2"[1..] == "2";
    assert ParseDigits("1") == Some(1) && ParseDigits("2") == Some(2);
  }

  lemma NumberedBy(show: Doc -> string, id: int, v: Doc)
    requires id != 0
    ensures KeyValue(Numbered(id, v)) == Some(Leaf(Int(id)))
    ensures forall i: nat :: TagOf(show, Numbered(id, v), i) == show(Leaf(Int(id)))
  {
    AtIs(Numbered(id, v).fields, "id", 0);
  }

  lemma WriteNumbered(items: seq<Doc>, q: nat, id: int, v: Doc, tag: string, value: Doc)
    requires q < |items| && items[q] == Numbered(id, v) && NoneKnown(items, tag)
    requires ParseInt(tag) == Some(q) || ParseInt(tag) == Some(q - |items|)
    ensures SetPath(Arr(items), [Slot(tag), Key("v")], value) == Some(Arr(items[q := Numbered(id, value)]))
  {
    KnownNowhere(items, tag);
    var path := [Slot(tag), Key("v")];
    assert path[1..] == [Key("v")];
    AtIs(items[q].fields, "v", 1);
    assert Assign(items[q].fields, "v", value) == Numbered(id, value).fields;
  }

  /** An element whose id is the number 1, listed first: its tag is [1], and a write
      to its field v goes to the element at position 1. */
  lemma NumericIdMisdirects(show: Doc -> string, x: Doc, value: Doc)
    requires show(Leaf(Int(1))) == "1" && x.Obj? && KeyValue(x) != Some(Leaf(Text("1")))
    ensures var items := [Obj([Field("id", Leaf(Int(1))), Field("v", Leaf(Int(0)))]), x];
      && TagOf(show, items[0], 0) == "1" && !OwnTag(show, items, 0)
      && SetPath(Arr(items), [Slot("1"), Key("v")], value) == Some(Arr([items[0], Obj(Assign(x.fields, "v", value))]))
  {
    NumberedBy(show, 1, Leaf(Int(0)));
    ReadsAs();
    var items := [Numbered(1, Leaf(Int(0))), x];
    assert NoneKnown(items, "1");
    KnownNowhere(items, "1");
    var path := [Slot("1"), Key("v")];
    assert path[1..] == [Key("v")];
    assert items[1 := Obj(Assign(x.fields, "v", value))] == [items[0], Obj(Assign(x.fields, "v", value))];
  }
}
