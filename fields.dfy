/**
 * The field table an `Oot` device builds when it is constructed: per-class
 * `fields` dictionaries merged along the method resolution order (MRO),
 * overridden by `Field` class attributes, then sorted stably by `sequence`.
 *
 * A dictionary is a sequence of (name, descriptor) entries in insertion
 * order; an MRO is a sequence of layers, most-derived class first.
 */
module FieldTable {
  import opened Wrappers
  import opened Json

  /** The `sequence` a descriptor without one sorts by. */
  const DEFAULT_SEQUENCE: int := 10

  /** A generated field descriptor: its `sequence`, if any, and the rest of its schema. */
  datatype Descriptor = Descriptor(sequence: Option<int>, schema: map<string, Value>)

  type Entry = (string, Descriptor)

  /**
   * One class of the MRO: whether `Oot` is among its ancestors, and what
   * `clss.fields` resolves to. That lookup follows inheritance: a class with
   * no `fields` of its own repeats the one it inherits, which may come from a
   * base that does not derive from `Oot`.
   */
  datatype Layer = Layer(derivesFromOot: bool, fields: seq<Entry>)

  function Names(t: seq<Entry>): set<string> {
    set e | e in t :: e.0
  }

  /** Lookup by name: the first entry with that name. */
  function Find(t: seq<Entry>, name: string): Option<Descriptor> {
    if t == [] then None
    else if t[0].0 == name then Some(t[0].1)
    else Find(t[1..], name)
  }

  /** No name occurs twice, as in a dictionary. */
  predicate DistinctNames(t: seq<Entry>) {
    forall i, j :: 0 <= i < j < |t| ==> t[i].0 != t[j].0
  }

  lemma {:induction false} FindIffNamed(t: seq<Entry>, name: string)
    ensures Find(t, name).Some? <==> name in Names(t)
  {
    if t != [] {
      FindIffNamed(t[1..], name);
      assert Names(t) == {t[0].0} + Names(t[1..]) by {
        assert forall e :: e in t <==> e == t[0] || e in t[1..];
      }
    }
  }

  lemma {:induction false} FindAppend(t: seq<Entry>, e: Entry, name: string)
    ensures Find(t + [e], name) ==
      if Find(t, name).Some? then Find(t, name)
      else if e.0 == name then Some(e.1) else None
  {
    if t != [] {
      assert (t + [e])[1..] == t[1..] + [e];
      FindAppend(t[1..], e, name);
    }
  }

  lemma NamesAppend(t: seq<Entry>, e: Entry)
    ensures Names(t + [e]) == Names(t) + {e.0}
  {
    assert forall x :: x in t + [e] <==> x in t || x == e;
  }

  lemma DistinctAppend(t: seq<Entry>, e: Entry)
    requires DistinctNames(t) && e.0 !in Names(t)
    ensures DistinctNames(t + [e])
  {
    forall i, j | 0 <= i < j < |t + [e]| ensures (t + [e])[i].0 != (t + [e])[j].0 {
      if j == |t| {
        assert t[i] in t;
      }
    }
  }

  lemma NamesCons(x: Entry, t: seq<Entry>)
    ensures Names([x] + t) == {x.0} + Names(t)
  {
    assert forall e :: e in [x] + t <==> e == x || e in t;
  }

  lemma DistinctCons(x: Entry, t: seq<Entry>)
    ensures DistinctNames([x] + t) <==> x.0 !in Names(t) && DistinctNames(t)
  {
    var s := [x] + t;
    assert s[1..] == t;
    if DistinctNames(s) {
      forall k | 0 <= k < |t| ensures t[k].0 != x.0 {
        assert s[0] == x && s[k + 1] == t[k];
      }
      forall i, j | 0 <= i < j < |t| ensures t[i].0 != t[j].0 {
        assert s[i + 1] == t[i] && s[j + 1] == t[j];
      }
    }
    if x.0 !in Names(t) && DistinctNames(t) {
      forall i, j | 0 <= i < j < |s| ensures s[i].0 != s[j].0 {
        if i == 0 {
          assert s[j] == t[j - 1];
          assert t[j - 1] in t;
        } else {
          assert s[i] == t[i - 1] && s[j] == t[j - 1];
        }
      }
    }
  }

  // ---------------------------------------------------------------------------
  // Merging the class-level `fields` dictionaries along the MRO

  /** Adds, in order, every entry whose name is not yet in `t`: `if key not in fields`. */
  function AddAbsent(t: seq<Entry>, entries: seq<Entry>): seq<Entry>
    decreases |entries|
  {
    if entries == [] then t
    else AddAbsent(if entries[0].0 in Names(t) then t else t + [entries[0]], entries[1..])
  }

  /** Folds the layers into `t`, skipping every class that does not derive from `Oot`. */
  function MergeFrom(t: seq<Entry>, mro: seq<Layer>): seq<Entry>
    decreases |mro|
  {
    if mro == [] then t
    else MergeFrom(if mro[0].derivesFromOot then AddAbsent(t, mro[0].fields) else t, mro[1..])
  }

  function Merged(mro: seq<Layer>): seq<Entry> {
    MergeFrom([], mro)
  }

  /** The merge loop of the constructor. */
  method MergeLayers(mro: seq<Layer>) returns (fields: seq<Entry>)
    ensures fields == Merged(mro)
  {
    fields := [];
    for i := 0 to |mro|
      invariant MergeFrom(fields, mro[i..]) == Merged(mro)
    {
      assert mro[i..][1..] == mro[i + 1..];
      if mro[i].derivesFromOot {
        var declared := mro[i].fields;
        for j := 0 to |declared|
          invariant MergeFrom(AddAbsent(fields, declared[j..]), mro[i + 1..]) == Merged(mro)
        {
          assert declared[j..][1..] == declared[j + 1..];
          if declared[j].0 !in Names(fields) {
            fields := fields + [declared[j]];
          }
        }
      }
    }
  }

  /** Reference reading: the first class in MRO order that derives from `Oot` and declares `name`. */
  function Declared(mro: seq<Layer>, name: string): Option<Descriptor>
    decreases |mro|
  {
    if mro == [] then None
    else if mro[0].derivesFromOot && name in Names(mro[0].fields) then Find(mro[0].fields, name)
    else Declared(mro[1..], name)
  }

  /** Every name some `Oot`-derived class declares. */
  function OotNames(mro: seq<Layer>): set<string>
    decreases |mro|
  {
    if mro == [] then {}
    else (if mro[0].derivesFromOot then Names(mro[0].fields) else {}) + OotNames(mro[1..])
  }

  lemma {:induction false} AddAbsentMeaning(t: seq<Entry>, entries: seq<Entry>, name: string)
    ensures Find(AddAbsent(t, entries), name) ==
      if name in Names(t) then Find(t, name) else Find(entries, name)
    ensures Names(AddAbsent(t, entries)) == Names(t) + Names(entries)
    ensures DistinctNames(t) ==> DistinctNames(AddAbsent(t, entries))
    decreases |entries|
  {
    FindIffNamed(t, name);
    if entries != [] {
      var e := entries[0];
      var t' := if e.0 in Names(t) then t else t + [e];
      AddAbsentMeaning(t', entries[1..], name);
      FindIffNamed(t', name);
      FindIffNamed(entries[1..], name);
      if e.0 !in Names(t) {
        FindAppend(t, e, name);
        NamesAppend(t, e);
        if DistinctNames(t) {
          DistinctAppend(t, e);
        }
      }
      assert Names(entries) == {e.0} + Names(entries[1..]) by {
        assert forall x :: x in entries <==> x == e || x in entries[1..];
      }
    }
  }

  lemma {:induction false} MergeFromMeaning(t: seq<Entry>, mro: seq<Layer>, name: string)
    ensures Find(MergeFrom(t, mro), name) ==
      if name in Names(t) then Find(t, name) else Declared(mro, name)
    ensures Names(MergeFrom(t, mro)) == Names(t) + OotNames(mro)
    ensures DistinctNames(t) ==> DistinctNames(MergeFrom(t, mro))
    decreases |mro|
  {
    FindIffNamed(t, name);
    if mro != [] {
      var t' := if mro[0].derivesFromOot then AddAbsent(t, mro[0].fields) else t;
      assert MergeFrom(t, mro) == MergeFrom(t', mro[1..]);
      MergeFromMeaning(t', mro[1..], name);
      if mro[0].derivesFromOot {
        AddAbsentMeaning(t, mro[0].fields, name);
        FindIffNamed(mro[0].fields, name);
        assert Find(MergeFrom(t, mro), name) ==
          (if name in Names(t) then Find(t, name) else Declared(mro, name));
      } else {
        assert Find(MergeFrom(t, mro), name) ==
          (if name in Names(t) then Find(t, name) else Declared(mro, name));
      }
    }
  }

  /**
   * Most-derived wins: the merged table holds exactly the names declared by
   * `Oot`-derived classes, once each, and each name's descriptor comes from
   * the first such class in MRO order that declares it.
   */
  lemma MergedMostDerivedWins(mro: seq<Layer>)
    ensures forall name :: Find(Merged(mro), name) == Declared(mro, name)
    ensures Names(Merged(mro)) == OotNames(mro)
    ensures DistinctNames(Merged(mro))
  {
    forall name ensures Find(Merged(mro), name) == Declared(mro, name) {
      MergeFromMeaning([], mro, name);
    }
    MergeFromMeaning([], mro, "");
  }

  /** A dictionary built from entries; the first entry of a name wins. */
  function DictOf(entries: seq<Entry>): map<string, Descriptor> {
    if entries == [] then map[] else DictOf(entries[1..])[entries[0].0 := entries[0].1]
  }

  /**
   * The same merge read the other way round: fold the layers from the most
   * general class to the most derived one, each overwriting what came before.
   */
  function FoldFromBase(mro: seq<Layer>): map<string, Descriptor>
    decreases |mro|
  {
    if mro == [] then map[]
    else if mro[0].derivesFromOot then FoldFromBase(mro[1..]) + DictOf(mro[0].fields)
    else FoldFromBase(mro[1..])
  }

  lemma {:induction false} DictOfFind(entries: seq<Entry>, name: string)
    ensures name in DictOf(entries) <==> name in Names(entries)
    ensures name in DictOf(entries) ==> Find(entries, name) == Some(DictOf(entries)[name])
  {
    FindIffNamed(entries, name);
    if entries != [] {
      DictOfFind(entries[1..], name);
      FindIffNamed(entries[1..], name);
    }
  }

  lemma {:induction false} FoldAgreesWithDeclared(mro: seq<Layer>, name: string)
    ensures Declared(mro, name) ==
      if name in FoldFromBase(mro) then Some(FoldFromBase(mro)[name]) else None
    decreases |mro|
  {
    if mro != [] {
      FoldAgreesWithDeclared(mro[1..], name);
      if mro[0].derivesFromOot {
        DictOfFind(mro[0].fields, name);
      }
    }
  }

  /** The first-wins scan over the MRO and the overwriting fold from the base agree. */
  lemma MergedAgreesWithFold(mro: seq<Layer>)
    ensures forall name ::
              Find(Merged(mro), name) ==
              (if name in FoldFromBase(mro) then Some(FoldFromBase(mro)[name]) else None)
  {
    MergedMostDerivedWins(mro);
    forall name ensures Declared(mro, name) ==
      if name in FoldFromBase(mro) then Some(FoldFromBase(mro)[name]) else None
    {
      FoldAgreesWithDeclared(mro, name);
    }
  }

  // ---------------------------------------------------------------------------
  // `Field` class attributes override the merged entries

  /** `fields[name] = d`: replaces the value in place, or appends a new entry. */
  function Assign(t: seq<Entry>, name: string, d: Descriptor): seq<Entry> {
    if t == [] then [(name, d)]
    else if t[0].0 == name then [(name, d)] + t[1..]
    else [t[0]] + Assign(t[1..], name, d)
  }

  function AssignAll(t: seq<Entry>, attributes: seq<Entry>): seq<Entry>
    decreases |attributes|
  {
    if attributes == [] then t
    else AssignAll(Assign(t, attributes[0].0, attributes[0].1), attributes[1..])
  }

  /** The override loop of the constructor, over the pre-generated `(attr, item.generate())` pairs. */
  method ApplyFieldAttributes(fields: seq<Entry>, attributes: seq<Entry>) returns (r: seq<Entry>)
    ensures r == AssignAll(fields, attributes)
  {
    r := fields;
    for i := 0 to |attributes|
      invariant AssignAll(r, attributes[i..]) == AssignAll(fields, attributes)
    {
      assert attributes[i..][1..] == attributes[i + 1..];
      r := Assign(r, attributes[i].0, attributes[i].1);
    }
  }

  lemma {:induction false} AssignMeaning(t: seq<Entry>, name: string, d: Descriptor, other: string)
    ensures Find(Assign(t, name, d), other) == (if other == name then Some(d) else Find(t, other))
    ensures Names(Assign(t, name, d)) == Names(t) + {name}
    ensures DistinctNames(t) ==> DistinctNames(Assign(t, name, d))
  {
    if t != [] {
      AssignMeaning(t[1..], name, d, other);
      assert t == [t[0]] + t[1..];
      NamesCons(t[0], t[1..]);
      DistinctCons(t[0], t[1..]);
      if t[0].0 == name {
        NamesCons((name, d), t[1..]);
        DistinctCons((name, d), t[1..]);
      } else {
        var rest := Assign(t[1..], name, d);
        NamesCons(t[0], rest);
        DistinctCons(t[0], rest);
      }
    }
  }

  /**
   * Every `Field` attribute overrides the merged entry of its name (or adds
   * one); names no attribute carries keep their merged descriptor.
   */
  lemma {:induction false} AttributesOverride(t: seq<Entry>, attributes: seq<Entry>, name: string)
    requires DistinctNames(attributes)
    ensures Find(AssignAll(t, attributes), name) ==
      (if name in Names(attributes) then Find(attributes, name) else Find(t, name))
    ensures Names(AssignAll(t, attributes)) == Names(t) + Names(attributes)
    ensures DistinctNames(t) ==> DistinctNames(AssignAll(t, attributes))
    decreases |attributes|
  {
    FindIffNamed(attributes, name);
    if attributes != [] {
      var a := attributes[0];
      AssignMeaning(t, a.0, a.1, name);
      AttributesOverride(Assign(t, a.0, a.1), attributes[1..], name);
      FindIffNamed(attributes[1..], name);
      assert attributes == [a] + attributes[1..];
      NamesCons(a, attributes[1..]);
      DistinctCons(a, attributes[1..]);
    }
  }

  // ---------------------------------------------------------------------------
  // The final ordering of the table: a stable sort of the entries by their
  // `sequence`, where an entry without one sorts as 10.

  function SortKey(e: Entry): int {
    e.1.sequence.GetOr(DEFAULT_SEQUENCE)
  }

  predicate SortedBySequence(t: seq<Entry>) {
    forall i, j :: 0 <= i < j < |t| ==> SortKey(t[i]) <= SortKey(t[j])
  }

  /** The entries with sort key `k`, in their order. */
  function WithKey(t: seq<Entry>, k: int): seq<Entry> {
    if t == [] then []
    else (if SortKey(t[0]) == k then [t[0]] else []) + WithKey(t[1..], k)
  }

  /** Inserts `e` before the first entry whose key is not smaller. */
  function InsertBySequence(e: Entry, t: seq<Entry>): seq<Entry> {
    if t == [] then [e]
    else if SortKey(e) <= SortKey(t[0]) then [e] + t
    else [t[0]] + InsertBySequence(e, t[1..])
  }

  /** A stable sort by `SortKey` (Python's `sorted` is stable). */
  function SortBySequence(t: seq<Entry>): seq<Entry> {
    if t == [] then [] else InsertBySequence(t[0], SortBySequence(t[1..]))
  }

  lemma {:induction false} InsertKeepsSorted(e: Entry, t: seq<Entry>)
    requires SortedBySequence(t)
    ensures SortedBySequence(InsertBySequence(e, t))
    ensures InsertBySequence(e, t) != []
    ensures SortKey(InsertBySequence(e, t)[0]) == SortKey(e) || (t != [] && InsertBySequence(e, t)[0] == t[0])
  {
    if t != [] && SortKey(e) > SortKey(t[0]) {
      var rest := InsertBySequence(e, t[1..]);
      InsertKeepsSorted(e, t[1..]);
      var r := [t[0]] + rest;
      forall i, j | 0 <= i < j < |r| ensures SortKey(r[i]) <= SortKey(r[j]) {
        if i == 0 {
          if j == 1 {
            assert r[1] == rest[0];
            assert SortKey(rest[0]) == SortKey(e) || rest[0] == t[1];
          } else {
            assert r[1] == rest[0] && r[j] == rest[j - 1];
          }
        } else {
          assert r[i] == rest[i - 1] && r[j] == rest[j - 1];
        }
      }
    }
  }

  lemma {:induction false} InsertIsPermutation(e: Entry, t: seq<Entry>)
    ensures multiset(InsertBySequence(e, t)) == multiset(t) + multiset{e}
  {
    if t != [] && SortKey(e) > SortKey(t[0]) {
      InsertIsPermutation(e, t[1..]);
      assert t == [t[0]] + t[1..];
    }
  }

  lemma {:induction false} InsertKeepsKeyOrder(e: Entry, t: seq<Entry>, k: int)
    ensures WithKey(InsertBySequence(e, t), k) ==
      (if SortKey(e) == k then [e] + WithKey(t, k) else WithKey(t, k))
  {
    if t == [] {
    } else if SortKey(e) <= SortKey(t[0]) {
      assert ([e] + t)[1..] == t;
    } else {
      var rest := InsertBySequence(e, t[1..]);
      InsertKeepsKeyOrder(e, t[1..], k);
      assert ([t[0]] + rest)[1..] == rest;
    }
  }

  /**
   * The sort is a stable ascending sort: ordered by `sequence` (10 when
   * absent), a permutation of its input, and entries with equal keys keep
   * their relative order.
   */
  lemma {:induction false} SortIsStable(t: seq<Entry>)
    ensures SortedBySequence(SortBySequence(t))
    ensures multiset(SortBySequence(t)) == multiset(t)
    ensures forall k :: WithKey(SortBySequence(t), k) == WithKey(t, k)
  {
    if t != [] {
      var rest := SortBySequence(t[1..]);
      SortIsStable(t[1..]);
      InsertKeepsSorted(t[0], rest);
      InsertIsPermutation(t[0], rest);
      assert t == [t[0]] + t[1..];
      forall k ensures WithKey(SortBySequence(t), k) == WithKey(t, k) {
        InsertKeepsKeyOrder(t[0], rest, k);
      }
    }
  }

  lemma {:induction false} WithKeyMembers(t: seq<Entry>, k: int)
    ensures forall x :: x in WithKey(t, k) ==> x in t && SortKey(x) == k
    ensures forall x :: x in t && SortKey(x) == k ==> x in WithKey(t, k)
  {
    if t != [] {
      WithKeyMembers(t[1..], k);
      assert forall x :: x in t <==> x == t[0] || x in t[1..];
    }
  }

  lemma HeadKeyPresent(t: seq<Entry>)
    requires t != []
    ensures WithKey(t, SortKey(t[0])) != []
  {
  }

  lemma SortedHeadIsLeast(t: seq<Entry>, x: Entry)
    requires SortedBySequence(t) && x in t
    ensures SortKey(t[0]) <= SortKey(x)
  {
    var i :| 0 <= i < |t| && t[i] == x;
    assert i == 0 || SortKey(t[0]) <= SortKey(t[i]);
  }

  lemma SortedSameHead(u: seq<Entry>, s: seq<Entry>)
    requires u != [] && s != []
    requires SortedBySequence(u) && SortedBySequence(s)
    requires forall k :: WithKey(u, k) == WithKey(s, k)
    ensures u[0] == s[0]
  {
    var a, b := SortKey(u[0]), SortKey(s[0]);
    WithKeyMembers(u, b);
    WithKeyMembers(s, a);
    assert WithKey(u, a) == [u[0]] + WithKey(u[1..], a);
    assert WithKey(s, b) == [s[0]] + WithKey(s[1..], b);
    assert WithKey(s, a) == WithKey(u, a);
    assert WithKey(u, b) == WithKey(s, b);
    SortedHeadIsLeast(s, WithKey(s, a)[0]);
    SortedHeadIsLeast(u, WithKey(u, b)[0]);
    assert WithKey(u, a)[0] == WithKey(s, a)[0];
  }

  lemma TailsSameKeyClasses(u: seq<Entry>, s: seq<Entry>)
    requires u != [] && s != [] && u[0] == s[0]
    requires forall k :: WithKey(u, k) == WithKey(s, k)
    ensures forall k :: WithKey(u[1..], k) == WithKey(s[1..], k)
  {
    forall k ensures WithKey(u[1..], k) == WithKey(s[1..], k) {
      var x := if SortKey(u[0]) == k then [u[0]] else [];
      assert WithKey(u, k) == x + WithKey(u[1..], k);
      assert WithKey(s, k) == x + WithKey(s[1..], k);
      assert (x + WithKey(u[1..], k))[|x|..] == WithKey(u[1..], k);
      assert (x + WithKey(s[1..], k))[|x|..] == WithKey(s[1..], k);
    }
  }

  lemma {:induction false} SameKeyClassesSameSequence(u: seq<Entry>, s: seq<Entry>)
    requires SortedBySequence(u) && SortedBySequence(s)
    requires forall k :: WithKey(u, k) == WithKey(s, k)
    ensures u == s
    decreases |u| + |s|
  {
    if u == [] || s == [] {
      if u != [] {
        HeadKeyPresent(u);
      }
      if s != [] {
        HeadKeyPresent(s);
      }
    } else {
      SortedSameHead(u, s);
      TailsSameKeyClasses(u, s);
      SameKeyClassesSameSequence(u[1..], s[1..]);
      assert u == [u[0]] + u[1..] && s == [s[0]] + s[1..];
    }
  }

  /**
   * Any stable sort by `sequence` yields exactly `SortBySequence`: an ordered
   * arrangement that keeps each key's entries in their input order is unique.
   */
  lemma StableSortIsUnique(t: seq<Entry>, u: seq<Entry>)
    requires SortedBySequence(u)
    requires forall k :: WithKey(u, k) == WithKey(t, k)
    ensures u == SortBySequence(t)
  {
    SortIsStable(t);
    SameKeyClassesSameSequence(u, SortBySequence(t));
  }

  lemma {:induction false} InsertKeepsLookup(e: Entry, t: seq<Entry>, name: string)
    ensures Names(InsertBySequence(e, t)) == Names(t) + {e.0}
    ensures e.0 !in Names(t) ==>
      Find(InsertBySequence(e, t), name) == (if name == e.0 then Some(e.1) else Find(t, name))
    ensures e.0 !in Names(t) && DistinctNames(t) ==> DistinctNames(InsertBySequence(e, t))
  {
    if t == [] {
      NamesCons(e, []);
    } else {
      assert t == [t[0]] + t[1..];
      NamesCons(t[0], t[1..]);
      DistinctCons(t[0], t[1..]);
      FindIffNamed(t, name);
      if SortKey(e) <= SortKey(t[0]) {
        NamesCons(e, t);
        DistinctCons(e, t);
      } else {
        var rest := InsertBySequence(e, t[1..]);
        InsertKeepsLookup(e, t[1..], name);
        NamesCons(t[0], rest);
        DistinctCons(t[0], rest);
      }
    }
  }

  lemma {:induction false} SortKeepsLookup(t: seq<Entry>, name: string)
    requires DistinctNames(t)
    ensures Find(SortBySequence(t), name) == Find(t, name)
    ensures Names(SortBySequence(t)) == Names(t)
    ensures DistinctNames(SortBySequence(t))
  {
    if t != [] {
      assert t == [t[0]] + t[1..];
      NamesCons(t[0], t[1..]);
      DistinctCons(t[0], t[1..]);
      SortKeepsLookup(t[1..], name);
      InsertKeepsLookup(t[0], SortBySequence(t[1..]), name);
    }
  }

  // ---------------------------------------------------------------------------
  // The whole table

  /** `self._fields`: merged, overridden, then sorted. */
  function FieldTableOf(mro: seq<Layer>, attributes: seq<Entry>): seq<Entry> {
    SortBySequence(AssignAll(Merged(mro), attributes))
  }

  /**
   * The table holds every name declared by an `Oot`-derived class or a
   * `Field` attribute, once; a `Field` attribute decides its name's
   * descriptor, otherwise the most-derived declaring class does; entries are
   * ordered by `sequence`, ties in merge order.
   */
  lemma FieldTableContents(mro: seq<Layer>, attributes: seq<Entry>)
    requires DistinctNames(attributes)
    ensures DistinctNames(FieldTableOf(mro, attributes))
    ensures Names(FieldTableOf(mro, attributes)) == OotNames(mro) + Names(attributes)
    ensures forall name ::
              Find(FieldTableOf(mro, attributes), name) ==
              (if name in Names(attributes) then Find(attributes, name) else Declared(mro, name))
    ensures SortedBySequence(FieldTableOf(mro, attributes))
    ensures forall k ::
              WithKey(FieldTableOf(mro, attributes), k) == WithKey(AssignAll(Merged(mro), attributes), k)
  {
    var merged := Merged(mro);
    var overridden := AssignAll(merged, attributes);
    MergedMostDerivedWins(mro);
    AttributesOverride(merged, attributes, "");
    SortKeepsLookup(overridden, "");
    SortIsStable(overridden);
    forall name ensures Find(FieldTableOf(mro, attributes), name) ==
      if name in Names(attributes) then Find(attributes, name) else Declared(mro, name)
    {
      AttributesOverride(merged, attributes, name);
      SortKeepsLookup(overridden, name);
    }
  }
}
