/**
 Removing the rows of an example bundle (example_bundle._validated_owned_resources,
 _remove): the bundle must own them, unmodified and not adopted by other rows,
 and no reference dangles after any of the deletions.
 */
module ExampleRemoval {
  import opened Wrappers
  import opened DeletionOrder

  datatype Row = Row(model: Model, pk: nat)

  /** A row's content, by its fingerprint, and the rows its foreign keys name. */
  datatype Record = Record(fingerprint: nat, refs: set<Row>)

  datatype Entry = Entry(model: Model, pk: nat, fingerprint: nat)

  datatype Ownership = Ownership(version: int, resources: seq<Entry>)

  type Rows = map<Row, Record>

  /** What the database guarantees: every foreign key names a row that exists. */
  ghost predicate NoDangling(rows: Rows) {
    forall r, t :: r in rows && t in rows[r].refs ==> t in rows
  }

  ghost predicate FitsSchema(schema: Schema, rows: Rows) {
    forall r, t :: r in rows && t in rows[r].refs ==> r.model in schema && t.model in schema[r.model]
  }

  function RowOf(e: Entry): Row { Row(e.model, e.pk) }

  predicate Unmodified(rows: Rows, allowed: set<Model>, e: Entry) {
    e.model in allowed && RowOf(e) in rows && rows[RowOf(e)].fingerprint == e.fingerprint
  }

  ghost predicate ListedOnce(entries: seq<Entry>) {
    forall i, j :: 0 <= i < j < |entries| ==> RowOf(entries[i]) != RowOf(entries[j])
  }

  function Owned(entries: seq<Entry>): set<Row> { set e | e in entries :: RowOf(e) }

  /** Another row has come to depend on an owned one. */
  ghost predicate Adopted(rows: Rows, owned: set<Row>) {
    exists r, t :: r in rows && r !in owned && t in rows[r].refs && t in owned
  }

  ghost predicate Removable(rows: Rows, allowed: set<Model>, m: Ownership) {
    && m.version == 1 && m.resources != []
    && (forall e :: e in m.resources ==> Unmodified(rows, allowed, e)) && ListedOnce(m.resources)
    && !Adopted(rows, Owned(m.resources))
  }

  function ModelsOf(owned: set<Row>): set<Model> { set r | r in owned :: r.model }

  method Validate(rows: Rows, allowed: set<Model>, m: Ownership) returns (r: Result<set<Row>, string>)
    ensures r.Ok? <==> Removable(rows, allowed, m)
    ensures r.Ok? ==> r.value == Owned(m.resources)
  {
    hide Unmodified, Adopted, ListedOnce, Owned;
    if m.version != 1 { return Err("Unsupported example ownership manifest; no rows were deleted."); }
    var checked := CheckEntries(rows, allowed, m.resources);
    if checked.Err? { return checked; }
    if checked.value == {} { return Err("Empty ownership manifest; operation refused."); }
    var adopted := FindAdopter(rows, checked.value);
    if adopted { return Err("Examples are referenced by non-example rows; operation refused."); }
    return checked;
  }

  method CheckEntries(rows: Rows, allowed: set<Model>, entries: seq<Entry>) returns (r: Result<set<Row>, string>)
    ensures r.Ok? <==> (forall e :: e in entries ==> Unmodified(rows, allowed, e)) && ListedOnce(entries)
    ensures r.Ok? ==> r.value == Owned(entries) && (r.value == {} <==> entries == [])
  {
    hide Unmodified;
    var owned: set<Row> := {};
    var i := 0;
    while i < |entries|
      invariant 0 <= i <= |entries|
      invariant forall k :: 0 <= k < i ==> Unmodified(rows, allowed, entries[k])
      invariant ListedOnce(entries[..i])
      invariant owned == Owned(entries[..i]) && (owned == {} ==> i == 0)
    {
      var entry := entries[i];
      if !Unmodified(rows, allowed, entry) {
        assert entry in entries;
        return Err("Unknown, missing or modified example resource; operation refused.");
      }
      if RowOf(entry) in owned {
        Repeated(entries, i);
        return Err("Duplicate ownership entry; operation refused.");
      }
      OwnedGrows(entries, i);
      owned := owned + {RowOf(entry)};
      i := i + 1;
    }
    assert entries[..i] == entries;
    return Ok(owned);
  }

  lemma Repeated(entries: seq<Entry>, i: nat)
    requires i < |entries| && RowOf(entries[i]) in Owned(entries[..i])
    ensures !ListedOnce(entries)
  {
    var e :| e in entries[..i] && RowOf(e) == RowOf(entries[i]);
    var k :| 0 <= k < i && entries[k] == e;
    assert RowOf(entries[k]) == RowOf(entries[i]);
  }

  lemma OwnedGrows(entries: seq<Entry>, i: nat)
    requires i < |entries| && ListedOnce(entries[..i]) && RowOf(entries[i]) !in Owned(entries[..i])
    ensures Owned(entries[..i + 1]) == Owned(entries[..i]) + {RowOf(entries[i])}
    ensures ListedOnce(entries[..i + 1])
  {
    assert entries[..i + 1] == entries[..i] + [entries[i]];
    forall k | 0 <= k < i ensures RowOf(entries[..i][k]) in Owned(entries[..i]) {}
    forall r | r in Owned(entries[..i]) ensures r in Owned(entries[..i + 1]) {
      var e :| e in entries[..i] && RowOf(e) == r;
      assert e in entries[..i + 1];
    }
    assert entries[i] in entries[..i + 1];
  }

  method FindAdopter(rows: Rows, owned: set<Row>) returns (found: bool)
    ensures found <==> Adopted(rows, owned)
  {
    var rest := rows.Keys;
    while rest != {}
      invariant rest <= rows.Keys
      invariant forall r, t :: r in rows && r !in rest && r !in owned && t in rows[r].refs ==> t !in owned
      decreases |rest|
    {
      var r :| r in rest;
      if r !in owned && rows[r].refs * owned != {} {
        var t :| t in rows[r].refs * owned;
        return true;
      }
      assert r !in owned ==> forall t :: t in rows[r].refs ==> t !in rows[r].refs * owned;
      rest := rest - {r};
    }
    return false;
  }

  // ----- Deleting, model by model -----

  /** What is left when the owned rows of the first `i` models of the order are gone. */
  ghost function Left(rows: Rows, owned: set<Row>, order: seq<Model>, i: nat): Rows
    requires i <= |order|
  {
    map r | r in rows && !(r in owned && r.model in order[..i]) :: rows[r]
  }

  lemma LeftHasNoDangling(schema: Schema, rows: Rows, owned: set<Row>, order: seq<Model>, i: nat)
    requires NoDangling(rows) && FitsSchema(schema, rows) && !Adopted(rows, owned) && i <= |order|
    requires Elems(order) == ModelsOf(owned) && Distinct(order) && ChildrenFirst(schema, order)
    ensures NoDangling(Left(rows, owned, order, i))
  {
    var left := Left(rows, owned, order, i);
    forall r, t | r in left && t in left[r].refs ensures t in left {
      assert t in rows;
      if t in owned {
        assert r in owned;
        assert r.model in Elems(order) && t.model in Elems(order);
        var k :| 0 <= k < |order| && order[k] == r.model;
        var j :| 0 <= j < |order| && order[j] == t.model;
        assert forall n :: 0 <= n < i ==> order[n] == order[..i][n];
        assert k >= i;
        assert r.model != t.model ==> PointsAt(schema, order[k], order[j]);
        assert j >= i;
        forall n | 0 <= n < i ensures order[..i][n] != t.model { assert n != j; }
      }
    }
  }

  /** A model that is still to be emptied has a row to delete. */
  lemma StillThere(rows: Rows, owned: set<Row>, order: seq<Model>, i: nat)
    requires i < |order| && Distinct(order) && Elems(order) == ModelsOf(owned) && owned <= rows.Keys
    ensures HoldsRows(Left(rows, owned, order, i), owned, order[i])
  {
    assert order[i] in Elems(order);
    var r :| r in owned && r.model == order[i];
    forall n | 0 <= n < i ensures order[..i][n] != r.model {}
    assert r in Left(rows, owned, order, i);
  }

  ghost predicate HoldsRows(rows: Rows, owned: set<Row>, model: Model) {
    exists r :: r in rows && r in owned && r.model == model
  }

  class ExampleRows {
    /** The models whose tables carry a trigger that refuses every deletion. */
    const appendOnly: set<Model>
    var rows: Rows
    ghost var states: seq<Rows>

    constructor (appendOnly: set<Model>, rows: Rows)
      ensures this.appendOnly == appendOnly && this.rows == rows && states == []
    {
      this.appendOnly, this.rows, states := appendOnly, rows, [];
    }

    method DeleteRows(owned: set<Row>, model: Model) returns (done: bool)
      modifies this
      ensures done <==> !(model in appendOnly && HoldsRows(old(rows), owned, model))
      ensures done ==> rows == map r | r in old(rows) && !(r in owned && r.model == model) :: old(rows)[r]
      ensures done ==> states == old(states) + [rows]
      ensures !done ==> rows == old(rows) && states == old(states)
    {
      var doomed := set r | r in rows && r in owned && r.model == model;
      if model in appendOnly && doomed != {} {
        var r :| r in doomed;
        return false;
      }
      assert forall r :: r in rows && r in owned && r.model == model ==> r in doomed;
      rows := map r | r in rows && !(r in owned && r.model == model) :: rows[r];
      states := states + [rows];
      return true;
    }

    /**
     All the owned rows go, or nothing does: a refused deletion takes back the
     ones before it. The states between two deletions are inside the
     transaction; no reference dangles in any of them.
     */
    method Remove(schema: Schema, allowed: set<Model>, m: Ownership) returns (r: Result<nat, string>)
      requires NoDangling(rows) && FitsSchema(schema, rows)
      modifies this
      ensures r.Ok? <==>
                && Removable(old(rows), allowed, m) && !Cyclic(schema, ModelsOf(Owned(m.resources)))
                && ModelsOf(Owned(m.resources)) !! appendOnly
      ensures r.Err? ==> rows == old(rows)
      ensures !Removable(old(rows), allowed, m) || Cyclic(schema, ModelsOf(Owned(m.resources))) ==> states == old(states)
      ensures r.Ok? ==> r.value == |Owned(m.resources)| && rows == old(rows) - Owned(m.resources)
      ensures old(states) <= states && forall k :: |old(states)| <= k < |states| ==> NoDangling(states[k])
    {
      var validated := Validate(rows, allowed, m);
      if validated.Err? { return Err(validated.error); }
      var owned := validated.value;
      OwnedAreThere(rows, allowed, m.resources);
      var ordered := OwnedDeletionOrder(schema, ModelsOf(owned));
      if ordered.Err? { return Err(ordered.error); }
      var order := ordered.value;
      var before := rows;
      hide Cyclic, Adopted, ChildrenFirst, Distinct, NoDangling, FitsSchema, ByRounds, Unmodified, ListedOnce, Elems, ModelsOf, HoldsRows, Owned;
      var i := 0;
      while i < |order|
        invariant 0 <= i <= |order|
        invariant rows == Left(old(rows), owned, order, i)
        invariant forall k :: 0 <= k < i ==> order[k] !in appendOnly
        invariant old(states) <= states && forall k :: |old(states)| <= k < |states| ==> NoDangling(states[k])
      {
        LeftHasNoDangling(schema, old(rows), owned, order, i + 1);
        OneMore(old(rows), owned, order, i);
        StillThere(old(rows), owned, order, i);
        var done := DeleteRows(owned, order[i]);
        if !done {
          InOrder(owned, order, i);
          rows := before;
          states := states + [rows];
          return Err("append-only");
        }
        i := i + 1;
      }
      AllGone(old(rows), owned, order);
      NoneAppendOnly(owned, order, appendOnly);
      return Ok(|owned|);
    }
  }

  lemma OwnedAreThere(rows: Rows, allowed: set<Model>, entries: seq<Entry>)
    requires forall e :: e in entries ==> Unmodified(rows, allowed, e)
    ensures Owned(entries) <= rows.Keys
  {
  }

  lemma InOrder(owned: set<Row>, order: seq<Model>, i: nat)
    requires i < |order| && Elems(order) == ModelsOf(owned)
    ensures order[i] in ModelsOf(owned)
  {
    assert order[i] in Elems(order);
  }

  lemma NoneAppendOnly(owned: set<Row>, order: seq<Model>, appendOnly: set<Model>)
    requires Elems(order) == ModelsOf(owned) && forall k :: 0 <= k < |order| ==> order[k] !in appendOnly
    ensures ModelsOf(owned) !! appendOnly
  {
    forall m | m in ModelsOf(owned) ensures m !in appendOnly { assert m in Elems(order); }
  }

  lemma OneMore(rows: Rows, owned: set<Row>, order: seq<Model>, i: nat)
    requires i < |order|
    ensures var left := Left(rows, owned, order, i);
            Left(rows, owned, order, i + 1) == map r | r in left && !(r in owned && r.model == order[i]) :: left[r]
  {
    assert order[..i + 1] == order[..i] + [order[i]];
  }

  lemma AllGone(rows: Rows, owned: set<Row>, order: seq<Model>)
    requires Elems(order) == ModelsOf(owned)
    ensures Left(rows, owned, order, |order|) == rows - owned
  {
    assert order[..|order|] == order;
    forall r | r in owned ensures r.model in order { assert r.model in Elems(order); }
  }

  // ----- A bundle with an activity -----

  const OPPORTUNITY := "leads.opportunity"
  const ACTIVITY := "leads.activity"

  /** An opportunity and an activity of it, as an import leaves them. */
  const IMPORTED: Rows := map[Row(OPPORTUNITY, 1) := Record(7, {}), Row(ACTIVITY, 2) := Record(8, {Row(OPPORTUNITY, 1)})]

  const OWNERSHIP := Ownership(1, [Entry(OPPORTUNITY, 1, 7), Entry(ACTIVITY, 2, 8)])

  const POINTERS: Schema := map[OPPORTUNITY := {}, ACTIVITY := {OPPORTUNITY}]

  lemma ImportedIsRemovable()
    ensures NoDangling(IMPORTED) && FitsSchema(POINTERS, IMPORTED)
    ensures Removable(IMPORTED, {OPPORTUNITY, ACTIVITY}, OWNERSHIP)
    ensures ACTIVITY in ModelsOf(Owned(OWNERSHIP.resources))
  {
    var entries := OWNERSHIP.resources;
    assert OPPORTUNITY != ACTIVITY;
    assert entries[1] in entries && RowOf(entries[1]) in Owned(entries);
    forall r | r in IMPORTED ensures r in Owned(entries) { assert entries[0] in entries; }
  }

  lemma ImportedIsAcyclic()
    ensures !Cyclic(POINTERS, ModelsOf(Owned(OWNERSHIP.resources)))
  {
    var entries := OWNERSHIP.resources;
    var order := [ACTIVITY, OPPORTUNITY];
    assert OPPORTUNITY != ACTIVITY;
    assert entries[0] in entries && entries[1] in entries;
    assert RowOf(entries[0]) in Owned(entries) && RowOf(entries[1]) in Owned(entries);
    assert order[0] in order && order[1] in order;
    assert Elems(order) == ModelsOf(Owned(entries));
    CyclicHasNoOrder(POINTERS, ModelsOf(Owned(entries)), order);
  }

  /** It is owned, unmodified, used by nobody and has an order, and yet the trigger on activities keeps all of it. */
  method RemoveImported(tables: ExampleRows) returns (r: Result<nat, string>)
    requires tables.rows == IMPORTED && ACTIVITY in tables.appendOnly
    modifies tables
    ensures Removable(IMPORTED, {OPPORTUNITY, ACTIVITY}, OWNERSHIP)
    ensures !Cyclic(POINTERS, ModelsOf(Owned(OWNERSHIP.resources)))
    ensures r.Err? && tables.rows == IMPORTED
  {
    ImportedIsRemovable();
    ImportedIsAcyclic();
    hide *;
    r := tables.Remove(POINTERS, {OPPORTUNITY, ACTIVITY}, OWNERSHIP);
  }
}
