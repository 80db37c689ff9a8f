/** The `gemstone_families` table and its repository: list by name, fetch by id,
    insert, full-replace update and delete. Rows are kept in a map keyed by the
    serial id; a value the request omits is bound as `NULL`. */
module ReferenceDataStore {
  import opened Wrappers
  import opened JsValues
  import opened Seqs

  /** The nine columns a client supplies. */
  datatype FamilyFields = FamilyFields(
    name: Option<string>,
    category: Option<string>,
    mineralGroup: Option<string>,
    chemicalFormula: Option<string>,
    hardnessMin: Option<real>,
    hardnessMax: Option<real>,
    rarityLevel: Option<string>,
    valueCategory: Option<string>,
    description: Option<string>)

  datatype FamilyRow = FamilyRow(id: int, fields: FamilyFields, createdAt: int, updatedAt: int)

  /** The request body's nine properties, as `familyData` destructures them. */
  datatype FamilyInput = FamilyInput(
    name: JsValue<string>,
    category: JsValue<string>,
    mineralGroup: JsValue<string>,
    chemicalFormula: JsValue<string>,
    hardnessMin: JsValue<real>,
    hardnessMax: JsValue<real>,
    rarityLevel: JsValue<string>,
    valueCategory: JsValue<string>,
    description: JsValue<string>)

  /** The values bound to `$1 … $9`: the given ones, and `NULL` for the rest. */
  function Supplied(input: FamilyInput): FamilyFields {
    FamilyFields(
      input.name.ToNullable(), input.category.ToNullable(), input.mineralGroup.ToNullable(),
      input.chemicalFormula.ToNullable(), input.hardnessMin.ToNullable(), input.hardnessMax.ToNullable(),
      input.rarityLevel.ToNullable(), input.valueCategory.ToNullable(), input.description.ToNullable())
  }

  /** `ORDER BY name`, ascending: names in code-point order, `NULL` names last. */
  predicate NameLe(a: FamilyRow, b: FamilyRow) {
    match (a.fields.name, b.fields.name)
    case (None, _) => b.fields.name.None?
    case (Some(_), None) => true
    case (Some(x), Some(y)) => LexLe(x, y)
  }

  lemma NameLeTotalPreorder()
    ensures TotalPreorder(NameLe)
  {
    forall a, b ensures NameLe(a, b) || NameLe(b, a) {
      if a.fields.name.Some? && b.fields.name.Some? {
        LexLeTotal(a.fields.name.value, b.fields.name.value);
      }
    }
    forall a, b, c | NameLe(a, b) && NameLe(b, c) ensures NameLe(a, c) {
      if a.fields.name.Some? && b.fields.name.Some? && c.fields.name.Some? {
        LexLeTransitive(a.fields.name.value, b.fields.name.value, c.fields.name.value);
      }
    }
  }

  /** `r` lists rows of the table, each under its own id, and every row of the table. */
  ghost predicate ListsRows(r: seq<FamilyRow>, rows: map<int, FamilyRow>) {
    (forall i :: 0 <= i < |r| ==> r[i].id in rows && rows[r[i].id] == r[i])
    && forall k :: k in rows ==> rows[k] in r
  }

  /** Sorting by name keeps the listing complete and exact. */
  lemma SortListsRows(listed: seq<FamilyRow>, rows: map<int, FamilyRow>)
    requires ListsRows(listed, rows)
    ensures ListsRows(SortBy(listed, NameLe), rows) && |SortBy(listed, NameLe)| == |listed|
    ensures Sorted(SortBy(listed, NameLe), NameLe)
  {
    NameLeTotalPreorder();
    SortBySorted(listed, NameLe);
    SortByMembers(listed, NameLe);
    var r := SortBy(listed, NameLe);
    forall i | 0 <= i < |r| ensures r[i].id in rows && rows[r[i].id] == r[i] {
      assert r[i] in listed;
    }
  }

  /** `ReferenceDataRepository`, over the rows of `gemstone_families`. */
  class ReferenceDataRepository {
    var rows: map<int, FamilyRow>
    /** The next value of the table's serial id. */
    var nextId: int

    ghost predicate Valid()
      reads this
    {
      forall k :: k in rows ==> rows[k].id == k && k < nextId
    }

    constructor (rows0: map<int, FamilyRow>, nextId0: int)
      requires forall k :: k in rows0 ==> rows0[k].id == k && k < nextId0
      ensures Valid() && rows == rows0 && nextId == nextId0
    {
      rows := rows0;
      nextId := nextId0;
    }

    /** `getAllGemstoneFamilies`: every row once, ordered by name; rows with
        equal names come in the order the table yields them. */
    method GetAll() returns (r: seq<FamilyRow>)
      requires Valid()
      ensures |r| == |rows|
      ensures ListsRows(r, rows)
      ensures Sorted(r, NameLe)
    {
      var ids := Enumerate(rows.Keys);
      var listed := [];
      for i := 0 to |ids|
        invariant |listed| == i
        invariant forall j :: 0 <= j < i ==> listed[j] == rows[ids[j]]
      {
        listed := listed + [rows[ids[i]]];
      }
      assert |rows.Keys| == |rows|;
      forall i | 0 <= i < |listed| ensures listed[i].id in rows && rows[listed[i].id] == listed[i] {
        assert ids[i] in rows && rows[ids[i]].id == ids[i];
      }
      forall k | k in rows ensures rows[k] in listed {
        var j :| 0 <= j < |ids| && ids[j] == k;
        assert listed[j] == rows[k];
      }
      SortListsRows(listed, rows);
      r := SortBy(listed, NameLe);
    }

    /** `getGemstoneFamilyById`: the row, or `null`. */
    function ById(id: int): (r: Option<FamilyRow>)
      reads this
      ensures r.Some? <==> id in rows
      ensures r.Some? ==> r.value == rows[id]
    {
      if id in rows then Some(rows[id]) else None
    }

    /** `createGemstoneFamily`: one new row holding exactly the nine supplied columns. */
    method Create(input: FamilyInput, now: int) returns (row: FamilyRow)
      requires Valid()
      modifies this
      ensures Valid()
      ensures row == FamilyRow(old(nextId), Supplied(input), now, now)
      ensures row.id !in old(rows)
      ensures rows == old(rows)[row.id := row] && nextId == old(nextId) + 1
    {
      row := FamilyRow(nextId, Supplied(input), now, now);
      rows := rows[nextId := row];
      nextId := nextId + 1;
    }

    /** `updateGemstoneFamily`: all nine columns replaced and `updated_at`
        refreshed; an absent id changes nothing and gives `null`. */
    method Update(id: int, input: FamilyInput, now: int) returns (r: Option<FamilyRow>)
      requires Valid()
      modifies this
      ensures Valid() && nextId == old(nextId)
      ensures r.Some? <==> id in old(rows)
      ensures id !in old(rows) ==> rows == old(rows)
      ensures id in old(rows) ==>
        r.value == old(rows)[id].(fields := Supplied(input), updatedAt := now)
        && rows == old(rows)[id := r.value]
    {
      if id in rows {
        var row := rows[id].(fields := Supplied(input), updatedAt := now);
        rows := rows[id := row];
        r := Some(row);
      } else {
        r := None;
      }
    }

    /** `deleteGemstoneFamily`: the removed row, or `null` when there was none. */
    method Delete(id: int) returns (r: Option<FamilyRow>)
      requires Valid()
      modifies this
      ensures Valid() && nextId == old(nextId)
      ensures r.Some? <==> id in old(rows)
      ensures r.Some? ==> r.value == old(rows)[id]
      ensures rows == old(rows) - {id}
    {
      if id in rows {
        r := Some(rows[id]);
      } else {
        r := None;
      }
      rows := rows - {id};
    }
  }
}
