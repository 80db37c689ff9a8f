/** `ReferenceDataService`: the gemstone-family operations of the repository,
    with a missing row turned into a "not found" error. */
module ReferenceDataService {
  import opened Wrappers
  import opened Text
  import opened Seqs
  import opened ReferenceDataStore

  /** `Gemstone family with ID ${id} not found`. */
  function NotFound(id: int): string {
    "Gemstone family with ID " + IntToString(id) + " not found"
  }

  /** The message names the id: two ids never share one. */
  lemma NotFoundNamesId(i: int, j: int)
    requires NotFound(i) == NotFound(j)
    ensures i == j
  {
    var prefix := "Gemstone family with ID ";
    var suffix := " not found";
    var a, b := IntToString(i), IntToString(j);
    assert |a| == |b|;
    assert a == NotFound(i)[|prefix|..|prefix| + |a|];
    assert b == NotFound(j)[|prefix|..|prefix| + |b|];
    IntToStringInjective(i, j);
  }

  /** `getAllGemstoneFamilies`: the repository's listing, passed through. */
  method GetAllGemstoneFamilies(repo: ReferenceDataRepository) returns (r: seq<FamilyRow>)
    requires repo.Valid()
    ensures |r| == |repo.rows| && ListsRows(r, repo.rows) && Sorted(r, NameLe)
  {
    r := repo.GetAll();
  }

  /** `getGemstoneFamilyById`: the row, or the "not found" error. */
  function GetGemstoneFamilyById(repo: ReferenceDataRepository, id: int): (r: Result<FamilyRow, string>)
    reads repo
    ensures r.Ok? <==> id in repo.rows
    ensures r.Ok? ==> r.value == repo.rows[id]
    ensures r.Err? ==> r.error == NotFound(id)
  {
    match repo.ById(id)
    case Some(family) => Ok(family)
    case None => Err(NotFound(id))
  }

  /** `createGemstoneFamily`: the repository's insert, passed through. */
  method CreateGemstoneFamily(repo: ReferenceDataRepository, input: FamilyInput, now: int) returns (row: FamilyRow)
    requires repo.Valid()
    modifies repo
    ensures repo.Valid()
    ensures row == FamilyRow(old(repo.nextId), Supplied(input), now, now) && row.id !in old(repo.rows)
    ensures repo.rows == old(repo.rows)[row.id := row] && repo.nextId == old(repo.nextId) + 1
  {
    row := repo.Create(input, now);
  }

  /** `updateGemstoneFamily`: the full replace, or the "not found" error with
      nothing changed. */
  method UpdateGemstoneFamily(repo: ReferenceDataRepository, id: int, input: FamilyInput, now: int)
    returns (r: Result<FamilyRow, string>)
    requires repo.Valid()
    modifies repo
    ensures repo.Valid() && repo.nextId == old(repo.nextId)
    ensures r.Ok? <==> id in old(repo.rows)
    ensures r.Err? ==> r.error == NotFound(id) && repo.rows == old(repo.rows)
    ensures r.Ok? ==>
      r.value == old(repo.rows)[id].(fields := Supplied(input), updatedAt := now)
      && repo.rows == old(repo.rows)[id := r.value]
  {
    var family := repo.Update(id, input, now);
    if family.None? {
      return Err(NotFound(id));
    }
    return Ok(family.value);
  }

  /** `deleteGemstoneFamily`: the removed row, or the "not found" error with
      nothing changed. */
  method DeleteGemstoneFamily(repo: ReferenceDataRepository, id: int) returns (r: Result<FamilyRow, string>)
    requires repo.Valid()
    modifies repo
    ensures repo.Valid() && repo.nextId == old(repo.nextId)
    ensures r.Ok? <==> id in old(repo.rows)
    ensures r.Ok? ==> r.value == old(repo.rows)[id]
    ensures r.Err? ==> r.error == NotFound(id)
    ensures repo.rows == old(repo.rows) - {id}
  {
    var family := repo.Delete(id);
    if family.None? {
      return Err(NotFound(id));
    }
    return Ok(family.value);
  }
}
