/**
 * The category service (internal/domain/category/service.go) over the
 * categories table (internal/domain/category/repository.go).
 *
 * FindByName and FindByID answer a missing row with a NotFound-tagged
 * fault and a driver failure with an untagged fault that carries it.
 * Update writes name, slug, active, updated_at and deleted_at of the row
 * with the model's id. FindAll's query (full-text match, ordering, OFFSET)
 * is not part of this model: the page of records and the total it yields
 * are parameters. `newID` stands for uid.New("cat"), `slug` for
 * strutil.Slugify(name), `now` for time.Now().
 */
module Category {
  import opened Wrappers
  import opened Fault
  import opened DbUtil
  import opened Store
  import opened Pagination
  import opened Search

  datatype CategoryModel = CategoryModel(
    id: string, name: string, slug: string, active: bool,
    createdAt: int, updatedAt: int, deletedAt: Option<int>)

  datatype CategoryResponse = CategoryResponse(
    id: string, name: string, slug: string, active: bool, createdAt: int, updatedAt: int)

  function HasId(id: string): CategoryModel -> bool {
    (c: CategoryModel) => c.id == id
  }

  function HasName(name: string): CategoryModel -> bool {
    (c: CategoryModel) => c.name == name
  }

  /** The repository's Update(m): the columns it sets, taken from m. */
  function Apply(m: CategoryModel): CategoryModel -> CategoryModel {
    (c: CategoryModel) => c.(name := m.name, slug := m.slug, active := m.active,
                             updatedAt := m.updatedAt, deletedAt := m.deletedAt)
  }

  /** What FindByName and FindByID return when no row matches. */
  const NotFoundFault: Error := FaultPtr(Fault(StatusBadRequest, NotFound, "category not found", None))

  /** The repository's error for a lookup the driver could not run. */
  function LookupError(e: Error): Error {
    NewDefault("failed to get category by id", Some(e))
  }

  /** The repository's error, if any, for a lookup. */
  function RepoError(found: Lookup<CategoryModel>): (r: Option<Error>)
    ensures r.None? <==> found.Found?
    ensures found.Absent? ==> TagOf(r) == NotFound
    ensures found.Failed? ==> TagOf(r) == Untagged
  {
    match found
    case Found(_) => None
    case Absent => Some(NotFoundFault)
    case Failed(e) => Some(LookupError(e))
  }

  function ToResponse(c: CategoryModel): (r: CategoryResponse)
    ensures r.id == c.id && r.name == c.name && r.slug == c.slug && r.active == c.active
    ensures r.createdAt == c.createdAt && r.updatedAt == c.updatedAt
  {
    CategoryResponse(c.id, c.name, c.slug, c.active, c.createdAt, c.updatedAt)
  }

  /**
   * FindAll: the repository's page mapped record by record, in order,
   * with page metadata from the repository's total.
   */
  method FindAll(records: seq<CategoryModel>, totalItems: int, search: SearchParams, repoErr: Option<Error>)
    returns (r: Result<Paginated<CategoryResponse>, Error>)
    requires search.limit != 0
    ensures repoErr.Some? ==> r == Failure(NewBadRequest("failed to retrieve categories"))
    ensures repoErr.None? ==> r.Success?
    ensures r.Success? ==>
      |r.value.data| == |records|
      && (forall i :: 0 <= i < |records| ==> r.value.data[i] == ToResponse(records[i]))
      && r.value.meta == Meta(totalItems, search.page, search.limit)
  {
    if repoErr.Some? {
      return Failure(NewBadRequest("failed to retrieve categories"));
    }
    var categories: seq<CategoryResponse> := [];
    var i := 0;
    while i < |records|
      invariant 0 <= i <= |records|
      invariant |categories| == i
      invariant forall j :: 0 <= j < i ==> categories[j] == ToResponse(records[j])
    {
      categories := categories + [ToResponse(records[i])];
      i := i + 1;
    }
    return Success(Pagination.New(categories, totalItems, search.page, search.limit));
  }

  /** The row Create inserts. */
  function NewCategory(id: string, name: string, slug: string, now: int): CategoryModel {
    CategoryModel(id, name, slug, true, now, now, None)
  }

  /** A reactivated row: active again, not deleted, stamped now. */
  function Reactivated(c: CategoryModel, now: int): CategoryModel {
    c.(active := true, updatedAt := now, deletedAt := None)
  }

  /**
   * Create: reactivate an inactive category of that name, or else insert a
   * new one. A lookup failure other than "not found" stops with BadRequest.
   * An active category of that name falls through to the insert, where the
   * unique key turns it into dbutil's Conflict.
   */
  method Create(categories: Table<CategoryModel>, name: string, newID: string, slug: string, now: int,
                lookupErr: Option<Error>, updateErr: Option<Error>, insertErr: Option<Error>)
    returns (err: Option<Error>)
    requires insertErr.Some? && IsUniqueViolation(insertErr.value) ==>
      FindField(AsPq(insertErr.value).value.detail).Some?
    modifies categories
    ensures lookupErr.Some? ==>
      err == Some(NewBadRequest("failed to retrieve category")) && categories.rows == old(categories.rows)
    ensures lookupErr.None? && Find(old(categories.rows), HasName(name)).Some?
            && !Find(old(categories.rows), HasName(name)).value.active ==>
      var c := Find(old(categories.rows), HasName(name)).value;
      if updateErr.Some? then
        err == Some(NewBadRequest("failed to reactivate category")) && categories.rows == old(categories.rows)
      else
        err.None? && categories.rows == UpdateWhere(old(categories.rows), HasId(c.id), Apply(Reactivated(c, now)))
    ensures lookupErr.None? && (Find(old(categories.rows), HasName(name)).None?
                                || Find(old(categories.rows), HasName(name)).value.active) ==>
      if insertErr.Some? then
        categories.rows == old(categories.rows)
        && err == Some(if IsUniqueViolation(insertErr.value)
                       then VerifyDuplicatedConstraintKey(insertErr.value).value
                       else NewBadRequest("failed to create category"))
      else
        err.None? && categories.rows == old(categories.rows) + [NewCategory(newID, name, slug, now)]
  {
    var found := categories.Read(HasName(name), lookupErr);
    var repoErr := RepoError(found);
    if repoErr.Some? {
      var t := GetTag(repoErr);
      if t != NotFound {
        return Some(NewBadRequest("failed to retrieve category"));
      }
    }
    if found.Found? && !found.row.active {
      var record := Reactivated(found.row, now);
      var e := categories.Update(HasId(record.id), Apply(record), updateErr);
      if e.Some? {
        return Some(NewBadRequest("failed to reactivate category"));
      }
      return None;
    }
    var newCategory := NewCategory(newID, name, slug, now);
    var e := categories.Insert(newCategory, insertErr);
    if e.Some? {
      var dup := VerifyDuplicatedConstraintKey(e.value);
      if dup.Some? {
        return dup;
      }
      return Some(NewBadRequest("failed to create category"));
    }
    return None;
  }

  /** A soft-deleted row: inactive, stamped now, deleted now. */
  function SoftDeleted(c: CategoryModel, now: int): CategoryModel {
    c.(active := false, updatedAt := now, deletedAt := Some(now))
  }

  /** Delete: a soft delete; a row already deleted counts as missing. */
  method Delete(categories: Table<CategoryModel>, categoryID: string, now: int,
                lookupErr: Option<Error>, updateErr: Option<Error>)
    returns (err: Option<Error>)
    modifies categories
    ensures lookupErr.Some? ==>
      err == Some(NewBadRequest("failed to delete category")) && categories.rows == old(categories.rows)
    ensures lookupErr.None? && Find(old(categories.rows), HasId(categoryID)).None? ==>
      err == Some(NewNotFound("category not found")) && categories.rows == old(categories.rows)
    ensures lookupErr.None? && Find(old(categories.rows), HasId(categoryID)).Some? ==>
      var c := Find(old(categories.rows), HasId(categoryID)).value;
      if c.deletedAt.Some? then
        err == Some(NewNotFound("category not found")) && categories.rows == old(categories.rows)
      else if updateErr.Some? then
        err == Some(NewBadRequest("failed to delete category")) && categories.rows == old(categories.rows)
      else
        err.None? && categories.rows == UpdateWhere(old(categories.rows), HasId(categoryID), Apply(SoftDeleted(c, now)))
  {
    var found := categories.Read(HasId(categoryID), lookupErr);
    var repoErr := RepoError(found);
    if repoErr.Some? {
      var t := GetTag(repoErr);
      if t == NotFound {
        return Some(NewNotFound("category not found"));
      }
      return Some(NewBadRequest("failed to delete category"));
    }
    var model := found.row;
    if model.deletedAt.Some? {
      return Some(NewNotFound("category not found"));
    }
    model := SoftDeleted(model, now);
    var e := categories.Update(HasId(model.id), Apply(model), updateErr);
    if e.Some? {
      return Some(NewBadRequest("failed to delete category"));
    }
    return None;
  }

  /** GetByID: any row with the id, soft-deleted or not. */
  method GetByID(categories: Table<CategoryModel>, categoryID: string, lookupErr: Option<Error>)
    returns (r: Result<CategoryResponse, Error>)
    ensures lookupErr.Some? ==> r == Failure(NewBadRequest("failed to retrieve category"))
    ensures lookupErr.None? ==> (r.Success? <==> exists c :: c in categories.rows && c.id == categoryID)
    ensures lookupErr.None? && r.Failure? ==> r == Failure(NewNotFound("category not found"))
    ensures r.Success? ==> exists c :: c in categories.rows && c.id == categoryID && r.value == ToResponse(c)
  {
    var found := categories.Read(HasId(categoryID), lookupErr);
    var repoErr := RepoError(found);
    if repoErr.Some? {
      var t := GetTag(repoErr);
      if t == NotFound {
        return Failure(NewNotFound("category not found"));
      }
      return Failure(NewBadRequest("failed to retrieve category"));
    }
    return Success(ToResponse(found.row));
  }

  // ---------------------------------------------------------------------
  // Properties

  /**
   * A soft delete keeps the row, now inactive and marked deleted, so that
   * a second Delete answers NotFound while GetByID still finds it.
   */
  lemma DeleteKeepsRow(rows: seq<CategoryModel>, id: string, now: int)
    requires Find(rows, HasId(id)).Some? && Find(rows, HasId(id)).value.deletedAt.None?
    ensures var after := UpdateWhere(rows, HasId(id), Apply(SoftDeleted(Find(rows, HasId(id)).value, now)));
      Find(after, HasId(id)).Some?
      && Find(after, HasId(id)).value.deletedAt == Some(now)
      && !Find(after, HasId(id)).value.active
      && |after| == |rows|
  {
    FindAfterUpdate(rows, HasId(id), Apply(SoftDeleted(Find(rows, HasId(id)).value, now)));
  }

  /** Reactivation undoes a soft delete: active again and not deleted. */
  lemma ReactivateUndoesDelete(rows: seq<CategoryModel>, name: string, now: int)
    requires Find(rows, HasName(name)).Some? && !Find(rows, HasName(name)).value.active
    ensures var c := Find(rows, HasName(name)).value;
      var after := UpdateWhere(rows, HasId(c.id), Apply(Reactivated(c, now)));
      Find(after, HasId(c.id)).Some? && Find(after, HasId(c.id)).value.active
      && Find(after, HasId(c.id)).value.deletedAt.None?
  {
    var c := Find(rows, HasName(name)).value;
    assert Find(rows, HasId(c.id)).Some?;
    FindAfterUpdate(rows, HasId(c.id), Apply(Reactivated(c, now)));
  }
}
