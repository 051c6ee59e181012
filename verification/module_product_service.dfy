/**
 * The modules product service (internal/modules/product/service.go). Its
 * repository is not part of this model; it is taken to behave as the
 * domain products repository: a missing id is "no row and no error", and
 * a failed insert keeps the driver's error visible to errors.As. The
 * helper that pulls the column out of a Postgres detail string
 * (dbutil.ExtractFieldFromDetail) is not part of this model either and is
 * the parameter `extractField`.
 */
module ModuleProductService {
  import opened Wrappers
  import opened Fault
  import opened DbUtil
  import opened Store
  import opened Cache
  import opened Pagination
  import opened Search
  import opened DomainProduct
  import ModuleProduct

  const Minute: int := 60_000_000_000
  const CacheTtl: int := 30 * Minute

  function ProductKey(id: string): string {
    "prod:" + id
  }

  method GetProducts(records: seq<ProductModel>, totalItems: int, search: SearchParams, repoErr: Option<Error>)
    returns (r: Result<Paginated<ProductResponse>, Error>)
    requires search.limit != 0
    ensures repoErr.Some? ==> r == Failure(NewBadRequest("failed to retrieve products"))
    ensures repoErr.None? ==> r.Success?
    ensures r.Success? ==>
      |r.value.data| == |records|
      && (forall i :: 0 <= i < |records| ==> r.value.data[i] == ToResponse(records[i]))
      && r.value.meta == Meta(totalItems, search.page, search.limit)
  {
    if repoErr.Some? {
      return Failure(NewBadRequest("failed to retrieve products"));
    }
    var products: seq<ProductResponse> := [];
    var i := 0;
    while i < |records|
      invariant 0 <= i <= |records|
      invariant |products| == i
      invariant forall j :: 0 <= j < i ==> products[j] == ToResponse(records[j])
    {
      products := products + [ToResponse(records[i])];
      i := i + 1;
    }
    return Success(Pagination.New(products, totalItems, search.page, search.limit));
  }

  /** What CreateProduct answers for a failed insert. */
  function InsertFault(e: Error, extractField: string -> string): (r: Error)
    ensures IsUniqueViolation(e) ==> r == NewConflict("field: " + extractField(AsPq(e).value.detail) + " already taken")
    ensures !IsUniqueViolation(e) ==> r == NewBadRequest("failed to insert product")
  {
    match AsPq(e)
    case Some(pq) =>
      if pq.code == UniqueViolation then NewConflict("field: " + extractField(pq.detail) + " already taken")
      else NewBadRequest("failed to insert product")
    case None => NewBadRequest("failed to insert product")
  }

  method CreateProduct(products: Table<ProductModel>, name: string, price: int64, newID: string, now: int,
                       insertErr: Option<Error>, extractField: string -> string)
    returns (err: Option<Error>)
    modifies products
    ensures ModuleProduct.New(newID, name, price, now).Failure? ==>
      err == Some(ModuleProduct.New(newID, name, price, now).error) && products.rows == old(products.rows)
    ensures ModuleProduct.New(newID, name, price, now).Success? && insertErr.Some? ==>
      err == Some(InsertFault(insertErr.value, extractField)) && products.rows == old(products.rows)
    ensures ModuleProduct.New(newID, name, price, now).Success? && insertErr.None? ==>
      err.None? && products.rows == old(products.rows) + [ModuleProduct.New(newID, name, price, now).value]
  {
    var product := ModuleProduct.New(newID, name, price, now);
    if product.Failure? {
      return Some(product.error);
    }
    var e := products.Insert(product.value, insertErr);
    if e.Some? {
      return Some(InsertFault(e.value, extractField));
    }
    return None;
  }

  /** GetProductByID: as in the domain service, a read-through cache with a 30-minute TTL. */
  method GetProductByID(products: Table<ProductModel>, cache: Cache<ProductResponse>, productID: string,
                        cacheErr: Option<Error>, lookupErr: Option<Error>, cacheSetErr: Option<Error>)
    returns (r: Result<ProductResponse, Error>)
    modifies cache
    ensures cacheErr.None? && ProductKey(productID) in old(cache.entries) ==>
      r == Success(old(cache.entries)[ProductKey(productID)].value) && cache.entries == old(cache.entries)
    ensures cacheErr.Some? || ProductKey(productID) !in old(cache.entries) ==>
      if lookupErr.Some? then
        r == Failure(NewBadRequest("failed to retrieve product by ID")) && cache.entries == old(cache.entries)
      else if Find(products.rows, HasId(productID)).None? then
        r == Failure(NewNotFound("product not found")) && cache.entries == old(cache.entries)
      else
        var p := ToResponse(Find(products.rows, HasId(productID)).value);
        r == Success(p)
        && cache.entries == (if cacheSetErr.None? then old(cache.entries)[ProductKey(productID) := Entry(p, CacheTtl)]
                             else old(cache.entries))
  {
    var cached := cache.GetStruct(ProductKey(productID), cacheErr);
    if cached.Some? {
      return Success(cached.value);
    }
    var found := products.Read(HasId(productID), lookupErr);
    if found.Failed? {
      return Failure(NewBadRequest("failed to retrieve product by ID"));
    }
    if found.Absent? {
      return Failure(NewNotFound("product not found"));
    }
    var product := ToResponse(found.row);
    var _ := cache.SetStruct(ProductKey(product.id), product, CacheTtl, cacheSetErr);
    return Success(product);
  }

  /** DeleteProduct: delete the row; the cache is left as it is. */
  method DeleteProduct(products: Table<ProductModel>, productID: string,
                       lookupErr: Option<Error>, deleteErr: Option<Error>)
    returns (err: Option<Error>)
    modifies products
    ensures lookupErr.Some? ==>
      err == Some(NewBadRequest("failed to retrieve product by ID")) && products.rows == old(products.rows)
    ensures lookupErr.None? && Find(old(products.rows), HasId(productID)).None? ==>
      err == Some(NewNotFound("product not found")) && products.rows == old(products.rows)
    ensures lookupErr.None? && Find(old(products.rows), HasId(productID)).Some? ==>
      if deleteErr.Some? then
        err == Some(NewBadRequest("failed to delete product")) && products.rows == old(products.rows)
      else
        err.None? && products.rows == DeleteWhere(old(products.rows), HasId(productID))
  {
    var found := products.Read(HasId(productID), lookupErr);
    if found.Failed? {
      return Some(NewBadRequest("failed to retrieve product by ID"));
    }
    if found.Absent? {
      return Some(NewNotFound("product not found"));
    }
    var e := products.Delete(HasId(productID), deleteErr);
    if e.Some? {
      return Some(NewBadRequest("failed to delete product"));
    }
    return None;
  }

  method UpdateProduct(products: Table<ProductModel>, productID: string, name: string, price: int64, now: int,
                       lookupErr: Option<Error>, updateErr: Option<Error>)
    returns (err: Option<Error>)
    modifies products
    ensures lookupErr.Some? ==>
      err == Some(NewBadRequest("failed to retrieve product by ID")) && products.rows == old(products.rows)
    ensures lookupErr.None? && Find(old(products.rows), HasId(productID)).None? ==>
      err == Some(NewNotFound("product not found")) && products.rows == old(products.rows)
    ensures lookupErr.None? && Find(old(products.rows), HasId(productID)).Some? ==>
      var record := Find(old(products.rows), HasId(productID)).value;
      if updateErr.Some? then
        err == Some(NewBadRequest("failed to update product")) && products.rows == old(products.rows)
      else
        err.None?
        && products.rows == UpdateWhere(old(products.rows), HasId(productID),
                                         Apply(record.(name := name, price := price, updated := now)))
  {
    var found := products.Read(HasId(productID), lookupErr);
    if found.Failed? {
      return Some(NewBadRequest("failed to retrieve product by ID"));
    }
    if found.Absent? {
      return Some(NewNotFound("product not found"));
    }
    var p := new Product.FromModel(found.row);
    p.ChangeName(name, now);
    p.ChangePrice(price, now);
    var e := products.Update(HasId(p.id), Apply(p.Model()), updateErr);
    if e.Some? {
      return Some(NewBadRequest("failed to update product"));
    }
    return None;
  }

  // ---------------------------------------------------------------------
  // Properties

  /** A unique violation names the column after "field: ", and is a 409 Conflict. */
  lemma DuplicateIsConflict(detail: string, msg: string, extractField: string -> string)
    ensures InsertFault(Pq(UniqueViolation, msg, detail), extractField)
      == NewConflict("field: " + extractField(detail) + " already taken")
    ensures HttpErrorStatus(InsertFault(Pq(UniqueViolation, msg, detail), extractField)) == StatusConflict
  {
  }
}
