/**
 * The domain product service (internal/domain/product/service.go): a
 * products table with a read-through cache.
 *
 * The products repository (internal/domain/product/repository.go) reports
 * a missing id as "no row and no error". Its GetAll query is not part of
 * this model: the page of records and the total are parameters. A failed
 * insert reaches dbutil with its driver error visible to errors.As.
 */
module DomainProductService {
  import opened Wrappers
  import opened Fault
  import opened DbUtil
  import opened Store
  import opened Cache
  import opened Pagination
  import opened Search
  import opened DomainProduct

  const Minute: int := 60_000_000_000
  const CacheTtl: int := 30 * Minute

  function ProductKey(id: string): string {
    "prod:" + id
  }

  /** GetProducts: the repository's page, record by record in order, with page metadata. */
  method GetProducts(records: seq<ProductModel>, totalItems: int, search: SearchParams, repoErr: Option<Error>)
    returns (r: Result<Paginated<ProductResponse>, Error>)
    requires search.limit != 0
    ensures repoErr.Some? ==> r == Failure(NewBadRequest("failed to retrieve products"))
    ensures repoErr.None? ==> r.Success?
    ensures r.Success? ==>
      |r.value.data| == |records|
      && (forall i :: 0 <= i < |records| ==> r.value.data[i] == ToResponse(records[i]))
      && r.value.meta == Meta(totalItems, search.page, search.limit)
  {
    if repoErr.Some? {
      return Failure(NewBadRequest("failed to retrieve products"));
    }
    var products: seq<ProductResponse> := [];
    var i := 0;
    while i < |records|
      invariant 0 <= i <= |records|
      invariant |products| == i
      invariant forall j :: 0 <= j < i ==> products[j] == ToResponse(records[j])
    {
      products := products + [ToResponse(records[i])];
      i := i + 1;
    }
    return Success(Pagination.New(products, totalItems, search.page, search.limit));
  }

  /** CreateProduct: the entity's fault unchanged; a duplicate key is dbutil's Conflict. */
  method CreateProduct(products: Table<ProductModel>, name: string, price: int64, newID: string, now: int,
                       insertErr: Option<Error>)
    returns (err: Option<Error>)
    requires insertErr.Some? && IsUniqueViolation(insertErr.value) ==>
      FindField(AsPq(insertErr.value).value.detail).Some?
    modifies products
    ensures NewEntity(newID, name, price, now).Failure? ==>
      err == Some(NewEntity(newID, name, price, now).error) && products.rows == old(products.rows)
    ensures NewEntity(newID, name, price, now).Success? && insertErr.Some? ==>
      products.rows == old(products.rows)
      && err == Some(if IsUniqueViolation(insertErr.value)
                     then VerifyDuplicatedConstraintKey(insertErr.value).value
                     else NewBadRequest("failed to insert product"))
    ensures NewEntity(newID, name, price, now).Success? && insertErr.None? ==>
      err.None? && products.rows == old(products.rows) + [NewEntity(newID, name, price, now).value]
  {
    var p := NewEntity(newID, name, price, now);
    if p.Failure? {
      return Some(p.error);
    }
    var e := products.Insert(p.value, insertErr);
    if e.Some? {
      var dup := VerifyDuplicatedConstraintKey(e.value);
      if dup.Some? {
        return dup;
      }
      return Some(NewBadRequest("failed to insert product"));
    }
    return None;
  }

  /**
   * GetProductByID: a cache hit answers without reading the table; on a
   * miss or a cache failure the row is read and then cached for 30
   * minutes, a failure to cache being ignored.
   */
  method GetProductByID(products: Table<ProductModel>, cache: Cache<ProductResponse>, productID: string,
                        cacheErr: Option<Error>, lookupErr: Option<Error>, cacheSetErr: Option<Error>)
    returns (r: Result<ProductResponse, Error>)
    modifies cache
    ensures cacheErr.None? && ProductKey(productID) in old(cache.entries) ==>
      r == Success(old(cache.entries)[ProductKey(productID)].value) && cache.entries == old(cache.entries)
    ensures cacheErr.Some? || ProductKey(productID) !in old(cache.entries) ==>
      if lookupErr.Some? then
        r == Failure(NewBadRequest("failed to retrieve product by ID")) && cache.entries == old(cache.entries)
      else if Find(products.rows, HasId(productID)).None? then
        r == Failure(NewNotFound("product not found")) && cache.entries == old(cache.entries)
      else
        var p := ToResponse(Find(products.rows, HasId(productID)).value);
        r == Success(p)
        && cache.entries == (if cacheSetErr.None? then old(cache.entries)[ProductKey(productID) := Entry(p, CacheTtl)]
                             else old(cache.entries))
  {
    var cached := cache.GetStruct(ProductKey(productID), cacheErr);
    if cached.Some? {
      return Success(cached.value);
    }
    var found := products.Read(HasId(productID), lookupErr);
    if found.Failed? {
      return Failure(NewBadRequest("failed to retrieve product by ID"));
    }
    if found.Absent? {
      return Failure(NewNotFound("product not found"));
    }
    var product := ToResponse(found.row);
    var _ := cache.SetStruct(ProductKey(product.id), product, CacheTtl, cacheSetErr);
    return Success(product);
  }

  /**
   * DeleteProduct: delete the row, then evict its cache entry if there is
   * one. A cache failure after the delete is reported as InternalServerError
   * although the row is already gone.
   */
  method DeleteProduct(products: Table<ProductModel>, cache: Cache<ProductResponse>, productID: string,
                       lookupErr: Option<Error>, deleteErr: Option<Error>,
                       hasErr: Option<Error>, evictErr: Option<Error>)
    returns (err: Option<Error>)
    modifies products, cache
    ensures lookupErr.Some? ==>
      err == Some(NewBadRequest("failed to retrieve product by ID"))
      && products.rows == old(products.rows) && cache.entries == old(cache.entries)
    ensures lookupErr.None? && Find(old(products.rows), HasId(productID)).None? ==>
      err == Some(NewNotFound("product not found"))
      && products.rows == old(products.rows) && cache.entries == old(cache.entries)
    ensures lookupErr.None? && Find(old(products.rows), HasId(productID)).Some? ==>
      if deleteErr.Some? then
        err == Some(NewBadRequest("failed to delete product"))
        && products.rows == old(products.rows) && cache.entries == old(cache.entries)
      else
        products.rows == DeleteWhere(old(products.rows), HasId(productID))
        && if hasErr.Some? then
             err == Some(NewInternalServerError("failed to search for product")) && cache.entries == old(cache.entries)
           else if ProductKey(productID) !in old(cache.entries) then
             err.None? && cache.entries == old(cache.entries)
           else if evictErr.Some? then
             err == Some(NewInternalServerError("failed to delete product from cache"))
             && cache.entries == old(cache.entries)
           else
             err.None? && cache.entries == old(cache.entries) - {ProductKey(productID)}
  {
    var found := products.Read(HasId(productID), lookupErr);
    if found.Failed? {
      return Some(NewBadRequest("failed to retrieve product by ID"));
    }
    if found.Absent? {
      return Some(NewNotFound("product not found"));
    }
    var e := products.Delete(HasId(productID), deleteErr);
    if e.Some? {
      return Some(NewBadRequest("failed to delete product"));
    }
    var cacheKey := ProductKey(productID);
    var existInCache := cache.Has(cacheKey, hasErr);
    if existInCache.Failure? {
      return Some(NewInternalServerError("failed to search for product"));
    }
    if existInCache.value {
      var e2 := cache.Delete(cacheKey, evictErr);
      if e2.Some? {
        return Some(NewInternalServerError("failed to delete product from cache"));
      }
    }
    return None;
  }

  /** UpdateProduct: load the row, rename and reprice the entity, write it back. No validation runs. */
  method UpdateProduct(products: Table<ProductModel>, productID: string, name: string, price: int64, now: int,
                       lookupErr: Option<Error>, updateErr: Option<Error>)
    returns (err: Option<Error>)
    modifies products
    ensures lookupErr.Some? ==>
      err == Some(NewBadRequest("failed to retrieve product by ID")) && products.rows == old(products.rows)
    ensures lookupErr.None? && Find(old(products.rows), HasId(productID)).None? ==>
      err == Some(NewNotFound("product not found")) && products.rows == old(products.rows)
    ensures lookupErr.None? && Find(old(products.rows), HasId(productID)).Some? ==>
      var record := Find(old(products.rows), HasId(productID)).value;
      if updateErr.Some? then
        err == Some(NewBadRequest("failed to update product")) && products.rows == old(products.rows)
      else
        err.None?
        && products.rows == UpdateWhere(old(products.rows), HasId(productID),
                                         Apply(record.(name := name, price := price, updated := now)))
  {
    var found := products.Read(HasId(productID), lookupErr);
    if found.Failed? {
      return Some(NewBadRequest("failed to retrieve product by ID"));
    }
    if found.Absent? {
      return Some(NewNotFound("product not found"));
    }
    var p := new Product.FromModel(found.row);
    p.ChangeName(name, now);
    p.ChangePrice(price, now);
    var e := products.Update(HasId(p.id), Apply(p.Model()), updateErr);
    if e.Some? {
      return Some(NewBadRequest("failed to update product"));
    }
    return None;
  }

  // ---------------------------------------------------------------------
  // Properties

  /** After UpdateProduct the row with that id carries the new name and price, unconverted. */
  lemma UpdatedRowCarriesInput(rows: seq<ProductModel>, id: string, name: string, price: int64, now: int)
    requires Find(rows, HasId(id)).Some?
    ensures var record := Find(rows, HasId(id)).value;
      var after := UpdateWhere(rows, HasId(id), Apply(record.(name := name, price := price, updated := now)));
      Find(after, HasId(id)) == Some(record.(name := name, price := price, updated := now))
  {
    var record := Find(rows, HasId(id)).value;
    FindAfterUpdate(rows, HasId(id), Apply(record.(name := name, price := price, updated := now)));
  }

  /** After a delete no row carries the id, so a second delete answers NotFound. */
  lemma DeleteRemovesId(rows: seq<ProductModel>, id: string)
    ensures Find(DeleteWhere(rows, HasId(id)), HasId(id)).None?
  {
  }
}
