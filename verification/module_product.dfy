/**
 * The product entity of the modules layer (internal/modules/product/entity.go).
 * It declares the same struct, NewFromModel, ChangeName, ChangePrice and
 * Model as the domain entity, which DomainProduct.Product models; only New
 * and validate differ. Go's len on a string counts UTF-8 bytes (Utf8Length).
 */
module ModuleProduct {
  import opened Wrappers
  import opened Fault
  import opened DomainProduct
  import opened Utf8

  /** validate: the first rule that fails, in order: name present, name long enough, price positive. */
  function Validate(p: ProductModel): (r: Option<Error>)
    ensures r.None? <==> p.name != "" && Utf8Length(p.name) >= MinNameLength && p.price as int >= MinPrice
    ensures p.name == "" ==> r == Some(NewUnprocessableEntity("name is required"))
    ensures p.name != "" && Utf8Length(p.name) < MinNameLength ==>
      r == Some(NewUnprocessableEntity("name must be at least 3 characters"))
    ensures p.name != "" && Utf8Length(p.name) >= MinNameLength && p.price as int < MinPrice ==>
      r == Some(NewUnprocessableEntity("price must be greater than 0"))
  {
    if p.name == "" then Some(NewUnprocessableEntity("name is required"))
    else if Utf8Length(p.name) < MinNameLength then Some(NewUnprocessableEntity("name must be at least 3 characters"))
    else if p.price as int < MinPrice then Some(NewUnprocessableEntity("price must be greater than 0"))
    else None
  }

  /** New: the price is stored in cents and validated as stored. */
  function New(newID: string, name: string, price: int64, now: int): (r: Result<ProductModel, Error>)
    ensures r.Success? <==> name != "" && Utf8Length(name) >= MinNameLength && Cents(price) as int >= MinPrice
    ensures r.Success? ==> r.value == ProductModel(newID, name, Cents(price), now, now)
    ensures r.Failure? ==>
      Validate(ProductModel(newID, name, Cents(price), now, now)) == Some(r.error)
      && TagOf(Some(r.error)) == UnprocessableEntity && HttpErrorStatus(r.error) == StatusUnprocessableEntity
  {
    var p := ProductModel(newID, name, Cents(price), now, now);
    match Validate(p)
    case Some(e) => Failure(e)
    case None => Success(p)
  }

  // ---------------------------------------------------------------------
  // Properties

  /** There is no upper bound: any ASCII name of 3 characters or more, however long, is accepted. */
  lemma NoUpperBound(newID: string, name: string, now: int)
    requires |name| >= MinNameLength
    requires forall i :: 0 <= i < |name| ==> name[i] as int < 0x80
    ensures New(newID, name, 1, now).Success?
  {
    AsciiLength(name);
    assert Cents(1) == 100;
  }

  /**
   * The length rule counts bytes: a two-character name whose characters
   * take three bytes passes it.
   */
  lemma LengthCountsBytes(newID: string, now: int)
    ensures |"éa"| == 2
    ensures New(newID, "éa", 1, now).Success?
    ensures New(newID, "ab", 1, now) == Failure(NewUnprocessableEntity("name must be at least 3 characters"))
  {
    assert Utf8Length("éa") == 3;
    assert Utf8Length("ab") == 2;
    assert Cents(1) == 100;
  }

  /** Only the first failure is reported: an empty name with a zero price reports the name. */
  lemma FirstFailureWins(newID: string, now: int)
    ensures New(newID, "", 0, now) == Failure(NewUnprocessableEntity("name is required"))
    ensures New(newID, "abc", 0, now) == Failure(NewUnprocessableEntity("price must be greater than 0"))
  {
    assert Cents(0) == 0;
    assert Utf8Length("abc") == 3;
  }
}
