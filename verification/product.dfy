/**
 * The product entity of the domain layer (internal/domain/product/entity.go),
 * together with the products row (model.Product) and the response shape
 * both product services answer with.
 *
 * Prices are Go int64 values; `price * 100` wraps around as Go's int64
 * multiplication does. The validation library's Length rule measures a
 * string with Go's len, in UTF-8 bytes (Utf8Length). The per-field messages
 * the library produces are not modelled, only the fault they end up in.
 */
module DomainProduct {
  import opened Wrappers
  import opened Fault
  import opened Utf8

  const MinNameLength: nat := 3
  const MaxNameLength: nat := 100
  const MinPrice: int := 1

  newtype int64 = x: int | -0x8000_0000_0000_0000 <= x < 0x8000_0000_0000_0000

  /** Two's complement reduction of an integer into the int64 range. */
  function Wrap64(p: int): (r: int64)
    ensures (r as int - p) % 0x1_0000_0000_0000_0000 == 0
    ensures -0x8000_0000_0000_0000 <= p < 0x8000_0000_0000_0000 ==> r as int == p
  {
    var q := (p + 0x8000_0000_0000_0000) / 0x1_0000_0000_0000_0000;
    var m := (p + 0x8000_0000_0000_0000) % 0x1_0000_0000_0000_0000;
    assert m - 0x8000_0000_0000_0000 - p == -q * 0x1_0000_0000_0000_0000;
    (m - 0x8000_0000_0000_0000) as int64
  }

  /** Go's int64 multiplication: the exact product reduced into the int64 range. */
  function Mul64(a: int64, b: int64): (r: int64)
    ensures (r as int - a as int * b as int) % 0x1_0000_0000_0000_0000 == 0
    ensures -0x8000_0000_0000_0000 <= a as int * b as int < 0x8000_0000_0000_0000 ==>
      r as int == a as int * b as int
  {
    Wrap64(a as int * b as int)
  }

  /** The conversion to cents that NewEntity applies. */
  function Cents(price: int64): int64 {
    Mul64(price, 100)
  }

  /** A row of the products table. */
  datatype ProductModel = ProductModel(id: string, name: string, price: int64, created: int, updated: int)

  /** dto.ProductResponse. */
  datatype ProductResponse = ProductResponse(id: string, name: string, price: int64, created: int, updated: int)

  function ToResponse(p: ProductModel): (r: ProductResponse)
    ensures r.id == p.id && r.name == p.name && r.price == p.price && r.created == p.created && r.updated == p.updated
  {
    ProductResponse(p.id, p.name, p.price, p.created, p.updated)
  }

  function HasId(id: string): ProductModel -> bool {
    (p: ProductModel) => p.id == id
  }

  /** The repository's Update(m): name, price and updated of the row with m's id. */
  function Apply(m: ProductModel): ProductModel -> ProductModel {
    (p: ProductModel) => p.(name := m.name, price := m.price, updated := m.updated)
  }

  /** The name rule: required, and 3 to 100 bytes long. */
  predicate NameOk(name: string) {
    name != "" && MinNameLength <= Utf8Length(name) <= MaxNameLength
  }

  /** The price rule: required (non-zero), and at least 1. */
  predicate PriceOk(price: int64) {
    price != 0 && price as int >= MinPrice
  }

  const ValidationFault: Error :=
    FaultPtr(Fault(StatusUnprocessableEntity, ValidationError, "failed to validate product", None))

  /** validate: both rules are checked on the stored values; any failure is the one validation fault. */
  function Validate(p: ProductModel): (r: Option<Error>)
    ensures r.None? <==> NameOk(p.name) && PriceOk(p.price)
    ensures r.Some? ==> r.value == ValidationFault
  {
    if NameOk(p.name) && PriceOk(p.price) then None else Some(ValidationFault)
  }

  /**
   * NewEntity: the price is stored in cents and validated as stored.
   * `newID` stands for uid.New("prod") and `now` for time.Now().
   */
  function NewEntity(newID: string, name: string, price: int64, now: int): (r: Result<ProductModel, Error>)
    ensures r.Success? <==> NameOk(name) && PriceOk(Cents(price))
    ensures r.Success? ==> r.value == ProductModel(newID, name, Cents(price), now, now)
    ensures r.Failure? ==>
      r.error == ValidationFault && TagOf(Some(r.error)) == ValidationError
      && HttpErrorStatus(r.error) == StatusUnprocessableEntity
  {
    var p := ProductModel(newID, name, Cents(price), now, now);
    match Validate(p)
    case Some(e) => Failure(e)
    case None => Success(p)
  }

  /** The mutable product entity that UpdateProduct edits. */
  class Product {
    var id: string
    var name: string
    var price: int64
    var created: int
    var updated: int

    function Model(): ProductModel
      reads this
    {
      ProductModel(id, name, price, created, updated)
    }

    /** NewFromModel: Model gives back exactly the row the entity was made from. */
    constructor FromModel(m: ProductModel)
      ensures Model() == m
    {
      id := m.id;
      name := m.name;
      price := m.price;
      created := m.created;
      updated := m.updated;
    }

    method ChangeName(newName: string, now: int)
      modifies this
      ensures Model() == old(Model()).(name := newName, updated := now)
    {
      name := newName;
      updated := now;
    }

    /** ChangePrice stores the value as given: no conversion to cents, no validation. */
    method ChangePrice(newPrice: int64, now: int)
      modifies this
      ensures Model() == old(Model()).(price := newPrice, updated := now)
    {
      price := newPrice;
      updated := now;
    }
  }

  // ---------------------------------------------------------------------
  // Properties

  /** Up to a ninety-two-quadrillion-unit price, the stored value is exactly a hundred times the input. */
  lemma CentsExact(price: int64)
    requires -92_233_720_368_547_758 <= price as int <= 92_233_720_368_547_758
    ensures Cents(price) as int == price as int * 100
  {
  }

  /** Zero and negative prices are refused; the smallest accepted price, 1, is stored as 100. */
  lemma PriceBoundary(newID: string, now: int)
    ensures NewEntity(newID, "abc", 0, now).Failure?
    ensures NewEntity(newID, "abc", -1, now).Failure?
    ensures NewEntity(newID, "abc", 1, now) == Success(ProductModel(newID, "abc", 100, now, now))
  {
    assert Cents(0) == 0 && Cents(-1) == -100 && Cents(1) == 100;
  }

  /** ASCII names of 2 and 101 characters are refused, 3 and 100 accepted; no name over 100 characters passes. */
  lemma NameBoundary(newID: string, now: int, n: string)
    requires |n| == 100 && forall i :: 0 <= i < |n| ==> n[i] as int < 0x80
    ensures NewEntity(newID, "ab", 1, now).Failure?
    ensures NewEntity(newID, "abc", 1, now).Success?
    ensures NewEntity(newID, n, 1, now).Success?
    ensures NewEntity(newID, n + "x", 1, now).Failure?
  {
    assert Cents(1) == 100;
    assert Utf8Length("ab") == 2 && Utf8Length("abc") == 3;
    AsciiLength(n);
  }

  /**
   * The length rule counts bytes, not characters: "éé" (two characters,
   * four bytes) is accepted, and a run of "é" is accepted up to 50
   * characters (100 bytes) and refused from 51 on.
   */
  lemma NameLengthInBytes(newID: string, now: int, n: string)
    requires forall i :: 0 <= i < |n| ==> n[i] == 'é'
    ensures NewEntity(newID, "éé", 1, now).Success?
    ensures NewEntity(newID, n, 1, now).Success? <==> 2 <= |n| <= 50
  {
    assert Cents(1) == 100;
    assert Utf8Length("éé") == 4;
    TwoByteRun(n, 'é');
  }

  /**
   * A price whose cents overflow int64 wraps around before validation:
   * 184467440737095517 becomes 84 cents and is accepted.
   */
  lemma LargePriceWraps(newID: string, now: int)
    ensures NewEntity(newID, "abc", 184467440737095517, now) == Success(ProductModel(newID, "abc", 84, now, now))
  {
    assert Cents(184467440737095517) == 84;
  }
}
