/**
 The inventory ledger: an ordered list of product records, in insertion
 order, and the four operations of `Inventory` -- `addProduct`,
 `updateStock`, `getProductsByCategory` and `calculateTotalValue`.

 The ledger is a value. An operation that changes it returns the new ledger
 together with the value the original returns; an operation that fails
 returns only the error, so a failed call leaves the caller's ledger as it
 was. The current time is passed in as `now`.
 */
module Ledger {
  import opened InventoryTypes

  /* ---------------------------------------------------------------------
     Ledger invariants
     --------------------------------------------------------------------- */

  /** No two records share an id. */
  predicate UniqueIds(products: seq<Product>) {
    forall i, j :: 0 <= i < j < |products| ==> products[i].id != products[j].id
  }

  /** Every stored price is strictly positive. */
  predicate PositivePrices(products: seq<Product>) {
    forall i :: 0 <= i < |products| ==> products[i].price > 0
  }

  /** Every stored stock is non-negative. */
  predicate NonNegativeStocks(products: seq<Product>) {
    forall i :: 0 <= i < |products| ==> products[i].stock >= 0
  }

  /** The state invariant of the ledger. */
  predicate Valid(products: seq<Product>) {
    UniqueIds(products) && PositivePrices(products) && NonNegativeStocks(products)
  }

  /* ---------------------------------------------------------------------
     Lookup by id
     --------------------------------------------------------------------- */

  /** Some record of the ledger carries `id`. */
  predicate HasId(products: seq<Product>, id: int) {
    exists i :: 0 <= i < |products| && products[i].id == id
  }

  /** The position of the first record carrying `id` at or after `from`. */
  function IndexFrom(products: seq<Product>, id: int, from: nat): (r: Option<nat>)
    requires from <= |products|
    ensures r.Some? ==>
      && from <= r.value < |products|
      && products[r.value].id == id
      && forall j :: from <= j < r.value ==> products[j].id != id
    ensures r.None? ==> forall j :: from <= j < |products| ==> products[j].id != id
    decreases |products| - from
  {
    if from == |products| then None
    else if products[from].id == id then Some(from)
    else IndexFrom(products, id, from + 1)
  }

  /** The position of the first record carrying `id`, scanning in insertion order. */
  function IndexOf(products: seq<Product>, id: int): (r: Option<nat>)
    ensures r.Some? <==> HasId(products, id)
    ensures r.Some? ==>
      && r.value < |products|
      && products[r.value].id == id
      && forall j :: 0 <= j < r.value ==> products[j].id != id
  {
    IndexFrom(products, id, 0)
  }

  /** The first record carrying `id`, if any. */
  function Lookup(products: seq<Product>, id: int): (r: Option<Product>)
    ensures r.Some? <==> HasId(products, id)
    ensures r.Some? ==> r.value in products && r.value.id == id
  {
    match IndexOf(products, id)
    case None => None
    case Some(i) => Some(products[i])
  }

  /* ---------------------------------------------------------------------
     addProduct
     --------------------------------------------------------------------- */

  /** The payload carries every required field: id, name, price and category. */
  predicate IsComplete(payload: Payload) {
    payload.id.Some? && payload.name.Some? && payload.price.Some? && payload.category.Some?
  }

  /** The stock of a new record: the payload's, or the default when it is left out. */
  function InitialStock(payload: Payload): int {
    match payload.stock
    case Some(s) => s
    case None => DefaultStock
  }

  /** Validates `payload` and appends the record it describes, stamped with
      `now` as its creation time. The first failing check decides the error:
      a missing field, then an id already in the ledger, then a price that is
      not positive. */
  function AddProduct(products: seq<Product>, payload: Payload, now: int): (r: Result<Step<Product>>)
    ensures !IsComplete(payload) ==> r == Failure(MissingFields)
    ensures IsComplete(payload) && HasId(products, payload.id.value) ==> r == Failure(DuplicateId)
    ensures IsComplete(payload) && !HasId(products, payload.id.value) && payload.price.value <= 0 ==>
              r == Failure(NonPositivePrice)
    ensures r.Success? <==>
              IsComplete(payload) && !HasId(products, payload.id.value) && payload.price.value > 0
    ensures r.Success? ==>
              && r.value.products == products + [r.value.value]
              && r.value.value.id == payload.id.value
              && r.value.value.name == payload.name.value
              && r.value.value.price == payload.price.value
              && r.value.value.stock == InitialStock(payload)
              && r.value.value.category == payload.category.value
              && r.value.value.createdAt == now
              && r.value.value.updatedAt == None
  {
    if !IsComplete(payload) then Failure(MissingFields)
    else if HasId(products, payload.id.value) then Failure(DuplicateId)
    else if payload.price.value <= 0 then Failure(NonPositivePrice)
    else
      var p := Product(payload.id.value, payload.name.value, payload.price.value,
                       InitialStock(payload), payload.category.value, now, None);
      Success(Step(products + [p], p))
  }

  /* ---------------------------------------------------------------------
     updateStock
     --------------------------------------------------------------------- */

  /** Adds the signed `delta` to the stock of the record carrying `id` and
      stamps it with `now`. Fails when no record carries `id`, and when the
      new stock would be negative; in both cases no ledger is produced. */
  function UpdateStock(products: seq<Product>, id: int, delta: int, now: int): (r: Result<Step<Product>>)
    ensures !HasId(products, id) ==> r == Failure(ProductNotFound)
    ensures HasId(products, id) && Lookup(products, id).value.stock + delta < 0 ==>
              r == Failure(InsufficientStock)
    ensures r.Success? <==> HasId(products, id) && Lookup(products, id).value.stock + delta >= 0
    ensures r.Success? ==>
              && r.value.value.id == id
              && r.value.value.stock == Lookup(products, id).value.stock + delta
              && r.value.value.updatedAt == Some(now)
              && r.value.value.name == Lookup(products, id).value.name
              && r.value.value.price == Lookup(products, id).value.price
              && r.value.value.category == Lookup(products, id).value.category
              && r.value.value.createdAt == Lookup(products, id).value.createdAt
    ensures r.Success? ==>
              && |r.value.products| == |products|
              && Lookup(r.value.products, id) == Some(r.value.value)
              && (forall j :: 0 <= j < |products| ==> r.value.products[j].id == products[j].id)
              && r.value.products[IndexOf(products, id).value] == r.value.value
              && (forall j :: 0 <= j < |products| && j != IndexOf(products, id).value ==>
                    r.value.products[j] == products[j])
  {
    match IndexOf(products, id)
    case None => Failure(ProductNotFound)
    case Some(i) =>
      var p := products[i];
      var newStock := p.stock + delta;
      if newStock < 0 then Failure(InsufficientStock)
      else
        var q := p.(stock := newStock, updatedAt := Some(now));
        var updated := products[i := q];
        assert IndexOf(updated, id) == Some(i) by {
          assert updated[i].id == id;
          assert forall j :: 0 <= j < |products| ==> updated[j].id == products[j].id;
        }
        Success(Step(updated, q))
  }

  /* ---------------------------------------------------------------------
     getProductsByCategory
     --------------------------------------------------------------------- */

  /** The records whose category is exactly `category`, in ledger order. */
  function FilterCategory(products: seq<Product>, category: string): (r: seq<Product>)
    ensures |r| <= |products|
    ensures forall p :: p in r ==> p in products && p.category == category
    ensures forall i :: 0 <= i < |products| && products[i].category == category ==> products[i] in r
    decreases |products|
  {
    if |products| == 0 then []
    else
      var last := products[|products| - 1];
      var front := FilterCategory(products[..|products| - 1], category);
      if last.category == category then front + [last] else front
  }

  /** The records of `category` in ledger order; fails rather than return an
      empty list when none match. */
  function GetProductsByCategory(products: seq<Product>, category: string): (r: Result<seq<Product>>)
    ensures r.Failure? <==> forall i :: 0 <= i < |products| ==> products[i].category != category
    ensures r.Failure? ==> r.error == CategoryNotFound
    ensures r.Success? ==>
              && |r.value| > 0
              && forall p :: p in r.value <==> p in products && p.category == category
  {
    var found := FilterCategory(products, category);
    if |found| == 0 then Failure(CategoryNotFound)
    else
      assert found[0] in found;
      Success(found)
  }

  /* ---------------------------------------------------------------------
     calculateTotalValue
     --------------------------------------------------------------------- */

  /** The value held in one record: unit price times units in stock. */
  function ProductValue(p: Product): int {
    p.price * p.stock
  }

  /** Reference definition of the ledger's total value: the sum of the
      records' values, 0 for an empty ledger. */
  function TotalValue(products: seq<Product>): int
    decreases |products|
  {
    if |products| == 0 then 0
    else TotalValue(products[..|products| - 1]) + ProductValue(products[|products| - 1])
  }

  /** Sums `price * stock` over the ledger in one pass. */
  method CalculateTotalValue(products: seq<Product>) returns (total: int)
    ensures total == TotalValue(products)
    ensures |products| == 0 ==> total == 0
  {
    total := 0;
    var i := 0;
    while i < |products|
      invariant 0 <= i <= |products|
      invariant total == TotalValue(products[..i])
    {
      assert products[..i + 1][..i] == products[..i];
      total := total + ProductValue(products[i]);
      i := i + 1;
    }
    assert products[..i] == products;
  }
}
