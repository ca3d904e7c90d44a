/**
 The concrete scenarios of the inventory test suite, stated over the model.
 Every scenario runs on a fresh ledger with the clock fixed at one instant,
 2023-01-01T00:00:00.000Z, written here in milliseconds since the epoch.
 */
module Scenarios {
  import opened InventoryTypes
  import opened Ledger

  /** The fixed instant of the suite's clock. */
  const MockNow: int := 1672531200000

  function FullPayload(id: int, name: string, price: int, stock: int, category: string): Payload {
    Payload(Some(id), Some(name), Some(price), Some(stock), Some(category))
  }

  function Stored(id: int, name: string, price: int, stock: int, category: string): Product {
    Product(id, name, price, stock, category, MockNow, None)
  }

  /** Adding a complete payload to an empty ledger returns the stored record
      (payload fields plus the creation stamp, no update stamp), and the
      ledger holds exactly that record. */
  lemma AddToEmptyLedger()
    ensures AddProduct([], FullPayload(1, "Producto 1", 100, 10, "Electrónica"), MockNow) ==
            Success(Step([Stored(1, "Producto 1", 100, 10, "Electrónica")],
                         Stored(1, "Producto 1", 100, 10, "Electrónica")))
  {
    var p := Stored(1, "Producto 1", 100, 10, "Electrónica");
    assert [] + [p] == [p];
  }

  /** A payload without a name is rejected with the missing-fields message. */
  lemma AddWithoutName()
    ensures AddProduct([], Payload(Some(5), None, Some(100), None, Some("Electrónica")), MockNow) ==
            Failure(Error(ValidationError, "El producto debe tener id, nombre, precio y categoría"))
  {
  }

  /** A second product with an id already stored is rejected, though every
      other field differs; the first add, which leaves out the stock, succeeds. */
  lemma AddDuplicateId()
    ensures var first := AddProduct([], Payload(Some(1), Some("Producto 2"), Some(300), None, Some("Hogar")), MockNow);
            && first.Success?
            && AddProduct(first.value.products,
                          Payload(Some(1), Some("Producto 1"), Some(100), None, Some("Electrónica")), MockNow) ==
               Failure(Error(ConflictError, "Ya existe un producto con este ID"))
  {
    var first := AddProduct([], Payload(Some(1), Some("Producto 2"), Some(300), None, Some("Hogar")), MockNow);
    assert first.value.products[0].id == 1;
  }

  /** A price of zero is rejected with the price message, not the
      missing-fields one. */
  lemma AddZeroPrice()
    ensures AddProduct([], Payload(Some(1), Some("Producto 1"), Some(0), None, Some("Electrónica")), MockNow) ==
            Failure(Error(ValidationError, "El precio debe ser mayor que cero"))
  {
  }

  /** Restocking 10 units by 5 gives 15 and stamps the update time. */
  lemma RestockFromTen()
    ensures var added := AddProduct([], FullPayload(1, "Producto 1", 100, 10, "Electrónica"), MockNow);
            && added.Success?
            && var updated := UpdateStock(added.value.products, 1, 5, MockNow);
               && updated.Success?
               && updated.value.value.stock == 15
               && updated.value.value.updatedAt == Some(MockNow)
  {
  }

  /** Taking 10 units out of 5 is rejected with the insufficient-stock message. */
  lemma OverdrawFromFive()
    ensures var added := AddProduct([], FullPayload(1, "Producto 1", 100, 5, "Electrónica"), MockNow);
            && added.Success?
            && UpdateStock(added.value.products, 1, -10, MockNow) ==
               Failure(Error(ValidationError, "No hay suficiente stock disponible"))
  {
  }

  /** The three-product ledger of the category tests, built by three adds. */
  function ThreeProducts(): seq<Product> {
    [ Stored(1, "Producto 1", 100, 5, "Electrónica"),
      Stored(2, "Producto 2", 200, 3, "Electrónica"),
      Stored(3, "Producto 3", 150, 4, "Hogar") ]
  }

  lemma ThreeAddsBuildLedger()
    ensures var a := AddProduct([], FullPayload(1, "Producto 1", 100, 5, "Electrónica"), MockNow);
            && a.Success?
            && var b := AddProduct(a.value.products, FullPayload(2, "Producto 2", 200, 3, "Electrónica"), MockNow);
               && b.Success?
               && var c := AddProduct(b.value.products, FullPayload(3, "Producto 3", 150, 4, "Hogar"), MockNow);
                  && c.Success?
                  && c.value.products == ThreeProducts()
  {
  }

  /** Querying "Electrónica" returns the first two products, in the order
      they were added; querying "Ropa" on a ledger holding only product 1
      fails with the not-found message. */
  lemma QueryCategories()
    ensures GetProductsByCategory(ThreeProducts(), "Electrónica") ==
            Success([Stored(1, "Producto 1", 100, 5, "Electrónica"),
                     Stored(2, "Producto 2", 200, 3, "Electrónica")])
    ensures GetProductsByCategory([Stored(1, "Producto 1", 100, 5, "Electrónica")], "Ropa") ==
            Failure(Error(NotFoundError, "No se encontraron productos en esta categoría"))
  {
    var ps := ThreeProducts();
    assert ps[..2][..1] == ps[..1] == [ps[0]];
    assert ps[..1][..0] == [];
    assert FilterCategory(ps[..1], "Electrónica") == [ps[0]];
    assert FilterCategory(ps[..2], "Electrónica") == [ps[0], ps[1]];
  }

  /** (100 * 5) + (50 * 10) = 1000; an empty ledger is worth 0. */
  lemma TotalValues()
    ensures TotalValue([Stored(1, "Producto 1", 100, 5, "Electrónica"),
                        Stored(2, "Producto 2", 50, 10, "Hogar")]) == 1000
    ensures TotalValue([]) == 0
  {
  }
}
