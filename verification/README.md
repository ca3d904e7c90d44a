# Inventory ledger, modelled in Dafny

The repository's inventory component, `Inventory`, keeps an in-memory,
ordered list of product records (`products`) and offers four operations:

- `addProduct(payload)` checks that the payload has an id, a name, a price
  and a category, rejects an id that is already stored, rejects a price that
  is not above zero, and appends the record stamped with a creation time;
- `updateStock(id, delta)` adds a signed delta to a product's stock, refuses
  any result below zero, and stamps the update time;
- `getProductsByCategory(category)` lists the products of exactly that
  category in insertion order, and fails when there are none;
- `calculateTotalValue()` sums `price * stock` over the ledger, 0 when it is
  empty.

The module implementing `Inventory` (`inventory.js`) is not part of this
model: its behaviour is fixed by the Jest suite `inventory.test.skeleton.js`,
and the model follows the assertions of that suite.

Files:

- `inventory_types.dfy` (module `InventoryTypes`): `Product`, the optional
  fields of the add `Payload`, the three failure kinds with their Spanish
  messages verbatim, `Result` and `Step` (new ledger plus returned value).
- `ledger.dfy` (module `Ledger`): the state invariant (`Valid`: unique ids,
  positive prices, non-negative stocks), lookup by id, and the four
  operations. The ledger is a `seq<Product>` value; an operation that
  succeeds returns the new ledger with its result, an operation that fails
  returns only the error, so a failed call cannot change the ledger. The
  suite fixes `Date` to one instant; here the time is an explicit `now`
  parameter, in milliseconds.
- `ledger_properties.dfy` (module `LedgerProperties`): invariant
  preservation, lookup after insertion, insertion order of category queries,
  the total value under each operation, and validity after any sequence of
  calls.
- `scenarios.dfy` (module `Scenarios`): each test case of the suite as a
  statement about the model.

## Model

| member | source | states |
|---|---|---|
| Ledger.AddProduct | inventory.test.skeleton.js:13-97 | Missing id, name, price or category fails with "El producto debe tener id, nombre, precio y categoría"; a stored id fails with "Ya existe un producto con este ID" whatever the other fields; a price of 0 or less fails with "El precio debe ser mayor que cero"; success holds exactly when none of these apply, and then the ledger is the old one plus the new record at the end, which carries the payload's fields, `createdAt = now` and no `updatedAt` |
| Ledger.UpdateStock | inventory.test.skeleton.js:101-133 | An unknown id fails; a stock that would drop below zero fails with "No hay suficiente stock disponible"; otherwise the returned record has stock old + delta, `updatedAt = now` and its other fields unchanged, lookup by id in the new ledger finds it, the ledger keeps its length and id order, the new record sits at the position of the first record with that id, and the record at every other position is untouched |
| Ledger.FilterCategory | inventory.test.skeleton.js:162-183 | The listing contains a record exactly when the ledger holds it with that category, and is no longer than the ledger |
| Ledger.GetProductsByCategory | inventory.test.skeleton.js:137-200 | Fails with "No se encontraron productos en esta categoría" exactly when no record has the category; otherwise returns a non-empty list holding every and only the records of that category |
| Ledger.CalculateTotalValue | inventory.test.skeleton.js:204-238 | The one-pass sum equals the reference total, the sum of `price * stock` over the records, and is 0 for an empty ledger |
| Ledger.IndexOf | inventory.test.skeleton.js:113 | Finds the first record carrying the id, and finds one exactly when the ledger holds the id |
| LedgerProperties.AddPreservesValid | inventory.test.skeleton.js:13-97 | A successful add keeps ids unique, prices positive and stocks non-negative, given a payload stock that is absent or non-negative |
| LedgerProperties.AddAcceptsNegativeStock | inventory.test.skeleton.js:15-21 | No add check looks at the stock field: a payload with stock -1 is stored and the ledger invariant then fails |
| LedgerProperties.AddThenLookup | inventory.test.skeleton.js:23-45 | After a successful add, lookup by the id returns the stored record, and the appended record is the only one carrying that id |
| LedgerProperties.UpdatePreservesValid | inventory.test.skeleton.js:120-133 | A successful stock update keeps the ledger valid: stock never goes below zero, ids stay unique, prices stay positive |
| LedgerProperties.FilterIsOrderedSelection | inventory.test.skeleton.js:162-183 | The category listing equals the records picked, in order, at `MatchingIndices`: the strictly ascending list of every position whose record has the category. So it holds exactly the matches, in insertion order |
| LedgerProperties.GetProductsByCategoryOrdered | inventory.test.skeleton.js:162-183 | A successful category query returns the records at the strictly ascending matching positions: every match, once each, in insertion order |
| LedgerProperties.FilterConcat | inventory.test.skeleton.js:162-183 | The listing of a concatenated ledger is the listing of the first part followed by that of the second |
| LedgerProperties.AddThenCategoryQuery | inventory.test.skeleton.js:137-183 | A successful add puts the new record last in its category's listing and leaves other categories' listings unchanged |
| LedgerProperties.TotalValueConcat | inventory.test.skeleton.js:204-226 | The total value of two concatenated ledgers is the sum of their totals |
| LedgerProperties.TotalValueNonNegative | inventory.test.skeleton.js:204-238 | A ledger with positive prices and non-negative stocks has a non-negative total |
| LedgerProperties.AddTotalValue | inventory.test.skeleton.js:204-226 | A successful add raises the total by the new record's price times its stock |
| LedgerProperties.UpdateTotalValue | inventory.test.skeleton.js:101-118 | A successful stock update moves the total by the record's price times the delta |
| LedgerProperties.RunPreservesValid | inventory.test.skeleton.js:13-133 | From a valid ledger, any sequence of adds and stock updates, each succeeding or failing, ends in a valid ledger, given that no add payload carries a negative stock |
| Scenarios.AddToEmptyLedger | inventory.test.skeleton.js:13-46 | Adding product 1 to an empty ledger returns the stored record with `createdAt` and no `updatedAt`, and the ledger is exactly that record |
| Scenarios.AddWithoutName | inventory.test.skeleton.js:48-59 | A payload without a name fails with the missing-fields message |
| Scenarios.AddDuplicateId | inventory.test.skeleton.js:61-82 | After storing id 1 without a stock, adding id 1 again with other data fails with the conflict message |
| Scenarios.AddZeroPrice | inventory.test.skeleton.js:84-97 | Price 0 fails with the price message |
| Scenarios.RestockFromTen | inventory.test.skeleton.js:101-118 | Stock 10 updated by 5 becomes 15 with `updatedAt` set to the clock |
| Scenarios.OverdrawFromFive | inventory.test.skeleton.js:120-133 | Stock 5 updated by -10 fails with the insufficient-stock message |
| Scenarios.ThreeAddsBuildLedger | inventory.test.skeleton.js:139-159 | Three adds build the three-record ledger of the category tests, in order |
| Scenarios.QueryCategories | inventory.test.skeleton.js:137-199 | On the three-product ledger "Electrónica" lists products 1 and 2 in that order; on a ledger holding only product 1, "Ropa" fails with the not-found message |
| Scenarios.TotalValues | inventory.test.skeleton.js:204-238 | 100 * 5 + 50 * 10 = 1000, and an empty ledger is worth 0 |

## Left out

- `mensaje.test.js`: direct messages between users go through an HTTP app and a database that are not part of this model; its one rule (no messages to oneself) is not modelled.
- The Jest machinery (`describe`, `beforeEach`, the global `Date` mock, deep equality): the clock is the `now` parameter and equality is datatype equality.
- Dates are whole milliseconds since the epoch; prices, stocks and values are unbounded integers. Floating-point prices and JavaScript number overflow are not modelled.
- Object identity: the design describes `updateStock` as returning the very object its list holds, so that a caller could mutate a stored record through it; the suite never asserts this. The model returns the updated record and the new ledger as values instead.
- A field counts as missing only when it is absent. Whether the original also rejects present-but-falsy values such as an empty name is not asserted by the suite and is not modelled; a price of 0 must not count as missing, since the suite expects the price message for it.
- Behaviours the suite never asserts are design choices of this model, not claims about the original: an omitted stock defaults to 0; `updateStock` on an unknown id fails with a not-found error whose message, "Producto no encontrado", is this model's wording; the missing-fields check runs before the duplicate-id check, so an incomplete payload with a stored id gets the missing-fields message; the duplicate-id check runs before the price check; a failed call leaves the ledger as it was.
- LedgerProperties.AddPreservesValid: requires the payload's stock to be absent or non-negative, because no check of `addProduct` asserted by the suite looks at the stock, so a negative initial stock is stored (see LedgerProperties.AddAcceptsNegativeStock).
- LedgerProperties.RunPreservesValid: carries the same non-negative payload-stock condition, for the same reason.
