/**
 Data model of the in-memory inventory ledger: product records, the payload
 accepted by `addProduct`, and the typed failures every ledger operation can
 raise, each carrying its user-facing message verbatim.
 */
module InventoryTypes {

  /** A value that may be absent: a payload field that was not supplied, a
      timestamp not yet set, a lookup that found nothing. */
  datatype Option<T> = None | Some(value: T)

  /** The three failure kinds of the ledger. */
  datatype ErrorKind = ValidationError | ConflictError | NotFoundError

  /** A failure: its kind and the message text callers see. */
  datatype Error = Error(kind: ErrorKind, message: string)

  /** Either the operation's value or the failure it raised. */
  datatype Result<T> = Success(value: T) | Failure(error: Error)

  /** A ledger operation's successful outcome: the ledger after the call and
      the value the call returns. */
  datatype Step<T> = Step(products: seq<Product>, value: T)

  /** A stored product record. Prices, stocks and timestamps are whole
      numbers; `updatedAt` is absent until the first stock change. */
  datatype Product = Product(
    id: int,
    name: string,
    price: int,
    stock: int,
    category: string,
    createdAt: int,
    updatedAt: Option<int>)

  /** The record handed to `addProduct`; any field may be missing. */
  datatype Payload = Payload(
    id: Option<int>,
    name: Option<string>,
    price: Option<int>,
    stock: Option<int>,
    category: Option<string>)

  const MissingFieldsMessage: string := "El producto debe tener id, nombre, precio y categoría"
  const DuplicateIdMessage: string := "Ya existe un producto con este ID"
  const NonPositivePriceMessage: string := "El precio debe ser mayor que cero"
  const InsufficientStockMessage: string := "No hay suficiente stock disponible"
  const CategoryNotFoundMessage: string := "No se encontraron productos en esta categoría"
  /** Raised by `updateStock` for an unknown id; the wording is this model's choice. */
  const ProductNotFoundMessage: string := "Producto no encontrado"

  /** The stock a product gets when the payload leaves it out. */
  const DefaultStock: int := 0

  const MissingFields: Error := Error(ValidationError, MissingFieldsMessage)
  const DuplicateId: Error := Error(ConflictError, DuplicateIdMessage)
  const NonPositivePrice: Error := Error(ValidationError, NonPositivePriceMessage)
  const InsufficientStock: Error := Error(ValidationError, InsufficientStockMessage)
  const CategoryNotFound: Error := Error(NotFoundError, CategoryNotFoundMessage)
  const ProductNotFound: Error := Error(NotFoundError, ProductNotFoundMessage)
}
