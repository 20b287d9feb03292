/**
 * The storefront's entities. Money is held in integer cents, product ratings in
 * integer tenths of a star (4.7 stars is 47) and order dates as integer timestamps.
 */
module Types {

  datatype Option<T> = None | Some(value: T)

  /** The vendor reference embedded in every product (a snapshot, not a live link). */
  datatype Shop = Shop(id: string, name: string)

  /** An entry of the static category catalog; products refer to it by name. */
  datatype Category = Category(id: string, name: string)

  /**
   * The optional "original price" of a product. Besides being absent or a number,
   * the form can produce NaN (a non-empty text that does not parse as a number);
   * NaN, like 0 and absence, is falsy wherever the storefront tests the field.
   */
  datatype OptionalPrice = NoPrice | Price(cents: int) | NotANumber

  datatype Product = Product(
    id: Option<string>,        // absent until the catalog assigns one
    name: string,
    price: int,                // cents
    originalPrice: OptionalPrice,
    rating: int,               // tenths of a star
    reviewCount: int,
    imageUrl: string,
    category: string,          // a category name
    shop: Shop,
    images: seq<string>,
    description: string,
    stock: int
  )

  /** A line of an order: a snapshot of the product at purchase time. */
  datatype OrderItem = OrderItem(id: string, name: string, imageUrl: string, price: int, quantity: int)

  datatype Order = Order(
    id: string,
    date: int,
    status: string,
    total: int,
    items: seq<OrderItem>,
    customerName: Option<string>
  )

  datatype Address = Address(street: string, city: string, zipCode: string)

  datatype User = User(id: string, name: string, email: string, address: Address)

  /** The amount of one order line, `price * quantity`. */
  function LineTotal(item: OrderItem): int
  {
    item.price * item.quantity
  }

  function Quantity(item: OrderItem): int
  {
    item.quantity
  }
}
