/** The records the cart works on: a cart line, the catalogue record a new line is
    built from, and the results an operation can report. */
module Types {

  /** One line of the cart: a product and how many of it were requested.
      `price` is carried from the catalogue and never computed with. */
  datatype Product = Product(id: int, title: string, price: real, image: string, amount: int)

  /** What the catalogue returns for one product: a product record without an amount. */
  datatype ProductData = ProductData(id: int, title: string, price: real, image: string)

  /** The line added for a product that is not in the cart yet: the catalogue
      record with an amount of one. */
  function NewProduct(d: ProductData): Product
  {
    Product(d.id, d.title, d.price, d.image, 1)
  }

  /** The three failures an operation reports to the user. */
  datatype CartError =
    | OutOfStock    // the requested or incremented amount is above the stock
    | RemoveFailed  // removing a product that is not in the cart
    | UpdateFailed  // changing the amount of a product that is not in the cart

  /** How an operation ended: it changed the cart, it reported an error and left
      the cart alone, or it found no stored cart and did nothing at all. */
  datatype Outcome = Done | Failed(error: CartError) | NoStoredCart
}
