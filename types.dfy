/** The records shared by the storefront, its cart and its chat panel.
    Prices are integer cents and ratings integer tenths; the original
    stores both as floating-point numbers. */
module Types {

  datatype Option<+T> = None | Some(value: T)

  /** The fixed set of product categories. */
  datatype Category = Figures | Apparel | Accessories | MysteryBox | Cosplay

  /** An immutable catalog record. */
  datatype Product = Product(
    id: int,
    name: string,
    price: nat,      // cents
    category: Category,
    image: string,
    rating: nat      // tenths of a star
  )

  /** A product in the cart together with how many of it were added. */
  datatype CartItem = CartItem(product: Product, quantity: int) {
    function Id(): int { product.id }
  }

  /** Who wrote a chat message: the shopper or the assistant model. */
  datatype Role = User | Model

  /** A chat message; its timestamp is not modelled. */
  datatype ChatMessage = ChatMessage(role: Role, text: string)

  /** The top-level screens of the storefront. */
  datatype View = Home | Shop | Chat | Login
}
