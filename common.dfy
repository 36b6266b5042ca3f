/** Types shared by the restaurant assistant's components. */
module Common {

  /** An optional value, standing for a JavaScript value that may be `undefined`. */
  datatype Option<T> = None | Some(value: T) {
    function GetOr(default: T): T {
      match this
      case Some(v) => v
      case None => default
    }
  }

  /** The two interface languages, `'en'` and `'hi'`. */
  datatype Language = En | Hi

  /** One line of an order, as built by the menu and kept in the cart.
      `price` is in whole rupees; `notes` is optional. */
  datatype OrderItem = OrderItem(
    id: string,
    name: string,
    price: int,
    quantity: int,
    notes: Option<string>,
    category: string,
    isVeg: bool
  )
}
