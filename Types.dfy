/** The value types of the chat storefront: catalog products, cart lines,
    chat messages and their buttons. */
module Types {

  datatype Option<+T> = None | Some(value: T)

  /** A catalog entry. The catalog is fixed for the whole session. */
  datatype Product = Product(id: string, name: string, price: int, description: string, imageUrl: string)

  /** The closed set of message kinds; the renderer matches on it exhaustively. */
  datatype MessageType = Text | Image | ProductCard | System

  datatype Sender = User | Bot

  datatype ButtonVariant = Primary | Secondary | Danger

  /** The label of a button: a fixed text, or the "buy for <price> ₽" label of a product card,
      kept as the price it shows rather than as the formatted string. */
  datatype Caption = Label(s: string) | BuyFor(price: int)

  /** A button under a message; clicking it runs `action` as a command token. */
  datatype MessageButton = MessageButton(caption: Caption, action: string, variant: Option<ButtonVariant>)

  /** One line of a cart summary: product name, quantity and price times quantity. */
  datatype LineView = LineView(name: string, quantity: int, lineTotal: int)

  /** The text of a message. Most texts are plain strings; the cart summary is kept
      as its lines and its grand total instead of the formatted string. */
  datatype Body = Say(s: string) | CartSummary(lines: seq<LineView>, total: int)
  {
    /** A falsy text in the source: only the empty string. A formatted cart summary
        always has a heading, so it is never empty. */
    predicate IsEmpty() {
      Say? && s == ""
    }
  }

  /** A chat message. `id` stands for the random identifier; the timestamp is not kept. */
  datatype Message = Message(
    id: nat,
    kind: MessageType,
    text: Option<Body>,
    product: Option<Product>,
    sender: Sender,
    buttons: Option<seq<MessageButton>>)

  /** A cart line: a product and how many of it. */
  datatype CartItem = CartItem(product: Product, quantity: int)
}
