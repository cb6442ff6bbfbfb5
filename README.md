# Chat storefront session, modelled in Dafny

The application is a single-page chat that imitates a messenger bot for a plush-toy
shop. A user can browse a fixed catalog, add products to a cart, look at the cart,
check out, and chat with a language-model assistant. All state lives in one page
component (`App.tsx`):

- the message log;
- the cart, an ordered list of (product, quantity) lines;
- the "bot is typing" flag.

Two entry points change that state:

- `handleCommand` interprets a command token. It handles `/catalog`, `/cart`,
  `/clear_cart`, `/clear`, `/checkout`, `/help` and `add_to_cart:<id>`. It returns
  false for anything else.
- `handleSend` handles a submitted line of text.

This project models that session and proves what each command and each path of
`handleSend` does to the log and the cart.

Files:

- `Types.dfy` holds the records of `types.ts` as datatypes. `MessageType` is a closed
  datatype.
- `Cart.dfy` holds the cart update of `add_to_cart` (increment the line for that
  product, else append a line), the cart total (a left fold, proved equal to the sum
  of price times quantity) and the badge count.
- `History.dfy` holds the history pipeline handed to the completion service: filter
  the text messages with non-empty text, map them to (role, text), keep the last ten.
- `Commands.dfy` describes both entry points as functions of the session state
  (`Command` and `Send`), with one lemma per command and per path.
- `Session.dfy` holds the class `Session`. Its fields are the log, the cart, the
  typing flag and a message-id counter. Its methods `HandleCommand` and `HandleSend`
  change them step by step. The `/catalog` command appends its cards in a loop. Each
  method is proved to end in the state that `Command`/`Send` describe, and to keep
  the session invariant: at most one cart line per product id, every line for a
  catalog product with a positive quantity, and rising, distinct message ids.

How the code behaves:

- A typed line that starts with `/` is only logged. The `||` in `handleSend` stops
  at the `startsWith('/')` test, so no command runs. Slash commands run only from
  buttons and from the menu, which call `handleCommand` directly. A typed
  `add_to_cart:<id>` does run, because non-slash text is passed to `handleCommand`.
- Command tokens use underscores (`/clear_cart`, `add_to_cart:`).
- The product id is `split(':')[1]`: the text between the first colon and the next
  one.
- The broad test for words like "каталог", "товар" and "купить" is only a gate.
  Only the exact lower-case lines "каталог" and "товары" open the catalog.
  `SynonymPassesGate` shows that the gate never decides anything by itself.
- The history uses the log as it was before the user's current line. The line
  itself goes to the service as the prompt.

## Model

Rows whose third column reads "definition" name members without a contract of their own;
the rows after them state the properties proved about them.

| member | source | states |
|---|---|---|
| `Cart.AddItem` | App.tsx:130-140 | definition of the `add_to_cart` cart update, no contract; properties in `Cart.AddItemEffect`, `Cart.AddItemKeepsCartOk`, `Cart.AddItemTotals`, `Cart.RepeatedAdds` |
| `Cart.Total` | App.tsx:87 | definition of the `reduce` grand total, no contract; properties in `Cart.TotalIsSum`, `Cart.AddItemTotals`, `Cart.SummaryAddsUp` |
| `Cart.CartCount` | App.tsx:247 | definition of the `reduce` badge count, no contract; properties in `Cart.TotalIsSum`, `Cart.CartCountBounds` |
| `Cart.AddItemEffect` | App.tsx:130-140 | with one line per id: an existing line for the product rises by exactly one and every other line is unchanged; otherwise one line `{product, 1}` is appended at the end |
| `Cart.AddItemKeepsCartOk` | App.tsx:130-140 | adding a catalog product keeps at most one line per product id, with positive quantities, all from the catalog |
| `Cart.RepeatedAdds` | App.tsx:130-140 | n ≥ 1 additions of a product not yet in the cart leave exactly one new line for it, at the end, with quantity n |
| `Cart.AddItemTotals` | App.tsx:130-140 | adding catalog product p raises the total by p's price and the badge count by one |
| `Cart.TotalIsSum` | App.tsx:87 | the `reduce` total (a left fold from 0) equals the sum of price × quantity over the lines; likewise the badge count equals the sum of the quantities |
| `Cart.FoldIsSum` | App.tsx:87 | a left fold with accumulator `acc` equals `acc` plus the sum over the lines |
| `Cart.ExampleTotal` | App.tsx:87 | with A at 500 and B at 300, adding A once and B twice gives a total of 1100 |
| `Cart.SummaryAddsUp` | App.tsx:87-90 | the line totals listed in the cart summary (price × quantity per line) add up to the grand total shown beneath them |
| `Cart.CartCountBounds` | App.tsx:247 | with positive quantities the badge count is at least the number of lines, and zero exactly for an empty cart |
| `History.BuildHistory` | App.tsx:179-185 | definition of the history pipeline (filter, map, last ten), no contract; properties in `History.HistoryShape`, `History.TextMessagesSkip` |
| `History.TextMessages` | App.tsx:180 | the filter keeps only TEXT messages with non-empty text, drawn from the log, and never more than the log holds |
| `History.TextMessagesAppend` | App.tsx:180 | the filter distributes over concatenation, so it keeps log order |
| `History.TextMessagesSnoc` | App.tsx:180 | appending one message extends the filtered list by that message exactly when it passes the filter |
| `History.TextMessagesNone` | App.tsx:180 | a list of messages none of which passes the filter yields nothing |
| `History.TextMessagesSkip` | App.tsx:179-185 | product cards and other messages that fail the filter never reach the history |
| `History.HistoryShape` | App.tsx:179-185 | the history has at most 10 entries, min(10, number of filtered messages) of them; it is the suffix of the filtered list; entry k has that message's text, and role `user` exactly for user messages (`model` otherwise) |
| `Commands.Command` | App.tsx:72-152 | definition of `handleCommand` on the session state, no contract; properties in the command lemmas below and `App.Session.HandleCommand` |
| `Commands.ShowCatalog` | App.tsx:73-81 | definition of the `/catalog` branch, no contract; properties in `Commands.CatalogCommand`, `App.Session.ShowCatalogMessages` |
| `Commands.Field1` | App.tsx:127 | definition of `split(':')[1]`, no contract; properties in `Commands.ParseProductId`, `Commands.ColonIdCutShort` |
| `Commands.Lower` | App.tsx:165 | definition of `toLowerCase` for Latin and Russian letters, no contract; used by `Commands.SynonymIsNoToken`, `Commands.SendCatalogSynonym` |
| `Commands.Send` | App.tsx:154-196 | definition of `handleSend` on the session state, no contract; properties in the typed-text lemmas below and `App.Session.HandleSend` |
| `Commands.Converse` | App.tsx:164-195 | definition of the free-text part of `handleSend`, no contract; properties in `Commands.SendCatalogSynonym`, `Commands.SendAsksCompletion` |
| `Commands.FindProduct` | App.tsx:128 | a found product is in the catalog and has the wanted id; no product is found only when no catalog product has that id |
| `Commands.FindCatalogProduct` | App.tsx:128 | with distinct ids, looking up a catalog product's id finds that product |
| `Commands.ParseProductId` | App.tsx:126-127 | `add_to_cart:` followed by a colon-free id (and possibly `:` and more) starts with the token, and its second colon field is that id |
| `Commands.ColonIdCutShort` | App.tsx:126-128 | with products "a" and "a:b", the buy button of "a:b" adds the product "a": an id with a colon of its own is cut short by `split(':')[1]` |
| `Commands.CommandHandled` | App.tsx:72-152 | a token that is none of the six slash commands and no `add_to_cart:` token (with or without a leading `/`) returns false and changes nothing; any unhandled token changes nothing; text not starting with `/` is handled exactly when it starts with `add_to_cart:` |
| `Commands.AddToCartKnown` | App.tsx:126-149 | `add_to_cart:<id>` of a catalog product is handled; the cart becomes the add-item update (existing line +1 and others unchanged, or `{p, 1}` appended); exactly one confirmation naming the product, with a "go to cart" button, is appended |
| `Commands.AddToCartUnknown` | App.tsx:126-149 | `add_to_cart:` with an id no catalog product has returns true and changes neither cart nor log |
| `Commands.CartCommand` | App.tsx:83-98 | `/cart` keeps the cart and appends exactly one bot text message: on an empty cart the empty-cart text with no buttons; otherwise a summary with one line per cart line showing its name, quantity and price × quantity, line totals adding up to the total Σ price × quantity, and exactly two buttons, `/checkout` then `/clear_cart` |
| `Commands.ClearCartCommand` | App.tsx:100-104 | `/clear_cart` empties the cart and appends one confirmation; running it again leaves the same (empty) cart |
| `Commands.ClearCommand` | App.tsx:106-112 | `/clear` leaves the log as exactly one bot TEXT message, the greeting, with exactly one button whose action is `/catalog`; the cart is untouched |
| `Commands.CheckoutCommand` | App.tsx:114-119 | `/checkout` on an empty cart changes nothing; on a non-empty cart it appends exactly one confirmation and empties the cart |
| `Commands.HelpCommand` | App.tsx:121-124 | `/help` is handled, appends exactly one bot text with the help text and no buttons, and leaves the cart alone |
| `Commands.CatalogCommand` | App.tsx:73-81 | `/catalog` appends exactly 1 + \|catalog\| messages: the announcement, then one PRODUCT_CARD per product in catalog order, each with exactly one button whose action is `add_to_cart:` + that product's id; the cart is untouched |
| `Commands.CardsAt` | App.tsx:76-79 | the card block has one card per product, card k showing product k with id firstId + k |
| `Commands.CardButtonAddsProduct` | App.tsx:58-70 | pressing the button of the k-th card of a card block, in any later state, adds that very product to the cart (for a colon-free id) |
| `Commands.CommandKeepsConsistent` | App.tsx:72-152 | every command keeps the session invariant: at most one cart line per product id, each for a catalog product with a positive quantity, and rising message ids below the next id |
| `Commands.SendLogsUserFirst` | App.tsx:154-155 | on every path a submitted line first appends exactly one user text message with that text, and the earlier log is kept |
| `Commands.SendSlash` | App.tsx:158-162 | a line starting with `/` only appends the user message: no command runs, no completion is requested, the cart is untouched |
| `Commands.SendAddToCart` | App.tsx:158-162 | a typed `add_to_cart:<id>` of a catalog product is executed: the log gains the user line and then the confirmation, the cart gets the product, and no completion is requested |
| `Commands.SynonymPassesGate` | App.tsx:166-169 | every exact synonym ("каталог", "товары") passes the broad mention test, so that test never decides anything by itself |
| `Commands.SendCatalogSynonym` | App.tsx:164-174 | a line whose lower case is exactly "каталог" or "товары" logs the line and then shows the catalog; no completion is requested |
| `Commands.SendAsksCompletion` | App.tsx:176-195 | the service is asked exactly for a line that is no slash text, no `add_to_cart:` token and no exact synonym; it gets the line and the history of the log before the line (≤ 10 entries); the log gains the user line and one bot message with the reply, or the fixed apology if the call threw; the cart is untouched |
| `Commands.SendKeepsConsistent` | App.tsx:154-196 | every path of a submitted line keeps the session invariant |
| `App.Session.constructor` | App.tsx:24-33 | the session opens with an empty cart, the typing flag off, and a log holding just the greeting with its catalog button |
| `App.Session.CartBadge` | App.tsx:247 | the badge count is at least the number of cart lines and is zero exactly for an empty cart |
| `App.Session.AddBotMessage` | App.tsx:35-45 | appends one bot TEXT message with the given text and buttons and a fresh id; nothing else changes |
| `App.Session.AddUserMessage` | App.tsx:47-56 | appends one user TEXT message with the given text, no buttons and a fresh id; nothing else changes |
| `App.Session.AddProductMessage` | App.tsx:58-70 | appends one bot PRODUCT_CARD message for the product, with its single buy button; nothing else changes |
| `App.Session.ShowCatalogMessages` | App.tsx:73-81 | the announcement and then one card per catalog product, appended in a loop, leave exactly the state `/catalog` describes; the cart and the typing flag are untouched |
| `App.Session.HandleCommand` | App.tsx:72-152 | ends in exactly the state and result `Command` gives for the old state, keeps the session invariant and leaves the typing flag alone |
| `App.Session.Converse` | App.tsx:164-195 | the free-text part of a submitted line ends in exactly the state and request `Converse` gives, keeps the session invariant and leaves the typing flag alone |
| `App.Session.HandleSend` | App.tsx:154-196 | ends in exactly the state and request `Send` gives for the old state, keeps the session invariant, and leaves the typing flag off on every return path |

## Left out

- Rendering is not modelled: the JSX, auto-scroll, the typing-dots markup, and the
  `ChatMessage` and `ChatInput` components. Nothing constrains the submitted text:
  the input widget trims it and sends only non-empty text, but `handleSend` itself
  does not rely on that.
- The completion service (`services/geminiService.ts`) is replaced by an input value,
  `Completion = Replied(text) | Threw`. The service catches its own errors and
  returns fallback strings, so in practice `Threw` never occurs. It is kept to model
  the `catch` branch of `handleSend`. The SDK call, the `process.env` key lookup and
  the prompt preamble are not modelled.
- The 200 ms pause between catalog cards is not modelled. Nor is React's
  asynchronous state batching: one invocation at a time is assumed, acting on the
  current state. Each `await` becomes a sequential step.
- Random message ids are modelled as a counter (`nextId`), and timestamps are
  dropped. The message fields `imageUrl` and `timestamp` are not modelled; no core
  path sets `imageUrl`.
- `constants.ts` is not part of this model. The catalog is a parameter with distinct
  ids, and the greeting is an arbitrary string.
- The formatted cart-summary string is not built. The summary message carries its
  lines (name, quantity, price × quantity) and its grand total instead. The history
  entries carry that same text value, and the `parts: [{text}]` wrapper is collapsed
  to one text.
- Prices are integers. JavaScript's floating-point numbers (fractional prices,
  rounding) are not modelled.
- `Commands.Lower` lower-cases Latin letters, the basic Russian alphabet and Ё only.
  Other scripts' case mapping is not modelled. This affects only which lines count as
  the exact catalog synonyms.
- `Commands.ParseProductId`: assumes a product id without `:`. For an id with a colon,
  `split(':')[1]` cuts the id short, and a card's button then looks up the shortened
  id: it finds nothing, or a different product whose id is that prefix
  (`Commands.ColonIdCutShort` shows the second case).
- `Commands.AddToCartKnown`: assumes a product id without `:`, for the same reason.
- `Commands.CardButtonAddsProduct`: assumes a product id without `:`, for the same reason.
- `Commands.SendAddToCart`: assumes a product id without `:`, for the same reason.
- Button captions are kept as values: the buy button of a card carries `BuyFor(price)`
  instead of the text "Купить за N ₽", so the conversion of the price to a decimal
  string is not modelled. The button's action, which decides what it does, is modelled
  exactly.
