/** The behaviour of the two entry points of the chat as functions of the session state:
    `Command` is the local command interpreter (menu and button clicks, and typed text that
    is not a slash command), `Send` is what happens to a line the user types. The lemmas
    below state what each command and each path of `Send` does to the log and the cart. */
module Commands {
  import opened Types
  import opened Cart
  import opened History

  // The bot's fixed texts.
  const CatalogAnnouncement: string := "Вот наши самые популярные игрушки! 👇"
  const EmptyCartText: string := "Ваша корзина пуста 🕸️. Давайте добавим туда что-нибудь мягкое!"
  const CartClearedText: string := "Корзина очищена! ✨"
  const OrderConfirmedText: string := "🎉 Спасибо за заказ! В реальности здесь открылась бы форма оплаты. А пока — держите виртуальный чек! 🧾\n\nМенеджер свяжется с вами (нет)."
  const HelpText: string := "Я умею:\n\n🔹 Показывать каталог (/catalog)\n🔹 Считать сумму в корзине (/cart)\n🔹 Болтать о плюшевых мишках (просто напиши мне!)\n\nПопробуй спросить: «Есть что-то с ушками?»"
  const AddedPrefix: string := "✅ Добавлено: "
  const TiredText: string := "Ой, я немного устал. Попробуй позже!"

  /** The parameterised command token; the product id follows the colon. */
  const AddToCartPrefix: string := "add_to_cart:"

  // The fixed buttons.
  const CatalogButton: MessageButton := MessageButton(Label("Посмотреть каталог"), "/catalog", None)
  const CheckoutButton: MessageButton := MessageButton(Label("✅ Оформить заказ"), "/checkout", None)
  const ClearCartButton: MessageButton := MessageButton(Label("🗑️ Очистить корзину"), "/clear_cart", Some(Secondary))
  const GoToCartButton: MessageButton := MessageButton(Label("Перейти в корзину"), "/cart", Some(Secondary))

  /** The button of a product card: buy for the price, running `add_to_cart:<id>`. */
  function BuyButton(p: Product): MessageButton {
    MessageButton(BuyFor(p.price), AddToCartPrefix + p.id, None)
  }

  // The three message constructors.

  function BotText(id: nat, body: Body, buttons: Option<seq<MessageButton>>): Message {
    Message(id, Text, Some(body), None, Bot, buttons)
  }

  function UserText(id: nat, s: string): Message {
    Message(id, Text, Some(Say(s)), None, User, None)
  }

  function Card(id: nat, p: Product): Message {
    Message(id, ProductCard, None, Some(p), Bot, Some([BuyButton(p)]))
  }

  /** The greeting shown when the chat opens and after `/clear`. */
  function Greeting(id: nat, greeting: string): Message {
    BotText(id, Say(greeting), Some([CatalogButton]))
  }

  /** The session state: the message log, the cart, and the next message id. */
  datatype Chat = Chat(log: seq<Message>, cart: seq<CartItem>, nextId: nat)

  datatype CommandResult = CommandResult(handled: bool, chat: Chat)

  /** What the completion service gave back: a reply text, or an exception. */
  datatype Completion = Replied(text: string) | Threw

  /** What is asked of the completion service: the typed text and the history. */
  datatype Request = Request(prompt: string, history: seq<Entry>)

  datatype SendResult = SendResult(chat: Chat, request: Option<Request>)

  /** Appends one bot text message. */
  function Post(c: Chat, body: Body, buttons: Option<seq<MessageButton>>): Chat {
    c.(log := c.log + [BotText(c.nextId, body, buttons)], nextId := c.nextId + 1)
  }

  /** One product card per product, in catalog order, with consecutive ids from `firstId`. */
  function Cards(ps: seq<Product>, firstId: nat): seq<Message>
    decreases |ps|
  {
    if ps == [] then []
    else Cards(ps[..|ps| - 1], firstId) + [Card(firstId + |ps| - 1, ps[|ps| - 1])]
  }

  /** `/catalog`: the announcement, then the cards. */
  function ShowCatalog(catalog: seq<Product>, c: Chat): Chat {
    var c1 := Post(c, Say(CatalogAnnouncement), None);
    c1.(log := c1.log + Cards(catalog, c1.nextId), nextId := c1.nextId + |catalog|)
  }

  predicate StartsWith(s: string, prefix: string) {
    |prefix| <= |s| && s[..|prefix|] == prefix
  }

  function UpToColon(s: string): string
    decreases |s|
  {
    if s == [] || s[0] == ':' then [] else [s[0]] + UpToColon(s[1..])
  }

  /** `split(':')[1]`: the text between the first colon and the next one (or the end);
      nothing when there is no colon at all. */
  function Field1(s: string): Option<string>
    decreases |s|
  {
    if s == [] then None
    else if s[0] == ':' then Some(UpToColon(s[1..]))
    else Field1(s[1..])
  }

  /** `find`: the first catalog product whose id is `id`. */
  function FindProduct(catalog: seq<Product>, id: Option<string>): (r: Option<Product>)
    ensures r.Some? ==> r.value in catalog && id == Some(r.value.id)
    ensures r.None? ==> forall p :: p in catalog ==> id != Some(p.id)
    decreases |catalog|
  {
    if id.None? || catalog == [] then None
    else if catalog[0].id == id.value then Some(catalog[0])
    else FindProduct(catalog[1..], id)
  }

  /** Lower case for Latin and Russian letters; other characters are kept. */
  function LowerChar(ch: char): char {
    if 'A' <= ch <= 'Z' then (ch as int + 32) as char
    else if 'А' <= ch <= 'Я' then (ch as int + 32) as char
    else if ch == 'Ё' then 'ё'
    else ch
  }

  function Lower(s: string): string {
    seq(|s|, i requires 0 <= i < |s| => LowerChar(s[i]))
  }

  /** `t` occurs in `s` at position `i`. */
  predicate OccursAt(s: string, t: string, i: int) {
    0 <= i <= |s| - |t| && s[i..i + |t|] == t
  }

  /** `includes`: `t` occurs somewhere in `s`. */
  predicate Contains(s: string, t: string) {
    exists i :: 0 <= i <= |s| - |t| && OccursAt(s, t, i)
  }

  /** The broad test: the text mentions the catalog, goods or buying. */
  predicate MentionsShop(lower: string) {
    Contains(lower, "каталог") || Contains(lower, "товар") || Contains(lower, "купить")
  }

  /** The narrow test that actually opens the catalog. */
  predicate IsCatalogSynonym(lower: string) {
    lower == "каталог" || lower == "товары"
  }

  /** The local command interpreter. `handled` is false only for a token that is no command,
      and then nothing changes. */
  function Command(catalog: seq<Product>, greeting: string, c: Chat, command: string): CommandResult {
    if command == "/catalog" then
      CommandResult(true, ShowCatalog(catalog, c))
    else if command == "/cart" then
      if c.cart == [] then CommandResult(true, Post(c, Say(EmptyCartText), None))
      else CommandResult(true, Post(c, CartSummary(SummaryLines(c.cart), Total(c.cart)), Some([CheckoutButton, ClearCartButton])))
    else if command == "/clear_cart" then
      CommandResult(true, Post(c.(cart := []), Say(CartClearedText), None))
    else if command == "/clear" then
      CommandResult(true, c.(log := [Greeting(c.nextId, greeting)], nextId := c.nextId + 1))
    else if command == "/checkout" then
      if c.cart == [] then CommandResult(true, c)
      else CommandResult(true, Post(c, Say(OrderConfirmedText), None).(cart := []))
    else if command == "/help" then
      CommandResult(true, Post(c, Say(HelpText), None))
    else if StartsWith(command, AddToCartPrefix) then
      match FindProduct(catalog, Field1(command))
      case Some(p) =>
        CommandResult(true, Post(c.(cart := AddItem(c.cart, p)), Say(AddedPrefix + p.name), Some([GoToCartButton])))
      case None => CommandResult(true, c)
    else
      CommandResult(false, c)
  }

  /** The text of the bot's answer on the completion path. */
  function ReplyText(reply: Completion): string {
    match reply
    case Replied(s) => s
    case Threw => TiredText
  }

  /** A line the user typed: it is logged as a user message; a slash command stops there;
      otherwise the interpreter gets it, then the exact catalog synonyms, and only then the
      completion service, with the history of the log as it was before this line. */
  function Send(catalog: seq<Product>, greeting: string, c: Chat, text: string, reply: Completion): SendResult {
    var c1 := c.(log := c.log + [UserText(c.nextId, text)], nextId := c.nextId + 1);
    if StartsWith(text, "/") then SendResult(c1, None)
    else
      var r := Command(catalog, greeting, c1, text);
      if r.handled then SendResult(r.chat, None)
      else Converse(catalog, greeting, c.log, c1, text, reply)
  }

  /** Free text, once the interpreter has declined it: the exact catalog synonyms open the
      catalog; anything else goes to the completion service with the history of `before`,
      the log as it was before the line. */
  function Converse(catalog: seq<Product>, greeting: string, before: seq<Message>, c1: Chat,
                    text: string, reply: Completion): SendResult
  {
    var lower := Lower(text);
    if MentionsShop(lower) && IsCatalogSynonym(lower) then
      SendResult(Command(catalog, greeting, c1, "/catalog").chat, None)
    else
      SendResult(Post(c1, Say(ReplyText(reply)), None), Some(Request(text, BuildHistory(before))))
  }

  /** Message ids rise along the log and are all below the next id, so they are distinct. */
  predicate IdsOk(log: seq<Message>, nextId: nat) {
    (forall i, j :: 0 <= i < j < |log| ==> log[i].id < log[j].id) &&
    (forall i :: 0 <= i < |log| ==> log[i].id < nextId)
  }

  /** The session invariant. */
  predicate Consistent(catalog: seq<Product>, c: Chat) {
    CartOk(catalog, c.cart) && IdsOk(c.log, c.nextId)
  }

  // ---------------------------------------------------------------------------
  // Helper facts

  lemma {:induction false} CardsAt(ps: seq<Product>, firstId: nat)
    ensures |Cards(ps, firstId)| == |ps|
    ensures forall k :: 0 <= k < |ps| ==> Cards(ps, firstId)[k] == Card(firstId + k, ps[k])
    decreases |ps|
  {
    if ps != [] {
      var init := ps[..|ps| - 1];
      CardsAt(init, firstId);
      forall k | 0 <= k < |ps| - 1
        ensures ps[k] == init[k]
      {
      }
    }
  }

  lemma IdsOkAppend(log: seq<Message>, n: nat, extra: seq<Message>)
    requires IdsOk(log, n)
    requires forall k :: 0 <= k < |extra| ==> extra[k].id == n + k
    ensures IdsOk(log + extra, n + |extra|)
  {
  }

  lemma PostKeepsIds(c: Chat, body: Body, buttons: Option<seq<MessageButton>>)
    requires IdsOk(c.log, c.nextId)
    ensures IdsOk(Post(c, body, buttons).log, Post(c, body, buttons).nextId)
  {
  }

  lemma {:induction false} UpToColonOf(id: string, rest: string)
    requires ':' !in id && (rest == [] || rest[0] == ':')
    ensures UpToColon(id + rest) == id
    decreases |id|
  {
    if id == [] {
      assert id + rest == rest;
    } else {
      assert (id + rest)[0] == id[0];
      assert (id + rest)[1..] == id[1..] + rest;
      UpToColonOf(id[1..], rest);
    }
  }

  lemma {:induction false} Field1After(pre: string, s: string)
    requires ':' !in pre
    ensures Field1(pre + [':'] + s) == Some(UpToColon(s))
    decreases |pre|
  {
    if pre == [] {
      assert pre + [':'] + s == [':'] + s;
      assert ([':'] + s)[1..] == s;
    } else {
      assert (pre + [':'] + s)[0] == pre[0];
      assert (pre + [':'] + s)[1..] == pre[1..] + [':'] + s;
      Field1After(pre[1..], s);
    }
  }

  /** The token of a product card's button parses back to the product's id (when the id has
      no colon of its own); anything after a further colon is ignored. */
  lemma ParseProductId(id: string, rest: string)
    requires ':' !in id && (rest == [] || rest[0] == ':')
    ensures StartsWith(AddToCartPrefix + id + rest, AddToCartPrefix)
    ensures Field1(AddToCartPrefix + id + rest) == Some(id)
  {
    var t := AddToCartPrefix + id + rest;
    assert t[..|AddToCartPrefix|] == AddToCartPrefix;
    assert AddToCartPrefix == "add_to_cart" + [':'];
    assert t == "add_to_cart" + [':'] + (id + rest);
    Field1After("add_to_cart", id + rest);
    UpToColonOf(id, rest);
  }

  /** With distinct ids, looking up a catalog product's id finds that product. */
  lemma FindCatalogProduct(catalog: seq<Product>, p: Product)
    requires DistinctIds(catalog) && p in catalog
    ensures FindProduct(catalog, Some(p.id)) == Some(p)
    decreases |catalog|
  {
  }

  /** A typed line starting with a catalog synonym's letter starts neither with `/` nor
      with the `add_to_cart:` token. */
  lemma SynonymIsNoToken(text: string)
    requires IsCatalogSynonym(Lower(text))
    ensures !StartsWith(text, "/") && !StartsWith(text, AddToCartPrefix)
  {
    assert |text| > 0;
    var l := Lower(text);
    assert l[0] == LowerChar(text[0]);
    assert l[0] == 'к' || l[0] == 'т';
    assert LowerChar('/') == '/' && LowerChar('a') == 'a';
    assert text[0] != '/' && text[0] != 'a';
  }

  // ---------------------------------------------------------------------------
  // The commands

  /** A token that is none of the six slash commands and no `add_to_cart:` token, with or
      without a leading `/`, is not handled and changes nothing; in particular typed text that
      does not start with `/` is executed exactly when it is an `add_to_cart:` token. */
  lemma CommandHandled(catalog: seq<Product>, greeting: string, c: Chat, command: string)
    ensures var r := Command(catalog, greeting, c, command);
            (!r.handled ==> r.chat == c) &&
            ((command != "/catalog" && command != "/cart" && command != "/clear_cart" &&
              command != "/clear" && command != "/checkout" && command != "/help" &&
              !StartsWith(command, AddToCartPrefix)) ==> r == CommandResult(false, c)) &&
            (!StartsWith(command, "/") ==> (r.handled <==> StartsWith(command, AddToCartPrefix)))
  {
  }

  /** `add_to_cart:<id>` for a catalog product: the command is handled, the cart line for that
      product rises by one (every other line unchanged) or, if there is none, a line with
      quantity 1 is appended; one confirmation naming the product, with a button to the cart,
      is appended to the log. */
  lemma AddToCartKnown(catalog: seq<Product>, greeting: string, c: Chat, p: Product)
    requires DistinctIds(catalog) && p in catalog && ':' !in p.id && UniqueIds(c.cart)
    ensures var r := Command(catalog, greeting, c, AddToCartPrefix + p.id);
            r.handled &&
            r.chat.cart == AddItem(c.cart, p) &&
            (forall i :: 0 <= i < |c.cart| && c.cart[i].product.id == p.id ==>
               r.chat.cart == c.cart[i := c.cart[i].(quantity := c.cart[i].quantity + 1)]) &&
            (!HasLine(c.cart, p.id) ==> r.chat.cart == c.cart + [CartItem(p, 1)]) &&
            r.chat.log == c.log + [BotText(c.nextId, Say(AddedPrefix + p.name), Some([GoToCartButton]))]
  {
    var command := AddToCartPrefix + p.id;
    ParseProductId(p.id, []);
    assert command + [] == command;
    FindCatalogProduct(catalog, p);
    CommandHandled(catalog, greeting, c, command);
    assert !StartsWith(command, "/") by { assert command[0] == 'a'; }
    AddItemEffect(c.cart, p);
  }

  /** `add_to_cart:` with an id that no catalog product has: handled, and nothing changes. */
  lemma AddToCartUnknown(catalog: seq<Product>, greeting: string, c: Chat, command: string)
    requires StartsWith(command, AddToCartPrefix)
    requires forall p :: p in catalog ==> Field1(command) != Some(p.id)
    ensures Command(catalog, greeting, c, command) == CommandResult(true, c)
  {
  }

  /** `/cart`: the cart is unchanged and one bot message is appended. For an empty cart it is
      the empty-cart text with no buttons; otherwise it lists every line with price times
      quantity, its total is the sum of price times quantity, and it has exactly the checkout
      and clear-cart buttons. */
  lemma CartCommand(catalog: seq<Product>, greeting: string, c: Chat)
    ensures var r := Command(catalog, greeting, c, "/cart");
            r.handled && r.chat.cart == c.cart &&
            |r.chat.log| == |c.log| + 1 && r.chat.log[..|c.log|] == c.log &&
            var m := r.chat.log[|c.log|];
            m.kind == Text && m.sender == Bot &&
            (c.cart == [] ==> m.text == Some(Say(EmptyCartText)) && m.buttons == None) &&
            (c.cart != [] ==>
               m.text.Some? && m.text.value.CartSummary? &&
               m.text.value.total == Sum(c.cart, LineTotal) &&
               |m.text.value.lines| == |c.cart| &&
               (forall i :: 0 <= i < |c.cart| ==>
                  m.text.value.lines[i].name == c.cart[i].product.name &&
                  m.text.value.lines[i].quantity == c.cart[i].quantity &&
                  m.text.value.lines[i].lineTotal == c.cart[i].product.price * c.cart[i].quantity) &&
               ShownSum(m.text.value.lines) == m.text.value.total &&
               m.buttons.Some? && |m.buttons.value| == 2 &&
               m.buttons.value[0].action == "/checkout" && m.buttons.value[1].action == "/clear_cart")
  {
    TotalIsSum(c.cart);
    SummaryAddsUp(c.cart);
  }

  /** `/checkout`: on an empty cart nothing at all changes; otherwise exactly one bot message
      (the order confirmation) is appended and the cart is emptied. */
  lemma CheckoutCommand(catalog: seq<Product>, greeting: string, c: Chat)
    ensures var r := Command(catalog, greeting, c, "/checkout");
            r.handled && r.chat.cart == [] &&
            (c.cart == [] ==> r.chat == c) &&
            (c.cart != [] ==> r.chat.log == c.log + [BotText(c.nextId, Say(OrderConfirmedText), None)])
  {
  }

  /** `/clear_cart`: the cart ends empty and one confirmation is appended; running it twice
      leaves the same cart as running it once. */
  lemma ClearCartCommand(catalog: seq<Product>, greeting: string, c: Chat)
    ensures var r := Command(catalog, greeting, c, "/clear_cart");
            r.handled && r.chat.cart == [] &&
            r.chat.log == c.log + [BotText(c.nextId, Say(CartClearedText), None)] &&
            Command(catalog, greeting, r.chat, "/clear_cart").chat.cart == r.chat.cart
  {
  }

  /** `/clear`: whatever the log held, it becomes exactly one bot message, the greeting, with
      exactly one button, which opens the catalog; the cart is untouched. */
  lemma ClearCommand(catalog: seq<Product>, greeting: string, c: Chat)
    ensures var r := Command(catalog, greeting, c, "/clear");
            r.handled && r.chat.cart == c.cart && |r.chat.log| == 1 &&
            r.chat.log[0].kind == Text && r.chat.log[0].sender == Bot && r.chat.log[0].text == Some(Say(greeting)) &&
            r.chat.log[0].buttons.Some? && |r.chat.log[0].buttons.value| == 1 &&
            r.chat.log[0].buttons.value[0].action == "/catalog"
  {
  }

  /** `/help`: one bot message with the help text and no buttons is appended; the cart is
      untouched. */
  lemma HelpCommand(catalog: seq<Product>, greeting: string, c: Chat)
    ensures var r := Command(catalog, greeting, c, "/help");
            r.handled && r.chat.cart == c.cart &&
            r.chat.log == c.log + [BotText(c.nextId, Say(HelpText), None)]
  {
  }

  /** `/catalog`: exactly 1 + |catalog| bot messages are appended: the announcement, then a
      block of one product card per product in catalog order, each with exactly one button
      whose token is `add_to_cart:` followed by that product's id. The cart is untouched. */
  lemma CatalogCommand(catalog: seq<Product>, greeting: string, c: Chat)
    ensures var r := Command(catalog, greeting, c, "/catalog");
            var cards := Cards(catalog, c.nextId + 1);
            r.handled && r.chat.cart == c.cart &&
            r.chat.log == c.log + [BotText(c.nextId, Say(CatalogAnnouncement), None)] + cards &&
            |cards| == |catalog| &&
            forall k :: 0 <= k < |catalog| ==>
              cards[k].kind == ProductCard && cards[k].sender == Bot && cards[k].product == Some(catalog[k]) &&
              cards[k].buttons == Some([BuyButton(catalog[k])]) &&
              BuyButton(catalog[k]).action == AddToCartPrefix + catalog[k].id
  {
    CardsAt(catalog, c.nextId + 1);
  }

  /** Pressing the button of the card that `/catalog` shows for product k, whatever the session
      state is by then, adds that very product to the cart (for an id without a colon). */
  lemma CardButtonAddsProduct(catalog: seq<Product>, greeting: string, firstId: nat, later: Chat, k: int)
    requires DistinctIds(catalog) && 0 <= k < |catalog| && ':' !in catalog[k].id && UniqueIds(later.cart)
    ensures |Cards(catalog, firstId)| == |catalog| &&
            var card := Cards(catalog, firstId)[k];
            card.buttons.Some? && |card.buttons.value| == 1 &&
            Command(catalog, greeting, later, card.buttons.value[0].action).chat.cart
              == AddItem(later.cart, catalog[k])
  {
    CardsAt(catalog, firstId);
    var action := AddToCartPrefix + catalog[k].id;
    assert Cards(catalog, firstId)[k].buttons.value[0].action == action;
    AddToCartKnown(catalog, greeting, later, catalog[k]);
    assert Command(catalog, greeting, later, action).chat.cart == AddItem(later.cart, catalog[k]);
  }

  /** A product id with a colon of its own is cut short by the parse: with products "a" and
      "a:b", the button of the card for "a:b" adds the product "a". */
  lemma ColonIdCutShort(pa: Product, pab: Product, greeting: string, c: Chat)
    requires pa.id == "a" && pab.id == "a:b"
    ensures Command([pa, pab], greeting, c, BuyButton(pab).action).chat.cart == AddItem(c.cart, pa)
  {
    ParseProductId("a", ":b");
    assert BuyButton(pab).action == AddToCartPrefix + "a" + ":b";
    assert BuyButton(pab).action[0] == 'a';
  }

  /** Every command keeps the session invariant: at most one cart line per product id, each
      for a catalog product with a positive quantity, and rising, distinct message ids. */
  lemma CommandKeepsConsistent(catalog: seq<Product>, greeting: string, c: Chat, command: string)
    requires Consistent(catalog, c)
    ensures Consistent(catalog, Command(catalog, greeting, c, command).chat)
  {
    var r := Command(catalog, greeting, c, command);
    if command == "/catalog" {
      var c1 := Post(c, Say(CatalogAnnouncement), None);
      PostKeepsIds(c, Say(CatalogAnnouncement), None);
      CardsAt(catalog, c1.nextId);
      IdsOkAppend(c1.log, c1.nextId, Cards(catalog, c1.nextId));
    } else if command == "/cart" {
      if c.cart == [] {
        PostKeepsIds(c, Say(EmptyCartText), None);
      } else {
        PostKeepsIds(c, CartSummary(SummaryLines(c.cart), Total(c.cart)), Some([CheckoutButton, ClearCartButton]));
      }
    } else if command == "/clear_cart" {
      PostKeepsIds(c.(cart := []), Say(CartClearedText), None);
    } else if command == "/clear" {
    } else if command == "/checkout" {
      if c.cart != [] {
        PostKeepsIds(c, Say(OrderConfirmedText), None);
      }
    } else if command == "/help" {
      PostKeepsIds(c, Say(HelpText), None);
    } else if StartsWith(command, AddToCartPrefix) {
      match FindProduct(catalog, Field1(command))
      case Some(p) =>
        AddItemKeepsCartOk(catalog, c.cart, p);
        PostKeepsIds(c.(cart := AddItem(c.cart, p)), Say(AddedPrefix + p.name), Some([GoToCartButton]));
      case None =>
    }
  }

  // ---------------------------------------------------------------------------
  // Typed text

  /** Whatever path it takes, a typed line first appends exactly one user text message with
      that text; nothing before it in the log changes. */
  lemma SendLogsUserFirst(catalog: seq<Product>, greeting: string, c: Chat, text: string, reply: Completion)
    ensures var r := Send(catalog, greeting, c, text, reply);
            |r.chat.log| > |c.log| &&
            r.chat.log[..|c.log| + 1] == c.log + [UserText(c.nextId, text)]
  {
  }

  /** A typed `add_to_cart:<id>` of a catalog product is executed: after the user's line the
      log gains the confirmation, the cart gets the product, and nothing is asked of the
      completion service. */
  lemma SendAddToCart(catalog: seq<Product>, greeting: string, c: Chat, p: Product, reply: Completion)
    requires DistinctIds(catalog) && p in catalog && ':' !in p.id && UniqueIds(c.cart)
    ensures var text := AddToCartPrefix + p.id;
            var r := Send(catalog, greeting, c, text, reply);
            r.request == None && r.chat.cart == AddItem(c.cart, p) &&
            r.chat.log == c.log + [UserText(c.nextId, text),
                                   BotText(c.nextId + 1, Say(AddedPrefix + p.name), Some([GoToCartButton]))]
  {
    var text := AddToCartPrefix + p.id;
    var c1 := Chat(c.log + [UserText(c.nextId, text)], c.cart, c.nextId + 1);
    AddToCartKnown(catalog, greeting, c1, p);
    assert !StartsWith(text, "/") by { assert text[0] == 'a'; }
  }

  /** A typed line starting with `/` is only logged: no command runs and nothing is asked
      of the completion service. */
  lemma SendSlash(catalog: seq<Product>, greeting: string, c: Chat, text: string, reply: Completion)
    requires StartsWith(text, "/")
    ensures Send(catalog, greeting, c, text, reply)
            == SendResult(Chat(c.log + [UserText(c.nextId, text)], c.cart, c.nextId + 1), None)
  {
  }

  /** The broad mention test never decides anything on its own: every exact synonym passes it. */
  lemma SynonymPassesGate(lower: string)
    requires IsCatalogSynonym(lower)
    ensures MentionsShop(lower)
  {
    if lower == "каталог" {
      assert OccursAt(lower, "каталог", 0);
    } else {
      assert lower[0..5] == "товар";
      assert OccursAt(lower, "товар", 0);
    }
  }

  /** A typed line whose lower case is exactly a catalog synonym runs `/catalog` after
      logging the line, and asks nothing of the completion service. */
  lemma SendCatalogSynonym(catalog: seq<Product>, greeting: string, c: Chat, text: string, reply: Completion)
    requires IsCatalogSynonym(Lower(text))
    ensures var c1 := Chat(c.log + [UserText(c.nextId, text)], c.cart, c.nextId + 1);
            Send(catalog, greeting, c, text, reply) == SendResult(ShowCatalog(catalog, c1), None)
  {
    var c1 := Chat(c.log + [UserText(c.nextId, text)], c.cart, c.nextId + 1);
    SynonymIsNoToken(text);
    SynonymPassesGate(Lower(text));
    CommandHandled(catalog, greeting, c1, text);
  }

  /** The completion service is asked exactly for a typed line that is no slash command, no
      `add_to_cart:` token and no catalog synonym. The request carries the line and the
      history of the log before the line (at most ten entries); the log gains the user line
      and one bot message with the reply (or the fixed apology if the call threw), and the
      cart is untouched. */
  lemma SendAsksCompletion(catalog: seq<Product>, greeting: string, c: Chat, text: string, reply: Completion)
    ensures var r := Send(catalog, greeting, c, text, reply);
            (r.request.Some? <==>
               !StartsWith(text, "/") && !StartsWith(text, AddToCartPrefix) && !IsCatalogSynonym(Lower(text))) &&
            (r.request.Some? ==>
               r.request.value == Request(text, BuildHistory(c.log)) &&
               |r.request.value.history| <= MaxHistory &&
               r.chat.cart == c.cart &&
               r.chat.log == c.log + [UserText(c.nextId, text), BotText(c.nextId + 1, Say(ReplyText(reply)), None)])
  {
    var c1 := c.(log := c.log + [UserText(c.nextId, text)], nextId := c.nextId + 1);
    HistoryShape(c.log);
    if !StartsWith(text, "/") {
      CommandHandled(catalog, greeting, c1, text);
      if IsCatalogSynonym(Lower(text)) {
        SynonymPassesGate(Lower(text));
      }
    }
    assert c.log + [UserText(c.nextId, text)] + [BotText(c.nextId + 1, Say(ReplyText(reply)), None)]
        == c.log + [UserText(c.nextId, text), BotText(c.nextId + 1, Say(ReplyText(reply)), None)];
  }

  /** A typed line that is not slash text but is a command: the command's result. */
  lemma SendTypedCommand(catalog: seq<Product>, greeting: string, c: Chat, text: string, reply: Completion)
    requires !StartsWith(text, "/")
    requires Command(catalog, greeting, Chat(c.log + [UserText(c.nextId, text)], c.cart, c.nextId + 1), text).handled
    ensures Send(catalog, greeting, c, text, reply) ==
            SendResult(Command(catalog, greeting, Chat(c.log + [UserText(c.nextId, text)], c.cart, c.nextId + 1), text).chat, None)
  {
  }

  /** A typed line the interpreter declines: the free-text result. */
  lemma SendFreeText(catalog: seq<Product>, greeting: string, c: Chat, text: string, reply: Completion)
    requires !StartsWith(text, "/")
    requires !Command(catalog, greeting, Chat(c.log + [UserText(c.nextId, text)], c.cart, c.nextId + 1), text).handled
    ensures Send(catalog, greeting, c, text, reply) ==
            Converse(catalog, greeting, c.log, Chat(c.log + [UserText(c.nextId, text)], c.cart, c.nextId + 1), text, reply)
  {
  }

  /** Every path of a typed line keeps the session invariant. */
  lemma SendKeepsConsistent(catalog: seq<Product>, greeting: string, c: Chat, text: string, reply: Completion)
    requires Consistent(catalog, c)
    ensures Consistent(catalog, Send(catalog, greeting, c, text, reply).chat)
  {
    var c1 := c.(log := c.log + [UserText(c.nextId, text)], nextId := c.nextId + 1);
    IdsOkAppend(c.log, c.nextId, [UserText(c.nextId, text)]);
    if StartsWith(text, "/") {
      SendSlash(catalog, greeting, c, text, reply);
    } else if Command(catalog, greeting, c1, text).handled {
      CommandKeepsConsistent(catalog, greeting, c1, text);
      SendTypedCommand(catalog, greeting, c, text, reply);
    } else {
      ConverseKeepsConsistent(catalog, greeting, c.log, c1, text, reply);
      SendFreeText(catalog, greeting, c, text, reply);
    }
  }

  /** The free-text paths keep the session invariant. */
  lemma ConverseKeepsConsistent(catalog: seq<Product>, greeting: string, before: seq<Message>, c1: Chat,
                                text: string, reply: Completion)
    requires Consistent(catalog, c1)
    ensures Consistent(catalog, Converse(catalog, greeting, before, c1, text, reply).chat)
  {
    CommandKeepsConsistent(catalog, greeting, c1, "/catalog");
    PostKeepsIds(c1, Say(ReplyText(reply)), None);
  }
}
