/** The chat session of the storefront page: the message log, the cart and the typing flag,
    changed step by step by the two entry points, `HandleCommand` (menu and button clicks)
    and `HandleSend` (a submitted line). Each is proved to do what `Command` and `Send`
    describe, and to keep the session invariant. */
module App {
  import opened Types
  import opened Cart
  import opened History
  import opened Commands

  class Session {
    /** The fixed product list and the greeting text. */
    const catalog: seq<Product>
    const greeting: string

    var messages: seq<Message>
    var cart: seq<CartItem>
    /** Whether the "bot is typing" indicator is shown. */
    var isTyping: bool
    /** Stands for the random message ids: the id the next message gets. */
    var nextId: nat

    function State(): Chat
      reads this
    {
      Chat(messages, cart, nextId)
    }

    ghost predicate Valid()
      reads this
    {
      DistinctIds(catalog) && Consistent(catalog, State())
    }

    /** The page opens with an empty log and cart; the mount effect then posts the greeting
        with the button that opens the catalog. */
    constructor (catalog: seq<Product>, greeting: string)
      requires DistinctIds(catalog)
      ensures Valid() && this.catalog == catalog && this.greeting == greeting
      ensures messages == [Greeting(0, greeting)] && cart == [] && !isTyping && nextId == 1
    {
      this.catalog := catalog;
      this.greeting := greeting;
      messages := [];
      cart := [];
      isTyping := false;
      nextId := 0;
      new;
      if |messages| == 0 {
        AddBotMessage(Say(greeting), Some([CatalogButton]));
      }
    }

    /** The count on the cart badge of the menu. */
    function CartBadge(): (n: int)
      reads this
      requires Valid()
      ensures n >= |cart|
      ensures n == 0 <==> cart == []
    {
      CartCountBounds(cart);
      CartCount(cart)
    }

    method AddBotMessage(body: Body, buttons: Option<seq<MessageButton>>)
      modifies this
      ensures messages == old(messages) + [BotText(old(nextId), body, buttons)]
      ensures nextId == old(nextId) + 1 && cart == old(cart) && isTyping == old(isTyping)
    {
      messages := messages + [BotText(nextId, body, buttons)];
      nextId := nextId + 1;
    }

    method AddUserMessage(text: string)
      modifies this
      ensures messages == old(messages) + [UserText(old(nextId), text)]
      ensures nextId == old(nextId) + 1 && cart == old(cart) && isTyping == old(isTyping)
    {
      messages := messages + [UserText(nextId, text)];
      nextId := nextId + 1;
    }

    method AddProductMessage(product: Product)
      modifies this
      ensures messages == old(messages) + [Card(old(nextId), product)]
      ensures nextId == old(nextId) + 1 && cart == old(cart) && isTyping == old(isTyping)
    {
      messages := messages + [Card(nextId, product)];
      nextId := nextId + 1;
    }

    /** The `/catalog` branch: the announcement, then one card per product, in a loop. */
    method ShowCatalogMessages()
      modifies this
      ensures State() == ShowCatalog(catalog, old(State())) && isTyping == old(isTyping)
    {
      AddBotMessage(Say(CatalogAnnouncement), None);
      ghost var announced := messages;
      ghost var firstId := nextId;
      for i := 0 to |catalog|
        invariant messages == announced + Cards(catalog[..i], firstId)
        invariant nextId == firstId + i
        invariant cart == old(cart) && isTyping == old(isTyping)
      {
        AddProductMessage(catalog[i]);
        assert catalog[..i + 1][..i] == catalog[..i];
      }
      assert catalog[..|catalog|] == catalog;
    }

    /** The local command interpreter; returns whether `command` was one. */
    method HandleCommand(command: string) returns (handled: bool)
      requires Valid()
      modifies this
      ensures Valid() && isTyping == old(isTyping)
      ensures CommandResult(handled, State()) == Command(catalog, greeting, old(State()), command)
    {
      CommandKeepsConsistent(catalog, greeting, State(), command);
      handled := true;
      if command == "/catalog" {
        ShowCatalogMessages();
      } else if command == "/cart" {
        if |cart| == 0 {
          AddBotMessage(Say(EmptyCartText), None);
        } else {
          var total := Total(cart);
          var lines := SummaryLines(cart);
          AddBotMessage(CartSummary(lines, total), Some([CheckoutButton, ClearCartButton]));
        }
      } else if command == "/clear_cart" {
        cart := [];
        AddBotMessage(Say(CartClearedText), None);
      } else if command == "/clear" {
        messages := [];
        AddBotMessage(Say(greeting), Some([CatalogButton]));
      } else if command == "/checkout" {
        if |cart| != 0 {
          AddBotMessage(Say(OrderConfirmedText), None);
          cart := [];
        }
      } else if command == "/help" {
        AddBotMessage(Say(HelpText), None);
      } else if StartsWith(command, AddToCartPrefix) {
        var productId := Field1(command);
        var product := FindProduct(catalog, productId);
        if product.Some? {
          cart := AddItem(cart, product.value);
          AddBotMessage(Say(AddedPrefix + product.value.name), Some([GoToCartButton]));
        }
      } else {
        handled := false;
      }
    }

    /** Free text the interpreter declined (`before` is the log before the user's line):
        the exact catalog synonyms open the catalog, anything else is answered by the
        completion service. */
    method Converse(before: seq<Message>, text: string, reply: Completion) returns (request: Option<Request>)
      requires Valid()
      modifies this
      ensures Valid() && isTyping == old(isTyping)
      ensures SendResult(State(), request) == Commands.Converse(catalog, greeting, before, old(State()), text, reply)
    {
      var lower := Lower(text);
      if MentionsShop(lower) && IsCatalogSynonym(lower) {
        var shown := HandleCommand("/catalog");
        return None;
      }
      request := Some(Request(text, BuildHistory(before)));
      PostKeepsIds(State(), Say(ReplyText(reply)), None);
      match reply {
        case Replied(response) =>
          AddBotMessage(Say(response), None);
        case Threw =>
          AddBotMessage(Say(TiredText), None);
      }
    }

    /** A submitted line, with `reply` standing for what the completion service answers if
        it is asked. Returns the request made of that service, if any. */
    method HandleSend(text: string, reply: Completion) returns (request: Option<Request>)
      requires Valid()
      modifies this
      ensures Valid() && !isTyping
      ensures SendResult(State(), request) == Send(catalog, greeting, old(State()), text, reply)
    {
      // The log as the handler saw it when called, before the user's line.
      var before := messages;
      ghost var s0 := State();
      AddUserMessage(text);
      IdsOkAppend(before, s0.nextId, [UserText(s0.nextId, text)]);
      isTyping := true;
      ghost var s1 := State();

      var isCommand := StartsWith(text, "/");
      if !isCommand {
        isCommand := HandleCommand(text);
        if isCommand {
          SendTypedCommand(catalog, greeting, s0, text, reply);
        }
      } else {
        SendSlash(catalog, greeting, s0, text, reply);
      }
      if isCommand {
        isTyping := false;
        return None;
      }
      SendFreeText(catalog, greeting, s0, text, reply);
      request := Converse(before, text, reply);
      isTyping := false;
    }
  }
}
