/** The cart: adding a product (increment its line, else append a new line),
    the grand total and the item count shown on the menu badge. */
module Cart {
  import opened Types

  /** Price times quantity of one line. */
  function LineTotal(item: CartItem): int {
    item.product.price * item.quantity
  }

  function LineQuantity(item: CartItem): int {
    item.quantity
  }

  /** `reduce` with a number accumulator: a left fold of `f` over the lines. */
  function Fold(cart: seq<CartItem>, f: CartItem -> int, acc: int): int
    decreases |cart|
  {
    if cart == [] then acc else Fold(cart[1..], f, acc + f(cart[0]))
  }

  /** Reference definition: the sum of `f` over the lines. */
  function Sum(cart: seq<CartItem>, f: CartItem -> int): int
    decreases |cart|
  {
    if cart == [] then 0 else f(cart[0]) + Sum(cart[1..], f)
  }

  /** The grand total of the cart summary: the fold of price times quantity from 0. */
  function Total(cart: seq<CartItem>): int {
    Fold(cart, LineTotal, 0)
  }

  /** The number on the cart badge: the fold of the quantities from 0. */
  function CartCount(cart: seq<CartItem>): int {
    Fold(cart, LineQuantity, 0)
  }

  /** The catalog gives every product a different id. */
  predicate DistinctIds(catalog: seq<Product>) {
    forall i, j :: 0 <= i < j < |catalog| ==> catalog[i].id != catalog[j].id
  }

  /** At most one line per product id. */
  predicate UniqueIds(cart: seq<CartItem>) {
    forall i, j :: 0 <= i < j < |cart| ==> cart[i].product.id != cart[j].product.id
  }

  /** A well-formed cart: one line per product, positive quantities, products from the catalog. */
  predicate CartOk(catalog: seq<Product>, cart: seq<CartItem>) {
    UniqueIds(cart) &&
    forall i :: 0 <= i < |cart| ==> cart[i].quantity >= 1 && cart[i].product in catalog
  }

  predicate HasLine(cart: seq<CartItem>, id: string) {
    exists i :: 0 <= i < |cart| && cart[i].product.id == id
  }

  function Bump(item: CartItem, id: string): CartItem {
    if item.product.id == id then item.(quantity := item.quantity + 1) else item
  }

  /** The `map` that raises the quantity of every line with product id `id` by one. */
  function BumpAll(cart: seq<CartItem>, id: string): seq<CartItem> {
    seq(|cart|, i requires 0 <= i < |cart| => Bump(cart[i], id))
  }

  /** The cart update of `add_to_cart`: if a line for the product exists, every line with
      that id gets one more; otherwise a line with quantity 1 is appended. */
  function AddItem(cart: seq<CartItem>, product: Product): seq<CartItem> {
    if HasLine(cart, product.id) then BumpAll(cart, product.id)
    else cart + [CartItem(product, 1)]
  }

  /** The lines of the cart summary: name, quantity and price times quantity, in cart order. */
  function SummaryLines(cart: seq<CartItem>): seq<LineView> {
    seq(|cart|, i requires 0 <= i < |cart| => LineView(cart[i].product.name, cart[i].quantity, LineTotal(cart[i])))
  }

  /** The sum of the line totals a summary shows. */
  function ShownSum(lines: seq<LineView>): int
    decreases |lines|
  {
    if lines == [] then 0 else lines[0].lineTotal + ShownSum(lines[1..])
  }

  /** `n` additions of the same product in a row. */
  function Adds(cart: seq<CartItem>, product: Product, n: nat): seq<CartItem> {
    if n == 0 then cart else AddItem(Adds(cart, product, n - 1), product)
  }

  lemma {:induction false} FoldIsSum(cart: seq<CartItem>, f: CartItem -> int, acc: int)
    ensures Fold(cart, f, acc) == acc + Sum(cart, f)
    decreases |cart|
  {
    if cart != [] {
      FoldIsSum(cart[1..], f, acc + f(cart[0]));
    }
  }

  /** The total is the sum of price times quantity over the lines. */
  lemma TotalIsSum(cart: seq<CartItem>)
    ensures Total(cart) == Sum(cart, LineTotal)
    ensures CartCount(cart) == Sum(cart, LineQuantity)
  {
    FoldIsSum(cart, LineTotal, 0);
    FoldIsSum(cart, LineQuantity, 0);
  }

  lemma {:induction false} SumAppend(a: seq<CartItem>, b: seq<CartItem>, f: CartItem -> int)
    ensures Sum(a + b, f) == Sum(a, f) + Sum(b, f)
    decreases |a|
  {
    if a == [] {
      assert a + b == b;
    } else {
      assert (a + b)[1..] == a[1..] + b;
      SumAppend(a[1..], b, f);
    }
  }

  lemma {:induction false} SumUpdate(cart: seq<CartItem>, f: CartItem -> int, i: int, x: CartItem)
    requires 0 <= i < |cart|
    ensures Sum(cart[i := x], f) == Sum(cart, f) - f(cart[i]) + f(x)
    decreases |cart|
  {
    if i == 0 {
      assert cart[i := x][1..] == cart[1..];
    } else {
      assert cart[i := x][1..] == cart[1..][i - 1 := x];
      SumUpdate(cart[1..], f, i - 1, x);
    }
  }

  /** In a cart with one line per id, raising every line with `id` raises exactly line `i`. */
  lemma BumpAllAt(cart: seq<CartItem>, id: string, i: int)
    requires UniqueIds(cart) && 0 <= i < |cart| && cart[i].product.id == id
    ensures BumpAll(cart, id) == cart[i := cart[i].(quantity := cart[i].quantity + 1)]
  {
  }

  /** Adding a product: the line for its id (if any) gains exactly one and every other line is
      unchanged; without such a line, one line with quantity 1 is appended at the end. */
  lemma AddItemEffect(cart: seq<CartItem>, p: Product)
    requires UniqueIds(cart)
    ensures forall i :: 0 <= i < |cart| && cart[i].product.id == p.id ==>
      AddItem(cart, p) == cart[i := cart[i].(quantity := cart[i].quantity + 1)]
    ensures !HasLine(cart, p.id) ==> AddItem(cart, p) == cart + [CartItem(p, 1)]
  {
  }

  /** Adding a catalog product keeps the cart well formed: still one line per product id. */
  lemma AddItemKeepsCartOk(catalog: seq<Product>, cart: seq<CartItem>, p: Product)
    requires CartOk(catalog, cart) && p in catalog
    ensures CartOk(catalog, AddItem(cart, p))
  {
  }

  /** In a well-formed cart, a line with the id of catalog product `p` holds `p` itself. */
  lemma LineOfCatalogProduct(catalog: seq<Product>, cart: seq<CartItem>, p: Product, i: int)
    requires DistinctIds(catalog) && CartOk(catalog, cart) && p in catalog
    requires 0 <= i < |cart| && cart[i].product.id == p.id
    ensures cart[i].product == p
  {
  }

  /** Adding catalog product `p` raises the total by its price and the badge count by one. */
  lemma AddItemTotals(catalog: seq<Product>, cart: seq<CartItem>, p: Product)
    requires DistinctIds(catalog) && CartOk(catalog, cart) && p in catalog
    ensures Total(AddItem(cart, p)) == Total(cart) + p.price
    ensures CartCount(AddItem(cart, p)) == CartCount(cart) + 1
  {
    TotalIsSum(cart);
    TotalIsSum(AddItem(cart, p));
    if HasLine(cart, p.id) {
      var i :| 0 <= i < |cart| && cart[i].product.id == p.id;
      LineOfCatalogProduct(catalog, cart, p, i);
      BumpAllAt(cart, p.id, i);
      BumpSums(cart, i);
    } else {
      SumAppend(cart, [CartItem(p, 1)], LineTotal);
      SumAppend(cart, [CartItem(p, 1)], LineQuantity);
    }
  }

  lemma BumpSums(cart: seq<CartItem>, i: int)
    requires 0 <= i < |cart|
    ensures var x := cart[i].(quantity := cart[i].quantity + 1);
            Sum(cart[i := x], LineTotal) == Sum(cart, LineTotal) + cart[i].product.price &&
            Sum(cart[i := x], LineQuantity) == Sum(cart, LineQuantity) + 1
  {
    var x := cart[i].(quantity := cart[i].quantity + 1);
    SumUpdate(cart, LineTotal, i, x);
    SumUpdate(cart, LineQuantity, i, x);
  }

  lemma {:induction false} SummaryLinesSum(cart: seq<CartItem>)
    ensures ShownSum(SummaryLines(cart)) == Sum(cart, LineTotal)
    decreases |cart|
  {
    if cart != [] {
      assert SummaryLines(cart)[1..] == SummaryLines(cart[1..]);
      SummaryLinesSum(cart[1..]);
    }
  }

  /** The line totals listed in the cart summary add up to the grand total shown beneath them. */
  lemma SummaryAddsUp(cart: seq<CartItem>)
    ensures ShownSum(SummaryLines(cart)) == Total(cart)
  {
    SummaryLinesSum(cart);
    TotalIsSum(cart);
  }

  /** With positive quantities the badge count is at least the number of lines, so it is
      zero exactly when the cart is empty. */
  lemma CartCountBounds(cart: seq<CartItem>)
    requires forall i :: 0 <= i < |cart| ==> cart[i].quantity >= 1
    ensures CartCount(cart) >= |cart|
    ensures CartCount(cart) == 0 <==> cart == []
  {
    TotalIsSum(cart);
    QuantitySumBound(cart);
  }

  lemma {:induction false} QuantitySumBound(cart: seq<CartItem>)
    requires forall i :: 0 <= i < |cart| ==> cart[i].quantity >= 1
    ensures Sum(cart, LineQuantity) >= |cart|
    decreases |cart|
  {
    if cart != [] {
      QuantitySumBound(cart[1..]);
    }
  }

  /** `n >= 1` additions of a product the cart does not hold yet leave exactly one new line
      for it, at the end, with quantity `n`; the earlier lines are untouched. */
  lemma {:induction false} RepeatedAdds(cart: seq<CartItem>, p: Product, n: nat)
    requires UniqueIds(cart) && !HasLine(cart, p.id) && n >= 1
    ensures Adds(cart, p, n) == cart + [CartItem(p, n)]
  {
    if n > 1 {
      RepeatedAdds(cart, p, n - 1);
      var prev := cart + [CartItem(p, n - 1)];
      assert prev[|cart|].product.id == p.id;
      assert HasLine(prev, p.id);
      forall i | 0 <= i < |cart|
        ensures Bump(prev[i], p.id) == prev[i]
      {
        assert prev[i] == cart[i];
      }
      assert BumpAll(prev, p.id) == cart + [CartItem(p, n)];
    }
  }

  /** With products A at 500 and B at 300, adding A once and B twice gives a total of 1100. */
  lemma ExampleTotal(a: Product, b: Product)
    requires a.id != b.id && a.price == 500 && b.price == 300
    ensures Total(AddItem(AddItem(AddItem([], a), b), b)) == 1100
  {
    var c1 := AddItem([], a);
    assert c1 == [CartItem(a, 1)];
    assert !HasLine(c1, b.id);
    var c2 := AddItem(c1, b);
    assert c2 == [CartItem(a, 1), CartItem(b, 1)];
    AddItemEffect(c2, b);
    assert c2[1].product.id == b.id;
    var c3 := AddItem(c2, b);
    assert c3 == [CartItem(a, 1), CartItem(b, 2)];
    TotalIsSum(c3);
    assert c3[1..] == [CartItem(b, 2)];
    assert c3[1..][1..] == [];
    assert Sum(c3[1..], LineTotal) == 600 + Sum(c3[1..][1..], LineTotal);
  }
}
