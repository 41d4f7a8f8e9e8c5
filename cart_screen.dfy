/**
 * The cart screen (src/buyer/screens/CartScreen.js). It keeps no state of its
 * own: its buttons compute arguments and call the cart store, and checkout
 * hands the first cart line, together with the cart total, to the checkout
 * screen.
 */
module CartScreen {
  import opened Wrappers
  import opened Api
  import opened CartStore
  import opened Checkout

  /** handleCheckout: on an empty cart nothing happens; otherwise the navigation parameter built from line 0. */
  function HandleCheckout(cartItems: seq<Entry>): (r: Option<CheckoutParams>)
    ensures r.None? <==> cartItems == []
    ensures r.Some? ==> r.value.isCartCheckout && r.value.checkoutTotal == Some(Total(cartItems))
  {
    if |cartItems| > 0 then
      Some(CheckoutParams(cartItems[0].product, Some(cartItems[0].quantity), Some(Total(cartItems)), true))
    else None
  }

  /** What the screen shows: the empty state, or the list with a footer of line count and total. */
  datatype View = EmptyState | ItemList(lines: seq<Entry>, summaryCount: nat, summaryTotal: int)

  function Render(cartItems: seq<Entry>): (v: View)
    ensures v.EmptyState? <==> cartItems == []
    ensures v.ItemList? ==> v.lines == cartItems && v.summaryTotal == Total(cartItems)
    ensures v.ItemList? ==> v.summaryCount == |cartItems|
  {
    if |cartItems| == 0 then EmptyState else ItemList(cartItems, |cartItems|, Total(cartItems))
  }

  /** The minus button of a line. */
  method OnMinus(cart: Cart, item: Entry)
    modifies cart
    ensures cart.cartItems == Update(old(cart.cartItems), item.Id(), item.quantity - 1)
  {
    cart.UpdateQuantity(item.Id(), item.quantity - 1);
  }

  /** The plus button of a line. */
  method OnPlus(cart: Cart, item: Entry)
    modifies cart
    ensures cart.cartItems == Update(old(cart.cartItems), item.Id(), item.quantity + 1)
  {
    cart.UpdateQuantity(item.Id(), item.quantity + 1);
  }

  /** The trash button of a line. */
  method OnRemove(cart: Cart, item: Entry)
    modifies cart
    ensures cart.cartItems == Remove(old(cart.cartItems), item.Id())
  {
    cart.RemoveFromCart(item.Id());
  }

  // ---------------------------------------------------------------------------
  // Lemmas
  // ---------------------------------------------------------------------------

  /** Only line 0 and the cart total reach the checkout: carts that agree on those check out alike. */
  lemma CheckoutSeesFirstLineOnly(a: seq<Entry>, b: seq<Entry>)
    requires a != [] && b != [] && a[0] == b[0] && Total(a) == Total(b)
    ensures HandleCheckout(a) == HandleCheckout(b)
    ensures HandleCheckout(a).value.product == a[0].product
  {
  }

  /**
   * From a cart checkout, whatever the user does on the checkout screen and
   * whatever the server answers, every confirm request charges the first
   * line's unit price for one item, not the cart total handed over.
   */
  lemma {:induction false} CartCheckoutConfirmAmount(cartItems: seq<Entry>, events: seq<Event>)
    requires cartItems != []
    ensures ChargesUnitPrice(Run(Initial(), HandleCheckout(cartItems).value, events).requests, cartItems[0].product)
  {
    ConfirmsChargeUnitPrice(Initial(), HandleCheckout(cartItems).value, events);
  }

  /** The minus button on a line at quantity 1 removes exactly that line. */
  lemma MinusOnLastUnitRemovesLine(cartItems: seq<Entry>, k: nat)
    requires UniqueIds(cartItems) && k < |cartItems| && cartItems[k].quantity == 1
    ensures Update(cartItems, cartItems[k].Id(), cartItems[k].quantity - 1) == cartItems[..k] + cartItems[k + 1..]
  {
    RemovePresent(cartItems, cartItems[k].Id(), k);
  }

  /** On a line with a positive quantity, minus lowers cartCount by one and plus raises it by one. */
  lemma StepperMovesCountByOne(cartItems: seq<Entry>, k: nat)
    requires UniqueIds(cartItems) && k < |cartItems| && cartItems[k].quantity >= 1
    ensures Count(Update(cartItems, cartItems[k].Id(), cartItems[k].quantity - 1)) == Count(cartItems) - 1
    ensures Count(Update(cartItems, cartItems[k].Id(), cartItems[k].quantity + 1)) == Count(cartItems) + 1
  {
    UpdateSums(cartItems, cartItems[k].Id(), k, cartItems[k].quantity - 1);
    UpdateSums(cartItems, cartItems[k].Id(), k, cartItems[k].quantity + 1);
  }

  /**
   * The summary's item count is the number of lines, which for positive
   * quantities is at most cartCount, and equal to it exactly when every line
   * has quantity 1.
   */
  lemma {:induction false} LinesAtMostCount(cartItems: seq<Entry>)
    requires AllPositive(cartItems)
    ensures |cartItems| <= Count(cartItems)
    ensures |cartItems| == Count(cartItems) <==> forall i :: 0 <= i < |cartItems| ==> cartItems[i].quantity == 1
  {
    if cartItems != [] {
      var tail := cartItems[1..];
      assert AllPositive(tail);
      LinesAtMostCount(tail);
      if |cartItems| == Count(cartItems) {
        forall i | 0 <= i < |cartItems| ensures cartItems[i].quantity == 1 {
          if i > 0 { assert cartItems[i] == tail[i - 1]; }
        }
      }
      if forall i :: 0 <= i < |cartItems| ==> cartItems[i].quantity == 1 {
        forall i | 0 <= i < |tail| ensures tail[i].quantity == 1 {
          assert tail[i] == cartItems[i + 1];
        }
      }
    }
  }

  /** The cart of the walk-through below: A (50 x 2) then B (30 x 1), added to an empty cart. */
  method TwoLineCart(apples: Product, beans: Product) returns (cart: Cart)
    requires apples.id != beans.id
    ensures fresh(cart)
    ensures cart.cartItems == [Entry(apples, 2), Entry(beans, 1)]
  {
    cart := new Cart();
    cart.AddToCart(apples, 2);
    cart.AddToCart(beans);
  }

  /**
   * Three presses on a fresh checkout screen, every remote call succeeding
   * and search issuing "tx-1": the fourth request sent is the confirm, with
   * the product's payload and the default shipping form.
   */
  method CheckoutWalk(params: CheckoutParams) returns (confirm: Request)
    ensures confirm == Confirm(Some("tx-1"), ConfirmPayload(params.product, DefaultShipping))
  {
    var screen := new CheckoutScreen(params);
    var ok := Returned(Envelope(true));
    var issued := Returned(SearchResult(true, Some(SearchData(Some("tx-1")))));
    var remote := Remote("session_1", issued, ok, ok, ok);
    screen.OnPress(remote);
    assert screen.step == 2;
    screen.OnPress(remote);
    assert screen.step == 3;
    screen.OnPress(remote);
    assert screen.step == 3 && screen.alerts[0].resetsTo == Some(Dashboard);
    confirm := screen.requests[3];
  }

  /**
   * A walk through the two screens with every remote call succeeding: the
   * cart holds A (50 x 2) and B (30 x 1), totals 130 and counts 3; the
   * checkout confirms the first line at 50 and leaves the cart as it was.
   */
  method CheckoutFromCart() returns (handedTotal: int, charged: int, countAfter: int)
    ensures handedTotal == 130 && charged == 50 && countAfter == 3
  {
    var apples := Product("A", "Apples", 50, "seller-1", "");
    var beans := Product("B", "Beans", 30, "seller-1", "");
    var cart := TwoLineCart(apples, beans);
    assert cart.cartItems[1..] == [Entry(beans, 1)];
    assert Total([Entry(beans, 1)]) == 30 && Count([Entry(beans, 1)]) == 1;
    assert cart.CartTotal() == 130 && cart.CartCount() == 3;

    var params := HandleCheckout(cart.cartItems);
    handedTotal := params.value.checkoutTotal.value;
    var confirm := CheckoutWalk(params.value);
    charged := confirm.inputs.totalAmount;
    countAfter := cart.CartCount();
  }
}
