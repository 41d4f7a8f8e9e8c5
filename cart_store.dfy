/**
 * The session-wide cart store (src/shared/context/CartContext.js).
 *
 * The cart is one state cell holding an insertion-ordered list of lines. Every
 * operation replaces the whole list by a pure transform of the previous one
 * (find, map, filter); the two totals are folds over the current list. Prices
 * are whole amounts in paise, so the sums are exact.
 */
module CartStore {
  import opened Wrappers

  /** A catalogue product as screens hand it to the cart. */
  datatype Product = Product(id: string, name: string, price: int, sellerId: string, imageUrl: string)

  /** One cart line: the product's fields spread into a new object, plus `quantity`. */
  datatype Entry = Entry(product: Product, quantity: int)
  {
    function Id(): string { product.id }
  }

  /** The change a map over the list applies to the quantity of the matching lines. */
  datatype QuantityChange = Increase(amount: int) | SetTo(value: int)
  {
    function Apply(quantity: int): int
    {
      match this
      case Increase(n) => quantity + n
      case SetTo(q) => q
    }
  }

  // ---------------------------------------------------------------------------
  // The list transforms and the derived sums
  // ---------------------------------------------------------------------------

  /** The first line whose id is `id`, if any. */
  function Find(items: seq<Entry>, id: string): (r: Option<Entry>)
    ensures r.Some? <==> exists i :: 0 <= i < |items| && items[i].Id() == id
    ensures r.Some? ==> exists i :: 0 <= i < |items| && items[i] == r.value && r.value.Id() == id &&
                                    forall j :: 0 <= j < i ==> items[j].Id() != id
  {
    if items == [] then None
    else if items[0].Id() == id then Some(items[0])
    else Find(items[1..], id)
  }

  /** Every line with id `id` gets its quantity changed by `c`; all other lines are kept as they are. */
  function Adjust(items: seq<Entry>, id: string, c: QuantityChange): (r: seq<Entry>)
    ensures |r| == |items|
  {
    if items == [] then []
    else
      var head := if items[0].Id() == id then items[0].(quantity := c.Apply(items[0].quantity)) else items[0];
      [head] + Adjust(items[1..], id, c)
  }

  /** The lines whose id is not `id`, in their original order. */
  function Remove(items: seq<Entry>, id: string): (r: seq<Entry>)
    ensures |r| <= |items|
  {
    if items == [] then []
    else if items[0].Id() == id then Remove(items[1..], id)
    else [items[0]] + Remove(items[1..], id)
  }

  /** addToCart: bump an existing line, or append a new line with the given quantity. */
  function AddTo(items: seq<Entry>, product: Product, quantity: int): (r: seq<Entry>)
    ensures HasId(r, product.id)
    ensures |r| == if HasId(items, product.id) then |items| else |items| + 1
  {
    if Find(items, product.id).Some? then
      AdjustKeepsIds(items, product.id, Increase(quantity));
      Adjust(items, product.id, Increase(quantity))
    else
      assert (items + [Entry(product, quantity)])[|items|].Id() == product.id;
      items + [Entry(product, quantity)]
  }

  /** updateQuantity: a quantity of zero or less removes the line, otherwise it is set absolutely. */
  function Update(items: seq<Entry>, id: string, quantity: int): (r: seq<Entry>)
    ensures |r| <= |items|
    ensures HasId(r, id) <==> quantity > 0 && HasId(items, id)
  {
    if quantity <= 0 then
      RemoveLeavesNone(items, id);
      Remove(items, id)
    else
      AdjustKeepsIds(items, id, SetTo(quantity));
      Adjust(items, id, SetTo(quantity))
  }

  /** cartTotal: the sum of price times quantity over the lines. */
  function Total(items: seq<Entry>): (r: int)
    ensures NoNegatives(items) ==> r >= 0
  {
    if items == [] then 0 else items[0].product.price * items[0].quantity + Total(items[1..])
  }

  /** cartCount: the sum of the quantities. */
  function Count(items: seq<Entry>): (r: int)
    ensures NoNegatives(items) ==> r >= 0
  {
    if items == [] then 0 else items[0].quantity + Count(items[1..])
  }

  /** At most one line per product id. */
  predicate UniqueIds(items: seq<Entry>)
  {
    forall i, j :: 0 <= i < j < |items| ==> items[i].Id() != items[j].Id()
  }

  predicate HasId(items: seq<Entry>, id: string)
  {
    exists i :: 0 <= i < |items| && items[i].Id() == id
  }

  /** No line has a negative price or a negative quantity. */
  predicate NoNegatives(items: seq<Entry>)
  {
    forall i :: 0 <= i < |items| ==> items[i].product.price >= 0 && items[i].quantity >= 0
  }

  predicate AllPositive(items: seq<Entry>)
  {
    forall i :: 0 <= i < |items| ==> items[i].quantity > 0
  }

  // ---------------------------------------------------------------------------
  // Lemmas: what each transform does to the list
  // ---------------------------------------------------------------------------

  /** With unique ids, the first line's id does not occur again in the rest. */
  lemma HeadIdNotInTail(items: seq<Entry>)
    requires UniqueIds(items) && items != []
    ensures !HasId(items[1..], items[0].Id())
  {
    forall i | 0 <= i < |items[1..]| ensures items[1..][i].Id() != items[0].Id() {
      assert items[1..][i] == items[i + 1];
    }
  }

  /** Adjust changes exactly the matching lines, and only their quantity. */
  lemma {:induction false} AdjustAt(items: seq<Entry>, id: string, c: QuantityChange, i: nat)
    requires i < |items|
    ensures Adjust(items, id, c)[i] ==
            if items[i].Id() == id then items[i].(quantity := c.Apply(items[i].quantity)) else items[i]
  {
    if i > 0 {
      AdjustAt(items[1..], id, c, i - 1);
    }
  }

  /** Adjusting an id that is not in the list changes nothing. */
  lemma {:induction false} AdjustAbsent(items: seq<Entry>, id: string, c: QuantityChange)
    requires !HasId(items, id)
    ensures Adjust(items, id, c) == items
  {
    var r := Adjust(items, id, c);
    forall i | 0 <= i < |items| ensures r[i] == items[i] {
      AdjustAt(items, id, c, i);
    }
  }

  /** Adjust keeps every line's id, so it keeps the keys unique. */
  lemma {:induction false} AdjustKeepsIds(items: seq<Entry>, id: string, c: QuantityChange)
    ensures forall i :: 0 <= i < |items| ==> Adjust(items, id, c)[i].Id() == items[i].Id()
    ensures UniqueIds(items) ==> UniqueIds(Adjust(items, id, c))
  {
    forall i | 0 <= i < |items| ensures Adjust(items, id, c)[i].Id() == items[i].Id() {
      AdjustAt(items, id, c, i);
    }
  }

  /**
   * addToCart on a product already in the cart keeps the length and the order,
   * raises that line's quantity by `n` (keeping the line's own product fields),
   * and leaves every other line unchanged.
   */
  lemma AddToExisting(items: seq<Entry>, product: Product, n: int, k: nat)
    requires UniqueIds(items) && k < |items| && items[k].Id() == product.id
    ensures var r := AddTo(items, product, n);
      && |r| == |items|
      && r[k] == Entry(items[k].product, items[k].quantity + n)
      && forall i :: 0 <= i < |items| && i != k ==> r[i] == items[i]
  {
    var r := AddTo(items, product, n);
    assert r == Adjust(items, product.id, Increase(n));
    forall i | 0 <= i < |items| ensures r[i] == if i == k then Entry(items[k].product, items[k].quantity + n) else items[i] {
      AdjustAt(items, product.id, Increase(n), i);
    }
  }

  /** addToCart on a new id appends exactly one line `{...product, quantity}` at the end. */
  lemma AddToNew(items: seq<Entry>, product: Product, n: int)
    requires !HasId(items, product.id)
    ensures AddTo(items, product, n) == items + [Entry(product, n)]
    ensures |AddTo(items, product, n)| == |items| + 1
  {
  }

  /** The lines left by Remove are exactly the lines of the list whose id differs. */
  lemma {:induction false} RemoveMembers(items: seq<Entry>, id: string)
    ensures forall e :: e in Remove(items, id) <==> e in items && e.Id() != id
  {
    if items != [] {
      RemoveMembers(items[1..], id);
      assert items == [items[0]] + items[1..];
    }
  }

  /** Removing keeps the ids unique. */
  lemma {:induction false} RemoveKeepsUnique(items: seq<Entry>, id: string)
    requires UniqueIds(items)
    ensures UniqueIds(Remove(items, id))
  {
    if items != [] {
      var rest := Remove(items[1..], id);
      RemoveKeepsUnique(items[1..], id);
      RemoveMembers(items[1..], id);
      if items[0].Id() != id {
        var r := [items[0]] + rest;
        forall j | 0 < j < |r| ensures r[0].Id() != r[j].Id() {
          assert r[j] in rest;
          assert r[j] in items[1..];
        }
        assert Remove(items, id) == r;
      }
    }
  }

  /** No line with the removed id is left. */
  lemma {:induction false} RemoveLeavesNone(items: seq<Entry>, id: string)
    ensures !HasId(Remove(items, id), id)
  {
    var r := Remove(items, id);
    RemoveMembers(items, id);
    forall i | 0 <= i < |r| ensures r[i].Id() != id {
      assert r[i] in r;
    }
  }

  /** Removing an absent id is a no-op. */
  lemma {:induction false} RemoveAbsent(items: seq<Entry>, id: string)
    requires !HasId(items, id)
    ensures Remove(items, id) == items
  {
    if items != [] {
      forall i | 0 <= i < |items[1..]| ensures items[1..][i].Id() != id {
        assert items[1..][i] == items[i + 1];
      }
      RemoveAbsent(items[1..], id);
      assert items == [items[0]] + items[1..];
    }
  }

  /** removeFromCart is idempotent. */
  lemma {:induction false} RemoveIdempotent(items: seq<Entry>, id: string)
    ensures Remove(Remove(items, id), id) == Remove(items, id)
  {
    RemoveLeavesNone(items, id);
    RemoveAbsent(Remove(items, id), id);
  }

  /** Filtering distributes over concatenation. */
  lemma {:induction false} RemoveConcat(a: seq<Entry>, b: seq<Entry>, id: string)
    ensures Remove(a + b, id) == Remove(a, id) + Remove(b, id)
  {
    if a == [] {
      assert a + b == b;
    } else {
      var ab := a + b;
      assert ab[0] == a[0] && ab[1..] == a[1..] + b;
      RemoveConcat(a[1..], b, id);
      if a[0].Id() == id {
        calc {
          Remove(ab, id);
          Remove(a[1..] + b, id);
          Remove(a[1..], id) + Remove(b, id);
        }
      } else {
        calc {
          Remove(ab, id);
          [a[0]] + Remove(a[1..] + b, id);
          [a[0]] + (Remove(a[1..], id) + Remove(b, id));
          ([a[0]] + Remove(a[1..], id)) + Remove(b, id);
        }
      }
    }
  }

  /**
   * With unique ids, removing the id of line `k` yields the list with exactly
   * that line cut out: the remaining lines keep their relative order.
   */
  lemma RemovePresent(items: seq<Entry>, id: string, k: nat)
    requires UniqueIds(items) && k < |items| && items[k].Id() == id
    ensures Remove(items, id) == items[..k] + items[k + 1..]
  {
    var before, after := items[..k], items[k + 1..];
    assert items == before + ([items[k]] + after);
    forall i | 0 <= i < |before| ensures before[i].Id() != id {
      assert before[i] == items[i];
    }
    RemoveAbsent(before, id);
    forall i | 0 <= i < |after| ensures after[i].Id() != id {
      assert after[i] == items[k + 1 + i];
    }
    RemoveAbsent(after, id);
    assert Remove([items[k]], id) == [] by {
      assert [items[k]][1..] == [];
    }
    RemoveConcat(before, [items[k]] + after, id);
    RemoveConcat([items[k]], after, id);
  }

  /**
   * updateQuantity with a positive quantity sets exactly the matching line's
   * quantity and changes nothing else; with zero or less it is removeFromCart.
   */
  lemma UpdateEffect(items: seq<Entry>, id: string, q: int)
    ensures q <= 0 ==> Update(items, id, q) == Remove(items, id)
    ensures q > 0 ==> |Update(items, id, q)| == |items|
    ensures q > 0 ==> forall i :: 0 <= i < |items| ==>
      Update(items, id, q)[i] == if items[i].Id() == id then items[i].(quantity := q) else items[i]
  {
    if q > 0 {
      forall i | 0 <= i < |items|
        ensures Update(items, id, q)[i] == if items[i].Id() == id then items[i].(quantity := q) else items[i]
      {
        AdjustAt(items, id, SetTo(q), i);
      }
    }
  }

  /** updateQuantity never adds a line: for an absent id the list is unchanged, whatever the quantity. */
  lemma UpdateAbsent(items: seq<Entry>, id: string, q: int)
    requires !HasId(items, id)
    ensures Update(items, id, q) == items
  {
    if q <= 0 { RemoveAbsent(items, id); } else { AdjustAbsent(items, id, SetTo(q)); }
  }

  /** All three mutating operations keep at most one line per id. */
  lemma OperationsKeepUnique(items: seq<Entry>, product: Product, n: int, id: string, q: int)
    requires UniqueIds(items)
    ensures UniqueIds(AddTo(items, product, n))
    ensures UniqueIds(Remove(items, id))
    ensures UniqueIds(Update(items, id, q))
  {
    AdjustKeepsIds(items, product.id, Increase(n));
    RemoveKeepsUnique(items, id);
    AdjustKeepsIds(items, id, SetTo(q));
    if !HasId(items, product.id) {
      var r := AddTo(items, product, n);
      assert r == items + [Entry(product, n)];
      forall i, j | 0 <= i < j < |r| ensures r[i].Id() != r[j].Id() {
        if j == |items| {
          assert r[i] == items[i];
        }
      }
    }
  }

  /**
   * Positive quantities stay positive: addToCart with a positive amount, and
   * updateQuantity with any amount (a non-positive amount removes the line).
   */
  lemma OperationsKeepPositive(items: seq<Entry>, product: Product, n: int, id: string, q: int)
    requires AllPositive(items)
    ensures n > 0 ==> AllPositive(AddTo(items, product, n))
    ensures AllPositive(Remove(items, id))
    ensures AllPositive(Update(items, id, q))
  {
    if n > 0 {
      var r := AddTo(items, product, n);
      if HasId(items, product.id) {
        forall i | 0 <= i < |r| ensures r[i].quantity > 0 {
          AdjustAt(items, product.id, Increase(n), i);
        }
      }
    }
    var r := Remove(items, id);
    RemoveMembers(items, id);
    forall i | 0 <= i < |r| ensures r[i].quantity > 0 {
      assert r[i] in r;
      var j :| 0 <= j < |items| && items[j] == r[i];
    }
    if q > 0 {
      forall i | 0 <= i < |items| ensures Update(items, id, q)[i].quantity > 0 {
        AdjustAt(items, id, SetTo(q), i);
      }
    }
  }

  // ---------------------------------------------------------------------------
  // Lemmas: the sums
  // ---------------------------------------------------------------------------

  lemma {:induction false} SumsOfConcat(a: seq<Entry>, b: seq<Entry>)
    ensures Count(a + b) == Count(a) + Count(b)
    ensures Total(a + b) == Total(a) + Total(b)
  {
    if a != [] {
      SumsOfConcat(a[1..], b);
      assert (a + b)[0] == a[0];
      assert (a + b)[1..] == a[1..] + b;
    } else {
      assert a + b == b;
    }
  }

  /**
   * Raising the quantity of the single line with id `id` (at index k) by n
   * raises cartCount by n and cartTotal by that line's price times n.
   */
  lemma {:induction false} SumsOfIncrease(items: seq<Entry>, id: string, n: int, k: nat)
    requires UniqueIds(items) && k < |items| && items[k].Id() == id
    ensures Count(Adjust(items, id, Increase(n))) == Count(items) + n
    ensures Total(Adjust(items, id, Increase(n))) == Total(items) + items[k].product.price * n
  {
    if k == 0 {
      SumsOfIncreaseAtHead(items, id, n);
    } else {
      var r, tail := Adjust(items, id, Increase(n)), items[1..];
      assert r[1..] == Adjust(tail, id, Increase(n));
      SumsOfIncrease(tail, id, n, k - 1);
      assert tail[k - 1] == items[k];
    }
  }

  /** The case of SumsOfIncrease where the matching line is the first one. */
  lemma SumsOfIncreaseAtHead(items: seq<Entry>, id: string, n: int)
    requires UniqueIds(items) && items != [] && items[0].Id() == id
    ensures Count(Adjust(items, id, Increase(n))) == Count(items) + n
    ensures Total(Adjust(items, id, Increase(n))) == Total(items) + items[0].product.price * n
  {
    var r, head, tail := Adjust(items, id, Increase(n)), items[0], items[1..];
    HeadIdNotInTail(items);
    AdjustAbsent(tail, id, Increase(n));
    assert r == [head.(quantity := head.quantity + n)] + tail;
    assert r[1..] == tail;
    Distribute(head.product.price, head.quantity + n, n);
  }


  /**
   * addToCart raises cartCount by exactly the added quantity, and cartTotal by
   * the added quantity times the price of the line it lands on: the new product
   * for a new line, the line's stored price for an existing one.
   */
  lemma {:induction false} AddToSums(items: seq<Entry>, product: Product, n: int)
    requires UniqueIds(items)
    ensures Count(AddTo(items, product, n)) == Count(items) + n
    ensures !HasId(items, product.id) ==> Total(AddTo(items, product, n)) == Total(items) + product.price * n
    ensures forall k :: 0 <= k < |items| && items[k].Id() == product.id ==>
      Total(AddTo(items, product, n)) == Total(items) + items[k].product.price * n
  {
    if HasId(items, product.id) {
      var k :| 0 <= k < |items| && items[k].Id() == product.id;
      SumsOfIncrease(items, product.id, n, k);
      forall k' | 0 <= k' < |items| && items[k'].Id() == product.id
        ensures Total(AddTo(items, product, n)) == Total(items) + items[k'].product.price * n
      {
        assert k' == k;
      }
    } else {
      SumsOfConcat(items, [Entry(product, n)]);
    }
  }

  /** Removing line k lowers cartCount by its quantity and cartTotal by its subtotal. */
  lemma {:induction false} RemoveSums(items: seq<Entry>, id: string, k: nat)
    requires UniqueIds(items) && k < |items| && items[k].Id() == id
    ensures Count(Remove(items, id)) == Count(items) - items[k].quantity
    ensures Total(Remove(items, id)) == Total(items) - items[k].product.price * items[k].quantity
  {
    RemovePresent(items, id, k);
    assert items == items[..k] + ([items[k]] + items[k + 1..]);
    SumsOfConcat(items[..k], [items[k]] + items[k + 1..]);
    SumsOfConcat([items[k]], items[k + 1..]);
    SumsOfConcat(items[..k], items[k + 1..]);
  }

  /** On a list where line k alone has id `id`, setting its quantity is raising it by the difference. */
  lemma SetIsIncrease(items: seq<Entry>, id: string, k: nat, q: int)
    requires UniqueIds(items) && k < |items| && items[k].Id() == id
    ensures Adjust(items, id, SetTo(q)) == Adjust(items, id, Increase(q - items[k].quantity))
  {
    forall i | 0 <= i < |items|
      ensures Adjust(items, id, SetTo(q))[i] == Adjust(items, id, Increase(q - items[k].quantity))[i]
    {
      AdjustAt(items, id, SetTo(q), i);
      AdjustAt(items, id, Increase(q - items[k].quantity), i);
    }
  }

  /**
   * updateQuantity on line k replaces that line's share of cartCount by the new
   * quantity, or by nothing when the line is removed.
   */
  lemma {:induction false} UpdateSums(items: seq<Entry>, id: string, k: nat, q: int)
    requires UniqueIds(items) && k < |items| && items[k].Id() == id
    ensures Count(Update(items, id, q)) == Count(items) - items[k].quantity + (if q > 0 then q else 0)
    ensures Total(Update(items, id, q)) ==
            Total(items) - items[k].product.price * items[k].quantity + (if q > 0 then items[k].product.price * q else 0)
  {
    if q <= 0 {
      RemoveSums(items, id, k);
    } else {
      SetSums(items, id, k, q);
    }
  }

  /** Setting line k's quantity to q replaces its share of both sums. */
  lemma {:induction false} SetSums(items: seq<Entry>, id: string, k: nat, q: int)
    requires UniqueIds(items) && k < |items| && items[k].Id() == id
    ensures Count(Adjust(items, id, SetTo(q))) == Count(items) - items[k].quantity + q
    ensures Total(Adjust(items, id, SetTo(q))) == Total(items) - items[k].product.price * items[k].quantity + items[k].product.price * q
  {
    var price, was := items[k].product.price, items[k].quantity;
    SetIsIncrease(items, id, k, q);
    SumsOfIncrease(items, id, q - was, k);
    Distribute(price, q, was);
  }

  /** Distributivity, stated so that the sum proofs do not lean on the solver's non-linear arithmetic. */
  lemma Distribute(p: int, a: int, b: int)
    ensures p * (a - b) == p * a - p * b
  {
  }

  // ---------------------------------------------------------------------------
  // The store itself
  // ---------------------------------------------------------------------------

  /** The cart provider: one state cell `cartItems`, replaced by each operation. */
  class Cart {
    var cartItems: seq<Entry>

    /** The provider mounts with an empty cart. */
    constructor ()
      ensures cartItems == []
    {
      cartItems := [];
    }

    function CartTotal(): int
      reads this
    {
      Total(cartItems)
    }

    function CartCount(): int
      reads this
    {
      Count(cartItems)
    }

    method AddToCart(product: Product, quantity: int := 1)
      modifies this
      ensures cartItems == AddTo(old(cartItems), product, quantity)
      ensures UniqueIds(old(cartItems)) ==> UniqueIds(cartItems) && CartCount() == old(CartCount()) + quantity
    {
      if UniqueIds(cartItems) {
        OperationsKeepUnique(cartItems, product, quantity, product.id, 0);
        AddToSums(cartItems, product, quantity);
      }
      cartItems := AddTo(cartItems, product, quantity);
    }

    method RemoveFromCart(productId: string)
      modifies this
      ensures cartItems == Remove(old(cartItems), productId)
      ensures !HasId(cartItems, productId)
      ensures UniqueIds(old(cartItems)) ==> UniqueIds(cartItems)
    {
      RemoveLeavesNone(cartItems, productId);
      if UniqueIds(cartItems) {
        RemoveKeepsUnique(cartItems, productId);
      }
      cartItems := Remove(cartItems, productId);
    }

    method UpdateQuantity(productId: string, quantity: int)
      modifies this
      ensures cartItems == Update(old(cartItems), productId, quantity)
      ensures UniqueIds(old(cartItems)) ==> UniqueIds(cartItems)
      ensures AllPositive(old(cartItems)) ==> AllPositive(cartItems)
    {
      var none := Product("", "", 0, "", "");
      if UniqueIds(cartItems) {
        OperationsKeepUnique(cartItems, none, 0, productId, quantity);
      }
      if AllPositive(cartItems) {
        OperationsKeepPositive(cartItems, none, 0, productId, quantity);
      }
      if quantity <= 0 {
        RemoveFromCart(productId);
        return;
      }
      cartItems := Adjust(cartItems, productId, SetTo(quantity));
    }

    method ClearCart()
      modifies this
      ensures cartItems == []
      ensures CartTotal() == 0 && CartCount() == 0
    {
      cartItems := [];
    }
  }
}
