/**
 * The shopping cart (src/app/services/cart.service.ts): a list of cart lines
 * with derived subtotal, discount and total.
 */
module Cart {
  import opened Wrappers
  import opened Models
  import Lists

  function LineSubtotal(it: CartItem): real {
    it.sellingPrice * it.cartQuantity
  }

  /** The cart's per-line discount: the unit discount times the quantity. */
  function LineDiscount(it: CartItem): real {
    (it.sellingPrice * it.discountPercent / 100.0) * it.cartQuantity
  }

  /** `items.reduce((acc, item) => acc + price * qty, 0)`, folded from the left. */
  function Subtotal(items: seq<CartItem>): real {
    if items == [] then 0.0
    else Subtotal(items[..|items| - 1]) + LineSubtotal(items[|items| - 1])
  }

  function TotalDiscount(items: seq<CartItem>): real {
    if items == [] then 0.0
    else TotalDiscount(items[..|items| - 1]) + LineDiscount(items[|items| - 1])
  }

  /** `total`, which is `totalAfterDiscount`. */
  function Total(items: seq<CartItem>): real {
    Subtotal(items) - TotalDiscount(items)
  }

  /** The bounds the discount lemmas assume of a line: price and quantity not negative, a discount of 0 to 100 percent. */
  predicate Priced(it: CartItem) {
    it.sellingPrice >= 0.0 && it.cartQuantity >= 0.0 && 0.0 <= it.discountPercent <= 100.0
  }

  lemma LineDiscountBounded(it: CartItem)
    requires Priced(it)
    ensures 0.0 <= LineDiscount(it) <= LineSubtotal(it)
  {
    var p, q, f := it.sellingPrice, it.cartQuantity, it.discountPercent / 100.0;
    assert 0.0 <= f <= 1.0;
    assert LineDiscount(it) == (p * q) * f;
    assert 0.0 <= p * q;
    assert (p * q) * f <= (p * q) * 1.0;
  }

  /** With validated lines the discount never exceeds the subtotal, so the total is not negative. */
  lemma {:induction false} DiscountWithinSubtotal(items: seq<CartItem>)
    requires forall i :: 0 <= i < |items| ==> Priced(items[i])
    ensures 0.0 <= TotalDiscount(items) <= Subtotal(items)
    ensures Total(items) >= 0.0
  {
    if items != [] {
      DiscountWithinSubtotal(items[..|items| - 1]);
      LineDiscountBounded(items[|items| - 1]);
    }
  }

  /** Summing lines in two parts gives the sum of the parts. */
  lemma {:induction false} SumsAppend(a: seq<CartItem>, b: seq<CartItem>)
    ensures Subtotal(a + b) == Subtotal(a) + Subtotal(b)
    ensures TotalDiscount(a + b) == TotalDiscount(a) + TotalDiscount(b)
    decreases |b|
  {
    if b == [] {
      assert a + b == a;
    } else {
      var n := |b|;
      SumsAppend(a, b[..n - 1]);
      assert (a + b)[..|a + b| - 1] == a + b[..n - 1];
      assert (a + b)[|a + b| - 1] == b[n - 1];
    }
  }

  /** Changing the line at index `k` changes each sum by that line's difference. */
  lemma {:induction false} SumsChangeAt(a: seq<CartItem>, b: seq<CartItem>, k: nat)
    requires |a| == |b| && k < |a|
    requires forall i :: 0 <= i < |a| && i != k ==> a[i] == b[i]
    ensures Subtotal(b) == Subtotal(a) - LineSubtotal(a[k]) + LineSubtotal(b[k])
    ensures TotalDiscount(b) == TotalDiscount(a) - LineDiscount(a[k]) + LineDiscount(b[k])
  {
    var n := |a|;
    if k == n - 1 {
      assert a[..n - 1] == b[..n - 1];
    } else {
      SumsChangeAt(a[..n - 1], b[..n - 1], k);
    }
  }

  /** No two lines of the cart share an id. */
  predicate UniqueIds(items: seq<CartItem>) {
    forall i, j :: 0 <= i < j < |items| ==> items[i].id != items[j].id
  }

  /** A line with a positive quantity; `updateQuantity` keeps only these. */
  predicate InCart(it: CartItem) {
    it.cartQuantity > 0.0
  }

  /** `items.map(item => item.id === id ? { ...item, cartQuantity: q } : item)`. */
  function WithQuantity(items: seq<CartItem>, id: string, q: real): (r: seq<CartItem>)
    ensures |r| == |items|
    ensures forall i :: 0 <= i < |items| && items[i].id != id ==> r[i] == items[i]
    ensures forall i :: 0 <= i < |items| && items[i].id == id ==> r[i] == items[i].(cartQuantity := q)
  {
    seq(|items|, i requires 0 <= i < |items| =>
      if items[i].id == id then items[i].(cartQuantity := q) else items[i])
  }

  /** `items.map(item => item.id === id ? { ...item, cartQuantity: item.cartQuantity + 1 } : item)`. */
  function Incremented(items: seq<CartItem>, id: string): (r: seq<CartItem>)
    ensures |r| == |items|
    ensures forall i :: 0 <= i < |items| && items[i].id != id ==> r[i] == items[i]
    ensures forall i :: 0 <= i < |items| && items[i].id == id ==>
              r[i] == items[i].(cartQuantity := items[i].cartQuantity + 1.0)
  {
    seq(|items|, i requires 0 <= i < |items| =>
      if items[i].id == id then items[i].(cartQuantity := items[i].cartQuantity + 1.0) else items[i])
  }

  /** Incrementing changes no id, so unique ids stay unique. */
  lemma IncrementedKeepsIds(items: seq<CartItem>, id: string)
    ensures forall i :: 0 <= i < |items| ==> Incremented(items, id)[i].id == items[i].id
    ensures UniqueIds(items) ==> UniqueIds(Incremented(items, id))
  {
  }

  /** Adding one unit of the line with this id raises the subtotal by that line's price. */
  lemma IncrementedSubtotal(items: seq<CartItem>, id: string)
    requires UniqueIds(items)
    requires Lists.FindKey(items, CartItemId, id).Some?
    ensures Subtotal(Incremented(items, id))
            == Subtotal(items) + Lists.FindKey(items, CartItemId, id).value.sellingPrice
  {
    var k :| 0 <= k < |items| && items[k].id == id;
    OnlyLineIncremented(items, id, k);
    OneMoreAt(items, Incremented(items, id), k);
  }

  /** Adding one unit to the line at `k` and nothing else raises the subtotal by its price. */
  lemma OneMoreAt(a: seq<CartItem>, b: seq<CartItem>, k: nat)
    requires |a| == |b| && k < |a|
    requires forall i :: 0 <= i < |a| && i != k ==> a[i] == b[i]
    requires b[k] == a[k].(cartQuantity := a[k].cartQuantity + 1.0)
    ensures Subtotal(b) == Subtotal(a) + a[k].sellingPrice
  {
    SumsChangeAt(a, b, k);
    LineOneMore(a[k]);
  }

  /** With unique ids, the line with this id is the one found and the only one incremented. */
  lemma OnlyLineIncremented(items: seq<CartItem>, id: string, k: nat)
    requires UniqueIds(items)
    requires k < |items| && items[k].id == id
    ensures Lists.FindKey(items, CartItemId, id) == Some(items[k])
    ensures forall i :: 0 <= i < |items| && i != k ==> Incremented(items, id)[i] == items[i]
    ensures Incremented(items, id)[k] == items[k].(cartQuantity := items[k].cartQuantity + 1.0)
  {
    assert forall j :: 0 <= j < k ==> CartItemId(items[j]) != id;
  }

  lemma LineOneMore(it: CartItem)
    ensures LineSubtotal(it.(cartQuantity := it.cartQuantity + 1.0)) == LineSubtotal(it) + it.sellingPrice
  {
  }

  /** Appending a line whose id is new keeps the ids unique and adds its subtotal. */
  lemma AppendedLine(items: seq<CartItem>, line: CartItem)
    requires UniqueIds(items)
    requires forall i :: 0 <= i < |items| ==> items[i].id != line.id
    ensures UniqueIds(items + [line])
    ensures Subtotal(items + [line]) == Subtotal(items) + LineSubtotal(line)
  {
    assert (items + [line])[..|items|] == items;
  }

  class CartService {
    var items: seq<CartItem>

    constructor ()
      ensures items == []
    {
      items := [];
    }

    /**
     * One more of `p`: an existing line with its id gets one more unit and
     * nothing else changes; otherwise the product is appended with quantity 1.
     */
    method AddToCart(p: Product)
      modifies this
      ensures (exists i :: 0 <= i < |old(items)| && old(items)[i].id == p.id) ==>
                |items| == |old(items)| &&
                forall i :: 0 <= i < |items| ==>
                  items[i] == if old(items)[i].id == p.id
                              then old(items)[i].(cartQuantity := old(items)[i].cartQuantity + 1.0)
                              else old(items)[i]
      ensures (forall i :: 0 <= i < |old(items)| ==> old(items)[i].id != p.id) ==>
                items == old(items) + [ProductLine(p, 1.0)]
      ensures UniqueIds(old(items)) ==> UniqueIds(items)
      ensures UniqueIds(old(items)) ==>
                Subtotal(items) == Subtotal(old(items)) +
                  match Lists.FindKey(old(items), CartItemId, p.id)
                  case Some(line) => line.sellingPrice
                  case None => p.sellingPrice
    {
      if Lists.FindKey(items, CartItemId, p.id).Some? {
        IncrementedKeepsIds(items, p.id);
        if UniqueIds(items) {
          IncrementedSubtotal(items, p.id);
        }
        items := Incremented(items, p.id);
      } else {
        if UniqueIds(items) {
          AppendedLine(items, ProductLine(p, 1.0));
        }
        items := items + [ProductLine(p, 1.0)];
      }
    }

    /** Drops every line with this id; the others keep their order. */
    method RemoveFromCart(productId: string)
      modifies this
      ensures items == Lists.RemoveKey(old(items), CartItemId, productId)
      ensures forall i :: 0 <= i < |items| ==> items[i].id != productId
      ensures forall it :: it in old(items) && it.id != productId ==> it in items
    {
      items := Lists.RemoveKey(items, CartItemId, productId);
    }

    /**
     * Sets the quantity of the lines with this id, then drops every line whose
     * quantity is not positive, not only the updated one.
     */
    method UpdateQuantity(productId: string, quantity: real)
      modifies this
      ensures items == Lists.Filter(WithQuantity(old(items), productId, quantity), InCart)
      ensures forall i :: 0 <= i < |items| ==> items[i].cartQuantity > 0.0
      ensures forall it :: it in old(items) && it.id != productId && InCart(it) ==> it in items
      ensures forall it :: it in items && it.id == productId ==> it.cartQuantity == quantity
      ensures quantity <= 0.0 ==> forall it :: it in items ==> it.id != productId
    {
      var updated := WithQuantity(items, productId, quantity);
      items := Lists.Filter(updated, InCart);
      assert forall i :: 0 <= i < |items| ==> items[i] in items;
      forall it | it in old(items) && it.id != productId && InCart(it)
        ensures it in updated
      {
        var k :| 0 <= k < |old(items)| && old(items)[k] == it;
        assert updated[k] == it;
      }
      forall it | it in items && it.id == productId
        ensures it.cartQuantity == quantity
      {
        var k :| 0 <= k < |updated| && updated[k] == it;
      }
    }

    method ClearCart()
      modifies this
      ensures items == []
      ensures Subtotal(items) == 0.0 && TotalDiscount(items) == 0.0 && Total(items) == 0.0
    {
      items := [];
    }
  }
}
