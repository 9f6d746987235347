/**
 * The invoice form's pricing
 * (src/app/components/invoices/invoice-form.component.ts, `totals`): rows of
 * the item array summed into subtotal, discount and total.
 */
module FormTotals {
  import opened Wrappers
  import opened Models
  import opened Numbers
  import Lists

  /** One row of the form's item array, with its raw control values. */
  datatype FormItem = FormItem(
    product: Option<Product>,
    cartQuantity: Num,
    sellingPrice: Num,
    discountPercent: Num)

  datatype Totals = Totals(subtotal: real, discount: real, total: real)

  predicate HasProduct(it: FormItem) {
    it.product.Some?
  }

  /** A row's price times quantity; a row without a product counts for nothing. */
  function LineSubtotal(it: FormItem): real {
    if it.product.None? then 0.0
    else OrZero(it.sellingPrice) * OrZero(it.cartQuantity)
  }

  function LineDiscount(it: FormItem): real {
    if it.product.None? then 0.0
    else LineSubtotal(it) * OrZero(it.discountPercent) / 100.0
  }

  /** The running `subtotal` of the loop after the given rows. */
  function SubtotalOf(items: seq<FormItem>): real {
    if items == [] then 0.0
    else SubtotalOf(items[..|items| - 1]) + LineSubtotal(items[|items| - 1])
  }

  /** The running `totalDiscount` of the loop after the given rows. */
  function DiscountOf(items: seq<FormItem>): real {
    if items == [] then 0.0
    else DiscountOf(items[..|items| - 1]) + LineDiscount(items[|items| - 1])
  }

  function TotalsOf(items: seq<FormItem>): (t: Totals)
    ensures t.total == t.subtotal - t.discount
  {
    Totals(SubtotalOf(items), DiscountOf(items), SubtotalOf(items) - DiscountOf(items))
  }

  /** The rounded total the payment fields are derived from. */
  function RoundedTotal(items: seq<FormItem>): int {
    Round(TotalsOf(items).total)
  }

  /** `totals`: one pass over the rows, accumulating subtotal and discount. */
  method ComputeTotals(items: seq<FormItem>) returns (t: Totals)
    ensures t == TotalsOf(items)
  {
    var subtotal, totalDiscount := 0.0, 0.0;
    for i := 0 to |items|
      invariant subtotal == SubtotalOf(items[..i])
      invariant totalDiscount == DiscountOf(items[..i])
    {
      var item := items[i];
      if item.product.Some? {
        var price := OrZero(item.sellingPrice);
        var quantity := OrZero(item.cartQuantity);
        var discountPercent := OrZero(item.discountPercent);
        var lineSubtotal := price * quantity;
        var lineDiscount := lineSubtotal * discountPercent / 100.0;
        subtotal := subtotal + lineSubtotal;
        totalDiscount := totalDiscount + lineDiscount;
      }
      assert items[..i + 1][..i] == items[..i];
    }
    assert items[..|items|] == items;
    t := Totals(subtotal, totalDiscount, subtotal - totalDiscount);
  }

  /** Summing rows in two parts gives the sum of the parts. */
  lemma {:induction false} SumsAppend(a: seq<FormItem>, b: seq<FormItem>)
    ensures SubtotalOf(a + b) == SubtotalOf(a) + SubtotalOf(b)
    ensures DiscountOf(a + b) == DiscountOf(a) + DiscountOf(b)
    decreases |b|
  {
    if b == [] {
      assert a + b == a;
    } else {
      var n := |b|;
      SumsAppend(a, b[..n - 1]);
      assert (a + b)[..|a + b| - 1] == a + b[..n - 1];
      assert (a + b)[|a + b| - 1] == b[n - 1];
    }
  }

  /** Only rows that have a product count: dropping the others changes no total. */
  lemma {:induction false} OnlyRowsWithProductCount(items: seq<FormItem>)
    ensures TotalsOf(Lists.Filter(items, HasProduct)) == TotalsOf(items)
  {
    if items != [] {
      var head, rest := items[..1], items[1..];
      assert items == head + rest;
      OnlyRowsWithProductCount(rest);
      SumsAppend(head, rest);
      assert head[..0] == [];
      var kept := Lists.Filter(rest, HasProduct);
      if HasProduct(items[0]) {
        assert Lists.Filter(items, HasProduct) == head + kept;
        SumsAppend(head, kept);
      } else {
        assert Lists.Filter(items, HasProduct) == kept;
      }
    }
  }

  /** A row that the item validators accept, where it has a product. */
  predicate Sane(it: FormItem) {
    it.product.Some? ==>
      OrZero(it.sellingPrice) >= 0.0 && OrZero(it.cartQuantity) >= 0.0 &&
      0.0 <= OrZero(it.discountPercent) <= 100.0
  }

  lemma LineDiscountBounded(it: FormItem)
    requires Sane(it)
    ensures 0.0 <= LineDiscount(it) <= LineSubtotal(it)
  {
    if it.product.Some? {
      var s, f := LineSubtotal(it), OrZero(it.discountPercent) / 100.0;
      assert 0.0 <= s;
      assert LineDiscount(it) == s * f;
      assert s * f <= s * 1.0;
    }
  }

  /** With validated rows: 0 <= discount <= subtotal, hence a total that is not negative. */
  lemma {:induction false} DiscountWithinSubtotal(items: seq<FormItem>)
    requires forall i :: 0 <= i < |items| ==> Sane(items[i])
    ensures 0.0 <= TotalsOf(items).discount <= TotalsOf(items).subtotal
    ensures TotalsOf(items).total >= 0.0
  {
    if items != [] {
      DiscountWithinSubtotal(items[..|items| - 1]);
      LineDiscountBounded(items[|items| - 1]);
    }
  }

  /** One saree at 4999 with 10% off: 4999 - 499.9 = 4499.1, rounded to 4499. */
  lemma SingleDiscountedRow(p: Product)
    ensures var items := [FormItem(Some(p), Some(1.0), Some(4999.0), Some(10.0))];
            TotalsOf(items) == Totals(4999.0, 499.9, 4499.1) && RoundedTotal(items) == 4499
  {
    var items := [FormItem(Some(p), Some(1.0), Some(4999.0), Some(10.0))];
    assert items[..0] == [];
    assert LineSubtotal(items[0]) == 4999.0;
    assert LineDiscount(items[0]) == 499.9;
    assert SubtotalOf(items) == SubtotalOf([]) + 4999.0;
    assert DiscountOf(items) == DiscountOf([]) + 499.9;
    assert TotalsOf(items) == Totals(4999.0, 499.9, 4499.1);
    var r := Round(4499.1);
    assert 4498.6 < r as real <= 4499.6;
  }
}
