/**
 * The invoice form (src/app/components/invoices/invoice-form.component.ts):
 * its rows, payment fields and search terms, the three change handlers, and
 * the load, edit and save operations.  Reactive subscriptions become explicit
 * calls: every operation that changes the rows ends by running the items
 * handler, a user edit of a payment field runs that field's handler, and a
 * silent write runs nothing.
 */
module InvoiceForm {
  import opened Wrappers
  import opened Models
  import opened Numbers
  import opened FormTotals
  import opened Payment
  import Lists
  import Cart
  import InvoiceStore

  /** `createItem()`: no product yet, quantity 1, price 0, no discount. */
  function NewRow(): (it: FormItem)
    ensures LineSubtotal(it) == 0.0 && LineDiscount(it) == 0.0
  {
    FormItem(None, Some(1.0), Some(0.0), Some(0.0))
  }

  /**
   * What the row validators accept: a product, a quantity of at least 1, a
   * price of at least 0, and a discount within [0, 100] when one is given.
   */
  predicate RowValid(it: FormItem) {
    && it.product.Some?
    && it.cartQuantity.Some? && it.cartQuantity.value >= 1.0
    && it.sellingPrice.Some? && it.sellingPrice.value >= 0.0
    && (it.discountPercent.Some? ==> 0.0 <= it.discountPercent.value <= 100.0)
  }

  /** Validated rows meet the pricing bounds, so their discount stays within their subtotal. */
  lemma ValidRowsPriceSanely(items: seq<FormItem>)
    requires forall i :: 0 <= i < |items| ==> RowValid(items[i])
    ensures 0.0 <= TotalsOf(items).discount <= TotalsOf(items).subtotal
    ensures TotalsOf(items).total >= 0.0
  {
    DiscountWithinSubtotal(items);
  }

  /**
   * `populateForm`'s row for one saved line: the catalog's product with the
   * line's own quantity, price and discount, or no row when the catalog no
   * longer has the product.
   */
  function LoadedRow(line: CartItem, catalog: seq<Product>): (r: seq<FormItem>)
    ensures Lists.FindKey(catalog, ProductId, line.id).None? ==> r == []
    ensures Lists.FindKey(catalog, ProductId, line.id).Some? ==>
              r == [FormItem(Lists.FindKey(catalog, ProductId, line.id), Some(line.cartQuantity),
                             Some(line.sellingPrice), Some(line.discountPercent))]
    ensures forall i :: 0 <= i < |r| ==> r[i].product.Some? && r[i].product.value in catalog
  {
    match Lists.FindKey(catalog, ProductId, line.id)
    case Some(p) => [FormItem(Some(p), Some(line.cartQuantity), Some(line.sellingPrice), Some(line.discountPercent))]
    case None => []
  }

  /**
   * `populateForm`'s rows: each saved line whose product the catalog still
   * has becomes a row with that catalog product and the line's own quantity,
   * price and discount; lines whose product is gone are dropped.
   */
  function LoadedRows(lines: seq<CartItem>, catalog: seq<Product>): (r: seq<FormItem>)
    ensures |r| <= |lines|
    ensures forall i :: 0 <= i < |r| ==> r[i].product.Some? && r[i].product.value in catalog
    ensures (forall i :: 0 <= i < |lines| ==> Lists.FindKey(catalog, ProductId, lines[i].id).Some?) ==>
              |r| == |lines| &&
              forall i :: 0 <= i < |lines| ==>
                r[i] == FormItem(Lists.FindKey(catalog, ProductId, lines[i].id), Some(lines[i].cartQuantity),
                                 Some(lines[i].sellingPrice), Some(lines[i].discountPercent))
  {
    if lines == [] then []
    else
      var rest := LoadedRows(lines[1..], catalog);
      assert forall i :: 1 <= i < |lines| ==> lines[1..][i - 1] == lines[i];
      LoadedRow(lines[0], catalog) + rest
  }

  /** Loading works line by line: the rows of two runs of lines are the two runs' rows, in order. */
  lemma {:induction false} LoadedRowsAppend(a: seq<CartItem>, b: seq<CartItem>, catalog: seq<Product>)
    ensures LoadedRows(a + b, catalog) == LoadedRows(a, catalog) + LoadedRows(b, catalog)
  {
    if a == [] {
      assert a + b == b;
    } else {
      var ab := a + b;
      assert ab[0] == a[0] && ab[1..] == a[1..] + b;
      LoadedRowsAppend(a[1..], b, catalog);
    }
  }

  /** A single saved line loads as exactly its own row. */
  lemma LoadedRowsOfLine(line: CartItem, catalog: seq<Product>)
    ensures LoadedRows([line], catalog) == LoadedRow(line, catalog)
  {
    assert [line][1..] == [];
  }

  /** The search box labels of loaded rows: each row's product name. */
  function RowLabels(rows: seq<FormItem>): (labels: seq<string>)
    requires forall i :: 0 <= i < |rows| ==> rows[i].product.Some?
    ensures |labels| == |rows|
    ensures forall i :: 0 <= i < |rows| ==> labels[i] == rows[i].product.value.name
  {
    seq(|rows|, i requires 0 <= i < |rows| => rows[i].product.value.name)
  }

  /**
   * `saveInvoice`'s line for a row: the row's product with the quantity
   * (0 or missing becomes 1), price and discount (missing becomes 0).
   */
  function SavedLine(it: FormItem): (c: CartItem)
    requires it.product.Some?
    ensures c.id == it.product.value.id && !c.isCustom
    ensures c.cartQuantity == OrOne(it.cartQuantity)
    ensures c.sellingPrice == OrZero(it.sellingPrice) && c.discountPercent == OrZero(it.discountPercent)
  {
    ProductLine(it.product.value, OrOne(it.cartQuantity))
      .(sellingPrice := OrZero(it.sellingPrice), discountPercent := OrZero(it.discountPercent))
  }

  /**
   * `items.filter(item => item.product).map(...)`: the rows that have a
   * product, in order, each as its saved line.
   */
  function SavedLines(items: seq<FormItem>): (r: seq<CartItem>)
    ensures |r| == |Lists.Filter(items, HasProduct)| <= |items|
    ensures forall i :: 0 <= i < |r| ==>
              HasProduct(Lists.Filter(items, HasProduct)[i]) && r[i] == SavedLine(Lists.Filter(items, HasProduct)[i])
    ensures forall i :: 0 <= i < |r| ==> r[i].cartQuantity != 0.0
    ensures (forall i :: 0 <= i < |items| ==> items[i].product.Some?) ==> |r| == |items|
  {
    if items == [] then []
    else
      var rest := SavedLines(items[1..]);
      assert forall i :: 1 <= i < |items| ==> items[1..][i - 1] == items[i];
      var kept := Lists.Filter(items[1..], HasProduct);
      if items[0].product.Some? then
        assert Lists.Filter(items, HasProduct) == [items[0]] + kept;
        [SavedLine(items[0])] + rest
      else
        assert Lists.Filter(items, HasProduct) == kept;
        rest
  }

  lemma SavedLineTotals(it: FormItem)
    requires RowValid(it)
    ensures Cart.LineSubtotal(SavedLine(it)) == LineSubtotal(it)
    ensures Cart.LineDiscount(SavedLine(it)) == LineDiscount(it)
  {
    var p, q, d := it.sellingPrice.value, it.cartQuantity.value, OrZero(it.discountPercent);
    assert Cart.LineDiscount(SavedLine(it)) == (p * d / 100.0) * q;
    assert (p * d / 100.0) * q == (p * q) * d / 100.0;
  }

  /**
   * For validated rows the saved lines give back, under the cart's formula,
   * the very subtotal and discount the form computed and stored.
   */
  lemma {:induction false} SavedLinesKeepTotals(items: seq<FormItem>)
    requires forall i :: 0 <= i < |items| ==> RowValid(items[i])
    ensures Cart.Subtotal(SavedLines(items)) == TotalsOf(items).subtotal
    ensures Cart.TotalDiscount(SavedLines(items)) == TotalsOf(items).discount
  {
    if items != [] {
      var head, rest := items[..1], items[1..];
      assert items == head + rest;
      assert head[..0] == [];
      SavedLinesKeepTotals(rest);
      SumsAppend(head, rest);
      SavedLineTotals(items[0]);
      var line := [SavedLine(items[0])];
      assert line[..0] == [];
      Cart.SumsAppend(line, SavedLines(rest));
    }
  }

  /** The invoice `saveInvoice` stores under `id`. */
  function SavedInvoice(id: string, date: string, customer: Customer, items: seq<FormItem>,
                        paymentMode: PaymentMode, amountPaid: Num): (inv: Invoice)
    ensures inv.id == id && inv.date == date && inv.customer == customer && inv.paymentMode == paymentMode
    ensures inv.items == SavedLines(items) && inv.amountPaid == amountPaid
    ensures inv.subtotal == TotalsOf(items).subtotal && inv.totalDiscount == TotalsOf(items).discount
    ensures inv.total == inv.subtotal - inv.totalDiscount
    ensures (forall i :: 0 <= i < |items| ==> RowValid(items[i])) ==> InvoiceStore.TotalsAgree(inv)
  {
    var t := TotalsOf(items);
    var inv := Invoice(id, date, customer, SavedLines(items), t.subtotal, t.total, paymentMode, t.discount, amountPaid);
    assert (forall i :: 0 <= i < |items| ==> RowValid(items[i])) ==> InvoiceStore.TotalsAgree(inv) by {
      if forall i :: 0 <= i < |items| ==> RowValid(items[i]) {
        SavedLinesKeepTotals(items);
      }
    }
    inv
  }

  /**
   * The totals as the component computes them. `totals` reads the rows
   * through a signal bound to the form's first `items` array; `populateForm`
   * swaps in a new array, so once an invoice is loaded the signal keeps
   * reporting the first array's value, which is empty.
   */
  function TotalsAsWritten(loaded: bool, items: seq<FormItem>): (t: Totals)
    ensures !loaded ==> t == TotalsOf(items)
    ensures loaded ==> t == Totals(0.0, 0.0, 0.0)
  {
    TotalsOf(if loaded then [] else items)
  }

  /**
   * The invoice `saveInvoice` stores with the totals as the component
   * computes them: the intended invoice in create mode, and zero subtotal,
   * discount and total over the same lines once an invoice was loaded.
   */
  function SavedInvoiceAsWritten(loaded: bool, id: string, date: string, customer: Customer,
                                 items: seq<FormItem>, paymentMode: PaymentMode, amountPaid: Num): (inv: Invoice)
    ensures !loaded ==> inv == SavedInvoice(id, date, customer, items, paymentMode, amountPaid)
    ensures loaded ==> inv == SavedInvoice(id, date, customer, items, paymentMode, amountPaid)
                                .(subtotal := 0.0, totalDiscount := 0.0, total := 0.0)
  {
    var t := TotalsAsWritten(loaded, items);
    Invoice(id, date, customer, SavedLines(items), t.subtotal, t.total, paymentMode, t.discount, amountPaid)
  }

  /**
   * Editing a loaded invoice of one saree at 4999 with 10% off: any row
   * change resets the amount paid to 0 instead of 4499, and saving stores
   * totals of 0 against lines worth 4499.1, where the intended save agrees.
   */
  lemma EditedInvoiceLosesTotals(p: Product, date: string, c: Customer, mode: PaymentMode)
    ensures var rows := [FormItem(Some(p), Some(1.0), Some(4999.0), Some(10.0))];
            && RowValid(rows[0])
            && AfterItemsChange(Round(TotalsAsWritten(true, rows).total)).amountPaid == Some(0.0)
            && AfterItemsChange(RoundedTotal(rows)).amountPaid == Some(4499.0)
            && !InvoiceStore.TotalsAgree(SavedInvoiceAsWritten(true, "INV-1001", date, c, rows, mode, Some(4499.0)))
            && InvoiceStore.TotalsAgree(SavedInvoice("INV-1001", date, c, rows, mode, Some(4499.0)))
  {
    var rows := [FormItem(Some(p), Some(1.0), Some(4999.0), Some(10.0))];
    SingleDiscountedRow(p);
    RoundOfInteger(0);
    SavedLinesKeepTotals(rows);
  }

  /** `isEditMode`: the route carries a non-empty invoice id. */
  predicate EditMode(routeId: Option<string>) {
    routeId.Some? && routeId.value != ""
  }

  class InvoiceFormComponent {
    var items: seq<FormItem>
    var amountPaid: Num
    var dueAmount: Num
    var searchTerms: seq<string>
    var customer: Option<Customer>
    var customerSearchTerm: string
    var date: string
    var paymentMode: PaymentMode

    /** One product search box per row. */
    predicate Valid()
      reads this
    {
      |searchTerms| == |items|
    }

    function Fields(): PaymentFields
      reads this
    {
      PaymentFields(amountPaid, dueAmount)
    }

    /** The form validators: customer, date, at least one valid row, amount paid >= 0. */
    predicate FormValid()
      reads this
    {
      && customer.Some?
      && date != ""
      && |items| >= 1
      && (forall i :: 0 <= i < |items| ==> RowValid(items[i]))
      && amountPaid.Some? && amountPaid.value >= 0.0
    }

    /** The form shows `invoice` as `populateForm` loads it, on top of the earlier search terms. */
    ghost predicate Shows(invoice: Invoice, catalog: seq<Product>, termsBefore: seq<string>)
      reads this
    {
      && Fields() == LoadedPayment(invoice)
      && date == invoice.date
      && paymentMode == invoice.paymentMode
      && customer == Some(invoice.customer)
      && customerSearchTerm == invoice.customer.name
      && items == LoadedRows(invoice.items, catalog)
      && searchTerms == termsBefore + RowLabels(items)
    }

    /** The form as built: no rows, both payment fields 0, cash, today's date. */
    constructor (today: string)
      ensures Valid()
      ensures items == [] && searchTerms == [] && Fields() == PaymentFields(Some(0.0), Some(0.0))
      ensures customer == None && customerSearchTerm == "" && date == today && paymentMode == Cash
    {
      items := [];
      amountPaid := Some(0.0);
      dueAmount := Some(0.0);
      searchTerms := [];
      customer := None;
      customerSearchTerm := "";
      date := today;
      paymentMode := Cash;
    }

    /**
     * `ngOnInit` before the subscriptions exist: in create mode one empty row
     * is added (no handler runs); in edit mode the invoice is loaded, or the
     * caller is told to redirect when the ledger has no such invoice.
     */
    method OnInit(routeId: Option<string>, ledger: InvoiceStore.InvoiceService, catalog: seq<Product>)
      returns (redirect: bool)
      modifies this
      ensures !EditMode(routeId) ==>
                !redirect && items == old(items) + [NewRow()] && searchTerms == old(searchTerms) + [""] &&
                Fields() == old(Fields()) && customer == old(customer) && date == old(date) &&
                paymentMode == old(paymentMode) && customerSearchTerm == old(customerSearchTerm)
      ensures EditMode(routeId) && ledger.GetInvoiceById(routeId.value).None? ==>
                redirect && unchanged(this)
      ensures EditMode(routeId) && ledger.GetInvoiceById(routeId.value).Some? ==>
                !redirect && Shows(ledger.GetInvoiceById(routeId.value).value, catalog, old(searchTerms))
      ensures old(Valid()) && old(searchTerms) == [] ==> Valid()
    {
      redirect := false;
      if EditMode(routeId) {
        var invoice := ledger.GetInvoiceById(routeId.value);
        if invoice.Some? {
          PopulateForm(invoice.value, catalog);
        } else {
          redirect := true;
        }
      } else {
        items := items + [NewRow()];
        searchTerms := searchTerms + [""];
      }
    }

    /**
     * `populateForm`: silent writes of the date, payment mode and rounded
     * payment fields, the customer selected, and the rows replaced by the
     * invoice's lines that the catalog still has; their product names are
     * appended to the search terms.
     */
    method PopulateForm(invoice: Invoice, catalog: seq<Product>)
      modifies this
      ensures Shows(invoice, catalog, old(searchTerms))
      ensures Settled(Fields(), Round(invoice.total))
      ensures old(searchTerms) == [] ==> Valid()
    {
      var p := LoadedPayment(invoice);
      amountPaid, dueAmount := p.amountPaid, p.dueAmount;
      date := invoice.date;
      paymentMode := invoice.paymentMode;
      SelectCustomer(invoice.customer);
      var rows := LoadedRows(invoice.items, catalog);
      searchTerms := searchTerms + RowLabels(rows);
      items := rows;
    }

    /** The items handler: amount paid becomes the rounded total and nothing is due. */
    method ItemsChanged()
      modifies this`amountPaid, this`dueAmount
      ensures Fields() == AfterItemsChange(RoundedTotal(items))
      ensures Settled(Fields(), RoundedTotal(items))
    {
      var totals := ComputeTotals(items);
      var roundedTotal := Round(totals.total);
      amountPaid, dueAmount := Some(roundedTotal as real), Some(0.0);
    }

    /** `addItem`: an empty row and an empty search term, then the items handler. */
    method AddItem()
      requires Valid()
      modifies this`items, this`searchTerms, this`amountPaid, this`dueAmount
      ensures Valid()
      ensures items == old(items) + [NewRow()] && searchTerms == old(searchTerms) + [""]
      ensures RoundedTotal(items) == RoundedTotal(old(items))
      ensures Fields() == AfterItemsChange(RoundedTotal(items))
    {
      items := items + [NewRow()];
      searchTerms := searchTerms + [""];
      assert items[..|items| - 1] == old(items);
      ItemsChanged();
    }

    /**
     * `removeItem`: the row and the search term at `index` go (neither when
     * the index is past the end), then the items handler runs.
     */
    method RemoveItem(index: nat)
      requires Valid()
      modifies this`items, this`searchTerms, this`amountPaid, this`dueAmount
      ensures Valid()
      ensures items == Lists.RemoveAt(old(items), index)
      ensures searchTerms == Lists.RemoveAt(old(searchTerms), index)
      ensures Fields() == AfterItemsChange(RoundedTotal(items))
    {
      items := Lists.RemoveAt(items, index);
      searchTerms := Lists.RemoveAt(searchTerms, index);
      ItemsChanged();
    }

    /** The user edits the quantity, price or discount of a row; the items handler runs. */
    method EditRow(index: nat, cartQuantity: Num, sellingPrice: Num, discountPercent: Num)
      requires index < |items|
      modifies this`items, this`amountPaid, this`dueAmount
      ensures items == old(items)[index := old(items)[index].(cartQuantity := cartQuantity,
                sellingPrice := sellingPrice, discountPercent := discountPercent)]
      ensures Fields() == AfterItemsChange(RoundedTotal(items))
    {
      items := items[index := items[index].(cartQuantity := cartQuantity,
        sellingPrice := sellingPrice, discountPercent := discountPercent)];
      ItemsChanged();
    }

    /**
     * `selectProduct`: the row takes the product with its price and discount
     * (its quantity stays), its search term becomes the product name, and the
     * items handler runs.
     */
    method SelectProduct(product: Product, index: nat)
      requires Valid() && index < |items|
      modifies this`items, this`searchTerms, this`amountPaid, this`dueAmount
      ensures Valid()
      ensures items == old(items)[index := old(items)[index].(product := Some(product),
                sellingPrice := Some(product.sellingPrice), discountPercent := Some(product.discountPercent))]
      ensures searchTerms == old(searchTerms)[index := product.name]
      ensures Fields() == AfterItemsChange(RoundedTotal(items))
    {
      items := items[index := items[index].(product := Some(product),
        sellingPrice := Some(product.sellingPrice), discountPercent := Some(product.discountPercent))];
      searchTerms := searchTerms[index := product.name];
      ItemsChanged();
    }

    /** `onProductSearch`: the row's search term is what the user typed. */
    method OnProductSearch(index: nat, term: string)
      requires Valid() && index < |items|
      modifies this`searchTerms
      ensures Valid()
      ensures searchTerms == old(searchTerms)[index := term]
    {
      searchTerms := searchTerms[index := term];
    }

    /** `onCustomerSearch`: the customer search term is what the user typed. */
    method OnCustomerSearch(term: string)
      modifies this`customerSearchTerm
      ensures customerSearchTerm == term
    {
      customerSearchTerm := term;
    }

    /** `selectCustomer`: the customer control holds `c` and the search box shows the name. */
    method SelectCustomer(c: Customer)
      modifies this`customer, this`customerSearchTerm
      ensures customer == Some(c) && customerSearchTerm == c.name
    {
      customer := Some(c);
      customerSearchTerm := c.name;
    }

    /** The user types into amount paid; its handler silently derives the due amount. */
    method EditAmountPaid(paid: Num)
      modifies this`amountPaid, this`dueAmount
      ensures Fields() == AfterPaidEdit(paid, RoundedTotal(items))
      ensures Settled(Fields(), RoundedTotal(items))
    {
      amountPaid := paid;
      var totals := ComputeTotals(items);
      var roundedTotal := Round(totals.total);
      dueAmount := Some(roundedTotal as real - OrZero(paid));
    }

    /** The user types into the due amount; its handler silently derives amount paid. */
    method EditDueAmount(due: Num)
      modifies this`amountPaid, this`dueAmount
      ensures Fields() == AfterDueEdit(due, RoundedTotal(items))
      ensures Settled(Fields(), RoundedTotal(items))
    {
      dueAmount := due;
      var totals := ComputeTotals(items);
      var roundedTotal := Round(totals.total);
      amountPaid := Some(roundedTotal as real - OrZero(due));
    }

    /** `roundAndSync` on blur of a payment field. */
    method RoundAndSync(field: PaymentField)
      modifies this`amountPaid, this`dueAmount
      ensures Fields() == AfterRoundAndSync(old(Fields()), field, RoundedTotal(items))
    {
      var value := if field == AmountPaid then amountPaid else dueAmount;
      var rounded := Some(Round(OrZero(value)) as real);
      if value != rounded {
        if field == AmountPaid {
          EditAmountPaid(rounded);
        } else {
          EditDueAmount(rounded);
        }
      }
    }

    /**
     * `saveInvoice`: nothing when the form is invalid or no row has a
     * product; otherwise the rows with a product become the invoice's lines
     * and the invoice replaces the one under the route id (edit mode) or is
     * added under a newly generated id (create mode).
     */
    method SaveInvoice(ledger: InvoiceStore.InvoiceService, routeId: Option<string>)
      requires ledger.Valid()
      modifies ledger
      ensures ledger.Valid()
      ensures !FormValid() || SavedLines(items) == [] ==> unchanged(ledger)
      ensures FormValid() && EditMode(routeId) ==>
                ledger.lastInvoiceNumber == old(ledger.lastInvoiceNumber) &&
                ledger.invoices == Lists.ReplaceKey(old(ledger.invoices), InvoiceId, routeId.value,
                  SavedInvoice(routeId.value, date, customer.value, items, paymentMode, amountPaid))
      ensures FormValid() && !EditMode(routeId) ==>
                ledger.lastInvoiceNumber == old(ledger.lastInvoiceNumber) + 1 &&
                ledger.invoices == [SavedInvoice(InvoiceStore.InvoiceIdFor(ledger.lastInvoiceNumber), date,
                  customer.value, items, paymentMode, amountPaid)] + old(ledger.invoices)
      ensures FormValid() ==> forall inv :: inv in ledger.invoices && inv !in old(ledger.invoices) ==>
                InvoiceStore.TotalsAgree(inv)
    {
      if !FormValid() {
        return;
      }
      var lines := SavedLines(items);
      if |lines| == 0 {
        return;
      }
      if EditMode(routeId) {
        SaveEdited(ledger, routeId.value);
      } else {
        SaveCreated(ledger);
      }
    }

    /** `saveInvoice` in edit mode: the form's invoice replaces the one under `id`. */
    method SaveEdited(ledger: InvoiceStore.InvoiceService, id: string)
      requires FormValid()
      modifies ledger`invoices
      ensures ledger.invoices == Lists.ReplaceKey(old(ledger.invoices), InvoiceId, id,
                SavedInvoice(id, date, customer.value, items, paymentMode, amountPaid))
      ensures InvoiceStore.TotalsAgree(SavedInvoice(id, date, customer.value, items, paymentMode, amountPaid))
    {
      var invoice := SavedInvoice(id, date, customer.value, items, paymentMode, amountPaid);
      ledger.UpdateInvoice(invoice);
    }

    /** `saveInvoice` in create mode: the form's invoice is added under a newly generated id. */
    method SaveCreated(ledger: InvoiceStore.InvoiceService)
      requires FormValid()
      requires ledger.Valid()
      modifies ledger
      ensures ledger.Valid()
      ensures ledger.lastInvoiceNumber == old(ledger.lastInvoiceNumber) + 1
      ensures ledger.invoices == [SavedInvoice(InvoiceStore.InvoiceIdFor(ledger.lastInvoiceNumber), date,
                customer.value, items, paymentMode, amountPaid)] + old(ledger.invoices)
      ensures InvoiceStore.TotalsAgree(ledger.invoices[0])
    {
      var id := ledger.GenerateNewInvoiceId();
      var invoice := SavedInvoice(id, date, customer.value, items, paymentMode, amountPaid);
      ledger.AddInvoice(invoice);
    }
  }
}
