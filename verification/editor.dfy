/**
 * The standalone invoice editor (src/app/app.component.ts): one invoice value
 * that every edit replaces with an updated copy, and its subtotal, tax and
 * total.
 */
module Editor {
  import opened Wrappers
  import opened Numbers
  import Lists

  datatype Party = Party(name: string, mobile: string, address: string)

  datatype Item = Item(description: string, qty: real, rate: real)

  datatype Invoice = Invoice(
    invoiceNumber: string,
    currency: string,
    dateIssued: string,
    dueDate: string,
    sender: Party,
    client: Party,
    items: seq<Item>,
    taxRate: real,
    notes: string)

  /** The invoice the editor opens with; both dates are today's. */
  function InitialInvoice(today: string): Invoice {
    Invoice("INV-2024-01", "USD", today, today,
      Party("Advika Collection", "7898546131", "71,C Suvidhi Nagar,Indore"),
      Party("", "", ""),
      [Item("Web Design Consultation", 4.0, 150.0), Item("UI Implementation", 10.0, 85.0)],
      0.0,
      "Thank you for your business. Please contact us for any questions regarding this invoice.")
  }

  function LineAmount(it: Item): real {
    it.qty * it.rate
  }

  /** `items.reduce((acc, item) => acc + qty * rate, 0)`, folded from the left. */
  function Subtotal(items: seq<Item>): real {
    if items == [] then 0.0
    else Subtotal(items[..|items| - 1]) + LineAmount(items[|items| - 1])
  }

  /** `taxAmount`: the subtotal times the tax rate, a percentage. */
  function TaxAmount(inv: Invoice): real {
    Subtotal(inv.items) * (inv.taxRate / 100.0)
  }

  function Total(inv: Invoice): (t: real)
    ensures t == Subtotal(inv.items) * (1.0 + inv.taxRate / 100.0)
    ensures inv.taxRate == 0.0 ==> t == Subtotal(inv.items)
  {
    Subtotal(inv.items) + TaxAmount(inv)
  }

  /** The opening invoice: 4 x 150 + 10 x 85 = 1450, no tax, total 1450. */
  lemma InitialTotals(today: string)
    ensures Subtotal(InitialInvoice(today).items) == 1450.0
    ensures TaxAmount(InitialInvoice(today)) == 0.0
    ensures Total(InitialInvoice(today)) == 1450.0
  {
    var items := InitialInvoice(today).items;
    assert items[..1] == [items[0]] && items[..1][..0] == [];
    assert Subtotal(items[..1]) == 600.0;
  }

  lemma {:induction false} SubtotalAppend(a: seq<Item>, b: seq<Item>)
    ensures Subtotal(a + b) == Subtotal(a) + Subtotal(b)
    decreases |b|
  {
    if b == [] {
      assert a + b == a;
    } else {
      var n := |b|;
      SubtotalAppend(a, b[..n - 1]);
      assert (a + b)[..|a + b| - 1] == a + b[..n - 1];
      assert (a + b)[|a + b| - 1] == b[n - 1];
    }
  }

  /** Removing a line takes exactly its amount off the subtotal. */
  lemma SubtotalWithout(items: seq<Item>, index: int)
    requires 0 <= index < |items|
    ensures Subtotal(Lists.RemoveAt(items, index)) == Subtotal(items) - LineAmount(items[index])
  {
    var before, after := items[..index], items[index + 1..];
    Lists.RemoveAtSplits(items, index);
    SubtotalAround(before, items[index], after);
    SubtotalAppend(before, after);
  }

  /** A line between two runs of lines adds its amount to theirs. */
  lemma SubtotalAround(before: seq<Item>, it: Item, after: seq<Item>)
    ensures Subtotal(before + [it] + after) == Subtotal(before) + LineAmount(it) + Subtotal(after)
  {
    SubtotalAppend(before + [it], after);
    assert (before + [it])[..|before|] == before;
  }

  /** Changing the line at `index` changes the subtotal by that line's difference. */
  lemma {:induction false} SubtotalChangeAt(a: seq<Item>, b: seq<Item>, index: nat)
    requires |a| == |b| && index < |a|
    requires forall i :: 0 <= i < |a| && i != index ==> a[i] == b[i]
    ensures Subtotal(b) == Subtotal(a) - LineAmount(a[index]) + LineAmount(b[index])
  {
    var n := |a|;
    if index == n - 1 {
      assert a[..n - 1] == b[..n - 1];
    } else {
      SubtotalChangeAt(a[..n - 1], b[..n - 1], index);
    }
  }

  /** `updateField(field, value)`: the field and the value it gets. */
  datatype FieldUpdate =
    | SetInvoiceNumber(text: string)
    | SetCurrency(text: string)
    | SetDateIssued(text: string)
    | SetDueDate(text: string)
    | SetSender(party: Party)
    | SetClient(party: Party)
    | SetItems(items: seq<Item>)
    | SetTaxRate(rate: real)
    | SetNotes(text: string)

  /** `inv` holds the value the update names, in the field it names. */
  predicate Holds(inv: Invoice, u: FieldUpdate) {
    match u
    case SetInvoiceNumber(t) => inv.invoiceNumber == t
    case SetCurrency(t) => inv.currency == t
    case SetDateIssued(t) => inv.dateIssued == t
    case SetDueDate(t) => inv.dueDate == t
    case SetSender(p) => inv.sender == p
    case SetClient(p) => inv.client == p
    case SetItems(xs) => inv.items == xs
    case SetTaxRate(r) => inv.taxRate == r
    case SetNotes(t) => inv.notes == t
  }

  /** `{ ...inv, [field]: value }`. */
  function Updated(inv: Invoice, u: FieldUpdate): (r: Invoice)
    ensures Holds(r, u)
  {
    match u
    case SetInvoiceNumber(t) => inv.(invoiceNumber := t)
    case SetCurrency(t) => inv.(currency := t)
    case SetDateIssued(t) => inv.(dateIssued := t)
    case SetDueDate(t) => inv.(dueDate := t)
    case SetSender(p) => inv.(sender := p)
    case SetClient(p) => inv.(client := p)
    case SetItems(xs) => inv.(items := xs)
    case SetTaxRate(r) => inv.(taxRate := r)
    case SetNotes(t) => inv.(notes := t)
  }

  /** The update that would put back `inv`'s own value of the field `u` names. */
  function FieldOf(inv: Invoice, u: FieldUpdate): (back: FieldUpdate)
    ensures Holds(inv, back)
  {
    match u
    case SetInvoiceNumber(_) => SetInvoiceNumber(inv.invoiceNumber)
    case SetCurrency(_) => SetCurrency(inv.currency)
    case SetDateIssued(_) => SetDateIssued(inv.dateIssued)
    case SetDueDate(_) => SetDueDate(inv.dueDate)
    case SetSender(_) => SetSender(inv.sender)
    case SetClient(_) => SetClient(inv.client)
    case SetItems(_) => SetItems(inv.items)
    case SetTaxRate(_) => SetTaxRate(inv.taxRate)
    case SetNotes(_) => SetNotes(inv.notes)
  }

  /** Writing back the field's old value restores the invoice: no other field changed. */
  lemma UpdateTouchesOneField(inv: Invoice, u: FieldUpdate)
    ensures Updated(Updated(inv, u), FieldOf(inv, u)) == inv
  {
  }

  datatype PartyField = Name | Mobile | Address

  /** `{ ...party, [field]: value }`. */
  function WithPartyField(p: Party, field: PartyField, value: string): (r: Party)
    ensures field == Name ==> r.name == value && r.mobile == p.mobile && r.address == p.address
    ensures field == Mobile ==> r.mobile == value && r.name == p.name && r.address == p.address
    ensures field == Address ==> r.address == value && r.name == p.name && r.mobile == p.mobile
  {
    match field
    case Name => p.(name := value)
    case Mobile => p.(mobile := value)
    case Address => p.(address := value)
  }

  datatype ItemField = Description | Qty | Rate

  /**
   * `updateItem`'s new line: the description verbatim, or the quantity or
   * rate as parsed, 0 when parsing gives NaN (`parsed` is `parseFloat(text)`,
   * `None` for NaN).
   */
  function UpdatedItem(it: Item, field: ItemField, text: string, parsed: Option<real>): (r: Item)
    ensures field == Description ==> r == it.(description := text)
    ensures field == Qty ==> r.qty == OrZero(parsed) && r.description == it.description && r.rate == it.rate
    ensures field == Rate ==> r.rate == OrZero(parsed) && r.description == it.description && r.qty == it.qty
  {
    match field
    case Description => it.(description := text)
    case Qty => it.(qty := if parsed.None? then 0.0 else parsed.value)
    case Rate => it.(rate := if parsed.None? then 0.0 else parsed.value)
  }

  class AppComponent {
    var invoice: Invoice

    constructor (today: string)
      ensures invoice == InitialInvoice(today)
    {
      invoice := InitialInvoice(today);
    }

    /** `addItem`: a blank line (quantity 1, rate 0) at the end; the subtotal stays. */
    method AddItem()
      modifies this
      ensures invoice == old(invoice).(items := old(invoice).items + [Item("", 1.0, 0.0)])
      ensures |invoice.items| == |old(invoice).items| + 1
      ensures Subtotal(invoice.items) == Subtotal(old(invoice).items)
    {
      var before := invoice.items;
      invoice := invoice.(items := invoice.items + [Item("", 1.0, 0.0)]);
      assert invoice.items[..|invoice.items| - 1] == before;
    }

    /** `removeItem`: only position `index` goes; an index out of range changes nothing. */
    method RemoveItem(index: int)
      modifies this
      ensures invoice == old(invoice).(items := Lists.RemoveAt(old(invoice).items, index))
      ensures 0 <= index < |old(invoice).items| ==>
                Subtotal(invoice.items) == Subtotal(old(invoice).items) - LineAmount(old(invoice).items[index])
    {
      if 0 <= index < |invoice.items| {
        SubtotalWithout(invoice.items, index);
      }
      invoice := invoice.(items := Lists.RemoveAt(invoice.items, index));
    }

    /** `updateField`: the named field takes the value and nothing else changes. */
    method UpdateField(u: FieldUpdate)
      modifies this
      ensures invoice == Updated(old(invoice), u)
      ensures Holds(invoice, u) && Updated(invoice, FieldOf(old(invoice), u)) == old(invoice)
    {
      UpdateTouchesOneField(invoice, u);
      invoice := Updated(invoice, u);
    }

    /** `updateSenderField`. */
    method UpdateSenderField(field: PartyField, value: string)
      modifies this
      ensures invoice == old(invoice).(sender := WithPartyField(old(invoice).sender, field, value))
    {
      invoice := invoice.(sender := WithPartyField(invoice.sender, field, value));
    }

    /** `updateClientField`. */
    method UpdateClientField(field: PartyField, value: string)
      modifies this
      ensures invoice == old(invoice).(client := WithPartyField(old(invoice).client, field, value))
    {
      invoice := invoice.(client := WithPartyField(invoice.client, field, value));
    }

    /** `updateItem`: one field of one line; the other lines and fields stay. */
    method UpdateItem(index: nat, field: ItemField, text: string, parsed: Option<real>)
      requires index < |invoice.items|
      modifies this
      ensures invoice == old(invoice).(items := old(invoice).items[index :=
                UpdatedItem(old(invoice).items[index], field, text, parsed)])
      ensures Subtotal(invoice.items) == Subtotal(old(invoice).items)
                - LineAmount(old(invoice).items[index]) + LineAmount(invoice.items[index])
    {
      var before := invoice.items;
      invoice := invoice.(items := invoice.items[index := UpdatedItem(invoice.items[index], field, text, parsed)]);
      SubtotalChangeAt(before, invoice.items, index);
    }
  }
}
