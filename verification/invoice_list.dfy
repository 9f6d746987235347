/**
 * The invoice list's detail modal
 * (src/app/components/invoices/invoices.component.ts): which invoice is
 * shown, and whether it still has a balance due or gave change.
 */
module InvoiceList {
  import opened Wrappers
  import opened Models
  import InvoiceStore

  datatype DueInfo = DueInfo(isDue: bool, caption: string, value: real)

  /**
   * `dueInfo`: nothing without a selected invoice or a numeric amount paid;
   * otherwise the unrounded total less the amount paid, due from 0.01 up,
   * shown as its absolute value.
   */
  function DueInfoOf(selected: Option<Invoice>): (r: Option<DueInfo>)
    ensures r.None? <==> selected.None? || selected.value.amountPaid.None?
    ensures r.Some? ==>
              var due := selected.value.total - selected.value.amountPaid.value;
              && (r.value.isDue <==> due >= 0.01)
              && (r.value.isDue ==> r.value.caption == "Balance Due:")
              && (!r.value.isDue ==> r.value.caption == "Change:")
              && r.value.value >= 0.0
              && (r.value.value == due || r.value.value == -due)
  {
    match selected
    case None => None
    case Some(invoice) =>
      match invoice.amountPaid
      case None => None
      case Some(paid) =>
        var due := invoice.total - paid;
        Some(DueInfo(due >= 0.01, if due >= 0.01 then "Balance Due:" else "Change:",
                     if due < 0.0 then -due else due))
  }

  /** INV-1001 (total 6799.15, 7000 paid) shows change of 200.85. */
  lemma SeedInvoiceGaveChange()
    ensures DueInfoOf(Some(InvoiceStore.SeedInvoice1001())) == Some(DueInfo(false, "Change:", 200.85))
  {
  }

  class InvoicesComponent {
    var selectedInvoice: Option<Invoice>
    var showModal: bool

    constructor ()
      ensures selectedInvoice == None && !showModal
    {
      selectedInvoice := None;
      showModal := false;
    }

    /** `viewInvoiceDetails`: select the invoice and open the modal. */
    method ViewInvoiceDetails(invoice: Invoice)
      modifies this
      ensures selectedInvoice == Some(invoice) && showModal
      ensures DueInfoOf(selectedInvoice).Some? <==> invoice.amountPaid.Some?
    {
      selectedInvoice := Some(invoice);
      showModal := true;
    }

    /** `closeModal`: close the modal and clear the selection, so there is no due info. */
    method CloseModal()
      modifies this
      ensures selectedInvoice == None && !showModal
      ensures DueInfoOf(selectedInvoice) == None
    {
      showModal := false;
      selectedInvoice := None;
    }
  }
}
