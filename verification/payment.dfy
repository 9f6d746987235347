/**
 * The invoice form's payment fields
 * (src/app/components/invoices/invoice-form.component.ts): what each
 * change handler, `balance`, `populateForm` and `roundAndSync` make of
 * `amountPaid` and `dueAmount`, given the rounded total.  Each handler writes
 * the other field silently, so no handler ever runs another one.
 */
module Payment {
  import opened Wrappers
  import opened Models
  import opened Numbers

  datatype PaymentFields = PaymentFields(amountPaid: Num, dueAmount: Num)

  datatype PaymentField = AmountPaid | DueAmount

  /** The two fields account for exactly the rounded total. */
  predicate Settled(p: PaymentFields, roundedTotal: int) {
    OrZero(p.amountPaid) + OrZero(p.dueAmount) == roundedTotal as real
  }

  /** `balance`: the rounded total less what was paid (missing counts as 0). */
  function Balance(roundedTotal: int, amountPaid: Num): (b: real)
    ensures amountPaid.None? ==> b == roundedTotal as real
    ensures b + OrZero(amountPaid) == roundedTotal as real
  {
    roundedTotal as real - OrZero(amountPaid)
  }

  /**
   * The items handler: whatever was entered before, the invoice becomes
   * fully paid at the new rounded total with nothing due.
   */
  function AfterItemsChange(roundedTotal: int): (p: PaymentFields)
    ensures Settled(p, roundedTotal)
    ensures p.amountPaid.Some? && p.dueAmount == Some(0.0)
  {
    PaymentFields(Some(roundedTotal as real), Some(0.0))
  }

  /** The user typed `paid` into amountPaid; its handler derives dueAmount. */
  function AfterPaidEdit(paid: Num, roundedTotal: int): (p: PaymentFields)
    ensures p.amountPaid == paid
    ensures p.dueAmount.Some?
    ensures Settled(p, roundedTotal)
  {
    PaymentFields(paid, Some(roundedTotal as real - OrZero(paid)))
  }

  /** The user typed `due` into dueAmount; its handler derives amountPaid. */
  function AfterDueEdit(due: Num, roundedTotal: int): (p: PaymentFields)
    ensures p.dueAmount == due
    ensures p.amountPaid.Some?
    ensures Settled(p, roundedTotal)
  {
    PaymentFields(Some(roundedTotal as real - OrZero(due)), due)
  }

  function FieldValue(p: PaymentFields, field: PaymentField): Num {
    match field
    case AmountPaid => p.amountPaid
    case DueAmount => p.dueAmount
  }

  /**
   * `roundAndSync` on blur: writes `Math.round(value || 0)` only when it
   * differs from the current value; that write is not silent, so the field's
   * own handler then derives the other field.
   */
  function AfterRoundAndSync(p: PaymentFields, field: PaymentField, roundedTotal: int): (r: PaymentFields)
    ensures var rounded := Some(Round(OrZero(FieldValue(p, field))) as real);
            FieldValue(r, field) == rounded &&
            (FieldValue(p, field) == rounded ==> r == p) &&
            (FieldValue(p, field) != rounded ==>
               Settled(r, roundedTotal) && r.amountPaid.Some? && r.dueAmount.Some?)
  {
    var value := FieldValue(p, field);
    var rounded := Some(Round(OrZero(value)) as real);
    if value == rounded then p
    else match field
      case AmountPaid => AfterPaidEdit(rounded, roundedTotal)
      case DueAmount => AfterDueEdit(rounded, roundedTotal)
  }

  /** A second blur finds the value already rounded and writes nothing. */
  lemma RoundAndSyncIdempotent(p: PaymentFields, field: PaymentField, roundedTotal: int)
    ensures var once := AfterRoundAndSync(p, field, roundedTotal);
            AfterRoundAndSync(once, field, roundedTotal) == once
  {
    var once := AfterRoundAndSync(p, field, roundedTotal);
    var n := Round(OrZero(FieldValue(p, field)));
    assert FieldValue(once, field) == Some(n as real);
    RoundOfInteger(n);
  }

  /** Blurring a field that already holds a whole number writes nothing. */
  lemma RoundAndSyncLeavesWholeNumbers(p: PaymentFields, field: PaymentField, roundedTotal: int, n: int)
    requires FieldValue(p, field) == Some(n as real)
    ensures AfterRoundAndSync(p, field, roundedTotal) == p
  {
    RoundOfInteger(n);
  }

  /** Once the fields are settled, the balance is exactly the due amount. */
  lemma BalanceIsDue(p: PaymentFields, roundedTotal: int)
    requires Settled(p, roundedTotal)
    ensures Balance(roundedTotal, p.amountPaid) == OrZero(p.dueAmount)
  {
  }

  /**
   * The fields `populateForm` loads from a saved invoice: the rounded amount
   * paid (the total when none was stored) and the rounded total less it.
   */
  function LoadedPayment(invoice: Invoice): (p: PaymentFields)
    ensures Settled(p, Round(invoice.total))
    ensures p.amountPaid.Some? && p.dueAmount.Some?
    ensures invoice.amountPaid.Some? ==> p.amountPaid == Some(Round(invoice.amountPaid.value) as real)
    ensures invoice.amountPaid.None? ==> p == PaymentFields(Some(Round(invoice.total) as real), Some(0.0))
  {
    var roundedTotal := Round(invoice.total);
    var roundedAmountPaid := Round(invoice.amountPaid.GetOr(invoice.total));
    PaymentFields(Some(roundedAmountPaid as real), Some((roundedTotal - roundedAmountPaid) as real))
  }

  /**
   * A total rounding to 7347: paying 7000 leaves 347 due; setting the due
   * amount to 0 then makes the amount paid 7347.
   */
  lemma PartialThenFullPayment()
    ensures AfterItemsChange(7347) == PaymentFields(Some(7347.0), Some(0.0))
    ensures AfterPaidEdit(Some(7000.0), 7347) == PaymentFields(Some(7000.0), Some(347.0))
    ensures AfterDueEdit(Some(0.0), 7347) == PaymentFields(Some(7347.0), Some(0.0))
  {
  }
}
