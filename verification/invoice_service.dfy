/** The invoice ledger (src/app/services/invoice.service.ts). */
module InvoiceStore {
  import opened Wrappers
  import opened Models
  import opened Numbers
  import Lists
  import Cart

  /** `INV-${n}`. */
  function InvoiceIdFor(n: nat): string {
    "INV-" + DecimalString(n)
  }

  /** Different invoice numbers give different ids. */
  lemma InvoiceIdInjective(m: nat, n: nat)
    ensures InvoiceIdFor(m) == InvoiceIdFor(n) ==> m == n
  {
    if InvoiceIdFor(m) == InvoiceIdFor(n) {
      assert InvoiceIdFor(m)[4..] == DecimalString(m);
      assert InvoiceIdFor(n)[4..] == DecimalString(n);
      DecimalStringInjective(m, n);
    }
  }

  function SeedInvoice1001(): Invoice {
    Invoice("INV-1001", "yesterday",
      Customer("cust-002", "Sunita Sharma", "9876543211", "sunita@example.com", ["INV-1001"]),
      [ CartItem("prod-002", "Designer Anarkali Gown", 1.0, 7999.0, 15.0, false, "GWN001",
                 "https://picsum.photos/seed/gown1/400/400") ],
      7999.0, 6799.15, UPI, 1199.85, Some(7000.0))
  }

  function SeedInvoice1000(): Invoice {
    Invoice("INV-1000", "two days ago",
      Customer("cust-001", "Ravi Kumar", "9876543210", "ravi@example.com", ["INV-1000"]),
      [ CartItem("prod-001", "Elegant Silk Saree", 1.0, 4999.0, 10.0, false, "SAR001",
                 "https://picsum.photos/seed/saree1/400/400"),
        CartItem("prod-003", "Cotton Comfort Kurti", 2.0, 1499.0, 5.0, false, "KUR001",
                 "https://picsum.photos/seed/kurti1/400/400") ],
      7997.0, 7347.2, Card, 649.8, Some(7347.2))
  }

  /** The ledger the service starts with, newest first. */
  function SeedInvoices(): seq<Invoice> {
    [SeedInvoice1001(), SeedInvoice1000()]
  }

  /** A saved invoice whose stored totals are the ones its lines give. */
  predicate TotalsAgree(inv: Invoice) {
    && inv.subtotal == Cart.Subtotal(inv.items)
    && inv.totalDiscount == Cart.TotalDiscount(inv.items)
    && inv.total == inv.subtotal - inv.totalDiscount
  }

  /** The seeded invoices carry the totals their lines give: 7999 - 1199.85 and 7997 - 649.8. */
  lemma SeedTotalsAgree()
    ensures forall inv :: inv in SeedInvoices() ==> TotalsAgree(inv)
  {
    var a, b := SeedInvoice1001(), SeedInvoice1000();
    assert a.items[..0] == [] && b.items[..1][..0] == [] && b.items[..1] == [b.items[0]];
    assert TotalsAgree(a);
    assert TotalsAgree(b);
  }

  /** The seeded ids are the ids numbers 1001 and 1000 print as. */
  lemma SeedIds()
    ensures SeedInvoice1001().id == InvoiceIdFor(1001)
    ensures SeedInvoice1000().id == InvoiceIdFor(1000)
  {
    SeedNumbersPrinted();
  }

  lemma SeedNumbersPrinted()
    ensures InvoiceIdFor(1001) == "INV-1001" && InvoiceIdFor(1000) == "INV-1000"
  {
    Printed(1001, "1001");
    Printed(1000, "1000");
  }

  lemma Printed(n: nat, digits: string)
    requires n == 1000 || n == 1001
    requires digits == if n == 1000 then "1000" else "1001"
    ensures DecimalString(n) == digits
  {
    assert DecimalString(100) == "100";
  }

  class InvoiceService {
    var invoices: seq<Invoice>
    var lastInvoiceNumber: nat
    /** Every invoice number handed out so far, the seeded ones included. */
    ghost var issued: set<nat>

    ghost predicate Valid()
      reads this
    {
      && 1001 <= lastInvoiceNumber
      && forall k :: k in issued ==> k <= lastInvoiceNumber
    }

    constructor ()
      ensures Valid()
      ensures invoices == SeedInvoices() && lastInvoiceNumber == 1001 && issued == {1000, 1001}
    {
      invoices := SeedInvoices();
      lastInvoiceNumber := 1001;
      issued := {1000, 1001};
    }

    /**
     * Bumps the counter and returns `INV-` and the new number; the id differs
     * from every id handed out before, the seeded INV-1000 and INV-1001 included.
     */
    method GenerateNewInvoiceId() returns (id: string)
      requires Valid()
      modifies this`lastInvoiceNumber, this`issued
      ensures Valid()
      ensures lastInvoiceNumber == old(lastInvoiceNumber) + 1
      ensures id == InvoiceIdFor(lastInvoiceNumber)
      ensures issued == old(issued) + {lastInvoiceNumber}
      ensures forall k :: k in old(issued) ==> id != InvoiceIdFor(k)
    {
      lastInvoiceNumber := lastInvoiceNumber + 1;
      id := InvoiceIdFor(lastInvoiceNumber);
      forall k | k in issued
        ensures id != InvoiceIdFor(k)
      {
        InvoiceIdInjective(k, lastInvoiceNumber);
      }
      issued := issued + {lastInvoiceNumber};
    }

    /** `invoices().find(inv => inv.id === id)`. */
    function GetInvoiceById(id: string): (r: Option<Invoice>)
      reads this
      ensures r.None? <==> forall i :: 0 <= i < |invoices| ==> invoices[i].id != id
      ensures r.Some? ==> r.value in invoices && r.value.id == id
      ensures forall i ::
                0 <= i < |invoices| && invoices[i].id == id && (forall j :: 0 <= j < i ==> invoices[j].id != id)
                ==> r == Some(invoices[i])
    {
      Lists.FindKey(invoices, InvoiceId, id)
    }

    /** Puts the invoice first; it is then the one found under its id. */
    method AddInvoice(invoice: Invoice)
      modifies this`invoices
      ensures invoices == [invoice] + old(invoices)
      ensures GetInvoiceById(invoice.id) == Some(invoice)
    {
      Lists.FindPrepended(invoices, InvoiceId, invoice);
      invoices := [invoice] + invoices;
    }

    /** Replaces every invoice with the same id; a no-op when the id is absent. */
    method UpdateInvoice(updated: Invoice)
      modifies this`invoices
      ensures invoices == Lists.ReplaceKey(old(invoices), InvoiceId, updated.id, updated)
      ensures old(GetInvoiceById(updated.id)).Some? ==> GetInvoiceById(updated.id) == Some(updated)
      ensures old(GetInvoiceById(updated.id)).None? ==> invoices == old(invoices)
    {
      Lists.FindAfterReplace(invoices, InvoiceId, updated.id, updated);
      if GetInvoiceById(updated.id).None? {
        Lists.ReplaceAbsentKey(invoices, InvoiceId, updated.id, updated);
      }
      invoices := Lists.ReplaceKey(invoices, InvoiceId, updated.id, updated);
    }
  }
}
