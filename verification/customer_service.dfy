/** The customer directory (src/app/services/customer.service.ts). */
module CustomerStore {
  import opened Wrappers
  import opened Models
  import opened Numbers
  import Lists

  /** The customers the directory starts with. */
  function SeedCustomers(): seq<Customer> {
    [ Customer("cust-001", "Ravi Kumar", "9876543210", "ravi@example.com", []),
      Customer("cust-002", "Sunita Sharma", "9876543211", "sunita@example.com", []),
      Customer("cust-003", "Anjali Verma", "9876543212", "anjali@example.com", []) ]
  }

  /** No two customers share an id, and none share a phone number. */
  predicate DistinctKeys(cs: seq<Customer>) {
    forall i, j :: 0 <= i < j < |cs| ==> cs[i].id != cs[j].id && cs[i].phone != cs[j].phone
  }

  lemma SeedCustomersDistinct()
    ensures |SeedCustomers()| == 3 && DistinctKeys(SeedCustomers())
  {
  }

  /** `cust-${Date.now()}`, with the clock reading passed in. */
  function NewCustomerId(now: nat): string {
    "cust-" + DecimalString(now)
  }

  class CustomerService {
    var customers: seq<Customer>

    constructor ()
      ensures customers == SeedCustomers()
    {
      customers := SeedCustomers();
    }

    /** `customers().find(c => c.phone === phone)`: exact match on the phone string. */
    function GetCustomerByPhone(phone: string): (r: Option<Customer>)
      reads this
      ensures r.None? <==> forall i :: 0 <= i < |customers| ==> customers[i].phone != phone
      ensures r.Some? ==> r.value in customers && r.value.phone == phone
      ensures forall i ::
                0 <= i < |customers| && customers[i].phone == phone && (forall j :: 0 <= j < i ==> customers[j].phone != phone)
                ==> r == Some(customers[i])
    {
      Lists.FindKey(customers, CustomerPhone, phone)
    }

    /**
     * Appends the customer under a clock-based id with an empty purchase
     * history and returns the stored record.
     */
    method AddCustomer(draft: Customer, now: nat) returns (stored: Customer)
      modifies this
      ensures stored == draft.(id := NewCustomerId(now), purchaseHistory := [])
      ensures customers == old(customers) + [stored]
      ensures (forall i :: 0 <= i < |old(customers)| ==> old(customers)[i].phone != draft.phone) ==>
                GetCustomerByPhone(draft.phone) == Some(stored)
    {
      stored := draft.(id := NewCustomerId(now), purchaseHistory := []);
      if forall i :: 0 <= i < |customers| ==> customers[i].phone != draft.phone {
        Lists.FindAppended(customers, CustomerPhone, stored);
      }
      customers := customers + [stored];
    }

    /** Replaces every customer with the same id; a no-op when the id is absent. */
    method UpdateCustomer(updated: Customer)
      modifies this
      ensures customers == Lists.ReplaceKey(old(customers), CustomerId, updated.id, updated)
      ensures (forall i :: 0 <= i < |old(customers)| ==> old(customers)[i].id != updated.id) ==>
                customers == old(customers)
    {
      if forall i :: 0 <= i < |customers| ==> customers[i].id != updated.id {
        Lists.ReplaceAbsentKey(customers, CustomerId, updated.id, updated);
      }
      customers := Lists.ReplaceKey(customers, CustomerId, updated.id, updated);
    }

    /** Removes every customer with this id; the rest keep their order. */
    method DeleteCustomer(customerId: string)
      modifies this
      ensures customers == Lists.RemoveKey(old(customers), CustomerId, customerId)
      ensures forall i :: 0 <= i < |customers| ==> customers[i].id != customerId
      ensures forall c :: c in old(customers) && c.id != customerId ==> c in customers
    {
      customers := Lists.RemoveKey(customers, CustomerId, customerId);
    }
  }
}
