/**
 * The invoice form's type-ahead search
 * (src/app/components/invoices/invoice-form.component.ts,
 * `filteredCustomers` and `filteredProducts`): case-insensitive substring
 * matching over the directory and the catalog.
 */
module Search {
  import opened Models
  import Lists

  /** `toLowerCase` on one character, for the ASCII letters. */
  function LowerChar(c: char): (l: char)
    ensures 'A' <= c <= 'Z' ==> l as int == c as int + 32
    ensures !('A' <= c <= 'Z') ==> l == c
  {
    if 'A' <= c <= 'Z' then (c as int + 32) as char else c
  }

  function ToLower(s: string): (r: string)
    ensures |r| == |s|
    ensures forall i :: 0 <= i < |s| ==> r[i] == LowerChar(s[i])
  {
    seq(|s|, i requires 0 <= i < |s| => LowerChar(s[i]))
  }

  /** `t` occurs in `s` starting at index `i`. */
  predicate OccursAt(s: string, t: string, i: int) {
    0 <= i <= |s| - |t| && s[i..i + |t|] == t
  }

  /** `s.includes(t)`: `t` occurs in `s` at some position. */
  function Includes(s: string, t: string): (r: bool)
    ensures r <==> exists i :: OccursAt(s, t, i)
    decreases |s|
  {
    if |t| <= |s| && s[..|t|] == t then
      assert OccursAt(s, t, 0);
      true
    else if |s| <= |t| then false
    else
      var r := Includes(s[1..], t);
      assert !OccursAt(s, t, 0);
      assert forall i :: 1 <= i ==> (OccursAt(s, t, i) <==> OccursAt(s[1..], t, i - 1));
      assert forall j :: OccursAt(s[1..], t, j) ==> OccursAt(s, t, j + 1);
      r
  }

  /** A customer matches on a name containing the term in any letter case, or on the phone. */
  predicate CustomerMatches(c: Customer, term: string) {
    Includes(ToLower(c.name), term) || Includes(c.phone, term)
  }

  /** A product matches on its name or SKU containing the term in any letter case. */
  predicate ProductMatches(p: Product, term: string) {
    Includes(ToLower(p.name), term) || Includes(ToLower(p.sku), term)
  }

  /**
   * `filteredCustomers`: nothing for an empty term, otherwise the customers
   * whose lower-cased name or whose phone contains the lower-cased term, in
   * directory order.
   */
  function FilteredCustomers(searchTerm: string, customers: seq<Customer>): (r: seq<Customer>)
    ensures searchTerm == [] ==> r == []
    ensures forall c :: c in r <==> searchTerm != [] && c in customers && CustomerMatches(c, ToLower(searchTerm))
  {
    var term := ToLower(searchTerm);
    if term == [] then []
    else Lists.Filter(customers, c => CustomerMatches(c, term))
  }

  /**
   * `filteredProducts(index)`: the search term of that row (none when the
   * row does not exist), then the same matching on product name or SKU.
   */
  function FilteredProducts(searchTerms: seq<string>, index: int, products: seq<Product>): (r: seq<Product>)
    ensures !(0 <= index < |searchTerms|) ==> r == []
    ensures forall p :: p in r <==>
              0 <= index < |searchTerms| && searchTerms[index] != [] &&
              p in products && ProductMatches(p, ToLower(searchTerms[index]))
  {
    var term := if 0 <= index < |searchTerms| then ToLower(searchTerms[index]) else [];
    if term == [] then []
    else Lists.Filter(products, p => ProductMatches(p, term))
  }
}
