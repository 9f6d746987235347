/** The product catalog (src/app/services/product.service.ts). */
module ProductStore {
  import opened Wrappers
  import opened Models
  import opened Numbers
  import Lists

  /** The catalog the service starts with. */
  function SeedProducts(): seq<Product> {
    [ Product("prod-001", "Elegant Silk Saree", "Saree", "SAR001", FreeSize, "Royal Blue",
              2500.0, 4999.0, 10.0, 15.0, 5.0, "https://picsum.photos/seed/saree1/400/400"),
      Product("prod-002", "Designer Anarkali Gown", "Gown", "GWN001", M, "Maroon",
              4000.0, 7999.0, 15.0, 8.0, 3.0, "https://picsum.photos/seed/gown1/400/400"),
      Product("prod-003", "Cotton Comfort Kurti", "Kurti", "KUR001", L, "Yellow",
              800.0, 1499.0, 5.0, 25.0, 10.0, "https://picsum.photos/seed/kurti1/400/400"),
      Product("prod-004", "Classic Bandhgala Suit", "Suit", "SUT001", XL, "Black",
              5000.0, 9999.0, 0.0, 12.0, 5.0, "https://picsum.photos/seed/suit1/400/400"),
      Product("prod-005", "Printed Georgette Saree", "Saree", "SAR002", FreeSize, "Pink",
              1200.0, 2499.0, 0.0, 5.0, 5.0, "https://picsum.photos/seed/saree2/400/400"),
      Product("prod-006", "Hand-embroidered Kurti", "Kurti", "KUR002", S, "White",
              1500.0, 2999.0, 10.0, 3.0, 2.0, "https://picsum.photos/seed/kurti2/400/400") ]
  }

  /** `prod-${Date.now()}`, with the clock reading passed in. */
  function NewProductId(now: nat): string {
    "prod-" + DecimalString(now)
  }

  /**
   * `products.map(p => p.id === id ? { ...p, quantity: p.quantity + delta } : p)`:
   * only the stock count of the products with that id moves.
   */
  function WithStockChange(products: seq<Product>, id: string, delta: real): (r: seq<Product>)
    ensures |r| == |products|
    ensures forall i :: 0 <= i < |r| ==> r[i].(quantity := products[i].quantity) == products[i]
    ensures forall i :: 0 <= i < |r| && products[i].id != id ==> r[i] == products[i]
    ensures forall i :: 0 <= i < |r| && products[i].id == id ==>
              r[i].quantity == products[i].quantity + delta
  {
    seq(|products|, i requires 0 <= i < |products| =>
      if products[i].id == id then products[i].(quantity := products[i].quantity + delta)
      else products[i])
  }

  /** Taking stock out and putting the same amount back restores the catalog; there is no floor at 0. */
  lemma StockChangeUndone(products: seq<Product>, id: string, delta: real)
    ensures WithStockChange(WithStockChange(products, id, delta), id, -delta) == products
  {
    var r := WithStockChange(WithStockChange(products, id, delta), id, -delta);
    forall i | 0 <= i < |products|
      ensures r[i] == products[i]
    {
      assert r[i].(quantity := products[i].quantity) == products[i];
    }
  }

  /** A stock change for an id the catalog lacks changes nothing. */
  lemma StockChangeAbsent(products: seq<Product>, id: string, delta: real)
    requires forall i :: 0 <= i < |products| ==> products[i].id != id
    ensures WithStockChange(products, id, delta) == products
  {
  }

  class ProductService {
    var products: seq<Product>

    constructor ()
      ensures products == SeedProducts()
    {
      products := SeedProducts();
    }

    /** `products().find(p => p.id === id)`. */
    function GetProductById(id: string): (r: Option<Product>)
      reads this
      ensures r.None? <==> forall i :: 0 <= i < |products| ==> products[i].id != id
      ensures r.Some? ==> r.value in products && r.value.id == id
      ensures forall i ::
                0 <= i < |products| && products[i].id == id && (forall j :: 0 <= j < i ==> products[j].id != id)
                ==> r == Some(products[i])
    {
      Lists.FindKey(products, ProductId, id)
    }

    /** Stores the draft under a clock-based id at the end of the catalog and returns it. */
    method AddProduct(draft: Product, now: nat) returns (stored: Product)
      modifies this
      ensures stored == draft.(id := NewProductId(now))
      ensures products == old(products) + [stored]
      ensures (forall i :: 0 <= i < |old(products)| ==> old(products)[i].id != stored.id) ==>
                GetProductById(stored.id) == Some(stored)
    {
      stored := draft.(id := NewProductId(now));
      if forall i :: 0 <= i < |products| ==> products[i].id != stored.id {
        Lists.FindAppended(products, ProductId, stored);
      }
      products := products + [stored];
    }

    /** Replaces every product with the same id; length and order stay. */
    method UpdateProduct(updated: Product)
      modifies this
      ensures products == Lists.ReplaceKey(old(products), ProductId, updated.id, updated)
      ensures old(GetProductById(updated.id)).Some? ==> GetProductById(updated.id) == Some(updated)
      ensures old(GetProductById(updated.id)).None? ==> products == old(products)
    {
      Lists.FindAfterReplace(products, ProductId, updated.id, updated);
      if GetProductById(updated.id).None? {
        Lists.ReplaceAbsentKey(products, ProductId, updated.id, updated);
      }
      products := Lists.ReplaceKey(products, ProductId, updated.id, updated);
    }

    /** Removes every product with this id; the rest keep their order. */
    method DeleteProduct(productId: string)
      modifies this
      ensures products == Lists.RemoveKey(old(products), ProductId, productId)
      ensures GetProductById(productId).None?
    {
      products := Lists.RemoveKey(products, ProductId, productId);
    }

    /** Adds `quantityChange` to the stock of the products with this id. */
    method UpdateStock(productId: string, quantityChange: real)
      modifies this
      ensures products == WithStockChange(old(products), productId, quantityChange)
    {
      products := WithStockChange(products, productId, quantityChange);
    }
  }
}
