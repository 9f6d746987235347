/**
 * The records the invoicing front-end passes around (src/app/models): a
 * catalog product, a customer, a line of a cart or a saved invoice, and a
 * saved invoice.  Numbers are exact reals; dates are the strings the form holds.
 */
module Models {
  import opened Wrappers

  datatype Size = S | M | L | XL | FreeSize

  datatype Product = Product(
    id: string,
    name: string,
    category: string,
    sku: string,
    size: Size,
    color: string,
    purchasePrice: real,
    sellingPrice: real,
    discountPercent: real,
    quantity: real,
    minStockAlert: real,
    imageUrl: string)

  datatype Customer = Customer(
    id: string,
    name: string,
    phone: string,
    email: string,
    purchaseHistory: seq<string>)

  /**
   * One line of a cart or of a saved invoice.  `isCustom` tells an ad-hoc line
   * from a catalog product; `sku` and `imageUrl` are optional in the source,
   * and the empty string stands for "absent".
   */
  datatype CartItem = CartItem(
    id: string,
    name: string,
    cartQuantity: real,
    sellingPrice: real,
    discountPercent: real,
    isCustom: bool,
    sku: string,
    imageUrl: string)

  datatype PaymentMode = Cash | UPI | Card

  /**
   * A saved invoice.  `amountPaid` is `None` when the stored value is not a
   * number, which the invoice list checks for.
   */
  datatype Invoice = Invoice(
    id: string,
    date: string,
    customer: Customer,
    items: seq<CartItem>,
    subtotal: real,
    total: real,
    paymentMode: PaymentMode,
    totalDiscount: real,
    amountPaid: Option<real>)

  /** `{ ...product, cartQuantity }`: a catalog product as a cart line. */
  function ProductLine(p: Product, cartQuantity: real): (c: CartItem)
    ensures c.id == p.id && c.cartQuantity == cartQuantity && !c.isCustom
    ensures c.sellingPrice == p.sellingPrice && c.discountPercent == p.discountPercent
  {
    CartItem(p.id, p.name, cartQuantity, p.sellingPrice, p.discountPercent, false, p.sku, p.imageUrl)
  }

  // The keys the stores look records up by.
  function ProductId(p: Product): string { p.id }
  function CustomerId(c: Customer): string { c.id }
  function CustomerPhone(c: Customer): string { c.phone }
  function CartItemId(c: CartItem): string { c.id }
  function InvoiceId(i: Invoice): string { i.id }
}
