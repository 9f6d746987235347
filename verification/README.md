# Invoicing front-end: a Dafny model

This project models the logic of a small Angular shop-and-invoice front-end:

- the invoice form's pricing and payment engine;
- the in-memory stores for products, customers, invoices and the cart;
- a standalone invoice editor with tax;
- the balance-due/change panel of the invoice list.

The browser, Angular's reactive machinery and the PDF/share flows are not modelled. Every JavaScript number is an exact `real`. `Math.round(x)` is `(x + 0.5).Floor`. A form control value that may be empty, null or `NaN` is a `Num` (`Option<real>`). A signal is an ordinary field. A `valueChanges` subscription is an explicit handler call. A write with `emitEvent: false` calls no handler.

Files:

- `wrappers.dfy`, `numbers.dfy`: `Option`, number coercions, rounding, decimal printing of ids.
- `lists.dfy`: the array operations the stores use (`filter`, `find`, `map`-replace, index removal), with their laws.
- `models.dfy`: the product, customer, cart line and invoice records.
- `cart_service.dfy`, `product_service.dfy`, `customer_service.dfy`, `invoice_service.dfy`: the stores as classes over one `seq` field each. The invoice store also has a counter.
- `form_totals.dfy`: the form's totals loop, as a method proved against a specification function.
- `payment.dfy`: the payment field handlers, `balance`, `roundAndSync` and the fields loaded in edit mode.
- `search.dfy`: the customer and product type-ahead filters.
- `invoice_form.dfy`: the invoice form as a class (rows, payment fields, search terms), from initialisation through to saving.
- `editor.dfy`: the standalone editor (`app.component.ts`).
- `invoice_list.dfy`: `dueInfo` and the detail modal's selection.

Where the code's behaviour may look unintended, the model follows the code, except for the edit-mode totals (see Findings):

- A change to the item rows resets `amountPaid` to the rounded total and `dueAmount` to 0. Any partial payment entered before is discarded.
- The `dueAmount` handler writes `amountPaid` silently, so it does not re-run the `amountPaid` handler.
- Negative prices, quantities and discounts are kept as entered when saving. Only 0 or `NaN` is replaced.
- Saving an invoice changes no stock.

## Model

| member | source | states |
|---|---|---|
| Numbers.OrZero | src/app/components/invoices/invoice-form.component.ts:98-100 | a missing or non-numeric value counts as 0, any number counts as itself |
| Numbers.OrOne | src/app/components/invoices/invoice-form.component.ts:344 | the saved quantity is never 0; a missing value or 0 becomes 1, any other number is kept |
| Numbers.Round | src/app/components/invoices/invoice-form.component.ts:115 | `Math.round` gives the integer within half a unit, halves going up |
| Numbers.RoundOfInteger | src/app/components/invoices/invoice-form.component.ts:378 | rounding a whole number gives it back |
| Numbers.DecimalString | src/app/services/invoice.service.ts:97 | `${n}` is a non-empty string of decimal digits |
| Numbers.DecimalRoundTrip | src/app/services/invoice.service.ts:97 | reading back the printed digits gives the number again |
| Numbers.DecimalStringInjective | src/app/services/invoice.service.ts:97 | different numbers print differently |
| Lists.Filter | src/app/services/cart.service.ts:33 | `filter` keeps exactly the elements the predicate accepts, and is no longer than its input |
| Lists.FilterCounts | src/app/services/cart.service.ts:33 | `filter` keeps each accepted element as many times as it occurs and drops every rejected one |
| Lists.FilterAppend | src/app/services/cart.service.ts:33 | filtering a concatenation filters each part |
| Lists.FilterKeepsAll | src/app/services/cart.service.ts:39 | filtering a list whose every element passes returns the list |
| Lists.FindKey | src/app/services/product.service.ts:31-33 | `find` gives none exactly when no element has the key, otherwise the first element that has it |
| Lists.ReplaceKey | src/app/services/product.service.ts:23-25 | replace-by-key keeps the length, puts the new value at every index with the key and keeps every other element |
| Lists.ReplaceAbsentKey | src/app/services/invoice.service.ts:108-112 | replacing a key that no element has changes nothing |
| Lists.FindAfterReplace | src/app/services/invoice.service.ts:104-112 | after replace-by-key, `find` gives the new value if the key was present, and none otherwise |
| Lists.RemoveKey | src/app/services/product.service.ts:27-29 | delete-by-key leaves no element with the key and keeps every other element |
| Lists.FindAfterRemove | src/app/services/product.service.ts:27-33 | after delete-by-key, `find` gives none |
| Lists.FindAppended | src/app/services/customer.service.ts:14-36 | an element appended under a new key is the one `find` gives |
| Lists.FindPrepended | src/app/services/invoice.service.ts:100-106 | an element put in front is the one `find` gives for its key |
| Lists.RemoveAt | src/app/app.component.ts:102-107 | `filter((_, i) => i !== index)` drops exactly position `index` and shifts the rest down; an index out of range changes nothing |
| Models.ProductLine | src/app/services/cart.service.ts:28 | `{ ...product, cartQuantity }` keeps the product's id, price and discount |
| Cart.LineSubtotal | src/app/services/cart.service.ts:9 | definition: a line's subtotal is its selling price times its quantity |
| Cart.LineDiscount | src/app/services/cart.service.ts:12 | definition: a line's discount is price * discount% / 100, times the quantity |
| Cart.Subtotal | src/app/services/cart.service.ts:9 | definition: the sum of the line subtotals, folded over the lines in order |
| Cart.TotalDiscount | src/app/services/cart.service.ts:11-14 | definition: the sum of the line discounts, folded over the lines in order |
| Cart.Total | src/app/services/cart.service.ts:16-18 | definition: subtotal less total discount |
| Cart.LineDiscountBounded | src/app/services/cart.service.ts:9-14 | for a validated line, the discount lies between 0 and the line subtotal |
| Cart.DiscountWithinSubtotal | src/app/services/cart.service.ts:9-18 | with validated lines, 0 <= totalDiscount <= subtotal, so total >= 0 |
| Cart.SumsAppend | src/app/services/cart.service.ts:9-14 | subtotal and discount of a concatenation are the sums over the parts |
| Cart.SumsChangeAt | src/app/services/cart.service.ts:9-14 | changing one line changes each sum by exactly that line's difference |
| Cart.WithQuantity | src/app/services/cart.service.ts:37-38 | setting a quantity by id keeps the number of lines; each line with the id takes the new quantity, every other line stays as it was |
| Cart.Incremented | src/app/services/cart.service.ts:24-26 | incrementing by id keeps the number of lines; each line with the id gains one unit, every other line stays as it was |
| Cart.IncrementedKeepsIds | src/app/services/cart.service.ts:20-30 | incrementing changes no id, so unique ids stay unique |
| Cart.IncrementedSubtotal | src/app/services/cart.service.ts:21-27 | one more unit of the line with that id raises the subtotal by that line's price |
| Cart.OnlyLineIncremented | src/app/services/cart.service.ts:22-26 | with unique ids, `find` gives the line at the id's position, and incrementing changes that line alone |
| Cart.OneMoreAt | src/app/services/cart.service.ts:9-14 | one more unit on one line and no other change raises the subtotal by that line's price |
| Cart.LineOneMore | src/app/services/cart.service.ts:25 | one more unit adds the unit price to the line subtotal |
| Cart.AppendedLine | src/app/services/cart.service.ts:28 | appending a line under a new id keeps ids unique and adds its subtotal |
| Cart.CartService.constructor | src/app/services/cart.service.ts:7 | the cart starts empty |
| Cart.CartService.AddToCart | src/app/services/cart.service.ts:20-30 | for an id already present, only that line gains one unit and the length stays; for a new id the product is appended with quantity 1; unique ids stay unique; the subtotal rises by one unit price |
| Cart.CartService.RemoveFromCart | src/app/services/cart.service.ts:32-34 | every line with the id goes and every other line stays |
| Cart.CartService.UpdateQuantity | src/app/services/cart.service.ts:36-40 | the matching lines take the quantity, then every line with quantity <= 0 is dropped; other positive lines stay; a quantity <= 0 removes the id |
| Cart.CartService.ClearCart | src/app/services/cart.service.ts:42-44 | the cart is empty, with subtotal, discount and total 0 |
| ProductStore.NewProductId | src/app/services/product.service.ts:18 | definition: `prod-` followed by the decimal digits of `now` |
| ProductStore.WithStockChange | src/app/services/product.service.ts:35-39 | only the quantity of products with the id moves, by the delta; every other field and product stays |
| ProductStore.StockChangeUndone | src/app/services/product.service.ts:35-39 | adding a delta and then its negation restores the catalog, with no floor at 0 |
| ProductStore.StockChangeAbsent | src/app/services/product.service.ts:35-39 | a stock change for an absent id changes nothing |
| ProductStore.ProductService.constructor | src/app/services/product.service.ts:6-15 | the catalog starts with the six seeded products |
| ProductStore.ProductService.GetProductById | src/app/services/product.service.ts:31-33 | none exactly when no product has the id, otherwise the first product with it |
| ProductStore.ProductService.AddProduct | src/app/services/product.service.ts:17-21 | appends one product with the given fields and the clock-based id, and returns it; with a new id, it is then found by id |
| ProductStore.ProductService.UpdateProduct | src/app/services/product.service.ts:23-25 | every product with the id is replaced and the rest keep their places; the new record is then found, and an absent id changes nothing |
| ProductStore.ProductService.DeleteProduct | src/app/services/product.service.ts:27-29 | every product with the id goes, so lookup by that id then gives none |
| ProductStore.ProductService.UpdateStock | src/app/services/product.service.ts:35-39 | the catalog becomes the stock-changed catalog |
| CustomerStore.NewCustomerId | src/app/services/customer.service.ts:17 | definition: `cust-` followed by the decimal digits of `now` |
| CustomerStore.SeedCustomersDistinct | src/app/services/customer.service.ts:6-10 | the directory starts with three customers whose ids and phones are pairwise distinct |
| CustomerStore.CustomerService.constructor | src/app/services/customer.service.ts:6-12 | the directory starts with the seeded customers |
| CustomerStore.CustomerService.GetCustomerByPhone | src/app/services/customer.service.ts:34-36 | none exactly when no phone is equal, otherwise the first customer with an exactly equal phone |
| CustomerStore.CustomerService.AddCustomer | src/app/services/customer.service.ts:14-22 | appends the customer with the clock-based id and an empty purchase history, keeps earlier entries and returns the record; with a new phone it is then found by phone |
| CustomerStore.CustomerService.UpdateCustomer | src/app/services/customer.service.ts:24-28 | every customer with the id is replaced in place; an absent id changes nothing |
| CustomerStore.CustomerService.DeleteCustomer | src/app/services/customer.service.ts:30-32 | every customer with the id goes and every other customer stays |
| InvoiceStore.InvoiceIdFor | src/app/services/invoice.service.ts:97 | definition: `INV-` followed by the counter's decimal digits |
| InvoiceStore.InvoiceIdInjective | src/app/services/invoice.service.ts:95-98 | different invoice numbers give different `INV-` ids |
| InvoiceStore.SeedTotalsAgree | src/app/services/invoice.service.ts:5-87 | each seeded invoice's subtotal and discount are its lines' sums, and its total is their difference: 7999 - 1199.85 = 6799.15 and 7997 - 649.8 = 7347.2 |
| InvoiceStore.SeedIds | src/app/services/invoice.service.ts:7 | the seeded ids are the ones numbers 1001 and 1000 print as |
| InvoiceStore.InvoiceService.constructor | src/app/services/invoice.service.ts:92-93 | the ledger starts with the two seeded invoices and counter 1001 |
| InvoiceStore.InvoiceService.GenerateNewInvoiceId | src/app/services/invoice.service.ts:95-98 | the counter goes up by exactly 1 and the id is `INV-` plus the new number, different from every id issued before, INV-1000 and INV-1001 included |
| InvoiceStore.InvoiceService.GetInvoiceById | src/app/services/invoice.service.ts:104-106 | none exactly when no invoice has the id, otherwise the first invoice with it |
| InvoiceStore.InvoiceService.AddInvoice | src/app/services/invoice.service.ts:100-106 | the invoice goes in front of the others and is then the one found under its id |
| InvoiceStore.InvoiceService.UpdateInvoice | src/app/services/invoice.service.ts:108-112 | every invoice with the id is replaced in place and then found; an absent id changes nothing |
| FormTotals.LineSubtotal | src/app/components/invoices/invoice-form.component.ts:96-102 | definition: a row without a product adds 0; otherwise price times quantity, a missing number counting as 0 |
| FormTotals.LineDiscount | src/app/components/invoices/invoice-form.component.ts:96-103 | definition: a row without a product adds 0; otherwise the line subtotal times discount% / 100 |
| FormTotals.SubtotalOf | src/app/components/invoices/invoice-form.component.ts:92-106 | definition: the sum of the row subtotals, in row order |
| FormTotals.DiscountOf | src/app/components/invoices/invoice-form.component.ts:92-106 | definition: the sum of the row discounts, in row order |
| FormTotals.RoundedTotal | src/app/components/invoices/invoice-form.component.ts:115 | definition: `Math.round` of the total |
| FormTotals.TotalsOf | src/app/components/invoices/invoice-form.component.ts:110-111 | total = subtotal - discount |
| FormTotals.ComputeTotals | src/app/components/invoices/invoice-form.component.ts:92-112 | the loop over the rows yields the subtotal and discount of the rows that have a product, with a missing or non-numeric value counting as 0 |
| FormTotals.SumsAppend | src/app/components/invoices/invoice-form.component.ts:96-108 | the sums over a concatenation are the sums over the parts |
| FormTotals.OnlyRowsWithProductCount | src/app/components/invoices/invoice-form.component.ts:97 | dropping the rows without a product changes no total |
| FormTotals.LineDiscountBounded | src/app/components/invoices/invoice-form.component.ts:102-103 | for a row the validators accept, the line discount lies between 0 and the line subtotal |
| FormTotals.DiscountWithinSubtotal | src/app/components/invoices/invoice-form.component.ts:92-112 | with validated rows, 0 <= discount <= subtotal and total >= 0 |
| FormTotals.SingleDiscountedRow | src/app/components/invoices/invoice-form.component.ts:92-115 | one 4999 saree at 10% off gives 4999, 499.9, 4499.1, which rounds to 4499 |
| Payment.Balance | src/app/components/invoices/invoice-form.component.ts:114-118 | balance plus amount paid (missing counts as 0) is the rounded total |
| Payment.AfterItemsChange | src/app/components/invoices/invoice-form.component.ts:133-139 | after an item change, nothing is due and the fields add up to the rounded total |
| Payment.AfterPaidEdit | src/app/components/invoices/invoice-form.component.ts:142-146 | the typed amount stays and the due amount makes the fields add up to the rounded total |
| Payment.AfterDueEdit | src/app/components/invoices/invoice-form.component.ts:149-153 | the typed due amount stays and the amount paid makes the fields add up to the rounded total |
| Payment.AfterRoundAndSync | src/app/components/invoices/invoice-form.component.ts:375-384 | the field ends up rounded; with no change there is no write; a write re-derives the other field, so the fields add up to the rounded total |
| Payment.RoundAndSyncIdempotent | src/app/components/invoices/invoice-form.component.ts:375-384 | a second blur changes nothing |
| Payment.RoundAndSyncLeavesWholeNumbers | src/app/components/invoices/invoice-form.component.ts:378-381 | a field already holding a whole number is not written |
| Payment.BalanceIsDue | src/app/components/invoices/invoice-form.component.ts:114-118 | once the fields add up, the balance is the due amount |
| Payment.LoadedPayment | src/app/components/invoices/invoice-form.component.ts:160-171 | the loaded fields add up to the invoice's rounded total; a stored payment is loaded rounded; with no stored payment, the rounded total is paid and nothing is due |
| Payment.PartialThenFullPayment | src/app/components/invoices/invoice-form.component.ts:133-153 | with a rounded total of 7347, paying 7000 leaves 347 due, and a due amount of 0 means 7347 is paid |
| Search.LowerChar | src/app/components/invoices/invoice-form.component.ts:212 | ASCII upper-case letters map to lower case and other characters stay |
| Search.ToLower | src/app/components/invoices/invoice-form.component.ts:212 | lower-casing keeps the length and lowers each character |
| Search.Includes | src/app/components/invoices/invoice-form.component.ts:215 | `includes` holds exactly when the term occurs at some position |
| Search.CustomerMatches | src/app/components/invoices/invoice-form.component.ts:215 | definition: the lower-cased name contains the term, or the phone contains it |
| Search.ProductMatches | src/app/components/invoices/invoice-form.component.ts:256 | definition: the lower-cased name or the lower-cased SKU contains the term |
| Search.FilteredCustomers | src/app/components/invoices/invoice-form.component.ts:211-217 | an empty term gives nothing; otherwise exactly the customers whose lower-cased name contains the lower-cased term or whose phone contains it |
| Search.FilteredProducts | src/app/components/invoices/invoice-form.component.ts:252-258 | a missing or empty row term gives nothing; otherwise exactly the products whose lower-cased name or SKU contains the lower-cased term |
| InvoiceForm.RowValid | src/app/components/invoices/invoice-form.component.ts:193-196 | definition: a row passes its validators: a product, quantity >= 1, price >= 0, discount (when given) from 0 to 100 |
| InvoiceForm.EditMode | src/app/components/invoices/invoice-form.component.ts:45-46 | definition: `!!invoiceId()`: the route carries a non-empty id |
| InvoiceForm.InvoiceFormComponent.FormValid | src/app/components/invoices/invoice-form.component.ts:35-42 | definition: customer and date present, at least one row, every row valid, amount paid present and >= 0 |
| InvoiceForm.NewRow | src/app/components/invoices/invoice-form.component.ts:191-198 | a new row adds nothing to the subtotal or the discount |
| InvoiceForm.ValidRowsPriceSanely | src/app/components/invoices/invoice-form.component.ts:178-182 | rows the validators accept have 0 <= discount <= subtotal and total >= 0 |
| InvoiceForm.LoadedRow | src/app/components/invoices/invoice-form.component.ts:174-186 | a line whose product the catalog has becomes one row with that product and the line's quantity, price and discount; a line whose product is gone gives no row |
| InvoiceForm.LoadedRows | src/app/components/invoices/invoice-form.component.ts:174-186 | every loaded row has a catalog product; lines whose product is missing are dropped; when all are found, row i is line i with its catalog product |
| InvoiceForm.LoadedRowsAppend | src/app/components/invoices/invoice-form.component.ts:174-186 | the rows of two runs of lines are the first run's rows followed by the second run's, so each line contributes its own row in order |
| InvoiceForm.LoadedRowsOfLine | src/app/components/invoices/invoice-form.component.ts:174-186 | a single line loads as exactly its own row, or as none |
| InvoiceForm.RowLabels | src/app/components/invoices/invoice-form.component.ts:177 | each loaded row contributes its product's name as a search term |
| InvoiceForm.SavedLine | src/app/components/invoices/invoice-form.component.ts:342-347 | the saved line is the row's product with quantity `|| 1` and price and discount `|| 0` |
| InvoiceForm.SavedLines | src/app/components/invoices/invoice-form.component.ts:340-347 | the saved lines are the rows that have a product, in order, each saved as `SavedLine`; no saved quantity is 0 |
| InvoiceForm.SavedLineTotals | src/app/components/invoices/invoice-form.component.ts:102-103 | for a valid row, the saved line's subtotal and discount are the row's |
| InvoiceForm.SavedLinesKeepTotals | src/app/components/invoices/invoice-form.component.ts:340-360 | for valid rows, the cart formula over the saved lines gives back the stored subtotal and discount |
| InvoiceForm.SavedInvoice | src/app/components/invoices/invoice-form.component.ts:353-363 | the saved invoice carries the id, the form's date, customer, payment mode and amount paid, the saved lines, and the subtotal and discount of the current rows with total = subtotal - discount; with valid rows its totals are its lines' sums |
| InvoiceForm.TotalsAsWritten | src/app/components/invoices/invoice-form.component.ts:84-112 | as the component computes them, the totals are those of the current rows until an invoice is loaded, and all 0 after |
| InvoiceForm.SavedInvoiceAsWritten | src/app/components/invoices/invoice-form.component.ts:353-366 | as the component saves it, the invoice is the intended one in create mode, and in edit mode the intended one with subtotal, discount and total 0 |
| InvoiceForm.EditedInvoiceLosesTotals | src/app/components/invoices/invoice-form.component.ts:84-86 | for a loaded invoice of one 4999 item at 10% off, as written a row change sets the amount paid to 0 instead of 4499, and the save stores totals that disagree with its lines; the intended save agrees |
| InvoiceForm.InvoiceFormComponent.constructor | src/app/components/invoices/invoice-form.component.ts:35-62 | an empty form, both payment fields 0, cash payment, today's date |
| InvoiceForm.InvoiceFormComponent.OnInit | src/app/components/invoices/invoice-form.component.ts:120-130 | create mode adds one empty row and one empty search term and changes nothing else; edit mode loads the invoice found under the route id, or asks for a redirect when none is found |
| InvoiceForm.InvoiceFormComponent.PopulateForm | src/app/components/invoices/invoice-form.component.ts:160-189 | the form shows the invoice: its date, payment mode and customer, the rounded payment fields and the rows still in the catalog, whose names are added to the search terms |
| InvoiceForm.InvoiceFormComponent.ItemsChanged | src/app/components/invoices/invoice-form.component.ts:133-139 | amount paid becomes the rounded total and the due amount becomes 0 |
| InvoiceForm.InvoiceFormComponent.AddItem | src/app/components/invoices/invoice-form.component.ts:200-203 | one new row and one empty search term, so both lists stay the same length; the rounded total is unchanged |
| InvoiceForm.InvoiceFormComponent.RemoveItem | src/app/components/invoices/invoice-form.component.ts:205-208 | the row and its search term at the index both go, so the lists stay the same length; then the items handler runs |
| InvoiceForm.InvoiceFormComponent.EditRow | src/app/components/invoices/invoice-form.component.ts:133-139 | a row edit changes only that row, then the items handler runs |
| InvoiceForm.InvoiceFormComponent.SelectProduct | src/app/components/invoices/invoice-form.component.ts:269-281 | the row takes the product with its price and discount and keeps its quantity; its search term becomes the product's name |
| InvoiceForm.InvoiceFormComponent.OnProductSearch | src/app/components/invoices/invoice-form.component.ts:260-267 | only that row's search term changes |
| InvoiceForm.InvoiceFormComponent.OnCustomerSearch | src/app/components/invoices/invoice-form.component.ts:219-221 | the customer search term is what was typed |
| InvoiceForm.InvoiceFormComponent.SelectCustomer | src/app/components/invoices/invoice-form.component.ts:225-228 | the customer is selected and the search box shows the name |
| InvoiceForm.InvoiceFormComponent.EditAmountPaid | src/app/components/invoices/invoice-form.component.ts:142-146 | the typed amount stays and the due amount is re-derived, so the fields add up to the rounded total |
| InvoiceForm.InvoiceFormComponent.EditDueAmount | src/app/components/invoices/invoice-form.component.ts:149-153 | the typed due amount stays and the amount paid is re-derived, so the fields add up to the rounded total |
| InvoiceForm.InvoiceFormComponent.RoundAndSync | src/app/components/invoices/invoice-form.component.ts:375-384 | the fields become the round-and-sync result for the current rounded total |
| InvoiceForm.InvoiceFormComponent.SaveInvoice | src/app/components/invoices/invoice-form.component.ts:332-372 | an invalid form, or one without a product row, changes nothing; edit mode replaces the invoice under the route id; create mode adds the invoice in front under the next generated id; a newly stored invoice's totals match its lines (as written this holds in create mode only; see Findings) |
| InvoiceForm.InvoiceFormComponent.SaveEdited | src/app/components/invoices/invoice-form.component.ts:353-363 | the edit-mode save: the form's invoice replaces every invoice under the id, and its totals match its lines |
| InvoiceForm.InvoiceFormComponent.SaveCreated | src/app/components/invoices/invoice-form.component.ts:353-366 | the create-mode save: the counter advances by one and the form's invoice goes in front under the new id, with totals that match its lines |
| Editor.LineAmount | src/app/app.component.ts:78 | definition: quantity times rate |
| Editor.Subtotal | src/app/app.component.ts:77-79 | definition: the sum of the line amounts, in line order |
| Editor.TaxAmount | src/app/app.component.ts:81-83 | definition: subtotal times taxRate / 100 |
| Editor.Total | src/app/app.component.ts:81-87 | total = subtotal * (1 + taxRate/100), which is the subtotal when there is no tax |
| Editor.InitialTotals | src/app/app.component.ts:52-87 | the opening invoice has subtotal 4*150 + 10*85 = 1450, tax 0 and total 1450 |
| Editor.SubtotalAppend | src/app/app.component.ts:77-79 | the subtotal of a concatenation is the sum over the parts |
| Editor.SubtotalWithout | src/app/app.component.ts:102-107 | removing a line takes exactly its amount off the subtotal |
| Editor.SubtotalChangeAt | src/app/app.component.ts:129-147 | changing one line changes the subtotal by exactly that line's difference |
| Editor.Updated | src/app/app.component.ts:109-111 | after the update, the named field holds the value |
| Editor.FieldOf | src/app/app.component.ts:109-111 | an update carrying the invoice's own value of that field |
| Editor.UpdateTouchesOneField | src/app/app.component.ts:109-111 | writing back the field's old value restores the invoice, so no other field changed |
| Editor.WithPartyField | src/app/app.component.ts:113-127 | only the named sender or client field changes |
| Editor.UpdatedItem | src/app/app.component.ts:129-147 | the description is stored verbatim; quantity or rate becomes the parsed number, or 0 for NaN; the other fields stay |
| Editor.AppComponent.constructor | src/app/app.component.ts:52-75 | the editor opens on the initial invoice |
| Editor.AppComponent.AddItem | src/app/app.component.ts:95-100 | a blank line (quantity 1, rate 0) is appended; the length grows by one and the subtotal stays |
| Editor.AppComponent.RemoveItem | src/app/app.component.ts:102-107 | only position `index` goes, which lowers the subtotal by that line; an index out of range changes nothing |
| Editor.AppComponent.UpdateField | src/app/app.component.ts:109-111 | only the named top-level field changes, and it takes the value |
| Editor.AppComponent.UpdateSenderField | src/app/app.component.ts:113-119 | only the named sender field changes |
| Editor.AppComponent.UpdateClientField | src/app/app.component.ts:121-127 | only the named client field changes |
| Editor.AppComponent.UpdateItem | src/app/app.component.ts:129-147 | only that field of that line changes, and the subtotal moves by the line's difference |
| InvoiceList.DueInfoOf | src/app/components/invoices/invoices.component.ts:29-39 | nothing without a selection or a numeric amount paid; otherwise due = total - paid, due exactly when due >= 0.01, labelled "Balance Due:" when due and "Change:" otherwise, with value abs(due) >= 0 |
| InvoiceList.SeedInvoiceGaveChange | src/app/components/invoices/invoices.component.ts:34-38 | INV-1001 (6799.15 total, 7000 paid) is not due and shows "Change:" of 200.85 |
| InvoiceList.InvoicesComponent.constructor | src/app/components/invoices/invoices.component.ts:21-22 | no selection and the modal closed |
| InvoiceList.InvoicesComponent.ViewInvoiceDetails | src/app/components/invoices/invoices.component.ts:42-45 | the invoice is selected and the modal opens; due info exists exactly when it has a numeric amount paid |
| InvoiceList.InvoicesComponent.CloseModal | src/app/components/invoices/invoices.component.ts:47-50 | the modal closes and the selection clears, so there is no due info |

## Left out

- PDF generation, image capture and sharing (`html2canvas`, `jspdf`, `navigator.share`, `window.open`, `alert`) in all three components. These are asynchronous browser and library calls.
- Angular signals, `computed`, `toSignal` and the `valueChanges` subscriptions. They are replaced by fields and explicit handler calls. Two staleness effects of the real wiring are not modelled. First, the `amountPaid` signal behind `balance` does not see silent writes, so the displayed balance can lag. Second, after `setControl` in edit mode, the `itemsValue` signal still follows the old item array; the model uses the current rows instead (see Findings).
- InvoiceForm.InvoiceFormComponent.ItemsChanged: uses the current rows' total. As written, in edit mode `totals` stays at 0 once `populateForm` has replaced the item array. So every row change sets the amount paid to 0, and the amount-paid and due handlers and `roundAndSync` work against a total of 0. This as-written behaviour is captured by `InvoiceForm.TotalsAsWritten` and `InvoiceForm.EditedInvoiceLosesTotals`.
- InvoiceForm.InvoiceFormComponent.SaveInvoice: stores the current rows' totals. As written, an edit-mode save stores subtotal, totalDiscount and total 0 (`InvoiceForm.SavedInvoiceAsWritten`).
- InvoiceForm.InvoiceFormComponent.AddItem: the items handler it runs resets the payment fields against the current rows' total. In edit mode the source resets them against a total of 0 once `populateForm` has replaced the item array (see Findings).
- InvoiceForm.InvoiceFormComponent.EditAmountPaid: derives the due amount from the current rows' rounded total. In edit mode the source derives it from a total of 0, so the due amount becomes minus the amount paid (see Findings).
- InvoiceForm.InvoiceFormComponent.EditDueAmount: derives the amount paid from the current rows' rounded total. In edit mode the source derives it from a total of 0, so the amount paid becomes minus the due amount (see Findings).
- InvoiceForm.InvoiceFormComponent.RoundAndSync: settles the fields against the current rows' rounded total. In edit mode the source settles them against a total of 0 (see Findings).
- InvoiceForm.InvoiceFormComponent.SaveEdited: stores the current rows' subtotal, discount and total. As written, the edit-mode save stores all three as 0 (`InvoiceForm.SavedInvoiceAsWritten`, see Findings).
- Form validators are a predicate (`InvoiceForm.InvoiceFormComponent.FormValid`). Touched and dirty state is not modelled.
- Dates and locale: `new Date()`, `toISOString`, `formatDate`, `Intl.NumberFormat`. Dates are opaque strings; "today" and the seeded dates are passed in or stand as placeholders.
- Clock- and random-based ids: `Date.now()` becomes the `now` parameter, and the form's random draft id is not modelled.
- The picsum image URL default in `saveNewProduct` is not modelled.
- `parseFloat` and `Number(...)` are not modelled. Their result is a parameter of type `Option<real>`, where `None` stands for `NaN`.
- Floating-point rounding artefacts and `toFixed` formatting: the model uses exact reals.
- Routing: `router.navigate` becomes a returned flag in `OnInit` and is dropped after saving. Bootstrap, routes and the header are not modelled.
- The form's dropdown and modal flags are not modelled: `showCustomerDropdown`, `activeProductSearchIndex`, `showAddCustomerModal`, `showAddProductModal`, `addProductItemIndex`. Neither are the modal flows `openAddCustomerModal`, `saveNewCustomer`, `openAddProductModal` and `saveNewProduct`. These flows only combine `CustomerService.AddCustomer`/`ProductService.AddProduct` with `SelectCustomer`/`SelectProduct`, which are modelled.
- Search.LowerChar: lower-cases ASCII letters only. JavaScript's `toLowerCase` also folds other Unicode letters.
- InvoiceForm.InvoiceFormComponent.RemoveItem: takes a non-negative index. A negative index would make `FormArray.removeAt` count from the end while the search-term filter removed nothing. The items handler it runs resets the payment fields against the current rows' total; in edit mode the source resets them against a total of 0 (see Findings).
- InvoiceForm.InvoiceFormComponent.SelectProduct: requires an existing row. For an index past the end, the source finds no row to patch and fails. The items handler it runs resets the payment fields against the current rows' total; in edit mode the source resets them against a total of 0 (see Findings).
- InvoiceForm.InvoiceFormComponent.OnProductSearch: requires an existing row. For an index past the end, the source still grows the search-term array.
- InvoiceForm.InvoiceFormComponent.EditRow: requires an existing row, because the template only edits rows that are shown. The items handler it runs resets the payment fields against the current rows' total; in edit mode the source resets them against a total of 0 (see Findings).
- Editor.AppComponent.UpdateItem: requires an existing line. For an index past the end, the source writes a partial item at that position.
- Editor.Subtotal: the editor's quantity and rate are plain numbers. Every path that writes them stores a number (`NaN` becomes 0), so the `|| 0` guards are not modelled.
- Models.Invoice: the invoice `date` is a string rather than a `Date`, and `CartItem` keeps only the product fields the invoice logic reads.

## Findings

| source | as written | input that shows it | evidently intended | confidence | as-written member | corrected member |
|---|---|---|---|---|---|---|
| src/app/components/invoices/invoice-form.component.ts:84-86 | `itemsValue` is bound once to the form's first `items` array; `populateForm` (line 188) replaces that array with `setControl`, so in edit mode `totals` reads an empty array and is 0 | edit an invoice with one 4999 item at 10% off: a row change sets the amount paid to 0 instead of 4499, and saving stores subtotal, discount and total 0 against lines worth 4499.1 | the totals follow the rows on screen in both modes | not executed; follows from the signal being bound to the replaced array | InvoiceForm.EditedInvoiceLosesTotals | InvoiceForm.InvoiceFormComponent.SaveInvoice |
