# Sale and goods-receipt transactions of a point-of-sale backend

This project models the transactional core of a retail point-of-sale API: the two
builders that record a **sale** and a **goods receipt**, and the product stock, product
purchase price and customer debt they keep up to date. The store is in memory:

- `products`: product id to `Product(stock, purchasePrice)`;
- `customers`: customer id to debt; `suppliers`: the known supplier ids;
- `sales` and `receipts`: the parent tables, keyed by primary key;
- `cartItems`, `payments`, `receiptItems`: the child rows, in insertion order.

Money (prices, totals, payment amounts, debt) is an integer number of minor currency
units, so the arithmetic is exact.

**Sale** (`Transactions.Store.CreateSale`). A request names an optional customer, its
lines `(productId, quantity, price)`, its payments `(type, amount)` and its subtotal,
discount and total. If a line's product or the customer does not resolve, or the id
`"sale_" + token` is already a sale's key, the sale is refused and nothing changes.
Otherwise the sale row is inserted with the totals exactly as given, then one cart item
per line (each line takes its quantity off its product's stock, with no sufficiency
check, so stock may go negative), then one payment row per payment. Finally, if a
customer was given, the amount of the FIRST payment of type `"nasiya"` (credit) is added
to that customer's debt; later credit payments add nothing.

**Goods receipt** (`Transactions.Store.CreateReceipt`). A request names a supplier, a
document number, a total amount and its lines `(productId, quantity, purchasePrice)`.
If the supplier or a line's product does not resolve, or `"rcpt_" + token` is already a
receipt's key, nothing changes. Otherwise the receipt row is inserted as given, then one
item per line; each line adds its quantity to its product's stock and overwrites (does
not average) the product's purchase price with the line's price.

**Lines that repeat a product.** Each line's product id is resolved to its own product
instance while the request is validated, before the transaction writes anything, and
each line saves its own instance, writing its whole row. The model keeps this per-line
snapshot behaviour: every line's write starts from the table as it was before the
transaction, and the last line naming a product decides that product's row. In a sale
with two lines for one product only the second line's quantity is taken off
(`ProductLedger.SaleTwoLinesOneProduct`); in a receipt the last line decides both the
stock and the purchase price. For a product named by exactly one line, stock changes by
exactly that line's quantity.

**Atomicity.** Both builders run as one atomic unit. In the model every refusal
(an unresolved reference, found while validating, or a primary key already in use, met
when the parent row is inserted) happens before any write, and a refused call leaves
every table unchanged (`unchanged(this)`). The object invariant `Store.Valid` (every row
is stored under its own id and every reference in a row resolves) holds before and after
each call.

Layout: `records.dfy` (rows, requests, errors), `product_ledger.dfy` (product
resolution and the per-line saves), `customer_ledger.dfy` (the first-credit-payment rule),
`transactions.dfy` (the store and the two builders).

## Model

| member | source | states |
|---|---|---|
| `ProductLedger.FirstUnknown` | api/serializers.py:89-93 | no index exactly when every line's product id resolves; otherwise the first line whose id does not resolve, all earlier ones resolving |
| `ProductLedger.SaveAllLast` | api/serializers.py:138-140 | after a run of whole-row saves, the row of an id is the one written by the last save naming it |
| `ProductLedger.SaveAllUntouched` | api/serializers.py:138-140 | an id no save names keeps its row, and is present afterwards exactly when it was before |
| `ProductLedger.SaveAllKeys` | api/serializers.py:190-193 | saving only existing products adds no product and removes none |
| `ProductLedger.SaleStockKeys` | api/serializers.py:135-140 | a sale adds no product and removes none |
| `ProductLedger.SaleStockLastLine` | api/serializers.py:135-140 | the last line naming a product sets its stock to the stock before the sale minus that line's quantity and keeps its purchase price |
| `ProductLedger.SaleStockSingleLine` | api/serializers.py:138-140 | a product named by exactly one line ends with stock before minus that line's quantity, whatever the sign of the result |
| `ProductLedger.SaleStockUntouched` | api/serializers.py:135-140 | a product no line names keeps its row |
| `ProductLedger.SaleTwoLinesOneProduct` | api/serializers.py:135-140 | with two lines for one product only the second line's quantity is taken off its stock |
| `ProductLedger.ReceiptStockKeys` | api/serializers.py:188-193 | a goods receipt adds no product and removes none |
| `ProductLedger.ReceiptStockLastLine` | api/serializers.py:188-193 | the last line naming a product sets its stock to stock before plus that line's quantity and its purchase price to that line's price |
| `ProductLedger.ReceiptStockSingleLine` | api/serializers.py:190-193 | a product named by exactly one line gains exactly that line's quantity and takes that line's purchase price |
| `ProductLedger.ReceiptStockUntouched` | api/serializers.py:188-193 | a product no line names keeps its stock and purchase price |
| `CustomerLedger.FirstDebtIndex` | api/serializers.py:145 | no index exactly when no payment has type "nasiya"; otherwise the index of the first such payment, no earlier payment having that type |
| `CustomerLedger.AccrueDebt` | api/serializers.py:145-149 | the customer table keeps its keys and every customer other than the sale's keeps its debt |
| `CustomerLedger.DebtFirstMatchOnly` | api/serializers.py:145-149 | with a customer and a credit payment, exactly that customer's debt grows, by the amount of the first credit payment only |
| `CustomerLedger.DebtUntouched` | api/serializers.py:146 | without a customer, or without a credit payment, no debt changes |
| `CustomerLedger.FirstDebtIndexPrefix` | api/serializers.py:145 | appending payments after a credit payment does not move the first credit payment |
| `CustomerLedger.DebtIgnoresLaterPayments` | api/serializers.py:145-149 | payments after the first credit payment, credit or not, change no debt |
| `Transactions.SaleRefusal` | api/serializers.py:109-133 | a sale is refused exactly when a line's product or the given customer does not resolve or the sale id is taken; an unresolved line is reported first (naming the first such line), then an unresolved customer, then a taken id |
| `Transactions.ReceiptRefusal` | api/serializers.py:168-186 | a receipt is refused exactly when the supplier or a line's product does not resolve or the receipt id is taken; an unresolved supplier is reported first, then an unresolved line (naming the first such line), then a taken id |
| `Transactions.Store.CreateSale` | api/serializers.py:128-150 | refused exactly as `SaleRefusal` says, and then nothing changes; otherwise the sale `"sale_" + token` is stored with the totals as given, its cart items and payments are appended in input order bound to it, products become `SaleStock` and customers `AccrueDebt` of the old tables, everything else is unchanged and `Valid` is kept |
| `Transactions.Store.RecordSale` | api/serializers.py:129-149 | the atomic unit of a resolvable sale: inserts the sale row, the cart items, the payment rows and the first credit payment's debt, keeping `Valid` |
| `Transactions.Store.InsertCartItems` | api/serializers.py:135-140 | appends one cart item per line in order and leaves the product table equal to `SaleStock` of the old one |
| `Transactions.Store.InsertPayments` | api/serializers.py:142-143 | appends one payment row per payment, in order, bound to the sale |
| `Transactions.Store.CreateReceipt` | api/serializers.py:182-195 | refused exactly as `ReceiptRefusal` says, and then nothing changes; otherwise the receipt `"rcpt_" + token` is stored with supplier, document number and total as given, its items are appended in input order bound to it, products become `ReceiptStock` of the old table, everything else is unchanged and `Valid` is kept |
| `Transactions.Store.InsertReceiptItems` | api/serializers.py:188-193 | appends one receipt item per line in order and leaves the product table equal to `ReceiptStock` of the old one |
| `Transactions.SaleScenario` | api/serializers.py:128-150 | a sale of two units with one credit payment of 20 to a debt-free customer succeeds, takes two units off the stock, leaves the debt at 20 and stores the total as given |

## Left out

- Transactions.SaleRefusal: the request validator reports every failing field at once; the model reports one refusal, checking the lines before the customer.
- Transactions.ReceiptRefusal: likewise reports one refusal, checking the supplier before the lines.
- The random id token (`shortuuid.random`) is a parameter; the model only keeps the `sale_` / `rcpt_` prefix and refuses a key already in use.
- The sale date and the seller are parameters: the date is server-assigned when the row is inserted and the seller is supplied by the calling view, neither of which is part of this model.
- Storage failures other than a primary key already in use, and database isolation between concurrent requests (lost updates of stock under concurrency), are not modelled; atomicity is modelled as "refused and unchanged", not as locking.
- Field validation done by the request validator (positive quantities, decimal digits and places, lengths) and the models file are not part of this model; decimals are unbounded integers, so no field-width overflow is modelled.
- The output representation (expanded seller, customer and product in the response) is not modelled.
- The employee serializer (password hashing through the user manager) and the plain entity serializers (roles, units, store settings, products, customers, suppliers, debt payments), which only configure fields and attach a random prefixed id, are not part of this model.
