/** Rows, requests and outcomes of the point-of-sale transaction core.
    Every money amount (prices, totals, payments, debt) is an integer number of
    minor currency units, so all arithmetic is exact. */
module Records {

  datatype Option<T> = None | Some(value: T)

  /** Why a transaction was refused. A refused transaction leaves the store as it was. */
  datatype Error =
    | UnknownProduct(line: nat)  // the productId of this (0-based) line does not resolve
    | UnknownCustomer            // a customerId was given but does not resolve
    | UnknownSupplier            // the supplierId does not resolve
    | IdInUse                    // the generated primary key is already taken

  datatype Result<T> = Success(value: T) | Failure(error: Error)

  /** The two ledger fields of a product that the transactions touch. */
  datatype Product = Product(stock: int, purchasePrice: int)

  /** One requested line of a sale: which product, how many, at what unit price. */
  datatype SaleLine = SaleLine(productId: string, quantity: int, price: int)

  /** One requested payment of a sale; `kind` is the payment type string. */
  datatype PaymentLine = PaymentLine(kind: string, amount: int)

  /** One requested line of a goods receipt. */
  datatype ReceiptLine = ReceiptLine(productId: string, quantity: int, purchasePrice: int)

  datatype Sale = Sale(id: string, date: int, seller: string, customer: Option<string>,
                       subtotal: int, discount: int, total: int)

  datatype CartItem = CartItem(sale: string, productId: string, quantity: int, price: int)

  datatype SalePayment = SalePayment(sale: string, kind: string, amount: int)

  datatype GoodsReceipt = GoodsReceipt(id: string, date: int, supplier: string,
                                       docNumber: string, totalAmount: int)

  datatype GoodsReceiptItem = GoodsReceiptItem(receipt: string, productId: string,
                                               quantity: int, purchasePrice: int)

  const SalePrefix: string := "sale_"
  const ReceiptPrefix: string := "rcpt_"

  /** The payment type that puts the amount on the customer's account (credit). */
  const DebtKind: string := "nasiya"
}
