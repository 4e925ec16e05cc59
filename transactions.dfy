/** The sale and goods-receipt builders, over an in-memory store.

    The store holds the product table (stock and purchase price per product id),
    the customer table (debt per customer id), the known supplier ids, the parent
    tables of sales and receipts keyed by their primary key, and the child rows
    (cart items, sale payments, receipt items) in insertion order.

    Each builder first resolves the request's references, then runs as one atomic
    unit: if any step is refused, nothing in the store changes. */
module Transactions {
  import opened Records
  import opened ProductLedger
  import opened CustomerLedger

  /** The cart-item rows a sale inserts: one per line, in line order, bound to the sale. */
  function CartRows(saleId: string, items: seq<SaleLine>): seq<CartItem>
  {
    seq(|items|, i requires 0 <= i < |items| =>
      CartItem(saleId, items[i].productId, items[i].quantity, items[i].price))
  }

  /** The payment rows a sale inserts: one per payment, in order, bound to the sale. */
  function PaymentRows(saleId: string, pays: seq<PaymentLine>): seq<SalePayment>
  {
    seq(|pays|, i requires 0 <= i < |pays| => SalePayment(saleId, pays[i].kind, pays[i].amount))
  }

  /** The item rows a goods receipt inserts: one per line, in order, bound to the receipt. */
  function ReceiptRows(receiptId: string, items: seq<ReceiptLine>): seq<GoodsReceiptItem>
  {
    seq(|items|, i requires 0 <= i < |items| =>
      GoodsReceiptItem(receiptId, items[i].productId, items[i].quantity, items[i].purchasePrice))
  }

  /** Why a sale request is refused, if it is: checked in this order, a line whose
      product does not resolve, a customer that does not resolve, a sale id in use. */
  function SaleRefusal(products: map<string, Product>, customers: map<string, int>,
                       sales: map<string, Sale>, id: string, customer: Option<string>,
                       items: seq<SaleLine>): (r: Option<Error>)
    ensures r.None? <==>
      && (forall i :: 0 <= i < |items| ==> items[i].productId in products)
      && (customer.Some? ==> customer.value in customers)
      && id !in sales
    ensures r.Some? && r.value.UnknownProduct? ==>
      && r.value.line < |items| && items[r.value.line].productId !in products
      && (forall j :: 0 <= j < r.value.line ==> items[j].productId in products)
    ensures (r.Some? && r.value.UnknownProduct?) <==>
      exists i :: 0 <= i < |items| && items[i].productId !in products
    ensures r == Some(UnknownCustomer) <==>
      && (forall i :: 0 <= i < |items| ==> items[i].productId in products)
      && customer.Some? && customer.value !in customers
    ensures r == Some(IdInUse) <==>
      && (forall i :: 0 <= i < |items| ==> items[i].productId in products)
      && (customer.Some? ==> customer.value in customers)
      && id in sales
    ensures !r.Some? || r.value.UnknownProduct? || r.value == UnknownCustomer || r.value == IdInUse
  {
    assert forall i :: 0 <= i < |items| ==> SaleLineIds(items)[i] == items[i].productId;
    match FirstUnknown(products, SaleLineIds(items))
    case Some(k) => Some(UnknownProduct(k))
    case None =>
      if customer.Some? && customer.value !in customers then Some(UnknownCustomer)
      else if id in sales then Some(IdInUse)
      else None
  }

  /** Why a goods-receipt request is refused, if it is: checked in this order, a
      supplier that does not resolve, a line whose product does not resolve, a receipt
      id in use. */
  function ReceiptRefusal(products: map<string, Product>, suppliers: set<string>,
                          receipts: map<string, GoodsReceipt>, id: string, supplier: string,
                          items: seq<ReceiptLine>): (r: Option<Error>)
    ensures r.None? <==>
      && supplier in suppliers
      && (forall i :: 0 <= i < |items| ==> items[i].productId in products)
      && id !in receipts
    ensures r == Some(UnknownSupplier) <==> supplier !in suppliers
    ensures r.Some? && r.value.UnknownProduct? ==>
      && r.value.line < |items| && items[r.value.line].productId !in products
      && (forall j :: 0 <= j < r.value.line ==> items[j].productId in products)
    ensures (r.Some? && r.value.UnknownProduct?) <==>
      supplier in suppliers && exists i :: 0 <= i < |items| && items[i].productId !in products
    ensures r == Some(IdInUse) <==>
      && supplier in suppliers
      && (forall i :: 0 <= i < |items| ==> items[i].productId in products)
      && id in receipts
    ensures !r.Some? || r.value.UnknownProduct? || r.value == UnknownSupplier || r.value == IdInUse
  {
    assert forall i :: 0 <= i < |items| ==> ReceiptLineIds(items)[i] == items[i].productId;
    if supplier !in suppliers then Some(UnknownSupplier)
    else match FirstUnknown(products, ReceiptLineIds(items))
      case Some(k) => Some(UnknownProduct(k))
      case None => if id in receipts then Some(IdInUse) else None
  }

  // Referential integrity of each table, stated over the tables' values.

  ghost predicate SalesResolve(sales: map<string, Sale>, customers: map<string, int>)
  {
    forall s :: s in sales ==>
      sales[s].id == s && (sales[s].customer.Some? ==> sales[s].customer.value in customers)
  }

  ghost predicate CartResolves(rows: seq<CartItem>, sales: map<string, Sale>, products: map<string, Product>)
  {
    forall k :: 0 <= k < |rows| ==> rows[k].sale in sales && rows[k].productId in products
  }

  ghost predicate PaymentsResolve(rows: seq<SalePayment>, sales: map<string, Sale>)
  {
    forall k :: 0 <= k < |rows| ==> rows[k].sale in sales
  }

  ghost predicate ReceiptsResolve(receipts: map<string, GoodsReceipt>, suppliers: set<string>)
  {
    forall g :: g in receipts ==> receipts[g].id == g && receipts[g].supplier in suppliers
  }

  ghost predicate ReceiptItemsResolve(rows: seq<GoodsReceiptItem>, receipts: map<string, GoodsReceipt>,
                                      products: map<string, Product>)
  {
    forall k :: 0 <= k < |rows| ==> rows[k].receipt in receipts && rows[k].productId in products
  }

  class Store {
    var products: map<string, Product>
    var customers: map<string, int>
    var suppliers: set<string>
    var sales: map<string, Sale>
    var cartItems: seq<CartItem>
    var payments: seq<SalePayment>
    var receipts: map<string, GoodsReceipt>
    var receiptItems: seq<GoodsReceiptItem>

    /** Referential integrity: every row is stored under its own id and every
        reference in a row resolves. */
    ghost predicate Valid()
      reads this
    {
      && SalesResolve(sales, customers)
      && CartResolves(cartItems, sales, products)
      && PaymentsResolve(payments, sales)
      && ReceiptsResolve(receipts, suppliers)
      && ReceiptItemsResolve(receiptItems, receipts, products)
    }

    /** A store holding the given products, customers and suppliers, and no sales or
        goods receipts yet. */
    constructor (products: map<string, Product>, customers: map<string, int>, suppliers: set<string>)
      ensures Valid()
      ensures this.products == products && this.customers == customers && this.suppliers == suppliers
      ensures sales == map[] && cartItems == [] && payments == []
      ensures receipts == map[] && receiptItems == []
    {
      this.products := products;
      this.customers := customers;
      this.suppliers := suppliers;
      sales := map[];
      cartItems := [];
      payments := [];
      receipts := map[];
      receiptItems := [];
    }

    /** Record a sale: insert the sale row, one cart item per line (each line takes its
        quantity off its product's stock, with no sufficiency check), one payment row per
        payment, and put the first credit payment, if any, on the given customer's debt. */
    method CreateSale(token: string, now: int, seller: string, customer: Option<string>,
                      items: seq<SaleLine>, pays: seq<PaymentLine>,
                      subtotal: int, discount: int, total: int) returns (r: Result<Sale>)
      requires Valid()
      modifies this
      ensures Valid()
      ensures r.Failure? <==>
        SaleRefusal(old(products), old(customers), old(sales), SalePrefix + token, customer, items).Some?
      ensures r.Failure? ==>
        r.error == SaleRefusal(old(products), old(customers), old(sales), SalePrefix + token, customer, items).value
      // atomicity: a refused sale changes nothing
      ensures r.Failure? ==> unchanged(this)
      ensures r.Success? ==>
        && r.value == Sale(SalePrefix + token, now, seller, customer, subtotal, discount, total)
        && sales == old(sales)[r.value.id := r.value]
        && cartItems == old(cartItems) + CartRows(r.value.id, items)
        && payments == old(payments) + PaymentRows(r.value.id, pays)
        && products == SaleStock(old(products), items)
        && customers == AccrueDebt(old(customers), customer, pays)
        && suppliers == old(suppliers)
        && receipts == old(receipts)
        && receiptItems == old(receiptItems)
    {
      // Reference resolution happens while the request is validated; the only
      // refusal inside the atomic unit is a taken primary key, met before any write.
      var id := SalePrefix + token;
      var refusal := SaleRefusal(products, customers, sales, id, customer, items);
      if refusal.Some? {
        return Failure(refusal.value);
      }
      var sale := Sale(id, now, seller, customer, subtotal, discount, total);
      RecordSale(sale, items, pays);
      r := Success(sale);
    }

    /** The atomic unit of a sale whose references all resolve and whose id is free:
        the sale row, its cart items with their stock changes, its payment rows, and the
        debt of the first credit payment. */
    method RecordSale(sale: Sale, items: seq<SaleLine>, pays: seq<PaymentLine>)
      requires Valid()
      requires sale.id !in sales
      requires sale.customer.Some? ==> sale.customer.value in customers
      requires forall i :: 0 <= i < |items| ==> items[i].productId in products
      modifies this
      ensures Valid()
      ensures sales == old(sales)[sale.id := sale]
      ensures cartItems == old(cartItems) + CartRows(sale.id, items)
      ensures payments == old(payments) + PaymentRows(sale.id, pays)
      ensures products == SaleStock(old(products), items)
      ensures customers == AccrueDebt(old(customers), sale.customer, pays)
      ensures suppliers == old(suppliers) && receipts == old(receipts) && receiptItems == old(receiptItems)
    {
      sales := sales[sale.id := sale];
      InsertCartItems(sale.id, items);
      InsertPayments(sale.id, pays);

      // only the first credit payment counts
      var debt := FirstDebtIndex(pays);
      if debt.Some? && sale.customer.Some? {
        var c := sale.customer.value;
        customers := customers[c := customers[c] + pays[debt.value].amount];
      }
    }

    /** The sale's line loop: insert one cart item per line and save each line's
        product snapshot with the line's quantity taken off its stock. */
    method InsertCartItems(id: string, items: seq<SaleLine>)
      requires id in sales
      requires forall k :: 0 <= k < |items| ==> items[k].productId in products
      requires CartResolves(cartItems, sales, products)
      modifies this`products, this`cartItems
      ensures products == SaleStock(old(products), items)
      ensures products.Keys == old(products).Keys
      ensures cartItems == old(cartItems) + CartRows(id, items)
      ensures CartResolves(cartItems, sales, products)
    {
      var base := products;  // the instances loaded during validation
      ghost var saves := SaleSaves(base, items);
      var i := 0;
      while i < |items|
        invariant 0 <= i <= |items|
        invariant products.Keys == base.Keys
        invariant products == SaveAll(base, saves[..i])
        invariant cartItems == old(cartItems) + CartRows(id, items[..i])
        invariant forall k :: 0 <= k < |cartItems| ==> cartItems[k].sale in sales && cartItems[k].productId in products
      {
        var line := items[i];
        cartItems := cartItems + [CartItem(id, line.productId, line.quantity, line.price)];
        // each line saves its own snapshot of the product, not the row as earlier lines left it
        var snap := base[line.productId];
        products := products[line.productId := snap.(stock := snap.stock - line.quantity)];
        assert saves[..i + 1][..i] == saves[..i];
        assert CartRows(id, items[..i + 1]) == CartRows(id, items[..i]) + [CartItem(id, line.productId, line.quantity, line.price)];
        i := i + 1;
      }
      assert saves[..i] == saves;
      assert items[..i] == items;
    }

    /** The sale's payment loop: insert one payment row per payment. */
    method InsertPayments(id: string, pays: seq<PaymentLine>)
      requires id in sales
      requires PaymentsResolve(payments, sales)
      modifies this`payments
      ensures payments == old(payments) + PaymentRows(id, pays)
      ensures PaymentsResolve(payments, sales)
    {
      var j := 0;
      while j < |pays|
        invariant 0 <= j <= |pays|
        invariant payments == old(payments) + PaymentRows(id, pays[..j])
        invariant forall k :: 0 <= k < |payments| ==> payments[k].sale in sales
      {
        payments := payments + [SalePayment(id, pays[j].kind, pays[j].amount)];
        assert PaymentRows(id, pays[..j + 1]) == PaymentRows(id, pays[..j]) + [SalePayment(id, pays[j].kind, pays[j].amount)];
        j := j + 1;
      }
      assert pays[..j] == pays;
    }

    /** Record a goods receipt: insert the receipt row and one item per line; each line
        adds its quantity to its product's stock and overwrites the product's purchase
        price with the line's price. */
    method CreateReceipt(token: string, now: int, supplier: string, docNumber: string,
                         totalAmount: int, items: seq<ReceiptLine>) returns (r: Result<GoodsReceipt>)
      requires Valid()
      modifies this
      ensures Valid()
      ensures r.Failure? <==>
        ReceiptRefusal(old(products), old(suppliers), old(receipts), ReceiptPrefix + token, supplier, items).Some?
      ensures r.Failure? ==>
        r.error == ReceiptRefusal(old(products), old(suppliers), old(receipts), ReceiptPrefix + token, supplier, items).value
      // atomicity: a refused receipt changes nothing
      ensures r.Failure? ==> unchanged(this)
      ensures r.Success? ==>
        && r.value == GoodsReceipt(ReceiptPrefix + token, now, supplier, docNumber, totalAmount)
        && receipts == old(receipts)[r.value.id := r.value]
        && receiptItems == old(receiptItems) + ReceiptRows(r.value.id, items)
        && products == ReceiptStock(old(products), items)
        && customers == old(customers)
        && suppliers == old(suppliers)
        && sales == old(sales)
        && cartItems == old(cartItems)
        && payments == old(payments)
    {
      // Reference resolution happens while the request is validated; the only
      // refusal inside the atomic unit is a taken primary key, met before any write.
      var id := ReceiptPrefix + token;
      var refusal := ReceiptRefusal(products, suppliers, receipts, id, supplier, items);
      if refusal.Some? {
        return Failure(refusal.value);
      }
      var receipt := GoodsReceipt(id, now, supplier, docNumber, totalAmount);
      receipts := receipts[id := receipt];

      InsertReceiptItems(id, items);
      r := Success(receipt);
    }

    /** The receipt's line loop: insert one item per line and save each line's product
        snapshot with the quantity added to its stock and the line's purchase price. */
    method InsertReceiptItems(id: string, items: seq<ReceiptLine>)
      requires id in receipts
      requires forall k :: 0 <= k < |items| ==> items[k].productId in products
      requires ReceiptItemsResolve(receiptItems, receipts, products)
      modifies this`products, this`receiptItems
      ensures products == ReceiptStock(old(products), items)
      ensures products.Keys == old(products).Keys
      ensures receiptItems == old(receiptItems) + ReceiptRows(id, items)
      ensures ReceiptItemsResolve(receiptItems, receipts, products)
    {
      var base := products;  // the instances loaded during validation
      ghost var saves := ReceiptSaves(base, items);
      var i := 0;
      while i < |items|
        invariant 0 <= i <= |items|
        invariant products.Keys == base.Keys
        invariant products == SaveAll(base, saves[..i])
        invariant receiptItems == old(receiptItems) + ReceiptRows(id, items[..i])
        invariant forall k :: 0 <= k < |receiptItems| ==>
          receiptItems[k].receipt in receipts && receiptItems[k].productId in products
      {
        var line := items[i];
        receiptItems := receiptItems + [GoodsReceiptItem(id, line.productId, line.quantity, line.purchasePrice)];
        // each line saves its own snapshot of the product, loaded before the writes
        var snap := base[line.productId];
        products := products[line.productId := Product(snap.stock + line.quantity, line.purchasePrice)];
        assert saves[..i + 1][..i] == saves[..i];
        assert ReceiptRows(id, items[..i + 1]) ==
          ReceiptRows(id, items[..i]) + [GoodsReceiptItem(id, line.productId, line.quantity, line.purchasePrice)];
        i := i + 1;
      }
      assert saves[..i] == saves;
      assert items[..i] == items;
    }
  }

  /** A worked sale: one line of two units at 10, one credit payment of 20, a known
      customer with no debt. The line's product loses two units, the customer owes 20,
      and the totals are stored as given. */
  method SaleScenario(store: Store, p: string, c: string, token: string, now: int, seller: string)
      returns (r: Result<Sale>)
    requires store.Valid()
    requires p in store.products && c in store.customers && store.customers[c] == 0
    requires SalePrefix + token !in store.sales
    modifies store
    ensures r.Success? && r.value.total == 20 && r.value.customer == Some(c)
    ensures |store.cartItems| == |old(store.cartItems)| + 1
    ensures p in store.products && store.products[p].stock == old(store.products[p].stock) - 2
    ensures c in store.customers && store.customers[c] == 20
  {
    var items := [SaleLine(p, 2, 10)];
    r := store.CreateSale(token, now, seller, Some(c), items, [PaymentLine(DebtKind, 20)], 20, 0, 20);
    SaleStockSingleLine(old(store.products), items, 0);
    DebtFirstMatchOnly(old(store.customers), c, [PaymentLine(DebtKind, 20)], 0);
  }
}
