/** The product table as the two transaction builders change it.

    Each request line names its product by id, and that id is resolved to its own
    product instance while the request is validated, before any write. A line then
    changes the ledger fields of ITS instance and saves it, and a save writes the
    instance's whole row. So every write starts from the table as it was before the
    transaction, and when two lines name the same product the later save replaces
    the earlier one: the last line naming a product decides its row. */
module ProductLedger {
  import opened Records

  /** The index of the first id that is not a key of `table`, if any
      (reference resolution of the request's product lines). */
  function FirstUnknown(table: map<string, Product>, ids: seq<string>): (r: Option<nat>)
    ensures r.None? <==> forall j :: 0 <= j < |ids| ==> ids[j] in table
    ensures r.Some? ==> r.value < |ids| && ids[r.value] !in table
    ensures r.Some? ==> forall j :: 0 <= j < r.value ==> ids[j] in table
  {
    if |ids| == 0 then None
    else if ids[0] !in table then Some(0)
    else match FirstUnknown(table, ids[1..])
      case None => None
      case Some(k) => Some(k + 1)
  }

  /** One save of a product instance: its whole row is written under its id. */
  datatype Save = Save(id: string, row: Product)

  /** The table after the given saves, performed in order. */
  function SaveAll(table: map<string, Product>, saves: seq<Save>): map<string, Product>
    decreases |saves|
  {
    if |saves| == 0 then table
    else
      var n := |saves| - 1;
      SaveAll(table, saves[..n])[saves[n].id := saves[n].row]
  }

  /** The last save under an id decides that id's row. */
  lemma {:induction false} SaveAllLast(table: map<string, Product>, saves: seq<Save>, k: nat)
    requires k < |saves|
    requires forall j :: k < j < |saves| ==> saves[j].id != saves[k].id
    ensures saves[k].id in SaveAll(table, saves)
    ensures SaveAll(table, saves)[saves[k].id] == saves[k].row
  {
    var n := |saves| - 1;
    if k < n {
      SaveAllLast(table, saves[..n], k);
    }
  }

  /** An id that no save names keeps its row, and stays absent if it was absent. */
  lemma {:induction false} SaveAllUntouched(table: map<string, Product>, saves: seq<Save>, p: string)
    requires forall j :: 0 <= j < |saves| ==> saves[j].id != p
    ensures p in SaveAll(table, saves) <==> p in table
    ensures p in table ==> SaveAll(table, saves)[p] == table[p]
  {
    if |saves| > 0 {
      SaveAllUntouched(table, saves[..|saves| - 1], p);
    }
  }

  /** Saving only rows that already exist adds no product and removes none. */
  lemma {:induction false} SaveAllKeys(table: map<string, Product>, saves: seq<Save>)
    requires forall j :: 0 <= j < |saves| ==> saves[j].id in table
    ensures SaveAll(table, saves).Keys == table.Keys
  {
    if |saves| > 0 {
      SaveAllKeys(table, saves[..|saves| - 1]);
    }
  }

  // ---------------------------------------------------------------- sales

  /** The product ids the lines name, line by line. */
  function SaleLineIds(items: seq<SaleLine>): seq<string>
  {
    seq(|items|, i requires 0 <= i < |items| => items[i].productId)
  }

  /** What a sale line saves: its own snapshot of the product, stock reduced by the
      line's quantity. There is no sufficiency check: stock may become negative. */
  function SaleSave(base: map<string, Product>, line: SaleLine): Save
    requires line.productId in base
  {
    var snap := base[line.productId];
    Save(line.productId, snap.(stock := snap.stock - line.quantity))
  }

  function SaleSaves(base: map<string, Product>, items: seq<SaleLine>): seq<Save>
    requires forall i :: 0 <= i < |items| ==> items[i].productId in base
  {
    seq(|items|, i requires 0 <= i < |items| => SaleSave(base, items[i]))
  }

  /** The product table after all lines of a sale have been saved. */
  function SaleStock(base: map<string, Product>, items: seq<SaleLine>): map<string, Product>
    requires forall i :: 0 <= i < |items| ==> items[i].productId in base
  {
    SaveAll(base, SaleSaves(base, items))
  }

  /** A sale adds no product and removes none. */
  lemma {:induction false} SaleStockKeys(base: map<string, Product>, items: seq<SaleLine>)
    requires forall i :: 0 <= i < |items| ==> items[i].productId in base
    ensures SaleStock(base, items).Keys == base.Keys
  {
    SaveAllKeys(base, SaleSaves(base, items));
  }

  /** The last line naming a product decides it: its stock is the stock before the
      sale minus THAT line's quantity, and its purchase price is kept. */
  lemma {:induction false} SaleStockLastLine(base: map<string, Product>, items: seq<SaleLine>, k: nat)
    requires forall i :: 0 <= i < |items| ==> items[i].productId in base
    requires k < |items|
    requires forall j :: k < j < |items| ==> items[j].productId != items[k].productId
    ensures var p := items[k].productId;
      p in SaleStock(base, items) &&
      SaleStock(base, items)[p] == Product(base[p].stock - items[k].quantity, base[p].purchasePrice)
  {
    SaveAllLast(base, SaleSaves(base, items), k);
  }

  /** A product named by exactly one line loses exactly that line's quantity. */
  lemma {:induction false} SaleStockSingleLine(base: map<string, Product>, items: seq<SaleLine>, k: nat)
    requires forall i :: 0 <= i < |items| ==> items[i].productId in base
    requires k < |items|
    requires forall j :: 0 <= j < |items| && j != k ==> items[j].productId != items[k].productId
    ensures var p := items[k].productId;
      p in SaleStock(base, items) &&
      SaleStock(base, items)[p].stock == base[p].stock - items[k].quantity &&
      SaleStock(base, items)[p].purchasePrice == base[p].purchasePrice
  {
    SaleStockLastLine(base, items, k);
  }

  /** A product that no line names is not changed by a sale. */
  lemma {:induction false} SaleStockUntouched(base: map<string, Product>, items: seq<SaleLine>, p: string)
    requires forall i :: 0 <= i < |items| ==> items[i].productId in base
    requires forall i :: 0 <= i < |items| ==> items[i].productId != p
    ensures p in SaleStock(base, items) <==> p in base
    ensures p in base ==> SaleStock(base, items)[p] == base[p]
  {
    SaveAllUntouched(base, SaleSaves(base, items), p);
  }

  /** Two lines for one product: only the second line's quantity is taken off,
      because both lines start from the same snapshot. */
  lemma {:induction false} SaleTwoLinesOneProduct(base: map<string, Product>, p: string, first: SaleLine, second: SaleLine)
    requires p in base
    requires first.productId == p && second.productId == p
    ensures SaleStock(base, [first, second])[p].stock == base[p].stock - second.quantity
  {
    SaleStockLastLine(base, [first, second], 1);
  }

  // ---------------------------------------------------------------- goods receipts

  /** The product ids the lines name, line by line. */
  function ReceiptLineIds(items: seq<ReceiptLine>): seq<string>
  {
    seq(|items|, i requires 0 <= i < |items| => items[i].productId)
  }

  /** What a receipt line saves: its own snapshot of the product, stock raised by the
      line's quantity and purchase price overwritten by the line's price. */
  function ReceiptSave(base: map<string, Product>, line: ReceiptLine): Save
    requires line.productId in base
  {
    var snap := base[line.productId];
    Save(line.productId, Product(snap.stock + line.quantity, line.purchasePrice))
  }

  function ReceiptSaves(base: map<string, Product>, items: seq<ReceiptLine>): seq<Save>
    requires forall i :: 0 <= i < |items| ==> items[i].productId in base
  {
    seq(|items|, i requires 0 <= i < |items| => ReceiptSave(base, items[i]))
  }

  /** The product table after all lines of a goods receipt have been saved. */
  function ReceiptStock(base: map<string, Product>, items: seq<ReceiptLine>): map<string, Product>
    requires forall i :: 0 <= i < |items| ==> items[i].productId in base
  {
    SaveAll(base, ReceiptSaves(base, items))
  }

  /** A goods receipt adds no product and removes none. */
  lemma {:induction false} ReceiptStockKeys(base: map<string, Product>, items: seq<ReceiptLine>)
    requires forall i :: 0 <= i < |items| ==> items[i].productId in base
    ensures ReceiptStock(base, items).Keys == base.Keys
  {
    SaveAllKeys(base, ReceiptSaves(base, items));
  }

  /** The last line naming a product decides it: the stock before the receipt plus
      that line's quantity, and that line's purchase price (overwritten, not averaged). */
  lemma {:induction false} ReceiptStockLastLine(base: map<string, Product>, items: seq<ReceiptLine>, k: nat)
    requires forall i :: 0 <= i < |items| ==> items[i].productId in base
    requires k < |items|
    requires forall j :: k < j < |items| ==> items[j].productId != items[k].productId
    ensures var p := items[k].productId;
      p in ReceiptStock(base, items) &&
      ReceiptStock(base, items)[p] == Product(base[p].stock + items[k].quantity, items[k].purchasePrice)
  {
    SaveAllLast(base, ReceiptSaves(base, items), k);
  }

  /** A product named by exactly one line gains exactly that line's quantity and
      takes that line's purchase price. */
  lemma {:induction false} ReceiptStockSingleLine(base: map<string, Product>, items: seq<ReceiptLine>, k: nat)
    requires forall i :: 0 <= i < |items| ==> items[i].productId in base
    requires k < |items|
    requires forall j :: 0 <= j < |items| && j != k ==> items[j].productId != items[k].productId
    ensures var p := items[k].productId;
      p in ReceiptStock(base, items) &&
      ReceiptStock(base, items)[p].stock == base[p].stock + items[k].quantity &&
      ReceiptStock(base, items)[p].purchasePrice == items[k].purchasePrice
  {
    ReceiptStockLastLine(base, items, k);
  }

  /** A product that no line names is not changed by a goods receipt. */
  lemma {:induction false} ReceiptStockUntouched(base: map<string, Product>, items: seq<ReceiptLine>, p: string)
    requires forall i :: 0 <= i < |items| ==> items[i].productId in base
    requires forall i :: 0 <= i < |items| ==> items[i].productId != p
    ensures p in ReceiptStock(base, items) <==> p in base
    ensures p in base ==> ReceiptStock(base, items)[p] == base[p]
  {
    SaveAllUntouched(base, ReceiptSaves(base, items), p);
  }
}
