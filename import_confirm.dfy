// `POST /confirm` of book-store-api/routes/importRoutes.js: the previewed
// orders are written in one DB transaction. An order that already exists is
// replaced (its old lines give their stock back, then its lines and header are
// deleted); each order then gets its customer, its header and its lines, and
// every matched line takes its quantity off the book's or bundle's stock,
// unchecked. An order that fails is recorded and the loop goes on, so its
// earlier writes stay.
module ImportConfirm {
  import opened Wrappers
  import opened Database

  /** `matchedData` of a previewed line: the catalogue id and name. */
  datatype MatchedRef = MatchedRef(id: int, name: string)

  /** A previewed line as the page sends it back. */
  datatype ConfirmItem = ConfirmItem(isBundle: bool, productName: string, matched: Option<MatchedRef>,
                                     quantity: int, productPrice: real, unitPrice: real)

  /** A previewed order as the page sends it back; `date` is the order time. */
  datatype ConfirmOrder = ConfirmOrder(orderNumber: string, date: int, paymentMethod: string, customerName: string,
                                       isExisting: bool, existingId: Option<int>, items: seq<ConfirmItem>)

  /** One entry of `results.stockUpdates`. */
  datatype StockUpdate = StockUpdate(isBundle: bool, name: string, quantitySold: int)

  /** `results`: the counters, the stock updates and the order numbers of the failed orders. */
  datatype Results = Results(imported: nat, replaced: nat, stockUpdates: seq<StockUpdate>, errors: seq<string>)

  const InvalidData := ApiError(400, "Data tidak valid")

  /** `item.matchedData?.id || null`. */
  function MatchedId(item: ConfirmItem): Option<int> {
    if item.matched.Some? && item.matched.value.id != 0 then Some(item.matched.value.id) else None
  }

  /** `order.isExisting && order.existingId`: the header to replace, if any. */
  function ReplacedId(order: ConfirmOrder): Option<int> {
    if order.isExisting && order.existingId.Some? && order.existingId.value != 0 then order.existingId else None
  }

  // ---------------------------------------------------------------------------
  // The replace step

  /** The restore loop: each old line gives its quantity back to its book and to its bundle. */
  function RestoreOld(s: State, olds: seq<TxItem>): (r: State)
    ensures r == s.(books := r.books, bundles := r.bundles)
  {
    if olds == [] then s
    else
      var o := olds[|olds| - 1];
      var t := RestoreOld(s, olds[..|olds| - 1]);
      var t1 := if o.bookId.Some? then AddBookStock(t, o.bookId.value, o.quantity) else t;
      if o.bundleId.Some? then AddBundleStock(t1, o.bundleId.value, o.quantity) else t1
  }

  /** Σ quantity over the lines that name book `b`. */
  function BookQty(olds: seq<TxItem>, b: int): int {
    if olds == [] then 0
    else BookQty(olds[..|olds| - 1], b) + if olds[|olds| - 1].bookId == Some(b) then olds[|olds| - 1].quantity else 0
  }

  /** Σ quantity over the lines that name bundle `b`. */
  function BundleQty(olds: seq<TxItem>, b: int): int {
    if olds == [] then 0
    else BundleQty(olds[..|olds| - 1], b) + if olds[|olds| - 1].bundleId == Some(b) then olds[|olds| - 1].quantity else 0
  }

  lemma {:induction false} RestoreOldStock(s: State, olds: seq<TxItem>, b: int)
    ensures StockOf(RestoreOld(s, olds), b) == StockOf(s, b) + (if b in s.books then BookQty(olds, b) else 0)
    ensures BundleStockOf(RestoreOld(s, olds), b) == BundleStockOf(s, b) + (if b in s.bundles then BundleQty(olds, b) else 0)
    ensures RestoreOld(s, olds).books.Keys == s.books.Keys && RestoreOld(s, olds).bundles.Keys == s.bundles.Keys
  {
    if olds != [] {
      var o := olds[|olds| - 1];
      var t := RestoreOld(s, olds[..|olds| - 1]);
      RestoreOldStock(s, olds[..|olds| - 1], b);
      var t1 := if o.bookId.Some? then AddBookStock(t, o.bookId.value, o.quantity) else t;
      if o.bookId.Some? {
        AddBookStockOf(t, o.bookId.value, o.quantity, b);
      }
      if o.bundleId.Some? {
        AddBundleStockOf(t1, o.bundleId.value, o.quantity, b);
      }
    }
  }

  /** Replacing transaction `tid`: give the old lines' stock back, then delete its lines and its header. */
  function ReplaceOld(s: State, tid: int): (r: State)
    ensures r == s.(books := r.books, bundles := r.bundles, txItems := r.txItems, transactions := r.transactions)
  {
    DeleteTransaction(DeleteItemsOfTransaction(RestoreOld(s, ItemsOfTransaction(s.txItems, tid)), tid), tid)
  }

  /**
   * After a replace the old header and all its lines are gone, every other
   * line and header is kept, and each book and bundle has the old lines'
   * quantities added back.
   */
  lemma {:induction false} ReplaceOldEffect(s: State, tid: int)
    ensures var r, olds := ReplaceOld(s, tid), ItemsOfTransaction(s.txItems, tid);
      tid !in r.transactions
      && (forall k :: k in s.transactions && k != tid ==> k in r.transactions && r.transactions[k] == s.transactions[k])
      && (forall x :: x in r.txItems <==> x in s.txItems && x.transactionId != tid)
      && r.books.Keys == s.books.Keys && r.bundles.Keys == s.bundles.Keys
      && (forall b :: StockOf(r, b) == StockOf(s, b) + (if b in s.books then BookQty(olds, b) else 0))
      && (forall b :: BundleStockOf(r, b) == BundleStockOf(s, b) + (if b in s.bundles then BundleQty(olds, b) else 0))
  {
    var olds := ItemsOfTransaction(s.txItems, tid);
    var restored := RestoreOld(s, olds);
    forall b
      ensures StockOf(ReplaceOld(s, tid), b) == StockOf(s, b) + (if b in s.books then BookQty(olds, b) else 0)
      ensures BundleStockOf(ReplaceOld(s, tid), b) == BundleStockOf(s, b) + (if b in s.bundles then BundleQty(olds, b) else 0)
    {
      RestoreOldStock(s, olds, b);
    }
    RestoreOldStock(s, olds, 0);
    forall x
      ensures x in ReplaceOld(s, tid).txItems <==> x in s.txItems && x.transactionId != tid
    {
      ItemsNotOfTransactionMembers(restored.txItems, tid, x);
    }
  }

  // ---------------------------------------------------------------------------
  // The lines of an order

  /** The `transaction_items` row of a line: a bundle line names only the bundle, a book line only the book. */
  function LineRow(tid: int, item: ConfirmItem): TxItem {
    if item.isBundle then TxItem(tid, None, MatchedId(item), item.quantity, item.unitPrice)
    else TxItem(tid, MatchedId(item), None, item.quantity, item.unitPrice)
  }

  /** `item.matchedData?.name || item.productName`. */
  function UpdateName(item: ConfirmItem): string {
    if item.matched.Some? && item.matched.value.name != "" then item.matched.value.name else item.productName
  }

  /** Where the line loop stands: the database, the stock updates so far, and whether a line has failed. */
  datatype LinesRun = LinesRun(state: State, updates: seq<StockUpdate>, failed: bool)

  /**
   * One line: the row insert (which fails for a book that no longer exists,
   * ending the order), then, for a matched line, the stock decrement and its
   * stock update.
   */
  function LineStep(s: State, tid: int, item: ConfirmItem): (r: LinesRun)
    ensures r.failed <==> ItemFails(s, LineRow(tid, item))
  {
    var row := LineRow(tid, item);
    if ItemFails(s, row) then LinesRun(s, [], true)
    else
      var t := InsertTxItem(s, row);
      match MatchedId(item)
      case None => LinesRun(t, [], false)
      case Some(id) =>
        LinesRun(if item.isBundle then AddBundleStock(t, id, -item.quantity) else AddBookStock(t, id, -item.quantity),
                 [StockUpdate(item.isBundle, UpdateName(item), item.quantity)], false)
  }

  /** The line loop; after a failed line nothing more is written. */
  function ImportLines(s: State, tid: int, items: seq<ConfirmItem>): (r: LinesRun)
  {
    if items == [] then LinesRun(s, [], false)
    else
      var run := ImportLines(s, tid, items[..|items| - 1]);
      if run.failed then run
      else
        var step := LineStep(run.state, tid, items[|items| - 1]);
        LinesRun(step.state, run.updates + step.updates, step.failed)
  }

  /** The rows the line loop inserts. */
  function LineRows(tid: int, items: seq<ConfirmItem>): (r: seq<TxItem>)
    ensures |r| == |items|
  {
    if items == [] then [] else LineRows(tid, items[..|items| - 1]) + [LineRow(tid, items[|items| - 1])]
  }

  /** Σ productPrice: the header's `total_amount`. */
  function TotalOf(items: seq<ConfirmItem>): real {
    if items == [] then 0.0 else TotalOf(items[..|items| - 1]) + items[|items| - 1].productPrice
  }

  /** Σ quantity over the book lines matched to book `b`. */
  function MatchedBookQty(items: seq<ConfirmItem>, b: int): int {
    if items == [] then 0
    else
      var it := items[|items| - 1];
      MatchedBookQty(items[..|items| - 1], b) + if !it.isBundle && MatchedId(it) == Some(b) then it.quantity else 0
  }

  /** Σ quantity over the bundle lines matched to bundle `b`. */
  function MatchedBundleQty(items: seq<ConfirmItem>, b: int): int {
    if items == [] then 0
    else
      var it := items[|items| - 1];
      MatchedBundleQty(items[..|items| - 1], b) + if it.isBundle && MatchedId(it) == Some(b) then it.quantity else 0
  }

  /** The stock updates of the matched lines, in line order. */
  function MatchedUpdates(items: seq<ConfirmItem>): seq<StockUpdate> {
    if items == [] then []
    else
      var it := items[|items| - 1];
      MatchedUpdates(items[..|items| - 1]) + if MatchedId(it).Some? then [StockUpdate(it.isBundle, UpdateName(it), it.quantity)] else []
  }

  /** No line of the order names a book that is missing. */
  predicate LinesInsertable(s: State, items: seq<ConfirmItem>) {
    forall i :: 0 <= i < |items| && !items[i].isBundle && MatchedId(items[i]).Some? ==> MatchedId(items[i]).value in s.books
  }

  /**
   * The line loop fails exactly when a book line is matched to a missing
   * book; otherwise it appends one row per line, records one stock update
   * per matched line, and takes each matched quantity off its book or bundle
   * with no check, leaving headers, customers and the ledger alone.
   */
  lemma {:induction false} ImportLinesEffect(s: State, tid: int, items: seq<ConfirmItem>)
    ensures var r := ImportLines(s, tid, items);
      (r.failed <==> !LinesInsertable(s, items))
      && r.state.transactions == s.transactions && r.state.customers == s.customers && r.state.ledger == s.ledger
      && r.state.books.Keys == s.books.Keys && r.state.bundles.Keys == s.bundles.Keys
      && (!r.failed ==>
            r.updates == MatchedUpdates(items) && r.state.txItems == s.txItems + LineRows(tid, items)
            && (forall b :: StockOf(r.state, b) == StockOf(s, b) - (if b in s.books then MatchedBookQty(items, b) else 0))
            && (forall b :: BundleStockOf(r.state, b) == BundleStockOf(s, b) - (if b in s.bundles then MatchedBundleQty(items, b) else 0)))
  {
    ImportLinesFrame(s, tid, items);
    if LinesInsertable(s, items) {
      ImportLinesRows(s, tid, items);
      forall b
        ensures StockOf(ImportLines(s, tid, items).state, b) == StockOf(s, b) - (if b in s.books then MatchedBookQty(items, b) else 0)
        ensures BundleStockOf(ImportLines(s, tid, items).state, b)
             == BundleStockOf(s, b) - (if b in s.bundles then MatchedBundleQty(items, b) else 0)
      {
        ImportLinesStock(s, tid, items, b);
      }
    }
  }

  lemma {:induction false} ImportLinesFrame(s: State, tid: int, items: seq<ConfirmItem>)
    ensures var r := ImportLines(s, tid, items);
      (r.failed <==> !LinesInsertable(s, items))
      && r.state.transactions == s.transactions && r.state.customers == s.customers && r.state.ledger == s.ledger
      && r.state.books.Keys == s.books.Keys && r.state.bundles.Keys == s.bundles.Keys
  {
    if items != [] {
      var init := items[..|items| - 1];
      var it := items[|items| - 1];
      ImportLinesFrame(s, tid, init);
      var run := ImportLines(s, tid, init);
      assert forall i :: 0 <= i < |init| ==> init[i] == items[i];
      if !run.failed {
        LineStepEffect(run.state, tid, it);
        assert ItemFails(run.state, LineRow(tid, it)) <==> !it.isBundle && MatchedId(it).Some? && MatchedId(it).value !in s.books;
      } else {
        assert !LinesInsertable(s, init);
      }
    }
  }

  lemma {:induction false} ImportLinesRows(s: State, tid: int, items: seq<ConfirmItem>)
    requires LinesInsertable(s, items)
    ensures var r := ImportLines(s, tid, items);
      !r.failed && r.updates == MatchedUpdates(items) && r.state.txItems == s.txItems + LineRows(tid, items)
  {
    ImportLinesFrame(s, tid, items);
    if items != [] {
      var init := items[..|items| - 1];
      assert forall i :: 0 <= i < |init| ==> init[i] == items[i];
      ImportLinesRows(s, tid, init);
      var run := ImportLines(s, tid, init);
      LineStepEffect(run.state, tid, items[|items| - 1]);
    }
  }

  lemma {:induction false} ImportLinesStock(s: State, tid: int, items: seq<ConfirmItem>, b: int)
    requires LinesInsertable(s, items)
    ensures StockOf(ImportLines(s, tid, items).state, b) == StockOf(s, b) - (if b in s.books then MatchedBookQty(items, b) else 0)
    ensures BundleStockOf(ImportLines(s, tid, items).state, b)
         == BundleStockOf(s, b) - (if b in s.bundles then MatchedBundleQty(items, b) else 0)
  {
    ImportLinesFrame(s, tid, items);
    if items != [] {
      var init := items[..|items| - 1];
      assert forall i :: 0 <= i < |init| ==> init[i] == items[i];
      ImportLinesFrame(s, tid, init);
      ImportLinesStock(s, tid, init, b);
      var run := ImportLines(s, tid, init);
      LineStepStock(run.state, tid, items[|items| - 1], b);
    }
  }

  lemma {:induction false} LineStepEffect(s: State, tid: int, item: ConfirmItem)
    ensures var r := LineStep(s, tid, item);
      r.state.transactions == s.transactions && r.state.customers == s.customers && r.state.ledger == s.ledger
      && r.state.books.Keys == s.books.Keys && r.state.bundles.Keys == s.bundles.Keys
      && (!r.failed ==> r.updates == (if MatchedId(item).Some? then [StockUpdate(item.isBundle, UpdateName(item), item.quantity)] else [])
                        && r.state.txItems == s.txItems + [LineRow(tid, item)])
  {
  }

  lemma {:induction false} LineStepStock(s: State, tid: int, item: ConfirmItem, b: int)
    requires !LineStep(s, tid, item).failed
    ensures StockOf(LineStep(s, tid, item).state, b)
         == StockOf(s, b) - (if b in s.books && !item.isBundle && MatchedId(item) == Some(b) then item.quantity else 0)
    ensures BundleStockOf(LineStep(s, tid, item).state, b)
         == BundleStockOf(s, b) - (if b in s.bundles && item.isBundle && MatchedId(item) == Some(b) then item.quantity else 0)
  {
    var t := InsertTxItem(s, LineRow(tid, item));
    if MatchedId(item).Some? {
      AddBookStockOf(t, MatchedId(item).value, -item.quantity, b);
      AddBundleStockOf(t, MatchedId(item).value, -item.quantity, b);
    }
  }

  // ---------------------------------------------------------------------------
  // One order

  /** What an order contributes to `results`. */
  datatype OrderOutcome = OrderOutcome(replaced: bool, imported: bool, updates: seq<StockUpdate>)

  /** `customerId`: the customer found or inserted by name, or none for an empty name. */
  function CustomerStep(s: State, name: string): (State, Option<int>) {
    if name == "" then (s, None) else (CustomerFor(s, name).0, Some(CustomerFor(s, name).1))
  }

  /** The header of an imported order. */
  function HeaderOf(order: ConfirmOrder, customerId: Option<int>): Transaction {
    Transaction(order.date, TotalOf(order.items), order.paymentMethod, customerId, Some(order.orderNumber))
  }

  /** The state before the line loop: replaced, with its customer and its new header. */
  function OrderHeaderState(s: State, order: ConfirmOrder): (State, int) {
    var s1 := if ReplacedId(order).Some? then ReplaceOld(s, ReplacedId(order).value) else s;
    var c := CustomerStep(s1, order.customerName);
    InsertTransaction(c.0, HeaderOf(order, c.1))
  }

  /** The whole body of the per-order `try`. */
  function OrderRun(s: State, order: ConfirmOrder): (State, OrderOutcome) {
    var h := OrderHeaderState(s, order);
    var run := ImportLines(h.0, h.1, order.items);
    (run.state, OrderOutcome(ReplacedId(order).Some?, !run.failed, run.updates))
  }

  /**
   * The header of an imported order totals its lines' product prices and
   * stays even when a line fails: the failure is only caught, not rolled back.
   */
  lemma {:induction false} OrderHeaderKept(s: State, order: ConfirmOrder)
    ensures var (h, tid) := OrderHeaderState(s, order);
      tid in OrderRun(s, order).0.transactions
      && OrderRun(s, order).0.transactions[tid].totalAmount == TotalOf(order.items)
      && OrderRun(s, order).0.transactions[tid].orderNumber == Some(order.orderNumber)
  {
    var h := OrderHeaderState(s, order);
    ImportLinesEffect(h.0, h.1, order.items);
  }

  /**
   * Replacing an order leaves each book at its old stock plus the old
   * order's quantity minus the new order's: the old effect is reversed
   * before the new one is applied.
   */
  lemma {:induction false} ReplaceNetStock(s: State, order: ConfirmOrder, b: int)
    requires ReplacedId(order).Some? && b in s.books
    requires OrderRun(s, order).1.imported
    ensures StockOf(OrderRun(s, order).0, b)
         == StockOf(s, b) + BookQty(ItemsOfTransaction(s.txItems, ReplacedId(order).value), b) - MatchedBookQty(order.items, b)
  {
    var tid := ReplacedId(order).value;
    var s1 := ReplaceOld(s, tid);
    ReplaceOldEffect(s, tid);
    var c := CustomerStep(s1, order.customerName);
    var h := InsertTransaction(c.0, HeaderOf(order, c.1));
    ImportLinesEffect(h.0, h.1, order.items);
  }

  /** A new order takes exactly its matched quantities off each book. */
  lemma {:induction false} NewOrderStock(s: State, order: ConfirmOrder, b: int)
    requires ReplacedId(order).None? && b in s.books
    requires OrderRun(s, order).1.imported
    ensures StockOf(OrderRun(s, order).0, b) == StockOf(s, b) - MatchedBookQty(order.items, b)
    ensures OrderRun(s, order).1.updates == MatchedUpdates(order.items)
  {
    var c := CustomerStep(s, order.customerName);
    var h := InsertTransaction(c.0, HeaderOf(order, c.1));
    ImportLinesEffect(h.0, h.1, order.items);
  }

  // ---------------------------------------------------------------------------
  // The batch

  /** The order loop: outcomes accumulate; a failed order adds its number to `errors` and the loop goes on. */
  function ConfirmRun(s: State, orders: seq<ConfirmOrder>): (r: (State, Results))
    ensures r.1.imported + |r.1.errors| == |orders|
    ensures r.1.replaced == ReplaceCount(orders)
  {
    if orders == [] then (s, Results(0, 0, [], []))
    else
      var prev := ConfirmRun(s, orders[..|orders| - 1]);
      var o := orders[|orders| - 1];
      var step := OrderRun(prev.0, o);
      (step.0, Tally(prev.1, o, step.1))
  }

  /** The results after one more order: counted as imported or as an error, as replaced, and with its stock updates. */
  function Tally(res: Results, o: ConfirmOrder, outcome: OrderOutcome): Results {
    Results(res.imported + if outcome.imported then 1 else 0,
            res.replaced + if outcome.replaced then 1 else 0,
            res.stockUpdates + outcome.updates,
            res.errors + if outcome.imported then [] else [o.orderNumber])
  }

  /** The number of orders that name a header to replace. */
  function ReplaceCount(orders: seq<ConfirmOrder>): nat {
    if orders == [] then 0
    else ReplaceCount(orders[..|orders| - 1]) + if ReplacedId(orders[|orders| - 1]).Some? then 1 else 0
  }

  /** The route: an absent or empty `data` is 400; otherwise the loop runs and everything commits. */
  function ConfirmEffect(s: State, data: Option<seq<ConfirmOrder>>): (r: Result<(State, Results), ApiError>)
    ensures r.Err? <==> data.None? || data.value == []
    ensures r.Err? ==> r.error == InvalidData
  {
    if data.None? || data.value == [] then Err(InvalidData) else Ok(ConfirmRun(s, data.value))
  }

  /** Every entry of `errors` is the number of a submitted order. */
  lemma {:induction false} ConfirmErrors(s: State, orders: seq<ConfirmOrder>, e: string) returns (i: nat)
    requires e in ConfirmRun(s, orders).1.errors
    ensures i < |orders| && orders[i].orderNumber == e
  {
    var init := orders[..|orders| - 1];
    var prev := ConfirmRun(s, init);
    var o := orders[|orders| - 1];
    var step := OrderRun(prev.0, o);
    assert ConfirmRun(s, orders).1.errors == prev.1.errors + if step.1.imported then [] else [o.orderNumber];
    if e in prev.1.errors {
      i := ConfirmErrors(s, init, e);
      assert init[i] == orders[i];
    } else {
      i := |orders| - 1;
    }
  }

  /**
   * Each order's outcome is added to the results of the orders before it: a
   * failed order adds its number to `errors` without stopping the loop, and a
   * replaced order that succeeds counts both as replaced and as imported.
   */
  lemma {:induction false} ConfirmRunStep(s: State, orders: seq<ConfirmOrder>, i: int)
    requires 0 <= i < |orders|
    ensures var prev := ConfirmRun(s, orders[..i]);
      var step := OrderRun(prev.0, orders[i]);
      ConfirmRun(s, orders[..i + 1]) == (step.0, Tally(prev.1, orders[i], step.1))
  {
    assert orders[..i + 1][..i] == orders[..i];
  }

  // ---------------------------------------------------------------------------
  // The handler over the connection

  /** The replace step of one order. */
  method ReplaceExisting(db: Db, tid: int)
    modifies db
    ensures db.Snapshot() == ReplaceOld(old(db.Snapshot()), tid)
  {
    var olds := ItemsOfTransaction(db.txItems, tid);
    ghost var start := db.Snapshot();
    var i := 0;
    while i < |olds|
      invariant 0 <= i <= |olds|
      invariant db.Snapshot() == RestoreOld(start, olds[..i])
    {
      RestoreOne(db, olds[i]);
      assert olds[..i + 1][..i] == olds[..i];
      i := i + 1;
    }
    assert olds[..i] == olds;
    db.RemoveItemsOfTransaction(tid);
    db.RemoveTransaction(tid);
  }

  /** One old line gives its stock back. */
  method RestoreOne(db: Db, o: TxItem)
    modifies db
    ensures db.Snapshot() == RestoreOld(old(db.Snapshot()), [o])
  {
    if o.bookId.Some? {
      db.UpdateBookStock(o.bookId.value, o.quantity);
    }
    if o.bundleId.Some? {
      db.UpdateBundleStock(o.bundleId.value, o.quantity);
    }
  }

  /** One line of an order; `ok` is false when its insert fails. */
  method ImportLine(db: Db, tid: int, item: ConfirmItem) returns (ok: bool, updates: seq<StockUpdate>)
    modifies db
    ensures var r := LineStep(old(db.Snapshot()), tid, item);
      ok == !r.failed && updates == r.updates && db.Snapshot() == r.state
  {
    var row := LineRow(tid, item);
    ok := db.AddTxItem(row);
    updates := [];
    if !ok {
      return;
    }
    var id := MatchedId(item);
    if id.Some? {
      if item.isBundle {
        db.UpdateBundleStock(id.value, -item.quantity);
      } else {
        db.UpdateBookStock(id.value, -item.quantity);
      }
      updates := [StockUpdate(item.isBundle, UpdateName(item), item.quantity)];
    }
  }

  /** The line loop of one order. */
  method ImportLinesInto(db: Db, tid: int, items: seq<ConfirmItem>) returns (ok: bool, updates: seq<StockUpdate>)
    modifies db
    ensures var r := ImportLines(old(db.Snapshot()), tid, items);
      ok == !r.failed && updates == r.updates && db.Snapshot() == r.state
  {
    ghost var start := db.Snapshot();
    updates := [];
    var i := 0;
    while i < |items|
      invariant 0 <= i <= |items|
      invariant ImportLines(start, tid, items[..i]) == LinesRun(db.Snapshot(), updates, false)
    {
      var lineOk, lineUpdates := ImportLine(db, tid, items[i]);
      assert items[..i + 1][..i] == items[..i];
      updates := updates + lineUpdates;
      if !lineOk {
        ImportLinesStopped(start, tid, items, i + 1);
        return false, updates;
      }
      i := i + 1;
    }
    assert items[..i] == items;
    ok := true;
  }

  /** Once a line has failed, the later lines change nothing. */
  lemma {:induction false} ImportLinesStopped(s: State, tid: int, items: seq<ConfirmItem>, k: nat)
    requires k <= |items| && ImportLines(s, tid, items[..k]).failed
    ensures ImportLines(s, tid, items) == ImportLines(s, tid, items[..k])
    decreases |items| - k
  {
    if k < |items| {
      assert items[..k + 1][..k] == items[..k];
      ImportLinesStopped(s, tid, items, k + 1);
    } else {
      assert items[..k] == items;
    }
  }

  /** The per-order `try` block. */
  method ImportOrder(db: Db, order: ConfirmOrder) returns (outcome: OrderOutcome)
    modifies db
    ensures (db.Snapshot(), outcome) == OrderRun(old(db.Snapshot()), order)
  {
    var replaced := ReplacedId(order);
    if replaced.Some? {
      ReplaceExisting(db, replaced.value);
    }
    var customerId: Option<int> := None;
    if order.customerName != "" {
      var c := db.FindOrAddCustomer(order.customerName);
      customerId := Some(c);
    }
    var tid := db.AddTransaction(HeaderOf(order, customerId));
    var ok, updates := ImportLinesInto(db, tid, order.items);
    outcome := OrderOutcome(replaced.Some?, ok, updates);
  }

  /** `POST /confirm`. */
  method ConfirmImport(db: Db, data: Option<seq<ConfirmOrder>>) returns (r: Result<Results, ApiError>)
    modifies db
    ensures ConfirmEffect(old(db.Snapshot()), data).Err? ==> r == Err(InvalidData) && db.Snapshot() == old(db.Snapshot())
    ensures ConfirmEffect(old(db.Snapshot()), data).Ok? ==>
      r == Ok(ConfirmEffect(old(db.Snapshot()), data).value.1) && db.Snapshot() == ConfirmEffect(old(db.Snapshot()), data).value.0
  {
    if data.None? || data.value == [] {
      return Err(InvalidData);
    }
    var results := RunOrders(db, data.value);
    r := Ok(results);
  }

  /** The order loop of `POST /confirm`. */
  method RunOrders(db: Db, orders: seq<ConfirmOrder>) returns (results: Results)
    modifies db
    ensures (db.Snapshot(), results) == ConfirmRun(old(db.Snapshot()), orders)
  {
    ghost var start := db.Snapshot();
    results := Results(0, 0, [], []);
    var i := 0;
    while i < |orders|
      invariant 0 <= i <= |orders|
      invariant ConfirmRun(start, orders[..i]) == (db.Snapshot(), results)
    {
      ghost var before, tallied := db.Snapshot(), results;
      var outcome := ImportOrder(db, orders[i]);
      ConfirmRunStep(start, orders, i);
      assert OrderRun(before, orders[i]) == (db.Snapshot(), outcome);
      results := Results(results.imported + if outcome.imported then 1 else 0,
                         results.replaced + if outcome.replaced then 1 else 0,
                         results.stockUpdates + outcome.updates,
                         results.errors + if outcome.imported then [] else [orders[i].orderNumber]);
      assert results == Tally(tallied, orders[i], outcome);
      i := i + 1;
    }
    assert orders[..i] == orders;
  }

  // ---------------------------------------------------------------------------
  // Worked examples

  /** A book at 10: importing an order of 2 leaves 8, and re-importing it with 3 leaves 7. */
  lemma {:induction false} ReimportExample()
    ensures var s := State(map[1 := Book("i", "Judul", "a", "c", 1.0, 2.0, 10)], map[], map[], [], [], false, [], map[], 1, 1, 1, 1);
      var line := ConfirmItem(false, "Judul", Some(MatchedRef(1, "Judul")), 2, 20.0, 10.0);
      var first := OrderRun(s, ConfirmOrder("A", 0, "cash", "", false, None, [line]));
      var again := OrderRun(first.0, ConfirmOrder("A", 0, "cash", "", true, Some(1), [line.(quantity := 3)]));
      StockOf(first.0, 1) == 8 && StockOf(again.0, 1) == 7
  {
    var s := State(map[1 := Book("i", "Judul", "a", "c", 1.0, 2.0, 10)], map[], map[], [], [], false, [], map[], 1, 1, 1, 1);
    var line := ConfirmItem(false, "Judul", Some(MatchedRef(1, "Judul")), 2, 20.0, 10.0);
    var o1 := ConfirmOrder("A", 0, "cash", "", false, None, [line]);
    var first := FirstImport(s, o1);
    var line3 := line.(quantity := 3);
    var o2 := ConfirmOrder("A", 0, "cash", "", true, Some(1), [line3]);
    SecondImport(first, o2);
  }

  lemma {:induction false} SingleLine(s: State, tid: int, line: ConfirmItem)
    requires !line.isBundle && MatchedId(line).Some? && MatchedId(line).value in s.books
    ensures !ImportLines(s, tid, [line]).failed
    ensures ImportLines(s, tid, [line]).state.txItems == s.txItems + [LineRow(tid, line)]
    ensures MatchedBookQty([line], MatchedId(line).value) == line.quantity
  {
    assert [line][..0] == [];
    ImportLinesEffect(s, tid, [line]);
  }

  lemma {:induction false} FirstImport(s: State, o1: ConfirmOrder) returns (first: State)
    requires s == State(map[1 := Book("i", "Judul", "a", "c", 1.0, 2.0, 10)], map[], map[], [], [], false, [], map[], 1, 1, 1, 1)
    requires o1 == ConfirmOrder("A", 0, "cash", "", false, None, [ConfirmItem(false, "Judul", Some(MatchedRef(1, "Judul")), 2, 20.0, 10.0)])
    ensures first == OrderRun(s, o1).0 && StockOf(first, 1) == 8 && 1 in first.books
    ensures first.txItems == [TxItem(1, Some(1), None, 2, 10.0)]
  {
    var h := OrderHeaderState(s, o1);
    SingleLine(h.0, h.1, o1.items[0]);
    assert o1.items == [o1.items[0]];
    NewOrderStock(s, o1, 1);
    first := OrderRun(s, o1).0;
  }

  lemma {:induction false} SecondImport(first: State, o2: ConfirmOrder)
    requires StockOf(first, 1) == 8 && 1 in first.books
    requires first.txItems == [TxItem(1, Some(1), None, 2, 10.0)]
    requires o2 == ConfirmOrder("A", 0, "cash", "", true, Some(1), [ConfirmItem(false, "Judul", Some(MatchedRef(1, "Judul")), 3, 20.0, 10.0)])
    ensures StockOf(OrderRun(first, o2).0, 1) == 7
  {
    assert [TxItem(1, Some(1), None, 2, 10.0)][..0] == [];
    assert ItemsOfTransaction(first.txItems, 1) == first.txItems;
    assert first.txItems[..0] == [];
    assert BookQty(first.txItems, 1) == 2;
    var h := OrderHeaderState(first, o2);
    ReplaceOldEffect(first, 1);
    SingleLine(h.0, h.1, o2.items[0]);
    assert o2.items == [o2.items[0]];
    ReplaceNetStock(first, o2, 1);
  }

  /** The import checks no stock: selling 3 of a book with 1 left leaves it at −2. */
  lemma {:induction false} ImportDrivesStockNegative()
    ensures var s := State(map[1 := Book("i", "Judul", "a", "c", 1.0, 2.0, 1)], map[], map[], [], [], false, [], map[], 1, 1, 1, 1);
      var o := ConfirmOrder("B", 0, "cash", "", false, None, [ConfirmItem(false, "Judul", Some(MatchedRef(1, "Judul")), 3, 6.0, 2.0)]);
      OrderRun(s, o).1.imported && StockOf(OrderRun(s, o).0, 1) == -2
  {
    var s := State(map[1 := Book("i", "Judul", "a", "c", 1.0, 2.0, 1)], map[], map[], [], [], false, [], map[], 1, 1, 1, 1);
    var line := ConfirmItem(false, "Judul", Some(MatchedRef(1, "Judul")), 3, 6.0, 2.0);
    var o := ConfirmOrder("B", 0, "cash", "", false, None, [line]);
    ImportLinesEffect(OrderHeaderState(s, o).0, 1, [line]);
    assert [line][..0] == [];
    NewOrderStock(s, o, 1);
  }
}
