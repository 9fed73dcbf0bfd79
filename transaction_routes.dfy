// The transaction routes (book-store-api/routes/transactionRoutes.js): recording
// a sale, the detail of one transaction, and the optional-filter query builder
// of the transaction list.
module TransactionRoutes {
  import opened Wrappers
  import opened Text
  import opened Database

  // ---------------------------------------------------------------------------
  // POST / — record a sale

  /** One submitted line `{ book_id, quantity, price_at_sale }`. */
  datatype SaleLine = SaleLine(bookId: int, quantity: int, priceAtSale: real)

  /** The request body; an absent `payment_method` or `customer_name` is `None`. */
  datatype SaleRequest = SaleRequest(items: seq<SaleLine>, paymentMethod: Option<string>, customerName: Option<string>)

  /** `items.reduce((sum, item) => sum + item.quantity * item.price_at_sale, 0)`. */
  function LinesTotal(lines: seq<SaleLine>): real {
    if lines == [] then 0.0
    else LinesTotal(lines[..|lines| - 1]) + lines[|lines| - 1].quantity as real * lines[|lines| - 1].priceAtSale
  }

  /** The total quantity the lines take from book `b`. */
  function QuantityOf(lines: seq<SaleLine>, b: int): int {
    if lines == [] then 0
    else QuantityOf(lines[..|lines| - 1], b) + if lines[|lines| - 1].bookId == b then lines[|lines| - 1].quantity else 0
  }

  /** The `transaction_items` rows of the lines. */
  function LineRows(tid: int, lines: seq<SaleLine>): (r: seq<TxItem>)
    ensures |r| == |lines|
  {
    if lines == [] then []
    else
      var l := lines[|lines| - 1];
      LineRows(tid, lines[..|lines| - 1]) + [TxItem(tid, Some(l.bookId), None, l.quantity, l.priceAtSale)]
  }

  /** The ledger entries of the lines. */
  function LineEntries(lines: seq<SaleLine>, now: int): (r: seq<LedgerEntry>)
    ensures |r| == |lines|
  {
    if lines == [] then []
    else
      var l := lines[|lines| - 1];
      LineEntries(lines[..|lines| - 1], now) + [LedgerEntry(l.bookId, -l.quantity, SaleReason, now)]
  }

  /**
   * One line of the loop: the item row (which fails for an unknown book),
   * the stock decrement without any check, and the ledger entry whose
   * failure is swallowed.
   */
  function ApplyLine(s: State, tid: int, l: SaleLine, now: int): Option<State> {
    var item := TxItem(tid, Some(l.bookId), None, l.quantity, l.priceAtSale);
    if ItemFails(s, item) then None
    else Some(Log(AddBookStock(InsertTxItem(s, item), l.bookId, -l.quantity),
                  LedgerEntry(l.bookId, -l.quantity, SaleReason, now)))
  }

  /** The loop over the lines, stopping at the first failing line. */
  function ApplyLines(s: State, tid: int, lines: seq<SaleLine>, now: int): Option<State> {
    if lines == [] then Some(s)
    else match ApplyLines(s, tid, lines[..|lines| - 1], now)
      case None => None
      case Some(t) => ApplyLine(t, tid, lines[|lines| - 1], now)
  }

  /** `customer_name` that is present and not blank after trimming. */
  predicate NamedCustomer(name: Option<string>) {
    name.Some? && Trim(name.value) != ""
  }

  /** The customer step: find or insert the trimmed name, or no customer for a blank one. */
  function CustomerStep(s: State, name: Option<string>): (State, Option<int>) {
    if NamedCustomer(name) then
      var (t, id) := CustomerFor(s, Trim(name.value));
      (t, Some(id))
    else (s, None)
  }

  /** `payment_method || 'cash'`. */
  function PaymentOrCash(p: Option<string>): string {
    if p.Some? && p.value != "" then p.value else "cash"
  }

  const EmptySale := ApiError(400, "Transaksi harus memiliki minimal 1 item")
  const SaleFailed := ApiError(500, "Pencatatan transaksi gagal.")

  /** The steps before the item loop: the customer, then the header with the total. */
  function OpenSale(s: State, req: SaleRequest, now: int): (State, int) {
    var (s1, customerId) := CustomerStep(s, req.customerName);
    InsertTransaction(s1, Transaction(now, LinesTotal(req.items), PaymentOrCash(req.paymentMethod), customerId, None))
  }

  /** The whole handler on a database value: the new database and the new transaction id, or the error. */
  function SaleEffect(s: State, req: SaleRequest, now: int): Result<(State, int), ApiError> {
    if req.items == [] then Err(EmptySale)
    else
      var (s2, tid) := OpenSale(s, req, now);
      match ApplyLines(s2, tid, req.items, now)
      case None => Err(SaleFailed)
      case Some(s3) => Ok((s3, tid))
  }

  /** One pass of the item loop. */
  method RecordLine(db: Db, tid: int, l: SaleLine, now: int) returns (ok: bool)
    modifies db
    ensures ok == ApplyLine(old(db.Snapshot()), tid, l, now).Some?
    ensures ok ==> ApplyLine(old(db.Snapshot()), tid, l, now) == Some(db.Snapshot())
  {
    ok := db.AddTxItem(TxItem(tid, Some(l.bookId), None, l.quantity, l.priceAtSale));
    if ok {
      db.UpdateBookStock(l.bookId, -l.quantity);
      var _ := db.AppendLedger(LedgerEntry(l.bookId, -l.quantity, SaleReason, now));
    }
  }

  /** The customer and header inserts. */
  method Open(db: Db, req: SaleRequest, now: int) returns (tid: int)
    modifies db
    ensures (db.Snapshot(), tid) == OpenSale(old(db.Snapshot()), req, now)
  {
    var customerId: Option<int> := None;
    if req.customerName.Some? && Trim(req.customerName.value) != "" {
      var id := db.FindOrAddCustomer(Trim(req.customerName.value));
      customerId := Some(id);
    }
    tid := db.AddTransaction(Transaction(now, LinesTotal(req.items), PaymentOrCash(req.paymentMethod), customerId, None));
  }

  /** The item loop; it stops at the first line whose insert fails. */
  method RecordLines(db: Db, tid: int, lines: seq<SaleLine>, now: int) returns (ok: bool)
    modifies db
    ensures ok == ApplyLines(old(db.Snapshot()), tid, lines, now).Some?
    ensures ok ==> ApplyLines(old(db.Snapshot()), tid, lines, now) == Some(db.Snapshot())
  {
    ghost var start := db.Snapshot();
    var i := 0;
    while i < |lines|
      invariant 0 <= i <= |lines|
      invariant ApplyLines(start, tid, lines[..i], now) == Some(db.Snapshot())
    {
      assert lines[..i + 1][..i] == lines[..i];
      ok := RecordLine(db, tid, lines[i], now);
      if !ok {
        ApplyLinesStopped(start, tid, lines, now, i + 1);
        return;
      }
      i := i + 1;
    }
    assert lines[..i] == lines;
    ok := true;
  }

  /**
   * `POST /`: an empty item list is refused before anything is written; any
   * failure after `beginTransaction` rolls every table back.
   */
  method RecordSale(db: Db, req: SaleRequest, now: int) returns (r: Result<int, ApiError>)
    modifies db
    ensures r.Err? ==> db.Snapshot() == old(db.Snapshot())
    ensures match SaleEffect(old(db.Snapshot()), req, now)
      case Ok((t, tid)) => r == Ok(tid) && db.Snapshot() == t
      case Err(e) => r == Err(e)
  {
    if |req.items| == 0 {
      return Err(EmptySale);
    }
    var saved := db.Snapshot();
    var tid := Open(db, req, now);
    var ok := RecordLines(db, tid, req.items, now);
    if !ok {
      db.Restore(saved);
      return Err(SaleFailed);
    }
    r := Ok(tid);
  }

  /** Once a prefix of the lines fails, the whole loop fails. */
  lemma {:induction false} ApplyLinesStopped(s: State, tid: int, lines: seq<SaleLine>, now: int, k: nat)
    requires k <= |lines| && ApplyLines(s, tid, lines[..k], now) == None
    ensures ApplyLines(s, tid, lines, now) == None
    decreases |lines| - k
  {
    if k < |lines| {
      assert lines[..k + 1][..k] == lines[..k];
      ApplyLinesStopped(s, tid, lines, now, k + 1);
    } else {
      assert lines[..k] == lines;
    }
  }

  // ---------------------------------------------------------------------------
  // What a recorded sale does

  /** The item loop succeeds exactly when every line names an existing book. */
  lemma {:induction false} ApplyLinesSucceeds(s: State, tid: int, lines: seq<SaleLine>, now: int)
    ensures ApplyLines(s, tid, lines, now).Some? <==> forall i :: 0 <= i < |lines| ==> lines[i].bookId in s.books
    ensures ApplyLines(s, tid, lines, now).Some? ==> ApplyLines(s, tid, lines, now).value.books.Keys == s.books.Keys
  {
    if lines != [] {
      var init := lines[..|lines| - 1];
      ApplyLinesSucceeds(s, tid, init, now);
      assert forall i :: 0 <= i < |init| ==> init[i] == lines[i];
    }
  }

  /** The item loop changes only stock, item rows and the ledger. */
  lemma {:induction false} ApplyLinesFrame(s: State, tid: int, lines: seq<SaleLine>, now: int)
    requires ApplyLines(s, tid, lines, now).Some?
    ensures var t := ApplyLines(s, tid, lines, now).value;
      t == s.(books := t.books, txItems := t.txItems, ledger := t.ledger)
  {
    if lines != [] {
      ApplyLinesFrame(s, tid, lines[..|lines| - 1], now);
    }
  }

  /** Every book loses exactly the quantities of its lines; a book listed twice loses both. */
  lemma {:induction false} ApplyLinesStock(s: State, tid: int, lines: seq<SaleLine>, now: int, b: int)
    requires ApplyLines(s, tid, lines, now).Some?
    ensures StockOf(ApplyLines(s, tid, lines, now).value, b) == StockOf(s, b) - QuantityOf(lines, b)
  {
    if lines != [] {
      var init, l := lines[..|lines| - 1], lines[|lines| - 1];
      ApplyLinesStock(s, tid, init, now, b);
      ApplyLinesSucceeds(s, tid, init, now);
      var t := ApplyLines(s, tid, init, now).value;
      var item := TxItem(tid, Some(l.bookId), None, l.quantity, l.priceAtSale);
      AddBookStockOf(InsertTxItem(t, item), l.bookId, -l.quantity, b);
    }
  }

  /** One item row per line, appended in line order. */
  lemma {:induction false} ApplyLinesRows(s: State, tid: int, lines: seq<SaleLine>, now: int)
    requires ApplyLines(s, tid, lines, now).Some?
    ensures ApplyLines(s, tid, lines, now).value.txItems == s.txItems + LineRows(tid, lines)
  {
    if lines != [] {
      ApplyLinesRows(s, tid, lines[..|lines| - 1], now);
    } else {
      assert s.txItems + [] == s.txItems;
    }
  }

  /** One ledger entry per line, appended in line order, when the ledger table exists; none otherwise. */
  lemma {:induction false} ApplyLinesLedger(s: State, tid: int, lines: seq<SaleLine>, now: int)
    requires ApplyLines(s, tid, lines, now).Some?
    ensures ApplyLines(s, tid, lines, now).value.ledger
            == s.ledger + if s.ledgerEnabled then LineEntries(lines, now) else []
  {
    if lines != [] {
      var init := lines[..|lines| - 1];
      ApplyLinesLedger(s, tid, init, now);
      ApplyLinesSucceeds(s, tid, lines, now);
      ApplyLinesSucceeds(s, tid, init, now);
      ApplyLinesFrame(s, tid, init, now);
      assert lines[|init|].bookId in s.books;
    } else {
      assert s.ledger + [] == s.ledger;
    }
  }

  /** The sale succeeds exactly when the item list is not empty and every line names an existing book. */
  lemma {:induction false} SaleSucceedsIff(s: State, req: SaleRequest, now: int)
    ensures SaleEffect(s, req, now).Ok? <==>
      req.items != [] && forall i :: 0 <= i < |req.items| ==> req.items[i].bookId in s.books
  {
    if req.items != [] {
      var (s2, tid) := OpenSale(s, req, now);
      ApplyLinesSucceeds(s2, tid, req.items, now);
    }
  }

  /** The header insert: a fresh id, the header with the total, nothing else but customers changed. */
  lemma {:induction false} OpenSaleHeader(s: State, req: SaleRequest, now: int)
    requires Valid(s)
    ensures var (t, tid) := OpenSale(s, req, now);
      tid == s.nextTransactionId && tid !in s.transactions
      && t.transactions == s.transactions[tid := Transaction(now, LinesTotal(req.items), PaymentOrCash(req.paymentMethod),
                                                             CustomerStep(s, req.customerName).1, None)]
      && t == s.(transactions := t.transactions, nextTransactionId := tid + 1,
                 customers := t.customers, nextCustomerId := t.nextCustomerId)
  {
    if NamedCustomer(req.customerName) {
      CustomerForReuses(s, Trim(req.customerName.value));
      CustomerForValid(s, Trim(req.customerName.value));
    }
  }

  /**
   * A recorded sale: one new header with the total Σ quantity × price, the
   * payment method or 'cash'; the other headers untouched; bundles and users
   * untouched.
   */
  lemma {:induction false} SaleHeader(s: State, req: SaleRequest, now: int)
    requires Valid(s) && SaleEffect(s, req, now).Ok?
    ensures var (t, tid) := SaleEffect(s, req, now).value;
      tid !in s.transactions && tid in t.transactions
      && t.transactions[tid].totalAmount == LinesTotal(req.items)
      && t.transactions[tid].paymentMethod == PaymentOrCash(req.paymentMethod)
      && t.transactions[tid].date == now
      && t.transactions == s.transactions[tid := t.transactions[tid]]
      && t.bundles == s.bundles && t.users == s.users
  {
    OpenSaleHeader(s, req, now);
    var (s2, tid) := OpenSale(s, req, now);
    ApplyLinesFrame(s2, tid, req.items, now);
  }

  /**
   * The stock, item rows and ledger of a recorded sale: every book loses
   * exactly the quantities of its lines; one item row and (with the ledger
   * table) one 'Penjualan Stok' entry per line, appended in order.
   */
  lemma {:induction false} SaleStockAndLedger(s: State, req: SaleRequest, now: int)
    requires Valid(s) && SaleEffect(s, req, now).Ok?
    ensures var (t, tid) := SaleEffect(s, req, now).value;
      (forall b :: StockOf(t, b) == StockOf(s, b) - QuantityOf(req.items, b))
      && t.txItems == s.txItems + LineRows(tid, req.items)
      && t.ledger == s.ledger + (if s.ledgerEnabled then LineEntries(req.items, now) else [])
  {
    OpenSaleHeader(s, req, now);
    var (s2, tid) := OpenSale(s, req, now);
    forall b
      ensures StockOf(SaleEffect(s, req, now).value.0, b) == StockOf(s, b) - QuantityOf(req.items, b)
    {
      ApplyLinesStock(s2, tid, req.items, now, b);
    }
    ApplyLinesRows(s2, tid, req.items, now);
    ApplyLinesLedger(s2, tid, req.items, now);
  }

  /**
   * The customer of a recorded sale: none for a blank name; otherwise the
   * customer whose name is the trimmed name, reused when one exists (the
   * customers are then unchanged) and appended otherwise.
   */
  lemma {:induction false} SaleCustomer(s: State, req: SaleRequest, now: int)
    requires Valid(s) && SaleEffect(s, req, now).Ok?
    ensures var (t, tid) := SaleEffect(s, req, now).value;
      tid in t.transactions
      && var c := t.transactions[tid].customerId;
      (!NamedCustomer(req.customerName) ==> c == None && t.customers == s.customers)
      && (NamedCustomer(req.customerName) ==>
            var name := Trim(req.customerName.value);
            c.Some? && (exists i :: 0 <= i < |t.customers| && t.customers[i] == Customer(c.value, name))
            && (FindCustomer(s.customers, name).Some? ==> t.customers == s.customers && c == FindCustomer(s.customers, name))
            && (FindCustomer(s.customers, name).None? ==>
                  t.customers == s.customers + [Customer(s.nextCustomerId, name)]))
  {
    if NamedCustomer(req.customerName) {
      CustomerForReuses(s, Trim(req.customerName.value));
    }
    OpenSaleHeader(s, req, now);
    var (s2, tid) := OpenSale(s, req, now);
    ApplyLinesFrame(s2, tid, req.items, now);
  }

  // ---------------------------------------------------------------------------
  // GET /:id — the detail of one transaction

  /** One line of the detail response. */
  datatype DetailItem = DetailItem(bookId: int, isbn: string, title: string, author: string,
                                   quantity: int, unitPrice: real, subtotal: real)

  /** The detail response; `customerName` and `customerId` come from the customers side of the LEFT JOIN. */
  datatype Detail = Detail(id: int, date: int, totalAmount: real, paymentMethod: string,
                           customerName: Option<string>, customerId: Option<int>, items: seq<DetailItem>)

  /** The customer row a `LEFT JOIN customers c ON t.customer_id = c.customer_id` pairs with the header: the first with the id. */
  function CustomerById(cs: seq<Customer>, id: int): (r: Option<Customer>)
    ensures r.Some? <==> exists i :: 0 <= i < |cs| && cs[i].id == id
    ensures r.Some? ==> r.value.id == id && r.value in cs
  {
    if cs == [] then None
    else if cs[0].id == id then Some(cs[0])
    else CustomerById(cs[1..], id)
  }

  /** The joined customer of a header, if any: none for a header without a customer or one whose customer row is missing. */
  function JoinedCustomer(s: State, t: Transaction): Option<Customer> {
    if t.customerId.Some? then CustomerById(s.customers, t.customerId.value) else None
  }

  /** The detail line of one item row: none unless the row is of the transaction and its book exists (the join). */
  function DetailRow(s: State, row: TxItem, tid: int): seq<DetailItem> {
    if row.transactionId == tid && row.bookId.Some? && row.bookId.value in s.books then
      var b := s.books[row.bookId.value];
      [DetailItem(row.bookId.value, b.isbn, b.title, b.author, row.quantity, row.priceAtSale,
                  row.quantity as real * row.priceAtSale)]
    else []
  }

  /** The item query: the rows of the transaction joined with their books, in row order. */
  function DetailItems(s: State, rows: seq<TxItem>, tid: int): (r: seq<DetailItem>)
    ensures |r| <= |rows|
  {
    if rows == [] then [] else DetailItems(s, rows[..|rows| - 1], tid) + DetailRow(s, rows[|rows| - 1], tid)
  }

  const DetailMissing := ApiError(404, "Transaksi tidak ditemukan")

  /**
   * `GET /:id`: 404 for an unknown id, otherwise the header's columns, the
   * name and id of the customer the LEFT JOIN finds (both null when it finds
   * none), and the joined items.
   */
  function GetDetail(s: State, tid: int): (r: Result<Detail, ApiError>)
    ensures r.Err? <==> tid !in s.transactions
    ensures r.Err? ==> r.error == DetailMissing
    ensures r.Ok? ==>
      var t := s.transactions[tid];
      r.value.id == tid && r.value.date == t.date && r.value.totalAmount == t.totalAmount
      && r.value.paymentMethod == t.paymentMethod
    ensures r.Ok? ==>
      var t := s.transactions[tid];
      (r.value.customerId.Some? <==> t.customerId.Some? && exists i :: 0 <= i < |s.customers| && s.customers[i].id == t.customerId.value)
      && (r.value.customerId.Some? ==> r.value.customerId == t.customerId)
      && (r.value.customerName.Some? <==> r.value.customerId.Some?)
      && (r.value.customerName.Some? ==> Customer(t.customerId.value, r.value.customerName.value) in s.customers)
  {
    if tid !in s.transactions then Err(DetailMissing)
    else
      var t := s.transactions[tid];
      var c := JoinedCustomer(s, t);
      Ok(Detail(tid, t.date, t.totalAmount, t.paymentMethod,
                if c.Some? then Some(c.value.name) else None,
                if c.Some? then Some(c.value.id) else None,
                DetailItems(s, s.txItems, tid)))
  }

  /**
   * A detail line is the join of a row of the transaction with its book: the
   * book's ISBN, title and author, the row's quantity, and its price at sale
   * as the unit price.
   */
  predicate JoinedFrom(s: State, d: DetailItem, rows: seq<TxItem>, tid: int) {
    d.bookId in s.books
    && d.isbn == s.books[d.bookId].isbn && d.title == s.books[d.bookId].title && d.author == s.books[d.bookId].author
    && exists j :: 0 <= j < |rows| && rows[j].transactionId == tid && rows[j].bookId == Some(d.bookId)
                   && rows[j].quantity == d.quantity && rows[j].priceAtSale == d.unitPrice
  }

  /**
   * Every detail line is joined from a row of the transaction, its unit price
   * is that row's price at sale, and its subtotal is quantity × that price.
   */
  lemma {:induction false} DetailSubtotals(s: State, rows: seq<TxItem>, tid: int)
    ensures forall i :: 0 <= i < |DetailItems(s, rows, tid)| ==>
      var d := DetailItems(s, rows, tid)[i];
      d.subtotal == d.quantity as real * d.unitPrice && JoinedFrom(s, d, rows, tid)
    decreases |rows|
  {
    if rows != [] {
      var n := |rows| - 1;
      var init := rows[..n];
      DetailSubtotals(s, init, tid);
      var a := DetailItems(s, init, tid);
      assert DetailItems(s, rows, tid) == a + DetailRow(s, rows[n], tid);
      forall i | 0 <= i < |DetailItems(s, rows, tid)|
        ensures var d := DetailItems(s, rows, tid)[i];
          d.subtotal == d.quantity as real * d.unitPrice && JoinedFrom(s, d, rows, tid)
      {
        var d := DetailItems(s, rows, tid)[i];
        if i < |a| {
          assert d == a[i] && JoinedFrom(s, d, init, tid);
          var j :| 0 <= j < |init| && init[j].transactionId == tid && init[j].bookId == Some(d.bookId)
                   && init[j].quantity == d.quantity && init[j].priceAtSale == d.unitPrice;
          assert rows[j] == init[j];
        } else {
          assert d == DetailRow(s, rows[n], tid)[0];
          assert rows[n].bookId == Some(d.bookId);
        }
      }
    }
  }

  function SubtotalSum(items: seq<DetailItem>): real {
    if items == [] then 0.0 else SubtotalSum(items[..|items| - 1]) + items[|items| - 1].subtotal
  }

  lemma {:induction false} SubtotalSumConcat(a: seq<DetailItem>, b: seq<DetailItem>)
    ensures SubtotalSum(a + b) == SubtotalSum(a) + SubtotalSum(b)
    decreases |b|
  {
    if b == [] {
      assert a + b == a;
    } else {
      assert (a + b)[..|a + b| - 1] == a + b[..|b| - 1];
      SubtotalSumConcat(a, b[..|b| - 1]);
    }
  }

  /** Rows of other transactions contribute nothing to the detail. */
  lemma {:induction false} DetailOfOtherRows(s: State, rows: seq<TxItem>, tid: int)
    requires forall i :: 0 <= i < |rows| ==> rows[i].transactionId != tid
    ensures DetailItems(s, rows, tid) == []
  {
    if rows != [] {
      DetailOfOtherRows(s, rows[..|rows| - 1], tid);
    }
  }

  /** Appending rows appends their detail lines. */
  lemma {:induction false} DetailItemsConcat(s: State, a: seq<TxItem>, b: seq<TxItem>, tid: int)
    ensures DetailItems(s, a + b, tid) == DetailItems(s, a, tid) + DetailItems(s, b, tid)
    decreases |b|
  {
    if b == [] {
      assert a + b == a;
    } else {
      assert (a + b)[..|a + b| - 1] == a + b[..|b| - 1];
      DetailItemsConcat(s, a, b[..|b| - 1], tid);
    }
  }

  lemma {:induction false} SubtotalSnoc(items: seq<DetailItem>, d: DetailItem)
    ensures SubtotalSum(items + [d]) == SubtotalSum(items) + d.subtotal
  {
    assert (items + [d])[..|items|] == items;
  }

  /** Appending a row appends its detail lines. */
  lemma {:induction false} DetailSnoc(s: State, tid: int, rows: seq<TxItem>, row: TxItem)
    ensures DetailItems(s, rows + [row], tid) == DetailItems(s, rows, tid) + DetailRow(s, row, tid)
  {
    assert (rows + [row])[..|rows|] == rows;
  }

  /** The row of a line whose book exists has one detail line, with subtotal quantity × price. */
  lemma {:induction false} DetailOfLine(s: State, tid: int, l: SaleLine)
    requires l.bookId in s.books
    ensures var d := DetailRow(s, TxItem(tid, Some(l.bookId), None, l.quantity, l.priceAtSale), tid);
      |d| == 1 && d == [d[0]] && d[0].subtotal == l.quantity as real * l.priceAtSale
  {
  }

  lemma {:induction false} LineRowsSnoc(tid: int, init: seq<SaleLine>, l: SaleLine)
    ensures LineRows(tid, init + [l]) == LineRows(tid, init) + [TxItem(tid, Some(l.bookId), None, l.quantity, l.priceAtSale)]
  {
    assert (init + [l])[..|init|] == init;
  }

  lemma {:induction false} LinesTotalSnoc(init: seq<SaleLine>, l: SaleLine)
    ensures LinesTotal(init + [l]) == LinesTotal(init) + l.quantity as real * l.priceAtSale
  {
    assert (init + [l])[..|init|] == init;
  }

  lemma {:induction false} LastSplit<T>(xs: seq<T>)
    requires xs != []
    ensures xs == xs[..|xs| - 1] + [xs[|xs| - 1]]
    ensures forall i :: 0 <= i < |xs| - 1 ==> xs[..|xs| - 1][i] == xs[i]
  {
  }

  /** One more line whose book exists adds one detail line and its amount to the subtotals. */
  lemma {:induction false} DetailOfLinesStep(s: State, tid: int, init: seq<SaleLine>, l: SaleLine)
    requires l.bookId in s.books
    requires |DetailItems(s, LineRows(tid, init), tid)| == |init|
    requires SubtotalSum(DetailItems(s, LineRows(tid, init), tid)) == LinesTotal(init)
    ensures |DetailItems(s, LineRows(tid, init + [l]), tid)| == |init| + 1
    ensures SubtotalSum(DetailItems(s, LineRows(tid, init + [l]), tid)) == LinesTotal(init + [l])
    ensures DetailItems(s, LineRows(tid, init + [l]), tid) == DetailItems(s, LineRows(tid, init), tid)
              + [DetailItem(l.bookId, s.books[l.bookId].isbn, s.books[l.bookId].title, s.books[l.bookId].author,
                            l.quantity, l.priceAtSale, l.quantity as real * l.priceAtSale)]
  {
    var rows := LineRows(tid, init);
    var row := TxItem(tid, Some(l.bookId), None, l.quantity, l.priceAtSale);
    LineRowsSnoc(tid, init, l);
    LinesTotalSnoc(init, l);
    DetailSnoc(s, tid, rows, row);
    DetailOfLine(s, tid, l);
    SubtotalSnoc(DetailItems(s, rows, tid), DetailRow(s, row, tid)[0]);
  }

  /** The detail line of sale line `l`: its book, quantity and price at sale, joined with the book. */
  predicate DetailOfSaleLine(s: State, d: DetailItem, l: SaleLine)
    requires l.bookId in s.books
  {
    d.bookId == l.bookId && d.quantity == l.quantity && d.unitPrice == l.priceAtSale
    && d.isbn == s.books[l.bookId].isbn && d.title == s.books[l.bookId].title && d.author == s.books[l.bookId].author
  }

  /**
   * The rows of lines whose books all exist give one detail line per sale
   * line, in order, each carrying its line's book, quantity and price at
   * sale, and their subtotals add up to Σ quantity × price.
   */
  lemma {:induction false} DetailOfLines(s: State, tid: int, lines: seq<SaleLine>)
    requires forall i :: 0 <= i < |lines| ==> lines[i].bookId in s.books
    ensures |DetailItems(s, LineRows(tid, lines), tid)| == |lines|
    ensures SubtotalSum(DetailItems(s, LineRows(tid, lines), tid)) == LinesTotal(lines)
    ensures forall i :: 0 <= i < |lines| ==> DetailOfSaleLine(s, DetailItems(s, LineRows(tid, lines), tid)[i], lines[i])
  {
    if lines != [] {
      var init, l := lines[..|lines| - 1], lines[|lines| - 1];
      LastSplit(lines);
      DetailOfLines(s, tid, init);
      DetailOfLinesStep(s, tid, init, l);
      var a := DetailItems(s, LineRows(tid, init), tid);
      forall i | 0 <= i < |lines|
        ensures DetailOfSaleLine(s, DetailItems(s, LineRows(tid, lines), tid)[i], lines[i])
      {
        if i < |init| {
          assert DetailItems(s, LineRows(tid, lines), tid)[i] == a[i];
        }
      }
    }
  }

  /** Every item row belongs to a transaction id already handed out. */
  predicate RowsBelowCounter(s: State) {
    forall i :: 0 <= i < |s.txItems| ==> s.txItems[i].transactionId < s.nextTransactionId
  }

  /**
   * The detail of a sale just recorded lists one line per submitted line, and
   * its subtotals add up to the header's total_amount.
   */
  lemma {:induction false} RecordedSaleDetail(s: State, req: SaleRequest, now: int)
    requires Valid(s) && RowsBelowCounter(s) && SaleEffect(s, req, now).Ok?
    ensures var (t, tid) := SaleEffect(s, req, now).value;
      GetDetail(t, tid).Ok?
      && |GetDetail(t, tid).value.items| == |req.items|
      && (forall i :: 0 <= i < |req.items| ==>
            var d := GetDetail(t, tid).value.items[i];
            d.bookId == req.items[i].bookId && d.quantity == req.items[i].quantity && d.unitPrice == req.items[i].priceAtSale)
      && SubtotalSum(GetDetail(t, tid).value.items) == GetDetail(t, tid).value.totalAmount
  {
    var (t, tid) := SaleEffect(s, req, now).value;
    SaleHeader(s, req, now);
    SaleStockAndLedger(s, req, now);
    SaleSucceedsIff(s, req, now);
    OpenSaleHeader(s, req, now);
    var (s2, tid2) := OpenSale(s, req, now);
    ApplyLinesSucceeds(s2, tid, req.items, now);
    assert t.books.Keys == s.books.Keys;
    assert forall i :: 0 <= i < |s.txItems| ==> s.txItems[i].transactionId != tid;
    DetailOfOtherRows(t, s.txItems, tid);
    DetailItemsConcat(t, s.txItems, LineRows(tid, req.items), tid);
    DetailOfLines(t, tid, req.items);
    var items := DetailItems(t, t.txItems, tid);
    assert items == DetailItems(t, LineRows(tid, req.items), tid);
    assert GetDetail(t, tid).value.items == items;
    forall i | 0 <= i < |req.items|
      ensures items[i].bookId == req.items[i].bookId && items[i].quantity == req.items[i].quantity
              && items[i].unitPrice == req.items[i].priceAtSale
    {
      assert DetailOfSaleLine(t, items[i], req.items[i]);
    }
  }

  // ---------------------------------------------------------------------------
  // GET / — the optional-filter query builder

  /** The query string of the list; an absent or empty parameter is `None`. */
  datatype Filters = Filters(q: Option<string>, category: Option<string>, startDate: Option<string>,
                             endDate: Option<string>, kind: Option<string>)

  /** The parameters the filters push, in order: dates, then the pattern twice, then the category. */
  function FilterParams(f: Filters): seq<string> {
    (if Given(f.startDate) then [f.startDate.value] else [])
    + (if Given(f.endDate) then [f.endDate.value] else [])
    + (if Given(f.q) then ["%" + f.q.value + "%", "%" + f.q.value + "%"] else [])
    + (if Given(f.category) then [f.category.value] else [])
  }

  /** The number of given filters, counting `q` twice. */
  function ParamCount(f: Filters): nat {
    (if Given(f.startDate) then 1 else 0) + (if Given(f.endDate) then 1 else 0)
    + (if Given(f.q) then 2 else 0) + (if Given(f.category) then 1 else 0)
  }

  lemma {:induction false} FilterParamsLength(f: Filters)
    ensures |FilterParams(f)| == ParamCount(f)
  {
  }

  /** `' AND DATE(<column>) <op> ?'`. */
  function DateClause(column: string, op: string): string {
    " AND DATE(" + column + ") " + op + " ?"
  }

  /** `' AND (b.title LIKE ? OR b.isbn LIKE ?)'`. */
  const SearchClause := " AND (b.title LIKE " + "?" + " OR b.isbn LIKE " + "?" + ")"

  /** `' AND (b.category = ?)'`. */
  const CategoryClause := " AND (b.category = " + "?" + ")"

  lemma {:induction false} DateClauseCount(column: string, op: string)
    requires '?' !in column && '?' !in op
    ensures Count(DateClause(column, op), '?') == 1
  {
    assert '?' !in " AND DATE(" && '?' !in ") ";
    CountConcat(" AND DATE(", column, '?');
    CountConcat(" AND DATE(" + column, ") ", '?');
    CountConcat(" AND DATE(" + column + ") ", op, '?');
    CountConcat(" AND DATE(" + column + ") " + op, " ?", '?');
  }

  lemma {:induction false} SearchClauseCount()
    ensures Count(SearchClause, '?') == 2
  {
    var a, b := " AND (b.title LIKE ", " OR b.isbn LIKE ";
    assert '?' !in a && '?' !in b && '?' !in ")";
    CountConcat(a, "?", '?');
    CountConcat(a + "?", b, '?');
    CountConcat(a + "?" + b, "?", '?');
    CountConcat(a + "?" + b + "?", ")", '?');
  }

  lemma {:induction false} CategoryClauseCount()
    ensures Count(CategoryClause, '?') == 1
  {
    var a := " AND (b.category = ";
    assert '?' !in a && '?' !in ")";
    CountConcat(a, "?", '?');
    CountConcat(a + "?", ")", '?');
  }

  /** A clause that is ANDed in only when its filter is given. */
  function When(given: bool, clause: string): string {
    if given then clause else ""
  }

  lemma {:induction false} AppendWhenCount(where: string, given: bool, clause: string, n: nat)
    requires Count(clause, '?') == n
    ensures Count(where + When(given, clause), '?') == Count(where, '?') + if given then n else 0
  {
    CountConcat(where, When(given, clause), '?');
  }

  /** The `WHERE` clause of one half of the list: `base`, then one clause per given filter. */
  function WhereOf(base: string, dateColumn: string, f: Filters): string {
    base + When(Given(f.startDate), DateClause(dateColumn, ">="))
    + When(Given(f.endDate), DateClause(dateColumn, "<="))
    + When(Given(f.q), SearchClause)
    + When(Given(f.category), CategoryClause)
  }

  /** Every given filter adds exactly as many `?` placeholders as it pushes parameters. */
  lemma {:induction false} WherePlaceholders(base: string, dateColumn: string, f: Filters)
    requires '?' !in dateColumn
    ensures Count(WhereOf(base, dateColumn, f), '?') == Count(base, '?') + |FilterParams(f)|
  {
    var w1 := base + When(Given(f.startDate), DateClause(dateColumn, ">="));
    var w2 := w1 + When(Given(f.endDate), DateClause(dateColumn, "<="));
    var w3 := w2 + When(Given(f.q), SearchClause);
    DateClauseCount(dateColumn, ">=");
    AppendWhenCount(base, Given(f.startDate), DateClause(dateColumn, ">="), 1);
    DateClauseCount(dateColumn, "<=");
    AppendWhenCount(w1, Given(f.endDate), DateClause(dateColumn, "<="), 1);
    SearchClauseCount();
    AppendWhenCount(w2, Given(f.q), SearchClause, 2);
    CategoryClauseCount();
    AppendWhenCount(w3, Given(f.category), CategoryClause, 1);
    FilterParamsLength(f);
  }

  /**
   * Builds one half's `WHERE` clause and parameters the way the route does,
   * appending a clause and pushing its parameters per given filter (the sales
   * half over `t.transaction_date`, the stock-in half over
   * `sh.transaction_date`).
   */
  method BuildWhere(base: string, dateColumn: string, f: Filters) returns (where: string, params: seq<string>)
    ensures where == WhereOf(base, dateColumn, f) && params == FilterParams(f)
  {
    where, params := base, [];
    where := where + When(Given(f.startDate), DateClause(dateColumn, ">="));
    if Given(f.startDate) { params := params + [f.startDate.value]; }
    where := where + When(Given(f.endDate), DateClause(dateColumn, "<="));
    if Given(f.endDate) { params := params + [f.endDate.value]; }
    where := where + When(Given(f.q), SearchClause);
    if Given(f.q) { params := params + ["%" + f.q.value + "%", "%" + f.q.value + "%"]; }
    where := where + When(Given(f.category), CategoryClause);
    if Given(f.category) { params := params + [f.category.value]; }
  }

  /** Which union branch the list runs. */
  datatype Branch = SalesOnly | StockInOnly | Both

  /** `type === 'OUT'`, `type === 'IN'`, anything else. */
  function BranchOf(kind: Option<string>): (b: Branch)
    ensures b == SalesOnly <==> kind == Some("OUT")
    ensures b == StockInOnly <==> kind == Some("IN")
  {
    if kind == Some("OUT") then SalesOnly
    else if kind == Some("IN") then StockInOnly
    else Both
  }

  /** The parameters of the final query: one half's, or both halves' concatenated for the union. */
  method ListParams(f: Filters) returns (b: Branch, params: seq<string>)
    ensures b == BranchOf(f.kind)
    ensures params == match b
      case SalesOnly => FilterParams(f)
      case StockInOnly => FilterParams(f)
      case Both => FilterParams(f) + FilterParams(f)
  {
    var whereOut, paramsOut := BuildWhere("1=1", "t.transaction_date", f);
    var whereIn, paramsIn := BuildWhere("sh.reason IN ('Penambahan Stok')", "sh.transaction_date", f);
    b := BranchOf(f.kind);
    match b
    case SalesOnly => params := paramsOut;
    case StockInOnly => params := paramsIn;
    case Both => params := paramsOut + paramsIn;
  }
}
