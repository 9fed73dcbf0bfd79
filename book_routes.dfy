// The book routes of book-store-api/routes/bookRoutes.js that change stock or
// remove books: stock-out (with or without a sale), stock-in, edit, plain and
// forced delete, and the stock history of one book.
module BookRoutes {
  import opened Wrappers
  import opened Database
  import opened Text

  // ---------------------------------------------------------------------------
  // PUT /:id/stock-out

  /**
   * The body of a stock-out. `date` is `transaction_date` and `priceAtSale` is
   * `price_at_sale`, each `None` when absent or empty.
   */
  datatype StockOutRequest = StockOutRequest(quantity: int, date: Option<int>, priceAtSale: Option<real>,
                                             createTransaction: bool)

  const StockShort := ApiError(400, "Stok tidak mencukupi")

  /** JavaScript truthiness of the optional price: given and not zero. */
  predicate PriceGiven(p: Option<real>) {
    p.Some? && p.value != 0.0
  }

  /** `transaction_date ? new Date(transaction_date) : new Date()`. */
  function DateOr(date: Option<int>, now: int): int {
    if date.Some? then date.value else now
  }

  /** The stock-out on a missing book, or on one with less stock than asked, is refused before anything is written. */
  predicate StockOutRefused(s: State, id: int, req: StockOutRequest) {
    id !in s.books || s.books[id].stockQty < req.quantity
  }

  /** The sale branch: the cash header under the next id, its one line, the decrement and the ledger entry. */
  function StockOutSaleEffect(s: State, id: int, quantity: int, p: real, date: int): (State, int) {
    var tid := s.nextTransactionId;
    var s1 := InsertTransaction(s, Transaction(date, quantity as real * p, "cash", None, None)).0;
    var s2 := InsertTxItem(s1, TxItem(tid, Some(id), None, quantity, p));
    (Log(AddBookStock(s2, id, -quantity), LedgerEntry(id, -quantity, SaleReason, date)), tid)
  }

  /**
   * The database after a stock-out and the id of the sale it recorded, if any:
   * with `create_transaction` and a price, a one-line cash sale, the decrement
   * and the ledger entry; otherwise the decrement and the ledger entry alone.
   */
  function StockOutEffect(s: State, id: int, req: StockOutRequest, now: int): (r: Result<(State, Option<int>), ApiError>)
    ensures r.Err? <==> StockOutRefused(s, id, req)
    ensures r.Err? ==> r.error == StockShort
  {
    if StockOutRefused(s, id, req) then Err(StockShort)
    else
      var date := DateOr(req.date, now);
      if req.createTransaction && PriceGiven(req.priceAtSale) then
        var sale := StockOutSaleEffect(s, id, req.quantity, req.priceAtSale.value, date);
        Ok((sale.0, Some(sale.1)))
      else
        Ok((Log(AddBookStock(s, id, -req.quantity), LedgerEntry(id, -req.quantity, SaleReason, date)), None))
  }

  /** The route handler; a refusal rolls back a DB transaction in which nothing was written yet. */
  method StockOut(db: Db, id: int, req: StockOutRequest, now: int) returns (res: Result<Option<int>, ApiError>)
    modifies db
    ensures StockOutEffect(old(db.Snapshot()), id, req, now).Err? ==>
      res == Err(StockShort) && db.Snapshot() == old(db.Snapshot())
    ensures StockOutEffect(old(db.Snapshot()), id, req, now).Ok? ==>
      res == Ok(StockOutEffect(old(db.Snapshot()), id, req, now).value.1)
      && db.Snapshot() == StockOutEffect(old(db.Snapshot()), id, req, now).value.0
  {
    if id !in db.books || db.books[id].stockQty < req.quantity {
      return Err(StockShort);
    }
    var date := DateOr(req.date, now);
    if req.createTransaction && PriceGiven(req.priceAtSale) {
      var tid := RecordStockOutSale(db, id, req.quantity, req.priceAtSale.value, date);
      res := Ok(Some(tid));
    } else {
      db.UpdateBookStock(id, -req.quantity);
      var logged := db.AppendLedger(LedgerEntry(id, -req.quantity, SaleReason, date));
      res := Ok(None);
    }
  }

  /** The sale branch of the stock-out: the header, its line, the decrement and the ledger entry. */
  method RecordStockOutSale(db: Db, id: int, quantity: int, p: real, date: int) returns (tid: int)
    requires id in db.books
    modifies db
    ensures (db.Snapshot(), tid) == StockOutSaleEffect(old(db.Snapshot()), id, quantity, p, date)
  {
    tid := db.AddTransaction(Transaction(date, quantity as real * p, "cash", None, None));
    assert id in db.books;
    var added := db.AddTxItem(TxItem(tid, Some(id), None, quantity, p));
    db.UpdateBookStock(id, -quantity);
    var logged := db.AppendLedger(LedgerEntry(id, -quantity, SaleReason, date));
  }

  /** A stock-out takes exactly the quantity off the book, never below zero, and leaves the other books alone. */
  lemma {:induction false} StockOutStock(s: State, id: int, req: StockOutRequest, now: int)
    requires StockOutEffect(s, id, req, now).Ok?
    ensures var t := StockOutEffect(s, id, req, now).value.0;
      t.books.Keys == s.books.Keys
      && StockOf(t, id) == StockOf(s, id) - req.quantity && StockOf(t, id) >= 0
      && (forall b :: b in s.books && b != id ==> t.books[b] == s.books[b])
  {
  }

  /** A stock-out appends one ledger entry of −quantity with the sale reason, when the ledger table exists. */
  lemma {:induction false} StockOutLedger(s: State, id: int, req: StockOutRequest, now: int)
    requires StockOutEffect(s, id, req, now).Ok?
    ensures StockOutEffect(s, id, req, now).value.0.ledger
      == s.ledger + if s.ledgerEnabled then [LedgerEntry(id, -req.quantity, SaleReason, DateOr(req.date, now))] else []
  {
  }

  /** The sale branch writes one cash header of quantity × price under the next id and its one line. */
  lemma {:induction false} StockOutSaleRows(s: State, id: int, quantity: int, p: real, date: int)
    ensures var t := StockOutSaleEffect(s, id, quantity, p, date).0;
      StockOutSaleEffect(s, id, quantity, p, date).1 == s.nextTransactionId
      && t.transactions == s.transactions[s.nextTransactionId := Transaction(date, quantity as real * p, "cash", None, None)]
      && t.txItems == s.txItems + [TxItem(s.nextTransactionId, Some(id), None, quantity, p)]
      && t.nextTransactionId == s.nextTransactionId + 1
      && t.customers == s.customers && t.bundles == s.bundles && t.users == s.users
  {
  }

  /**
   * A sale is recorded exactly when asked for with a price; otherwise the
   * sales tables are as before.
   */
  lemma {:induction false} StockOutSale(s: State, id: int, req: StockOutRequest, now: int)
    requires StockOutEffect(s, id, req, now).Ok?
    ensures var r := StockOutEffect(s, id, req, now).value;
      (r.1.Some? <==> req.createTransaction && PriceGiven(req.priceAtSale))
      && (r.1.Some? ==> r == (StockOutSaleEffect(s, id, req.quantity, req.priceAtSale.value, DateOr(req.date, now)).0, Some(s.nextTransactionId)))
      && (r.1.None? ==> r.0.transactions == s.transactions && r.0.txItems == s.txItems && r.0.customers == s.customers)
  {
    if req.createTransaction && PriceGiven(req.priceAtSale) {
      StockOutSaleRows(s, id, req.quantity, req.priceAtSale.value, DateOr(req.date, now));
    }
  }

  // ---------------------------------------------------------------------------
  // PUT /:id/stock-in

  /** The increment (no row changes for a missing book) and the ledger entry, whose failure is ignored. */
  function StockInEffect(s: State, id: int, quantity: int, now: int): State {
    Log(AddBookStock(s, id, quantity), LedgerEntry(id, quantity, StockInReason, now))
  }

  method StockIn(db: Db, id: int, quantity: int, now: int)
    modifies db
    ensures db.Snapshot() == StockInEffect(old(db.Snapshot()), id, quantity, now)
  {
    db.UpdateBookStock(id, quantity);
    var logged := db.AppendLedger(LedgerEntry(id, quantity, StockInReason, now));
  }

  /** A stock-in adds the (unchecked) quantity to an existing book and logs it; nothing else changes. */
  lemma {:induction false} StockInAdds(s: State, id: int, quantity: int, now: int)
    ensures var t := StockInEffect(s, id, quantity, now);
      t == s.(books := t.books, ledger := t.ledger)
      && t.books.Keys == s.books.Keys
      && StockOf(t, id) == StockOf(s, id) + (if id in s.books then quantity else 0)
      && (forall b :: b in s.books && b != id ==> t.books[b] == s.books[b])
      && t.ledger == s.ledger + if s.ledgerEnabled && id in s.books then [LedgerEntry(id, quantity, StockInReason, now)] else []
  {
  }

  // ---------------------------------------------------------------------------
  // PUT /:id

  method UpdateBook(db: Db, id: int, b: Book)
    modifies db
    ensures db.Snapshot() == ReplaceBook(old(db.Snapshot()), id, b)
  {
    db.SetBook(id, b);
  }

  /** An edit overwrites all seven columns of an existing book, and only its row. */
  lemma {:induction false} UpdateBookEffect(s: State, id: int, b: Book)
    ensures var t := ReplaceBook(s, id, b);
      t == s.(books := t.books) && t.books.Keys == s.books.Keys
      && (id in s.books ==> t.books[id] == b)
      && (forall k :: k in s.books && k != id ==> t.books[k] == s.books[k])
  {
  }

  // ---------------------------------------------------------------------------
  // DELETE /:id

  /** MySQL's `ER_ROW_IS_REFERENCED_2`, answered with code `BOOK_IN_USE`. */
  const BookInUse := ApiError(409, "Buku tidak dapat dihapus karena sudah dipakai dalam transaksi")

  /** A plain delete: refused while an item row or a ledger row names an existing book. */
  function PlainDeleteEffect(s: State, id: int): (r: Result<State, ApiError>)
    ensures r.Err? <==> id in s.books && BookReferenced(s, id)
    ensures r.Err? ==> r.error == BookInUse
    ensures r.Ok? ==> r.value == s.(books := s.books - {id})
  {
    if id in s.books && BookReferenced(s, id) then Err(BookInUse) else Ok(DeleteBookRow(s, id))
  }

  /**
   * A forced delete, all in one DB transaction: the book's ledger rows (when the
   * table exists), its item rows, every transaction left without items, and
   * the book.
   */
  function ForceDeleteEffect(s: State, id: int): State {
    DeleteBookRow(DeleteEmptyTransactions(DeleteItemsOf(DeleteLedgerOf(s, id), id)), id)
  }

  /**
   * `String(req.query.force || '').toLowerCase() === 'true'`, for a query
   * parameter that is absent or one string (an empty one is falsy and becomes
   * `''`, which is the same text).
   */
  predicate ForceRequested(force: Option<string>) {
    force.Some? && ToLower(force.value) == "true"
  }

  /** A delete is forced exactly when the parameter is the four letters of "true", each in either case. */
  lemma {:induction false} ForceQuery(force: Option<string>)
    ensures ForceRequested(force) <==>
      force.Some? && |force.value| == 4 && forall i :: 0 <= i < 4 ==> Lower(force.value[i]) == "true"[i]
    ensures ForceRequested(Some("TRUE")) && ForceRequested(Some("True"))
    ensures !ForceRequested(None) && !ForceRequested(Some("")) && !ForceRequested(Some("1")) && !ForceRequested(Some("yes"))
  {
    if force.Some? && |force.value| == 4 && forall i :: 0 <= i < 4 ==> Lower(force.value[i]) == "true"[i] {
      assert ToLower(force.value) == "true";
    }
    assert ToLower("TRUE") == "true";
    assert ToLower("True") == "true";
    assert |ToLower("1")| == 1;
    assert |ToLower("yes")| == 3;
  }

  /** The route handler: `force` is the `force` query parameter, absent or one string. */
  method DeleteBook(db: Db, id: int, force: Option<string>) returns (err: Option<ApiError>)
    modifies db
    ensures !ForceRequested(force) && PlainDeleteEffect(old(db.Snapshot()), id).Err? ==>
      err == Some(BookInUse) && db.Snapshot() == old(db.Snapshot())
    ensures !ForceRequested(force) && PlainDeleteEffect(old(db.Snapshot()), id).Ok? ==>
      err == None && db.Snapshot() == PlainDeleteEffect(old(db.Snapshot()), id).value
    ensures ForceRequested(force) ==> err == None && db.Snapshot() == ForceDeleteEffect(old(db.Snapshot()), id)
  {
    var forced := force.Some? && ToLower(force.value) == "true";
    if !forced {
      if id in db.books && BookReferenced(db.Snapshot(), id) {
        return Some(BookInUse);
      }
      db.RemoveBook(id);
      return None;
    }
    db.RemoveLedgerOf(id);
    db.RemoveItemsOf(id);
    db.RemoveEmptyTransactions();
    db.RemoveBook(id);
    err := None;
  }

  /** After a forced delete nothing names the book any more and the book is gone, so a plain delete would now pass. */
  lemma {:induction false} ForceDeleteUnreferenced(s: State, id: int)
    ensures var t := ForceDeleteEffect(s, id);
      id !in t.books && !BookReferenced(t, id) && PlainDeleteEffect(t, id) == Ok(t)
  {
    var t := ForceDeleteEffect(s, id);
    forall i | 0 <= i < |t.txItems|
      ensures t.txItems[i].bookId != Some(id)
    {
      ItemsWithoutMembers(s.txItems, id, t.txItems[i]);
    }
    if t.ledgerEnabled {
      forall i | 0 <= i < |t.ledger|
        ensures t.ledger[i].bookId != id
      {
        LedgerWithoutMembers(s.ledger, id, t.ledger[i]);
      }
    }
    assert t.(books := t.books - {id}) == t;
  }

  /** After a forced delete every remaining transaction still has at least one item. */
  lemma {:induction false} ForceDeleteNoEmptySales(s: State, id: int)
    ensures var t := ForceDeleteEffect(s, id);
      forall k :: k in t.transactions ==> HasItems(t.txItems, k)
  {
  }

  /**
   * A forced delete keeps every item row of another book, and every
   * transaction holding one keeps its header; only the book's row leaves
   * `books`, and the other tables are untouched.
   */
  lemma {:induction false} ForceDeleteKeepsOthers(s: State, id: int)
    ensures var t := ForceDeleteEffect(s, id);
      t.books == s.books - {id}
      && (forall x :: x in s.txItems && x.bookId != Some(id) ==> x in t.txItems)
      && (forall i :: 0 <= i < |s.txItems| && s.txItems[i].bookId != Some(id) && s.txItems[i].transactionId in s.transactions ==>
            var k := s.txItems[i].transactionId; k in t.transactions && t.transactions[k] == s.transactions[k])
      && t.bundles == s.bundles && t.customers == s.customers && t.users == s.users
  {
    var t := ForceDeleteEffect(s, id);
    forall x | x in s.txItems && x.bookId != Some(id)
      ensures x in t.txItems
    {
      ItemsWithoutMembers(s.txItems, id, x);
    }
    forall i | 0 <= i < |s.txItems| && s.txItems[i].bookId != Some(id) && s.txItems[i].transactionId in s.transactions
      ensures s.txItems[i].transactionId in t.transactions
    {
      var x := s.txItems[i];
      ItemsWithoutMembers(s.txItems, id, x);
      var j :| 0 <= j < |t.txItems| && t.txItems[j] == x;
      assert HasItems(t.txItems, x.transactionId);
    }
  }

  // ---------------------------------------------------------------------------
  // GET /:id/stock-history

  const HistoryLimit := 100

  /** The ledger rows of the book, in insertion order (`WHERE book_id = ?`). */
  function EntriesOf(ledger: seq<LedgerEntry>, id: int): (r: seq<LedgerEntry>)
    ensures forall i :: 0 <= i < |r| ==> r[i].bookId == id
  {
    if ledger == [] then []
    else if ledger[|ledger| - 1].bookId == id then EntriesOf(ledger[..|ledger| - 1], id) + [ledger[|ledger| - 1]]
    else EntriesOf(ledger[..|ledger| - 1], id)
  }

  lemma {:induction false} EntriesOfMembers(ledger: seq<LedgerEntry>, id: int, x: LedgerEntry)
    ensures x in EntriesOf(ledger, id) <==> x in ledger && x.bookId == id
  {
    if ledger != [] {
      var init := ledger[..|ledger| - 1];
      EntriesOfMembers(init, id, x);
      assert ledger == init + [ledger[|ledger| - 1]];
    }
  }

  /** `ORDER BY transaction_date DESC`. */
  ghost predicate NewestFirst(xs: seq<LedgerEntry>) {
    forall i, j :: 0 <= i < j < |xs| ==> xs[i].date >= xs[j].date
  }

  /** Inserts `e` before the first entry not newer than it, so that equal dates keep their order. */
  function InsertByDate(e: LedgerEntry, xs: seq<LedgerEntry>): (r: seq<LedgerEntry>)
    ensures multiset(r) == multiset(xs) + multiset{e}
  {
    if xs == [] then [e]
    else if e.date >= xs[0].date then [e] + xs
    else
      assert xs == [xs[0]] + xs[1..];
      [xs[0]] + InsertByDate(e, xs[1..])
  }

  /** No entry is newer than `d`. */
  ghost predicate NoneNewer(xs: seq<LedgerEntry>, d: int) {
    forall i :: 0 <= i < |xs| ==> xs[i].date <= d
  }

  lemma {:induction false} InsertByDateNoneNewer(e: LedgerEntry, xs: seq<LedgerEntry>, d: int)
    requires NoneNewer(xs, d) && e.date <= d
    ensures NoneNewer(InsertByDate(e, xs), d)
  {
    if xs != [] && e.date < xs[0].date {
      InsertByDateNoneNewer(e, xs[1..], d);
    }
  }

  lemma {:induction false} ConsNewestFirst(x: LedgerEntry, xs: seq<LedgerEntry>)
    requires NewestFirst(xs) && NoneNewer(xs, x.date)
    ensures NewestFirst([x] + xs)
  {
    var r := [x] + xs;
    forall i, j | 0 <= i < j < |r|
      ensures r[i].date >= r[j].date
    {
      assert r[j] == xs[j - 1];
      if i > 0 {
        assert r[i] == xs[i - 1];
      }
    }
  }

  lemma {:induction false} InsertByDateSorted(e: LedgerEntry, xs: seq<LedgerEntry>)
    requires NewestFirst(xs)
    ensures NewestFirst(InsertByDate(e, xs))
  {
    if xs == [] {
    } else if e.date >= xs[0].date {
      ConsNewestFirst(e, xs);
    } else {
      var tail := xs[1..];
      assert NewestFirst(tail) && NoneNewer(tail, xs[0].date) by {
        forall i | 0 <= i < |tail|
          ensures tail[i] == xs[i + 1]
        {
        }
      }
      InsertByDateSorted(e, tail);
      InsertByDateNoneNewer(e, tail, xs[0].date);
      ConsNewestFirst(xs[0], InsertByDate(e, tail));
    }
  }

  /** Insertion sort by date, newest first. */
  function SortByDate(xs: seq<LedgerEntry>): (r: seq<LedgerEntry>)
    ensures multiset(r) == multiset(xs)
  {
    if xs == [] then []
    else
      assert xs == [xs[0]] + xs[1..];
      InsertByDate(xs[0], SortByDate(xs[1..]))
  }

  lemma {:induction false} SortByDateSorted(xs: seq<LedgerEntry>)
    ensures NewestFirst(SortByDate(xs))
  {
    if xs != [] {
      SortByDateSorted(xs[1..]);
      InsertByDateSorted(xs[0], SortByDate(xs[1..]));
    }
  }

  /** The rows the route returns: the newest hundred of the book's, or none without the table. */
  function StockHistory(s: State, id: int): (r: seq<LedgerEntry>)
    ensures |r| <= HistoryLimit
    ensures forall i :: 0 <= i < |r| ==> r[i].bookId == id && r[i] in s.ledger
    ensures !s.ledgerEnabled ==> r == []
    ensures NewestFirst(r)
  {
    if !s.ledgerEnabled then []
    else
      var entries := EntriesOf(s.ledger, id);
      var sorted := SortByDate(entries);
      SortByDateSorted(entries);
      forall i | 0 <= i < |sorted|
        ensures sorted[i].bookId == id && sorted[i] in s.ledger
      {
        assert sorted[i] in multiset(entries);
        EntriesOfMembers(s.ledger, id, sorted[i]);
      }
      if |sorted| <= HistoryLimit then sorted else sorted[..HistoryLimit]
  }

  /**
   * The history holds every row of the book when there are at most a hundred,
   * and otherwise a hundred of them such that no row left out is newer than
   * any row returned.
   */
  lemma {:induction false} HistoryKeepsNewest(s: State, id: int)
    requires s.ledgerEnabled
    ensures var entries, r := EntriesOf(s.ledger, id), StockHistory(s, id);
      |r| == (if |entries| <= HistoryLimit then |entries| else HistoryLimit)
      && multiset(r) <= multiset(entries)
      && (|entries| <= HistoryLimit ==> multiset(r) == multiset(entries))
      && (forall e: LedgerEntry, i :: e in multiset(entries) - multiset(r) && 0 <= i < |r| ==> e.date <= r[i].date)
  {
    var entries, r := EntriesOf(s.ledger, id), StockHistory(s, id);
    var sorted := SortByDate(entries);
    SortByDateSorted(entries);
    assert |sorted| == |multiset(sorted)| == |multiset(entries)| == |entries|;
    if |sorted| > HistoryLimit {
      assert r == sorted[..HistoryLimit];
      PrefixIsNewest(sorted, HistoryLimit);
    }
  }

  /** Of a newest-first list, whatever a prefix leaves out is no newer than any entry of the prefix. */
  lemma {:induction false} PrefixIsNewest(sorted: seq<LedgerEntry>, n: nat)
    requires NewestFirst(sorted) && n <= |sorted|
    ensures multiset(sorted[..n]) <= multiset(sorted)
    ensures forall e: LedgerEntry, i :: e in multiset(sorted) - multiset(sorted[..n]) && 0 <= i < n ==> e.date <= sorted[i].date
  {
    var r, rest := sorted[..n], sorted[n..];
    assert sorted == r + rest;
    assert multiset(sorted) == multiset(r) + multiset(rest);
    forall e: LedgerEntry, i | e in multiset(sorted) - multiset(r) && 0 <= i < n
      ensures e.date <= sorted[i].date
    {
      assert e in multiset(rest);
      var j :| 0 <= j < |rest| && rest[j] == e;
      assert sorted[n + j] == e;
    }
  }
}
