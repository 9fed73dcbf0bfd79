// The MySQL database behind the backend routes (book-store-api/routes/*.js):
// its rows as values, the whole database as one `State`, the SQL statements the
// routes issue as functions on a `State`, and `Db`, the connection the route
// handlers update in place. A DB transaction is a snapshot of `Db` that a
// rollback restores.
module Database {
  import opened Wrappers

  /** A row of `books`. */
  datatype Book = Book(isbn: string, title: string, author: string, category: string,
                       purchasePrice: real, sellingPrice: real, stockQty: int)

  /** A row of `bundle_items`, kept with the bundle it belongs to. */
  datatype BundleItem = BundleItem(bookId: int, quantity: int)

  /** A row of `bundles` together with its `bundle_items` in insertion order. */
  datatype Bundle = Bundle(name: string, sellingPrice: real, stock: int, isActive: bool, items: seq<BundleItem>)

  /** A row of `transactions` (the header of a sale). */
  datatype Transaction = Transaction(date: int, totalAmount: real, paymentMethod: string,
                                     customerId: Option<int>, orderNumber: Option<string>)

  /** A row of `transaction_items`: a book line or, from the import, a bundle line. */
  datatype TxItem = TxItem(transactionId: int, bookId: Option<int>, bundleId: Option<int>,
                           quantity: int, priceAtSale: real)

  /** A row of `stock_history`, the stock ledger. */
  datatype LedgerEntry = LedgerEntry(bookId: int, change: int, reason: string, date: int)

  /** A row of `customers`. */
  datatype Customer = Customer(id: int, name: string)

  /** A bcrypt hash, known only through the password it was made from. */
  datatype Hash = Hash(secret: string)

  /** A row of `users`. */
  datatype User = User(username: string, password: Hash, fullName: Option<string>, role: string,
                       isActive: bool, lastLogin: Option<int>)

  /**
   * The whole database. `ledgerEnabled` says whether the optional
   * `stock_history` table exists; the `next…` fields are the auto-increment
   * counters of the tables whose new ids the routes use.
   */
  datatype State = State(
    books: map<int, Book>,
    bundles: map<int, Bundle>,
    transactions: map<int, Transaction>,
    txItems: seq<TxItem>,
    ledger: seq<LedgerEntry>,
    ledgerEnabled: bool,
    customers: seq<Customer>,
    users: map<int, User>,
    nextBundleId: int,
    nextTransactionId: int,
    nextCustomerId: int,
    nextUserId: int)

  /** Every generated id is positive and below its counter. */
  predicate Valid(s: State) {
    0 < s.nextBundleId && 0 < s.nextTransactionId && 0 < s.nextCustomerId && 0 < s.nextUserId
    && (forall k :: k in s.bundles ==> 0 < k < s.nextBundleId)
    && (forall k :: k in s.transactions ==> 0 < k < s.nextTransactionId)
    && (forall i :: 0 <= i < |s.customers| ==> 0 < s.customers[i].id < s.nextCustomerId)
    && (forall k :: k in s.users ==> 0 < k < s.nextUserId)
  }

  /** The stock of a book, 0 for a book that does not exist. */
  function StockOf(s: State, id: int): int {
    if id in s.books then s.books[id].stockQty else 0
  }

  // ---------------------------------------------------------------------------
  // The statements

  /** `UPDATE books SET stock_qty = stock_qty + delta WHERE book_id = id`. */
  function AddBookStock(s: State, id: int, delta: int): (r: State)
    ensures r.books.Keys == s.books.Keys
    ensures r == s.(books := r.books)
  {
    if id in s.books then s.(books := s.books[id := s.books[id].(stockQty := s.books[id].stockQty + delta)])
    else s
  }

  lemma {:induction false} AddBookStockOf(s: State, id: int, delta: int, b: int)
    ensures StockOf(AddBookStock(s, id, delta), b)
            == StockOf(s, b) + if b == id && id in s.books then delta else 0
  {
  }

  /** `UPDATE bundles SET stock = stock + delta WHERE bundle_id = id`. */
  function AddBundleStock(s: State, id: int, delta: int): (r: State)
    ensures r.bundles.Keys == s.bundles.Keys
    ensures r == s.(bundles := r.bundles)
  {
    if id in s.bundles then s.(bundles := s.bundles[id := s.bundles[id].(stock := s.bundles[id].stock + delta)])
    else s
  }

  /** The stock of a bundle, 0 for a bundle that does not exist. */
  function BundleStockOf(s: State, id: int): int {
    if id in s.bundles then s.bundles[id].stock else 0
  }

  lemma {:induction false} AddBundleStockOf(s: State, id: int, delta: int, b: int)
    ensures BundleStockOf(AddBundleStock(s, id, delta), b)
            == BundleStockOf(s, b) + if b == id && id in s.bundles then delta else 0
  {
  }

  /**
   * An insert into `stock_history` fails when the table does not exist or the
   * book does not (the ledger's book id is a foreign key).
   */
  predicate LogFails(s: State, e: LedgerEntry) {
    !s.ledgerEnabled || e.bookId !in s.books
  }

  /** `INSERT INTO stock_history …`; a failing insert leaves the database as it was. */
  function Log(s: State, e: LedgerEntry): (r: State)
    ensures r == s.(ledger := r.ledger)
    ensures s.ledger <= r.ledger && |r.ledger| <= |s.ledger| + 1
    ensures r == s <==> LogFails(s, e)
    ensures |r.ledger| > |s.ledger| ==> r.ledger[|s.ledger|] == e
  {
    if LogFails(s, e) then s else s.(ledger := s.ledger + [e])
  }

  /** The ledger reason of a stock decrement by a sale or a stock-out. */
  const SaleReason := "Penjualan Stok"

  /** The ledger reason of a stock-in. */
  const StockInReason := "Penambahan Stok"

  /**
   * `INSERT INTO transactions …`: the new header takes the next id, which no
   * header of a valid state has, and every other header is kept.
   */
  function InsertTransaction(s: State, t: Transaction): (r: (State, int))
    ensures r.1 == s.nextTransactionId && r.0.nextTransactionId == r.1 + 1
    ensures Valid(s) ==> r.1 !in s.transactions && Valid(r.0)
    ensures r.0.transactions.Keys == s.transactions.Keys + {r.1} && r.0.transactions[r.1] == t
    ensures forall k :: k in s.transactions && k != r.1 ==> r.0.transactions[k] == s.transactions[k]
    ensures r.0 == s.(transactions := r.0.transactions, nextTransactionId := r.0.nextTransactionId)
  {
    (s.(transactions := s.transactions[s.nextTransactionId := t], nextTransactionId := s.nextTransactionId + 1),
     s.nextTransactionId)
  }

  /** An insert into `transaction_items` fails when it names a book that does not exist. */
  predicate ItemFails(s: State, item: TxItem) {
    item.bookId.Some? && item.bookId.value !in s.books
  }

  /** `INSERT INTO transaction_items …`. */
  function InsertTxItem(s: State, item: TxItem): (r: State)
    ensures r == s.(txItems := r.txItems)
    ensures |r.txItems| == |s.txItems| + 1 && r.txItems[..|s.txItems|] == s.txItems && r.txItems[|s.txItems|] == item
  {
    s.(txItems := s.txItems + [item])
  }

  /** `SELECT customer_id FROM customers WHERE name = ? LIMIT 1`. */
  function FindCustomer(cs: seq<Customer>, name: string): (r: Option<int>)
    ensures r.Some? <==> exists i :: 0 <= i < |cs| && cs[i].name == name
    ensures r.Some? ==> exists i :: 0 <= i < |cs| && cs[i].name == name && cs[i].id == r.value
  {
    if cs == [] then None
    else if cs[0].name == name then Some(cs[0].id)
    else
      var r := FindCustomer(cs[1..], name);
      assert r.Some? ==> cs[1..][0].name == name || exists i :: 0 <= i < |cs[1..]| && cs[1..][i].name == name;
      r
  }

  /** The customer named `name`, inserted first when there is none (`INSERT INTO customers (name)`). */
  function CustomerFor(s: State, name: string): (r: (State, int))
  {
    match FindCustomer(s.customers, name)
    case Some(id) => (s, id)
    case None => (s.(customers := s.customers + [Customer(s.nextCustomerId, name)],
                     nextCustomerId := s.nextCustomerId + 1), s.nextCustomerId)
  }

  /** An existing customer is reused and nothing changes; otherwise exactly one customer is appended. */
  lemma {:induction false} CustomerForReuses(s: State, name: string)
    ensures var (t, id) := CustomerFor(s, name);
      t.books == s.books && t.bundles == s.bundles && t.transactions == s.transactions
      && t.txItems == s.txItems && t.ledger == s.ledger && t.users == s.users
      && (exists i :: 0 <= i < |t.customers| && t.customers[i] == Customer(id, name))
      && (if FindCustomer(s.customers, name).Some? then t == s
          else t.customers == s.customers + [Customer(s.nextCustomerId, name)])
  {
    var (t, id) := CustomerFor(s, name);
    match FindCustomer(s.customers, name)
    case Some(c) =>
      var i :| 0 <= i < |s.customers| && s.customers[i].name == name && s.customers[i].id == c;
      assert t.customers[i] == Customer(id, name);
    case None =>
      assert t.customers[|s.customers|] == Customer(id, name);
  }

  /** A customer insert keeps the ids valid. */
  lemma {:induction false} CustomerForValid(s: State, name: string)
    requires Valid(s)
    ensures Valid(CustomerFor(s, name).0) && CustomerFor(s, name).0.nextTransactionId == s.nextTransactionId
  {
  }

  /** A header insert keeps the ids valid, and the new id was not in use. */
  lemma {:induction false} InsertTransactionValid(s: State, t: Transaction)
    requires Valid(s)
    ensures InsertTransaction(s, t).1 !in s.transactions
    ensures Valid(InsertTransaction(s, t).0)
  {
  }

  /** A transaction line or a ledger row names the book (the foreign keys into `books`). */
  predicate BookReferenced(s: State, id: int) {
    (exists i :: 0 <= i < |s.txItems| && s.txItems[i].bookId == Some(id))
    || (s.ledgerEnabled && exists i :: 0 <= i < |s.ledger| && s.ledger[i].bookId == id)
  }

  /** `UPDATE books SET <every column> = ? WHERE book_id = ?`; no row matches a missing id. */
  function ReplaceBook(s: State, id: int, b: Book): (r: State)
    ensures r == s.(books := r.books)
  {
    if id in s.books then s.(books := s.books[id := b]) else s
  }

  /** `DELETE FROM books WHERE book_id = ?` once nothing references the book. */
  function DeleteBookRow(s: State, id: int): (r: State)
    ensures r == s.(books := r.books)
  {
    s.(books := s.books - {id})
  }

  /** The item rows that do not name the book, in their order. */
  function ItemsWithout(items: seq<TxItem>, id: int): (r: seq<TxItem>)
    ensures |r| <= |items|
  {
    if items == [] then []
    else if items[|items| - 1].bookId == Some(id) then ItemsWithout(items[..|items| - 1], id)
    else ItemsWithout(items[..|items| - 1], id) + [items[|items| - 1]]
  }

  lemma {:induction false} ItemsWithoutMembers(items: seq<TxItem>, id: int, x: TxItem)
    ensures x in ItemsWithout(items, id) <==> x in items && x.bookId != Some(id)
  {
    if items != [] {
      var init := items[..|items| - 1];
      ItemsWithoutMembers(init, id, x);
      assert items == init + [items[|items| - 1]];
    }
  }

  /** The ledger rows that do not name the book, in their order. */
  function LedgerWithout(ledger: seq<LedgerEntry>, id: int): (r: seq<LedgerEntry>)
    ensures |r| <= |ledger|
  {
    if ledger == [] then []
    else if ledger[|ledger| - 1].bookId == id then LedgerWithout(ledger[..|ledger| - 1], id)
    else LedgerWithout(ledger[..|ledger| - 1], id) + [ledger[|ledger| - 1]]
  }

  lemma {:induction false} LedgerWithoutMembers(ledger: seq<LedgerEntry>, id: int, x: LedgerEntry)
    ensures x in LedgerWithout(ledger, id) <==> x in ledger && x.bookId != id
  {
    if ledger != [] {
      var init := ledger[..|ledger| - 1];
      LedgerWithoutMembers(init, id, x);
      assert ledger == init + [ledger[|ledger| - 1]];
    }
  }

  /** Some item row belongs to transaction `k`. */
  predicate HasItems(items: seq<TxItem>, k: int) {
    exists i :: 0 <= i < |items| && items[i].transactionId == k
  }

  /** `DELETE FROM stock_history WHERE book_id = ?`; nothing happens when the table does not exist. */
  function DeleteLedgerOf(s: State, id: int): (r: State)
    ensures r == s.(ledger := r.ledger)
  {
    if s.ledgerEnabled then s.(ledger := LedgerWithout(s.ledger, id)) else s
  }

  /** `DELETE FROM transaction_items WHERE book_id = ?`. */
  function DeleteItemsOf(s: State, id: int): (r: State)
    ensures r == s.(txItems := r.txItems)
  {
    s.(txItems := ItemsWithout(s.txItems, id))
  }

  /** `DELETE t FROM transactions t LEFT JOIN transaction_items … WHERE ti.transaction_id IS NULL`. */
  function DeleteEmptyTransactions(s: State): (r: State)
    ensures r == s.(transactions := r.transactions)
  {
    s.(transactions := map k | k in s.transactions && HasItems(s.txItems, k) :: s.transactions[k])
  }

  /** The item rows of transaction `tid`, in their order (`SELECT … WHERE transaction_id = ?`). */
  function ItemsOfTransaction(items: seq<TxItem>, tid: int): (r: seq<TxItem>)
    ensures |r| <= |items|
    ensures forall i :: 0 <= i < |r| ==> r[i].transactionId == tid
  {
    if items == [] then []
    else if items[|items| - 1].transactionId == tid then ItemsOfTransaction(items[..|items| - 1], tid) + [items[|items| - 1]]
    else ItemsOfTransaction(items[..|items| - 1], tid)
  }

  /** The item rows of every other transaction, in their order. */
  function ItemsNotOfTransaction(items: seq<TxItem>, tid: int): (r: seq<TxItem>)
    ensures |r| <= |items|
  {
    if items == [] then []
    else if items[|items| - 1].transactionId == tid then ItemsNotOfTransaction(items[..|items| - 1], tid)
    else ItemsNotOfTransaction(items[..|items| - 1], tid) + [items[|items| - 1]]
  }

  lemma {:induction false} ItemsNotOfTransactionMembers(items: seq<TxItem>, tid: int, x: TxItem)
    ensures x in ItemsNotOfTransaction(items, tid) <==> x in items && x.transactionId != tid
  {
    if items != [] {
      var init := items[..|items| - 1];
      ItemsNotOfTransactionMembers(init, tid, x);
      assert items == init + [items[|items| - 1]];
    }
  }

  /** `DELETE FROM transaction_items WHERE transaction_id = ?`. */
  function DeleteItemsOfTransaction(s: State, tid: int): (r: State)
    ensures r == s.(txItems := r.txItems)
  {
    s.(txItems := ItemsNotOfTransaction(s.txItems, tid))
  }

  /** `DELETE FROM transactions WHERE transaction_id = ?`. */
  function DeleteTransaction(s: State, tid: int): (r: State)
    ensures r == s.(transactions := r.transactions)
  {
    s.(transactions := s.transactions - {tid})
  }

  /** `INSERT INTO bundles (bundle_name, selling_price, stock)`: a new bundle is active and has no items yet. */
  function InsertBundle(s: State, name: string, price: real, stock: int): (r: (State, int))
    ensures r.1 == s.nextBundleId && r.0.nextBundleId == r.1 + 1
    ensures Valid(s) ==> r.1 !in s.bundles && Valid(r.0)
    ensures r.0.bundles.Keys == s.bundles.Keys + {r.1} && r.0.bundles[r.1] == Bundle(name, price, stock, true, [])
    ensures forall k :: k in s.bundles && k != r.1 ==> r.0.bundles[k] == s.bundles[k]
    ensures r.0 == s.(bundles := r.0.bundles, nextBundleId := r.0.nextBundleId)
  {
    (s.(bundles := s.bundles[s.nextBundleId := Bundle(name, price, stock, true, [])], nextBundleId := s.nextBundleId + 1),
     s.nextBundleId)
  }

  /**
   * An insert into `bundle_items` fails when the bundle does not exist (its
   * bundle id is a foreign key); its book id is not checked.
   */
  predicate BundleItemFails(s: State, bid: int) {
    bid !in s.bundles
  }

  /** `INSERT INTO bundle_items (bundle_id, book_id, quantity)`. */
  function InsertBundleItem(s: State, bid: int, item: BundleItem): (r: State)
    ensures r == s.(bundles := r.bundles) && r.bundles.Keys == s.bundles.Keys
  {
    if BundleItemFails(s, bid) then s
    else s.(bundles := s.bundles[bid := s.bundles[bid].(items := s.bundles[bid].items + [item])])
  }

  /** `UPDATE bundles SET bundle_name = ?, selling_price = ?, stock = ? WHERE bundle_id = ?`. */
  function SetBundleInfo(s: State, bid: int, name: string, price: real, stock: int): (r: State)
    ensures r == s.(bundles := r.bundles) && r.bundles.Keys == s.bundles.Keys
  {
    if bid in s.bundles then s.(bundles := s.bundles[bid := s.bundles[bid].(name := name, sellingPrice := price, stock := stock)])
    else s
  }

  /** `DELETE FROM bundle_items WHERE bundle_id = ?`. */
  function ClearBundleItems(s: State, bid: int): (r: State)
    ensures r == s.(bundles := r.bundles) && r.bundles.Keys == s.bundles.Keys
  {
    if bid in s.bundles then s.(bundles := s.bundles[bid := s.bundles[bid].(items := [])]) else s
  }

  /** `UPDATE bundles SET is_active = FALSE WHERE bundle_id = ?`. */
  function DeactivateBundle(s: State, bid: int): (r: State)
    ensures r == s.(bundles := r.bundles) && r.bundles.Keys == s.bundles.Keys
  {
    if bid in s.bundles then s.(bundles := s.bundles[bid := s.bundles[bid].(isActive := false)]) else s
  }

  // ---------------------------------------------------------------------------
  // The connection

  /** The database as the route handlers see it: its tables are updated in place. */
  class Db {
    var books: map<int, Book>
    var bundles: map<int, Bundle>
    var transactions: map<int, Transaction>
    var txItems: seq<TxItem>
    var ledger: seq<LedgerEntry>
    var ledgerEnabled: bool
    var customers: seq<Customer>
    var users: map<int, User>
    var nextBundleId: int
    var nextTransactionId: int
    var nextCustomerId: int
    var nextUserId: int

    /** The tables as one value; a DB transaction saves it and a rollback restores it. */
    function Snapshot(): State
      reads this
    {
      State(books, bundles, transactions, txItems, ledger, ledgerEnabled, customers, users,
            nextBundleId, nextTransactionId, nextCustomerId, nextUserId)
    }

    constructor (s: State)
      ensures Snapshot() == s
    {
      books := s.books;
      bundles := s.bundles;
      transactions := s.transactions;
      txItems := s.txItems;
      ledger := s.ledger;
      ledgerEnabled := s.ledgerEnabled;
      customers := s.customers;
      users := s.users;
      nextBundleId := s.nextBundleId;
      nextTransactionId := s.nextTransactionId;
      nextCustomerId := s.nextCustomerId;
      nextUserId := s.nextUserId;
    }

    /** `connection.rollback()`: every table goes back to the saved value. */
    method Restore(s: State)
      modifies this
      ensures Snapshot() == s
    {
      RestoreStock(s);
      RestoreSales(s);
      RestoreOthers(s);
    }

    method RestoreStock(s: State)
      modifies this`books, this`bundles, this`nextBundleId
      ensures books == s.books && bundles == s.bundles && nextBundleId == s.nextBundleId
    {
      books, bundles, nextBundleId := s.books, s.bundles, s.nextBundleId;
    }

    method RestoreSales(s: State)
      modifies this`transactions, this`txItems, this`nextTransactionId, this`customers, this`nextCustomerId
      ensures transactions == s.transactions && txItems == s.txItems && nextTransactionId == s.nextTransactionId
      ensures customers == s.customers && nextCustomerId == s.nextCustomerId
    {
      transactions, txItems, nextTransactionId := s.transactions, s.txItems, s.nextTransactionId;
      customers, nextCustomerId := s.customers, s.nextCustomerId;
    }

    method RestoreOthers(s: State)
      modifies this`ledger, this`ledgerEnabled, this`users, this`nextUserId
      ensures ledger == s.ledger && ledgerEnabled == s.ledgerEnabled && users == s.users && nextUserId == s.nextUserId
    {
      ledger, ledgerEnabled, users, nextUserId := s.ledger, s.ledgerEnabled, s.users, s.nextUserId;
    }

    method UpdateBookStock(id: int, delta: int)
      modifies this`books
      ensures Snapshot() == AddBookStock(old(Snapshot()), id, delta)
    {
      if id in books {
        books := books[id := books[id].(stockQty := books[id].stockQty + delta)];
      }
    }

    method UpdateBundleStock(id: int, delta: int)
      modifies this`bundles
      ensures Snapshot() == AddBundleStock(old(Snapshot()), id, delta)
    {
      if id in bundles {
        bundles := bundles[id := bundles[id].(stock := bundles[id].stock + delta)];
      }
    }

    /** Inserts a ledger entry; `ok` is false when the insert fails. */
    method AppendLedger(e: LedgerEntry) returns (ok: bool)
      modifies this`ledger
      ensures ok == !LogFails(old(Snapshot()), e)
      ensures Snapshot() == Log(old(Snapshot()), e)
    {
      ok := ledgerEnabled && e.bookId in books;
      if ok {
        ledger := ledger + [e];
      }
    }

    method AddTransaction(t: Transaction) returns (id: int)
      modifies this`transactions, this`nextTransactionId
      ensures (Snapshot(), id) == InsertTransaction(old(Snapshot()), t)
    {
      id := nextTransactionId;
      transactions := transactions[id := t];
      nextTransactionId := nextTransactionId + 1;
    }

    /** Inserts a transaction line; `ok` is false, and nothing changes, when the insert fails. */
    method AddTxItem(item: TxItem) returns (ok: bool)
      modifies this`txItems
      ensures ok == !ItemFails(old(Snapshot()), item)
      ensures Snapshot() == if ok then InsertTxItem(old(Snapshot()), item) else old(Snapshot())
    {
      ok := !(item.bookId.Some? && item.bookId.value !in books);
      if ok {
        txItems := txItems + [item];
      }
    }

    method SetBook(id: int, b: Book)
      modifies this`books
      ensures Snapshot() == ReplaceBook(old(Snapshot()), id, b)
    {
      if id in books {
        books := books[id := b];
      }
    }

    method RemoveBook(id: int)
      modifies this`books
      ensures Snapshot() == DeleteBookRow(old(Snapshot()), id)
    {
      books := books - {id};
    }

    method RemoveLedgerOf(id: int)
      modifies this`ledger
      ensures Snapshot() == DeleteLedgerOf(old(Snapshot()), id)
    {
      if ledgerEnabled {
        ledger := LedgerWithout(ledger, id);
      }
    }

    method RemoveItemsOf(id: int)
      modifies this`txItems
      ensures Snapshot() == DeleteItemsOf(old(Snapshot()), id)
    {
      txItems := ItemsWithout(txItems, id);
    }

    method RemoveEmptyTransactions()
      modifies this`transactions
      ensures Snapshot() == DeleteEmptyTransactions(old(Snapshot()))
    {
      transactions := map k | k in transactions && HasItems(txItems, k) :: transactions[k];
    }

    method RemoveItemsOfTransaction(tid: int)
      modifies this`txItems
      ensures Snapshot() == DeleteItemsOfTransaction(old(Snapshot()), tid)
    {
      txItems := ItemsNotOfTransaction(txItems, tid);
    }

    method RemoveTransaction(tid: int)
      modifies this`transactions
      ensures Snapshot() == DeleteTransaction(old(Snapshot()), tid)
    {
      transactions := transactions - {tid};
    }

    method AddBundle(name: string, price: real, stock: int) returns (id: int)
      modifies this`bundles, this`nextBundleId
      ensures (Snapshot(), id) == InsertBundle(old(Snapshot()), name, price, stock)
    {
      id := nextBundleId;
      bundles := bundles[id := Bundle(name, price, stock, true, [])];
      nextBundleId := nextBundleId + 1;
    }

    /** Inserts a bundle item row; `ok` is false, and nothing changes, when the insert fails. */
    method AddBundleItem(bid: int, item: BundleItem) returns (ok: bool)
      modifies this`bundles
      ensures ok == !BundleItemFails(old(Snapshot()), bid)
      ensures Snapshot() == InsertBundleItem(old(Snapshot()), bid, item)
    {
      ok := bid in bundles;
      if ok {
        bundles := bundles[bid := bundles[bid].(items := bundles[bid].items + [item])];
      }
    }

    method UpdateBundleInfo(bid: int, name: string, price: real, stock: int)
      modifies this`bundles
      ensures Snapshot() == SetBundleInfo(old(Snapshot()), bid, name, price, stock)
    {
      if bid in bundles {
        bundles := bundles[bid := bundles[bid].(name := name, sellingPrice := price, stock := stock)];
      }
    }

    method RemoveBundleItems(bid: int)
      modifies this`bundles
      ensures Snapshot() == ClearBundleItems(old(Snapshot()), bid)
    {
      if bid in bundles {
        bundles := bundles[bid := bundles[bid].(items := [])];
      }
    }

    method SetBundleInactive(bid: int)
      modifies this`bundles
      ensures Snapshot() == DeactivateBundle(old(Snapshot()), bid)
    {
      if bid in bundles {
        bundles := bundles[bid := bundles[bid].(isActive := false)];
      }
    }

    /** Looks the customer up by name and inserts it when absent. */
    method FindOrAddCustomer(name: string) returns (id: int)
      modifies this`customers, this`nextCustomerId
      ensures (Snapshot(), id) == CustomerFor(old(Snapshot()), name)
    {
      var i := 0;
      while i < |customers| && customers[i].name != name
        invariant 0 <= i <= |customers|
        invariant FindCustomer(customers, name) == FindCustomer(customers[i..], name)
      {
        assert customers[i..][1..] == customers[i + 1..];
        i := i + 1;
      }
      if i < |customers| {
        id := customers[i].id;
      } else {
        id := nextCustomerId;
        customers := customers + [Customer(id, name)];
        nextCustomerId := nextCustomerId + 1;
      }
    }
  }
}
