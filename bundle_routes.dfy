// The bundle routes of book-store-api/routes/bundleRoutes.js: create, update
// (the item list is replaced), soft delete, the active-only list and detail,
// and selling a bundle, which moves the bundle's stock and the stock of every
// book in it.
module BundleRoutes {
  import opened Wrappers
  import opened Text
  import opened Database

  // ---------------------------------------------------------------------------
  // Item rows of a request

  /** One entry of a request's `items`; `quantity` is `None` when absent. */
  datatype ItemInput = ItemInput(bookId: int, quantity: Option<int>)

  /** The row stored for an entry: `item.quantity || 1`. */
  function ItemOf(input: ItemInput): (r: BundleItem)
    ensures r.bookId == input.bookId && r.quantity != 0
    ensures input.quantity.Some? && input.quantity.value != 0 ==> r.quantity == input.quantity.value
  {
    BundleItem(input.bookId, if input.quantity.Some? && input.quantity.value != 0 then input.quantity.value else 1)
  }

  function ItemsOf(inputs: seq<ItemInput>): (r: seq<BundleItem>)
    ensures |r| == |inputs|
  {
    if inputs == [] then [] else ItemsOf(inputs[..|inputs| - 1]) + [ItemOf(inputs[|inputs| - 1])]
  }

  lemma {:induction false} ItemsOfAt(inputs: seq<ItemInput>, i: int)
    requires 0 <= i < |inputs|
    ensures ItemsOf(inputs)[i] == ItemOf(inputs[i])
  {
    if i < |inputs| - 1 {
      ItemsOfAt(inputs[..|inputs| - 1], i);
    }
  }

  /** The insert loop: one `bundle_items` row per entry, in order. */
  function AddItems(s: State, bid: int, inputs: seq<ItemInput>): (r: State)
    ensures r == s.(bundles := r.bundles) && r.bundles.Keys == s.bundles.Keys
  {
    if inputs == [] then s
    else InsertBundleItem(AddItems(s, bid, inputs[..|inputs| - 1]), bid, ItemOf(inputs[|inputs| - 1]))
  }

  lemma {:induction false} AddItemsStep(s: State, bid: int, inputs: seq<ItemInput>, i: int)
    requires 0 <= i < |inputs|
    ensures AddItems(s, bid, inputs[..i + 1]) == InsertBundleItem(AddItems(s, bid, inputs[..i]), bid, ItemOf(inputs[i]))
  {
    assert inputs[..i + 1][..i] == inputs[..i];
  }

  /** Inserting the entries of an existing bundle appends their rows to its items and changes nothing else. */
  lemma {:induction false} AddItemsAppends(s: State, bid: int, inputs: seq<ItemInput>)
    requires bid in s.bundles
    ensures AddItems(s, bid, inputs) == s.(bundles := s.bundles[bid := s.bundles[bid].(items := s.bundles[bid].items + ItemsOf(inputs))])
  {
    if inputs == [] {
      assert s.bundles[bid].items + [] == s.bundles[bid].items;
      assert s.bundles[bid := s.bundles[bid]] == s.bundles;
    } else {
      var init := inputs[..|inputs| - 1];
      AddItemsAppends(s, bid, init);
      assert s.bundles[bid].items + ItemsOf(init) + [ItemOf(inputs[|inputs| - 1])] == s.bundles[bid].items + ItemsOf(inputs);
    }
  }

  // ---------------------------------------------------------------------------
  // POST /

  /** The body of a create; each field is `None` when absent. */
  datatype CreateRequest = CreateRequest(name: Option<string>, sellingPrice: Option<real>, stock: Option<int>,
                                         items: Option<seq<ItemInput>>)

  const MissingFields := ApiError(400, "Missing required fields")

  /** `!bundle_name || !selling_price || !items || items.length === 0`. */
  predicate CreateRefused(req: CreateRequest) {
    req.name.None? || req.name.value == "" || req.sellingPrice.None? || req.sellingPrice.value == 0.0
    || req.items.None? || req.items.value == []
  }

  /** `stock || 0`. */
  function StockOrZero(stock: Option<int>): int {
    if stock.Some? then stock.value else 0
  }

  /** The header insert and the item loop; a refusal writes nothing. */
  function CreateEffect(s: State, req: CreateRequest): (r: Result<(State, int), ApiError>)
    ensures r.Err? <==> CreateRefused(req)
    ensures r.Err? ==> r.error == MissingFields
  {
    if CreateRefused(req) then Err(MissingFields)
    else
      var header := InsertBundle(s, req.name.value, req.sellingPrice.value, StockOrZero(req.stock));
      Ok((AddItems(header.0, header.1, req.items.value), header.1))
  }

  /**
   * A created bundle takes the next id, is active, has the given name, price
   * and stock (0 when absent) and exactly the submitted rows with their
   * quantities defaulted; no other bundle changes.
   */
  lemma {:induction false} CreateStoresBundle(s: State, req: CreateRequest)
    requires Valid(s) && CreateEffect(s, req).Ok?
    ensures var (t, id) := CreateEffect(s, req).value;
      id == s.nextBundleId && id !in s.bundles
      && t == s.(bundles := s.bundles[id := Bundle(req.name.value, req.sellingPrice.value, StockOrZero(req.stock), true,
                                                   ItemsOf(req.items.value))],
                 nextBundleId := id + 1)
      && Valid(t)
  {
    var header := InsertBundle(s, req.name.value, req.sellingPrice.value, StockOrZero(req.stock));
    AddItemsAppends(header.0, header.1, req.items.value);
    assert [] + ItemsOf(req.items.value) == ItemsOf(req.items.value);
  }

  method CreateBundle(db: Db, req: CreateRequest) returns (res: Result<int, ApiError>)
    modifies db
    ensures CreateEffect(old(db.Snapshot()), req).Err? ==> res == Err(MissingFields) && db.Snapshot() == old(db.Snapshot())
    ensures CreateEffect(old(db.Snapshot()), req).Ok? ==>
      res == Ok(CreateEffect(old(db.Snapshot()), req).value.1) && db.Snapshot() == CreateEffect(old(db.Snapshot()), req).value.0
  {
    if CreateRefused(req) {
      return Err(MissingFields);
    }
    var inputs := req.items.value;
    var id := db.AddBundle(req.name.value, req.sellingPrice.value, StockOrZero(req.stock));
    ghost var header := db.Snapshot();
    var i := 0;
    while i < |inputs|
      invariant 0 <= i <= |inputs|
      invariant db.Snapshot() == AddItems(header, id, inputs[..i]) && id in db.bundles
    {
      var added := db.AddBundleItem(id, ItemOf(inputs[i]));
      AddItemsStep(header, id, inputs, i);
      i := i + 1;
    }
    assert inputs[..i] == inputs;
    res := Ok(id);
  }

  // ---------------------------------------------------------------------------
  // PUT /:id

  /** The body of an update, as the bundle page sends it; `items` is `None` when absent. */
  datatype UpdateRequest = UpdateRequest(name: string, sellingPrice: real, stock: int, items: Option<seq<ItemInput>>)

  const UpdateFailed := ApiError(500, "Failed to update bundle")

  /**
   * The header update, the delete of the old rows and the insert loop, all or
   * nothing: a missing `items` makes the loop throw, and a row for a missing
   * bundle violates its foreign key.
   */
  function UpdateEffect(s: State, bid: int, req: UpdateRequest): (r: Result<State, ApiError>)
    ensures r.Err? <==> req.items.None? || (bid !in s.bundles && req.items.value != [])
    ensures r.Err? ==> r.error == UpdateFailed
  {
    if req.items.None? || (bid !in s.bundles && req.items.value != []) then Err(UpdateFailed)
    else Ok(AddItems(ClearBundleItems(SetBundleInfo(s, bid, req.name, req.sellingPrice, req.stock), bid), bid, req.items.value))
  }

  /**
   * After an update the bundle's item list is exactly the submitted one, its
   * name, price and stock are the submitted ones, and nothing else changes;
   * updating a missing bundle with no items changes nothing.
   */
  lemma {:induction false} UpdateReplacesItems(s: State, bid: int, req: UpdateRequest)
    requires UpdateEffect(s, bid, req).Ok?
    ensures var t := UpdateEffect(s, bid, req).value;
      (bid in s.bundles ==>
         t == s.(bundles := s.bundles[bid := Bundle(req.name, req.sellingPrice, req.stock, s.bundles[bid].isActive,
                                                    ItemsOf(req.items.value))]))
      && (bid !in s.bundles ==> t == s)
  {
    var cleared := ClearBundleItems(SetBundleInfo(s, bid, req.name, req.sellingPrice, req.stock), bid);
    if bid in s.bundles {
      AddItemsAppends(cleared, bid, req.items.value);
      assert [] + ItemsOf(req.items.value) == ItemsOf(req.items.value);
      assert cleared.bundles[bid := cleared.bundles[bid].(items := ItemsOf(req.items.value))]
          == s.bundles[bid := Bundle(req.name, req.sellingPrice, req.stock, s.bundles[bid].isActive, ItemsOf(req.items.value))];
    } else {
      assert req.items.value == [];
    }
  }

  method UpdateBundle(db: Db, bid: int, req: UpdateRequest) returns (err: Option<ApiError>)
    modifies db
    ensures UpdateEffect(old(db.Snapshot()), bid, req).Err? ==> err == Some(UpdateFailed) && db.Snapshot() == old(db.Snapshot())
    ensures UpdateEffect(old(db.Snapshot()), bid, req).Ok? ==> err == None && db.Snapshot() == UpdateEffect(old(db.Snapshot()), bid, req).value
  {
    ghost var start := db.Snapshot();
    var saved := db.Snapshot();
    db.UpdateBundleInfo(bid, req.name, req.sellingPrice, req.stock);
    db.RemoveBundleItems(bid);
    if req.items.None? {
      db.Restore(saved);
      return Some(UpdateFailed);
    }
    var inputs := req.items.value;
    ghost var cleared := db.Snapshot();
    var i := 0;
    while i < |inputs|
      invariant 0 <= i <= |inputs|
      invariant db.Snapshot() == AddItems(cleared, bid, inputs[..i])
      invariant bid in db.bundles <==> bid in start.bundles
      invariant i > 0 ==> bid in start.bundles
    {
      var added := db.AddBundleItem(bid, ItemOf(inputs[i]));
      if !added {
        db.Restore(saved);
        return Some(UpdateFailed);
      }
      AddItemsStep(cleared, bid, inputs, i);
      i := i + 1;
    }
    assert inputs[..i] == inputs;
    err := None;
  }

  // ---------------------------------------------------------------------------
  // DELETE /:id

  method DeleteBundle(db: Db, bid: int)
    modifies db
    ensures db.Snapshot() == DeactivateBundle(old(db.Snapshot()), bid)
  {
    db.SetBundleInactive(bid);
  }

  /** A delete only clears the bundle's active flag; the bundle then no longer shows. */
  lemma {:induction false} DeleteDeactivates(s: State, bid: int)
    requires Valid(s)
    ensures var t := DeactivateBundle(s, bid);
      t.bundles.Keys == s.bundles.Keys
      && (bid in s.bundles ==> t.bundles[bid] == s.bundles[bid].(isActive := false))
      && (forall k :: k in s.bundles && k != bid ==> t.bundles[k] == s.bundles[k])
      && !Listed(t, bid) && GetBundle(t, bid) == Err(BundleNotFound)
  {
    var t := DeactivateBundle(s, bid);
    ListedIffActive(t, bid);
  }

  // ---------------------------------------------------------------------------
  // GET / and GET /:id

  /** An item row joined with its book. */
  datatype ItemView = ItemView(bookId: int, quantity: int, title: string, bookPrice: real)

  /** A bundle as the list and the detail return it. */
  datatype BundleView = BundleView(id: int, name: string, sellingPrice: real, stock: int, items: seq<ItemView>)

  /** `JOIN books`: the rows whose book exists, with its title and price. */
  function ItemViews(s: State, items: seq<BundleItem>): (r: seq<ItemView>)
    ensures |r| <= |items|
  {
    if items == [] then []
    else
      var it := items[|items| - 1];
      ItemViews(s, items[..|items| - 1])
      + if it.bookId in s.books then [ItemView(it.bookId, it.quantity, s.books[it.bookId].title, s.books[it.bookId].sellingPrice)]
        else []
  }

  function ViewOf(s: State, id: int): BundleView
    requires id in s.bundles
  {
    var b := s.bundles[id];
    BundleView(id, b.name, b.sellingPrice, b.stock, ItemViews(s, b.items))
  }

  predicate Active(s: State, id: int) {
    id in s.bundles && s.bundles[id].isActive
  }

  /** The active bundles with ids from `k` down to 1. */
  function ActiveFrom(s: State, k: int): (r: seq<BundleView>)
    ensures forall i :: 0 <= i < |r| ==> 0 < r[i].id <= k && Active(s, r[i].id) && r[i] == ViewOf(s, r[i].id)
    ensures forall i, j :: 0 <= i < j < |r| ==> r[i].id > r[j].id
    decreases k
  {
    if k <= 0 then []
    else if Active(s, k) then [ViewOf(s, k)] + ActiveFrom(s, k - 1)
    else ActiveFrom(s, k - 1)
  }

  /**
   * `WHERE is_active = TRUE ORDER BY created_at DESC`: ids are handed out in
   * creation order, so newest first is highest id first.
   */
  function ListBundles(s: State): seq<BundleView> {
    ActiveFrom(s, s.nextBundleId - 1)
  }

  predicate Listed(s: State, id: int) {
    exists i :: 0 <= i < |ListBundles(s)| && ListBundles(s)[i].id == id
  }

  /** Where an active bundle with an id in range sits in the list. */
  lemma {:induction false} ActiveFromHas(s: State, k: int, id: int) returns (i: nat)
    requires 0 < id <= k && Active(s, id)
    ensures i < |ActiveFrom(s, k)| && ActiveFrom(s, k)[i].id == id
    decreases k
  {
    if id < k {
      var j := ActiveFromHas(s, k - 1, id);
      if Active(s, k) {
        assert ActiveFrom(s, k) == [ViewOf(s, k)] + ActiveFrom(s, k - 1);
        i := j + 1;
      } else {
        i := j;
      }
    } else {
      assert ActiveFrom(s, k) == [ViewOf(s, k)] + ActiveFrom(s, k - 1);
      i := 0;
    }
  }

  /** The list shows a bundle exactly when it exists and is active, newest first, each once. */
  lemma {:induction false} ListedIffActive(s: State, id: int)
    requires Valid(s)
    ensures Listed(s, id) <==> Active(s, id)
  {
    if Active(s, id) {
      var i := ActiveFromHas(s, s.nextBundleId - 1, id);
      assert ListBundles(s)[i].id == id;
    }
  }

  /** `bundles.length === 0` gives 404. */
  const BundleNotFound := ApiError(404, "Bundle not found")

  function GetBundle(s: State, id: int): (r: Result<BundleView, ApiError>)
    ensures r.Err? <==> !Active(s, id)
    ensures r.Err? ==> r.error == BundleNotFound
  {
    if Active(s, id) then Ok(ViewOf(s, id)) else Err(BundleNotFound)
  }

  /** The detail of a bundle is the entry the list shows for it, and exists exactly when the list shows one. */
  lemma {:induction false} GetAgreesWithList(s: State, id: int)
    requires Valid(s)
    ensures GetBundle(s, id).Ok? <==> Listed(s, id)
    ensures forall i :: 0 <= i < |ListBundles(s)| && ListBundles(s)[i].id == id ==> GetBundle(s, id) == Ok(ListBundles(s)[i])
  {
    ListedIffActive(s, id);
  }

  // ---------------------------------------------------------------------------
  // POST /:id/sell

  const BundleShort := ApiError(400, "Insufficient bundle stock")

  const SellFailed := ApiError(500, "Failed to sell bundle")

  function BookShort(id: int): ApiError {
    ApiError(400, "Insufficient stock for book ID " + IntToString(id))
  }

  function SoldReason(name: string): string {
    "Sold as part of bundle: " + name
  }

  /** `const { quantity = 1 } = req.body`: the default applies only to an absent quantity. */
  function SellQuantity(quantity: Option<int>): int {
    if quantity.Some? then quantity.value else 1
  }

  /** The item query of the sale: the bundle's rows whose book exists (`JOIN books`). */
  function JoinedItems(s: State, items: seq<BundleItem>): (r: seq<BundleItem>)
    ensures |r| <= |items|
    ensures forall i :: 0 <= i < |r| ==> r[i].bookId in s.books
  {
    if items == [] then []
    else
      var it := items[|items| - 1];
      JoinedItems(s, items[..|items| - 1]) + if it.bookId in s.books then [it] else []
  }

  lemma {:induction false} JoinedItemsMembers(s: State, items: seq<BundleItem>, x: BundleItem)
    ensures x in JoinedItems(s, items) <==> x in items && x.bookId in s.books
  {
    if items != [] {
      var init := items[..|items| - 1];
      JoinedItemsMembers(s, init, x);
      assert items == init + [items[|items| - 1]];
    }
  }

  /** What the rows of book `b` take off it when `n` bundles are sold: Σ quantity × n. */
  function Demand(rows: seq<BundleItem>, b: int, n: int): int {
    if rows == [] then 0
    else Demand(rows[..|rows| - 1], b, n) + if rows[|rows| - 1].bookId == b then rows[|rows| - 1].quantity * n else 0
  }

  /** The route's test of one row: its book has less stock than the row alone needs. */
  predicate RowShortAlone(s: State, item: BundleItem, n: int)
    requires item.bookId in s.books
  {
    s.books[item.bookId].stockQty < item.quantity * n
  }

  /**
   * The corrected test of one row: the row is short alone, or its book has
   * less stock than all of the book's rows need together.
   */
  predicate RowShort(s: State, rows: seq<BundleItem>, item: BundleItem, n: int)
    requires item.bookId in s.books
  {
    RowShortAlone(s, item, n) || s.books[item.bookId].stockQty < Demand(rows, item.bookId, n)
  }

  /** The first row from `i` on that fails the corrected test, scanning in row order. */
  function FirstShortFrom(s: State, rows: seq<BundleItem>, n: int, i: nat): (r: Option<nat>)
    requires forall j :: 0 <= j < |rows| ==> rows[j].bookId in s.books
    ensures r.None? <==> forall j :: i <= j < |rows| ==> !RowShort(s, rows, rows[j], n)
    ensures r.Some? ==> i <= r.value < |rows| && RowShort(s, rows, rows[r.value], n)
    ensures r.Some? ==> forall j :: i <= j < r.value ==> !RowShort(s, rows, rows[j], n)
    decreases |rows| - i
  {
    if i >= |rows| then None
    else if RowShort(s, rows, rows[i], n) then Some(i)
    else FirstShortFrom(s, rows, n, i + 1)
  }

  /** Why a sale is refused before anything is written, if it is. */
  function SellRefusal(s: State, bid: int, n: int): Option<ApiError> {
    if !Active(s, bid) then Some(BundleNotFound)
    else if s.bundles[bid].stock < n then Some(BundleShort)
    else
      var rows := JoinedItems(s, s.bundles[bid].items);
      var short := FirstShortFrom(s, rows, n, 0);
      if short.Some? then Some(BookShort(rows[short.value].bookId)) else None
  }

  /** The decrement loop: each row takes quantity × n off its book and logs it. */
  function ApplySold(s: State, rows: seq<BundleItem>, n: int, reason: string, now: int): (r: State)
    ensures r.bundles == s.bundles && r.ledgerEnabled == s.ledgerEnabled && r.books.Keys == s.books.Keys
  {
    if rows == [] then s
    else
      var it := rows[|rows| - 1];
      var t := ApplySold(s, rows[..|rows| - 1], n, reason, now);
      Log(AddBookStock(t, it.bookId, -(it.quantity * n)), LedgerEntry(it.bookId, -(it.quantity * n), reason, now))
  }

  /** One more row of the decrement loop extends `ApplySold` by that row's update and ledger entry. */
  lemma {:induction false} ApplySoldStep(s: State, rows: seq<BundleItem>, i: int, n: int, reason: string, now: int, before: State, after: State)
    requires 0 <= i < |rows|
    requires before == ApplySold(s, rows[..i], n, reason, now)
    requires after == Log(AddBookStock(before, rows[i].bookId, -(rows[i].quantity * n)),
                          LedgerEntry(rows[i].bookId, -(rows[i].quantity * n), reason, now))
    ensures after == ApplySold(s, rows[..i + 1], n, reason, now)
  {
    assert rows[..i + 1][..i] == rows[..i];
  }

  /** The ledger rows of the decrement loop. */
  function SoldEntries(rows: seq<BundleItem>, n: int, reason: string, now: int): (r: seq<LedgerEntry>)
    ensures |r| == |rows|
  {
    if rows == [] then []
    else
      var it := rows[|rows| - 1];
      SoldEntries(rows[..|rows| - 1], n, reason, now) + [LedgerEntry(it.bookId, -(it.quantity * n), reason, now)]
  }

  /**
   * A sale: the refusals, then the bundle decrement and the loop over its
   * rows, all rolled back when a ledger insert fails (that insert is not
   * guarded, unlike the other routes').
   */
  function SellEffect(s: State, bid: int, n: int, now: int): (r: Result<State, ApiError>)
    ensures SellRefusal(s, bid, n).Some? ==> r == Err(SellRefusal(s, bid, n).value)
  {
    var refusal := SellRefusal(s, bid, n);
    if refusal.Some? then Err(refusal.value)
    else
      var rows := JoinedItems(s, s.bundles[bid].items);
      if !s.ledgerEnabled && rows != [] then Err(SellFailed)
      else Ok(ApplySold(AddBundleStock(s, bid, -n), rows, n, SoldReason(s.bundles[bid].name), now))
  }

  lemma {:induction false} ApplySoldStock(s: State, rows: seq<BundleItem>, n: int, reason: string, now: int, b: int)
    ensures StockOf(ApplySold(s, rows, n, reason, now), b) == StockOf(s, b) - (if b in s.books then Demand(rows, b, n) else 0)
  {
    if rows != [] {
      var it := rows[|rows| - 1];
      var t := ApplySold(s, rows[..|rows| - 1], n, reason, now);
      ApplySoldStock(s, rows[..|rows| - 1], n, reason, now, b);
      AddBookStockOf(t, it.bookId, -(it.quantity * n), b);
    }
  }

  lemma {:induction false} ApplySoldLedger(s: State, rows: seq<BundleItem>, n: int, reason: string, now: int)
    requires s.ledgerEnabled && forall i :: 0 <= i < |rows| ==> rows[i].bookId in s.books
    ensures ApplySold(s, rows, n, reason, now).ledger == s.ledger + SoldEntries(rows, n, reason, now)
  {
    if rows != [] {
      var init := rows[..|rows| - 1];
      assert forall i :: 0 <= i < |init| ==> init[i] == rows[i];
      ApplySoldLedger(s, init, n, reason, now);
    } else {
      assert s.ledger + [] == s.ledger;
    }
  }

  /** A book no row names is left as it was. */
  lemma {:induction false} ApplySoldUntouched(s: State, rows: seq<BundleItem>, n: int, reason: string, now: int, b: int)
    requires b in s.books && forall j :: 0 <= j < |rows| ==> rows[j].bookId != b
    ensures ApplySold(s, rows, n, reason, now).books[b] == s.books[b]
  {
    if rows != [] {
      var init := rows[..|rows| - 1];
      assert forall j :: 0 <= j < |init| ==> init[j] == rows[j];
      ApplySoldUntouched(s, init, n, reason, now, b);
    }
  }

  /** Every row a sale passes has its book's whole demand in stock. */
  lemma {:induction false} DemandCovered(s: State, rows: seq<BundleItem>, n: int, b: int)
    requires forall j :: 0 <= j < |rows| ==> rows[j].bookId in s.books
    requires FirstShortFrom(s, rows, n, 0).None?
    requires exists j :: 0 <= j < |rows| && rows[j].bookId == b
    ensures b in s.books && s.books[b].stockQty >= Demand(rows, b, n)
  {
    var j :| 0 <= j < |rows| && rows[j].bookId == b;
    assert !RowShort(s, rows, rows[j], n);
  }

  /** The demand of a book no row names is zero. */
  lemma {:induction false} DemandAbsent(rows: seq<BundleItem>, b: int, n: int)
    requires forall j :: 0 <= j < |rows| ==> rows[j].bookId != b
    ensures Demand(rows, b, n) == 0
  {
    if rows != [] {
      DemandAbsent(rows[..|rows| - 1], b, n);
    }
  }

  /** An inactive or missing bundle is 404 and short bundle stock is 400, before any book is looked at. */
  lemma {:induction false} SellRefusals(s: State, bid: int, n: int)
    ensures !Active(s, bid) <==> SellEffect(s, bid, n, 0) == Err(BundleNotFound)
    ensures Active(s, bid) && s.bundles[bid].stock < n ==> SellEffect(s, bid, n, 0) == Err(BundleShort)
    ensures Active(s, bid) && s.bundles[bid].stock >= n ==>
      (SellRefusal(s, bid, n).Some? <==>
         exists j :: 0 <= j < |JoinedItems(s, s.bundles[bid].items)|
           && RowShort(s, JoinedItems(s, s.bundles[bid].items), JoinedItems(s, s.bundles[bid].items)[j], n))
  {
    if Active(s, bid) && s.bundles[bid].stock >= n {
      var rows := JoinedItems(s, s.bundles[bid].items);
      var short := FirstShortFrom(s, rows, n, 0);
      if short.Some? {
        assert BookShort(rows[short.value].bookId).status == 400;
        var k := short.value;
        assert 0 <= k < |rows| && RowShort(s, rows, rows[k], n);
        assert exists j :: 0 <= j < |JoinedItems(s, s.bundles[bid].items)| && RowShort(s, JoinedItems(s, s.bundles[bid].items), JoinedItems(s, s.bundles[bid].items)[j], n);
      } else {
        assert SellRefusal(s, bid, n).None?;
        assert forall j :: 0 <= j < |rows| ==> !RowShort(s, rows, rows[j], n);
      }
    }
  }

  /**
   * A successful sale takes n off the bundle and Σ quantity × n off each of
   * its books, every touched book stays at or above zero, and no other book
   * or bundle changes.
   */
  lemma {:induction false} SellStock(s: State, bid: int, n: int, now: int)
    requires SellEffect(s, bid, n, now).Ok?
    ensures var t, rows := SellEffect(s, bid, n, now).value, JoinedItems(s, s.bundles[bid].items);
      t.bundles == s.bundles[bid := s.bundles[bid].(stock := s.bundles[bid].stock - n)]
      && t.books.Keys == s.books.Keys
      && (forall b :: b in s.books ==> StockOf(t, b) == StockOf(s, b) - Demand(rows, b, n))
      && (forall j :: 0 <= j < |rows| ==> StockOf(t, rows[j].bookId) >= 0)
      && (forall b :: b in s.books && (forall j :: 0 <= j < |rows| ==> rows[j].bookId != b) ==> t.books[b] == s.books[b])
  {
    var rows := JoinedItems(s, s.bundles[bid].items);
    var s1 := AddBundleStock(s, bid, -n);
    var t := SellEffect(s, bid, n, now).value;
    forall b | b in s.books
      ensures StockOf(t, b) == StockOf(s, b) - Demand(rows, b, n)
    {
      ApplySoldStock(s1, rows, n, SoldReason(s.bundles[bid].name), now, b);
    }
    forall j | 0 <= j < |rows|
      ensures StockOf(t, rows[j].bookId) >= 0
    {
      DemandCovered(s, rows, n, rows[j].bookId);
    }
    forall b | b in s.books && (forall j :: 0 <= j < |rows| ==> rows[j].bookId != b)
      ensures t.books[b] == s.books[b]
    {
      ApplySoldUntouched(s1, rows, n, SoldReason(s.bundles[bid].name), now, b);
    }
  }

  /** A successful sale logs one entry per joined row, of −quantity × n, with a reason naming the bundle. */
  lemma {:induction false} SellLedger(s: State, bid: int, n: int, now: int)
    requires SellEffect(s, bid, n, now).Ok?
    ensures var rows := JoinedItems(s, s.bundles[bid].items);
      var added := SoldEntries(rows, n, SoldReason(s.bundles[bid].name), now);
      SellEffect(s, bid, n, now).value.ledger == s.ledger + added
      && forall j :: 0 <= j < |added| ==> added[j].bookId == rows[j].bookId && added[j].change == -(rows[j].quantity * n)
                                           && added[j].reason == "Sold as part of bundle: " + s.bundles[bid].name
  {
    var rows := JoinedItems(s, s.bundles[bid].items);
    var s1 := AddBundleStock(s, bid, -n);
    if rows == [] {
      assert s.ledger + [] == s.ledger;
    } else {
      ApplySoldLedger(s1, rows, n, SoldReason(s.bundles[bid].name), now);
    }
    SoldEntriesAt(rows, n, SoldReason(s.bundles[bid].name), now);
  }

  lemma {:induction false} SoldEntriesAt(rows: seq<BundleItem>, n: int, reason: string, now: int)
    ensures forall j :: 0 <= j < |rows| ==>
      SoldEntries(rows, n, reason, now)[j] == LedgerEntry(rows[j].bookId, -(rows[j].quantity * n), reason, now)
  {
    if rows != [] {
      var init := rows[..|rows| - 1];
      SoldEntriesAt(init, n, reason, now);
      assert forall j :: 0 <= j < |init| ==> init[j] == rows[j];
    }
  }

  /** The route handler; every refusal comes before the first write. */
  method SellBundle(db: Db, bid: int, quantity: Option<int>, now: int) returns (err: Option<ApiError>)
    modifies db
    ensures var n := SellQuantity(quantity);
      SellEffect(old(db.Snapshot()), bid, n, now).Err? ==>
        err == Some(SellEffect(old(db.Snapshot()), bid, n, now).error) && db.Snapshot() == old(db.Snapshot())
    ensures var n := SellQuantity(quantity);
      SellEffect(old(db.Snapshot()), bid, n, now).Ok? ==>
        err == None && db.Snapshot() == SellEffect(old(db.Snapshot()), bid, n, now).value
  {
    var n := SellQuantity(quantity);
    ghost var s := db.Snapshot();
    if bid !in db.bundles || !db.bundles[bid].isActive {
      return Some(BundleNotFound);
    }
    var bundle := db.bundles[bid];
    if bundle.stock < n {
      return Some(BundleShort);
    }
    var rows := JoinedItems(db.Snapshot(), bundle.items);
    var short := FirstShort(db, rows, n);
    if short.Some? {
      return Some(BookShort(rows[short.value].bookId));
    }
    assert SellRefusal(s, bid, n) == None;
    var saved := db.Snapshot();
    db.UpdateBundleStock(bid, -n);
    var ok := RecordSoldRows(db, rows, n, SoldReason(bundle.name), now);
    if !ok {
      db.Restore(saved);
      return Some(SellFailed);
    }
    err := None;
  }

  /**
   * The stock check loop of a sale, in row order, with the corrected test:
   * the route's per-row test, and the book's demand over all rows.
   */
  method FirstShort(db: Db, rows: seq<BundleItem>, n: int) returns (short: Option<nat>)
    requires forall j :: 0 <= j < |rows| ==> rows[j].bookId in db.books
    ensures short == FirstShortFrom(db.Snapshot(), rows, n, 0)
  {
    var i := 0;
    while i < |rows|
      invariant 0 <= i <= |rows|
      invariant FirstShortFrom(db.Snapshot(), rows, n, 0) == FirstShortFrom(db.Snapshot(), rows, n, i)
    {
      var stock := db.books[rows[i].bookId].stockQty;
      if stock < rows[i].quantity * n || stock < Demand(rows, rows[i].bookId, n) {
        return Some(i);
      }
      i := i + 1;
    }
    short := None;
  }

  /** One row of the decrement loop: the book update, then its ledger insert. */
  method RecordSoldRow(db: Db, it: BundleItem, n: int, reason: string, now: int) returns (logged: bool)
    modifies db
    ensures logged <==> old(db.ledgerEnabled) && it.bookId in old(db.books)
    ensures db.Snapshot() == Log(AddBookStock(old(db.Snapshot()), it.bookId, -(it.quantity * n)),
                                 LedgerEntry(it.bookId, -(it.quantity * n), reason, now))
  {
    db.UpdateBookStock(it.bookId, -(it.quantity * n));
    logged := db.AppendLedger(LedgerEntry(it.bookId, -(it.quantity * n), reason, now));
  }

  /** The decrement loop; `ok` is false when a ledger insert fails, which happens at the first row without the table. */
  method RecordSoldRows(db: Db, rows: seq<BundleItem>, n: int, reason: string, now: int) returns (ok: bool)
    requires forall j :: 0 <= j < |rows| ==> rows[j].bookId in db.books
    modifies db
    ensures ok <==> old(db.ledgerEnabled) || rows == []
    ensures ok ==> db.Snapshot() == ApplySold(old(db.Snapshot()), rows, n, reason, now)
  {
    ghost var start := db.Snapshot();
    var i := 0;
    while i < |rows|
      invariant 0 <= i <= |rows|
      invariant db.Snapshot() == ApplySold(start, rows[..i], n, reason, now)
      invariant i > 0 ==> start.ledgerEnabled
    {
      ghost var before := db.Snapshot();
      assert before.ledgerEnabled == start.ledgerEnabled && rows[i].bookId in before.books;
      var logged := RecordSoldRow(db, rows[i], n, reason, now);
      if !logged {
        return false;
      }
      ApplySoldStep(start, rows, i, n, reason, now, before, db.Snapshot());
      i := i + 1;
    }
    assert rows[..i] == rows;
    ok := true;
  }

  // ---------------------------------------------------------------------------
  // The per-row check as written

  /** The first row from `i` on that fails the route's per-row test, scanning in row order. */
  function FirstShortAloneFrom(s: State, rows: seq<BundleItem>, n: int, i: nat): (r: Option<nat>)
    requires forall j :: 0 <= j < |rows| ==> rows[j].bookId in s.books
    ensures r.None? <==> forall j :: i <= j < |rows| ==> !RowShortAlone(s, rows[j], n)
    ensures r.Some? ==> i <= r.value < |rows| && RowShortAlone(s, rows[r.value], n)
    ensures r.Some? ==> forall j :: i <= j < r.value ==> !RowShortAlone(s, rows[j], n)
    decreases |rows| - i
  {
    if i >= |rows| then None
    else if RowShortAlone(s, rows[i], n) then Some(i)
    else FirstShortAloneFrom(s, rows, n, i + 1)
  }

  /** As written, each joined row is checked alone against the stock read before the sale. */
  function SellRefusalAsWritten(s: State, bid: int, n: int): Option<ApiError> {
    if !Active(s, bid) then Some(BundleNotFound)
    else if s.bundles[bid].stock < n then Some(BundleShort)
    else
      var rows := JoinedItems(s, s.bundles[bid].items);
      var short := FirstShortAloneFrom(s, rows, n, 0);
      if short.Some? then Some(BookShort(rows[short.value].bookId)) else None
  }

  /** Rows that name pairwise distinct books. */
  predicate DistinctBooks(rows: seq<BundleItem>) {
    forall i, j :: 0 <= i < j < |rows| ==> rows[i].bookId != rows[j].bookId
  }

  /** With distinct books, a book's demand is its one row's. */
  lemma {:induction false} DemandOfDistinct(rows: seq<BundleItem>, k: int, n: int)
    requires DistinctBooks(rows) && 0 <= k < |rows|
    ensures Demand(rows, rows[k].bookId, n) == rows[k].quantity * n
    decreases |rows|
  {
    var init := rows[..|rows| - 1];
    if k == |rows| - 1 {
      DemandAbsent(init, rows[k].bookId, n);
    } else {
      assert init[k] == rows[k];
      DemandOfDistinct(init, k, n);
    }
  }

  /** With distinct books, the corrected scan and the route's scan stop at the same row. */
  lemma {:induction false} FirstShortAgree(s: State, rows: seq<BundleItem>, n: int, i: nat)
    requires forall j :: 0 <= j < |rows| ==> rows[j].bookId in s.books
    requires DistinctBooks(rows)
    ensures FirstShortFrom(s, rows, n, i) == FirstShortAloneFrom(s, rows, n, i)
    decreases |rows| - i
  {
    if i < |rows| {
      DemandOfDistinct(rows, i, n);
      FirstShortAgree(s, rows, n, i + 1);
    }
  }

  /**
   * When the bundle's joined rows name distinct books, the corrected check
   * refuses exactly the sales the route refuses, with the same error.
   */
  lemma {:induction false} SellRefusalAgrees(s: State, bid: int, n: int)
    requires Active(s, bid) ==> DistinctBooks(JoinedItems(s, s.bundles[bid].items))
    ensures SellRefusal(s, bid, n) == SellRefusalAsWritten(s, bid, n)
  {
    if Active(s, bid) && s.bundles[bid].stock >= n {
      FirstShortAgree(s, JoinedItems(s, s.bundles[bid].items), n, 0);
    }
  }

  /** The correction only adds refusals: every sale the route refuses is refused. */
  lemma {:induction false} CorrectionOnlyAddsRefusals(s: State, bid: int, n: int)
    ensures SellRefusalAsWritten(s, bid, n).Some? ==> SellRefusal(s, bid, n).Some?
  {
    if Active(s, bid) && s.bundles[bid].stock >= n {
      var rows := JoinedItems(s, s.bundles[bid].items);
      var short := FirstShortAloneFrom(s, rows, n, 0);
      if short.Some? {
        assert RowShort(s, rows, rows[short.value], n);
      }
    }
  }

  /**
   * A bundle that lists the same book in two rows passes the per-row check
   * with stock for one row only, and the sale then drives that book to −1;
   * the cumulative check refuses it.
   */
  lemma {:induction false} AsWrittenDrivesStockNegative()
    ensures var s := State(map[1 := Book("isbn", "t", "a", "c", 1.0, 2.0, 1)],
                           map[1 := Bundle("B", 3.0, 5, true, [BundleItem(1, 1), BundleItem(1, 1)])],
                           map[], [], [], true, [], map[], 2, 1, 1, 1);
      SellRefusalAsWritten(s, 1, 1).None?
      && StockOf(ApplySold(AddBundleStock(s, 1, -1), JoinedItems(s, s.bundles[1].items), 1, SoldReason("B"), 0), 1) == -1
      && SellRefusal(s, 1, 1).Some?
  {
    var s := State(map[1 := Book("isbn", "t", "a", "c", 1.0, 2.0, 1)],
                   map[1 := Bundle("B", 3.0, 5, true, [BundleItem(1, 1), BundleItem(1, 1)])],
                   map[], [], [], true, [], map[], 2, 1, 1, 1);
    var items := [BundleItem(1, 1), BundleItem(1, 1)];
    assert items[..1] == [BundleItem(1, 1)] && items[..1][..0] == [];
    var rows := JoinedItems(s, items);
    assert rows == items;
    assert Demand(rows, 1, 1) == 2;
    ApplySoldStock(AddBundleStock(s, 1, -1), rows, 1, SoldReason("B"), 0, 1);
    assert RowShort(s, rows, rows[0], 1);
  }
}
