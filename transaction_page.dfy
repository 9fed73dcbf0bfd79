// The sale draft of book-store-app/src/pages/TransactionPage.jsx: adding a
// book to the draft (merging with an entry for the same book and checking
// the stock shown in the catalogue), removing a book, the draft total, and
// the body posted to POST /api/transactions.
module TransactionPage {
  import opened Wrappers
  import opened Text
  import TransactionRoutes

  /** A book of the catalogue list the page fetched. */
  datatype BookOption = BookOption(bookId: int, isbn: string, title: string, author: string,
                                   sellingPrice: real, stockQty: int)

  /** One draft entry. */
  datatype DraftItem = DraftItem(bookId: int, isbn: string, title: string, author: string,
                                 unitPrice: real, quantity: int, total: real)

  /** `draftItems.reduce((sum, it) => sum + it.total, 0)`. */
  function DraftTotal(items: seq<DraftItem>): real {
    if items == [] then 0.0 else DraftTotal(items[..|items| - 1]) + items[|items| - 1].total
  }

  /** `findIndex(it => it.book_id === id)`: the first entry for the book, or -1. */
  function FindIndex(items: seq<DraftItem>, id: int): (r: int)
    ensures -1 <= r < |items|
    ensures r >= 0 ==> items[r].bookId == id && forall j :: 0 <= j < r ==> items[j].bookId != id
    ensures r == -1 ==> forall j :: 0 <= j < |items| ==> items[j].bookId != id
  {
    if items == [] then -1
    else if items[0].bookId == id then 0
    else
      var k := FindIndex(items[1..], id);
      if k == -1 then -1 else k + 1
  }

  /** No two entries are for the same book. */
  predicate Unique(items: seq<DraftItem>) {
    forall i, j :: 0 <= i < j < |items| ==> items[i].bookId != items[j].bookId
  }

  /** Every entry's total is its quantity times its unit price. */
  predicate Priced(items: seq<DraftItem>) {
    forall i :: 0 <= i < |items| ==> items[i].total == items[i].quantity as real * items[i].unitPrice
  }

  /** Every entry has a positive quantity. */
  predicate Positive(items: seq<DraftItem>) {
    forall i :: 0 <= i < |items| ==> items[i].quantity >= 1
  }

  /** The quantity of the book in the draft, 0 without an entry. */
  function EntryQuantity(items: seq<DraftItem>, id: int): int {
    var i := FindIndex(items, id);
    if i >= 0 then items[i].quantity else 0
  }

  /** `quantity || '1'`. */
  function OrOne(text: string): string {
    if text == "" then "1" else text
  }

  /** `Math.max(1, parseInt(quantity || '1', 10))` for a quantity that parses. */
  function SafeQuantity(text: string): (q: int)
    requires ParseInt(OrOne(text)).Some?
    ensures q >= 1
  {
    var v := ParseInt(OrOne(text)).value;
    if v < 1 then 1 else v
  }

  /** The quantity input's blur handler: `String(Math.max(1, isNaN(v) ? 1 : v))`. */
  function NormaliseQuantity(text: string): string {
    var v := ParseInt(OrOne(text));
    IntToString(if v.None? || v.value < 1 then 1 else v.value)
  }

  /** After the blur handler the quantity parses, to a positive number that normalising again keeps. */
  lemma {:induction false} NormalisedQuantityParses(text: string)
    ensures var t := NormaliseQuantity(text);
      ParseInt(OrOne(t)).Some? && SafeQuantity(t) >= 1 && NormaliseQuantity(t) == t
      && (ParseInt(OrOne(text)).Some? ==> SafeQuantity(t) == SafeQuantity(text))
  {
    var v := ParseInt(OrOne(text));
    var n := if v.None? || v.value < 1 then 1 else v.value;
    ParseIntOfIntToString(n);
  }

  /** An entry with `q` more copies, its total recomputed at price `p`. */
  function Merged(it: DraftItem, q: int, p: real): DraftItem {
    it.(quantity := it.quantity + q, total := (it.quantity + q) as real * p)
  }

  function NewItem(book: BookOption, q: int): DraftItem {
    DraftItem(book.bookId, book.isbn, book.title, book.author, book.sellingPrice, q, q as real * book.sellingPrice)
  }

  /**
   * The draft after adding `q` copies of the book, or `None` when the stock is
   * short: the quantity alone, or merged with the book's entry, must not
   * exceed the book's stock.
   */
  function Added(items: seq<DraftItem>, book: BookOption, q: int): Option<seq<DraftItem>> {
    if q > book.stockQty then None
    else
      var i := FindIndex(items, book.bookId);
      if i >= 0 then
        if items[i].quantity + q > book.stockQty then None
        else Some(items[i := Merged(items[i], q, book.sellingPrice)])
      else Some(items + [NewItem(book, q)])
  }

  /** `Stok <title> tidak mencukupi.` */
  function StockMessage(title: string): string {
    "Stok " + title + " tidak mencukupi."
  }

  const EmptyDraft := "Daftar item kosong."

  /** The total of a draft after one entry is replaced. */
  lemma {:induction false} DraftTotalUpdate(items: seq<DraftItem>, i: int, x: DraftItem)
    requires 0 <= i < |items|
    ensures DraftTotal(items[i := x]) == DraftTotal(items) - items[i].total + x.total
    decreases |items|
  {
    var n := |items| - 1;
    if i < n {
      assert items[i := x][..n] == items[..n][i := x];
      DraftTotalUpdate(items[..n], i, x);
    } else {
      assert items[i := x][..n] == items[..n];
    }
  }

  lemma {:induction false} DraftTotalAppend(items: seq<DraftItem>, x: DraftItem)
    ensures DraftTotal(items + [x]) == DraftTotal(items) + x.total
  {
    assert (items + [x])[..|items|] == items;
  }

  /**
   * An add succeeds exactly when the book's merged quantity stays within its
   * stock; then the draft still has one entry per book, that entry holds the
   * old quantity plus `q`, every other entry is kept, a new book goes at the
   * end, and (with consistent prices) the total grows by `q` times the price.
   */
  lemma {:induction false} AddedOutcome(items: seq<DraftItem>, book: BookOption, q: int)
    requires Unique(items) && Positive(items) && q >= 1
    ensures var r := Added(items, book, q);
      (r.Some? <==> EntryQuantity(items, book.bookId) + q <= book.stockQty)
      && (r.Some? ==>
            Unique(r.value) && Positive(r.value)
            && EntryQuantity(r.value, book.bookId) == EntryQuantity(items, book.bookId) + q
            && (forall j :: 0 <= j < |items| && items[j].bookId != book.bookId ==> r.value[j] == items[j])
            && (FindIndex(items, book.bookId) == -1 ==> r.value == items + [NewItem(book, q)])
            && (FindIndex(items, book.bookId) >= 0 ==> |r.value| == |items|))
  {
    var i := FindIndex(items, book.bookId);
    if i == -1 && q <= book.stockQty {
      var r := items + [NewItem(book, q)];
      assert r[|items|].bookId == book.bookId;
      assert forall j :: 0 <= j < |items| ==> r[j] == items[j];
      assert FindIndex(r, book.bookId) == |items|;
    } else if i >= 0 && items[i].quantity + q <= book.stockQty {
      assert items[i].quantity >= 1;
      var r := Added(items, book, q).value;
      assert r[i].bookId == book.bookId;
      assert forall j :: 0 <= j < |items| && j != i ==> r[j] == items[j];
      assert FindIndex(r, book.bookId) == i;
    }
  }

  /** `(a + b) * p == a * p + b * p` for the merged entry's total. */
  lemma {:induction false} MergedTotal(a: int, b: int, p: real)
    ensures (a + b) as real * p == a as real * p + b as real * p
  {
  }

  lemma {:induction false} PricedUpdate(items: seq<DraftItem>, i: int, x: DraftItem)
    requires Priced(items) && 0 <= i < |items| && x.total == x.quantity as real * x.unitPrice
    ensures Priced(items[i := x])
  {
  }

  lemma {:induction false} PricedAppend(items: seq<DraftItem>, x: DraftItem)
    requires Priced(items) && x.total == x.quantity as real * x.unitPrice
    ensures Priced(items + [x])
  {
  }

  /** A merge into entry `i` at the book's price raises the total by `q` times the price. */
  lemma {:induction false} MergeTotal(items: seq<DraftItem>, i: int, q: int, book: BookOption, merged: seq<DraftItem>)
    requires 0 <= i < |items|
    requires items[i].total == items[i].quantity as real * book.sellingPrice
    requires merged == items[i := Merged(items[i], q, book.sellingPrice)]
    ensures DraftTotal(merged) == DraftTotal(items) + q as real * book.sellingPrice
  {
    var x := Merged(items[i], q, book.sellingPrice);
    MergedTotal(items[i].quantity, q, book.sellingPrice);
    DraftTotalUpdate(items, i, x);
  }

  lemma {:induction false} AddedMergeValue(items: seq<DraftItem>, book: BookOption, q: int, i: int)
    requires i == FindIndex(items, book.bookId) && i >= 0
    requires Added(items, book, q).Some?
    ensures Added(items, book, q).value == items[i := Merged(items[i], q, book.sellingPrice)]
  {
  }

  /** A merge at the entry's own price keeps every total right. */
  lemma {:induction false} MergePriced(items: seq<DraftItem>, i: int, q: int)
    requires Priced(items) && 0 <= i < |items|
    ensures Priced(items[i := Merged(items[i], q, items[i].unitPrice)])
  {
    PricedUpdate(items, i, Merged(items[i], q, items[i].unitPrice));
  }

  /**
   * An add raises the draft total by `q` times the book's price, when the
   * book's entry, if any, has its total at that price.
   */
  lemma {:induction false} AddedDraftTotal(items: seq<DraftItem>, book: BookOption, q: int)
    requires FindIndex(items, book.bookId) >= 0 ==>
      items[FindIndex(items, book.bookId)].total == items[FindIndex(items, book.bookId)].quantity as real * book.sellingPrice
    requires Added(items, book, q).Some?
    ensures DraftTotal(Added(items, book, q).value) == DraftTotal(items) + q as real * book.sellingPrice
  {
    var i := FindIndex(items, book.bookId);
    if i >= 0 {
      AddedMergeTotal(items, book, q, i, Added(items, book, q).value);
    } else {
      AddedNewTotal(items, book, q, Added(items, book, q).value);
    }
  }

  lemma {:induction false} AddedMergeTotal(items: seq<DraftItem>, book: BookOption, q: int, i: int, r: seq<DraftItem>)
    requires i == FindIndex(items, book.bookId) && i >= 0
    requires items[i].total == items[i].quantity as real * book.sellingPrice
    requires Added(items, book, q) == Some(r)
    ensures DraftTotal(r) == DraftTotal(items) + q as real * book.sellingPrice
  {
    AddedMergeValue(items, book, q, i);
    MergeTotal(items, i, q, book, r);
  }

  lemma {:induction false} AddedNewTotal(items: seq<DraftItem>, book: BookOption, q: int, r: seq<DraftItem>)
    requires FindIndex(items, book.bookId) < 0
    requires Added(items, book, q) == Some(r)
    ensures DraftTotal(r) == DraftTotal(items) + q as real * book.sellingPrice
  {
    var x := NewItem(book, q);
    assert r == items + [x];
    DraftTotalAppend(items, x);
  }

  /** An add keeps every total right when the book's entry is at the book's price. */
  lemma {:induction false} AddedPriced(items: seq<DraftItem>, book: BookOption, q: int)
    requires Priced(items)
    requires FindIndex(items, book.bookId) >= 0 ==> items[FindIndex(items, book.bookId)].unitPrice == book.sellingPrice
    requires Added(items, book, q).Some?
    ensures Priced(Added(items, book, q).value)
  {
    var i := FindIndex(items, book.bookId);
    if i >= 0 {
      AddedMergeValue(items, book, q, i);
      MergePriced(items, i, q);
    } else {
      assert Added(items, book, q).value == items + [NewItem(book, q)];
      PricedAppend(items, NewItem(book, q));
    }
  }

  /** `draftItems.filter(it => it.book_id !== bookId)`. */
  function Removed(items: seq<DraftItem>, id: int): (r: seq<DraftItem>)
    ensures |r| <= |items|
  {
    if items == [] then []
    else
      var init := Removed(items[..|items| - 1], id);
      var last := items[|items| - 1];
      if last.bookId == id then init else init + [last]
  }

  /** `Removed` on a draft with one more entry at the end. */
  lemma {:induction false} RemovedSnoc(init: seq<DraftItem>, x: DraftItem, id: int)
    ensures Removed(init + [x], id) == if x.bookId == id then Removed(init, id) else Removed(init, id) + [x]
  {
    assert (init + [x])[..|init|] == init;
  }

  /** Removing keeps exactly the entries of other books. */
  lemma {:induction false} RemovedMembers(items: seq<DraftItem>, id: int)
    ensures forall x :: x in Removed(items, id) <==> x in items && x.bookId != id
    decreases |items|
  {
    if items != [] {
      var n := |items| - 1;
      RemovedMembers(items[..n], id);
      assert items == items[..n] + [items[n]];
      RemovedSnoc(items[..n], items[n], id);
    }
  }

  /** Removing a book keeps one entry per book. */
  lemma {:induction false} RemovedUnique(items: seq<DraftItem>, id: int)
    requires Unique(items)
    ensures Unique(Removed(items, id))
    decreases |items|
  {
    if items != [] {
      var n := |items| - 1;
      var init := items[..n];
      assert Unique(init);
      RemovedUnique(init, id);
      RemovedMembers(init, id);
      assert items == init + [items[n]];
      RemovedSnoc(init, items[n], id);
      var ri := Removed(init, id);
      if items[n].bookId != id {
        forall j | 0 <= j < |ri|
          ensures ri[j].bookId != items[n].bookId
        {
          assert ri[j] in ri;
          var k :| 0 <= k < n && init[k] == ri[j];
          assert items[k] == ri[j];
        }
        UniqueSnoc(ri, items[n]);
      }
    }
  }

  /** An entry for a book not yet in a draft keeps one entry per book. */
  lemma {:induction false} UniqueSnoc(xs: seq<DraftItem>, x: DraftItem)
    requires Unique(xs)
    requires forall j :: 0 <= j < |xs| ==> xs[j].bookId != x.bookId
    ensures Unique(xs + [x])
  {
    var r := xs + [x];
    forall a, b | 0 <= a < b < |r|
      ensures r[a].bookId != r[b].bookId
    {
      assert r[a] == xs[a];
      if b < |xs| {
        assert r[b] == xs[b];
      }
    }
  }

  /** Removing a book without an entry leaves the draft as it is. */
  lemma {:induction false} RemovedAbsent(items: seq<DraftItem>, id: int)
    requires forall j :: 0 <= j < |items| ==> items[j].bookId != id
    ensures Removed(items, id) == items
    decreases |items|
  {
    if items != [] {
      var n := |items| - 1;
      assert forall j :: 0 <= j < n ==> items[..n][j] == items[j];
      RemovedAbsent(items[..n], id);
      assert items == items[..n] + [items[n]];
      RemovedSnoc(items[..n], items[n], id);
    }
  }

  /** Removing the book of entry `i`, its only entry, loses one entry and that entry's total. */
  lemma {:induction false} RemovedPresent(items: seq<DraftItem>, id: int, i: int)
    requires 0 <= i < |items| && items[i].bookId == id
    requires forall j :: 0 <= j < |items| && j != i ==> items[j].bookId != id
    ensures |Removed(items, id)| == |items| - 1
    ensures DraftTotal(Removed(items, id)) == DraftTotal(items) - items[i].total
    decreases |items|
  {
    var n := |items| - 1;
    var init := items[..n];
    assert items == init + [items[n]];
    RemovedSnoc(init, items[n], id);
    if i == n {
      assert forall j :: 0 <= j < n ==> init[j].bookId != id;
      RemovedAbsent(init, id);
    } else {
      assert forall j :: 0 <= j < n && j != i ==> init[j].bookId != id;
      RemovedPresent(init, id, i);
      DraftTotalAppend(Removed(init, id), items[n]);
    }
  }

  /**
   * Removing a book drops exactly its entry: without one the draft is
   * unchanged, and with one the draft loses one entry and that entry's total.
   */
  lemma {:induction false} RemovedOutcome(items: seq<DraftItem>, id: int)
    requires Unique(items)
    ensures Unique(Removed(items, id))
    ensures FindIndex(items, id) == -1 ==> Removed(items, id) == items
    ensures FindIndex(items, id) >= 0 ==>
      |Removed(items, id)| == |items| - 1
      && DraftTotal(Removed(items, id)) == DraftTotal(items) - items[FindIndex(items, id)].total
  {
    RemovedUnique(items, id);
    var i := FindIndex(items, id);
    if i == -1 {
      RemovedAbsent(items, id);
    } else {
      assert forall j :: 0 <= j < |items| && j != i ==> items[j].bookId != id;
      RemovedPresent(items, id, i);
    }
  }

  /** The body of POST /api/transactions built from the draft; an empty draft is refused. */
  function SubmitRequest(items: seq<DraftItem>, paymentMethod: string, customerName: string)
    : Result<TransactionRoutes.SaleRequest, string>
  {
    if |items| == 0 then Err(EmptyDraft)
    else Ok(TransactionRoutes.SaleRequest(Lines(items), Some(paymentMethod), Some(customerName)))
  }

  /** `{ book_id, quantity, price_at_sale: unit_price }` per entry. */
  function Lines(items: seq<DraftItem>): (r: seq<TransactionRoutes.SaleLine>)
    ensures |r| == |items|
  {
    if items == [] then []
    else
      var it := items[|items| - 1];
      Lines(items[..|items| - 1]) + [TransactionRoutes.SaleLine(it.bookId, it.quantity, it.unitPrice)]
  }

  /** The lines carry each entry's book, quantity and unit price in order. */
  lemma {:induction false} LinesMatchDraft(items: seq<DraftItem>)
    ensures forall k :: 0 <= k < |items| ==>
      Lines(items)[k] == TransactionRoutes.SaleLine(items[k].bookId, items[k].quantity, items[k].unitPrice)
    decreases |items|
  {
    if items != [] {
      var n := |items| - 1;
      LinesMatchDraft(items[..n]);
      assert Lines(items)[..n] == Lines(items[..n]);
    }
  }

  /** One more entry adds its line's amount to the lines' total and its total to the draft total. */
  lemma {:induction false} LinesTotalStep(init: seq<DraftItem>, x: DraftItem)
    ensures TransactionRoutes.LinesTotal(Lines(init + [x])) == TransactionRoutes.LinesTotal(Lines(init)) + x.quantity as real * x.unitPrice
    ensures DraftTotal(init + [x]) == DraftTotal(init) + x.total
  {
    assert (init + [x])[..|init|] == init;
    var l := TransactionRoutes.SaleLine(x.bookId, x.quantity, x.unitPrice);
    assert Lines(init + [x]) == Lines(init) + [l];
    assert (Lines(init) + [l])[..|Lines(init)|] == Lines(init);
  }

  /** For priced entries the total the server computes from the lines is the draft total. */
  lemma {:induction false} LinesTotalMatch(items: seq<DraftItem>)
    requires Priced(items)
    ensures TransactionRoutes.LinesTotal(Lines(items)) == DraftTotal(items)
    decreases |items|
  {
    if items != [] {
      var n := |items| - 1;
      var init := items[..n];
      var x := items[n];
      assert Priced(init) by {
        forall k | 0 <= k < n ensures init[k].total == init[k].quantity as real * init[k].unitPrice {
          assert init[k] == items[k];
        }
      }
      LinesTotalMatch(init);
      assert x.total == x.quantity as real * x.unitPrice;
      LinesTotalStep(init, x);
      assert items == init + [x];
    }
  }

  /** The submitted request is refused only for an empty draft and otherwise always names a payment method and a customer. */
  lemma {:induction false} SubmitOutcome(items: seq<DraftItem>, paymentMethod: string, customerName: string)
    ensures var r := SubmitRequest(items, paymentMethod, customerName);
      (r.Err? <==> |items| == 0) && (r.Err? ==> r.error == EmptyDraft)
      && (r.Ok? ==> |r.value.items| == |items| && r.value.paymentMethod == Some(paymentMethod)
                    && r.value.customerName == Some(customerName))
  {
  }

  /**
   * The list computation of `addItemToDraft`: the quantity alone, or merged
   * into the book's entry, is checked against the stock, and the entry is
   * merged or appended.
   */
  method AddToDraft(items: seq<DraftItem>, book: BookOption, qSafe: int) returns (r: Option<seq<DraftItem>>)
    ensures r == Added(items, book, qSafe)
  {
    var price := book.sellingPrice;
    var maxOut := book.stockQty;
    if qSafe > maxOut {
      return None;
    }
    var existsIndex := FindIndex(items, book.bookId);
    if existsIndex >= 0 {
      var copy := items;
      var mergedQty := copy[existsIndex].quantity + qSafe;
      if mergedQty > maxOut {
        return None;
      }
      copy := copy[existsIndex := copy[existsIndex].(quantity := mergedQty, total := mergedQty as real * price)];
      assert copy[existsIndex] == Merged(items[existsIndex], qSafe, price);
      r := Some(copy);
    } else {
      r := Some(items + [NewItem(book, qSafe)]);
    }
  }

  /** The draft part of the page's state. */
  class Draft {
    var items: seq<DraftItem>
    var selected: Option<BookOption>
    var bookSearch: string
    var quantity: string
    var error: Option<string>

    /** `resetModal`'s draft fields. */
    constructor()
      ensures items == [] && selected == None && bookSearch == "" && quantity == "1" && error == None
    {
      items := [];
      selected := None;
      bookSearch := "";
      quantity := "1";
      error := None;
    }

    /**
     * `addItemToDraft`: nothing without a selected book; a short stock sets
     * the error and keeps the draft; otherwise the draft becomes `Added` and
     * the per-item fields are reset.
     */
    method AddItem()
      requires ParseInt(OrOne(quantity)).Some?
      modifies this
      ensures old(selected).None? ==> items == old(items) && selected == old(selected) && quantity == old(quantity)
                                      && bookSearch == old(bookSearch) && error == old(error)
      ensures old(selected).Some? ==>
        var r := Added(old(items), old(selected).value, SafeQuantity(old(quantity)));
        (r.None? ==> items == old(items) && selected == old(selected) && quantity == old(quantity)
                     && bookSearch == old(bookSearch) && error == Some(StockMessage(old(selected).value.title)))
        && (r.Some? ==> items == r.value && selected == None && bookSearch == "" && quantity == "1" && error == None)
    {
      if selected.None? {
        return;
      }
      var book := selected.value;
      var added := AddToDraft(items, book, SafeQuantity(quantity));
      if added.None? {
        error := Some(StockMessage(book.title));
        return;
      }
      items := added.value;
      selected := None;
      bookSearch := "";
      quantity := "1";
      error := None;
    }

    /** `removeDraftItem`. */
    method RemoveItem(bookId: int)
      modifies this`items
      ensures items == Removed(old(items), bookId)
    {
      items := Removed(items, bookId);
    }
  }
}
