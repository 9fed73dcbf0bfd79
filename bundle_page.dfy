// The client-side logic of book-store-app/src/pages/BundlePage.jsx: the
// bundle form's item list (add, remove, change quantity), its book-price
// total and submit guard, the marking of Apriori recommendations as bundled,
// the recommendation key, the quick-add mapping from titles to books, and the
// lift badge.
module BundlePage {
  import opened Wrappers
  import opened Text
  import BundleRoutes

  /** A book of the catalogue the page fetched. */
  datatype CatalogBook = CatalogBook(bookId: int, title: string, sellingPrice: real)

  /** One row of the form's `items`. */
  datatype FormItem = FormItem(bookId: int, title: string, quantity: int)

  // ---------------------------------------------------------------------------
  // The form's item list

  predicate HasBook(items: seq<FormItem>, id: int) {
    exists i :: 0 <= i < |items| && items[i].bookId == id
  }

  /** No two rows are for the same book. */
  predicate Unique(items: seq<FormItem>) {
    forall i, j :: 0 <= i < j < |items| ==> items[i].bookId != items[j].bookId
  }

  /** Every row has a quantity of at least 1. */
  predicate Positive(items: seq<FormItem>) {
    forall i :: 0 <= i < |items| ==> items[i].quantity >= 1
  }

  /** `handleAddBook`'s new item list: the book is appended with quantity 1 unless it is already there. */
  function WithBook(items: seq<FormItem>, book: CatalogBook): seq<FormItem> {
    if HasBook(items, book.bookId) then items else items + [FormItem(book.bookId, book.title, 1)]
  }

  /** `items.filter(item => item.book_id !== bookId)`. */
  function Without(items: seq<FormItem>, id: int): (r: seq<FormItem>)
    ensures |r| <= |items|
    ensures forall x :: x in r <==> x in items && x.bookId != id
  {
    if items == [] then []
    else
      var init := Without(items[..|items| - 1], id);
      var last := items[|items| - 1];
      assert forall x :: x in items <==> x in items[..|items| - 1] || x == last by {
        assert items == items[..|items| - 1] + [last];
      }
      if last.bookId == id then init else init + [last]
  }

  /** `Math.max(1, parseInt(quantity) || 1)`: NaN and 0 become 1, and so does any negative number. */
  function ChangedQuantity(text: string): int {
    var v := ParseInt(text);
    if v.None? || v.value == 0 then 1 else if v.value < 1 then 1 else v.value
  }

  /** `items.map(item => item.book_id === bookId ? { ...item, quantity: q } : item)`. */
  function WithQuantity(items: seq<FormItem>, id: int, q: int): (r: seq<FormItem>)
    ensures |r| == |items|
  {
    if items == [] then []
    else
      var last := items[|items| - 1];
      WithQuantity(items[..|items| - 1], id, q) + [if last.bookId == id then last.(quantity := q) else last]
  }

  /** An added book is in the list once: present books are not added again, absent ones go at the end with quantity 1. */
  lemma {:induction false} WithBookOutcome(items: seq<FormItem>, book: CatalogBook)
    requires Unique(items) && Positive(items)
    ensures var r := WithBook(items, book);
      Unique(r) && Positive(r) && HasBook(r, book.bookId)
      && (HasBook(items, book.bookId) ==> r == items)
      && (!HasBook(items, book.bookId) ==> r == items + [FormItem(book.bookId, book.title, 1)])
  {
    if !HasBook(items, book.bookId) {
      var r := items + [FormItem(book.bookId, book.title, 1)];
      assert r[|items|].bookId == book.bookId;
    }
  }

  lemma {:induction false} WithoutUnique(items: seq<FormItem>, id: int)
    requires Unique(items)
    ensures Unique(Without(items, id))
    decreases |items|
  {
    if items != [] {
      var n := |items| - 1;
      assert items == items[..n] + [items[n]];
      WithoutUnique(items[..n], id);
      var ri := Without(items[..n], id);
      if items[n].bookId != id {
        forall j | 0 <= j < |ri|
          ensures ri[j].bookId != items[n].bookId
        {
          assert ri[j] in ri;
          var k :| 0 <= k < n && items[..n][k] == ri[j];
        }
        UniqueSnoc(ri, items[n]);
      }
    }
  }

  /** A row for a book not yet in the list keeps one row per book. */
  lemma {:induction false} UniqueSnoc(xs: seq<FormItem>, x: FormItem)
    requires Unique(xs)
    requires forall j :: 0 <= j < |xs| ==> xs[j].bookId != x.bookId
    ensures Unique(xs + [x])
  {
    var r := xs + [x];
    forall a, b | 0 <= a < b < |r|
      ensures r[a].bookId != r[b].bookId
    {
      assert r[a] == xs[a];
      if b < |xs| {
        assert r[b] == xs[b];
      }
    }
  }

  lemma {:induction false} WithoutAbsent(items: seq<FormItem>, id: int)
    requires !HasBook(items, id)
    ensures Without(items, id) == items
    decreases |items|
  {
    if items != [] {
      var n := |items| - 1;
      assert items == items[..n] + [items[n]];
      WithoutAbsent(items[..n], id);
    }
  }

  /** Removing a book drops only its row: the book is gone, every other row stays, and rows stay unique and positive. */
  lemma {:induction false} WithoutOutcome(items: seq<FormItem>, id: int)
    requires Unique(items) && Positive(items)
    ensures var r := Without(items, id);
      !HasBook(r, id) && Unique(r) && Positive(r)
      && (forall x :: x in items && x.bookId != id ==> x in r)
      && (!HasBook(items, id) ==> r == items)
  {
    var r := Without(items, id);
    WithoutUnique(items, id);
    if !HasBook(items, id) {
      WithoutAbsent(items, id);
    }
    forall i | 0 <= i < |r|
      ensures r[i].quantity >= 1 && r[i].bookId != id
    {
      assert r[i] in r;
    }
  }

  /** A quantity change gives the book's row the new quantity, never below 1, and leaves the other rows alone. */
  lemma {:induction false} WithQuantityOutcome(items: seq<FormItem>, id: int, text: string)
    requires Positive(items)
    ensures ChangedQuantity(text) >= 1
    ensures var r := WithQuantity(items, id, ChangedQuantity(text));
      Positive(r)
      && (forall i :: 0 <= i < |items| ==>
            r[i].bookId == items[i].bookId && r[i].title == items[i].title
            && r[i].quantity == (if items[i].bookId == id then ChangedQuantity(text) else items[i].quantity))
    decreases |items|
  {
    if items != [] {
      var n := |items| - 1;
      var q := ChangedQuantity(text);
      WithQuantityOutcome(items[..n], id, text);
      var init := WithQuantity(items[..n], id, q);
      var r := WithQuantity(items, id, q);
      assert r == init + [if items[n].bookId == id then items[n].(quantity := q) else items[n]];
      forall i | 0 <= i < |items|
        ensures r[i].bookId == items[i].bookId && r[i].title == items[i].title
        ensures r[i].quantity == (if items[i].bookId == id then q else items[i].quantity)
        ensures r[i].quantity >= 1
      {
        if i < n {
          assert r[i] == init[i] && items[..n][i] == items[i];
        }
      }
    }
  }

  /** `books.find(b => b.book_id === id)`. */
  function FindBook(books: seq<CatalogBook>, id: int): (r: Option<CatalogBook>)
    ensures r.Some? ==> r.value in books && r.value.bookId == id
    ensures r.None? ==> forall b :: b in books ==> b.bookId != id
  {
    if books == [] then None
    else if books[0].bookId == id then Some(books[0])
    else FindBook(books[1..], id)
  }

  /** `totalBookPrice`: each row's book price times its quantity, 0 for a book not in the catalogue. */
  function TotalBookPrice(items: seq<FormItem>, books: seq<CatalogBook>): real {
    if items == [] then 0.0
    else
      var it := items[|items| - 1];
      var book := FindBook(books, it.bookId);
      TotalBookPrice(items[..|items| - 1], books) + (if book.Some? then book.value.sellingPrice * it.quantity as real else 0.0)
  }

  /** With non-negative prices and positive quantities the total is never negative. */
  lemma {:induction false} TotalBookPriceNonNegative(items: seq<FormItem>, books: seq<CatalogBook>)
    requires Positive(items)
    requires forall b :: b in books ==> b.sellingPrice >= 0.0
    ensures TotalBookPrice(items, books) >= 0.0
    decreases |items|
  {
    if items != [] {
      var n := |items| - 1;
      TotalBookPriceNonNegative(items[..n], books);
      var book := FindBook(books, items[n].bookId);
      if book.Some? {
        assert book.value.sellingPrice * items[n].quantity as real >= 0.0;
      }
    }
  }

  /** `Without` on a list with one more row at the end. */
  lemma {:induction false} WithoutSnoc(init: seq<FormItem>, x: FormItem, id: int)
    ensures Without(init + [x], id) == if x.bookId == id then Without(init, id) else Without(init, id) + [x]
  {
    assert (init + [x])[..|init|] == init;
  }

  /** One more row adds its book's price times its quantity, or nothing for a book not in the catalogue. */
  lemma {:induction false} TotalBookPriceSnoc(init: seq<FormItem>, x: FormItem, books: seq<CatalogBook>)
    ensures var book := FindBook(books, x.bookId);
      TotalBookPrice(init + [x], books)
        == TotalBookPrice(init, books) + (if book.Some? then book.value.sellingPrice * x.quantity as real else 0.0)
  {
    assert (init + [x])[..|init|] == init;
  }

  /** Rows whose book is not in the catalogue add nothing: dropping such a row leaves the total as it is. */
  lemma {:induction false} TotalIgnoresUnknownBook(items: seq<FormItem>, books: seq<CatalogBook>, id: int)
    requires FindBook(books, id).None?
    ensures TotalBookPrice(Without(items, id), books) == TotalBookPrice(items, books)
    decreases |items|
  {
    if items != [] {
      var n := |items| - 1;
      var init, x := items[..n], items[n];
      assert items == init + [x];
      TotalIgnoresUnknownBook(init, books, id);
      WithoutSnoc(init, x, id);
      TotalBookPriceSnoc(init, x, books);
      if x.bookId != id {
        TotalBookPriceSnoc(Without(init, id), x, books);
      }
    }
  }

  /** What `onSave` receives from the bundle form. */
  datatype FormData = FormData(name: string, sellingPrice: string, stock: string, items: seq<FormItem>)

  const IncompleteForm := "Mohon lengkapi semua field dan tambahkan minimal 1 buku"

  /** The bundle form's state. */
  class BundleForm {
    var name: string
    var sellingPrice: string
    var stock: string
    var items: seq<FormItem>
    var searchBook: string
    var showDropdown: bool

    /** The empty form of a new bundle. */
    constructor()
      ensures name == "" && sellingPrice == "" && stock == "" && items == [] && searchBook == "" && !showDropdown
    {
      name := "";
      sellingPrice := "";
      stock := "";
      items := [];
      searchBook := "";
      showDropdown := false;
    }

    /** `handleAddBook`: adds the book if absent, and clears the search either way. */
    method AddBook(book: CatalogBook)
      modifies this
      ensures items == WithBook(old(items), book) && searchBook == "" && !showDropdown
      ensures name == old(name) && sellingPrice == old(sellingPrice) && stock == old(stock)
    {
      var exists_ := exists i :: 0 <= i < |items| && items[i].bookId == book.bookId;
      if !exists_ {
        items := items + [FormItem(book.bookId, book.title, 1)];
      }
      searchBook := "";
      showDropdown := false;
    }

    /** `handleRemoveBook`. */
    method RemoveBook(bookId: int)
      modifies this`items
      ensures items == Without(old(items), bookId)
    {
      items := Without(items, bookId);
    }

    /** `handleQuantityChange` with the input's text. */
    method QuantityChange(bookId: int, text: string)
      modifies this`items
      ensures items == WithQuantity(old(items), bookId, ChangedQuantity(text))
    {
      items := WithQuantity(items, bookId, ChangedQuantity(text));
    }

    /**
     * `handleSubmit`: the form is saved only with a name, a price and at least
     * one item; otherwise the alert is shown. The stock field is not checked.
     */
    method Submit() returns (saved: Result<FormData, string>)
      ensures saved.Ok? <==> name != "" && sellingPrice != "" && |items| > 0
      ensures saved.Ok? ==> saved.value == FormData(name, sellingPrice, stock, items)
      ensures saved.Err? ==> saved.error == IncompleteForm
    {
      if name == "" || sellingPrice == "" || |items| == 0 {
        return Err(IncompleteForm);
      }
      saved := Ok(FormData(name, sellingPrice, stock, items));
    }
  }

  // ---------------------------------------------------------------------------
  // The recommendation key

  /** JavaScript's default string order: code by code, a prefix first. */
  predicate StrLe(a: string, b: string)
    decreases |a|
  {
    a == [] || (b != [] && (a[0] < b[0] || (a[0] == b[0] && StrLe(a[1..], b[1..]))))
  }

  lemma {:induction false} StrLeTotal(a: string, b: string)
    ensures StrLe(a, b) || StrLe(b, a)
    decreases |a|
  {
    if a != [] && b != [] && a[0] == b[0] {
      StrLeTotal(a[1..], b[1..]);
    }
  }

  lemma {:induction false} StrLeAntisymmetric(a: string, b: string)
    requires StrLe(a, b) && StrLe(b, a)
    ensures a == b
    decreases |a|
  {
    if a != [] {
      StrLeAntisymmetric(a[1..], b[1..]);
      assert a == [a[0]] + a[1..] && b == [b[0]] + b[1..];
    }
  }

  lemma {:induction false} StrLeTransitive(a: string, b: string, c: string)
    requires StrLe(a, b) && StrLe(b, c)
    ensures StrLe(a, c)
    decreases |a|
  {
    if a != [] && a[0] == b[0] && b[0] == c[0] {
      StrLeTransitive(a[1..], b[1..], c[1..]);
    }
  }

  predicate Sorted(s: seq<string>) {
    forall i, j :: 0 <= i < j < |s| ==> StrLe(s[i], s[j])
  }

  /** Insertion into a sorted list. */
  function Insert(x: string, s: seq<string>): (r: seq<string>)
    ensures multiset(r) == multiset(s) + multiset{x}
  {
    if s == [] then [x]
    else if StrLe(x, s[0]) then [x] + s
    else
      assert s == [s[0]] + s[1..];
      [s[0]] + Insert(x, s[1..])
  }

  /** `[...].sort()`. */
  function Sort(xs: seq<string>): (r: seq<string>)
    ensures multiset(r) == multiset(xs)
  {
    if xs == [] then []
    else
      assert xs == [xs[0]] + xs[1..];
      Insert(xs[0], Sort(xs[1..]))
  }

  lemma {:induction false} InsertSorted(x: string, s: seq<string>)
    requires Sorted(s)
    ensures Sorted(Insert(x, s))
    decreases |s|
  {
    if s != [] {
      if StrLe(x, s[0]) {
        forall j | 0 <= j < |s|
          ensures StrLe(x, s[j])
        {
          if j > 0 {
            StrLeTransitive(x, s[0], s[j]);
          }
        }
        SortedCons(x, s);
      } else {
        StrLeTotal(x, s[0]);
        InsertSorted(x, s[1..]);
        var ri := Insert(x, s[1..]);
        forall j | 0 <= j < |ri|
          ensures StrLe(s[0], ri[j])
        {
          assert ri[j] in multiset(ri);
          assert ri[j] == x || ri[j] in multiset(s[1..]);
          if ri[j] != x {
            var k :| 0 <= k < |s[1..]| && s[1..][k] == ri[j];
            assert s[1..][k] == s[k + 1];
          }
        }
        SortedCons(s[0], ri);
      }
    }
  }

  /** A title no greater than any of a sorted list's titles can go in front of it. */
  lemma {:induction false} SortedCons(h: string, t: seq<string>)
    requires Sorted(t)
    requires forall j :: 0 <= j < |t| ==> StrLe(h, t[j])
    ensures Sorted([h] + t)
  {
    var r := [h] + t;
    forall i, j | 0 <= i < j < |r|
      ensures StrLe(r[i], r[j])
    {
      assert r[j] == t[j - 1];
      if i > 0 {
        assert r[i] == t[i - 1];
      }
    }
  }

  lemma {:induction false} SortSorted(xs: seq<string>)
    ensures Sorted(Sort(xs))
    decreases |xs|
  {
    if xs != [] {
      SortSorted(xs[1..]);
      InsertSorted(xs[0], Sort(xs[1..]));
    }
  }

  /** Sorted lists with the same elements start with the same element. */
  lemma {:induction false} SortedHeads(a: seq<string>, b: seq<string>)
    requires Sorted(a) && Sorted(b) && multiset(a) == multiset(b) && a != []
    ensures b != [] && a[0] == b[0]
  {
    assert a[0] in multiset(b);
    var k :| 0 <= k < |b| && b[k] == a[0];
    assert b[0] in multiset(a);
    var m :| 0 <= m < |a| && a[m] == b[0];
    if k > 0 && m > 0 {
      assert StrLe(b[0], a[0]) && StrLe(a[0], b[0]);
      StrLeAntisymmetric(a[0], b[0]);
    }
  }

  lemma {:induction false} MultisetTail(a: seq<string>, b: seq<string>)
    requires a != [] && b != [] && a[0] == b[0] && multiset(a) == multiset(b)
    ensures multiset(a[1..]) == multiset(b[1..])
  {
    assert a == [a[0]] + a[1..] && b == [b[0]] + b[1..];
    assert multiset(a[1..]) == multiset(a) - multiset{a[0]};
    assert multiset(b[1..]) == multiset(b) - multiset{b[0]};
  }

  /** Two sorted lists with the same elements are the same list. */
  lemma {:induction false} SortedUnique(a: seq<string>, b: seq<string>)
    requires Sorted(a) && Sorted(b) && multiset(a) == multiset(b)
    ensures a == b
    decreases |a|
  {
    if a == [] {
      assert |b| == |multiset(b)| == 0;
    } else {
      SortedHeads(a, b);
      MultisetTail(a, b);
      assert Sorted(a[1..]) && Sorted(b[1..]);
      SortedUnique(a[1..], b[1..]);
      assert a == [a[0]] + a[1..] && b == [b[0]] + b[1..];
    }
  }

  /** `getBundleKey`: the recommendation's items sorted and joined with '|'. */
  function BundleKey(antecedent: seq<string>, consequent: seq<string>): string {
    Join(Sort(antecedent + consequent), '|')
  }

  /** The key depends only on which items a recommendation holds, not on how they are split or ordered. */
  lemma {:induction false} KeyIndependentOfSplit(a: seq<string>, c: seq<string>, a2: seq<string>, c2: seq<string>)
    requires multiset(a + c) == multiset(a2 + c2)
    ensures BundleKey(a, c) == BundleKey(a2, c2)
  {
    SortSorted(a + c);
    SortSorted(a2 + c2);
    SortedUnique(Sort(a + c), Sort(a2 + c2));
  }

  // ---------------------------------------------------------------------------
  // Marking recommendations

  /** `markedBundles`: the keys marked among the book and the category recommendations. */
  datatype Marks = Marks(books: seq<string>, categories: seq<string>)

  /** `current.filter(k => k !== key)`. */
  function Unmarked(list: seq<string>, key: string): (r: seq<string>)
    ensures forall k :: k in r <==> k in list && k != key
  {
    if list == [] then []
    else
      var init := Unmarked(list[..|list| - 1], key);
      var last := list[|list| - 1];
      assert forall k :: k in list <==> k in list[..|list| - 1] || k == last by {
        assert list == list[..|list| - 1] + [last];
      }
      if last == key then init else init + [last]
  }

  lemma {:induction false} UnmarkedAbsent(list: seq<string>, key: string)
    requires key !in list
    ensures Unmarked(list, key) == list
    decreases |list|
  {
    if list != [] {
      var n := |list| - 1;
      assert list[n] in list;
      assert forall k :: k in list[..n] ==> k in list;
      UnmarkedAbsent(list[..n], key);
      assert list == list[..n] + [list[n]];
    }
  }

  /** One list toggled: the key is removed where present and appended where absent. */
  function ToggledList(list: seq<string>, key: string): seq<string> {
    if key in list then Unmarked(list, key) else list + [key]
  }

  /** `toggleMarkBundle`: toggles the key in the book list for type 'book' and in the category list otherwise. */
  function Toggle(m: Marks, key: string, kind: string): Marks {
    if kind == "book" then m.(books := ToggledList(m.books, key)) else m.(categories := ToggledList(m.categories, key))
  }

  /**
   * A toggle flips the key's membership in the chosen list only; toggling
   * twice marks the same keys as before, and restores the lists exactly when
   * the key was not marked.
   */
  lemma {:induction false} ToggleOutcome(m: Marks, key: string, kind: string)
    ensures var t := Toggle(m, key, kind);
      (kind == "book" ==> t.categories == m.categories && (key in t.books <==> key !in m.books))
      && (kind != "book" ==> t.books == m.books && (key in t.categories <==> key !in m.categories))
    ensures var tt := Toggle(Toggle(m, key, kind), key, kind);
      (forall k :: k in tt.books <==> k in m.books) && (forall k :: k in tt.categories <==> k in m.categories)
      && (kind == "book" && key !in m.books ==> tt == m)
      && (kind != "book" && key !in m.categories ==> tt == m)
  {
    var list := if kind == "book" then m.books else m.categories;
    if key !in list {
      assert key in list + [key];
      UnmarkedAbsent(list, key);
      assert Unmarked(list + [key], key) == Unmarked(list, key);
    }
  }

  /** A toggle applied to a marked key, twice, moves it to the end of its list. */
  lemma {:induction false} ToggleTwiceReorders()
    ensures Toggle(Toggle(Marks(["a|b", "c|d"], []), "a|b", "book"), "a|b", "book") == Marks(["c|d", "a|b"], [])
  {
    assert "a|b" != "c|d";
    assert Unmarked(["a|b"], "a|b") == [];
    assert ["a|b", "c|d"][..1] == ["a|b"];
    assert Unmarked(["a|b", "c|d"], "a|b") == ["c|d"];
  }

  // ---------------------------------------------------------------------------
  // Quick add from a recommendation

  /** A recommendation; `items` is absent in older payloads. */
  datatype Recommendation = Recommendation(antecedent: seq<string>, consequent: seq<string>, items: Option<seq<string>>)

  /** What the quick-add modal hands to `handleQuickAddBundle`. */
  datatype QuickAddForm = QuickAddForm(name: string, sellingPrice: string, stock: string, titles: seq<string>)

  /** The body posted to create the bundle. */
  datatype QuickAddBody = QuickAddBody(name: string, sellingPrice: string, stock: string, items: seq<BundleRoutes.ItemInput>)

  /** The modal's submit: all three fields are required; the titles are the recommendation's items when present (an array is truthy even when empty). */
  function QuickAddSubmit(name: string, sellingPrice: string, stock: string, rec: Recommendation): Option<QuickAddForm> {
    if name == "" || sellingPrice == "" || stock == "" then None
    else Some(QuickAddForm(name, sellingPrice, stock,
                           if rec.items.Some? then rec.items.value else rec.antecedent + rec.consequent))
  }

  /** `books.find(b => b.title === title)`. */
  function FindByTitle(books: seq<CatalogBook>, title: string): (r: Option<CatalogBook>)
    ensures r.Some? ==> r.value in books && r.value.title == title
    ensures r.None? ==> forall b :: b in books ==> b.title != title
  {
    if books == [] then None
    else if books[0].title == title then Some(books[0])
    else FindByTitle(books[1..], title)
  }

  /** Titles mapped to `{ book_id, quantity: 1 }` with unknown titles dropped. */
  function QuickAddItems(titles: seq<string>, books: seq<CatalogBook>): (r: seq<BundleRoutes.ItemInput>)
    ensures |r| <= |titles|
  {
    if titles == [] then []
    else
      var book := FindByTitle(books, titles[|titles| - 1]);
      QuickAddItems(titles[..|titles| - 1], books)
        + (if book.Some? then [BundleRoutes.ItemInput(book.value.bookId, Some(1))] else [])
  }

  /**
   * Every quick-add item is one copy of a catalogue book whose title was
   * recommended, and the list is empty exactly when no recommended title is
   * in the catalogue.
   */
  lemma {:induction false} QuickAddItemsOutcome(titles: seq<string>, books: seq<CatalogBook>)
    ensures var r := QuickAddItems(titles, books);
      (forall i :: 0 <= i < |r| ==>
         (r[i].quantity == Some(1) && exists b :: b in books && b.bookId == r[i].bookId && b.title in titles))
      && (|r| == 0 <==> forall t :: t in titles ==> FindByTitle(books, t).None?)
    decreases |titles|
  {
    if titles != [] {
      var n := |titles| - 1;
      QuickAddItemsOutcome(titles[..n], books);
      assert titles == titles[..n] + [titles[n]];
      assert forall t :: t in titles[..n] ==> t in titles;
      var book := FindByTitle(books, titles[n]);
      var r := QuickAddItems(titles, books);
      var ri := QuickAddItems(titles[..n], books);
      forall i | 0 <= i < |r|
        ensures r[i].quantity == Some(1) && exists b :: b in books && b.bookId == r[i].bookId && b.title in titles
      {
        if i < |ri| {
          assert r[i] == ri[i];
          var b :| b in books && b.bookId == ri[i].bookId && b.title in titles[..n];
        } else {
          assert book.value.title in titles;
        }
      }
      if book.Some? {
        assert |r| > 0;
        assert titles[n] in titles;
      } else {
        assert r == ri;
      }
    }
  }

  /** The page's marks, kept across visits. */
  class MarkStore {
    var marks: Marks

    constructor(saved: Option<Marks>)
      ensures marks == if saved.Some? then saved.value else Marks([], [])
    {
      marks := if saved.Some? then saved.value else Marks([], []);
    }

    /** `toggleMarkBundle`. */
    method ToggleMark(key: string, kind: string)
      modifies this
      ensures marks == Toggle(old(marks), key, kind)
    {
      var current := if kind == "book" then marks.books else marks.categories;
      var isMarked := key in current;
      var next := if isMarked then Unmarked(current, key) else current + [key];
      if kind == "book" {
        marks := marks.(books := next);
      } else {
        marks := marks.(categories := next);
      }
    }

    /**
     * `handleQuickAddBundle`: without any known title nothing is posted and
     * nothing is marked; otherwise the body is posted and, once the post
     * succeeds, the sorted titles' key is marked among the book recommendations.
     */
    method QuickAdd(form: QuickAddForm, books: seq<CatalogBook>, postSucceeds: bool) returns (body: Option<QuickAddBody>)
      modifies this
      ensures body.None? <==> |QuickAddItems(form.titles, books)| == 0
      ensures body.Some? ==> body.value == QuickAddBody(form.name, form.sellingPrice, form.stock, QuickAddItems(form.titles, books))
      ensures marks == if body.Some? && postSucceeds
                       then old(marks).(books := old(marks).books + [Join(Sort(form.titles), '|')])
                       else old(marks)
    {
      var bookItems := QuickAddItems(form.titles, books);
      if |bookItems| == 0 {
        return None;
      }
      body := Some(QuickAddBody(form.name, form.sellingPrice, form.stock, bookItems));
      if postSucceeds {
        var bundleKey := Join(Sort(form.titles), '|');
        marks := marks.(books := marks.books + [bundleKey]);
      }
    }
  }

  /** A recommendation added through the quick-add modal is shown as marked afterwards: the key it marks is its own. */
  lemma {:induction false} QuickAddMarksItsRecommendation(name: string, price: string, stock: string, rec: Recommendation)
    requires rec.items.Some? ==> multiset(rec.items.value) == multiset(rec.antecedent + rec.consequent)
    requires QuickAddSubmit(name, price, stock, rec).Some?
    ensures Join(Sort(QuickAddSubmit(name, price, stock, rec).value.titles), '|') == BundleKey(rec.antecedent, rec.consequent)
  {
    var titles := QuickAddSubmit(name, price, stock, rec).value.titles;
    SortSorted(titles);
    SortSorted(rec.antecedent + rec.consequent);
    SortedUnique(Sort(titles), Sort(rec.antecedent + rec.consequent));
  }

  // ---------------------------------------------------------------------------
  // The lift badge

  datatype LiftBadge = Recommended | Optional | NotNeeded

  /** `getLiftBadge`. */
  function BadgeOf(lift: real): LiftBadge {
    if lift > 1.0 then Recommended else if lift == 1.0 then Optional else NotNeeded
  }

  function BadgeText(b: LiftBadge): string {
    match b
    case Recommended => "Bundling Direkomendasikan"
    case Optional => "Bundling Opsional"
    case NotNeeded => "Tidak Perlu Bundling"
  }

  function Rank(b: LiftBadge): nat {
    match b
    case NotNeeded => 0
    case Optional => 1
    case Recommended => 2
  }

  /** A higher lift never gets a weaker badge, and only a lift of exactly 1 is optional. */
  lemma {:induction false} BadgeMonotone(l1: real, l2: real)
    ensures l1 <= l2 ==> Rank(BadgeOf(l1)) <= Rank(BadgeOf(l2))
    ensures BadgeOf(l1) == Optional <==> l1 == 1.0
    ensures BadgeOf(l1) == Recommended <==> l1 > 1.0
  {
  }
}
