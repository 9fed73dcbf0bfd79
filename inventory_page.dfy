// The book list filters of book-store-app/src/pages/InventoryPage.jsx (search
// on title or ISBN, exact category, stock status) and the stock indicator
// colour.
module InventoryPage {
  import opened Text
  import opened Lists

  /** The fields of a book row the page filters on. */
  datatype InventoryBook = InventoryBook(title: string, isbn: string, category: string, stockQty: int)

  /** The search keeps books whose title or ISBN contains the term, ignoring case. */
  predicate SearchMatches(b: InventoryBook, term: string) {
    Contains(ToLower(b.title), ToLower(term)) || Contains(ToLower(b.isbn), ToLower(term))
  }

  /** The stock-status filter; any other value keeps every book. */
  predicate StockMatches(stock: int, status: string) {
    if status == "tersedia" then stock > 5
    else if status == "menipis" then stock > 0 && stock <= 5
    else if status == "habis" then stock == 0
    else true
  }

  /** The filter effect: a chain of filters, each applied only when its input is non-empty. */
  function FilteredBooks(books: seq<InventoryBook>, search: string, category: string, status: string): seq<InventoryBook> {
    ByStatus(ByCategory(BySearch(books, search), category), status)
  }

  function BySearch(books: seq<InventoryBook>, search: string): seq<InventoryBook> {
    if search != "" then Filter(books, (b: InventoryBook) => SearchMatches(b, search)) else books
  }

  function ByCategory(books: seq<InventoryBook>, category: string): seq<InventoryBook> {
    if category != "" then Filter(books, (b: InventoryBook) => b.category == category) else books
  }

  function ByStatus(books: seq<InventoryBook>, status: string): seq<InventoryBook> {
    if status != "" then Filter(books, (b: InventoryBook) => StockMatches(b.stockQty, status)) else books
  }

  predicate SearchPasses(b: InventoryBook, search: string) {
    search == "" || SearchMatches(b, search)
  }

  predicate CategoryPasses(b: InventoryBook, category: string) {
    category == "" || b.category == category
  }

  predicate StatusPasses(b: InventoryBook, status: string) {
    status == "" || StockMatches(b.stockQty, status)
  }

  /** A book is shown when it passes every filter that is set. */
  predicate Shown(b: InventoryBook, search: string, category: string, status: string) {
    SearchPasses(b, search) && CategoryPasses(b, category) && StatusPasses(b, status)
  }

  lemma {:induction false} BySearchIsFilter(books: seq<InventoryBook>, search: string)
    ensures BySearch(books, search) == Filter(books, (b: InventoryBook) => SearchPasses(b, search))
  {
    if search != "" {
      FilterCongruent(books, (b: InventoryBook) => SearchMatches(b, search), (b: InventoryBook) => SearchPasses(b, search));
    } else {
      FilterAll(books, (b: InventoryBook) => SearchPasses(b, search));
    }
  }

  lemma {:induction false} ByCategoryIsFilter(books: seq<InventoryBook>, category: string)
    ensures ByCategory(books, category) == Filter(books, (b: InventoryBook) => CategoryPasses(b, category))
  {
    if category != "" {
      FilterCongruent(books, (b: InventoryBook) => b.category == category, (b: InventoryBook) => CategoryPasses(b, category));
    } else {
      FilterAll(books, (b: InventoryBook) => CategoryPasses(b, category));
    }
  }

  lemma {:induction false} ByStatusIsFilter(books: seq<InventoryBook>, status: string)
    ensures ByStatus(books, status) == Filter(books, (b: InventoryBook) => StatusPasses(b, status))
  {
    if status != "" {
      FilterCongruent(books, (b: InventoryBook) => StockMatches(b.stockQty, status), (b: InventoryBook) => StatusPasses(b, status));
    } else {
      FilterAll(books, (b: InventoryBook) => StatusPasses(b, status));
    }
  }

  /**
   * The chain is one filter by the conjunction of the filters that are set,
   * so the result keeps the books' order, and exactly the books shown are in it.
   */
  lemma {:induction false} FilteredIsConjunction(books: seq<InventoryBook>, search: string, category: string, status: string)
    ensures FilteredBooks(books, search, category, status) == Filter(books, (b: InventoryBook) => Shown(b, search, category, status))
    ensures Subsequence(FilteredBooks(books, search, category, status), books)
    ensures forall b :: b in FilteredBooks(books, search, category, status) <==> b in books && Shown(b, search, category, status)
  {
    var ps := (b: InventoryBook) => SearchPasses(b, search);
    var pc := (b: InventoryBook) => CategoryPasses(b, category);
    var pt := (b: InventoryBook) => StatusPasses(b, status);
    var psc := (b: InventoryBook) => SearchPasses(b, search) && CategoryPasses(b, category);
    var shown := (b: InventoryBook) => Shown(b, search, category, status);
    BySearchIsFilter(books, search);
    ByCategoryIsFilter(BySearch(books, search), category);
    ByStatusIsFilter(ByCategory(BySearch(books, search), category), status);
    FilterBoth(books, ps, pc, psc);
    FilterBoth(books, psc, pt, shown);
    FilterSubsequence(books, shown);
    FilterMembers(books, shown);
  }

  /** With no search, category or status every book is shown, in order. */
  lemma {:induction false} NoFiltersShowAll(books: seq<InventoryBook>)
    ensures FilteredBooks(books, "", "", "") == books
  {
  }

  /** The three stock statuses never overlap, and a negative stock matches none of them. */
  lemma {:induction false} StockStatusesDisjoint(stock: int)
    ensures !(StockMatches(stock, "tersedia") && StockMatches(stock, "menipis"))
    ensures !(StockMatches(stock, "tersedia") && StockMatches(stock, "habis"))
    ensures !(StockMatches(stock, "menipis") && StockMatches(stock, "habis"))
    ensures stock < 0 ==> !StockMatches(stock, "tersedia") && !StockMatches(stock, "menipis") && !StockMatches(stock, "habis")
    ensures stock >= 0 ==> StockMatches(stock, "tersedia") || StockMatches(stock, "menipis") || StockMatches(stock, "habis")
  {
  }

  datatype StockColor = Red | Yellow | Green

  /** `getStockIndicatorColor`. */
  function StockIndicatorColor(stock: int): StockColor {
    if stock == 0 then Red else if stock <= 5 then Yellow else Green
  }

  /**
   * The indicator agrees with the status filters: red is "habis", green is
   * "tersedia", and yellow is "menipis" or a negative stock.
   */
  lemma {:induction false} ColorMatchesStatus(stock: int)
    ensures StockIndicatorColor(stock) == Red <==> StockMatches(stock, "habis")
    ensures StockIndicatorColor(stock) == Green <==> StockMatches(stock, "tersedia")
    ensures StockIndicatorColor(stock) == Yellow <==> StockMatches(stock, "menipis") || stock < 0
  {
  }
}
