// The submit handler of book-store-app/src/components/StockUpdateModal.jsx:
// the checks on the typed quantity and price, the endpoint chosen by the
// operation, and the body sent to it.
module StockUpdateModal {
  import opened Wrappers
  import opened Text
  import Database
  import BookRoutes

  const BooksUrl := "http://localhost:5000/api/books"

  /** The book the modal was opened for. */
  datatype ModalBook = ModalBook(bookId: int, stockQty: int)

  /** The body sent: the quantity alone for stock-in; for stock-out also the date, the price and the sale flag. `None` stands for a NaN price. */
  datatype Payload =
    | StockInBody(quantity: int)
    | StockOutBody(quantity: int, transactionDate: string, priceAtSale: Option<real>, createTransaction: bool)

  datatype Request = Request(endpoint: string, payload: Payload)

  const BadQuantity := "Masukkan jumlah stok yang valid (> 0)"
  const BadPrice := "Masukkan harga jual yang valid (> 0)"

  function TooMuch(stockQty: int): string {
    "Stok keluar melebihi stok tersedia (" + IntToString(stockQty) + ")."
  }

  predicate IsStockIn(operationType: string) {
    operationType == "IN"
  }

  /** `${API_BASE_URL}/${book_id}/stock-in` or `/stock-out`. */
  function Endpoint(book: ModalBook, operationType: string): string {
    BooksUrl + "/" + IntToString(book.bookId) + "/" + (if IsStockIn(operationType) then "stock-in" else "stock-out")
  }

  /** `!priceAtSale || parseFloat(priceAtSale) <= 0`; a NaN price passes, as NaN <= 0 is false. */
  predicate PriceRejected(price: string) {
    price == "" || (ParseFloat(price).Some? && ParseFloat(price).value <= 0.0)
  }

  /** `handleSubmit`: the error shown, or the request sent. */
  function Submit(book: ModalBook, operationType: string, quantity: string, transactionDate: string, priceAtSale: string)
    : Result<Request, string>
  {
    var q := ParseInt(quantity);
    if q.None? || q.value <= 0 then Err(BadQuantity)
    else if !IsStockIn(operationType) && q.value > book.stockQty then Err(TooMuch(book.stockQty))
    else if !IsStockIn(operationType) && PriceRejected(priceAtSale) then Err(BadPrice)
    else
      var payload :=
        if IsStockIn(operationType) then StockInBody(q.value)
        else StockOutBody(q.value, transactionDate, ParseFloat(priceAtSale), true);
      Ok(Request(Endpoint(book, operationType), payload))
  }

  /**
   * A request is sent exactly when the quantity is a positive integer and,
   * for stock-out, does not exceed the stock and the price is given and not
   * at most 0; each refusal carries its own message.
   */
  lemma {:induction false} SubmitRefusals(book: ModalBook, operationType: string, quantity: string, transactionDate: string, priceAtSale: string)
    ensures var r := Submit(book, operationType, quantity, transactionDate, priceAtSale);
      var q := ParseInt(quantity);
      (r.Ok? <==> q.Some? && q.value > 0
                  && (IsStockIn(operationType) || (q.value <= book.stockQty && !PriceRejected(priceAtSale))))
      && ((q.None? || q.value <= 0) ==> r == Err(BadQuantity))
      && (q.Some? && q.value > 0 && !IsStockIn(operationType) && q.value > book.stockQty ==> r == Err(TooMuch(book.stockQty)))
  {
  }

  /**
   * A sent request goes to stock-in exactly for the 'IN' operation, carries
   * the parsed positive quantity, and for stock-out a quantity within the
   * stock, the date, the parsed price (positive unless NaN) and the sale flag.
   */
  lemma {:induction false} SubmitRequest(book: ModalBook, operationType: string, quantity: string, transactionDate: string, priceAtSale: string)
    requires Submit(book, operationType, quantity, transactionDate, priceAtSale).Ok?
    ensures var req := Submit(book, operationType, quantity, transactionDate, priceAtSale).value;
      var q := ParseInt(quantity).value;
      req.endpoint == Endpoint(book, operationType)
      && (IsStockIn(operationType) <==> req.payload.StockInBody?)
      && req.payload.quantity == q && q > 0
      && (req.payload.StockOutBody? ==>
            q <= book.stockQty && req.payload.transactionDate == transactionDate
            && req.payload.priceAtSale == ParseFloat(priceAtSale) && req.payload.createTransaction
            && (req.payload.priceAtSale.Some? ==> req.payload.priceAtSale.value > 0.0))
  {
  }

  /** The two endpoints differ only in their last part. */
  lemma {:induction false} EndpointsDiffer(book: ModalBook)
    ensures Endpoint(book, "IN") != Endpoint(book, "OUT")
  {
    var prefix := BooksUrl + "/" + IntToString(book.bookId) + "/";
    assert Endpoint(book, "IN") == prefix + "stock-in";
    assert Endpoint(book, "OUT") == prefix + "stock-out";
    assert Endpoint(book, "IN")[|prefix| + 6] == 'i';
    assert Endpoint(book, "OUT")[|prefix| + 6] == 'o';
  }

  /**
   * A stock-out the modal sends for the stock it shows is accepted by the
   * stock-out route while the book's stock is still that value, and records
   * a sale whenever the price is a number.
   */
  lemma {:induction false} StockOutAccepted(s: Database.State, book: ModalBook, quantity: string, transactionDate: string, priceAtSale: string,
                         date: Option<int>, now: int)
    requires book.bookId in s.books && s.books[book.bookId].stockQty == book.stockQty
    requires Submit(book, "OUT", quantity, transactionDate, priceAtSale).Ok?
    ensures var p := Submit(book, "OUT", quantity, transactionDate, priceAtSale).value.payload;
      var r := BookRoutes.StockOutEffect(s, book.bookId, BookRoutes.StockOutRequest(p.quantity, date, p.priceAtSale, p.createTransaction), now);
      r.Ok? && (p.priceAtSale.Some? ==> r.value.1.Some?)
  {
    SubmitRequest(book, "OUT", quantity, transactionDate, priceAtSale);
  }
}
