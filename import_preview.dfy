// `POST /preview` of book-store-api/routes/importRoutes.js: the spreadsheet
// rows are grouped into orders by order number, every line is matched against
// the catalogue, and a summary counts the orders, the lines and what did not
// match. Nothing is written.
module ImportPreview {
  import opened Wrappers
  import opened Text
  import opened ImportHelpers
  import opened Similarity
  import opened Database

  /** A spreadsheet row: its cells by column header. */
  type Row = map<string, Cell>

  /** `row[key]`, `undefined` when the column is absent. */
  function Field(row: Row, key: string): Cell {
    if key in row then row[key] else Missing
  }

  /** The order number: the first truthy of the three columns, as text and trimmed. */
  function OrderNumberOf(row: Row): string {
    Trim(ToText(Or(Or(Or(Field(row, "Nomor Pesanan"), Field(row, "No. Pesanan")), Field(row, "Order Number")), Textual(""))))
  }

  // ---------------------------------------------------------------------------
  // The fields of one row

  /** A line of an order as the preview reads it; `quantity` is `None` for NaN. */
  datatype PreviewItem = PreviewItem(productName: string, isBundle: bool, quantity: Option<int>, productPrice: real, unitPrice: real)

  /** The header fields of an order, read from its first row. */
  datatype OrderHeader = OrderHeader(date: ExcelDate, payment: PaymentMethod, customerName: Cell, totalPayment: real)

  /** An order: its number, its header and its lines in row order. */
  datatype OrderGroup = OrderGroup(orderNumber: string, header: OrderHeader, items: seq<PreviewItem>)

  function ProductCell(row: Row): Cell {
    Or(Or(Field(row, "Nama Produk"), Field(row, "Product Name")), Textual(""))
  }

  function PaymentCell(row: Row): Cell {
    Or(Field(row, "Metode Pembayaran"), Field(row, "Payment Method"))
  }

  /** `productName.toLowerCase()` throws when the product cell is a truthy non-text value. */
  predicate ItemThrows(row: Row) {
    !ProductCell(row).Textual?
  }

  /** `mapPaymentMethod` throws on a truthy non-text payment cell. */
  predicate HeaderThrows(row: Row) {
    Truthy(PaymentCell(row)) && !PaymentCell(row).Textual?
  }

  /** `quantity > 0 ? productPrice / quantity : productPrice` (NaN compares false). */
  function UnitPrice(quantity: Option<int>, price: real): (r: real)
    ensures quantity.Some? && quantity.value > 0 ==> r * quantity.value as real == price
    ensures !(quantity.Some? && quantity.value > 0) ==> r == price
  {
    if quantity.Some? && quantity.value > 0 then price / quantity.value as real else price
  }

  function ItemOf(row: Row): (r: PreviewItem)
    ensures !ItemThrows(row) ==> r.productName == ProductCell(row).s
    ensures r.isBundle <==> Contains(ToLower(r.productName), "[bundle]")
  {
    var name := if ProductCell(row).Textual? then ProductCell(row).s else "";
    var quantityCell := Or(Or(Or(Field(row, "Jumlah Produk Dipesan"), Field(row, "Jumlah")), Field(row, "Quantity")), Number(1.0, "1"));
    var quantity := ParseInt(ToText(quantityCell));
    var price := ParseIndonesianNumber(Or(Or(Or(Field(row, "Total Harga Produk"), Field(row, "Harga Produk")), Field(row, "Price")),
                                          Number(0.0, "0")));
    PreviewItem(name, Contains(ToLower(name), "[bundle]"), quantity, price, UnitPrice(quantity, price))
  }

  function HeaderOf(row: Row, parseDate: string -> Option<int>): OrderHeader {
    var payment := PaymentCell(row);
    OrderHeader(
      ParseExcelDate(Or(Or(Field(row, "Waktu Pengiriman Diatur"), Field(row, "Waktu Pesanan Dibuat")), Field(row, "Order Date")), parseDate),
      if payment.Textual? then ClassifyPayment(payment.s) else Cash,
      Or(Or(Or(Or(Field(row, "Username (Pembeli)"), Field(row, "Username")), Field(row, "Nama Pembeli")), Field(row, "Customer Name")),
         Textual("")),
      ParseIndonesianNumber(Or(Or(Field(row, "Total Pembayaran"), Field(row, "Total Payment")), Number(0.0, "0"))))
  }

  // ---------------------------------------------------------------------------
  // Grouping

  /** Where order `on` sits among the groups, `|gs|` when it has none yet. */
  function IndexOfOrder(gs: seq<OrderGroup>, on: string): (k: nat)
    ensures k <= |gs|
    ensures k < |gs| ==> gs[k].orderNumber == on
    ensures forall j :: 0 <= j < k ==> gs[j].orderNumber != on
    ensures k == |gs| ==> forall j :: 0 <= j < |gs| ==> gs[j].orderNumber != on
  {
    if gs == [] then 0
    else if gs[0].orderNumber == on then 0
    else 1 + IndexOfOrder(gs[1..], on)
  }

  /** What the grouping loop reads from one row. */
  datatype RowData = RowData(number: string, header: OrderHeader, headerThrows: bool, item: PreviewItem, itemThrows: bool)

  function Read(row: Row, parseDate: string -> Option<int>): RowData {
    RowData(OrderNumberOf(row), HeaderOf(row, parseDate), HeaderThrows(row), ItemOf(row), ItemThrows(row))
  }

  function ReadAll(rows: seq<Row>, parseDate: string -> Option<int>): (ds: seq<RowData>)
    ensures |ds| == |rows|
  {
    seq(|rows|, i requires 0 <= i < |rows| => Read(rows[i], parseDate))
  }

  /**
   * One row of the grouping loop: a row without an order number is skipped;
   * the first row of an order opens its group with the header fields; every
   * row of an order appends its line. `None` is a thrown error.
   */
  function AddRow(gs: seq<OrderGroup>, d: RowData): Option<seq<OrderGroup>> {
    if d.number == "" then Some(gs)
    else
      var k := IndexOfOrder(gs, d.number);
      if k == |gs| && d.headerThrows then None
      else if d.itemThrows then None
      else
        var base := if k < |gs| then gs else gs + [OrderGroup(d.number, d.header, [])];
        Some(base[k := base[k].(items := base[k].items + [d.item])])
  }

  /** The grouping loop over the rows, in order. */
  function GroupRows(ds: seq<RowData>): Option<seq<OrderGroup>> {
    if ds == [] then Some([])
    else
      match GroupRows(ds[..|ds| - 1])
      case None => None
      case Some(gs) => AddRow(gs, ds[|ds| - 1])
  }

  /** Some row carries order number `on`. */
  predicate HasNumber(ds: seq<RowData>, on: string) {
    exists i :: 0 <= i < |ds| && ds[i].number == on
  }

  /** The first row that carries order number `on`. */
  function FirstWith(ds: seq<RowData>, on: string): (k: nat)
    requires HasNumber(ds, on)
    ensures k < |ds| && ds[k].number == on
    ensures forall j :: 0 <= j < k ==> ds[j].number != on
  {
    var init := ds[..|ds| - 1];
    if HasNumber(init, on) then
      var k := FirstWith(init, on);
      assert forall j :: 0 <= j <= k ==> init[j] == ds[j];
      k
    else
      assert forall j :: 0 <= j < |init| ==> init[j] == ds[j];
      |ds| - 1
  }

  /** The lines of the rows that carry order number `on`, in row order. */
  function ItemsWith(ds: seq<RowData>, on: string): seq<PreviewItem> {
    if ds == [] then []
    else ItemsWith(ds[..|ds| - 1], on) + if ds[|ds| - 1].number == on then [ds[|ds| - 1].item] else []
  }

  /** The order numbers of the groups are distinct and not empty, and every numbered row has its group. */
  predicate Keyed(gs: seq<OrderGroup>, ds: seq<RowData>) {
    (forall i, j :: 0 <= i < j < |gs| ==> gs[i].orderNumber != gs[j].orderNumber)
    && (forall i :: 0 <= i < |gs| ==> gs[i].orderNumber != "" && HasNumber(ds, gs[i].orderNumber))
    && (forall i :: 0 <= i < |ds| && ds[i].number != "" ==> HasGroup(gs, ds[i].number))
  }

  /** Some group has order number `on`. */
  predicate HasGroup(gs: seq<OrderGroup>, on: string) {
    exists j :: 0 <= j < |gs| && gs[j].orderNumber == on
  }

  /** Every group has the header of its order's first row and the lines of all its rows. */
  predicate Filled(gs: seq<OrderGroup>, ds: seq<RowData>)
    requires forall i :: 0 <= i < |gs| ==> HasNumber(ds, gs[i].orderNumber)
  {
    forall i :: 0 <= i < |gs| ==>
      gs[i].header == ds[FirstWith(ds, gs[i].orderNumber)].header
      && gs[i].items == ItemsWith(ds, gs[i].orderNumber)
  }

  lemma {:induction false} HasNumberSnoc(init: seq<RowData>, d: RowData, on: string)
    ensures HasNumber(init + [d], on) <==> HasNumber(init, on) || d.number == on
  {
    var ds := init + [d];
    if HasNumber(init, on) {
      var i :| 0 <= i < |init| && init[i].number == on;
      assert ds[i] == init[i];
    }
    if HasNumber(ds, on) && !HasNumber(init, on) {
      var i :| 0 <= i < |ds| && ds[i].number == on;
      if i < |init| {
        assert ds[i] == init[i];
      }
    }
    assert ds[|init|] == d;
  }

  lemma {:induction false} FirstWithSnoc(init: seq<RowData>, d: RowData, on: string)
    requires HasNumber(init, on)
    ensures HasNumber(init + [d], on) && FirstWith(init + [d], on) == FirstWith(init, on)
    ensures (init + [d])[FirstWith(init, on)] == init[FirstWith(init, on)]
  {
    HasNumberSnoc(init, d, on);
    assert (init + [d])[..|init|] == init;
  }

  lemma {:induction false} ItemsWithSnoc(init: seq<RowData>, d: RowData, on: string)
    ensures ItemsWith(init + [d], on) == ItemsWith(init, on) + if d.number == on then [d.item] else []
  {
    assert (init + [d])[..|init|] == init;
  }

  /** The number of rows that carry an order number. */
  function NumberedRows(ds: seq<RowData>): nat {
    if ds == [] then 0 else NumberedRows(ds[..|ds| - 1]) + if ds[|ds| - 1].number != "" then 1 else 0
  }

  /** Σ |items| over the groups: the summary's `totalItems`. */
  function TotalItems(gs: seq<OrderGroup>): nat {
    if gs == [] then 0 else TotalItems(gs[..|gs| - 1]) + |gs[|gs| - 1].items|
  }

  lemma {:induction false} TotalItemsUpdate(gs: seq<OrderGroup>, k: nat, g: OrderGroup)
    requires k < |gs|
    ensures TotalItems(gs[k := g]) == TotalItems(gs) - |gs[k].items| + |g.items|
  {
    if k < |gs| - 1 {
      assert gs[k := g][..|gs| - 1] == gs[..|gs| - 1][k := g];
      TotalItemsUpdate(gs[..|gs| - 1], k, g);
    } else {
      assert gs[k := g][..|gs| - 1] == gs[..|gs| - 1];
    }
  }

  /** A row with an order number extends the groups: a new order opens a group, and the line goes to its order's group. */
  lemma {:induction false} AddRowOpens(gs: seq<OrderGroup>, d: RowData)
    requires d.number != "" && AddRow(gs, d).Some?
    ensures var k, gs' := IndexOfOrder(gs, d.number), AddRow(gs, d).value;
      |gs'| == (if k < |gs| then |gs| else |gs| + 1)
      && gs'[k] == (if k < |gs| then gs[k] else OrderGroup(d.number, d.header, [])).(items := (if k < |gs| then gs[k].items else []) + [d.item])
      && (forall i :: 0 <= i < |gs| && i != k ==> gs'[i] == gs[i])
  {
  }

  /** A row with an order number adds exactly one line. */
  lemma {:induction false} AddRowCounts(gs: seq<OrderGroup>, d: RowData)
    requires d.number != "" && AddRow(gs, d).Some?
    ensures TotalItems(AddRow(gs, d).value) == TotalItems(gs) + 1
  {
    var k := IndexOfOrder(gs, d.number);
    var base := if k < |gs| then gs else gs + [OrderGroup(d.number, d.header, [])];
    if k == |gs| {
      assert base[..|gs|] == gs;
    }
    TotalItemsUpdate(base, k, base[k].(items := base[k].items + [d.item]));
  }

  /** A row without an order number changes no group and adds no line. */
  lemma {:induction false} SkipStep(gs: seq<OrderGroup>, init: seq<RowData>, d: RowData)
    requires Keyed(gs, init) && Filled(gs, init) && TotalItems(gs) == NumberedRows(init)
    requires d.number == ""
    ensures Keyed(gs, init + [d]) && Filled(gs, init + [d]) && TotalItems(gs) == NumberedRows(init + [d])
  {
    var ds := init + [d];
    assert ds[..|init|] == init;
    forall i | 0 <= i < |gs|
      ensures HasNumber(ds, gs[i].orderNumber)
      ensures gs[i].header == ds[FirstWith(ds, gs[i].orderNumber)].header
      ensures gs[i].items == ItemsWith(ds, gs[i].orderNumber)
    {
      ItemsWithSnoc(init, d, gs[i].orderNumber);
      FirstWithSnoc(init, d, gs[i].orderNumber);
    }
    forall i | 0 <= i < |ds| && ds[i].number != ""
      ensures HasGroup(gs, ds[i].number)
    {
      assert ds[i] == init[i];
    }
  }

  /** A numbered row keeps the order numbers distinct. */
  lemma {:induction false} NumberedDistinct(gs: seq<OrderGroup>, d: RowData)
    requires forall i, j :: 0 <= i < j < |gs| ==> gs[i].orderNumber != gs[j].orderNumber
    requires d.number != "" && AddRow(gs, d).Some?
    ensures var gs' := AddRow(gs, d).value;
      forall i, j :: 0 <= i < j < |gs'| ==> gs'[i].orderNumber != gs'[j].orderNumber
  {
    AddRowOpens(gs, d);
  }

  /** After a numbered row every group's number is set and carried by some row. */
  lemma {:induction false} NumberedGroupsHaveRows(gs: seq<OrderGroup>, init: seq<RowData>, d: RowData)
    requires forall i :: 0 <= i < |gs| ==> gs[i].orderNumber != "" && HasNumber(init, gs[i].orderNumber)
    requires d.number != "" && AddRow(gs, d).Some?
    ensures var gs' := AddRow(gs, d).value;
      forall i :: 0 <= i < |gs'| ==> gs'[i].orderNumber != "" && HasNumber(init + [d], gs'[i].orderNumber)
  {
    var gs' := AddRow(gs, d).value;
    AddRowOpens(gs, d);
    forall i | 0 <= i < |gs'|
      ensures gs'[i].orderNumber != "" && HasNumber(init + [d], gs'[i].orderNumber)
    {
      HasNumberSnoc(init, d, gs'[i].orderNumber);
    }
  }

  /** After a numbered row every numbered row has its group. */
  lemma {:induction false} NumberedRowsHaveGroups(gs: seq<OrderGroup>, init: seq<RowData>, d: RowData)
    requires forall i :: 0 <= i < |init| && init[i].number != "" ==> HasGroup(gs, init[i].number)
    requires d.number != "" && AddRow(gs, d).Some?
    ensures var ds, gs' := init + [d], AddRow(gs, d).value;
      forall i :: 0 <= i < |ds| && ds[i].number != "" ==> HasGroup(gs', ds[i].number)
  {
    var ds := init + [d];
    var gs' := AddRow(gs, d).value;
    var k := IndexOfOrder(gs, d.number);
    AddRowOpens(gs, d);
    forall i | 0 <= i < |init| && init[i].number != ""
      ensures HasGroup(gs', ds[i].number)
    {
      assert ds[i] == init[i];
      var j :| 0 <= j < |gs| && gs[j].orderNumber == init[i].number;
      assert gs'[j].orderNumber == ds[i].number;
    }
    assert ds[|init|] == d;
    assert gs'[k].orderNumber == d.number;
  }

  /** A numbered row keeps the order numbers distinct and gives every numbered row its group. */
  lemma {:induction false} NumberedKeyed(gs: seq<OrderGroup>, init: seq<RowData>, d: RowData)
    requires Keyed(gs, init)
    requires d.number != "" && AddRow(gs, d).Some?
    ensures Keyed(AddRow(gs, d).value, init + [d])
  {
    NumberedDistinct(gs, d);
    NumberedGroupsHaveRows(gs, init, d);
    NumberedRowsHaveGroups(gs, init, d);
  }

  /** A group that existed before the row keeps its header and gains the row's line when the row is its order's. */
  lemma {:induction false} OldGroupFilled(init: seq<RowData>, d: RowData, g: OrderGroup, g': OrderGroup)
    requires HasNumber(init, g.orderNumber)
    requires g.header == init[FirstWith(init, g.orderNumber)].header && g.items == ItemsWith(init, g.orderNumber)
    requires g' == g.(items := g.items + if d.number == g.orderNumber then [d.item] else [])
    ensures HasNumber(init + [d], g'.orderNumber)
    ensures g'.header == (init + [d])[FirstWith(init + [d], g'.orderNumber)].header
    ensures g'.items == ItemsWith(init + [d], g'.orderNumber)
  {
    ItemsWithSnoc(init, d, g.orderNumber);
    FirstWithSnoc(init, d, g.orderNumber);
  }

  /** No row carries the number, so no line belongs to it. */
  lemma {:induction false} ItemsWithAbsent(ds: seq<RowData>, on: string)
    requires !HasNumber(ds, on)
    ensures ItemsWith(ds, on) == []
  {
    if ds != [] {
      var init := ds[..|ds| - 1];
      assert init + [ds[|ds| - 1]] == ds;
      HasNumberSnoc(init, ds[|ds| - 1], on);
      ItemsWithAbsent(init, on);
    }
  }

  /** The first row of an order opens a group with its header and its line. */
  lemma {:induction false} NewGroupFilled(init: seq<RowData>, d: RowData)
    requires !HasNumber(init, d.number)
    ensures HasNumber(init + [d], d.number)
    ensures FirstWith(init + [d], d.number) == |init|
    ensures [d.item] == ItemsWith(init + [d], d.number)
  {
    HasNumberSnoc(init, d, d.number);
    ItemsWithSnoc(init, d, d.number);
    ItemsWithAbsent(init, d.number);
  }

  /** A numbered row keeps every group's header and gives its line to its own order's group only. */
  lemma {:induction false} NumberedFilled(gs: seq<OrderGroup>, init: seq<RowData>, d: RowData)
    requires Keyed(gs, init) && Filled(gs, init)
    requires d.number != "" && AddRow(gs, d).Some?
    ensures Keyed(AddRow(gs, d).value, init + [d]) && Filled(AddRow(gs, d).value, init + [d])
  {
    var ds := init + [d];
    var gs' := AddRow(gs, d).value;
    var k := IndexOfOrder(gs, d.number);
    NumberedKeyed(gs, init, d);
    AddRowOpens(gs, d);
    forall i | 0 <= i < |gs'|
      ensures gs'[i].header == ds[FirstWith(ds, gs'[i].orderNumber)].header
      ensures gs'[i].items == ItemsWith(ds, gs'[i].orderNumber)
    {
      if i < |gs| {
        assert i != k ==> gs[i].orderNumber != d.number;
        OldGroupFilled(init, d, gs[i], gs'[i]);
      } else {
        NewGroupFilled(init, d);
      }
    }
  }

  /** One row keeps the groups keyed and filled, and adds one line exactly when it carries an order number. */
  lemma {:induction false} AddRowStep(gs: seq<OrderGroup>, init: seq<RowData>, d: RowData)
    requires Keyed(gs, init) && Filled(gs, init) && TotalItems(gs) == NumberedRows(init)
    requires AddRow(gs, d).Some?
    ensures var gs' := AddRow(gs, d).value;
      Keyed(gs', init + [d]) && Filled(gs', init + [d]) && TotalItems(gs') == NumberedRows(init + [d])
  {
    assert (init + [d])[..|init|] == init;
    if d.number != "" {
      AddRowCounts(gs, d);
      NumberedFilled(gs, init, d);
    } else {
      SkipStep(gs, init, d);
    }
  }

  /**
   * When grouping succeeds there is exactly one group per distinct order
   * number, none for rows without one; each group's header comes from its
   * order's first row and its lines are its rows' lines in row order; and
   * the groups hold one line per numbered row.
   */
  lemma {:induction false} GroupRowsSpec(ds: seq<RowData>)
    requires GroupRows(ds).Some?
    ensures var gs := GroupRows(ds).value;
      Keyed(gs, ds) && Filled(gs, ds) && TotalItems(gs) == NumberedRows(ds)
  {
    if ds != [] {
      var init := ds[..|ds| - 1];
      GroupRowsSpec(init);
      assert init + [ds[|ds| - 1]] == ds;
      AddRowStep(GroupRows(init).value, init, ds[|ds| - 1]);
    }
  }

  /** Row `i` makes grouping throw: its line throws, or it opens its order and the header throws. */
  predicate RowThrows(ds: seq<RowData>, i: int)
    requires 0 <= i < |ds|
  {
    ds[i].number != "" && (ds[i].itemThrows || (ds[i].headerThrows && FirstWith(ds, ds[i].number) == i))
  }

  /** A row after the others does not change whether an earlier row throws. */
  lemma {:induction false} ThrowsKept(init: seq<RowData>, d: RowData, i: int)
    requires 0 <= i < |init|
    ensures RowThrows(init + [d], i) <==> RowThrows(init, i)
  {
    assert (init + [d])[i] == init[i];
    if init[i].number != "" {
      FirstWithSnoc(init, d, init[i].number);
    }
  }

  /** After rows that group, the next row fails the grouping exactly when it throws. */
  lemma {:induction false} LastThrows(init: seq<RowData>, d: RowData)
    requires GroupRows(init).Some?
    ensures GroupRows(init + [d]) == AddRow(GroupRows(init).value, d)
    ensures AddRow(GroupRows(init).value, d).None? <==> RowThrows(init + [d], |init|)
  {
    var ds := init + [d];
    assert ds[..|init|] == init;
    assert ds[|init|] == d;
    var gs := GroupRows(init).value;
    GroupRowsSpec(init);
    if d.number != "" {
      HasNumberSnoc(init, d, d.number);
      var k := IndexOfOrder(gs, d.number);
      if k == |gs| {
        if HasNumber(init, d.number) {
          assert false;
        }
        assert FirstWith(ds, d.number) == |init|;
      } else {
        assert HasNumber(init, gs[k].orderNumber);
        FirstWithSnoc(init, d, d.number);
      }
    }
  }

  /** Grouping fails exactly when a numbered row's line throws, or the first row of an order has a header that throws. */
  lemma {:induction false} GroupRowsFails(ds: seq<RowData>)
    ensures GroupRows(ds).None? <==> exists i :: 0 <= i < |ds| && RowThrows(ds, i)
  {
    if ds != [] {
      var init := ds[..|ds| - 1];
      var d := ds[|ds| - 1];
      assert init + [d] == ds;
      GroupRowsFails(init);
      forall i | 0 <= i < |init|
        ensures RowThrows(ds, i) <==> RowThrows(init, i)
      {
        ThrowsKept(init, d, i);
      }
      if GroupRows(init).Some? {
        LastThrows(init, d);
      } else {
        var i :| 0 <= i < |init| && RowThrows(init, i);
        assert RowThrows(ds, i);
      }
    }
  }

  /** The body of the grouping loop for one row read; `None` is a thrown error. */
  method GroupRow(gs: seq<OrderGroup>, d: RowData) returns (r: Option<seq<OrderGroup>>)
    ensures r == AddRow(gs, d)
  {
    r := Some(gs);
    if d.number != "" {
      var groups := gs;
      var k := IndexOfOrder(groups, d.number);
      if k == |groups| {
        if d.headerThrows {
          return None;
        }
        groups := groups + [OrderGroup(d.number, d.header, [])];
      }
      if d.itemThrows {
        return None;
      }
      groups := groups[k := groups[k].(items := groups[k].items + [d.item])];
      r := Some(groups);
    }
  }

  /** The grouping loop: `orderGroups` grows in first-appearance order. */
  method Group(rows: seq<Row>, parseDate: string -> Option<int>) returns (groups: Option<seq<OrderGroup>>)
    ensures groups == GroupRows(ReadAll(rows, parseDate))
  {
    ghost var ds := ReadAll(rows, parseDate);
    var gs: seq<OrderGroup> := [];
    var i := 0;
    while i < |rows|
      invariant 0 <= i <= |rows|
      invariant GroupRows(ds[..i]) == Some(gs)
    {
      var d := Read(rows[i], parseDate);
      assert ds[i] == d;
      GroupRowsNext(ds, i);
      var next := GroupRow(gs, d);
      if next.None? {
        GroupRowsStopped(ds, i + 1);
        return None;
      }
      gs := next.value;
      i := i + 1;
    }
    assert ds[..i] == ds;
    groups := Some(gs);
  }

  /** The grouping of one more row. */
  lemma {:induction false} GroupRowsNext(ds: seq<RowData>, i: nat)
    requires i < |ds|
    ensures GroupRows(ds[..i + 1]) == if GroupRows(ds[..i]).None? then None else AddRow(GroupRows(ds[..i]).value, ds[i])
  {
    assert ds[..i + 1][..i] == ds[..i];
  }

  lemma {:induction false} GroupRowsStopped(ds: seq<RowData>, k: nat)
    requires k <= |ds| && GroupRows(ds[..k]).None?
    ensures GroupRows(ds).None?
    decreases |ds| - k
  {
    if k < |ds| {
      assert ds[..k + 1][..k] == ds[..k];
      GroupRowsStopped(ds, k + 1);
    } else {
      assert ds[..k] == ds;
    }
  }

  // ---------------------------------------------------------------------------
  // Matching and the summary

  /** A row of the catalogue query: the bundles that are active, or all books. */
  datatype CatalogEntry = CatalogEntry(id: int, name: string, isbn: Option<string>, author: Option<string>, price: real, stock: int)

  /** `matchedData`; `score` is the similarity as a rounded percentage. */
  datatype MatchedData = MatchedData(id: int, name: string, isbn: Option<string>, author: Option<string>,
                                     dbPrice: real, currentStock: int, score: int)

  datatype PreviewLine = PreviewLine(item: PreviewItem, matched: Option<MatchedData>)

  datatype PreviewOrder = PreviewOrder(group: OrderGroup, lines: seq<PreviewLine>, existingId: Option<int>)

  datatype Unmatched = Unmatched(orderNumber: string, productName: string, isBundle: bool)

  datatype Summary = Summary(totalOrders: nat, newOrders: nat, replaceOrders: nat, totalItems: nat, unmatchedItems: nat)

  datatype Warning = UnmatchedWarning(items: seq<Unmatched>) | ReplaceWarning(count: nat) {
    function Message(): string {
      match this
      case UnmatchedWarning(items) =>
        NatToString(|items|) + " item tidak ditemukan di database dan akan diimpor dengan data minimal"
      case ReplaceWarning(count) => NatToString(count) + " transaksi sudah ada dan akan di-replace"
    }
  }

  datatype PreviewResult = PreviewResult(summary: Summary, warnings: seq<Warning>, data: seq<PreviewOrder>)

  const NoFile := ApiError(400, "File tidak ditemukan")
  const EmptyFile := ApiError(400, "File Excel kosong")
  const PreviewFailed := ApiError(500, "Gagal memproses file")

  function NamesOf(catalog: seq<CatalogEntry>): (r: seq<string>)
    ensures |r| == |catalog| && forall k :: 0 <= k < |r| ==> r[k] == catalog[k].name
  {
    if catalog == [] then [] else [catalog[0].name] + NamesOf(catalog[1..])
  }

  /** The header with order number `on` and the lowest id from `k` on (`SELECT transaction_id … WHERE order_number = ?`). */
  function ExistingFrom(s: State, on: string, k: int): (r: Option<int>)
    ensures r.Some? ==> r.value in s.transactions && s.transactions[r.value].orderNumber == Some(on)
    ensures r.None? ==> forall j :: k <= j < s.nextTransactionId && j in s.transactions ==> s.transactions[j].orderNumber != Some(on)
    decreases s.nextTransactionId - k
  {
    if k >= s.nextTransactionId then None
    else if k in s.transactions && s.transactions[k].orderNumber == Some(on) then Some(k)
    else ExistingFrom(s, on, k + 1)
  }

  /** The header an imported order would replace, if the order number is already in use. */
  function ExistingId(s: State, on: string): (r: Option<int>)
    ensures r.Some? ==> r.value in s.transactions && s.transactions[r.value].orderNumber == Some(on)
    ensures Valid(s) && r.None? ==> forall j :: j in s.transactions ==> s.transactions[j].orderNumber != Some(on)
  {
    ExistingFrom(s, on, 1)
  }

  /** The matched line: the catalogue entry at the best match's position. */
  function MatchedOf(catalog: seq<CatalogEntry>, best: Option<Match>): Option<MatchedData>
    requires best.Some? ==> best.value.index < |catalog|
  {
    match best
    case None => None
    case Some(m) =>
      var c := catalog[m.index];
      Some(MatchedData(c.id, c.name, c.isbn, c.author, c.price, c.stock, Percent(m.score)))
  }

  /** `Math.round(score * 100)`: halves round up. */
  function Percent(score: real): int {
    (score * 100.0 + 0.5).Floor
  }

  /** A score that reaches the threshold and stays below the bound of `Score` is a percentage from 50 to 130. */
  lemma {:induction false} MatchPercentRange(score: real)
    requires 0.5 <= score < 1.3
    ensures 50 <= Percent(score) <= 130
  {
  }

  /** A column value or `null` when it is empty (`x || null`). */
  function OrNull(x: string): Option<string> {
    if x == "" then None else Some(x)
  }

  /** The catalogue entry of a book, as the books query returns it. */
  function BookEntry(id: int, b: Book): CatalogEntry {
    CatalogEntry(id, b.title, OrNull(b.isbn), OrNull(b.author), b.sellingPrice, b.stockQty)
  }

  /** The catalogue entry of a bundle: no ISBN and no author. */
  function BundleEntry(id: int, b: Bundle): CatalogEntry {
    CatalogEntry(id, b.name, None, None, b.sellingPrice, b.stock)
  }

  /** `SELECT book_id, title, isbn, author, selling_price, stock_qty FROM books`, in some order: each book once. */
  ghost predicate BookCatalog(s: State, books: seq<CatalogEntry>) {
    (forall k :: 0 <= k < |books| ==> books[k].id in s.books && books[k] == BookEntry(books[k].id, s.books[books[k].id]))
    && (forall id :: id in s.books ==> exists k :: 0 <= k < |books| && books[k].id == id)
    && (forall k, l :: 0 <= k < l < |books| ==> books[k].id != books[l].id)
  }

  /** `SELECT bundle_id, bundle_name, selling_price, stock FROM bundles WHERE is_active = 1`, in some order: each active bundle once. */
  ghost predicate BundleCatalog(s: State, bundles: seq<CatalogEntry>) {
    (forall k :: 0 <= k < |bundles| ==> bundles[k].id in s.bundles && s.bundles[bundles[k].id].isActive
                                        && bundles[k] == BundleEntry(bundles[k].id, s.bundles[bundles[k].id]))
    && (forall id :: id in s.bundles && s.bundles[id].isActive ==> exists k :: 0 <= k < |bundles| && bundles[k].id == id)
    && (forall k, l :: 0 <= k < l < |bundles| ==> bundles[k].id != bundles[l].id)
  }

  /**
   * A line matched against the catalogue of its kind by its cleaned
   * product name: no match when no score reaches the threshold, otherwise
   * the entry with the earliest highest score.
   */
  ghost predicate LineMatches(line: PreviewLine, item: PreviewItem, books: seq<CatalogEntry>, bundles: seq<CatalogEntry>) {
    var clean := CleanName(item.productName);
    var catalog := if item.isBundle then bundles else books;
    var scores := ScoresOf(clean, NamesOf(catalog));
    line.item == item
    && (line.matched.None? <==> NoneQualifies(scores, |catalog|))
    && (line.matched.Some? ==>
          exists m: Match :: FirstMaximum(scores, |catalog|, m) && line.matched == MatchedOf(catalog, Some(m)))
  }

  /**
   * With the catalogues read from the database, a matched line names an
   * existing book under its title, or an active bundle under its name, with
   * the database's price and stock, and its score is a percentage from 50 to 130.
   */
  lemma {:induction false} MatchedFromDatabase(s: State, line: PreviewLine, books: seq<CatalogEntry>, bundles: seq<CatalogEntry>)
    requires BookCatalog(s, books) && BundleCatalog(s, bundles)
    requires LineMatches(line, line.item, books, bundles) && line.matched.Some?
    ensures var d := line.matched.value;
      (line.item.isBundle ==>
         d.id in s.bundles && s.bundles[d.id].isActive && d.name == s.bundles[d.id].name
         && d.dbPrice == s.bundles[d.id].sellingPrice && d.currentStock == s.bundles[d.id].stock)
      && (!line.item.isBundle ==>
         d.id in s.books && d.name == s.books[d.id].title
         && d.dbPrice == s.books[d.id].sellingPrice && d.currentStock == s.books[d.id].stockQty)
      && 50 <= d.score <= 130
  {
    var clean := CleanName(line.item.productName);
    var catalog := if line.item.isBundle then bundles else books;
    var scores := ScoresOf(clean, NamesOf(catalog));
    var m :| FirstMaximum(scores, |catalog|, m) && line.matched == MatchedOf(catalog, Some(m));
    ScoreAt(clean, NamesOf(catalog), m.index);
    ScoreRange(clean, NamesOf(catalog)[m.index]);
    MatchPercentRange(m.score);
  }

  /** The unmatched lines of the orders, in order. */
  function UnmatchedOf(data: seq<PreviewOrder>): seq<Unmatched> {
    if data == [] then []
    else UnmatchedOf(data[..|data| - 1]) + UnmatchedLines(data[|data| - 1].group.orderNumber, data[|data| - 1].lines)
  }

  function UnmatchedLines(on: string, lines: seq<PreviewLine>): seq<Unmatched> {
    if lines == [] then []
    else
      var l := lines[|lines| - 1];
      UnmatchedLines(on, lines[..|lines| - 1]) + if l.matched.None? then [Unmatched(on, l.item.productName, l.item.isBundle)] else []
  }

  /** The orders whose number is already in use. */
  function ReplaceCount(data: seq<PreviewOrder>): nat {
    if data == [] then 0 else ReplaceCount(data[..|data| - 1]) + if data[|data| - 1].existingId.Some? then 1 else 0
  }

  /** The warnings: unmatched lines first, then orders to replace, each only when there are any. */
  function WarningsOf(unmatched: seq<Unmatched>, replaceCount: nat): seq<Warning> {
    (if |unmatched| > 0 then [UnmatchedWarning(unmatched)] else [])
    + if replaceCount > 0 then [ReplaceWarning(replaceCount)] else []
  }

  /** One line matched against the catalogue of its kind. */
  method MatchLine(item: PreviewItem, books: seq<CatalogEntry>, bundles: seq<CatalogEntry>, names: seq<string>, bundleNames: seq<string>)
    returns (line: PreviewLine)
    requires names == NamesOf(books) && bundleNames == NamesOf(bundles)
    ensures LineMatches(line, item, books, bundles)
  {
    var catalog := if item.isBundle then bundles else books;
    var best := FindBestMatch(item.productName, if item.isBundle then bundleNames else names);
    line := PreviewLine(item, MatchedOf(catalog, best));
    if best.Some? {
      assert line.matched == MatchedOf(catalog, Some(best.value));
    }
  }

  /** The first `n` lines are the first `n` items matched against the catalogue. */
  ghost predicate MatchedUpTo(lines: seq<PreviewLine>, items: seq<PreviewItem>, n: int, books: seq<CatalogEntry>, bundles: seq<CatalogEntry>)
    requires 0 <= n <= |lines| && n <= |items|
  {
    forall t {:trigger lines[t]} :: 0 <= t < n ==> LineMatches(lines[t], items[t], books, bundles)
  }

  /** Each line is its item matched against the catalogue of its kind. */
  ghost predicate LinesMatch(lines: seq<PreviewLine>, items: seq<PreviewItem>, books: seq<CatalogEntry>, bundles: seq<CatalogEntry>) {
    |lines| == |items|
    && forall j :: 0 <= j < |items| ==> LineMatches(lines[j], items[j], books, bundles)
  }

  /** One more matched line extends a run of matched lines. */
  lemma {:induction false} MatchedSnoc(lines: seq<PreviewLine>, line: PreviewLine, items: seq<PreviewItem>, books: seq<CatalogEntry>, bundles: seq<CatalogEntry>)
    requires |lines| < |items|
    requires MatchedUpTo(lines, items, |lines|, books, bundles)
    requires LineMatches(line, items[|lines|], books, bundles)
    ensures MatchedUpTo(lines + [line], items, |lines| + 1, books, bundles)
  {
    var ls := lines + [line];
    var n := |lines|;
    forall t | 0 <= t < n
      ensures LineMatches(ls[t], items[t], books, bundles)
    {
      assert ls[t] == lines[t];
    }
    assert ls[n] == line;
    assert LineMatches(ls[n], items[n], books, bundles);
  }

  /** The matching loop of one order. */
  method MatchLines(items: seq<PreviewItem>, books: seq<CatalogEntry>, bundles: seq<CatalogEntry>)
    returns (lines: seq<PreviewLine>)
    ensures LinesMatch(lines, items, books, bundles)
  {
    lines := [];
    var names := NamesOf(books);
    var bundleNames := NamesOf(bundles);
    var j := 0;
    while j < |items|
      invariant 0 <= j <= |items| && |lines| == j
      invariant MatchedUpTo(lines, items, j, books, bundles)
    {
      var line := MatchLine(items[j], books, bundles, names, bundleNames);
      MatchedSnoc(lines, line, items, books, bundles);
      lines := lines + [line];
      j := j + 1;
    }
  }

  /** Each order in `data` is its group, looked up by number, with its lines matched in order. */
  ghost predicate OrdersMatched(s: State, gs: seq<OrderGroup>, data: seq<PreviewOrder>, books: seq<CatalogEntry>, bundles: seq<CatalogEntry>) {
    |data| == |gs|
    && forall i :: 0 <= i < |gs| ==>
         data[i].group == gs[i] && data[i].existingId == ExistingId(s, gs[i].orderNumber)
         && LinesMatch(data[i].lines, gs[i].items, books, bundles)
  }

  /** One more order, looked up and matched, extends the orders matched so far. */
  lemma {:induction false} OrdersMatchedSnoc(s: State, gs: seq<OrderGroup>, i: int, data: seq<PreviewOrder>, order: PreviewOrder,
                                             books: seq<CatalogEntry>, bundles: seq<CatalogEntry>)
    requires 0 <= i < |gs| && OrdersMatched(s, gs[..i], data, books, bundles)
    requires order.group == gs[i] && order.existingId == ExistingId(s, gs[i].orderNumber)
    requires LinesMatch(order.lines, gs[i].items, books, bundles)
    ensures OrdersMatched(s, gs[..i + 1], data + [order], books, bundles)
  {
    var gs', data' := gs[..i + 1], data + [order];
    forall k | 0 <= k < |gs'|
      ensures data'[k].group == gs'[k] && data'[k].existingId == ExistingId(s, gs'[k].orderNumber)
      ensures LinesMatch(data'[k].lines, gs'[k].items, books, bundles)
    {
      if k < i {
        assert data'[k] == data[k] && gs'[k] == gs[..i][k];
      }
    }
  }

  /** The order loop: each order is looked up by number and its lines are matched; new and replaced orders are counted. */
  method MatchOrders(db: Db, gs: seq<OrderGroup>, books: seq<CatalogEntry>, bundles: seq<CatalogEntry>)
    returns (data: seq<PreviewOrder>, newCount: nat, replaceCount: nat)
    ensures OrdersMatched(db.Snapshot(), gs, data, books, bundles)
    ensures newCount + replaceCount == |gs| && replaceCount == ReplaceCount(data)
  {
    data := [];
    newCount, replaceCount := 0, 0;
    var i := 0;
    while i < |gs|
      invariant 0 <= i <= |gs|
      invariant OrdersMatched(db.Snapshot(), gs[..i], data, books, bundles)
      invariant newCount + replaceCount == i && replaceCount == ReplaceCount(data)
    {
      var existing := ExistingId(db.Snapshot(), gs[i].orderNumber);
      if existing.Some? {
        replaceCount := replaceCount + 1;
      } else {
        newCount := newCount + 1;
      }
      var lines := MatchLines(gs[i].items, books, bundles);
      var order := PreviewOrder(gs[i], lines, existing);
      OrdersMatchedSnoc(db.Snapshot(), gs, i, data, order, books, bundles);
      assert (data + [order])[..i] == data;
      data := data + [order];
      i := i + 1;
    }
    assert gs[..i] == gs;
  }

  /**
   * The preview: a missing file and an empty sheet are refused, a row that
   * throws fails the request; otherwise one order per group, looked up and
   * matched, with a summary that counts orders, lines and unmatched lines.
   */
  method Preview(db: Db, file: Option<seq<Row>>, books: seq<CatalogEntry>, bundles: seq<CatalogEntry>,
                 parseDate: string -> Option<int>) returns (r: Result<PreviewResult, ApiError>)
    requires BookCatalog(db.Snapshot(), books) && BundleCatalog(db.Snapshot(), bundles)
    ensures file.None? ==> r == Err(NoFile)
    ensures file.Some? && file.value == [] ==> r == Err(EmptyFile)
    ensures file.Some? && file.value != [] && GroupRows(ReadAll(file.value, parseDate)).None? ==> r == Err(PreviewFailed)
    ensures r.Ok? <==> file.Some? && file.value != [] && GroupRows(ReadAll(file.value, parseDate)).Some?
    ensures r.Ok? ==> OrdersMatched(db.Snapshot(), GroupRows(ReadAll(file.value, parseDate)).value, r.value.data, books, bundles)
    ensures r.Ok? ==>
      var gs, p := GroupRows(ReadAll(file.value, parseDate)).value, r.value;
      p.summary.totalOrders == |gs| && p.summary.newOrders + p.summary.replaceOrders == p.summary.totalOrders
      && p.summary.replaceOrders == ReplaceCount(p.data)
      && p.summary.totalItems == TotalItems(gs) == NumberedRows(ReadAll(file.value, parseDate))
      && p.summary.unmatchedItems == |UnmatchedOf(p.data)|
      && p.warnings == WarningsOf(UnmatchedOf(p.data), p.summary.replaceOrders)
  {
    if file.None? {
      return Err(NoFile);
    }
    var rows := file.value;
    if rows == [] {
      return Err(EmptyFile);
    }
    var grouped := Group(rows, parseDate);
    if grouped.None? {
      return Err(PreviewFailed);
    }
    var gs := grouped.value;
    GroupRowsSpec(ReadAll(rows, parseDate));
    var data, newCount, replaceCount := MatchOrders(db, gs, books, bundles);
    var unmatched := UnmatchedOf(data);
    var summary := Summary(|gs|, newCount, replaceCount, TotalItems(gs), |unmatched|);
    r := Ok(PreviewResult(summary, WarningsOf(unmatched, replaceCount), data));
  }
}
