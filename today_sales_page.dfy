// The figures book-store-app/src/pages/TodaySalesPage.jsx computes from the
// day's book and bundle sales: the summary, the revenue and count per payment
// method, and the sales per hour from 7:00 to 22:00. The hour of each sale is
// taken as given.
module TodaySalesPage {
  import opened Wrappers
  import opened Text
  import opened Lists

  /** What the aggregates read from a sale row of either list. */
  datatype Sale = Sale(total: Option<real>, customerName: Option<string>, paymentMethod: Option<string>, hour: int)

  /** A book sale row: its quantity is text, comma-joined when the sale had several lines. */
  datatype BookRow = BookRow(sale: Sale, quantity: Option<string>)

  /** A bundle sale row: its quantity is a number. */
  datatype BundleRow = BundleRow(sale: Sale, quantity: Option<int>)

  /** `Number(t.total || 0)`. */
  function Amount(x: Option<real>): real {
    if x.Some? then x.value else 0.0
  }

  /** The sum of the amounts of the sales. */
  function Revenue(sales: seq<Sale>): real {
    if sales == [] then 0.0 else Revenue(sales[..|sales| - 1]) + Amount(sales[|sales| - 1].total)
  }

  lemma {:induction false} RevenueConcat(a: seq<Sale>, b: seq<Sale>)
    ensures Revenue(a + b) == Revenue(a) + Revenue(b)
    decreases |b|
  {
    if b == [] {
      assert a + b == a;
    } else {
      assert (a + b)[..|a + b| - 1] == a + b[..|b| - 1];
      RevenueConcat(a, b[..|b| - 1]);
    }
  }

  function BookSales(books: seq<BookRow>): (r: seq<Sale>)
    ensures |r| == |books| && forall i :: 0 <= i < |books| ==> r[i] == books[i].sale
  {
    seq(|books|, i requires 0 <= i < |books| => books[i].sale)
  }

  function BundleSales(bundles: seq<BundleRow>): (r: seq<Sale>)
    ensures |r| == |bundles| && forall i :: 0 <= i < |bundles| ==> r[i] == bundles[i].sale
  {
    seq(|bundles|, i requires 0 <= i < |bundles| => bundles[i].sale)
  }

  /** `[...transactions, ...bundleTransactions]`. */
  function AllSales(books: seq<BookRow>, bundles: seq<BundleRow>): seq<Sale> {
    BookSales(books) + BundleSales(bundles)
  }

  // ---------------------------------------------------------------- summary

  /**
   * Each part read by `Number(q.trim())`; `None` stands for NaN. `Number`
   * trims the same white space itself, so the part is read as it is.
   */
  function PartValues(parts: seq<string>): seq<Option<real>> {
    seq(|parts|, k requires 0 <= k < |parts| => JsNumber(parts[k]))
  }

  /** The `reduce` over the parts' values: their sum, or NaN when any of them is NaN. */
  function PartsSum(vals: seq<Option<real>>): Option<real> {
    if vals == [] then Some(0.0)
    else
      var a := PartsSum(vals[..|vals| - 1]);
      var b := vals[|vals| - 1];
      if a.Some? && b.Some? then Some(a.value + b.value) else None
  }

  /** The items of one book sale: `String(t.quantity || '0')`, summed part by part when it holds a comma. */
  function BookQuantity(q: Option<string>): Option<real> {
    var s := if Given(q) then q.value else "0";
    if ',' in s then PartsSum(PartValues(Split(s, ','))) else JsNumber(s)
  }

  function BookItems(books: seq<BookRow>): Option<real> {
    if books == [] then Some(0.0)
    else
      match (BookItems(books[..|books| - 1]), BookQuantity(books[|books| - 1].quantity))
      case (Some(a), Some(b)) => Some(a + b)
      case _ => None
  }

  /** `Number(t.quantity || 0)` summed over the bundle sales. */
  function BundleItems(bundles: seq<BundleRow>): int {
    if bundles == [] then 0
    else
      var q := bundles[|bundles| - 1].quantity;
      BundleItems(bundles[..|bundles| - 1]) + (if q.Some? then q.value else 0)
  }

  /** The distinct truthy customer names. */
  function Customers(sales: seq<Sale>): set<string> {
    set i | 0 <= i < |sales| && Given(sales[i].customerName) :: sales[i].customerName.value
  }

  /** `totalTransactions > 0 ? totalRevenue / totalTransactions : 0`. */
  function Average(total: real, count: nat): (avg: real)
    ensures count > 0 ==> avg * count as real == total
    ensures count == 0 ==> avg == 0.0
  {
    if count > 0 then total / count as real else 0.0
  }

  datatype Summary = Summary(
    totalRevenue: real, bookTotal: real, bundleTotal: real,
    totalTransactions: nat, bookCount: nat, bundleCount: nat,
    totalItems: Option<real>, avgTransaction: real, uniqueCustomers: nat)

  /** `summary`. */
  function SummaryOf(books: seq<BookRow>, bundles: seq<BundleRow>): Summary {
    var bookTotal := Revenue(BookSales(books));
    var bundleTotal := Revenue(BundleSales(bundles));
    var totalRevenue := bookTotal + bundleTotal;
    var totalTransactions := |books| + |bundles|;
    var totalItems := match BookItems(books) case Some(q) => Some(q + BundleItems(bundles) as real) case None => None;
    Summary(
      totalRevenue, bookTotal, bundleTotal,
      totalTransactions, |books|, |bundles|,
      totalItems,
      Average(totalRevenue, totalTransactions),
      |Customers(BookSales(books)) + Customers(BundleSales(bundles))|)
  }

  /** A plain digit string is read as its value by `Number`. */
  lemma {:induction false} JsNumberDigits(ds: string)
    requires ds != [] && AllDigits(ds)
    ensures Trim(ds) == ds && JsNumber(ds) == Some(DigitsValue(ds) as real)
  {
    assert !IsSpace(ds[0]) && !IsSpace(ds[|ds| - 1]);
    ScanDigits(ds);
  }

  /** The sum of the values of digit strings. */
  function DigitsSum(parts: seq<string>): int {
    if parts == [] then 0 else DigitsSum(parts[..|parts| - 1]) + DigitsValue(parts[|parts| - 1])
  }

  /** Summing the values of digit strings gives the sum of their numbers. */
  lemma {:induction false} SumDigitValues(parts: seq<string>, vals: seq<Option<real>>)
    requires |vals| == |parts|
    requires forall k :: 0 <= k < |parts| ==> vals[k] == Some(DigitsValue(parts[k]) as real)
    ensures PartsSum(vals) == Some(DigitsSum(parts) as real)
    decreases |parts|
  {
    if parts != [] {
      var n := |parts| - 1;
      assert forall k :: 0 <= k < n ==> parts[..n][k] == parts[k] && vals[..n][k] == vals[k];
      SumDigitValues(parts[..n], vals[..n]);
    }
  }

  /** The parts with surrounding white space removed. */
  function TrimAll(parts: seq<string>): (r: seq<string>)
    ensures |r| == |parts| && forall k :: 0 <= k < |parts| ==> r[k] == Trim(parts[k])
  {
    seq(|parts|, k requires 0 <= k < |parts| => Trim(parts[k]))
  }

  /**
   * A quantity joined from two or more parts with ',', each a digit string
   * once trimmed (the API joins with ", "), counts as the sum of the numbers.
   */
  lemma {:induction false} JoinedQuantity(parts: seq<string>)
    requires |parts| >= 2
    requires forall k :: 0 <= k < |parts| ==> ',' !in parts[k] && Trim(parts[k]) != [] && AllDigits(Trim(parts[k]))
    ensures BookQuantity(Some(Join(parts, ','))) == Some(DigitsSum(TrimAll(parts)) as real)
  {
    var s := Join(parts, ',');
    assert s == parts[0] + [','] + Join(parts[1..], ',');
    assert s[|parts[0]|] == ',';
    assert s != "";
    SplitJoin(parts, ',');
    var trimmed := TrimAll(parts);
    var vals := PartValues(parts);
    forall k | 0 <= k < |parts|
      ensures vals[k] == Some(DigitsValue(trimmed[k]) as real)
    {
      TrimIdempotent(parts[k]);
      JsNumberDigits(trimmed[k]);
    }
    SumDigitValues(trimmed, vals);
  }

  /** The summary's revenue and transaction count are those of the two lists together. */
  lemma {:induction false} SummaryTotals(books: seq<BookRow>, bundles: seq<BundleRow>)
    ensures SummaryOf(books, bundles).totalRevenue == Revenue(AllSales(books, bundles))
    ensures SummaryOf(books, bundles).totalTransactions == |AllSales(books, bundles)|
  {
    RevenueConcat(BookSales(books), BundleSales(bundles));
  }

  /** There are no more distinct customers than transactions. */
  lemma {:induction false} SummaryCustomers(books: seq<BookRow>, bundles: seq<BundleRow>)
    ensures SummaryOf(books, bundles).uniqueCustomers <= SummaryOf(books, bundles).totalTransactions
  {
    var a := Customers(BookSales(books));
    var b := Customers(BundleSales(bundles));
    CustomersBound(BookSales(books));
    CustomersBound(BundleSales(bundles));
    assert |a + b| <= |a| + |b| by {
      assert |a + b| == |a| + |b| - |a * b|;
    }
  }

  lemma {:induction false} CustomersBound(sales: seq<Sale>)
    ensures |Customers(sales)| <= |sales|
    decreases |sales|
  {
    if sales != [] {
      var n := |sales| - 1;
      CustomersBound(sales[..n]);
      var c := Customers(sales[..n]);
      assert forall i :: 0 <= i < n ==> sales[..n][i] == sales[i];
      if Given(sales[n].customerName) {
        assert Customers(sales) == c + {sales[n].customerName.value};
      } else {
        assert Customers(sales) == c;
      }
    }
  }

  // ------------------------------------------------------- payment methods

  /** The bucket a sale falls in: its method, 'cash' when missing, under its Indonesian bucket. */
  function Label(paymentMethod: Option<string>): string {
    var m := if Given(paymentMethod) then paymentMethod.value else "cash";
    if m == "cash" then "Tunai"
    else if m == "qris" then "QRIS"
    else if m == "transfer" then "Transfer"
    else if m == "debit" then "Debit"
    else m
  }

  /** A sale with no payment method falls in the same bucket as a cash sale. */
  lemma {:induction false} MissingMethodIsTunai(paymentMethod: Option<string>)
    ensures !Given(paymentMethod) ==> Label(paymentMethod) == "Tunai"
    ensures Label(paymentMethod) == "Tunai" <==> !Given(paymentMethod) || paymentMethod.value in {"cash", "Tunai"}
  {
  }

  /** The number of sales in a bucket. */
  function LabelCount(sales: seq<Sale>, bucket: string): nat {
    if sales == [] then 0
    else LabelCount(sales[..|sales| - 1], bucket) + (if Label(sales[|sales| - 1].paymentMethod) == bucket then 1 else 0)
  }

  /** The revenue of the sales in a bucket. */
  function LabelRevenue(sales: seq<Sale>, bucket: string): real {
    if sales == [] then 0.0
    else LabelRevenue(sales[..|sales| - 1], bucket) + (if Label(sales[|sales| - 1].paymentMethod) == bucket then Amount(sales[|sales| - 1].total) else 0.0)
  }

  /** One entry of the breakdown. */
  datatype MethodEntry = MethodEntry(name: string, value: real, count: nat)

  function Names(entries: seq<MethodEntry>): (r: seq<string>)
    ensures |r| == |entries| && forall i :: 0 <= i < |entries| ==> r[i] == entries[i].name
  {
    seq(|entries|, i requires 0 <= i < |entries| => entries[i].name)
  }

  predicate Distinct(entries: seq<MethodEntry>) {
    forall i, j :: 0 <= i < j < |entries| ==> entries[i].name != entries[j].name
  }

  function SumCounts(entries: seq<MethodEntry>): int {
    if entries == [] then 0 else SumCounts(entries[..|entries| - 1]) + entries[|entries| - 1].count
  }

  function SumValues(entries: seq<MethodEntry>): real {
    if entries == [] then 0.0 else SumValues(entries[..|entries| - 1]) + entries[|entries| - 1].value
  }

  lemma {:induction false} SumsUpdate(entries: seq<MethodEntry>, i: int, e: MethodEntry)
    requires 0 <= i < |entries|
    ensures SumCounts(entries[i := e]) == SumCounts(entries) - entries[i].count + e.count
    ensures SumValues(entries[i := e]) == SumValues(entries) - entries[i].value + e.value
    decreases |entries|
  {
    var n := |entries| - 1;
    if i < n {
      assert entries[i := e][..n] == entries[..n][i := e];
      SumsUpdate(entries[..n], i, e);
    } else {
      assert entries[i := e][..n] == entries[..n];
    }
  }

  /** Where a bucket's entry is, or the number of entries when it has none. */
  function Find(entries: seq<MethodEntry>, bucket: string): (i: nat)
    ensures i <= |entries|
    ensures i < |entries| ==> entries[i].name == bucket
    ensures i == |entries| ==> bucket !in Names(entries)
  {
    if entries == [] then 0
    else if entries[0].name == bucket then 0
    else 1 + Find(entries[1..], bucket)
  }

  /** Adding a sale to the sales seen so far adds it to its bucket only. */
  lemma {:induction false} StepBuckets(sales: seq<Sale>, k: int, bucket: string)
    requires 0 <= k < |sales|
    ensures LabelCount(sales[..k + 1], bucket) == LabelCount(sales[..k], bucket) + (if Label(sales[k].paymentMethod) == bucket then 1 else 0)
    ensures LabelRevenue(sales[..k + 1], bucket) == LabelRevenue(sales[..k], bucket) + (if Label(sales[k].paymentMethod) == bucket then Amount(sales[k].total) else 0.0)
  {
    assert sales[..k + 1][..k] == sales[..k];
  }

  lemma {:induction false} StepRevenue(sales: seq<Sale>, k: int)
    requires 0 <= k < |sales|
    ensures Revenue(sales[..k + 1]) == Revenue(sales[..k]) + Amount(sales[k].total)
  {
    assert sales[..k + 1][..k] == sales[..k];
  }

  /** What holds of the breakdown after the first `k` sales. */
  predicate Tallied(sales: seq<Sale>, k: int, entries: seq<MethodEntry>)
    requires 0 <= k <= |sales|
  {
    Distinct(entries)
    && (forall i :: 0 <= i < |entries| ==>
          entries[i].count == LabelCount(sales[..k], entries[i].name)
          && entries[i].value == LabelRevenue(sales[..k], entries[i].name)
          && entries[i].count >= 1)
    && (forall j :: 0 <= j < k ==> Label(sales[j].paymentMethod) in Names(entries))
    && SumCounts(entries) == k
    && SumValues(entries) == Revenue(sales[..k])
  }

  /** Adding sale `k` to its existing entry keeps every entry equal to its bucket's tally. */
  lemma {:induction false} AddToEntryBuckets(sales: seq<Sale>, k: int, entries: seq<MethodEntry>, i: nat)
    requires 0 <= k < |sales| && Tallied(sales, k, entries)
    requires i < |entries| && entries[i].name == Label(sales[k].paymentMethod)
    ensures var r := entries[i := MethodEntry(entries[i].name, entries[i].value + Amount(sales[k].total), entries[i].count + 1)];
      forall m :: 0 <= m < |r| ==>
        r[m].count == LabelCount(sales[..k + 1], r[m].name)
        && r[m].value == LabelRevenue(sales[..k + 1], r[m].name)
        && r[m].count >= 1
  {
    var r := entries[i := MethodEntry(entries[i].name, entries[i].value + Amount(sales[k].total), entries[i].count + 1)];
    forall m | 0 <= m < |r|
      ensures r[m].count == LabelCount(sales[..k + 1], r[m].name)
      ensures r[m].value == LabelRevenue(sales[..k + 1], r[m].name)
    {
      StepBuckets(sales, k, r[m].name);
    }
  }

  /** Adding sale `k` to its existing entry keeps the tally. */
  lemma {:induction false} AddToEntry(sales: seq<Sale>, k: int, entries: seq<MethodEntry>, i: nat)
    requires 0 <= k < |sales| && Tallied(sales, k, entries)
    requires i < |entries| && entries[i].name == Label(sales[k].paymentMethod)
    ensures Tallied(sales, k + 1, entries[i := MethodEntry(entries[i].name, entries[i].value + Amount(sales[k].total), entries[i].count + 1)])
  {
    var e := MethodEntry(entries[i].name, entries[i].value + Amount(sales[k].total), entries[i].count + 1);
    var r := entries[i := e];
    AddToEntryBuckets(sales, k, entries, i);
    assert Names(r) == Names(entries);
    assert forall j :: 0 <= j < k + 1 ==> Label(sales[j].paymentMethod) in Names(r) by {
      forall j | 0 <= j < k + 1
        ensures Label(sales[j].paymentMethod) in Names(r)
      {
        if j == k {
          assert Names(r)[i] == Label(sales[k].paymentMethod);
        }
      }
    }
    SumsUpdate(entries, i, e);
    StepRevenue(sales, k);
  }

  /** Opening an entry for the bucket of sale `k` keeps the tally. */
  lemma {:induction false} NewEntry(sales: seq<Sale>, k: int, entries: seq<MethodEntry>)
    requires 0 <= k < |sales| && Tallied(sales, k, entries)
    requires Label(sales[k].paymentMethod) !in Names(entries)
    ensures Tallied(sales, k + 1, entries + [MethodEntry(Label(sales[k].paymentMethod), Amount(sales[k].total), 1)])
  {
    var r := entries + [MethodEntry(Label(sales[k].paymentMethod), Amount(sales[k].total), 1)];
    NewEntryBuckets(sales, k, entries, r);
    NewEntryNames(sales, k, entries, r);
    NewEntryDistinct(sales, k, entries, r);
    assert r[..|entries|] == entries;
    StepRevenue(sales, k);
  }

  /** A new bucket's entry holds its one sale, and every other entry keeps its tally. */
  lemma {:induction false} NewEntryBuckets(sales: seq<Sale>, k: int, entries: seq<MethodEntry>, r: seq<MethodEntry>)
    requires 0 <= k < |sales| && Tallied(sales, k, entries)
    requires Label(sales[k].paymentMethod) !in Names(entries)
    requires r == entries + [MethodEntry(Label(sales[k].paymentMethod), Amount(sales[k].total), 1)]
    ensures forall m :: 0 <= m < |r| ==>
      r[m].count == LabelCount(sales[..k + 1], r[m].name)
      && r[m].value == LabelRevenue(sales[..k + 1], r[m].name)
      && r[m].count >= 1
  {
    var bucket := Label(sales[k].paymentMethod);
    forall m | 0 <= m < |r|
      ensures r[m].count == LabelCount(sales[..k + 1], r[m].name)
      ensures r[m].value == LabelRevenue(sales[..k + 1], r[m].name)
      ensures r[m].count >= 1
    {
      StepBuckets(sales, k, r[m].name);
      if m == |entries| {
        NoBucketNoSales(sales[..k], bucket, entries);
      } else {
        assert r[m] == entries[m];
        assert Names(entries)[m] == r[m].name;
      }
    }
  }

  /** With a new bucket's entry every sale seen so far has an entry. */
  lemma {:induction false} NewEntryNames(sales: seq<Sale>, k: int, entries: seq<MethodEntry>, r: seq<MethodEntry>)
    requires 0 <= k < |sales| && Tallied(sales, k, entries)
    requires r == entries + [MethodEntry(Label(sales[k].paymentMethod), Amount(sales[k].total), 1)]
    ensures forall j :: 0 <= j < k + 1 ==> Label(sales[j].paymentMethod) in Names(r)
  {
    forall j | 0 <= j < k + 1
      ensures Label(sales[j].paymentMethod) in Names(r)
    {
      if j < k {
        var w :| 0 <= w < |entries| && Names(entries)[w] == Label(sales[j].paymentMethod);
        assert Names(r)[w] == Label(sales[j].paymentMethod);
      } else {
        assert Names(r)[|entries|] == Label(sales[k].paymentMethod);
      }
    }
  }

  /** A new bucket's entry keeps the entries distinct. */
  lemma {:induction false} NewEntryDistinct(sales: seq<Sale>, k: int, entries: seq<MethodEntry>, r: seq<MethodEntry>)
    requires 0 <= k < |sales| && Distinct(entries)
    requires Label(sales[k].paymentMethod) !in Names(entries)
    requires r == entries + [MethodEntry(Label(sales[k].paymentMethod), Amount(sales[k].total), 1)]
    ensures Distinct(r)
  {
    forall a, b | 0 <= a < b < |r|
      ensures r[a].name != r[b].name
    {
      assert r[a] == entries[a];
      if b == |entries| {
        assert Names(entries)[a] == r[a].name;
      } else {
        assert r[b] == entries[b];
      }
    }
  }

  /** A bucket with no entry holds no sale of those seen. */
  lemma {:induction false} NoBucketNoSales(seen: seq<Sale>, bucket: string, entries: seq<MethodEntry>)
    requires forall j :: 0 <= j < |seen| ==> Label(seen[j].paymentMethod) in Names(entries)
    requires bucket !in Names(entries)
    ensures LabelCount(seen, bucket) == 0 && LabelRevenue(seen, bucket) == 0.0
    decreases |seen|
  {
    if seen != [] {
      var n := |seen| - 1;
      assert forall j :: 0 <= j < n ==> seen[..n][j] == seen[j];
      NoBucketNoSales(seen[..n], bucket, entries);
    }
  }

  /**
   * `paymentBreakdown`: one entry per bucket, in the order the buckets first
   * occur, with the bucket's count and revenue; the counts add up to the
   * number of sales and the revenues to their total.
   */
  method PaymentBreakdown(sales: seq<Sale>) returns (entries: seq<MethodEntry>)
    ensures Distinct(entries)
    ensures forall i :: 0 <= i < |entries| ==>
      entries[i].count == LabelCount(sales, entries[i].name) && entries[i].value == LabelRevenue(sales, entries[i].name)
      && entries[i].count >= 1
    ensures forall j :: 0 <= j < |sales| ==> Label(sales[j].paymentMethod) in Names(entries)
    ensures SumCounts(entries) == |sales| && SumValues(entries) == Revenue(sales)
  {
    entries := [];
    for k := 0 to |sales|
      invariant Tallied(sales, k, entries)
    {
      var bucket := Label(sales[k].paymentMethod);
      var i := Find(entries, bucket);
      if i == |entries| {
        NewEntry(sales, k, entries);
        entries := entries + [MethodEntry(bucket, Amount(sales[k].total), 1)];
      } else {
        AddToEntry(sales, k, entries, i);
        entries := entries[i := MethodEntry(bucket, entries[i].value + Amount(sales[k].total), entries[i].count + 1)];
      }
    }
    assert sales[..|sales|] == sales;
  }

  /** The breakdown of the day's sales agrees with the summary's totals. */
  lemma {:induction false} BreakdownMatchesSummary(books: seq<BookRow>, bundles: seq<BundleRow>, entries: seq<MethodEntry>)
    requires SumCounts(entries) == |AllSales(books, bundles)| && SumValues(entries) == Revenue(AllSales(books, bundles))
    ensures SumCounts(entries) == SummaryOf(books, bundles).totalTransactions
    ensures SumValues(entries) == SummaryOf(books, bundles).totalRevenue
  {
    SummaryTotals(books, bundles);
  }

  // ----------------------------------------------------------------- hours

  function HourCount(sales: seq<Sale>, h: int): nat {
    if sales == [] then 0
    else HourCount(sales[..|sales| - 1], h) + (if sales[|sales| - 1].hour == h then 1 else 0)
  }

  function HourRevenue(sales: seq<Sale>, h: int): real {
    if sales == [] then 0.0
    else HourRevenue(sales[..|sales| - 1], h) + (if sales[|sales| - 1].hour == h then Amount(sales[|sales| - 1].total) else 0.0)
  }

  /** One bar of the hourly chart. */
  datatype HourPoint = HourPoint(hour: string, transactions: nat, omzet: real)

  /** `${hour}:00`. */
  function HourLabel(h: nat): string {
    NatToString(h) + ":00"
  }

  /** The chart: hours 7 to 22 in order, each with its count and revenue. */
  function HourlyOf(sales: seq<Sale>): (r: seq<HourPoint>)
    ensures |r| == 16
  {
    seq(16, i requires 0 <= i < 16 => HourPoint(HourLabel(i + 7), HourCount(sales, i + 7), HourRevenue(sales, i + 7)))
  }

  datatype Bucket = Bucket(count: nat, revenue: real)

  /** `hourlySales`: tallies the sales in a table keyed by hour, then reads hours 7 to 22 from it. */
  method HourlySales(sales: seq<Sale>) returns (points: seq<HourPoint>)
    ensures points == HourlyOf(sales)
  {
    var hours: map<int, Bucket> := map[];
    for k := 0 to |sales|
      invariant forall h :: h in hours ==> hours[h] == Bucket(HourCount(sales[..k], h), HourRevenue(sales[..k], h))
      invariant forall h :: h !in hours ==> HourCount(sales[..k], h) == 0 && HourRevenue(sales[..k], h) == 0.0
    {
      assert sales[..k + 1][..k] == sales[..k];
      var h := sales[k].hour;
      var data := if h in hours then hours[h] else Bucket(0, 0.0);
      hours := hours[h := Bucket(data.count + 1, data.revenue + Amount(sales[k].total))];
    }
    assert sales[..|sales|] == sales;
    points := seq(16, i requires 0 <= i < 16 =>
      var data := if i + 7 in hours then hours[i + 7] else Bucket(0, 0.0);
      HourPoint(HourLabel(i + 7), data.count, data.revenue));
  }

  function SumHourCounts(points: seq<HourPoint>): int {
    if points == [] then 0 else SumHourCounts(points[..|points| - 1]) + points[|points| - 1].transactions
  }

  /** The counts of hours 7 to 6 + n. */
  function HoursTotal(sales: seq<Sale>, n: nat): int {
    if n == 0 then 0 else HoursTotal(sales, n - 1) + HourCount(sales, 6 + n)
  }

  predicate InOpeningHours(s: Sale) {
    7 <= s.hour <= 22
  }

  lemma {:induction false} ChartCountsAreHoursTotal(sales: seq<Sale>, n: nat)
    requires n <= 16
    ensures SumHourCounts(HourlyOf(sales)[..n]) == HoursTotal(sales, n)
  {
    if n > 0 {
      ChartCountsAreHoursTotal(sales, n - 1);
      assert HourlyOf(sales)[..n][..n - 1] == HourlyOf(sales)[..n - 1];
    }
  }

  lemma {:induction false} HoursTotalStep(sales: seq<Sale>, s: Sale, n: nat)
    ensures HoursTotal(sales + [s], n) == HoursTotal(sales, n) + (if 7 <= s.hour <= 6 + n then 1 else 0)
  {
    assert (sales + [s])[..|sales|] == sales;
    if n > 0 {
      HoursTotalStep(sales, s, n - 1);
    }
  }

  /**
   * The hourly chart counts every sale made between 7:00 and 22:59 once and
   * no other sale.
   */
  lemma {:induction false} HourlyCountsOpeningHours(sales: seq<Sale>)
    ensures SumHourCounts(HourlyOf(sales)) == |Filter(sales, InOpeningHours)|
    decreases |sales|
  {
    ChartCountsAreHoursTotal(sales, 16);
    assert HourlyOf(sales)[..16] == HourlyOf(sales);
    HoursTotalIsInRange(sales);
  }

  lemma {:induction false} HoursTotalIsInRange(sales: seq<Sale>)
    ensures HoursTotal(sales, 16) == |Filter(sales, InOpeningHours)|
    decreases |sales|
  {
    if sales == [] {
      HoursTotalEmpty(16);
    } else {
      var n := |sales| - 1;
      HoursTotalIsInRange(sales[..n]);
      HoursTotalStep(sales[..n], sales[n], 16);
      assert sales[..n] + [sales[n]] == sales;
    }
  }

  lemma {:induction false} HoursTotalEmpty(n: nat)
    ensures HoursTotal([], n) == 0
  {
    if n > 0 {
      HoursTotalEmpty(n - 1);
    }
  }
}
