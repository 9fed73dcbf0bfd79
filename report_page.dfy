// The figures book-store-app/src/pages/ReportPage.jsx derives from the report
// endpoints: the category revenue total, the twelve-month chart, the list of
// tips, and the rows of the CSV export.
module ReportPage {
  import opened Wrappers
  import opened Text
  import opened Lists

  /** `Number(x || 0)` for a nullable amount. */
  function Amount(x: Option<real>): real {
    if x.Some? then x.value else 0.0
  }

  /** A row of /categories-by-revenue. */
  datatype CategoryRow = CategoryRow(category: string, totalRevenue: Option<real>)

  /** `totalRevenue`: the sum of the categories' revenues, a null one counting 0. */
  function TotalRevenue(cats: seq<CategoryRow>): real {
    if cats == [] then 0.0 else TotalRevenue(cats[..|cats| - 1]) + Amount(cats[|cats| - 1].totalRevenue)
  }

  /** The total of two lists of categories is the sum of their totals. */
  lemma {:induction false} TotalRevenueConcat(a: seq<CategoryRow>, b: seq<CategoryRow>)
    ensures TotalRevenue(a + b) == TotalRevenue(a) + TotalRevenue(b)
    decreases |b|
  {
    if b != [] {
      var n := |b| - 1;
      assert (a + b)[..|a + b| - 1] == a + b[..n];
      TotalRevenueConcat(a, b[..n]);
    } else {
      assert a + b == a;
    }
  }

  /** With no negative revenue the total is not negative. */
  lemma {:induction false} TotalRevenueNonNegative(cats: seq<CategoryRow>)
    requires forall i :: 0 <= i < |cats| ==> Amount(cats[i].totalRevenue) >= 0.0
    ensures TotalRevenue(cats) >= 0.0
    decreases |cats|
  {
    if cats != [] {
      TotalRevenueNonNegative(cats[..|cats| - 1]);
    }
  }

  /** A row of /monthly-revenue. */
  datatype MonthRow = MonthRow(month: int, revenue: Option<real>)

  /** A point of the monthly chart: the month's number and its revenue. */
  datatype MonthPoint = MonthPoint(name: int, omzet: real)

  /** `Math.max(1, Math.min(12, month))`. */
  function Clamp(month: int): (m: int)
    ensures 1 <= m <= 12
    ensures 1 <= month <= 12 ==> m == month
    ensures month < 1 ==> m == 1
    ensures month > 12 ==> m == 12
  {
    if month < 1 then 1 else if month > 12 then 12 else month
  }

  /** The twelve revenues after the rows are written into their slots in turn. */
  function Buckets(rows: seq<MonthRow>): (r: seq<real>)
    ensures |r| == 12
  {
    if rows == [] then seq(12, _ => 0.0)
    else
      var last := rows[|rows| - 1];
      Buckets(rows[..|rows| - 1])[Clamp(last.month) - 1 := Amount(last.revenue)]
  }

  /** Row `j` names month `m` and no later row does. */
  predicate LastNaming(rows: seq<MonthRow>, j: int, m: int)
    requires 0 <= j < |rows|
  {
    Clamp(rows[j].month) == m && forall k :: j < k < |rows| ==> Clamp(rows[k].month) != m
  }

  /** A month no row names holds 0. */
  lemma {:induction false} UnnamedMonthIsZero(rows: seq<MonthRow>, m: int)
    requires 1 <= m <= 12
    requires forall j :: 0 <= j < |rows| ==> Clamp(rows[j].month) != m
    ensures Buckets(rows)[m - 1] == 0.0
    decreases |rows|
  {
    if rows != [] {
      var n := |rows| - 1;
      assert forall j :: 0 <= j < n ==> rows[..n][j] == rows[j];
      UnnamedMonthIsZero(rows[..n], m);
    }
  }

  /** A month holds the revenue of the last row that names it: a later row overwrites an earlier one. */
  lemma {:induction false} LastRowWins(rows: seq<MonthRow>, j: int, m: int)
    requires 0 <= j < |rows| && LastNaming(rows, j, m)
    ensures Buckets(rows)[m - 1] == Amount(rows[j].revenue)
    decreases |rows|
  {
    var n := |rows| - 1;
    if j < n {
      assert forall i :: 0 <= i < n ==> rows[..n][i] == rows[i];
      assert LastNaming(rows[..n], j, m);
      LastRowWins(rows[..n], j, m);
    }
  }

  /** With no negative revenue in the rows no month is negative. */
  lemma {:induction false} BucketsNonNegative(rows: seq<MonthRow>)
    requires forall j :: 0 <= j < |rows| ==> Amount(rows[j].revenue) >= 0.0
    ensures forall i :: 0 <= i < 12 ==> Buckets(rows)[i] >= 0.0
    decreases |rows|
  {
    if rows != [] {
      BucketsNonNegative(rows[..|rows| - 1]);
    }
  }

  /** The chart: months 1 to 12 in order with their revenues. */
  function ChartOf(rows: seq<MonthRow>): (chart: seq<MonthPoint>)
    ensures |chart| == 12
    ensures forall i :: 0 <= i < 12 ==> chart[i].name == i + 1
  {
    seq(12, i requires 0 <= i < 12 => MonthPoint(i + 1, Buckets(rows)[i]))
  }

  /** `monthlyChartData`: fills a twelve-slot array row by row, then names the slots. */
  method MonthlyChartData(rows: seq<MonthRow>) returns (chart: seq<MonthPoint>)
    ensures chart == ChartOf(rows)
  {
    var revenue := new real[12](_ => 0.0);
    assert revenue[..] == Buckets([]);
    for k := 0 to |rows|
      invariant revenue[..] == Buckets(rows[..k])
    {
      assert rows[..k + 1][..k] == rows[..k];
      revenue[Clamp(rows[k].month) - 1] := Amount(rows[k].revenue);
    }
    assert rows[..|rows|] == rows;
    chart := seq(12, i requires 0 <= i < 12 reads revenue => MonthPoint(i + 1, revenue[i]));
  }

  /** The tips the page can show. */
  datatype Tip = RevenueDrop | DominantCategory(category: string) | LowLoyalty | Stable

  /** The text shown for each tip. */
  function TipText(t: Tip): string {
    match t
    case RevenueDrop => "Omzet bulan ini turun ≥ 20% dibanding bulan lalu. Pertimbangkan promo bundling atau diskon terbatas."
    case DominantCategory(c) => "Kategori " + c + " menunjukkan kontribusi tinggi. Pertimbangkan penambahan stok dan display khusus."
    case LowLoyalty => "Pelanggan loyal rendah. Pertimbangkan program loyalti: poin, voucher, atau membership."
    case Stable => "Data stabil. Lanjutkan konsistensi stok, pelayanan, dan promosi mingguan."
  }

  /** The chart points the drop rule compares: those with a revenue of at least 0. */
  function NonNegative(chart: seq<MonthPoint>): seq<MonthPoint> {
    Filter(chart, (p: MonthPoint) => p.omzet >= 0.0)
  }

  /** The revenue-drop rule: the last of those points is below 80% of a positive one before it. */
  predicate DropFires(chart: seq<MonthPoint>) {
    var kept := NonNegative(chart);
    |chart| >= 2 && |kept| >= 2
    && kept[|kept| - 2].omzet > 0.0
    && kept[|kept| - 1].omzet < kept[|kept| - 2].omzet * 0.8
  }

  /** `Number(p.tx_count || 0)`. */
  function TxCount(c: Option<int>): int {
    if c.Some? then c.value else 0
  }

  /** The number of customers with at least two transactions. */
  function Loyal(counts: seq<Option<int>>): nat {
    |Filter(counts, (c: Option<int>) => TxCount(c) >= 2)|
  }

  /** The loyalty rule: there are customers and under a fifth of them are loyal. */
  predicate LoyaltyFires(counts: seq<Option<int>>) {
    |counts| > 0 && (Loyal(counts) as real) / (|counts| as real) < 0.2
  }

  /** The tips in the order they are pushed, with the fallback only when none fired. */
  function InsightsOf(chart: seq<MonthPoint>, dominant: Option<string>, totalRevenue: real, counts: seq<Option<int>>): seq<Tip> {
    var fired :=
      (if DropFires(chart) then [RevenueDrop] else [])
      + (if Given(dominant) && totalRevenue > 0.0 then [DominantCategory(dominant.value)] else [])
      + (if LoyaltyFires(counts) then [LowLoyalty] else []);
    if fired == [] then [Stable] else fired
  }

  /** `insights`: pushes each tip whose rule fires, then the fallback into an empty list. */
  method Insights(chart: seq<MonthPoint>, dominant: Option<string>, totalRevenue: real, counts: seq<Option<int>>)
    returns (tips: seq<Tip>)
    ensures tips == InsightsOf(chart, dominant, totalRevenue, counts)
  {
    tips := [];
    if |chart| >= 2 {
      var kept := NonNegative(chart);
      if |kept| >= 2 {
        var last := kept[|kept| - 1].omzet;
        var prev := kept[|kept| - 2].omzet;
        if prev > 0.0 && last < prev * 0.8 {
          tips := tips + [RevenueDrop];
        }
      }
    }
    if Given(dominant) && totalRevenue > 0.0 {
      tips := tips + [DominantCategory(dominant.value)];
    }
    var loyal := Loyal(counts);
    var total := |counts|;
    if total > 0 && (loyal as real) / (total as real) < 0.2 {
      tips := tips + [LowLoyalty];
    }
    if |tips| == 0 {
      tips := tips + [Stable];
    }
  }

  /**
   * The list is never empty; each tip is in it exactly when its rule fires,
   * and the fallback exactly when no rule fires.
   */
  lemma {:induction false} InsightsOutcome(chart: seq<MonthPoint>, dominant: Option<string>, totalRevenue: real, counts: seq<Option<int>>)
    ensures var tips := InsightsOf(chart, dominant, totalRevenue, counts);
      |tips| >= 1
      && (RevenueDrop in tips <==> DropFires(chart))
      && (LowLoyalty in tips <==> LoyaltyFires(counts))
      && (Given(dominant) ==> (DominantCategory(dominant.value) in tips <==> totalRevenue > 0.0))
      && (Stable in tips <==> !DropFires(chart) && !(Given(dominant) && totalRevenue > 0.0) && !LoyaltyFires(counts))
  {
  }

  /**
   * When no month's revenue is negative the filter keeps all twelve points,
   * so the drop rule compares month 12 with month 11 whatever the current month.
   */
  lemma {:induction false} DropComparesLastTwoMonths(rows: seq<MonthRow>)
    requires forall j :: 0 <= j < |rows| ==> Amount(rows[j].revenue) >= 0.0
    ensures var chart := ChartOf(rows);
      DropFires(chart) <==> chart[10].omzet > 0.0 && chart[11].omzet < chart[10].omzet * 0.8
  {
    var chart := ChartOf(rows);
    BucketsNonNegative(rows);
    FilterAll(chart, (p: MonthPoint) => p.omzet >= 0.0);
  }

  /** The summary figures of the export, each already rendered by `String(v)`. */
  datatype ReportSummary = ReportSummary(
    totalRevenue: string, totalTransactions: string,
    bestsellingBook: Option<string>, dominantCategory: Option<string>, avgTxValue: string)

  /** `v || '-'`. */
  function OrDash(v: Option<string>): string {
    if Given(v) then v.value else "-"
  }

  /** `String(v)` of a nullable revenue, rendered by `render`. */
  function Cell(v: Option<real>, render: real -> string): string {
    if v.Some? then render(v.value) else "null"
  }

  /**
   * `handleExportCSV`'s rows: the summary block, a blank row, the monthly
   * heading, header and points, a blank row, the category header and rows.
   */
  method ExportRows(s: ReportSummary, chart: seq<MonthPoint>, cats: seq<CategoryRow>, render: real -> string)
    returns (rows: seq<seq<string>>)
    ensures |rows| == 11 + |chart| + |cats|
    ensures rows[..9] == [
      ["Ringkasan"],
      ["Total Omzet", s.totalRevenue],
      ["Total Transaksi", s.totalTransactions],
      ["Buku Terlaris (profit)", OrDash(s.bestsellingBook)],
      ["Kategori Dominan", OrDash(s.dominantCategory)],
      ["Rata-rata Nilai Transaksi", s.avgTxValue],
      [],
      ["Omzet Bulanan"],
      ["Bulan", "Omzet"]]
    ensures forall i :: 0 <= i < |chart| ==> rows[9 + i] == [IntToString(chart[i].name), render(chart[i].omzet)]
    ensures rows[9 + |chart|] == [] && rows[10 + |chart|] == ["Kategori", "Omzet"]
    ensures forall j :: 0 <= j < |cats| ==> rows[11 + |chart| + j] == [cats[j].category, Cell(cats[j].totalRevenue, render)]
  {
    rows := [];
    rows := rows + [["Ringkasan"]];
    rows := rows + [["Total Omzet", s.totalRevenue]];
    rows := rows + [["Total Transaksi", s.totalTransactions]];
    rows := rows + [["Buku Terlaris (profit)", OrDash(s.bestsellingBook)]];
    rows := rows + [["Kategori Dominan", OrDash(s.dominantCategory)]];
    rows := rows + [["Rata-rata Nilai Transaksi", s.avgTxValue]];
    rows := rows + [[]];
    rows := rows + [["Omzet Bulanan"]];
    rows := rows + [["Bulan", "Omzet"]];
    ghost var head := rows;
    assert head == [
      ["Ringkasan"],
      ["Total Omzet", s.totalRevenue],
      ["Total Transaksi", s.totalTransactions],
      ["Buku Terlaris (profit)", OrDash(s.bestsellingBook)],
      ["Kategori Dominan", OrDash(s.dominantCategory)],
      ["Rata-rata Nilai Transaksi", s.avgTxValue],
      [],
      ["Omzet Bulanan"],
      ["Bulan", "Omzet"]];
    for i := 0 to |chart|
      invariant |rows| == 9 + i && rows[..9] == head
      invariant forall k :: 0 <= k < i ==> rows[9 + k] == [IntToString(chart[k].name), render(chart[k].omzet)]
    {
      rows := rows + [[IntToString(chart[i].name), render(chart[i].omzet)]];
    }
    rows := rows + [[]];
    rows := rows + [["Kategori", "Omzet"]];
    ghost var body := rows;
    for j := 0 to |cats|
      invariant |rows| == 11 + |chart| + j && rows[..11 + |chart|] == body
      invariant forall k :: 0 <= k < j ==> rows[11 + |chart| + k] == [cats[k].category, Cell(cats[k].totalRevenue, render)]
    {
      rows := rows + [[cats[j].category, Cell(cats[j].totalRevenue, render)]];
    }
  }
}
