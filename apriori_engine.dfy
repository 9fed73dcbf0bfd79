// The data preparation and result shaping of apriori-service/apriori_engine.py:
// grouping sale rows into per-sale title and category lists, the guards,
// lift ordering and truncation around the mining step, the insight sentence,
// and the recommendation record. The mining itself is a parameter.
module AprioriEngine {
  import opened Wrappers
  import opened Text
  import opened Lists

  /** A row of the sales query: the sale it belongs to, the book's title and its category. */
  datatype SaleRow = SaleRow(transactionId: int, title: string, category: string)

  predicate Increasing(ids: seq<int>) {
    forall i, j :: 0 <= i < j < |ids| ==> ids[i] < ids[j]
  }

  /** Adds an id to an increasing list of ids. */
  function AddId(id: int, ids: seq<int>): (r: seq<int>)
    requires Increasing(ids)
    ensures Increasing(r)
    ensures forall x :: x in r <==> x in ids || x == id
  {
    if ids == [] then [id]
    else if id == ids[0] then ids
    else if id < ids[0] then [id] + ids
    else
      var t := AddId(id, ids[1..]);
      assert forall x :: x in ids[1..] ==> ids[0] < x;
      assert forall k :: 0 <= k < |t| ==> ids[0] < t[k] by {
        forall k | 0 <= k < |t| ensures ids[0] < t[k] {
          assert t[k] in t;
        }
      }
      [ids[0]] + t
  }

  /** The keys `groupby('transaction_id')` produces: the distinct ids, ascending. */
  function GroupIds(rows: seq<SaleRow>): (r: seq<int>)
    ensures Increasing(r)
  {
    if rows == [] then [] else AddId(rows[|rows| - 1].transactionId, GroupIds(rows[..|rows| - 1]))
  }

  /** Every row's sale id is a group key. */
  lemma {:induction false} GroupIdsCover(rows: seq<SaleRow>)
    ensures forall i :: 0 <= i < |rows| ==> rows[i].transactionId in GroupIds(rows)
    decreases |rows|
  {
    if rows != [] {
      var n := |rows| - 1;
      GroupIdsCover(rows[..n]);
      assert forall i :: 0 <= i < n ==> rows[..n][i] == rows[i];
    }
  }

  /** Every group key is the sale id of a row. */
  lemma {:induction false} GroupIdsFromRows(rows: seq<SaleRow>, x: int)
    requires x in GroupIds(rows)
    ensures exists i :: 0 <= i < |rows| && rows[i].transactionId == x
    decreases |rows|
  {
    var n := |rows| - 1;
    if x != rows[n].transactionId {
      GroupIdsFromRows(rows[..n], x);
      var i :| 0 <= i < n && rows[..n][i].transactionId == x;
      assert rows[i].transactionId == x;
    }
  }

  /** The rows of one sale, in their order. */
  function RowsOf(rows: seq<SaleRow>, id: int): seq<SaleRow> {
    Filter(rows, (r: SaleRow) => r.transactionId == id)
  }

  function TitlesOf(rows: seq<SaleRow>): (r: seq<string>)
    ensures |r| == |rows| && forall i :: 0 <= i < |rows| ==> r[i] == rows[i].title
  {
    seq(|rows|, i requires 0 <= i < |rows| => rows[i].title)
  }

  function CategoriesOf(rows: seq<SaleRow>): (r: seq<string>)
    ensures |r| == |rows| && forall i :: 0 <= i < |rows| ==> r[i] == rows[i].category
  {
    seq(|rows|, i requires 0 <= i < |rows| => rows[i].category)
  }

  predicate Distinct(xs: seq<string>) {
    forall i, j :: 0 <= i < j < |xs| ==> xs[i] != xs[j]
  }

  /** `list(set(x))`; Python's set order is unspecified, this keeps first occurrences. */
  function Dedup(xs: seq<string>): (r: seq<string>)
    ensures Distinct(r)
    ensures forall x :: x in r <==> x in xs
  {
    if xs == [] then []
    else
      var d := Dedup(xs[..|xs| - 1]);
      if xs[|xs| - 1] in d then d else d + [xs[|xs| - 1]]
  }

  /** The titles of one sale, duplicates kept. */
  function Titles(rows: seq<SaleRow>, id: int): seq<string> {
    TitlesOf(RowsOf(rows, id))
  }

  /** The distinct categories of one sale. */
  function Categories(rows: seq<SaleRow>, id: int): seq<string> {
    Dedup(CategoriesOf(RowsOf(rows, id)))
  }

  predicate Several(t: seq<string>) {
    |t| > 1
  }

  /** `prepare_transactions_by_book`: one title list per sale, ascending by id, keeping those with more than one title. */
  function ByBook(rows: seq<SaleRow>): seq<seq<string>> {
    if rows == [] then []
    else
      var ids := GroupIds(rows);
      Filter(seq(|ids|, i requires 0 <= i < |ids| => Titles(rows, ids[i])), Several)
  }

  /** `prepare_transactions_by_category`: the same over the distinct categories of each sale. */
  function ByCategory(rows: seq<SaleRow>): seq<seq<string>> {
    if rows == [] then []
    else
      var ids := GroupIds(rows);
      Filter(seq(|ids|, i requires 0 <= i < |ids| => Categories(rows, ids[i])), Several)
  }

  /**
   * A sale's title list has one entry per row of that sale, in row order
   * (so a title sold twice appears twice), and holds exactly their titles.
   */
  lemma {:induction false} TitlesOutcome(rows: seq<SaleRow>, id: int)
    ensures |Titles(rows, id)| == |RowsOf(rows, id)|
    ensures forall t :: t in Titles(rows, id) <==> exists i :: 0 <= i < |rows| && rows[i].transactionId == id && rows[i].title == t
  {
    var p := (r: SaleRow) => r.transactionId == id;
    FilterMembers(rows, p);
    var rs := RowsOf(rows, id);
    forall t | t in Titles(rows, id)
      ensures exists i :: 0 <= i < |rows| && rows[i].transactionId == id && rows[i].title == t
    {
      var k :| 0 <= k < |rs| && TitlesOf(rs)[k] == t;
      assert rs[k] in rs;
      var i :| 0 <= i < |rows| && rows[i] == rs[k];
    }
    forall t | exists i :: 0 <= i < |rows| && rows[i].transactionId == id && rows[i].title == t
      ensures t in Titles(rows, id)
    {
      var i :| 0 <= i < |rows| && rows[i].transactionId == id && rows[i].title == t;
      assert rows[i] in rows;
      var k :| 0 <= k < |rs| && rs[k] == rows[i];
      assert TitlesOf(rs)[k] == t;
    }
  }

  /**
   * The book lists: none for no rows; otherwise each kept list has more than
   * one title and is the title list of a sale, and every sale with more than
   * one row has its list kept.
   */
  lemma {:induction false} ByBookOutcome(rows: seq<SaleRow>)
    ensures rows == [] ==> ByBook(rows) == []
    ensures forall t :: t in ByBook(rows) ==> |t| > 1 && exists id :: id in GroupIds(rows) && t == Titles(rows, id)
    ensures forall id :: id in GroupIds(rows) && |RowsOf(rows, id)| > 1 ==> Titles(rows, id) in ByBook(rows)
  {
    if rows != [] {
      var ids := GroupIds(rows);
      var groups := seq(|ids|, i requires 0 <= i < |ids| => Titles(rows, ids[i]));
      FilterMembers(groups, Several);
      forall t | t in ByBook(rows)
        ensures exists id :: id in ids && t == Titles(rows, id)
      {
        var k :| 0 <= k < |groups| && groups[k] == t;
        assert ids[k] in ids;
      }
      forall id | id in ids && |RowsOf(rows, id)| > 1
        ensures Titles(rows, id) in ByBook(rows)
      {
        var k :| 0 <= k < |ids| && ids[k] == id;
        assert groups[k] == Titles(rows, id);
      }
    }
  }

  /**
   * The category lists: each kept list holds at least two categories, none
   * twice, and is exactly the set of categories of one sale's rows; every
   * sale with more than one distinct category has its list kept.
   */
  lemma {:induction false} ByCategoryOutcome(rows: seq<SaleRow>)
    ensures rows == [] ==> ByCategory(rows) == []
    ensures forall t :: t in ByCategory(rows) ==>
      |t| > 1 && Distinct(t) && exists id :: id in GroupIds(rows) && t == Categories(rows, id)
    ensures forall id, c :: c in Categories(rows, id) <==> c in CategoriesOf(RowsOf(rows, id))
    ensures forall id :: id in GroupIds(rows) && |Categories(rows, id)| > 1 ==> Categories(rows, id) in ByCategory(rows)
  {
    if rows != [] {
      var ids := GroupIds(rows);
      var groups := seq(|ids|, i requires 0 <= i < |ids| => Categories(rows, ids[i]));
      FilterMembers(groups, Several);
      forall t | t in ByCategory(rows)
        ensures Distinct(t) && exists id :: id in ids && t == Categories(rows, id)
      {
        var k :| 0 <= k < |groups| && groups[k] == t;
        assert ids[k] in ids;
      }
      forall id | id in ids && |Categories(rows, id)| > 1
        ensures Categories(rows, id) in ByCategory(rows)
      {
        var k :| 0 <= k < |ids| && ids[k] == id;
        assert groups[k] == Categories(rows, id);
      }
    }
  }

  // --------------------------------------------------------------- run_apriori

  /** An association rule as the engine reports it. */
  datatype Rule = Rule(antecedent: seq<string>, consequent: seq<string>, support: real, confidence: real, lift: real)

  predicate ByLiftDescending(rules: seq<Rule>) {
    forall i, j :: 0 <= i < j < |rules| ==> rules[i].lift >= rules[j].lift
  }

  function InsertByLift(r: Rule, sorted: seq<Rule>): (s: seq<Rule>)
    ensures |s| == |sorted| + 1
    ensures multiset(s) == multiset(sorted) + multiset{r}
  {
    if sorted == [] || r.lift >= sorted[0].lift then [r] + sorted
    else
      assert sorted == [sorted[0]] + sorted[1..];
      [sorted[0]] + InsertByLift(r, sorted[1..])
  }

  /** `sort_values('lift', ascending=False)`. */
  function SortByLift(rules: seq<Rule>): (s: seq<Rule>)
    ensures |s| == |rules|
    ensures multiset(s) == multiset(rules)
  {
    if rules == [] then []
    else
      assert rules == [rules[0]] + rules[1..];
      InsertByLift(rules[0], SortByLift(rules[1..]))
  }

  lemma {:induction false} InsertByLiftSorted(r: Rule, sorted: seq<Rule>)
    requires ByLiftDescending(sorted)
    ensures ByLiftDescending(InsertByLift(r, sorted))
    ensures InsertByLift(r, sorted)[0] == r || (sorted != [] && InsertByLift(r, sorted)[0] == sorted[0])
    decreases |sorted|
  {
    if !(sorted == [] || r.lift >= sorted[0].lift) {
      InsertByLiftSorted(r, sorted[1..]);
      var rest := InsertByLift(r, sorted[1..]);
      assert sorted[0].lift >= rest[0].lift;
      assert InsertByLift(r, sorted) == [sorted[0]] + rest;
    }
  }

  lemma {:induction false} SortByLiftSorted(rules: seq<Rule>)
    ensures ByLiftDescending(SortByLift(rules))
    decreases |rules|
  {
    if rules != [] {
      SortByLiftSorted(rules[1..]);
      InsertByLiftSorted(rules[0], SortByLift(rules[1..]));
    }
  }

  function Min(a: int, b: int): int {
    if a < b then a else b
  }

  /**
   * What `run_apriori` returns for what the mining produced: nothing when it
   * failed or found no rule, otherwise the ten rules of highest lift.
   */
  function TopRules(mined: Option<seq<Rule>>): seq<Rule> {
    if mined.None? || mined.value == [] then []
    else SortByLift(mined.value)[..Min(10, |mined.value|)]
  }

  /**
   * `run_apriori`: refuses fewer than two transactions without mining, then
   * copies the first ten rules by lift. `mine` stands for the encoding and
   * the mlxtend calls; `None` is an exception or an empty itemset table.
   */
  method RunApriori(transactions: seq<seq<string>>, mine: seq<seq<string>> -> Option<seq<Rule>>) returns (results: seq<Rule>)
    ensures |transactions| < 2 ==> results == []
    ensures |transactions| >= 2 ==> results == TopRules(mine(transactions))
  {
    if |transactions| < 2 {
      return [];
    }
    var mined := mine(transactions);
    if mined.None? || mined.value == [] {
      return [];
    }
    var rules := SortByLift(mined.value);
    var n := Min(10, |rules|);
    results := [];
    for i := 0 to n
      invariant results == rules[..i]
    {
      results := results + [rules[i]];
    }
  }

  /** The result has at most ten rules, in non-increasing lift, each one of the mined rules. */
  lemma {:induction false} TopRulesOrdered(mined: Option<seq<Rule>>)
    ensures |TopRules(mined)| <= 10
    ensures ByLiftDescending(TopRules(mined))
    ensures mined.Some? ==> |TopRules(mined)| == Min(10, |mined.value|)
    ensures mined.Some? ==> multiset(TopRules(mined)) <= multiset(mined.value)
  {
    if mined.Some? && mined.value != [] {
      var sorted := SortByLift(mined.value);
      SortByLiftSorted(mined.value);
      var n := Min(10, |mined.value|);
      SplitMultiset(sorted, n);
    }
  }

  /** A sequence is its prefix and its suffix, as multisets too. */
  lemma {:induction false} SplitMultiset(xs: seq<Rule>, n: int)
    requires 0 <= n <= |xs|
    ensures multiset(xs) == multiset(xs[..n]) + multiset(xs[n..])
  {
    assert xs == xs[..n] + xs[n..];
  }

  /** In a list sorted by lift, nothing after position `n` has a higher lift than anything before it. */
  lemma {:induction false} SortedPrefixTop(sorted: seq<Rule>, n: int, x: Rule, y: Rule)
    requires ByLiftDescending(sorted) && 0 <= n <= |sorted|
    requires x in sorted[n..] && y in sorted[..n]
    ensures x.lift <= y.lift
  {
    var a :| 0 <= a < |sorted| - n && sorted[n..][a] == x;
    var b :| 0 <= b < n && sorted[..n][b] == y;
    assert sorted[n + a] == x && sorted[b] == y;
  }

  /** No mined rule left out has a higher lift than a rule kept. */
  lemma {:induction false} TopRulesAreTop(mined: Option<seq<Rule>>, x: Rule, y: Rule)
    requires mined.Some?
    requires x in multiset(mined.value) - multiset(TopRules(mined)) && y in TopRules(mined)
    ensures x.lift <= y.lift
  {
    var sorted := SortByLift(mined.value);
    SortByLiftSorted(mined.value);
    var n := Min(10, |mined.value|);
    assert TopRules(mined) == sorted[..n];
    SplitMultiset(sorted, n);
    assert x in multiset(sorted[n..]);
    SortedPrefixTop(sorted, n, x, y);
  }

  // ------------------------------------------------------- insight sentence

  /** Python's `int` on a float: truncation toward zero. */
  function Truncate(x: real): int {
    if x >= 0.0 then x.Floor else -((-x).Floor)
  }

  /** `', '.join(parts)`. */
  function JoinComma(parts: seq<string>): string {
    if parts == [] then ""
    else if |parts| == 1 then parts[0]
    else parts[0] + ", " + JoinComma(parts[1..])
  }

  function Percent(rule: Rule): int {
    Truncate(rule.confidence * 100.0)
  }

  /** `generate_insight_text`: book wording for 'book', category wording for anything else. */
  function InsightText(rule: Rule, ruleType: string): string {
    var a := JoinComma(rule.antecedent);
    var c := JoinComma(rule.consequent);
    IntToString(Percent(rule)) + "%"
      + if ruleType == "book" then " pelanggan yang membeli \"" + a + "\" juga membeli \"" + c + "\""
        else " pelanggan yang membeli kategori \"" + a + "\" juga membeli kategori \"" + c + "\""
  }

  /** A confidence between 0 and 1 gives a percentage between 0 and 100. */
  lemma {:induction false} PercentRange(rule: Rule)
    requires 0.0 <= rule.confidence <= 1.0
    ensures 0 <= Percent(rule) <= 100
  {
  }

  /** The sentence starts with the percentage, which `parseInt` reads back. */
  lemma {:induction false} InsightStartsWithPercent(rule: Rule, ruleType: string)
    requires rule.confidence >= 0.0
    ensures ParseInt(InsightText(rule, ruleType)) == Some(Percent(rule))
  {
    var pct := Percent(rule);
    var ds := NatToString(pct);
    var text := InsightText(rule, ruleType);
    var tail := text[|ds|..];
    assert text == ds + tail;
    assert tail[0] == '%';
    assert !IsDigit(tail[0]);
    assert !IsSpace(text[0]) && text[0] != '+' && text[0] != '-';
    assert TrimStart(text) == text;
    assert text[0..] == text;
    LeadingDigitsConcat(ds, tail);
    assert text[..|ds|] == ds;
    NatToStringValue(pct);
  }

  // -------------------------------------------------------- recommendations

  /** One recommended bundle: the rule, its items and its sentence. */
  datatype Bundle = Bundle(items: seq<string>, antecedent: seq<string>, consequent: seq<string>,
                           support: real, confidence: real, lift: real, insight: string)

  datatype Recommendations = Recommendations(bookBundles: seq<Bundle>, categoryBundles: seq<Bundle>,
                                             totalBookRules: nat, totalCategoryRules: nat)

  function BundleOf(rule: Rule, ruleType: string): (b: Bundle)
    ensures b.items == rule.antecedent + rule.consequent
    ensures b.items[..|rule.antecedent|] == rule.antecedent && b.items[|rule.antecedent|..] == rule.consequent
  {
    Bundle(rule.antecedent + rule.consequent, rule.antecedent, rule.consequent,
           rule.support, rule.confidence, rule.lift, InsightText(rule, ruleType))
  }

  /**
   * `generate_bundling_recommendations`: the first five rules of each kind
   * in their order, each with its items and sentence; the totals count
   * every rule, not only the five shown.
   */
  method GenerateRecommendations(bookRules: seq<Rule>, categoryRules: seq<Rule>) returns (rec: Recommendations)
    ensures rec.totalBookRules == |bookRules| && rec.totalCategoryRules == |categoryRules|
    ensures |rec.bookBundles| == Min(5, |bookRules|)
    ensures forall i :: 0 <= i < |rec.bookBundles| ==> rec.bookBundles[i] == BundleOf(bookRules[i], "book")
    ensures |rec.categoryBundles| == Min(5, |categoryRules|)
    ensures forall i :: 0 <= i < |rec.categoryBundles| ==> rec.categoryBundles[i] == BundleOf(categoryRules[i], "category")
  {
    rec := Recommendations([], [], |bookRules|, |categoryRules|);
    for i := 0 to Min(5, |bookRules|)
      invariant rec.totalBookRules == |bookRules| && rec.totalCategoryRules == |categoryRules| && rec.categoryBundles == []
      invariant |rec.bookBundles| == i
      invariant forall k :: 0 <= k < i ==> rec.bookBundles[k] == BundleOf(bookRules[k], "book")
    {
      rec := rec.(bookBundles := rec.bookBundles + [BundleOf(bookRules[i], "book")]);
    }
    for i := 0 to Min(5, |categoryRules|)
      invariant rec.totalBookRules == |bookRules| && rec.totalCategoryRules == |categoryRules|
      invariant |rec.bookBundles| == Min(5, |bookRules|)
      invariant forall k :: 0 <= k < |rec.bookBundles| ==> rec.bookBundles[k] == BundleOf(bookRules[k], "book")
      invariant |rec.categoryBundles| == i
      invariant forall k :: 0 <= k < i ==> rec.categoryBundles[k] == BundleOf(categoryRules[k], "category")
    {
      rec := rec.(categoryBundles := rec.categoryBundles + [BundleOf(categoryRules[i], "category")]);
    }
  }
}
