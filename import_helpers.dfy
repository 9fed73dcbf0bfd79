// The pure helpers of the spreadsheet import (book-store-api/routes/importRoutes.js):
// spreadsheet cell values, the Indonesian currency parser, the payment-method
// keyword classifier and the order-date decoder.
module ImportHelpers {
  import opened Wrappers
  import opened Text

  /**
   * One cell of a row as the spreadsheet reader hands it over. A number or a
   * date also carries `shown`, JavaScript's `String()` rendering of it, which
   * the model takes as given.
   */
  datatype Cell =
    | Missing
    | Null
    | Textual(s: string)
    | Number(n: real, shown: string)
    | Flag(b: bool)
    | When(ms: int, shown: string)

  /** JavaScript truthiness of a cell (the reader never produces NaN). */
  predicate Truthy(c: Cell) {
    match c
    case Missing => false
    case Null => false
    case Textual(s) => s != ""
    case Number(n, _) => n != 0.0
    case Flag(b) => b
    case When(_, _) => true
  }

  /** JavaScript `a || b`. */
  function Or(a: Cell, b: Cell): (r: Cell)
    ensures Truthy(r) <==> Truthy(a) || Truthy(b)
    ensures Truthy(a) ==> r == a
    ensures !Truthy(a) ==> r == b
  {
    if Truthy(a) then a else b
  }

  /** JavaScript `String(c)`. */
  function ToText(c: Cell): string {
    match c
    case Missing => "undefined"
    case Null => "null"
    case Textual(s) => s
    case Number(_, shown) => shown
    case Flag(b) => if b then "true" else "false"
    case When(_, shown) => shown
  }

  // ---------------------------------------------------------------------------
  // parseIndonesianNumber

  /** The characters the pattern `[Rp\s]` with the `i` flag removes. */
  predicate IsCurrencyOrSpace(c: char) {
    c == 'R' || c == 'r' || c == 'P' || c == 'p' || IsSpace(c)
  }

  function StripCurrency(s: string): (r: string)
    ensures forall i :: 0 <= i < |r| ==> !IsCurrencyOrSpace(r[i])
    ensures forall c :: c in r ==> c in s
    ensures (forall i :: 0 <= i < |s| ==> !IsCurrencyOrSpace(s[i])) ==> r == s
  {
    if s == [] then ""
    else if IsCurrencyOrSpace(s[0]) then StripCurrency(s[1..])
    else [s[0]] + StripCurrency(s[1..])
  }

  /** `s.replace(/c/g, '')`. */
  function RemoveAll(s: string, c: char): string {
    if s == [] then ""
    else if s[0] == c then RemoveAll(s[1..], c)
    else [s[0]] + RemoveAll(s[1..], c)
  }

  /** Removing every `c` leaves no `c`, adds no character and changes nothing when `c` is absent. */
  lemma {:induction false} RemoveAllProperties(s: string, c: char)
    ensures c !in RemoveAll(s, c)
    ensures forall d :: d in RemoveAll(s, c) ==> d in s
    ensures c !in s ==> RemoveAll(s, c) == s
  {
    if s != [] {
      RemoveAllProperties(s[1..], c);
    }
  }

  /** `s.replace(c, d)`: only the first occurrence. */
  function ReplaceFirst(s: string, c: char, d: char): (r: string)
    ensures |r| == |s|
    ensures c !in s ==> r == s
  {
    if s == [] then ""
    else if s[0] == c then [d] + s[1..]
    else [s[0]] + ReplaceFirst(s[1..], c, d)
  }

  /** The text after trimming, dropping one leading apostrophe and stripping `[Rp\s]`. */
  function CleanNumberText(s: string): (r: string)
    ensures forall i :: 0 <= i < |r| ==> !IsCurrencyOrSpace(r[i])
  {
    var t := Trim(s);
    var u := if t != [] && t[0] == '\'' then t[1..] else t;
    StripCurrency(u)
  }

  /** Dots as thousands separators and a single comma as decimal point. */
  function NormaliseSeparators(str: string): string {
    var dots, commas := Count(str, '.'), Count(str, ',');
    if dots > 0 && commas == 0 then RemoveAll(str, '.')
    else if dots > 0 && commas == 1 then ReplaceFirst(RemoveAll(str, '.'), ',', '.')
    else if commas == 1 && dots == 0 then ReplaceFirst(str, ',', '.')
    else str
  }

  /** `parseIndonesianNumber`: a cell read as an amount of rupiah; anything unreadable is 0. */
  function ParseIndonesianNumber(c: Cell): real {
    match c
    case Missing => 0.0
    case Null => 0.0
    case Number(n, _) => n
    case _ =>
      match ParseFloat(NormaliseSeparators(CleanNumberText(ToText(c))))
      case None => 0.0
      case Some(v) => v
  }

  lemma {:induction false} AbsentAndNumbers(n: real, shown: string)
    ensures ParseIndonesianNumber(Missing) == 0.0 && ParseIndonesianNumber(Null) == 0.0
    ensures ParseIndonesianNumber(Number(n, shown)) == n
  {
  }

  predicate DigitOrDot(c: char) {
    IsDigit(c) || c == '.'
  }

  lemma {:induction false} RemoveDotsDigits(s: string)
    requires forall i :: 0 <= i < |s| ==> DigitOrDot(s[i])
    ensures AllDigits(RemoveAll(s, '.'))
  {
    if s != [] {
      RemoveDotsDigits(s[1..]);
    }
  }

  /** A digit string (no sign, no dot, no exponent) is read as its decimal value. */
  lemma {:induction false} ParseFloatDigits(ds: string)
    requires ds != [] && AllDigits(ds)
    ensures ParseFloat(ds) == Some(DigitsValue(ds) as real)
  {
    assert TrimStart(ds) == ds;
    ScanDigits(ds);
  }

  lemma {:induction false} CleanKeepsPlainText(s: string)
    requires s != [] && forall i :: 0 <= i < |s| ==> DigitOrDot(s[i]) || s[i] == ','
    ensures CleanNumberText(s) == s
  {
    assert !IsSpace(s[0]) && !IsSpace(s[|s| - 1]);
    var t := Trim(s);
    assert t == s;
    assert t[0] != '\'';
    assert forall i :: 0 <= i < |s| ==> !IsCurrencyOrSpace(s[i]);
    assert StripCurrency(t) == t;
  }

  /**
   * Text made of digits and at least one dot (no comma) treats every dot as a
   * thousands separator: "1.500.000" is 1500000.
   */
  lemma {:induction false} ThousandsSeparators(s: string)
    requires forall i :: 0 <= i < |s| ==> DigitOrDot(s[i])
    requires '.' in s && exists i :: 0 <= i < |s| && IsDigit(s[i])
    ensures ParseIndonesianNumber(Textual(s)) == DigitsValue(RemoveAll(s, '.')) as real
  {
    CleanKeepsPlainText(s);
    NormaliseDotsOnly(s);
    DotsRemovedDigits(s);
    ParseFloatDigits(RemoveAll(s, '.'));
    AmountOfCleanText(s, DigitsValue(RemoveAll(s, '.')) as real);
  }

  lemma {:induction false} NormaliseDotsOnly(s: string)
    requires forall i :: 0 <= i < |s| ==> DigitOrDot(s[i])
    requires '.' in s
    ensures NormaliseSeparators(s) == RemoveAll(s, '.')
  {
    assert ',' !in s;
  }

  lemma {:induction false} DotsRemovedDigits(s: string)
    requires forall i :: 0 <= i < |s| ==> DigitOrDot(s[i])
    requires exists i :: 0 <= i < |s| && IsDigit(s[i])
    ensures RemoveAll(s, '.') != [] && AllDigits(RemoveAll(s, '.'))
  {
    RemoveDotsDigits(s);
    var i :| 0 <= i < |s| && IsDigit(s[i]);
    KeepsDigit(s, i);
  }

  lemma {:induction false} AmountOfCleanText(s: string, x: real)
    requires ParseFloat(NormaliseSeparators(CleanNumberText(s))) == Some(x)
    ensures ParseIndonesianNumber(Textual(s)) == x
  {
  }

  lemma {:induction false} KeepsDigit(s: string, i: nat)
    requires i < |s| && IsDigit(s[i])
    ensures RemoveAll(s, '.') != []
  {
    if i > 0 && s[0] == '.' {
      KeepsDigit(s[1..], i - 1);
    }
  }

  lemma {:induction false} ReplaceFirstAt(a: string, b: string)
    requires ',' !in a
    ensures ReplaceFirst(a + [','] + b, ',', '.') == a + ['.'] + b
  {
    if a != [] {
      assert (a + [','] + b)[1..] == a[1..] + [','] + b;
      ReplaceFirstAt(a[1..], b);
      assert a[0] in a;
    } else {
      assert a + [','] + b == [','] + b;
    }
  }

  lemma {:induction false} RemoveAllConcat(a: string, b: string, c: char)
    ensures RemoveAll(a + b, c) == RemoveAll(a, c) + RemoveAll(b, c)
  {
    if a != [] {
      assert (a + b)[1..] == a[1..] + b;
      RemoveAllConcat(a[1..], b, c);
    } else {
      assert a + b == b;
    }
  }

  /** The value "int.frac" of a digit string split by a decimal point. */
  function DecimalValue(intPart: string, frac: string): real {
    DigitsValue(intPart) as real + DigitsValue(frac) as real / Pow10(|frac|) as real
  }

  lemma {:induction false} ParseFloatDecimal(ip: string, fp: string)
    requires AllDigits(ip) && AllDigits(fp) && ip != [] && fp != []
    ensures ParseFloat(ip + "." + fp) == Some(DecimalValue(ip, fp))
  {
    var t := ip + "." + fp;
    assert t[0] == ip[0];
    assert TrimStart(t) == t;
    ScanPointDigits(ip, fp);
  }

  /**
   * Text made of digit groups separated by dots, then one comma and decimal
   * digits, reads the comma as the decimal point: "30.000,50" is 30000.5.
   * Covers both the dots-and-comma and the comma-only branches.
   */
  lemma {:induction false} DecimalComma(whole: string, frac: string)
    requires forall i :: 0 <= i < |whole| ==> DigitOrDot(whole[i])
    requires exists i :: 0 <= i < |whole| && IsDigit(whole[i])
    requires frac != [] && AllDigits(frac)
    ensures ParseIndonesianNumber(Textual(whole + "," + frac)) == DecimalValue(RemoveAll(whole, '.'), frac)
  {
    var s := whole + "," + frac;
    assert s == whole + [','] + frac;
    assert forall i :: 0 <= i < |s| ==> DigitOrDot(s[i]) || s[i] == ',' by {
      forall i | 0 <= i < |s| ensures DigitOrDot(s[i]) || s[i] == ',' {
        if i > |whole| { assert s[i] == frac[i - |whole| - 1]; }
      }
    }
    CleanKeepsPlainText(s);
    var w := RemoveAll(whole, '.');
    NormaliseOneComma(whole, frac);
    RemoveDotsDigits(whole);
    var i :| 0 <= i < |whole| && IsDigit(whole[i]);
    KeepsDigit(whole, i);
    ParseFloatDecimal(w, frac);
    assert ParseFloat(NormaliseSeparators(CleanNumberText(ToText(Textual(s))))) == Some(DecimalValue(w, frac));
  }

  lemma {:induction false} NormaliseOneComma(whole: string, frac: string)
    requires forall i :: 0 <= i < |whole| ==> DigitOrDot(whole[i])
    requires AllDigits(frac)
    ensures NormaliseSeparators(whole + "," + frac) == RemoveAll(whole, '.') + "." + frac
  {
    var s := whole + [','] + frac;
    assert whole + "," + frac == s;
    OneCommaCounts(whole, frac);
    var w := RemoveAll(whole, '.');
    if Count(whole, '.') > 0 {
      OneCommaDotsRemoved(whole, frac);
      RemoveAllProperties(whole, '.');
      ReplaceFirstAt(w, frac);
    } else {
      RemoveAllProperties(whole, '.');
      assert w == whole;
      ReplaceFirstAt(whole, frac);
    }
  }

  lemma {:induction false} OneCommaCounts(whole: string, frac: string)
    requires forall i :: 0 <= i < |whole| ==> DigitOrDot(whole[i])
    requires AllDigits(frac)
    ensures Count(whole + [','] + frac, ',') == 1
    ensures Count(whole + [','] + frac, '.') == Count(whole, '.')
    ensures ',' !in whole
  {
    var s := whole + [','] + frac;
    RemoveAllProperties(whole, '.');
    RemoveAllProperties(frac, '.');
    assert ',' !in whole;
    assert ',' !in frac && '.' !in frac;
    assert s == whole + ([','] + frac);
    CountConcat(whole, [','] + frac, ',');
    CountConcat([','], frac, ',');
    CountConcat(whole, [','] + frac, '.');
    CountConcat([','], frac, '.');
  }

  lemma {:induction false} OneCommaDotsRemoved(whole: string, frac: string)
    requires AllDigits(frac)
    ensures RemoveAll(whole + [','] + frac, '.') == RemoveAll(whole, '.') + [','] + frac
  {
    RemoveAllProperties(frac, '.');
    assert whole + [','] + frac == whole + ([','] + frac);
    RemoveAllConcat(whole, [','] + frac, '.');
    RemoveAllConcat([','], frac, '.');
    assert RemoveAll([','], '.') == [','];
  }

  lemma {:induction false} ThousandsInstance()
    ensures ParseIndonesianNumber(Textual("1.500.000")) == DigitsValue(RemoveAll("1.500.000", '.')) as real
  {
    var a := "1.500.000";
    assert IsDigit(a[0]) && a[1] == '.';
    ThousandsSeparators(a);
  }

  lemma {:induction false} DecimalCommaInstance()
    ensures ParseIndonesianNumber(Textual("30.000,50")) == DecimalValue(RemoveAll("30.000", '.'), "50")
  {
    var b := "30.000";
    assert IsDigit(b[0]);
    DecimalComma(b, "50");
    LiteralJoin();
  }

  lemma {:induction false} LiteralJoin()
    ensures "30.000" + "," + "50" == "30.000,50"
  {
  }

  lemma {:induction false} LiteralThousandsDots()
    ensures RemoveAll("1.500.000", '.') == "1500000"
  {
    assert "0"[0] == '0' && "0"[1..] == "";
    assert RemoveAll("0", '.') == "0";
    assert "00"[0] == '0' && "00"[1..] == "0";
    assert RemoveAll("00", '.') == "00";
    assert "000"[0] == '0' && "000"[1..] == "00";
    assert RemoveAll("000", '.') == "000";
    assert ".000"[0] == '.' && ".000"[1..] == "000";
    assert RemoveAll(".000", '.') == "000";
    assert "0.000"[0] == '0' && "0.000"[1..] == ".000";
    assert RemoveAll("0.000", '.') == "0000";
    assert "00.000"[0] == '0' && "00.000"[1..] == "0.000";
    assert RemoveAll("00.000", '.') == "00000";
    assert "500.000"[0] == '5' && "500.000"[1..] == "00.000";
    assert RemoveAll("500.000", '.') == "500000";
    assert ".500.000"[0] == '.' && ".500.000"[1..] == "500.000";
    assert RemoveAll(".500.000", '.') == "500000";
    assert "1.500.000"[0] == '1' && "1.500.000"[1..] == ".500.000";
    assert RemoveAll("1.500.000", '.') == "1500000";
  }

  lemma {:induction false} LiteralThousandsValue()
    ensures DigitsValue("1500000") == 1500000
  {
  }

  lemma {:induction false} LiteralDecimalDots()
    ensures RemoveAll("30.000", '.') == "30000"
  {
  }

  lemma {:induction false} LiteralDecimalValue()
    ensures DecimalValue("30000", "50") == 30000.5
  {
  }

  /** Two of the formats named in the source's comments. */
  lemma {:induction false} ParseExamples()
    ensures ParseIndonesianNumber(Textual("1.500.000")) == 1500000.0
    ensures ParseIndonesianNumber(Textual("30.000,50")) == 30000.5
  {
    ThousandsInstance();
    DecimalCommaInstance();
    LiteralThousandsDots();
    LiteralThousandsValue();
    LiteralDecimalDots();
    LiteralDecimalValue();
  }

  predicate NoDigit(s: string) {
    forall i :: 0 <= i < |s| ==> !IsDigit(s[i])
  }

  /** A string without a digit has no decimal prefix. */
  lemma {:induction false} NoDigitNoScan(t: string)
    requires NoDigit(t)
    ensures ScanDecimal(t) == None
  {
    var sl := if t != [] && (t[0] == '+' || t[0] == '-') then 1 else 0;
    var body := t[sl..];
    assert LeadingDigits(body) == 0;
    if 0 < |body| && body[0] == '.' {
      assert LeadingDigits(body[1..]) == 0;
    }
  }

  lemma {:induction false} NoDigitNoFloat(t: string)
    requires NoDigit(t)
    ensures ParseFloat(t) == None
  {
    var ts := TrimStart(t);
    TrimStartSuffix(t);
    assert NoDigit(ts) by {
      forall i | 0 <= i < |ts| ensures !IsDigit(ts[i]) {
        assert ts[i] == t[|t| - |ts| + i];
      }
    }
    NoDigitNoScan(ts);
  }

  lemma {:induction false} CleanNoDigit(s: string)
    requires NoDigit(s)
    ensures NoDigit(CleanNumberText(s))
  {
    var t := Trim(s);
    TrimStartSuffix(s);
    TrimEndPrefix(TrimStart(s));
    assert NoDigit(t) by {
      forall k | 0 <= k < |t| ensures !IsDigit(t[k]) {
        assert t[k] == TrimStart(s)[k];
        assert TrimStart(s)[k] == s[|s| - |TrimStart(s)| + k];
      }
    }
    var u := if t != [] && t[0] == '\'' then t[1..] else t;
    assert NoDigit(u);
    var cl := StripCurrency(u);
    assert NoDigit(cl) by {
      forall k | 0 <= k < |cl| ensures !IsDigit(cl[k]) {
        assert cl[k] in cl;
      }
    }
  }

  lemma {:induction false} RemoveAllNoDigit(s: string, c: char)
    requires NoDigit(s)
    ensures NoDigit(RemoveAll(s, c))
  {
    var r := RemoveAll(s, c);
    RemoveAllProperties(s, c);
    forall i | 0 <= i < |r| ensures !IsDigit(r[i]) {
      assert r[i] in r;
    }
  }

  lemma {:induction false} ReplaceFirstNoDigit(s: string)
    requires NoDigit(s)
    ensures NoDigit(ReplaceFirst(s, ',', '.'))
  {
    if s != [] && s[0] != ',' {
      ReplaceFirstNoDigit(s[1..]);
    }
  }

  lemma {:induction false} NormaliseNoDigit(s: string)
    requires NoDigit(s)
    ensures NoDigit(NormaliseSeparators(s))
  {
    RemoveAllNoDigit(s, '.');
    ReplaceFirstNoDigit(RemoveAll(s, '.'));
    ReplaceFirstNoDigit(s);
  }

  lemma {:induction false} AmountOfUnreadableText(s: string)
    requires ParseFloat(NormaliseSeparators(CleanNumberText(s))) == None
    ensures ParseIndonesianNumber(Textual(s)) == 0.0
  {
  }

  /** Text without any digit is unparseable and reads as 0. */
  lemma {:induction false} NoDigitsIsZero(s: string)
    requires NoDigit(s)
    ensures ParseIndonesianNumber(Textual(s)) == 0.0
  {
    CleanNoDigit(s);
    NormaliseNoDigit(CleanNumberText(s));
    NoDigitNoFloat(NormaliseSeparators(CleanNumberText(s)));
    AmountOfUnreadableText(s);
  }

  // ---------------------------------------------------------------------------
  // mapPaymentMethod

  datatype PaymentMethod = Cash | Qris | Transfer | Debit {
    /** The code stored in `transactions.payment_method`. */
    function Code(): string {
      match this
      case Cash => "cash"
      case Qris => "qris"
      case Transfer => "transfer"
      case Debit => "debit"
    }
  }

  /** `mapPaymentMethod` on a string: keyword tests in priority order, e-commerce default transfer. */
  function ClassifyPayment(s: string): PaymentMethod {
    if s == "" then Cash
    else
      var lower := ToLower(s);
      if Contains(lower, "qris") then Qris
      else if Contains(lower, "transfer") || Contains(lower, "bank") then Transfer
      else if Contains(lower, "debit") || Contains(lower, "kartu") then Debit
      else if Contains(lower, "cod") || Contains(lower, "tunai") || Contains(lower, "cash") then Cash
      else Transfer
  }

  /** An empty payment text is cash; any other text is classified by its keywords. */
  lemma {:induction false} EmptyIsCash()
    ensures ClassifyPayment("") == Cash
  {
  }

  /** The classifier ignores letter case. */
  lemma {:induction false} ClassifyIgnoresCase(s: string)
    ensures ClassifyPayment(ToLower(s)) == ClassifyPayment(s)
  {
    ToLowerIdempotent(s);
    if s == "" { assert ToLower(s) == ""; }
  }

  /** A later keyword only decides when every earlier one is absent. */
  lemma {:induction false} ClassifyPriority(s: string)
    requires s != ""
    ensures Contains(ToLower(s), "qris") ==> ClassifyPayment(s) == Qris
    ensures ClassifyPayment(s) == Debit ==>
      !Contains(ToLower(s), "qris") && !Contains(ToLower(s), "transfer") && !Contains(ToLower(s), "bank")
    ensures ClassifyPayment(s) == Cash <==>
      !Contains(ToLower(s), "qris") && !Contains(ToLower(s), "transfer") && !Contains(ToLower(s), "bank")
      && !Contains(ToLower(s), "debit") && !Contains(ToLower(s), "kartu")
      && (Contains(ToLower(s), "cod") || Contains(ToLower(s), "tunai") || Contains(ToLower(s), "cash"))
  {
  }

  /** When the lower-cased text has none of the keywords, the default is transfer. */
  lemma {:induction false} NoKeywordIsTransfer(s: string)
    requires s != ""
    requires forall c :: c in ToLower(s) ==> c !in "qtbdkc"
    ensures ClassifyPayment(s) == Transfer
  {
    var l := ToLower(s);
    assert 'q' in "qtbdkc" && 't' in "qtbdkc" && 'b' in "qtbdkc" && 'd' in "qtbdkc" && 'k' in "qtbdkc" && 'c' in "qtbdkc";
    NotContainsFirst(l, "qris");
    NotContainsFirst(l, "transfer");
    NotContainsFirst(l, "bank");
    NotContainsFirst(l, "debit");
    NotContainsFirst(l, "kartu");
    NotContainsFirst(l, "cod");
    NotContainsFirst(l, "tunai");
    NotContainsFirst(l, "cash");
  }

  lemma {:induction false} LowerShopeePay()
    ensures ToLower("ShopeePay") == "shopeepay"
  {
  }

  lemma {:induction false} LowerQris()
    ensures ToLower("QRIS") == "qris"
  {
  }

  /** An e-wallet name carries no keyword and is booked as a transfer. */
  lemma {:induction false} ClassifyShopeePay()
    ensures ClassifyPayment("ShopeePay") == Transfer
  {
    var s := "ShopeePay";
    LowerShopeePay();
    ShopeePayLetters(ToLower(s));
    NoKeywordIsTransfer(s);
  }

  lemma {:induction false} ShopeePayLetters(l: string)
    requires l == "shopeepay"
    ensures forall c :: c in l ==> c !in "qtbdkc"
  {
  }

  /** Upper-case "QRIS" is recognised. */
  lemma {:induction false} ClassifyQris()
    ensures ClassifyPayment("QRIS") == Qris
  {
    LowerQris();
    ContainsSelf("qris");
  }

  // ---------------------------------------------------------------------------
  // parseExcelDate

  /** A local calendar time as `new Date(year, monthIndex, day, hour, minute)` takes it. */
  datatype LocalTime = LocalTime(year: int, monthIndex: int, day: int, hour: int, minute: int)

  /** Local midnight of 1899-12-30, the day before spreadsheet serial day 1. */
  const ExcelEpoch := LocalTime(1899, 11, 30, 0, 0)

  /** What `parseExcelDate` returns; calendar arithmetic is left to the Date object. */
  datatype ExcelDate =
    | Now                               // new Date() at the time of the request
    | Instant(ms: int)                  // a Date the reader produced, or `new Date(text)`
    | Local(at: LocalTime)              // the "DD-MM-YYYY HH:mm" pattern
    | AfterEpoch(base: LocalTime, offsetMs: real) // a serial day count: base plus ms milliseconds

  datatype DateParts = DateParts(day: int, month: int, year: int, hour: int, minute: int)

  predicate IsDateSep(c: char) {
    c == '-' || c == '/'
  }

  /** What `(\d{1,2})?` takes at the front of `s`. */
  function UpToTwoDigits(s: string): (n: nat)
    ensures n <= 2 && n <= |s| && n <= LeadingDigits(s)
  {
    if LeadingDigits(s) >= 2 then 2 else LeadingDigits(s)
  }

  function OptionalNumber(s: string, n: nat): int
    requires n <= |s|
  {
    if n == 0 then 0 else DigitsValue(s[..n])
  }

  /**
   * `(\d{1,2})[-\/]` at the front of `s`: the field's value and what follows
   * the separator. A run of three or more digits cannot be followed by the
   * separator whichever split the regex tries, so the field is the whole run.
   */
  function MatchField(s: string): Option<(int, string)> {
    var d := LeadingDigits(s);
    if d < 1 || d > 2 || d == |s| || !IsDateSep(s[d]) then None
    else Some((DigitsValue(s[..d]), s[d + 1..]))
  }

  /** `(\d{4})` at the front of `u`: the year and the rest. */
  function MatchYear(u: string): Option<(int, string)> {
    if LeadingDigits(u) < 4 then None
    else Some((DigitsValue(u[..4]), u[4..]))
  }

  /** `\s*(\d{1,2})?:?(\d{1,2})?`, which always matches, greedily: hour and minute, 0 when absent. */
  function MatchTime(tail: string): (int, int) {
    var v := TrimStart(tail);
    var h := UpToTwoDigits(v);
    var w := v[h..];
    var w2 := if w != [] && w[0] == ':' then w[1..] else w;
    var mi := UpToTwoDigits(w2);
    (OptionalNumber(v, h), OptionalNumber(w2, mi))
  }

  /** `(\d{1,2})[-\/](\d{1,2})[-\/](\d{4})\s*(\d{1,2})?:?(\d{1,2})?` tried at the front of `s`. */
  function MatchDateAt(s: string): Option<DateParts> {
    match MatchField(s)
    case None => None
    case Some((day, t)) =>
      match MatchField(t)
      case None => None
      case Some((month, u)) =>
        match MatchYear(u)
        case None => None
        case Some((year, rest)) =>
          var (hour, minute) := MatchTime(rest);
          Some(DateParts(day, month, year, hour, minute))
  }

  /** The unanchored search: the leftmost position where the pattern matches. */
  function MatchDate(s: string): Option<DateParts> {
    if MatchDateAt(s).Some? then MatchDateAt(s)
    else if s == [] then None
    else MatchDate(s[1..])
  }

  /** A text cell: the day-month-year pattern first, then `new Date(text)`, then now. */
  function ReadText(s: string, parseDate: string -> Option<int>): ExcelDate {
    match MatchDate(s)
    case Some(p) => Local(LocalTime(p.year, p.month - 1, p.day, p.hour, p.minute))
    case None =>
      match parseDate(s)
      case Some(ms) => Instant(ms)
      case None => Now
  }

  /**
   * `parseExcelDate`. `parseDate` is `new Date(text)` (None for an invalid
   * date); "now" is the `Now` value.
   */
  function ParseExcelDate(c: Cell, parseDate: string -> Option<int>): (r: ExcelDate)
    ensures !Truthy(c) ==> r == Now
  {
    if !Truthy(c) then Now
    else match c
      case When(ms, _) => Instant(ms)
      case Textual(s) => ReadText(s, parseDate)
      case Number(n, _) => AfterEpoch(ExcelEpoch, n * 86400000.0)
      case _ => Now
  }

  /** A one- or two-digit field followed by a separator is read whole. */
  lemma {:induction false} FieldMatches(x: string, c: char, rest: string)
    requires 1 <= |x| <= 2 && AllDigits(x) && IsDateSep(c)
    ensures MatchField(x + [c] + rest) == Some((DigitsValue(x), rest))
  {
    var s := x + [c] + rest;
    assert s == x + ([c] + rest);
    LeadingDigitsConcat(x, [c] + rest);
    assert s[..|x|] == x;
    assert s[|x| + 1..] == rest;
  }

  /** Four digits are read as the year, whatever follows. */
  lemma {:induction false} YearMatches(y: string, rest: string)
    requires |y| == 4 && AllDigits(y)
    ensures MatchYear(y + rest) == Some((DigitsValue(y), rest))
  {
    LeadingDigitsAtLeast(y, rest);
    assert (y + rest)[..4] == y;
    assert (y + rest)[4..] == rest;
  }

  /** Nothing after the year: midnight. */
  lemma {:induction false} NoTime()
    ensures MatchTime("") == (0, 0)
  {
    assert TrimStart("") == "";
  }

  /** Greedy optional digits: a one- or two-digit run followed by a non-digit is taken whole. */
  lemma {:induction false} TwoDigitsTaken(x: string, rest: string)
    requires 1 <= |x| <= 2 && AllDigits(x) && (rest == [] || !IsDigit(rest[0]))
    ensures UpToTwoDigits(x + rest) == |x|
    ensures OptionalNumber(x + rest, |x|) == DigitsValue(x)
    ensures (x + rest)[|x|..] == rest
  {
    LeadingDigitsConcat(x, rest);
    assert (x + rest)[..|x|] == x;
  }

  /** " HH:mm" after the year gives that hour and minute. */
  lemma {:induction false} TimeMatches(hh: string, mi: string)
    requires 1 <= |hh| <= 2 && 1 <= |mi| <= 2 && AllDigits(hh) && AllDigits(mi)
    ensures MatchTime(" " + hh + ":" + mi) == (DigitsValue(hh), DigitsValue(mi))
  {
    var v := hh + (":" + mi);
    TrimStartSpace(hh, ":" + mi);
    assert " " + hh + ":" + mi == [' '] + v;
    TwoDigitsTaken(hh, ":" + mi);
    TwoDigitsTaken(mi, "");
    assert mi + "" == mi;
    assert (":" + mi)[1..] == mi;
  }

  /** One blank before a digit run is skipped. */
  lemma {:induction false} TrimStartSpace(x: string, rest: string)
    requires 1 <= |x| && AllDigits(x)
    ensures TrimStart([' '] + (x + rest)) == x + rest
  {
    var v := x + rest;
    assert ([' '] + v)[1..] == v;
    assert v[0] == x[0];
    assert !IsSpace(v[0]);
  }

  /** "D-M-YYYY" with either separator matches with hour and minute 0. */
  lemma {:induction false} DateOnlyMatches(dd: string, mm: string, yyyy: string, s1: char, s2: char)
    requires 1 <= |dd| <= 2 && 1 <= |mm| <= 2 && |yyyy| == 4
    requires AllDigits(dd) && AllDigits(mm) && AllDigits(yyyy)
    requires IsDateSep(s1) && IsDateSep(s2)
    ensures MatchDateAt(dd + [s1] + mm + [s2] + yyyy)
         == Some(DateParts(DigitsValue(dd), DigitsValue(mm), DigitsValue(yyyy), 0, 0))
  {
    var s := dd + [s1] + mm + [s2] + yyyy;
    assert s == dd + [s1] + (mm + [s2] + (yyyy + ""));
    FieldMatches(dd, s1, mm + [s2] + (yyyy + ""));
    FieldMatches(mm, s2, yyyy + "");
    YearMatches(yyyy, "");
    NoTime();
  }

  /** "DD-MM-YYYY HH:mm" matches with all five fields. */
  lemma {:induction false} DateTimeMatches(dd: string, mm: string, yyyy: string, hh: string, mi: string, s1: char, s2: char)
    requires 1 <= |dd| <= 2 && 1 <= |mm| <= 2 && |yyyy| == 4 && 1 <= |hh| <= 2 && 1 <= |mi| <= 2
    requires AllDigits(dd) && AllDigits(mm) && AllDigits(yyyy) && AllDigits(hh) && AllDigits(mi)
    requires IsDateSep(s1) && IsDateSep(s2)
    ensures MatchDateAt(dd + [s1] + mm + [s2] + yyyy + (" " + hh + ":" + mi))
         == Some(DateParts(DigitsValue(dd), DigitsValue(mm), DigitsValue(yyyy), DigitsValue(hh), DigitsValue(mi)))
  {
    var tail := " " + hh + ":" + mi;
    var s := dd + [s1] + mm + [s2] + yyyy + tail;
    assert s == dd + [s1] + (mm + [s2] + (yyyy + tail));
    FieldMatches(dd, s1, mm + [s2] + (yyyy + tail));
    FieldMatches(mm, s2, yyyy + tail);
    YearMatches(yyyy, tail);
    TimeMatches(hh, mi);
  }

  /** A matching text is read as local time with the month shifted to a 0-based index. */
  lemma {:induction false} PatternIsLocal(s: string, p: DateParts, parseDate: string -> Option<int>)
    requires s != "" && MatchDate(s) == Some(p)
    ensures ParseExcelDate(Textual(s), parseDate) == Local(LocalTime(p.year, p.month - 1, p.day, p.hour, p.minute))
  {
    TextPattern(s, p, parseDate);
    assert ParseExcelDate(Textual(s), parseDate) == ReadText(s, parseDate);
  }

  lemma {:induction false} TextPattern(s: string, p: DateParts, parseDate: string -> Option<int>)
    requires MatchDate(s) == Some(p)
    ensures ReadText(s, parseDate) == Local(LocalTime(p.year, p.month - 1, p.day, p.hour, p.minute))
  {
  }

  /** The search stops at the first position that matches. */
  lemma {:induction false} MatchDateFirst(s: string)
    requires MatchDateAt(s).Some?
    ensures MatchDate(s) == MatchDateAt(s)
  {
  }

  /** A positive serial number counts days from the spreadsheet epoch. */
  lemma {:induction false} SerialIsAfterEpoch(n: real, shown: string, parseDate: string -> Option<int>)
    requires n != 0.0
    ensures ParseExcelDate(Number(n, shown), parseDate) == AfterEpoch(ExcelEpoch, n * 86400000.0)
  {
  }

  /** Zero, an empty cell or a missing one fall back to the current time. */
  lemma {:induction false} ExcelDateFallbacks(parseDate: string -> Option<int>)
    ensures ParseExcelDate(Number(0.0, "0"), parseDate) == Now
    ensures ParseExcelDate(Missing, parseDate) == Now
    ensures ParseExcelDate(Textual(""), parseDate) == Now
  {
  }
}
