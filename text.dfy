// The JavaScript string primitives the source relies on: trim, ASCII
// lower-casing, includes, split/join, parseInt, parseFloat, Number() and
// integer rendering. Every function recurses from the front of its string.
module Text {
  import opened Wrappers

  /** The characters JavaScript's `trim` and the regular-expression class `\s` treat as white space. */
  predicate IsSpace(c: char) {
    c == ' ' || c == '\t' || c == '\n' || c == '\r' || c == '\U{000B}' || c == '\U{000C}'
    || c == '\U{00A0}' || c == '\U{1680}' || ('\U{2000}' <= c <= '\U{200A}')
    || c == '\U{2028}' || c == '\U{2029}' || c == '\U{202F}' || c == '\U{205F}'
    || c == '\U{3000}' || c == '\U{FEFF}'
  }

  predicate AllSpace(s: string)
    ensures AllSpace(s) <==> forall i :: 0 <= i < |s| ==> IsSpace(s[i])
  {
    s == [] || (IsSpace(s[0]) && AllSpace(s[1..]))
  }

  /** `trimStart`: drops the leading white space, keeps the rest. */
  function TrimStart(s: string): (r: string)
    ensures |r| <= |s|
    ensures r != [] ==> !IsSpace(r[0])
    ensures forall i :: 0 <= i < |s| - |r| ==> IsSpace(s[i])
  {
    if s != [] && IsSpace(s[0]) then TrimStart(s[1..]) else s
  }

  /** `trimEnd`: drops the trailing white space, keeps the rest. */
  function TrimEnd(s: string): (r: string)
    ensures |r| <= |s|
    ensures r != [] ==> !IsSpace(r[|r| - 1])
    ensures forall i :: |r| <= i < |s| ==> IsSpace(s[i])
  {
    if AllSpace(s) then "" else [s[0]] + TrimEnd(s[1..])
  }

  /** `trim`: the longest infix with no white space at either end, framed by white space only. */
  function Trim(s: string): (r: string)
    ensures |r| <= |s|
    ensures r != [] ==> !IsSpace(r[0]) && !IsSpace(r[|r| - 1])
    ensures s != [] && !IsSpace(s[0]) && !IsSpace(s[|s| - 1]) ==> r == s
    ensures AllSpace(s) <==> r == []
  {
    TrimStartSuffix(s);
    TrimEndPrefix(TrimStart(s));
    TrimEnd(TrimStart(s))
  }

  /** What `trimStart` keeps is a suffix of its input. */
  lemma {:induction false} TrimStartSuffix(s: string)
    ensures TrimStart(s) == s[|s| - |TrimStart(s)|..]
  {
    if s != [] && IsSpace(s[0]) {
      TrimStartSuffix(s[1..]);
    }
  }

  /** What `trimEnd` keeps is a prefix of its input. */
  lemma {:induction false} TrimEndPrefix(s: string)
    ensures TrimEnd(s) == s[..|TrimEnd(s)|]
  {
    if !AllSpace(s) {
      TrimEndPrefix(s[1..]);
    }
  }

  lemma {:induction false} TrimIdempotent(s: string)
    ensures Trim(Trim(s)) == Trim(s)
  {
  }

  /** ASCII `toLowerCase` on one character. */
  function Lower(c: char): char {
    if 'A' <= c <= 'Z' then (c as int + 32) as char else c
  }

  function ToLower(s: string): (r: string)
    ensures |r| == |s| && forall i :: 0 <= i < |s| ==> r[i] == Lower(s[i])
  {
    if s == [] then "" else [Lower(s[0])] + ToLower(s[1..])
  }

  lemma {:induction false} ToLowerIdempotent(s: string)
    ensures ToLower(ToLower(s)) == ToLower(s)
  {
  }

  /** `s.startsWith(t)`. */
  predicate StartsWith(s: string, t: string) {
    t == [] || (s != [] && s[0] == t[0] && StartsWith(s[1..], t[1..]))
  }

  /** `s.includes(t)`: some suffix of `s` starts with `t`. */
  predicate Contains(s: string, t: string) {
    StartsWith(s, t) || (s != [] && Contains(s[1..], t))
  }

  lemma {:induction false} StartsWithIsPrefix(s: string, t: string)
    ensures StartsWith(s, t) <==> |t| <= |s| && s[..|t|] == t
  {
    if t != [] && s != [] {
      StartsWithIsPrefix(s[1..], t[1..]);
      if |t| <= |s| && s[..|t|] == t {
        assert s[1..][..|t| - 1] == t[1..];
      }
    }
  }

  lemma {:induction false} ContainsAt(s: string, t: string, i: nat)
    requires i <= |s| && StartsWith(s[i..], t)
    ensures Contains(s, t)
  {
    if i > 0 {
      assert s[1..][i - 1..] == s[i..];
      ContainsAt(s[1..], t, i - 1);
    }
  }

  lemma {:induction false} ContainsWitness(s: string, t: string) returns (i: nat)
    requires Contains(s, t)
    ensures i <= |s| && StartsWith(s[i..], t)
  {
    if StartsWith(s, t) {
      i := 0;
    } else {
      var j := ContainsWitness(s[1..], t);
      assert s[1..][j..] == s[j + 1..];
      i := j + 1;
    }
  }

  lemma {:induction false} ContainsLength(s: string, t: string)
    requires Contains(s, t)
    ensures |t| <= |s|
  {
    var i := ContainsWitness(s, t);
    StartsWithIsPrefix(s[i..], t);
  }

  /** A string contains another of its own length only when they are equal. */
  lemma {:induction false} ContainsSameLength(s: string, t: string)
    requires Contains(s, t) && |s| == |t|
    ensures s == t
  {
    var i := ContainsWitness(s, t);
    StartsWithIsPrefix(s[i..], t);
    assert s[i..][..|t|] == t;
    assert s[..|t|] == s;
  }

  lemma {:induction false} ContainsSelf(s: string)
    ensures Contains(s, s) && Contains(s, "")
  {
    StartsWithIsPrefix(s, s);
    StartsWithIsPrefix(s, "");
  }

  lemma {:induction false} NotContainsFirst(s: string, t: string)
    requires t != [] && t[0] !in s
    ensures !Contains(s, t)
  {
    if s != [] {
      assert s[0] in s;
      assert forall c :: c in s[1..] ==> c in s;
      NotContainsFirst(s[1..], t);
    }
  }

  /** The number of occurrences of `c` in `s`. */
  function Count(s: string, c: char): (n: nat)
    ensures n == 0 <==> c !in s
  {
    if s == [] then 0 else (if s[0] == c then 1 else 0) + Count(s[1..], c)
  }


  lemma {:induction false} CountConcat(a: string, b: string, c: char)
    ensures Count(a + b, c) == Count(a, c) + Count(b, c)
  {
    if a != [] {
      assert (a + b)[1..] == a[1..] + b;
      CountConcat(a[1..], b, c);
    } else {
      assert a + b == b;
    }
  }

  /** `s.split(c)` for a one-character separator. */
  function Split(s: string, c: char): (parts: seq<string>)
    ensures |parts| >= 1
    ensures forall k :: 0 <= k < |parts| ==> c !in parts[k]
  {
    if s == [] then [""]
    else
      var rest := Split(s[1..], c);
      if s[0] == c then [""] + rest else [[s[0]] + rest[0]] + rest[1..]
  }

  /** `parts.join(c)`. */
  function Join(parts: seq<string>, c: char): string {
    if parts == [] then ""
    else if |parts| == 1 then parts[0]
    else parts[0] + [c] + Join(parts[1..], c)
  }

  lemma {:induction false} JoinSplit(s: string, c: char)
    ensures Join(Split(s, c), c) == s
  {
    if s != [] {
      var rest := Split(s[1..], c);
      JoinSplit(s[1..], c);
      if s[0] != c {
        var parts := [[s[0]] + rest[0]] + rest[1..];
        assert parts[1..] == rest[1..];
        if |rest| > 1 {
          assert Join(rest, c) == rest[0] + [c] + Join(rest[1..], c);
        }
      }
    }
  }

  /** Splitting at a first separator gives the text before it, then the split of the rest. */
  lemma {:induction false} SplitAfter(a: string, c: char, b: string)
    requires c !in a
    ensures Split(a + [c] + b, c) == [a] + Split(b, c)
  {
    if a == [] {
      assert a + [c] + b == [c] + b;
      assert ([c] + b)[1..] == b;
    } else {
      assert (a + [c] + b)[1..] == a[1..] + [c] + b;
      assert a[0] in a;
      assert forall x :: x in a[1..] ==> x in a;
      SplitAfter(a[1..], c, b);
      assert [a[0]] + a[1..] == a;
    }
  }

  /** A text without the separator is one part. */
  lemma {:induction false} SplitNone(a: string, c: char)
    requires c !in a
    ensures Split(a, c) == [a]
  {
    if a != [] {
      assert a[0] in a;
      assert forall x :: x in a[1..] ==> x in a;
      SplitNone(a[1..], c);
      assert [a[0]] + a[1..] == a;
    }
  }

  /** Splitting joined parts that hold no separator gives the parts back. */
  lemma {:induction false} SplitJoin(parts: seq<string>, c: char)
    requires |parts| >= 1
    requires forall k :: 0 <= k < |parts| ==> c !in parts[k]
    ensures Split(Join(parts, c), c) == parts
    decreases |parts|
  {
    if |parts| == 1 {
      SplitNone(parts[0], c);
    } else {
      SplitJoin(parts[1..], c);
      SplitAfter(parts[0], c, Join(parts[1..], c));
      assert [parts[0]] + parts[1..] == parts;
    }
  }

  predicate IsDigit(c: char) {
    '0' <= c <= '9'
  }

  predicate AllDigits(s: string)
    ensures AllDigits(s) <==> forall i :: 0 <= i < |s| ==> IsDigit(s[i])
  {
    s == [] || (IsDigit(s[0]) && AllDigits(s[1..]))
  }

  function DigitValue(c: char): int {
    c as int - '0' as int
  }

  function Pow10(n: nat): (p: nat)
    ensures p >= 1
  {
    if n == 0 then 1 else 10 * Pow10(n - 1)
  }

  /** The decimal value of a string of digits, most significant first. */
  function DigitsValue(ds: string): int {
    if ds == [] then 0 else DigitValue(ds[0]) * Pow10(|ds| - 1) + DigitsValue(ds[1..])
  }

  lemma {:induction false} DigitsValueConcat(a: string, b: string)
    ensures DigitsValue(a + b) == DigitsValue(a) * Pow10(|b|) + DigitsValue(b)
  {
    if a != [] {
      var d, pa, pb := DigitValue(a[0]), Pow10(|a| - 1), Pow10(|b|);
      var ra, rb := DigitsValue(a[1..]), DigitsValue(b);
      assert (a + b)[0] == a[0] && (a + b)[1..] == a[1..] + b;
      DigitsValueConcat(a[1..], b);
      PowAdd(|a| - 1, |b|);
      assert DigitsValue(a + b) == d * Pow10(|a| - 1 + |b|) + DigitsValue(a[1..] + b);
      assert DigitsValue(a[1..] + b) == ra * pb + rb;
      assert Pow10(|a| - 1 + |b|) == pa * pb;
      assert DigitsValue(a) == d * pa + ra;
      Distribute(d, pa, pb, ra);
    } else {
      assert a + b == b;
    }
  }

  lemma {:induction false} Distribute(d: int, pa: int, pb: int, ra: int)
    ensures d * (pa * pb) + ra * pb == (d * pa + ra) * pb
  {
  }

  lemma {:induction false} MulMono(a: int, b: int, p: nat)
    requires 0 <= a <= b
    ensures 0 <= a * p <= b * p
  {
  }

  lemma {:induction false} PowAdd(m: nat, n: nat)
    ensures Pow10(m + n) == Pow10(m) * Pow10(n)
  {
    if m > 0 {
      PowAdd(m - 1, n);
    }
  }

  lemma {:induction false} DigitsValueBounds(ds: string)
    requires AllDigits(ds)
    ensures 0 <= DigitsValue(ds) < Pow10(|ds|)
  {
    if ds != [] {
      var d, p, rest := DigitValue(ds[0]), Pow10(|ds| - 1), DigitsValue(ds[1..]);
      DigitsValueBounds(ds[1..]);
      assert DigitsValue(ds) == d * p + rest;
      assert Pow10(|ds|) == 10 * p;
      assert 0 <= d <= 9;
      MulMono(d, 9, p);
    }
  }

  /** The number of digits at the front of `s`. */
  function LeadingDigits(s: string): (n: nat)
    ensures n <= |s| && AllDigits(s[..n]) && (n < |s| ==> !IsDigit(s[n]))
  {
    if s != [] && IsDigit(s[0]) then 1 + LeadingDigits(s[1..]) else 0
  }

  lemma {:induction false} LeadingDigitsConcat(a: string, b: string)
    requires AllDigits(a) && (b == [] || !IsDigit(b[0]))
    ensures LeadingDigits(a + b) == |a|
  {
    if a != [] {
      assert (a + b)[1..] == a[1..] + b;
      LeadingDigitsConcat(a[1..], b);
    } else {
      assert a + b == b;
    }
  }

  /** A digit run at the front is counted whatever follows it. */
  lemma {:induction false} LeadingDigitsAtLeast(a: string, b: string)
    requires AllDigits(a)
    ensures LeadingDigits(a + b) >= |a|
  {
    if a != [] {
      assert (a + b)[1..] == a[1..] + b;
      LeadingDigitsAtLeast(a[1..], b);
    }
  }

  function Scale(x: real, e: int): real {
    if e >= 0 then x * Pow10(e) as real else x / Pow10(-e) as real
  }

  /** A numeric prefix that was read: its value and how many characters it used. */
  datatype Scan = Scan(value: real, length: nat)

  /** An optional exponent part `e[+|-]digits`: its value and length, or (0, 0) when there is none. */
  function ScanExponent(s: string): (r: (int, nat))
    ensures r.1 <= |s|
    ensures r.1 == 0 ==> r.0 == 0
  {
    if s != [] && (s[0] == 'e' || s[0] == 'E') then
      var esl := if |s| > 1 && (s[1] == '+' || s[1] == '-') then 1 else 0;
      var d := LeadingDigits(s[1 + esl..]);
      if d == 0 then (0, 0)
      else
        var e := DigitsValue(s[1 + esl..1 + esl + d]);
        (if esl == 1 && s[1] == '-' then -e else e, 1 + esl + d)
    else (0, 0)
  }

  /** The longest prefix of `body` of the form digits [`.` digits] [exponent], with at least one digit. */
  function ScanUnsigned(body: string): (r: Option<Scan>)
    ensures r.Some? ==> 0 < r.value.length <= |body|
  {
    var a := LeadingDigits(body);
    var hasDot := a < |body| && body[a] == '.';
    var b := if hasDot then LeadingDigits(body[a + 1..]) else 0;
    if a + b == 0 then None
    else
      var m := if hasDot then a + 1 + b else a;
      var fraction := if hasDot then DigitsValue(body[a + 1..a + 1 + b]) as real / Pow10(b) as real else 0.0;
      var mantissa := DigitsValue(body[..a]) as real + fraction;
      var ex := ScanExponent(body[m..]);
      Some(Scan(Scale(mantissa, ex.0), m + ex.1))
  }

  /** The longest prefix of `t` that is a decimal literal with an optional sign. */
  function ScanDecimal(t: string): (r: Option<Scan>)
    ensures r.Some? ==> 0 < r.value.length <= |t|
  {
    var sl := if t != [] && (t[0] == '+' || t[0] == '-') then 1 else 0;
    match ScanUnsigned(t[sl..])
    case None => None
    case Some(sc) => Some(Scan(if sl == 1 && t[0] == '-' then -sc.value else sc.value, sl + sc.length))
  }

  lemma {:induction false} AllDigitsLeading(ds: string)
    requires AllDigits(ds)
    ensures LeadingDigits(ds) == |ds|
  {
    LeadingDigitsConcat(ds, "");
    assert ds + "" == ds;
  }

  lemma {:induction false} ScanUnsignedDigits(ds: string)
    requires ds != [] && AllDigits(ds)
    ensures ScanUnsigned(ds) == Some(Scan(DigitsValue(ds) as real, |ds|))
  {
    AllDigitsLeading(ds);
    assert ds[..|ds|] == ds;
    assert ScanExponent(ds[|ds|..]) == (0, 0);
    assert Scale(DigitsValue(ds) as real, 0) == DigitsValue(ds) as real;
  }

  /** A digit string is read as its decimal value, using all of it. */
  lemma {:induction false} ScanDigits(ds: string)
    requires ds != [] && AllDigits(ds)
    ensures ScanDecimal(ds) == Some(Scan(DigitsValue(ds) as real, |ds|))
  {
    assert ds[0..] == ds;
    ScanUnsignedDigits(ds);
  }

  /** The pieces of digits, a point and digits. */
  lemma {:induction false} PointPieces(ip: string, fp: string)
    requires AllDigits(ip)
    ensures var t := ip + "." + fp;
      LeadingDigits(t) == |ip| && t[|ip|] == '.' && t[..|ip|] == ip
      && t[|ip| + 1..] == fp && t[|ip| + 1..|ip| + 1 + |fp|] == fp && t[|ip| + 1 + |fp|..] == []
  {
    var t := ip + "." + fp;
    assert t == ip + ("." + fp);
    LeadingDigitsConcat(ip, "." + fp);
    assert t[..|ip|] == ip;
    assert t[|ip| + 1..] == fp;
  }

  lemma {:induction false} ScanUnsignedPoint(ip: string, fp: string)
    requires ip != [] && fp != [] && AllDigits(ip) && AllDigits(fp)
    ensures ScanUnsigned(ip + "." + fp)
         == Some(Scan(DigitsValue(ip) as real + DigitsValue(fp) as real / Pow10(|fp|) as real, |ip| + 1 + |fp|))
  {
    var t := ip + "." + fp;
    PointPieces(ip, fp);
    AllDigitsLeading(fp);
    assert ScanExponent(t[|ip| + 1 + |fp|..]) == (0, 0);
  }

  /** Digits, a point and digits are read as the decimal number they write, using all of the text. */
  lemma {:induction false} ScanPointDigits(ip: string, fp: string)
    requires ip != [] && fp != [] && AllDigits(ip) && AllDigits(fp)
    ensures ScanDecimal(ip + "." + fp)
         == Some(Scan(DigitsValue(ip) as real + DigitsValue(fp) as real / Pow10(|fp|) as real, |ip| + 1 + |fp|))
  {
    var t := ip + "." + fp;
    assert t[0] == ip[0];
    assert t[0..] == t;
    ScanUnsignedPoint(ip, fp);
  }

  /** `parseFloat`: None stands for NaN. */
  function ParseFloat(s: string): Option<real> {
    match ScanDecimal(TrimStart(s))
    case None => None
    case Some(sc) => Some(sc.value)
  }

  /** `Number(s)` on a string: the trimmed text must be empty (0) or one whole decimal literal. */
  function JsNumber(s: string): Option<real> {
    var t := Trim(s);
    if t == [] then Some(0.0)
    else match ScanDecimal(t)
      case Some(sc) => if sc.length == |t| then Some(sc.value) else None
      case None => None
  }

  /** `parseInt(s, 10)`: optional sign and the leading digits; None stands for NaN. */
  function ParseInt(s: string): (r: Option<int>)
  {
    var t := TrimStart(s);
    var sl := if t != [] && (t[0] == '+' || t[0] == '-') then 1 else 0;
    var body := t[sl..];
    var n := LeadingDigits(body);
    if n == 0 then None
    else
      var v := DigitsValue(body[..n]);
      Some(if sl == 1 && t[0] == '-' then -v else v)
  }

  function DigitChar(d: nat): char
    requires d < 10
  {
    ('0' as int + d) as char
  }

  /** The decimal rendering of a natural number (JavaScript `String(n)` for such numbers). */
  function NatToString(n: nat): (r: string)
    ensures r != [] && AllDigits(r)
    ensures |r| > 1 ==> r[0] != '0'
  {
    if n < 10 then [DigitChar(n)] else NatToString(n / 10) + [DigitChar(n % 10)]
  }

  function IntToString(i: int): (r: string)
    ensures r != []
  {
    if i < 0 then "-" + NatToString(-i) else NatToString(i)
  }

  lemma {:induction false} NatToStringValue(n: nat)
    ensures DigitsValue(NatToString(n)) == n
  {
    if n >= 10 {
      NatToStringValue(n / 10);
      DigitsValueConcat(NatToString(n / 10), [DigitChar(n % 10)]);
    }
  }

  /** `parseInt` of a plain digit string is its value. */
  lemma {:induction false} ParseIntDigits(ds: string)
    requires ds != [] && AllDigits(ds)
    ensures ParseInt(ds) == Some(DigitsValue(ds))
  {
    assert !IsSpace(ds[0]) && ds[0] != '+' && ds[0] != '-';
    assert TrimStart(ds) == ds;
    assert ds[0..] == ds;
    AllDigitsLeading(ds);
    assert ds[..|ds|] == ds;
  }

  /** `parseInt` of a minus sign and a digit string is the negated value. */
  lemma {:induction false} ParseIntNegative(ds: string)
    requires ds != [] && AllDigits(ds)
    ensures ParseInt("-" + ds) == Some(-DigitsValue(ds))
  {
    AllDigitsLeading(ds);
    assert ds[..|ds|] == ds;
    var t := "-" + ds;
    assert t[0] == '-' && !IsSpace(t[0]);
    assert TrimStart(t) == t;
    assert t[1..] == ds;
  }

  /** Reading back a rendered integer with `parseInt` gives the integer. */
  lemma {:induction false} ParseIntOfIntToString(i: int)
    ensures ParseInt(IntToString(i)) == Some(i)
  {
    var digits := NatToString(if i < 0 then -i else i);
    NatToStringValue(if i < 0 then -i else i);
    if i < 0 {
      ParseIntNegative(digits);
    } else {
      ParseIntDigits(digits);
    }
  }
}
