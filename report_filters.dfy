/**
 * The template filters of reports/templatetags/report_filters.py: `multiply`,
 * `subtract` and `currency_br`, over Python decimals.
 *
 * A finite decimal is `Dec(coef, exp)`, the number `coef * 10^exp`, as Python's
 * `Decimal` stores it. A filter argument is `Some(d)` when `Decimal(str(value))`
 * reads it as the finite decimal `d`, and `None` when that raises.
 */
module ReportFilters {
  import opened Wrappers
  import opened Numerals

  datatype Dec = Dec(coef: int, exp: int)

  /** The decimal zero, which is also what the filters return on bad input (`0`). */
  const Zero := Dec(0, 0)

  /** Significant digits of Python's default decimal context. */
  const Precision: nat := 28

  function Abs(n: int): nat {
    if n < 0 then -n else n
  }

  function Pow10(k: nat): (p: nat)
    ensures p >= 1
  {
    if k == 0 then 1 else 10 * Pow10(k - 1)
  }

  lemma {:induction false} Pow10Add(i: nat, j: nat)
    ensures Pow10(i + j) == Pow10(i) * Pow10(j)
  {
    if i > 0 {
      Pow10Add(i - 1, j);
      assert Pow10(i + j) == 10 * (Pow10(i - 1) * Pow10(j));
    }
  }

  /**
   * The value of `d` counted in units of 10^e, for an exponent `e` no larger
   * than `d`'s own: two decimals are equal in value exactly when they have the
   * same count of units.
   */
  function Units(d: Dec, e: int): int
    requires e <= d.exp
  {
    d.coef * Pow10(d.exp - e)
  }

  /** Counting in a unit ten times smaller multiplies the count by ten. */
  lemma UnitsRescale(d: Dec, e: int, f: int)
    requires f <= e <= d.exp
    ensures Units(d, f) == Units(d, e) * Pow10(e - f)
  {
    Pow10Add(d.exp - e, e - f);
    assert Units(d, f) == d.coef * (Pow10(d.exp - e) * Pow10(e - f));
  }

  // ---------------------------------------------------------------------------
  // multiply, subtract

  /** `multiply`: the product of two decimals, or 0 when either argument is not a decimal. */
  function Multiply(value: Option<Dec>, arg: Option<Dec>): (r: Dec)
    ensures value.None? || arg.None? ==> r == Zero
  {
    if value.None? || arg.None? then Zero
    else Dec(value.value.coef * arg.value.coef, value.value.exp + arg.value.exp)
  }

  /** The product is exact: counted in units of 10^(e1+e2) it is the product of the counts. */
  lemma MultiplyExact(a: Dec, b: Dec, e1: int, e2: int)
    requires e1 <= a.exp && e2 <= b.exp
    ensures var r := Multiply(Some(a), Some(b));
            e1 + e2 <= r.exp && Units(r, e1 + e2) == Units(a, e1) * Units(b, e2)
  {
    var r := Multiply(Some(a), Some(b));
    Pow10Add(a.exp - e1, b.exp - e2);
    var pa, pb := Pow10(a.exp - e1), Pow10(b.exp - e2);
    assert Units(r, e1 + e2) == (a.coef * b.coef) * (pa * pb);
    assert (a.coef * b.coef) * (pa * pb) == (a.coef * pa) * (b.coef * pb);
  }

  /** `subtract`: the difference of two decimals, or 0 when either argument is not a decimal. */
  function Subtract(value: Option<Dec>, arg: Option<Dec>): (r: Dec)
    ensures value.None? || arg.None? ==> r == Zero
    ensures value.Some? && arg.Some? ==> r.exp <= value.value.exp && r.exp <= arg.value.exp
  {
    if value.None? || arg.None? then Zero
    else
      var a, b := value.value, arg.value;
      var m := if a.exp <= b.exp then a.exp else b.exp;
      Dec(Units(a, m) - Units(b, m), m)
  }

  /** The difference is exact, in every unit fine enough to count both arguments. */
  lemma SubtractExact(a: Dec, b: Dec, e: int)
    requires e <= a.exp && e <= b.exp
    ensures var r := Subtract(Some(a), Some(b));
            e <= r.exp && Units(r, e) == Units(a, e) - Units(b, e)
  {
    var r := Subtract(Some(a), Some(b));
    var m := r.exp;
    UnitsRescale(a, m, e);
    UnitsRescale(b, m, e);
    var p := Pow10(m - e);
    assert Units(r, e) == (Units(a, m) - Units(b, m)) * p;
    assert (Units(a, m) - Units(b, m)) * p == Units(a, m) * p - Units(b, m) * p;
  }

  // ---------------------------------------------------------------------------
  // quantize(Decimal("0.01"), rounding=ROUND_HALF_UP)

  /** `n / unit` rounded to the nearest integer, ties away from zero. */
  function RoundHalfUp(n: int, unit: nat): int
    requires unit >= 1
  {
    var q := Abs(n) / unit;
    var m := if 2 * (Abs(n) % unit) >= unit then q + 1 else q;
    if n < 0 then -m else m
  }

  /**
   * What ROUND_HALF_UP promises: the result is a nearest multiple of `unit`,
   * a tie goes away from zero, and the sign is kept (or the result is zero).
   */
  lemma RoundHalfUpNearest(n: int, unit: nat)
    requires unit >= 1
    ensures var r := RoundHalfUp(n, unit);
            && 2 * Abs(n - r * unit) <= unit
            && (2 * Abs(n - r * unit) == unit ==> Abs(r * unit) > Abs(n))
            && (n >= 0 ==> r >= 0) && (n <= 0 ==> r <= 0)
  {
    var a := Abs(n);
    var m := RoundHalfUp(a, unit);
    RoundMagnitude(a, unit);
    var r := RoundHalfUp(n, unit);
    if n < 0 {
      assert r == -m;
      assert r * unit == -(m * unit);
      assert n - r * unit == -(a - m * unit);
    } else {
      assert r == m;
    }
  }

  /** The rounding of a magnitude: the nearest multiple, a tie going up. */
  lemma RoundMagnitude(a: nat, unit: nat)
    requires unit >= 1
    ensures var mu := RoundHalfUp(a, unit) * unit;
            && RoundHalfUp(a, unit) >= 0
            && 2 * Abs(a - mu) <= unit
            && (2 * Abs(a - mu) == unit ==> mu > a)
  {
    var q, rem := a / unit, a % unit;
    assert a == q * unit + rem && 0 <= rem < unit;
    NearestMultiple(a, unit, q, rem, RoundHalfUp(a, unit));
  }

  /** Rounding `q * unit + rem` to `q` or `q + 1` units, whichever the remainder says. */
  lemma NearestMultiple(a: int, unit: int, q: int, rem: int, m: int)
    requires unit >= 1 && a == q * unit + rem && 0 <= rem < unit
    requires m == if 2 * rem >= unit then q + 1 else q
    ensures 2 * Abs(a - m * unit) <= unit
    ensures 2 * Abs(a - m * unit) == unit ==> m * unit > a
  {
    if 2 * rem >= unit {
      Distributes(unit, q, 1);
    }
  }

  /** The value counted in whole cents, rounded half up when it has more than two decimals. */
  function RoundedCents(d: Dec): int {
    if d.exp >= -2 then d.coef * Pow10(d.exp + 2) else RoundHalfUp(d.coef, Pow10(-2 - d.exp))
  }

  /**
   * `quantize(Decimal("0.01"), rounding=ROUND_HALF_UP)` in whole cents:
   * `None` exactly when the rounded coefficient needs more than 28 digits,
   * which is when `quantize` signals InvalidOperation.
   */
  function QuantizeCents(d: Dec): (r: Option<int>)
    ensures r.None? <==> Abs(RoundedCents(d)) >= Pow10(Precision)
    ensures r.Some? ==> r.value == RoundedCents(d)
  {
    var cents := RoundedCents(d);
    if Abs(cents) >= Pow10(Precision) then None else Some(cents)
  }

  /**
   * What the rounded count of cents is: exact when `d` has at most two
   * decimals; otherwise a nearest cent, with a tie going away from zero and
   * the sign kept.
   */
  lemma QuantizeNearest(d: Dec)
    ensures var c := RoundedCents(d);
            && (d.exp >= -2 ==> c == Units(d, -2))
            && (d.exp < -2 ==>
                  var unit := Pow10(-2 - d.exp);
                  && 2 * Abs(d.coef - c * unit) <= unit
                  && (2 * Abs(d.coef - c * unit) == unit ==> Abs(c * unit) > Abs(d.coef))
                  && (d.coef >= 0 ==> c >= 0) && (d.coef <= 0 ==> c <= 0))
  {
    if d.exp < -2 {
      RoundHalfUpNearest(d.coef, Pow10(-2 - d.exp));
    }
  }

  /** An amount stored with two decimal places, as every money column is, is displayed as it is. */
  lemma QuantizeTwoPlaces(cents: int)
    requires Abs(cents) < Pow10(Precision)
    ensures QuantizeCents(Dec(cents, -2)) == Some(cents)
  {
    assert RoundedCents(Dec(cents, -2)) == cents * Pow10(0);
  }

  // ---------------------------------------------------------------------------
  // currency_br

  /** Two digits with a leading zero: `f"{k:02d}"` for `k < 100`. */
  function Pad2(k: nat): (s: string)
    requires k < 100
    ensures |s| == 2 && AllDigits(s)
  {
    [DigitChar(k / 10), DigitChar(k % 10)]
  }

  /** Three digits with leading zeros, one thousands group. */
  function Pad3(k: nat): (s: string)
    requires k < 1000
    ensures |s| == 3 && AllDigits(s)
  {
    [DigitChar(k / 100), DigitChar(k / 10 % 10), DigitChar(k % 10)]
  }

  /** `f"{n:,}".replace(",", ".")`: groups of three digits separated by dots. */
  function Grouped(n: nat): string {
    if n < 1000 then Show(n) else Grouped(n / 1000) + "." + Pad3(n % 1000)
  }

  /** The f-string at the end of `currency_br`, for an amount in cents. */
  function Render(cents: int): string {
    var sign := if cents < 0 then "-" else "";
    var a := Abs(cents);
    "R$ " + sign + Grouped(a / 100) + "," + Pad2(a % 100)
  }

  /** `currency_br`: "R$ ", a minus sign for negative amounts, grouped reais, a comma and two digits of centavos. */
  function CurrencyBr(value: Option<Dec>): (r: string)
    ensures |r| >= 3 && r[..3] == "R$ "
    ensures value.None? ==> r == "R$ 0,00"
  {
    if value.None? then "R$ 0,00"
    else
      match QuantizeCents(value.value)
      case None => "R$ 0,00"
      case Some(cents) => Render(cents)
  }

  /** The amount `currency_br` displays, in cents: the rounded value, or 0 when the filter falls back to "R$ 0,00". */
  function DisplayedCents(value: Option<Dec>): (c: int)
    ensures value.Some? && Abs(RoundedCents(value.value)) < Pow10(Precision) ==> c == RoundedCents(value.value)
    ensures value.None? || Abs(RoundedCents(value.value)) >= Pow10(Precision) ==> c == 0
  {
    if value.None? then 0 else QuantizeCents(value.value).GetOr(0)
  }

  /** The fallback "R$ 0,00" is what the amount zero renders to. */
  lemma CurrencyBrRenders(value: Option<Dec>)
    ensures CurrencyBr(value) == Render(DisplayedCents(value))
  {
    assert Grouped(0) == "0";
    assert Render(0) == "R$ " + "" + "0" + "," + "00";
  }

  // ---------------------------------------------------------------------------
  // The shape of the output

  /** The first group of a positive grouped integer: one to three digits, the first not '0'. */
  predicate LeadGroup(s: string) {
    1 <= |s| <= 3 && AllDigits(s) && s[0] != '0'
  }

  /** A positive grouped integer: a leading group, then groups of exactly three digits, each after a dot. */
  predicate Thousands(s: string)
    decreases |s|
  {
    || LeadGroup(s)
    || (|s| >= 5 && s[|s| - 4] == '.' && AllDigits(s[|s| - 3..]) && Thousands(s[..|s| - 4]))
  }

  /** A grouped integer: a lone "0", or a positive one with no leading zero. */
  predicate GroupedNumeral(s: string) {
    s == "0" || Thousands(s)
  }

  /** A zero leading group before further groups is not a grouped numeral. */
  lemma ZeroLeadRejected()
    ensures !GroupedNumeral("0.005")
  {
    var s := "0.005";
    assert s[..|s| - 4] == "0";
    assert !LeadGroup("0");
    assert !Thousands("0");
  }

  /** The shape of every string `currency_br` returns. */
  predicate BrlShaped(r: string) {
    && |r| >= 7
    && r[..3] == "R$ "
    && r[|r| - 3] == ','
    && AllDigits(r[|r| - 2..])
    && var body := r[3..|r| - 3];
       || GroupedNumeral(body)
       || (|body| > 0 && body[0] == '-' && GroupedNumeral(body[1..]))
  }

  /** The filter never shows "R$ 0.005,00": its reais would start with a zero group. */
  lemma ZeroLeadNotShaped()
    ensures !BrlShaped("R$ 0.005,00")
  {
    var r := "R$ 0.005,00";
    assert r[3..|r| - 3] == "0.005";
    ZeroLeadRejected();
  }

  lemma GroupedIsGroupedNumeral(n: nat)
    ensures GroupedNumeral(Grouped(n))
    ensures |Grouped(n)| >= 1 && IsDigit(Grouped(n)[0])
  {
    if n == 0 {
      assert Grouped(0) == [DigitChar(0)];
    } else {
      GroupedThousands(n);
    }
  }

  /** A positive amount of reais is grouped with no leading zero. */
  lemma {:induction false} GroupedThousands(n: nat)
    requires n >= 1
    ensures Thousands(Grouped(n))
    ensures |Grouped(n)| >= 1 && IsDigit(Grouped(n)[0])
  {
    if n < 1000 {
      ShowLeadGroup(n);
    } else {
      GroupedThousands(n / 1000);
      ThousandsStep(Grouped(n / 1000), Pad3(n % 1000));
    }
  }

  /** Below 1000, `str(n)` of a positive number is a leading group. */
  lemma ShowLeadGroup(n: nat)
    requires 1 <= n < 1000
    ensures Grouped(n) == Show(n) && LeadGroup(Show(n))
  {
    var s := Show(n);
    if n < 10 {
      assert s == [DigitChar(n)];
      assert DigitValue(s[0]) == n;
    } else {
      assert |Show(n / 10)| <= 2 by {
        assert n / 10 < 10 ==> |Show(n / 10)| == 1;
        assert n / 10 >= 10 ==> Show(n / 10) == Show(n / 100) + [DigitChar(n / 10 % 10)] && n / 100 < 10;
      }
    }
  }

  /** A dot and three more digits extend a positive grouped integer. */
  lemma ThousandsStep(h: string, p: string)
    requires Thousands(h) && |h| >= 1 && |p| == 3 && AllDigits(p)
    ensures var g := h + "." + p; Thousands(g) && g[0] == h[0]
  {
    var g := h + "." + p;
    DotSplit(h, p);
    ThousandsAt(g, h, p);
  }

  lemma DotSplit(h: string, p: string)
    requires |h| >= 1 && |p| == 3
    ensures var g := h + "." + p;
            && |g| == |h| + 4 && g[|g| - 4] == '.' && g[0] == h[0]
            && g[..|g| - 4] == h && g[|g| - 3..] == p
  {
  }

  lemma ThousandsAt(g: string, h: string, p: string)
    requires |g| >= 5 && g[|g| - 4] == '.'
    requires g[..|g| - 4] == h && g[|g| - 3..] == p && Thousands(h) && AllDigits(p)
    ensures Thousands(g)
  {
  }

  /** Where the prefix, the body, the comma and the centavos of an output sit. */
  lemma ShapedParts(r: string, body: string, p: string)
    requires |body| >= 1 && |p| == 2 && r == "R$ " + body + "," + p
    ensures |r| == |body| + 6 && r[..3] == "R$ " && r[|r| - 3] == ','
    ensures r[|r| - 2..] == p && r[3..|r| - 3] == body
  {
    var n := |body|;
    assert r[n + 3] == ',';
    assert r[n + 4..] == p;
    assert r[3..n + 3] == body;
  }

  lemma RenderShape(cents: int)
    ensures BrlShaped(Render(cents))
    ensures Render(cents)[3] == '-' <==> cents < 0
  {
    var a := Abs(cents);
    var g := Grouped(a / 100);
    var p := Pad2(a % 100);
    GroupedIsGroupedNumeral(a / 100);
    var r := Render(cents);
    if cents < 0 {
      var body := "-" + g;
      assert r == "R$ " + body + "," + p;
      assert body[1..] == g;
      BodyShaped(r, body, p);
    } else {
      assert r == "R$ " + g + "," + p;
      BodyShaped(r, g, p);
    }
  }

  /** "R$ ", a grouped body with an optional minus, a comma and two digits is the BRL shape. */
  lemma BodyShaped(r: string, body: string, p: string)
    requires |body| >= 1 && |p| == 2 && AllDigits(p) && r == "R$ " + body + "," + p
    requires GroupedNumeral(body) || (body[0] == '-' && GroupedNumeral(body[1..]))
    ensures BrlShaped(r) && r[3] == body[0]
  {
    ShapedParts(r, body, p);
  }


  /** The output always has the documented shape, with a comma and exactly two decimals. */
  lemma CurrencyBrShape(value: Option<Dec>)
    ensures BrlShaped(CurrencyBr(value))
  {
    CurrencyBrRenders(value);
    RenderShape(DisplayedCents(value));
  }

  /** A minus sign follows "R$ " exactly when the rounded value is negative. */
  lemma MinusIffNegative(value: Option<Dec>)
    ensures var r := CurrencyBr(value);
            |r| > 3 && (r[3] == '-' <==> DisplayedCents(value) < 0)
  {
    CurrencyBrRenders(value);
    RenderShape(DisplayedCents(value));
  }

  // ---------------------------------------------------------------------------
  // Reading the output back

  /** Every character except '.'. */
  function RemoveDots(s: string): string {
    if s == [] then [] else (if s[0] == '.' then [] else [s[0]]) + RemoveDots(s[1..])
  }

  /** Reads "reais,cc" (digits, a comma, two digits) as an amount in cents. */
  function ParseAmount(u: string): Option<int> {
    if |u| < 4 || u[|u| - 3] != ',' || !AllDigits(u[..|u| - 3]) || !AllDigits(u[|u| - 2..]) then None
    else Some(Value(u[..|u| - 3]) * 100 + Value(u[|u| - 2..]))
  }

  /**
   * Reads a displayed amount back, in cents: drop "R$ " and every '.', take a
   * leading '-' as the sign, and read the digits around the ',' as reais and
   * centavos.
   */
  function ParseBrl(s: string): Option<int> {
    if |s| < 3 || s[..3] != "R$ " then None
    else if |s| > 3 && s[3] == '-' then
      match ParseAmount(RemoveDots(s[4..]))
      case None => None
      case Some(v) => Some(-v)
    else ParseAmount(RemoveDots(s[3..]))
  }

  lemma {:induction false} RemoveDotsAppend(a: string, b: string)
    ensures RemoveDots(a + b) == RemoveDots(a) + RemoveDots(b)
  {
    if a == [] {
      assert a + b == b;
    } else {
      assert (a + b)[1..] == a[1..] + b;
      RemoveDotsAppend(a[1..], b);
    }
  }

  lemma {:induction false} RemoveDotsOfDigits(s: string)
    requires AllDigits(s)
    ensures RemoveDots(s) == s
  {
    if s != [] {
      RemoveDotsOfDigits(s[1..]);
    }
  }

  lemma {:induction false} ValueAppend(a: string, b: string)
    requires AllDigits(a) && AllDigits(b)
    ensures Value(a + b) == Value(a) * Pow10(|b|) + Value(b)
    decreases |b|
  {
    if b == [] {
      assert a + b == a;
    } else {
      var b' := b[..|b| - 1];
      var d := DigitValue(b[|b| - 1]);
      assert (a + b)[..|a + b| - 1] == a + b';
      assert Value(a + b) == Value(a + b') * 10 + d;
      ValueAppend(a, b');
      ShiftLeft(Value(a), Pow10(|b'|), Value(b'), d);
    }
  }

  lemma ShiftLeft(x: int, p: int, y: int, d: int)
    ensures (x * p + y) * 10 + d == x * (10 * p) + (y * 10 + d)
  {
  }

  lemma ValueOfPad3(k: nat)
    requires k < 1000
    ensures Value(Pad3(k)) == k
  {
    var p := Pad3(k);
    var a, b, c := k / 100, k / 10 % 10, k % 10;
    assert p[..2][..1] == [DigitChar(a)];
    assert p[..2][..1][..0] == [];
    assert Value(p[..2][..1]) == a;
    assert Value(p[..2]) == a * 10 + b;
    assert Value(p) == (a * 10 + b) * 10 + c;
    assert k == a * 100 + b * 10 + c;
  }

  lemma ValueOfPad2(k: nat)
    requires k < 100
    ensures Value(Pad2(k)) == k
  {
    var p := Pad2(k);
    assert p[..1] == [DigitChar(k / 10)];
    assert p[..1][..0] == [];
    assert Value(p[..1]) == k / 10;
  }

  /** Without its dots, a grouped numeral is the plain decimal numeral of the same number. */
  lemma {:induction false} UngroupedValue(n: nat)
    ensures AllDigits(RemoveDots(Grouped(n)))
    ensures Value(RemoveDots(Grouped(n))) == n
  {
    if n < 1000 {
      RemoveDotsOfDigits(Show(n));
      ValueOfShow(n);
    } else {
      UngroupedValue(n / 1000);
      var head := Grouped(n / 1000);
      var p := Pad3(n % 1000);
      RemoveDotsAppend(head + ".", p);
      RemoveDotsAppend(head, ".");
      RemoveDotsOfDigits(p);
      assert RemoveDots(".") == [];
      assert RemoveDots(Grouped(n)) == RemoveDots(head) + p;
      ValueAppend(RemoveDots(head), p);
      ValueOfPad3(n % 1000);
      assert Pow10(3) == 1000;
    }
  }

  lemma ParseAmountOf(g: string, p: string)
    requires AllDigits(g) && |g| >= 1 && AllDigits(p) && |p| == 2
    ensures ParseAmount(g + "," + p) == Some(Value(g) * 100 + Value(p))
  {
    var u := g + "," + p;
    CommaSplit(g, p);
    assert |u| - 3 == |g| && |u| - 2 == |g| + 1;
    ParseAmountAt(u, g, p);
  }

  lemma CommaSplit(g: string, p: string)
    ensures var u := g + "," + p;
            && |u| == |g| + 1 + |p| && u[|g|] == ','
            && u[..|g|] == g && u[|g| + 1..] == p
  {
  }

  lemma ParseAmountAt(u: string, g: string, p: string)
    requires |u| >= 4 && u[|u| - 3] == ','
    requires u[..|u| - 3] == g && u[|u| - 2..] == p && AllDigits(g) && AllDigits(p)
    ensures ParseAmount(u) == Some(Value(g) * 100 + Value(p))
  {
  }

  /** Dots are removed from the reais only: the comma and the centavos have none. */
  lemma RemoveDotsBody(g: string, p: string)
    requires AllDigits(p)
    ensures RemoveDots(g + "," + p) == RemoveDots(g) + "," + p
  {
    RemoveDotsAppend(g + ",", p);
    RemoveDotsAppend(g, ",");
    assert RemoveDots(",") == ",";
    RemoveDotsOfDigits(p);
  }

  /** Without its dots, the body of a rendered amount is the plain numeral, a comma and two digits. */
  lemma RenderedBody(a: nat)
    ensures ParseAmount(RemoveDots(Grouped(a / 100) + "," + Pad2(a % 100))) == Some(a)
  {
    var g := Grouped(a / 100);
    var p := Pad2(a % 100);
    var d := RemoveDots(g);
    UngroupedValue(a / 100);
    RemoveDotsBody(g, p);
    GroupedIsGroupedNumeral(a / 100);
    assert d == [g[0]] + RemoveDots(g[1..]);
    ParseAmountOf(d, p);
    ValueOfPad2(a % 100);
    assert Value(d) * 100 + Value(p) == a;
  }

  lemma ParseBrlUnsigned(rest: string)
    requires |rest| > 0 && rest[0] != '-'
    ensures ParseBrl("R$ " + rest) == ParseAmount(RemoveDots(rest))
  {
    var s := "R$ " + rest;
    assert s[..3] == "R$ " && s[3..] == rest && s[3] == rest[0];
  }

  lemma ParseBrlSigned(rest: string)
    ensures ParseBrl("R$ -" + rest) == match ParseAmount(RemoveDots(rest))
                                       case None => None
                                       case Some(v) => Some(-v)
  {
    var s := "R$ -" + rest;
    assert |s| > 3 && s[3] == '-';
    assert s[..3] == "R$ ";
    assert s[4..] == rest;
  }

  lemma RenderRoundTrip(cents: int)
    ensures ParseBrl(Render(cents)) == Some(cents)
  {
    var a := Abs(cents);
    var rest := Grouped(a / 100) + "," + Pad2(a % 100);
    RenderedBody(a);
    if cents < 0 {
      RenderNegative(cents, rest);
      ParseBrlSigned(rest);
    } else {
      RenderNonNegative(cents, rest);
      GroupedIsGroupedNumeral(a / 100);
      ParseBrlUnsigned(rest);
    }
  }

  lemma RenderNegative(cents: int, rest: string)
    requires cents < 0 && rest == Grouped(Abs(cents) / 100) + "," + Pad2(Abs(cents) % 100)
    ensures Render(cents) == "R$ -" + rest
  {
  }

  lemma RenderNonNegative(cents: int, rest: string)
    requires cents >= 0 && rest == Grouped(Abs(cents) / 100) + "," + Pad2(Abs(cents) % 100)
    ensures Render(cents) == "R$ " + rest
  {
  }

  /** Round trip: reading the output back gives exactly the displayed (rounded) amount. */
  lemma CurrencyBrRoundTrip(value: Option<Dec>)
    ensures ParseBrl(CurrencyBr(value)) == Some(DisplayedCents(value))
  {
    CurrencyBrRenders(value);
    RenderRoundTrip(DisplayedCents(value));
  }

  // Worked examples. They add nothing to the all-inputs lemmas above; they pin
  // the definitions to concrete values so that a change to one of them shows.

  /** Regression anchor: 1234.565 rounds half up to 123457 cents. */
  lemma QuantizeExample()
    ensures QuantizeCents(Dec(1234565, -3)) == Some(123457)
  {
    assert Pow10(1) == 10;
    assert RoundHalfUp(1234565, 10) == 123457;
  }

  /** Regression anchor: 1234 is grouped as "1.234". */
  lemma GroupedExample()
    ensures Grouped(1234) == "1.234"
  {
    assert Show(1) == "1";
    assert Pad3(234) == "234";
  }

  /** Regression anchor: 123457 cents render as "R$ 1.234,57". */
  lemma RenderExample()
    ensures Render(123457) == "R$ 1.234,57"
  {
    GroupedExample();
    assert Pad2(57) == "57";
    assert Render(123457) == "R$ " + "" + "1.234" + "," + "57";
  }

  /** Regression anchor: `currency_br` shows 1234.565 as "R$ 1.234,57". */
  lemma CurrencyExample()
    ensures CurrencyBr(Some(Dec(1234565, -3))) == "R$ 1.234,57"
  {
    QuantizeExample();
    CurrencyBrRenders(Some(Dec(1234565, -3)));
    RenderExample();
  }
}
