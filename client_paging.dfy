/**
 * The page size of the client report in reports/views.py: the `per_page`
 * query parameter is read with Python's `int()` and kept only when it is one
 * of the offered sizes; anything else, including text `int()` refuses, gives
 * the default of 25.
 */
module ClientPaging {
  import opened Wrappers
  import opened Numerals

  const DefaultPerPage: int := 25
  const PageSizes: seq<int> := [10, 15, 20, 25, 30, 50]

  /**
   * The most digits `int()` converts from a string, Python's default limit on
   * integer string conversion; the sign and underscores do not count, leading
   * zeros do.
   */
  const MaxStrDigits: nat := 4300

  // ---------------------------------------------------------------------------
  // Python's int() on a string, for ASCII text

  /**
   * The characters below 128 that `int()` strips from around a number: tab,
   * line feed, vertical tab, form feed, carriage return and space. The
   * separators 0x1C to 0x1F, which `str.isspace()` accepts, are not among them.
   */
  predicate IsSpace(c: char) {
    9 <= c as int <= 13 || c as int == 32
  }

  function TrimStart(s: string): (r: string)
    ensures |r| <= |s| && r == s[|s| - |r|..]
    ensures r == [] || !IsSpace(r[0])
  {
    if s != [] && IsSpace(s[0]) then TrimStart(s[1..]) else s
  }

  function TrimEnd(s: string): (r: string)
    ensures |r| <= |s| && r == s[..|r|]
    ensures r == [] || !IsSpace(r[|r| - 1])
  {
    if s != [] && IsSpace(s[|s| - 1]) then TrimEnd(s[..|s| - 1]) else s
  }

  /** The text without its leading and trailing whitespace. */
  function Strip(s: string): string {
    TrimEnd(TrimStart(s))
  }

  /** Digits where single underscores may stand between two digits: `1_000`, but not `_1`, `1_` or `1__0`. */
  predicate Underscored(s: string) {
    && |s| > 0 && IsDigit(s[0]) && IsDigit(s[|s| - 1])
    && DigitsOrUnderscores(s)
    && (forall i :: 0 <= i < |s| - 1 ==> !(s[i] == '_' && s[i + 1] == '_'))
  }

  predicate DigitsOrUnderscores(s: string) {
    forall i :: 0 <= i < |s| ==> IsDigit(s[i]) || s[i] == '_'
  }

  function RemoveUnderscores(s: string): (r: string)
    requires DigitsOrUnderscores(s)
    ensures AllDigits(r)
  {
    if s == [] then []
    else (if s[0] == '_' then [] else [s[0]]) + RemoveUnderscores(s[1..])
  }

  /**
   * `int(s)`: whitespace around the number is ignored, a sign may come first,
   * then decimal digits (leading zeros allowed) with single underscores
   * between them, at most `MaxStrDigits` of them; anything else is a
   * ValueError, here `None`.
   */
  function ParseInt(s: string): Option<int> {
    ParseStripped(Strip(s))
  }

  /** `int()` once the surrounding whitespace is gone. */
  function ParseStripped(t: string): Option<int> {
    var signed := |t| > 0 && (t[0] == '+' || t[0] == '-');
    var body := if signed then t[1..] else t;
    if !Underscored(body) then None
    else
      match Convert(RemoveUnderscores(body))
      case None => None
      case Some(v) => Some(if signed && t[0] == '-' then -v else v)
  }

  /** The number a run of digits denotes, or `None` when it has more than `MaxStrDigits` digits. */
  function Convert(digits: string): Option<int>
    requires AllDigits(digits)
  {
    if |digits| > MaxStrDigits then None else Some(Value(digits))
  }

  /** Text that starts and ends with a digit has no whitespace to strip. */
  lemma StripNumeral(s: string)
    requires |s| > 0 && IsDigit(s[0]) && IsDigit(s[|s| - 1])
    ensures Strip(s) == s
  {
    assert !IsSpace(s[0]) && !IsSpace(s[|s| - 1]);
    assert TrimStart(s) == s;
    assert TrimEnd(s) == s;
  }

  /** A plain run of digits reads as the number it denotes, unless it has more than `MaxStrDigits` digits. */
  lemma ParseDigits(s: string)
    requires |s| > 0 && AllDigits(s)
    ensures ParseInt(s) == if |s| <= MaxStrDigits then Some(Value(s)) else None
  {
    ParseConverts(s);
  }

  /** A plain run of digits reads through `Convert`. */
  lemma ParseConverts(s: string)
    requires |s| > 0 && AllDigits(s)
    ensures ParseInt(s) == Convert(s)
  {
    StripNumeral(s);
    DigitsUnderscored(s);
    RemoveUnderscoresOfDigits(s);
    ParseUnsigned(s, s);
    ParseOfStripped(s);
  }

  lemma DigitsUnderscored(s: string)
    requires |s| > 0 && AllDigits(s)
    ensures Underscored(s)
  {
    assert DigitsOrUnderscores(s);
    assert forall i :: 0 <= i < |s| - 1 ==> s[i] != '_';
  }

  /** `int()` on an unsigned numeral: the digits without their underscores, within the limit. */
  lemma ParseUnsigned(t: string, digits: string)
    requires Underscored(t) && RemoveUnderscores(t) == digits
    ensures ParseStripped(t) == Convert(digits)
  {
    assert !(t[0] == '+' || t[0] == '-');
  }

  /** Every numeral `str(n)` within the digit limit reads back as `n`; a longer one is refused. */
  lemma ParseShow(n: nat)
    ensures ParseInt(Show(n)) == if |Show(n)| <= MaxStrDigits then Some(n) else None
  {
    ParseDigits(Show(n));
    ValueOfShow(n);
  }

  lemma {:induction false} RemoveUnderscoresOfDigits(s: string)
    requires AllDigits(s)
    ensures RemoveUnderscores(s) == s
  {
    if s != [] {
      RemoveUnderscoresOfDigits(s[1..]);
      assert s == [s[0]] + s[1..];
    }
  }

  // ---------------------------------------------------------------------------
  // The page size

  /**
   * The `per_page` rule: an absent parameter is the default 25; a value
   * `int()` refuses, or a number that is not an offered size, also gives 25.
   */
  function PerPage(param: Option<string>): (n: int)
    ensures n in PageSizes
    ensures n != DefaultPerPage ==> param.Some? && ParseInt(param.value) == Some(n)
    ensures param.Some? && ParseInt(param.value).Some? && ParseInt(param.value).value in PageSizes ==>
              n == ParseInt(param.value).value
  {
    if param.None? then DefaultPerPage
    else
      match ParseInt(param.value)
      case None => DefaultPerPage
      case Some(v) => if v in PageSizes then v else DefaultPerPage
  }

  /** Asking for an offered size by its numeral gives that size. */
  lemma PerPageKeepsOffered(n: nat)
    requires n in PageSizes
    ensures PerPage(Some(Show(n))) == n
  {
    assert |Show(n / 10)| == 1;
    ParseShow(n);
  }

  /** Asking again for the size that was chosen gives it again. */
  lemma PerPageIdempotent(param: Option<string>)
    ensures PerPage(Some(Show(PerPage(param) as nat))) == PerPage(param)
  {
    var n := PerPage(param);
    assert n > 0;
    PerPageKeepsOffered(n as nat);
  }

  /** A number that is not an offered size gives the default. */
  lemma PerPageRejectsUnoffered(n: nat)
    requires n !in PageSizes
    ensures PerPage(Some(Show(n))) == DefaultPerPage
  {
    ParseShow(n);
  }

  /** Text that is not a number gives the default, as does an absent or empty parameter. */
  lemma PerPageRejectsText()
    ensures PerPage(Some("abc")) == DefaultPerPage
    ensures PerPage(Some("")) == DefaultPerPage
    ensures PerPage(None) == DefaultPerPage
  {
    var s := "abc";
    assert !IsSpace(s[0]) && !IsSpace(s[2]);
    assert TrimStart(s) == s && TrimEnd(s) == s;
    assert !IsDigit(s[0]);
  }

  /** A file separator (0x1C) before the digits is not whitespace to `int()`, so the default is used. */
  lemma PerPageRejectsSeparator()
    ensures PerPage(Some([28 as char, '1', '0'])) == DefaultPerPage
  {
    var s := [28 as char, '1', '0'];
    assert !IsSpace(s[0]) && !IsSpace(s[2]);
    assert TrimStart(s) == s && TrimEnd(s) == s;
    assert !IsDigit(s[0]);
  }

  /**
   * Leading zeros count towards the digit limit: 4300 zeros followed by "10"
   * is a ValueError, so the default is used.
   */
  lemma PerPageRejectsLongNumeral()
    ensures PerPage(Some(seq(MaxStrDigits, _ => '0') + "10")) == DefaultPerPage
  {
    var s := seq(MaxStrDigits, _ => '0') + "10";
    assert AllDigits(s);
    ParseDigits(s);
  }

  /** Whitespace at the end is dropped with the rest of the trailing whitespace. */
  lemma {:induction false} StripSnocSpace(s: string, d: char)
    requires IsSpace(d)
    ensures Strip(s + [d]) == Strip(s)
  {
    if s == [] {
      assert TrimStart([d]) == TrimStart([d][1..]);
    } else if IsSpace(s[0]) {
      assert (s + [d])[1..] == s[1..] + [d];
      StripSnocSpace(s[1..], d);
    } else {
      assert (s + [d])[..|s|] == s;
    }
  }

  /** `int()` ignores whitespace on either side of the number. */
  lemma ParseIgnoresSurroundingSpace(s: string, c: char, d: char)
    requires IsSpace(c) && IsSpace(d)
    ensures ParseInt([c] + s + [d]) == ParseInt(s)
  {
    StripSurroundingSpace(s, c, d);
  }

  lemma StripSurroundingSpace(s: string, c: char, d: char)
    requires IsSpace(c) && IsSpace(d)
    ensures Strip([c] + s + [d]) == Strip(s)
  {
    assert ([c] + s + [d])[1..] == s + [d];
    assert TrimStart([c] + s + [d]) == TrimStart(s + [d]);
    StripSnocSpace(s, d);
  }

  /** `int()` reads digits separated by single underscores as the digits alone. */
  lemma ParseIgnoresUnderscores(s: string)
    requires Underscored(s)
    ensures ParseInt(s) == ParseInt(RemoveUnderscores(s))
  {
    StripNumeral(s);
    ParseOfStripped(s);
    var r := RemoveUnderscores(s);
    ParseUnsigned(s, r);
    KeepsFirstDigit(s);
    ParseConverts(r);
  }

  lemma ParseOfStripped(s: string)
    requires Strip(s) == s
    ensures ParseInt(s) == ParseStripped(s)
  {
  }

  lemma KeepsFirstDigit(s: string)
    requires |s| > 0 && IsDigit(s[0]) && DigitsOrUnderscores(s)
    ensures |RemoveUnderscores(s)| > 0
  {
    assert RemoveUnderscores(s)[0] == s[0];
  }
}
