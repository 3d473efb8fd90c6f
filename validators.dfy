/**
 * Brazilian CPF numbers (customers/validators.py): stripping a value down to
 * its digits, the modulo-11 check-digit test, and the `000.000.000-00` layout.
 * A missing value (`None`) is `Option.None`.
 */
module Validators {
  import opened Wrappers
  import opened Numerals

  // ---------------------------------------------------------------------------
  // only_digits

  /** The digit characters of `s`, in their original order. */
  function Digits(s: string): (r: string)
    ensures AllDigits(r)
    ensures |r| <= |s|
  {
    if s == [] then [] else (if IsDigit(s[0]) then [s[0]] else []) + Digits(s[1..])
  }

  /** `only_digits`: a missing or empty value gives "". */
  function OnlyDigits(value: Option<string>): (r: string)
    ensures AllDigits(r)
    ensures value.None? ==> r == ""
  {
    Digits(value.GetOr(""))
  }

  /** Stripping distributes over concatenation, so nothing is reordered. */
  lemma {:induction false} DigitsAppend(a: string, b: string)
    ensures Digits(a + b) == Digits(a) + Digits(b)
  {
    if a == [] {
      assert a + b == b;
    } else {
      assert (a + b)[1..] == a[1..] + b;
      DigitsAppend(a[1..], b);
    }
  }

  /** A string of digits is left as it is; so stripping twice is stripping once. */
  lemma {:induction false} DigitsOfDigits(s: string)
    requires AllDigits(s)
    ensures Digits(s) == s
  {
    if s != [] {
      DigitsOfDigits(s[1..]);
    }
  }

  /** One character is kept exactly when it is a digit. */
  lemma DigitsOfChar(c: char)
    ensures Digits([c]) == if IsDigit(c) then [c] else []
  {
    assert [c][1..] == [];
  }

  lemma OnlyDigitsIdempotent(value: Option<string>)
    ensures OnlyDigits(Some(OnlyDigits(value))) == OnlyDigits(value)
  {
    DigitsOfDigits(OnlyDigits(value));
  }

  // ---------------------------------------------------------------------------
  // calc_digit

  /**
   * The weighted sum `calc_digit` accumulates: the first digit of `part` has
   * weight `peso`, and each following one a weight one lower.
   */
  function WeightedSum(part: string, peso: int): int
    requires AllDigits(part)
  {
    if part == [] then 0 else DigitValue(part[0]) * peso + WeightedSum(part[1..], peso - 1)
  }

  /**
   * The check digit of `part`: 0 when the sum leaves a remainder below 2
   * modulo 11, otherwise 11 minus it. It is a single digit, and appended with
   * weight 1 it makes the weighted sum a multiple of 11, except where that
   * would need the value 10 and 0 is used instead.
   */
  function CheckDigit(part: string): (d: nat)
    requires AllDigits(part)
    ensures d <= 9
    ensures var sum := WeightedSum(part, |part| + 1);
            (sum + d) % 11 == 0 || (d == 0 && sum % 11 == 1)
  {
    var resto := WeightedSum(part, |part| + 1) % 11;
    if resto < 2 then 0 else 11 - resto
  }

  /** The weighted sum of digits is never negative while the weights stay positive. */
  lemma {:induction false} WeightedSumNonNegative(part: string, peso: int)
    requires AllDigits(part) && peso >= |part|
    ensures WeightedSum(part, peso) >= 0
  {
    if part != [] {
      WeightedSumNonNegative(part[1..], peso - 1);
    }
  }

  lemma WeightedSumStep(p: string, i: nat, peso: int)
    requires AllDigits(p) && i < |p|
    ensures WeightedSum(p[i..], peso) == DigitValue(p[i]) * peso + WeightedSum(p[i + 1..], peso - 1)
  {
    assert p[i..][1..] == p[i + 1..];
  }

  /** For nine digits the weights run 10, 9, ..., 2. */
  lemma WeightsOfNine(p: string)
    requires |p| == 9 && AllDigits(p)
    ensures WeightedSum(p, 10) == 10 * DigitValue(p[0]) + 9 * DigitValue(p[1]) + 8 * DigitValue(p[2])
                                  + 7 * DigitValue(p[3]) + 6 * DigitValue(p[4]) + 5 * DigitValue(p[5])
                                  + 4 * DigitValue(p[6]) + 3 * DigitValue(p[7]) + 2 * DigitValue(p[8])
  {
    WeightedSumStep(p, 0, 10);
    WeightedSumStep(p, 1, 9);
    WeightedSumStep(p, 2, 8);
    WeightedSumStep(p, 3, 7);
    WeightedSumStep(p, 4, 6);
    WeightedSumStep(p, 5, 5);
    WeightedSumStep(p, 6, 4);
    WeightedSumStep(p, 7, 3);
    WeightedSumStep(p, 8, 2);
    assert p[9..] == [];
  }

  /** For ten digits the weights run 11, 10, ..., 2. */
  lemma WeightsOfTen(p: string)
    requires |p| == 10 && AllDigits(p)
    ensures WeightedSum(p, 11) == 11 * DigitValue(p[0]) + WeightedSum(p[1..], 10)
    ensures WeightedSum(p, 11) == 11 * DigitValue(p[0]) + 10 * DigitValue(p[1]) + 9 * DigitValue(p[2])
                                  + 8 * DigitValue(p[3]) + 7 * DigitValue(p[4]) + 6 * DigitValue(p[5])
                                  + 5 * DigitValue(p[6]) + 4 * DigitValue(p[7]) + 3 * DigitValue(p[8])
                                  + 2 * DigitValue(p[9])
  {
    WeightsOfNine(p[1..]);
  }

  /** `calc_digit`: accumulates `soma` with a falling weight `peso`, then reduces modulo 11. */
  method CalcDigit(cpfPart: string) returns (digit: nat)
    requires AllDigits(cpfPart)
    ensures digit == CheckDigit(cpfPart)
    ensures digit <= 9
  {
    var soma := 0;
    var peso := |cpfPart| + 1;
    for i := 0 to |cpfPart|
      invariant peso == |cpfPart| + 1 - i
      invariant soma + WeightedSum(cpfPart[i..], peso) == WeightedSum(cpfPart, |cpfPart| + 1)
    {
      assert cpfPart[i..][1..] == cpfPart[i + 1..];
      soma := soma + DigitValue(cpfPart[i]) * peso;
      peso := peso - 1;
    }
    assert cpfPart[|cpfPart|..] == [];
    var resto := soma % 11;
    digit := if resto < 2 then 0 else 11 - resto;
  }

  // ---------------------------------------------------------------------------
  // is_valid_cpf

  /** Eleven copies of one character, as `cpf[0] * 11` builds them. */
  function Repeat(c: char, n: nat): (r: string)
    ensures |r| == n && forall i :: 0 <= i < n ==> r[i] == c
  {
    if n == 0 then [] else [c] + Repeat(c, n - 1)
  }

  predicate Repdigit(d: string) {
    |d| > 0 && d == Repeat(d[0], |d|)
  }

  /**
   * When a digit-only string is a valid CPF: eleven digits, not all the same,
   * the tenth equal to the check digit of the first nine and the eleventh equal
   * to the check digit of those nine followed by the tenth.
   */
  predicate CpfValid(d: string)
    requires AllDigits(d)
  {
    && |d| == 11
    && !Repdigit(d)
    && var d1 := CheckDigit(d[..9]);
       && DigitValue(d[9]) == d1
       && DigitValue(d[10]) == CheckDigit(d[..9] + [DigitChar(d1)])
  }

  /** `is_valid_cpf`: strips the input to digits, applies the guards, then compares the two check digits. */
  method IsValidCpf(cpf: Option<string>) returns (valid: bool)
    ensures valid == CpfValid(OnlyDigits(cpf))
    ensures valid ==> |OnlyDigits(cpf)| == 11 && !Repdigit(OnlyDigits(cpf))
  {
    var digits := OnlyDigits(cpf);
    if |digits| == 0 || |digits| != 11 {
      return false;
    }
    if digits == Repeat(digits[0], 11) {
      return false;
    }
    var d1 := CalcDigit(digits[..9]);
    var d2 := CalcDigit(digits[..9] + Show(d1));
    var suffix := Show(d1) + Show(d2);
    valid := digits[|digits| - |suffix|..] == suffix;
    assert Show(d1) == [DigitChar(d1)];
    assert valid <==> digits[9] == DigitChar(d1) && digits[10] == DigitChar(d2);
    DigitCharOfValue(digits[9]);
    DigitCharOfValue(digits[10]);
  }

  /** Too short or too long digit strings are never valid CPFs. */
  lemma WrongLengthInvalid(cpf: Option<string>)
    requires |OnlyDigits(cpf)| != 11
    ensures !CpfValid(OnlyDigits(cpf))
  {
  }

  /** The weighted sum of `n` copies of digit `c` starting at weight `peso`. */
  lemma {:induction false} WeightedSumRepeat(c: char, n: nat, peso: int)
    requires IsDigit(c)
    ensures WeightedSum(Repeat(c, n), peso) * 2 == DigitValue(c) * n * (2 * peso - n + 1)
  {
    if n > 0 {
      assert Repeat(c, n)[1..] == Repeat(c, n - 1);
      WeightedSumRepeat(c, n - 1, peso - 1);
    }
  }

  /**
   * Every string of eleven equal digits passes the check-digit comparison, so
   * the repeated-digit guard is what rejects "00000000000", "11111111111", ...
   */
  lemma RepdigitsPassCheckDigits(k: nat)
    requires k < 10
    ensures var d := Repeat(DigitChar(k), 11);
            var d1 := CheckDigit(d[..9]);
            && DigitValue(d[9]) == d1
            && DigitValue(d[10]) == CheckDigit(d[..9] + [DigitChar(d1)])
    ensures !CpfValid(Repeat(DigitChar(k), 11))
  {
    var c := DigitChar(k);
    var d := Repeat(c, 11);
    assert d[..9] == Repeat(c, 9);
    WeightedSumRepeat(c, 9, 10);
    assert WeightedSum(Repeat(c, 9), 10) == 54 * k;
    assert CheckDigit(d[..9]) == k;
    assert d[..9] + [DigitChar(k)] == Repeat(c, 10);
    WeightedSumRepeat(c, 10, 11);
    assert WeightedSum(Repeat(c, 10), 11) == 65 * k;
  }

  /**
   * Regression anchor, like the two lemmas after it: the digits 52998224725
   * form a valid CPF (check digits 2 and 5). The all-inputs statements are
   * `CheckDigit`'s contract and `CpfValid`.
   */
  lemma ValidExampleDigits()
    ensures CpfValid("52998224725")
  {
    var d := "52998224725";
    assert AllDigits(d);
    assert d[..9] == "529982247";
    FirstCheckExample();
    assert d[..9] + [DigitChar(2)] == "5299822472";
    SecondCheckExample();
    assert d[1] != d[0];
  }

  /** Regression anchor: weighted sum 295 = 26 * 11 + 9, so the first check digit is 11 - 9 = 2. */
  lemma FirstCheckExample()
    ensures CheckDigit("529982247") == 2
  {
    WeightsOfNine("529982247");
    assert WeightedSum("529982247", 10) == 295;
  }

  /** Regression anchor: weighted sum 347 = 31 * 11 + 6, so the second check digit is 11 - 6 = 5. */
  lemma SecondCheckExample()
    ensures CheckDigit("5299822472") == 5
  {
    WeightsOfTen("5299822472");
    assert WeightedSum("5299822472", 11) == 347;
  }

  /** Validation ignores formatting: stripping first changes nothing. */
  lemma ValidityIgnoresFormatting(cpf: Option<string>)
    ensures CpfValid(OnlyDigits(Some(OnlyDigits(cpf)))) == CpfValid(OnlyDigits(cpf))
  {
    OnlyDigitsIdempotent(cpf);
  }

  // ---------------------------------------------------------------------------
  // format_cpf

  /** The 14-character layout `ddd.ddd.ddd-dd`. */
  predicate CpfShaped(r: string) {
    && |r| == 14
    && r[3] == '.' && r[7] == '.' && r[11] == '-'
    && forall i :: 0 <= i < 14 && i != 3 && i != 7 && i != 11 ==> IsDigit(r[i])
  }

  /** `format_cpf`: eleven digits are laid out as `ddd.ddd.ddd-dd`; any other digit count is returned bare. */
  function FormatCpf(cpf: Option<string>): (r: string)
    ensures |OnlyDigits(cpf)| == 11 ==> CpfShaped(r)
    ensures |OnlyDigits(cpf)| != 11 ==> r == OnlyDigits(cpf)
  {
    var d := OnlyDigits(cpf);
    if |d| != 11 then d
    else d[0..3] + "." + d[3..6] + "." + d[6..9] + "-" + d[9..11]
  }

  /** Formatting keeps exactly the digits it was given, in order. */
  lemma FormatKeepsDigits(cpf: Option<string>)
    ensures OnlyDigits(Some(FormatCpf(cpf))) == OnlyDigits(cpf)
  {
    var d := OnlyDigits(cpf);
    if |d| != 11 {
      DigitsOfDigits(d);
    } else {
      LayoutKeepsDigits(d[0..3], d[3..6], d[6..9], d[9..11]);
      assert FormatCpf(cpf) == d[0..3] + ("." + (d[3..6] + ("." + (d[6..9] + ("-" + d[9..11])))));
      assert d[0..3] + (d[3..6] + (d[6..9] + d[9..11])) == d;
    }
  }

  /** The separators of the layout are the only characters `only_digits` drops from it. */
  lemma LayoutKeepsDigits(a: string, b: string, c: string, e: string)
    requires AllDigits(a) && AllDigits(b) && AllDigits(c) && AllDigits(e)
    ensures Digits(a + ("." + (b + ("." + (c + ("-" + e)))))) == a + (b + (c + e))
  {
    var t4 := "-" + e;
    DigitsKeepsAfterSeparator('-', e);
    DigitsOfDigits(e);
    assert Digits(t4) == e;
    var t3 := c + t4;
    DigitsAppend(c, t4);
    DigitsOfDigits(c);
    assert Digits(t3) == c + e;
    var t2 := "." + t3;
    DigitsKeepsAfterSeparator('.', t3);
    var t1 := b + t2;
    DigitsAppend(b, t2);
    DigitsOfDigits(b);
    assert Digits(t1) == b + (c + e);
    var t0 := "." + t1;
    DigitsKeepsAfterSeparator('.', t1);
    DigitsAppend(a, t0);
    DigitsOfDigits(a);
  }

  /** A leading separator is dropped. */
  lemma DigitsKeepsAfterSeparator(sep: char, s: string)
    requires !IsDigit(sep)
    ensures Digits([sep] + s) == Digits(s)
  {
    assert ([sep] + s)[1..] == s;
  }

  /** So a CPF is valid exactly when its formatted form is. */
  lemma FormatPreservesValidity(cpf: Option<string>)
    ensures CpfValid(OnlyDigits(Some(FormatCpf(cpf)))) == CpfValid(OnlyDigits(cpf))
  {
    FormatKeepsDigits(cpf);
  }
}
