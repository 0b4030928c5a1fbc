// strconv.ParseUint with base 0, on strings of decimal digits.
module Numerals {
  import opened Text

  const TWO_TO_THE_63: int := 0x8000_0000_0000_0000
  const TWO_TO_THE_64: int := 0x1_0000_0000_0000_0000

  datatype Parsed = Ok(value: nat) | SyntaxError | RangeError

  /** Reading digits from the left, with the checks that ParseUint makes on the way. */
  function Scan(s: string, base: nat, n: nat): (p: Parsed)
    requires AllDigits(s)
    ensures p.Ok? && n < TWO_TO_THE_64 ==> p.value < TWO_TO_THE_64
  {
    if s == "" then Ok(n)
    else if DigitValue(s[0]) >= base then SyntaxError
    else if n * base + DigitValue(s[0]) >= TWO_TO_THE_64 then RangeError
    else Scan(s[1..], base, n * base + DigitValue(s[0]))
  }

  /** ParseUint(s, 0, 64): a leading zero makes the rest octal. */
  function ParseUint(s: string): (p: Parsed)
    requires AllDigits(s)
    ensures p.Ok? ==> p.value < TWO_TO_THE_64
  {
    if s == "" then SyntaxError
    else if s[0] == '0' then Scan(s[1..], 8, 0)
    else Scan(s, 10, 0)
  }

  /** What ParseUint returns as its number: 0 or the largest one beside an error. */
  function Number(p: Parsed): (n: nat)
    requires p.Ok? ==> p.value < TWO_TO_THE_64
    ensures n < TWO_TO_THE_64
  {
    match p
    case Ok(n) => n
    case SyntaxError => 0
    case RangeError => TWO_TO_THE_64 - 1
  }

  /** int64(n) */
  function ToInt64(n: nat): int
    requires n < TWO_TO_THE_64
  {
    if n < TWO_TO_THE_63 then n else n - TWO_TO_THE_64
  }

  /** On the non-negative half of int64, comparing after the conversion is comparing numbers. */
  lemma ConversionIsFaithful(n: nat, m: int)
    requires n < TWO_TO_THE_64 && -TWO_TO_THE_63 <= m < TWO_TO_THE_63
    ensures ToInt64(n) == m <==> n == if m >= 0 then m else m + TWO_TO_THE_64
  {
  }

  /** The number that a string of digits denotes. */
  function ValueOf(s: string, base: nat): nat
    requires AllDigits(s)
  {
    if s == "" then 0 else ValueOf(s[..|s| - 1], base) * base + DigitValue(s[|s| - 1])
  }

  predicate DigitsBelow(s: string, base: nat)
    requires AllDigits(s)
  {
    forall i :: 0 <= i < |s| ==> DigitValue(s[i]) < base
  }

  /** Reading digits that are all valid and never overflow, from the left. */
  function Horner(s: string, base: nat, n: nat): nat
    requires AllDigits(s)
  {
    if s == "" then n else Horner(s[1..], base, n * base + DigitValue(s[0]))
  }

  lemma {:induction false} HornerGrows(s: string, base: nat, n: nat)
    requires AllDigits(s) && (base == 8 || base == 10)
    ensures Horner(s, base, n) >= n
  {
    if s != "" { HornerGrows(s[1..], base, n * base + DigitValue(s[0])); }
  }

  lemma {:induction false} HornerOfLast(s: string, base: nat, n: nat)
    requires AllDigits(s) && s != "" && (base == 8 || base == 10)
    ensures Horner(s, base, n) == Horner(s[..|s| - 1], base, n) * base + DigitValue(s[|s| - 1])
  {
    if |s| > 1 {
      var rest, n' := s[1..], n * base + DigitValue(s[0]);
      HornerOfLast(rest, base, n');
      assert s[..|s| - 1][1..] == rest[..|rest| - 1];
    } else {
      assert s[1..] == "" && s[..0] == "";
    }
  }

  lemma {:induction false} HornerIsValue(s: string, base: nat)
    requires AllDigits(s) && (base == 8 || base == 10)
    ensures Horner(s, base, 0) == ValueOf(s, base)
  {
    if s != "" {
      HornerIsValue(s[..|s| - 1], base);
      HornerOfLast(s, base, 0);
    }
  }

  lemma {:induction false} ScanMeaning(s: string, base: nat, n: nat)
    requires AllDigits(s) && (base == 8 || base == 10) && n < TWO_TO_THE_64
    ensures Scan(s, base, n).Ok? <==> DigitsBelow(s, base) && Horner(s, base, n) < TWO_TO_THE_64
    ensures Scan(s, base, n).Ok? ==> Scan(s, base, n) == Ok(Horner(s, base, n))
  {
    if s != "" {
      var n' := n * base + DigitValue(s[0]);
      if DigitValue(s[0]) < base {
        if n' < TWO_TO_THE_64 { ScanMeaning(s[1..], base, n'); }
        HornerGrows(s[1..], base, n');
        assert DigitsBelow(s[1..], base) <==> DigitsBelow(s, base) by {
          assert forall i :: 0 < i < |s| ==> s[i] == s[1..][i - 1];
        }
      }
    }
  }

  /** Octal digits denote less in octal than in decimal, except for a single digit. */
  lemma {:induction false} OctalIsLess(s: string)
    requires AllDigits(s)
    ensures ValueOf(s, 8) <= ValueOf(s, 10)
    ensures ValueOf(s, 8) == ValueOf(s, 10) && DigitsBelow(s, 8) <==> ValueOf(s, 10) < 8
  {
    if s != "" {
      var init := s[..|s| - 1];
      OctalIsLess(init);
      assert DigitsBelow(s, 8) <==> DigitsBelow(init, 8) && DigitValue(s[|s| - 1]) < 8;
    }
  }

  lemma {:induction false} LeadingZero(s: string)
    requires AllDigits(s) && s != "" && s[0] == '0'
    ensures ValueOf(s, 10) == ValueOf(s[1..], 10)
  {
    if |s| > 1 {
      LeadingZero(s[..|s| - 1]);
      assert s[..|s| - 1][1..] == s[1..][..|s| - 2];
    } else {
      assert s[..0] == "" && s[1..] == "";
    }
  }

  /**
   * A string of digits is read as the decimal number it shows if and only if it starts with no
   * zero and fits in 64 bits, or starts with a zero and denotes less than 8.
   */
  lemma ReadsDecimal(s: string)
    requires AllDigits(s) && s != ""
    ensures ParseUint(s) == Ok(ValueOf(s, 10))
       <==> if s[0] == '0' then ValueOf(s, 10) < 8 else ValueOf(s, 10) < TWO_TO_THE_64
  {
    if s[0] == '0' {
      var rest := s[1..];
      LeadingZero(s);
      ScanMeaning(rest, 8, 0);
      HornerIsValue(rest, 8);
      OctalIsLess(rest);
    } else {
      ScanMeaning(s, 10, 0);
      HornerIsValue(s, 10);
    }
  }

  lemma {:induction false} DecimalDenotes(n: nat)
    ensures ValueOf(Decimal(n), 10) == n
    decreases n
  {
    var s := Decimal(n);
    if n >= 10 {
      DecimalDenotes(n / 10);
      assert s[..|s| - 1] == Decimal(n / 10);
    } else {
      assert s[..0] == "";
    }
  }

  /** Printing a 64-bit number and reading it back gives the number. */
  lemma ParseInvertsDecimal(n: nat)
    requires n < TWO_TO_THE_64
    ensures ParseUint(Decimal(n)) == Ok(n)
  {
    DecimalDenotes(n);
    ReadsDecimal(Decimal(n));
  }

  /** A number beyond 64 bits is not read back. */
  lemma ParseRefusesLarge(n: nat)
    requires n >= TWO_TO_THE_64
    ensures !ParseUint(Decimal(n)).Ok?
  {
    var s := Decimal(n);
    DecimalDenotes(n);
    DecimalBegins(n);
    ScanMeaning(s, 10, 0);
    HornerIsValue(s, 10);
  }

  lemma {:induction false} DecimalBegins(n: nat)
    requires n > 0
    ensures Decimal(n) != "" && Decimal(n)[0] != '0'
    decreases n
  {
    if n >= 10 { DecimalBegins(n / 10); }
  }
}
