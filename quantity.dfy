/**
 * The inline quantity parse of app.py: every ASCII letter is deleted from the
 * usage string with `str.translate` and the remainder is given to `int()`.
 * Unit suffixes and prefixes are discarded, not scaled.
 */
module Quantity {
  import opened Wrappers

  /** A member of `string.ascii_letters`. */
  predicate IsAsciiLetter(c: char) {
    'a' <= c <= 'z' || 'A' <= c <= 'Z'
  }

  predicate IsDigit(c: char) {
    '0' <= c <= '9'
  }

  predicate AllLetters(s: string) {
    forall i :: 0 <= i < |s| ==> IsAsciiLetter(s[i])
  }

  /** A remainder that `int()` accepts, restricted to plain ASCII digits. */
  predicate IsNumeral(s: string) {
    |s| > 0 && forall i :: 0 <= i < |s| ==> IsDigit(s[i])
  }

  /** What `s.translate(str.maketrans('', '', string.ascii_letters))` leaves. */
  function StripLetters(s: string): (r: string)
    ensures |r| <= |s|
    ensures forall i :: 0 <= i < |r| ==> !IsAsciiLetter(r[i])
  {
    if s == [] then []
    else (if IsAsciiLetter(s[0]) then [] else [s[0]]) + StripLetters(s[1..])
  }

  function DigitValue(c: char): nat
    requires IsDigit(c)
  {
    c as int - '0' as int
  }

  function DigitChar(d: nat): (c: char)
    requires d < 10
    ensures IsDigit(c) && DigitValue(c) == d
  {
    ('0' as int + d) as char
  }

  /** The value of a decimal numeral, most significant digit first. */
  function NumeralValue(s: string): nat
    requires forall i :: 0 <= i < |s| ==> IsDigit(s[i])
  {
    if s == [] then 0 else 10 * NumeralValue(s[..|s| - 1]) + DigitValue(s[|s| - 1])
  }

  /** The canonical decimal rendering of a natural number (no leading zeros). */
  function Decimal(n: nat): (s: string)
    ensures IsNumeral(s)
  {
    if n < 10 then [DigitChar(n)] else Decimal(n / 10) + [DigitChar(n % 10)]
  }

  /**
   * `int(raw.translate(...))`: the integer written by what is left once the
   * letters are gone, or the ValueError `int()` raises, which carries that
   * remainder.
   */
  function Parse(raw: string): (r: Result<nat, string>)
    ensures r.Ok? <==> IsNumeral(StripLetters(raw))
    ensures r.Err? ==> r.error == StripLetters(raw)
  {
    var rest := StripLetters(raw);
    if IsNumeral(rest) then Ok(NumeralValue(rest)) else Err(rest)
  }

  lemma {:induction false} StripLettersAppend(a: string, b: string)
    ensures StripLetters(a + b) == StripLetters(a) + StripLetters(b)
  {
    if a == [] {
      assert a + b == b;
    } else {
      assert (a + b)[1..] == a[1..] + b;
      StripLettersAppend(a[1..], b);
    }
  }

  /** Deleting letters leaves a string without letters unchanged. */
  lemma {:induction false} StripLettersKeepsOthers(s: string)
    requires forall i :: 0 <= i < |s| ==> !IsAsciiLetter(s[i])
    ensures StripLetters(s) == s
  {
    if s != [] {
      StripLettersKeepsOthers(s[1..]);
    }
  }

  /** A run made only of letters disappears completely. */
  lemma {:induction false} StripLettersDropsLetters(s: string)
    requires AllLetters(s)
    ensures StripLetters(s) == []
  {
    if s != [] {
      StripLettersDropsLetters(s[1..]);
    }
  }

  lemma {:induction false} DecimalValue(n: nat)
    ensures NumeralValue(Decimal(n)) == n
  {
    if n >= 10 {
      var s := Decimal(n / 10) + [DigitChar(n % 10)];
      assert s[..|s| - 1] == Decimal(n / 10);
      DecimalValue(n / 10);
    }
  }

  /**
   * A numeral followed by any unit suffix of letters parses to the numeral's
   * value: the suffix is neither checked nor used to scale.
   */
  lemma ParseNumeralWithSuffix(digits: string, suffix: string)
    requires IsNumeral(digits) && AllLetters(suffix)
    ensures Parse(digits + suffix) == Ok(NumeralValue(digits))
  {
    StripLettersAppend(digits, suffix);
    StripLettersKeepsOthers(digits);
    StripLettersDropsLetters(suffix);
    assert digits + [] == digits;
  }

  /** Rendering a number and appending a unit suffix is undone by Parse. */
  lemma ParseRoundTrip(n: nat, suffix: string)
    requires AllLetters(suffix)
    ensures Parse(Decimal(n) + suffix) == Ok(n)
  {
    ParseNumeralWithSuffix(Decimal(n), suffix);
    DecimalValue(n);
  }

  /**
   * Letters are deleted wherever they stand, not only at the end: inserting a
   * run of letters anywhere never changes the outcome.
   */
  lemma ParseIgnoresLettersAnywhere(before: string, letters: string, after: string)
    requires AllLetters(letters)
    ensures Parse(before + letters + after) == Parse(before + after)
  {
    StripLettersAppend(before + letters, after);
    StripLettersAppend(before, letters);
    StripLettersAppend(before, after);
    StripLettersDropsLetters(letters);
    assert StripLetters(before) + [] == StripLetters(before);
  }

  /** CPU usage in millicores parses to the bare number of millicores. */
  lemma ParseMillicores()
    ensures Parse("250m") == Ok(250)
  {
    ParseNumeralWithSuffix("250", "m");
    assert "250" + "m" == "250m";
    assert NumeralValue("250") == 250 by {
      assert "250"[..2] == "25" && "25"[..1] == "2" && "2"[..0] == "";
      assert NumeralValue("2") == 2;
      assert NumeralValue("25") == 25;
    }
  }

  /** Memory in kibibytes parses to the bare number of kibibytes. */
  lemma ParseKibibytes()
    ensures Parse("1024Ki") == Ok(1024)
  {
    ParseNumeralWithSuffix("1024", "Ki");
    assert "1024" + "Ki" == "1024Ki";
    assert NumeralValue("1024") == 1024 by {
      assert "1024"[..3] == "102" && "102"[..2] == "10" && "10"[..1] == "1" && "1"[..0] == "";
      assert NumeralValue("1") == 1;
      assert NumeralValue("10") == 10;
      assert NumeralValue("102") == 102;
    }
  }

  /** An exponent letter is deleted like any other: "1e3" reads as 13. */
  lemma ParseExponentDigits()
    ensures Parse("1e3") == Ok(13)
  {
    assert StripLetters("1e3") == "13" by {
      assert "1e3"[1..] == "e3" && "e3"[1..] == "3" && "3"[1..] == "";
      assert StripLetters("3") == "3";
      assert StripLetters("e3") == "3";
    }
    assert NumeralValue("13") == 13 by {
      assert "13"[..1] == "1" && "1"[..0] == "";
      assert NumeralValue("1") == 1;
    }
  }

  /** A decimal point survives the deletion, so int() raises on it. */
  lemma ParseFractionFails()
    ensures Parse("1.5Gi") == Err("1.5")
  {
    StripLettersAppend("1.5", "Gi");
    StripLettersKeepsOthers("1.5");
    StripLettersDropsLetters("Gi");
    assert "1.5" + "Gi" == "1.5Gi";
    assert "1.5" + [] == "1.5";
    assert !IsDigit("1.5"[1]);
  }

  /** A suffix with no number in front leaves the empty string, which int() rejects. */
  lemma ParseUnitOnlyFails()
    ensures Parse("Ki") == Err("")
  {
    StripLettersDropsLetters("Ki");
  }
}
