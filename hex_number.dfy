/**
  Hexadecimal strings of the starknet library's `number` helpers, as the
  router uses them: `toHex` renders a non-negative big number as "0x"
  followed by its lower-case hexadecimal digits without leading zeros, and
  reading such a string back (what `toBN` does with a hex string) gives the
  number again.
 */
module HexNumber {

  import opened Wrappers

  const Alphabet: string := "0123456789abcdef"

  /** The lower-case character of one hexadecimal digit. */
  function HexChar(d: nat): (c: char)
    requires d < 16
    ensures DigitValue(c) == Some(d)
    ensures IsLowerHexDigit(c)
  {
    Alphabet[d]
  }

  predicate IsLowerHexDigit(c: char) {
    '0' <= c <= '9' || 'a' <= c <= 'f'
  }

  /** The value of one hexadecimal digit, either case; None for any other character. */
  function DigitValue(c: char): (r: Option<nat>)
    ensures r.Some? ==> r.value < 16
    ensures r.Some? && IsLowerHexDigit(c) ==> Alphabet[r.value] == c
    ensures IsLowerHexDigit(c) ==> r.Some?
  {
    if '0' <= c <= '9' then Some(c as int - '0' as int)
    else if 'a' <= c <= 'f' then Some(c as int - 'a' as int + 10)
    else if 'A' <= c <= 'F' then Some(c as int - 'A' as int + 10)
    else None
  }

  /** A digit string as `toHex` writes it: lower case, no leading zero unless it is "0". */
  predicate CanonicalDigits(s: string) {
    && |s| >= 1
    && (forall i :: 0 <= i < |s| ==> IsLowerHexDigit(s[i]))
    && (s[0] == '0' ==> |s| == 1)
  }

  /** The digits of `n` in base 16, most significant first. */
  function Digits(n: nat): (s: string)
    ensures CanonicalDigits(s)
    ensures s == "0" <==> n == 0
  {
    if n < 16 then [HexChar(n)]
    else Digits(n / 16) + [HexChar(n % 16)]
  }

  /** The number a string of hexadecimal digits denotes; None if a character is not a digit. */
  function DigitsValue(s: string): (r: Option<nat>)
  {
    if |s| == 0 then Some(0)
    else
      match (DigitsValue(s[..|s| - 1]), DigitValue(s[|s| - 1]))
      case (Some(high), Some(low)) => Some(high * 16 + low)
      case _ => None
  }

  /** `number.toHex`: "0x" and the canonical digits. */
  function ToHex(n: nat): (s: string)
    ensures |s| >= 3 && s[..2] == "0x"
    ensures CanonicalDigits(s[2..])
  {
    "0x" + Digits(n)
  }

  /** Reading a "0x"-prefixed hexadecimal string as a number; None if it is not one. */
  function FromHex(s: string): (r: Option<nat>)
    ensures r.Some? ==> |s| >= 3 && s[0] == '0' && (s[1] == 'x' || s[1] == 'X')
  {
    if |s| >= 3 && s[0] == '0' && (s[1] == 'x' || s[1] == 'X') then DigitsValue(s[2..])
    else None
  }

  /** Reading the digits back gives the number. */
  lemma {:induction false} DigitsRoundTrip(n: nat)
    ensures DigitsValue(Digits(n)) == Some(n)
  {
    var s := Digits(n);
    if n < 16 {
      assert s[..0] == [];
    } else {
      DigitsRoundTrip(n / 16);
      assert s[..|s| - 1] == Digits(n / 16);
    }
  }

  /** `FromHex` undoes `ToHex`. */
  lemma HexRoundTrip(n: nat)
    ensures FromHex(ToHex(n)) == Some(n)
  {
    assert ToHex(n)[2..] == Digits(n);
    DigitsRoundTrip(n);
  }

  /** Two numbers with the same hex string are equal. */
  lemma ToHexInjective(m: nat, n: nat)
    ensures ToHex(m) == ToHex(n) <==> m == n
  {
    HexRoundTrip(m);
    HexRoundTrip(n);
  }

  /** A canonical digit string other than "0" denotes a positive number. */
  lemma {:induction false} CanonicalPositive(s: string)
    requires CanonicalDigits(s) && s != "0"
    ensures DigitsValue(s).Some? && DigitsValue(s).value >= 1
  {
    if |s| == 1 {
      assert s[..0] == [];
    } else {
      CanonicalInit(s);
      CanonicalPositive(s[..|s| - 1]);
    }
  }

  /** Appending one digit multiplies by sixteen and adds the digit. */
  lemma AppendDigit(high: nat, low: nat)
    requires 1 <= high && low < 16
    ensures Digits(high * 16 + low) == Digits(high) + [HexChar(low)]
  {
    var n := high * 16 + low;
    assert n / 16 == high && n % 16 == low;
  }

  /** Dropping the last digit of a canonical string of two or more digits leaves a canonical string. */
  lemma CanonicalInit(s: string)
    requires CanonicalDigits(s) && |s| >= 2
    ensures CanonicalDigits(s[..|s| - 1]) && s[..|s| - 1] != "0"
    ensures s == s[..|s| - 1] + [s[|s| - 1]]
  {
    assert s[..|s| - 1][0] == s[0];
  }

  /** Every canonical digit string is what `Digits` writes for the number it denotes. */
  lemma {:induction false} CanonicalDigitsRoundTrip(s: string)
    requires CanonicalDigits(s)
    ensures DigitsValue(s).Some? && Digits(DigitsValue(s).value) == s
  {
    var last := s[|s| - 1];
    assert IsLowerHexDigit(last);
    var low := DigitValue(last).value;
    assert HexChar(low) == last;
    var init := s[..|s| - 1];
    if |s| == 1 {
      assert init == [];
      assert DigitsValue(s) == Some(low);
    } else {
      CanonicalInit(s);
      CanonicalPositive(init);
      CanonicalDigitsRoundTrip(init);
      var high := DigitsValue(init).value;
      assert DigitsValue(s) == Some(high * 16 + low);
      AppendDigit(high, low);
    }
  }

  /** Every string `toHex` can produce is `ToHex` of what it reads as. */
  lemma CanonicalHexRoundTrip(s: string)
    requires |s| >= 3 && s[..2] == "0x" && CanonicalDigits(s[2..])
    ensures FromHex(s).Some? && ToHex(FromHex(s).value) == s
  {
    CanonicalDigitsRoundTrip(s[2..]);
    assert s == s[..2] + s[2..];
  }
}
