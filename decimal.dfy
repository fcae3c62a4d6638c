/** Decimal text of 32-bit signed integers, as the translator reads the
    thumbnail's `width` and `height` attributes (`value.parse::<i32>()`) and
    writes them back into the item description (`Display` for `i32`). */
module Decimal {
  import opened Results

  const I32Min: int := -0x8000_0000
  const I32Max: int := 0x7fff_ffff

  predicate IsDigit(c: char) {
    '0' <= c <= '9'
  }

  predicate AllDigits(s: string) {
    forall i | 0 <= i < |s| :: IsDigit(s[i])
  }

  /** The number denoted by a string of decimal digits. */
  function DigitsValue(s: string): nat
    requires AllDigits(s)
    decreases |s|
  {
    if |s| == 0 then 0
    else DigitsValue(s[..|s| - 1]) * 10 + (s[|s| - 1] as int - '0' as int)
  }

  /** `str::parse::<i32>`: an optional `+` or `-` followed by at least one
      decimal digit, denoting a value that fits in 32 bits; anything else
      (the empty string, a lone sign, any other character, an overflow) fails. */
  function ParseI32(s: string): (r: Option<int>)
    ensures r.Some? ==> I32Min <= r.value <= I32Max
  {
    var signed := |s| > 0 && (s[0] == '-' || s[0] == '+');
    var digits := if signed then s[1..] else s;
    if |digits| == 0 || !AllDigits(digits) then None
    else
      var magnitude: int := DigitsValue(digits);
      var v: int := if signed && s[0] == '-' then -magnitude else magnitude;
      if I32Min <= v <= I32Max then Some(v) else None
  }

  /** The value of a sign (empty, `+` or `-`) put before decimal digits. */
  function SignedValue(sign: string, digits: string): int
    requires AllDigits(digits)
  {
    var magnitude: int := DigitsValue(digits);
    if sign == "-" then -magnitude else magnitude
  }

  /** What `ParseI32` accepts, split at its sign: a text is read exactly
      when at least one digit, and nothing else, follows the sign and the
      signed value fits in 32 bits, and then it is read as that value. */
  lemma ParseI32Syntax(sign: string, digits: string)
    requires sign == "" || sign == "+" || sign == "-"
    requires sign == "" && |digits| > 0 ==> digits[0] != '+' && digits[0] != '-'
    ensures ParseI32(sign + digits).Some? <==>
      |digits| > 0 && AllDigits(digits) && I32Min <= SignedValue(sign, digits) <= I32Max
    ensures ParseI32(sign + digits).Some? ==> ParseI32(sign + digits).value == SignedValue(sign, digits)
  {
    if sign == "" {
      assert sign + digits == digits;
    } else {
      assert (sign + digits)[0] == sign[0];
      assert (sign + digits)[1..] == digits;
    }
  }

  /** The decimal digits of `n`, without leading zeros. */
  function NatDigits(n: nat): (s: string)
    ensures |s| > 0 && AllDigits(s)
    ensures DigitsValue(s) == n
    ensures |s| > 1 ==> s[0] != '0'
    decreases n
  {
    var last := ('0' as int + n % 10) as char;
    if n < 10 then [last]
    else
      var front := NatDigits(n / 10);
      assert (front + [last])[..|front|] == front;
      front + [last]
  }

  /** `Display` for an integer: a `-` before the digits of a negative value. */
  function FormatInt(n: int): (s: string)
    ensures |s| > 0
    ensures (s[0] == '-') <==> n < 0
    ensures var d := if n < 0 then s[1..] else s;
      && |d| > 0 && AllDigits(d)
      && DigitsValue(d) == (if n < 0 then -n else n)
      && (|d| > 1 ==> d[0] != '0')
  {
    if n < 0 then "-" + NatDigits(-n) else NatDigits(n)
  }

  /** Every 32-bit value written by `FormatInt` is read back by `ParseI32`. */
  lemma ParseFormatRoundTrip(n: int)
    requires I32Min <= n <= I32Max
    ensures ParseI32(FormatInt(n)) == Some(n)
  {
    var d := NatDigits(if n < 0 then -n else n);
    if n < 0 {
      assert ("-" + d)[1..] == d;
    } else {
      assert IsDigit(d[0]);
    }
  }

  /** The parser admits a sign and leading zeros and refuses a lone sign,
      the empty string and trailing text. */
  lemma ParseI32Examples()
    ensures ParseI32("+090") == Some(90)
    ensures ParseI32("-7") == Some(-7)
    ensures ParseI32("-") == None && ParseI32("") == None && ParseI32("12px") == None
  {
    assert "+090"[1..] == "090";
    assert "090"[..2] == "09" && "09"[..1] == "0" && "0"[..0] == "";
    assert "-7"[1..] == "7" && "7"[..0] == "";
    assert !IsDigit("12px"[2]);
  }
}
