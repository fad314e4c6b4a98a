/** Lower-case hexadecimal and decimal numerals, as Go's encoding/hex, %x and %d print them, and int64 values. */
module Numerals {

  function Digit(n: nat): (c: char)
    requires n < 16
  {
    if n < 10 then ('0' as int + n) as char else ('a' as int + n - 10) as char
  }

  function DigitValue(c: char): (n: nat)
    ensures n < 16
  {
    if '0' <= c <= '9' then c as int - '0' as int
    else if 'a' <= c <= 'f' then c as int - 'a' as int + 10
    else 0
  }

  lemma DigitRoundTrip(n: nat)
    requires n < 16
    ensures DigitValue(Digit(n)) == n
  {
  }

  predicate HexDigit(c: char) {
    '0' <= c <= '9' || 'a' <= c <= 'f'
  }

  /** `width` hexadecimal digits, most significant first; higher digits are dropped. */
  function Hex(n: nat, width: nat): (t: string)
    ensures |t| == width
  {
    if width == 0 then "" else Hex(n / 16, width - 1) + [Digit(n % 16)]
  }

  function HexValue(t: string): nat {
    if t == "" then 0 else 16 * HexValue(t[..|t| - 1]) + DigitValue(t[|t| - 1])
  }

  function Pow16(width: nat): (p: nat)
    ensures p > 0
  {
    if width == 0 then 1 else 16 * Pow16(width - 1)
  }

  lemma {:induction false} HexRoundTrip(n: nat, width: nat)
    requires n < Pow16(width)
    ensures HexValue(Hex(n, width)) == n
  {
    if width > 0 {
      HexRoundTrip(n / 16, width - 1);
      DigitRoundTrip(n % 16);
      var t := Hex(n, width);
      assert t[..|t| - 1] == Hex(n / 16, width - 1);
      assert t[|t| - 1] == Digit(n % 16);
    }
  }

  lemma {:induction false} HexPlain(n: nat, width: nat, i: nat)
    requires i < width
    ensures HexDigit(Hex(n, width)[i])
  {
    if i < width - 1 {
      HexPlain(n / 16, width - 1, i);
    }
  }

  /** %d for a non-negative int. */
  function Decimal(n: nat): (t: string)
    ensures t != ""
  {
    (if n < 10 then "" else Decimal(n / 10)) + [Digit(n % 10)]
  }

  function DecimalValue(t: string): nat {
    if t == "" then 0 else 10 * DecimalValue(t[..|t| - 1]) + DigitValue(t[|t| - 1])
  }

  lemma DecimalValueStep(t: string, c: char)
    ensures DecimalValue(t + [c]) == 10 * DecimalValue(t) + DigitValue(c)
  {
    assert (t + [c])[..|t|] == t;
  }

  lemma {:induction false} DecimalRoundTrip(n: nat)
    ensures DecimalValue(Decimal(n)) == n
  {
    var head := if n < 10 then "" else Decimal(n / 10);
    if n >= 10 {
      DecimalRoundTrip(n / 10);
    }
    DecimalValueStep(head, Digit(n % 10));
  }

  lemma {:induction false} DecimalPlain(n: nat, i: nat)
    requires i < |Decimal(n)|
    ensures '0' <= Decimal(n)[i] <= '9'
  {
    if i < |Decimal(n)| - 1 {
      DecimalPlain(n / 10, i);
    }
  }

  /** No leading zero: with DecimalRoundTrip, the one decimal numeral of n. */
  lemma {:induction false} DecimalLeads(n: nat)
    ensures Decimal(n)[0] == '0' <==> n == 0
    ensures n < 10 <==> |Decimal(n)| == 1
  {
    if n >= 10 {
      DecimalLeads(n / 10);
    }
  }

  /** A 64-bit two's complement value. */
  function Wrap64(n: int): (r: int)
    ensures -0x8000_0000_0000_0000 <= r < 0x8000_0000_0000_0000
    ensures -0x8000_0000_0000_0000 <= n < 0x8000_0000_0000_0000 ==> r == n
    ensures (n - r) % 0x1_0000_0000_0000_0000 == 0
  {
    var m := n % 0x1_0000_0000_0000_0000;
    if m < 0x8000_0000_0000_0000 then m else m - 0x1_0000_0000_0000_0000
  }
}
