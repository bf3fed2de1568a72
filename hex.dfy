/** Python's `f"{n:0wX}"` on a non-negative integer: upper-case hexadecimal,
    left-padded with '0' to at least w characters. */
module Hex {
  import opened Bits

  const Digits: string := "0123456789ABCDEF"

  predicate IsHexChar(ch: char) {
    '0' <= ch <= '9' || 'A' <= ch <= 'F'
  }

  predicate IsHexString(s: string) {
    forall i :: 0 <= i < |s| ==> IsHexChar(s[i])
  }

  function HexDigit(d: int): (ch: char)
    requires 0 <= d < 16
    ensures IsHexChar(ch) && DigitValue(ch) == d
  {
    Digits[d]
  }

  /** The value of one upper-case hex digit. */
  function DigitValue(ch: char): (d: nat)
    requires IsHexChar(ch)
    ensures d < 16
  {
    if ch <= '9' then ch as int - '0' as int else ch as int - 'A' as int + 10
  }

  /** The shortest upper-case hex spelling of n ("0" for zero), as `format(n, "X")`. */
  function ToHex(n: nat): (s: string)
    ensures |s| >= 1 && IsHexString(s)
  {
    if n < 16 then [HexDigit(n)] else ToHex(n / 16) + [HexDigit(n % 16)]
  }

  /** `f"{n:0{width}X}"`. */
  function FormatHex(n: nat, width: nat): string {
    var digits := ToHex(n);
    Zeros(width - |digits|) + digits
  }

  function Zeros(k: int): (s: string)
    ensures |s| == if k < 0 then 0 else k
    ensures forall i :: 0 <= i < |s| ==> s[i] == '0'
  {
    if k <= 0 then "" else "0" + Zeros(k - 1)
  }

  /** The number a hex string denotes: the reference reading of the format. */
  function HexValue(s: string): nat
    requires IsHexString(s)
  {
    if s == [] then 0 else HexValue(s[..|s| - 1]) * 16 + DigitValue(s[|s| - 1])
  }

  function Pow16(k: nat): nat {
    Pow2(4 * k)
  }

  lemma {:induction false} ToHexRoundTrip(n: nat)
    ensures HexValue(ToHex(n)) == n
  {
    if n >= 16 {
      ToHexRoundTrip(n / 16);
      var s := ToHex(n);
      assert s[..|s| - 1] == ToHex(n / 16);
    }
  }

  /** The shortest spelling fits in k characters exactly when n < 16^k. */
  lemma {:induction false} ToHexLength(n: nat, k: nat)
    requires n < Pow16(k)
    ensures |ToHex(n)| <= k || (n == 0 && k == 0)
  {
    if n >= 16 {
      if k <= 1 {
        Pow2Monotone(4 * k, 4);
        Pow2Values();
        assert false;
      }
      assert n / 16 < Pow16(k - 1) by {
        Pow2Add(4, 4 * (k - 1));
        Pow2Values();
        assert Pow16(k) == 16 * Pow16(k - 1);
      }
      ToHexLength(n / 16, k - 1);
    }
  }

  lemma {:induction false} LeadingZeros(k: nat, s: string)
    requires IsHexString(s)
    ensures IsHexString(Zeros(k) + s) && HexValue(Zeros(k) + s) == HexValue(s)
  {
    if k > 0 {
      var t := Zeros(k - 1) + s;
      assert Zeros(k) + s == "0" + t;
      LeadingZeros(k - 1, s);
      ZeroPrefix(t);
    } else {
      assert Zeros(k) + s == s;
    }
  }

  /** A leading '0' does not change the value. */
  lemma {:induction false} ZeroPrefix(s: string)
    requires IsHexString(s)
    ensures IsHexString("0" + s) && HexValue("0" + s) == HexValue(s)
  {
    if s != [] {
      var t := "0" + s;
      assert t[..|t| - 1] == "0" + s[..|s| - 1];
      ZeroPrefix(s[..|s| - 1]);
    }
  }

  /** `f"{n:0{width}X}"` for n < 16^width is exactly `width` upper-case hex digits
      that read back as n. */
  lemma FormatHexExact(n: nat, width: nat)
    requires width >= 1 && n < Pow16(width)
    ensures |FormatHex(n, width)| == width
    ensures IsHexString(FormatHex(n, width))
    ensures HexValue(FormatHex(n, width)) == n
  {
    ToHexLength(n, width);
    ToHexRoundTrip(n);
    LeadingZeros(width - |ToHex(n)|, ToHex(n));
  }
}
