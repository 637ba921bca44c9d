/** Small shared vocabulary: bytes, optional values, and Python's `str()` of an integer. */
module Common {

  /** One octet, as held by Python `bytes` and by a numpy uint8 array. */
  newtype byte = x: int | 0 <= x < 256

  datatype Option<+T> = None | Some(value: T)

  function DigitChar(d: nat): (c: char)
    requires d < 10
  {
    ('0' as int + d) as char
  }

  predicate IsDigit(c: char) {
    '0' <= c <= '9'
  }

  /** The decimal digits of `n`, most significant first, without leading zeros. */
  function NatText(n: nat): (s: string)
    ensures |s| >= 1
    ensures forall i :: 0 <= i < |s| ==> IsDigit(s[i])
    decreases n
  {
    if n < 10 then [DigitChar(n)] else NatText(n / 10) + [DigitChar(n % 10)]
  }

  /** Python's `str(i)` for an `int`: a minus sign for negative values, then the digits. */
  function DecimalText(i: int): (s: string)
    ensures |s| >= 1
  {
    if i < 0 then "-" + NatText(-i) else NatText(i)
  }

  function DigitValue(c: char): nat
    requires IsDigit(c)
  {
    c as int - '0' as int
  }

  /** Reads a run of decimal digits back as a number. */
  function ParseDigits(s: string): nat
    requires forall i :: 0 <= i < |s| ==> IsDigit(s[i])
    decreases |s|
  {
    if |s| == 0 then 0 else ParseDigits(s[..|s| - 1]) * 10 + DigitValue(s[|s| - 1])
  }

  lemma {:induction false} ParseNatText(n: nat)
    ensures ParseDigits(NatText(n)) == n
    decreases n
  {
    if n >= 10 {
      var s := NatText(n);
      assert s[..|s| - 1] == NatText(n / 10);
      ParseNatText(n / 10);
    }
  }

  /** The first character of `str(i)` is a minus sign exactly when `i` is negative. */
  lemma DecimalTextSign(i: int)
    ensures DecimalText(i)[0] == '-' <==> i < 0
  {
    if i >= 0 {
      assert IsDigit(NatText(i)[0]);
    }
  }

  /** Distinct integers have distinct decimal renderings. */
  lemma DecimalTextInjective(i: int, j: int)
    requires DecimalText(i) == DecimalText(j)
    ensures i == j
  {
    DecimalTextSign(i);
    DecimalTextSign(j);
    if i < 0 {
      assert NatText(-i) == DecimalText(i)[1..];
      ParseNatText(-i);
      ParseNatText(-j);
    } else {
      ParseNatText(i);
      ParseNatText(j);
    }
  }
}
