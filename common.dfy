/** Small shared pieces of the batch harness model: an Option type, the bounded
    error-message truncation, and decimal rendering of integers (Python's str(int)). */
module Common {

  datatype Option<+T> = None | Some(value: T)

  /** Every stored or reported error text is cut to this many characters. */
  const MaxErrorMsgLength: nat := 200

  /** Python's `s[:MAX_ERROR_MSG_LENGTH]`: the longest prefix of `s` that fits the bound. */
  function Truncate(s: string): (r: string)
    ensures |r| == if |s| <= MaxErrorMsgLength then |s| else MaxErrorMsgLength
    ensures r <= s
  {
    if |s| <= MaxErrorMsgLength then s else s[..MaxErrorMsgLength]
  }

  function DigitChar(d: nat): (c: char)
    requires d < 10
    ensures '0' <= c <= '9' && DigitValue(c) == d
  {
    "0123456789"[d]
  }

  /** The value of a decimal digit character. */
  function DigitValue(c: char): int
  {
    c as int - '0' as int
  }

  predicate IsDigits(s: string)
  {
    forall i :: 0 <= i < |s| ==> '0' <= s[i] <= '9'
  }

  /** Python's `int(s)` on a string of decimal digits: the reference reading of a decimal text. */
  function DecimalValue(s: string): nat
    requires IsDigits(s)
  {
    if s == [] then 0 else 10 * DecimalValue(s[..|s| - 1]) + DigitValue(s[|s| - 1])
  }

  /** Python's `str(n)` for a non-negative integer: the canonical decimal, without leading zeros. */
  function NatToDecimal(n: nat): (r: string)
    ensures |r| >= 1 && IsDigits(r)
    ensures |r| == 1 || r[0] != '0'
  {
    if n < 10 then [DigitChar(n)] else NatToDecimal(n / 10) + [DigitChar(n % 10)]
  }

  /** Reading back the decimal text of `n` gives `n`. */
  lemma {:induction false} NatToDecimalRoundTrip(n: nat)
    ensures DecimalValue(NatToDecimal(n)) == n
  {
    var r := NatToDecimal(n);
    if n >= 10 {
      NatToDecimalRoundTrip(n / 10);
      assert r[..|r| - 1] == NatToDecimal(n / 10);
    } else {
      assert r[..0] == [];
    }
  }

  /** Python's `str(i)` for any integer: the digits of |i|, after a minus sign when negative. */
  function IntToDecimal(i: int): (r: string)
    ensures i >= 0 ==> |r| >= 1 && (|r| == 1 || r[0] != '0') && IsDigits(r) && DecimalValue(r) == i
    ensures i < 0 ==> |r| >= 2 && r[0] == '-' && r[1] != '0' && IsDigits(r[1..]) && DecimalValue(r[1..]) == -i
  {
    if i < 0 then
      NatToDecimalRoundTrip(-i);
      assert ("-" + NatToDecimal(-i))[1..] == NatToDecimal(-i);
      "-" + NatToDecimal(-i)
    else
      NatToDecimalRoundTrip(i);
      NatToDecimal(i)
  }

  /** `part / whole * 100`, as a real. */
  function Percent(part: int, whole: int): (r: real)
    requires whole != 0
    ensures 0 <= part <= whole ==> 0.0 <= r <= 100.0
    ensures 0 <= part <= whole ==> (r == 100.0 <==> part == whole)
  {
    RatioBounds(part as real, whole as real);
    part as real / whole as real * 100.0
  }

  /** A ratio of a non-negative part to a larger whole lies in [0, 1] and is
      1 only for the whole itself. */
  lemma RatioBounds(a: real, b: real)
    requires b != 0.0
    ensures 0.0 <= a <= b ==> 0.0 <= a / b <= 1.0
    ensures 0.0 <= a <= b ==> (a / b == 1.0 <==> a == b)
  {
    assert a / b * b == a;
  }
}
