/**
 * Python's `str(n)` for an integer `n` (what `format` and f-strings print for an `int`),
 * together with the parser that reads such text back.
 */
module Decimal {

  /** The digit character for `d` in 0..9. */
  function DigitChar(d: int): (c: char)
    requires 0 <= d < 10
    ensures '0' <= c <= '9'
    ensures c as int - '0' as int == d
  {
    (d + '0' as int) as char
  }

  /** Every character is one of `0` to `9`. */
  predicate IsDigits(s: string)
  {
    forall i :: 0 <= i < |s| ==> '0' <= s[i] <= '9'
  }

  /** Text of the decimal numeral `str(n)` for a natural `n`, most significant digit first. */
  function NatStr(n: nat): (r: string)
    ensures |r| > 0 && IsDigits(r)
    ensures |r| > 1 ==> r[0] != '0'
  {
    if n < 10 then [DigitChar(n)] else NatStr(n / 10) + [DigitChar(n % 10)]
  }

  /** Text of `str(i)` for any integer: a minus sign before the magnitude when `i < 0`. */
  function IntStr(i: int): (r: string)
    ensures |r| > 0
    ensures i < 0 <==> r[0] == '-'
    ensures i >= 0 ==> IsDigits(r)
    ensures i < 0 ==> IsDigits(r[1..])
    ensures i >= 0 && |r| > 1 ==> r[0] != '0'
    ensures i < 0 ==> |r| > 1 && r[1] != '0'
  {
    if i < 0 then "-" + NatStr(-i) else NatStr(i)
  }

  /** The value of a digit string (the empty string reads as 0). */
  function ParseNat(s: string): nat
    requires IsDigits(s)
  {
    if s == [] then 0 else ParseNat(s[..|s| - 1]) * 10 + (s[|s| - 1] as int - '0' as int)
  }

  /** Whether `s` is what `str` prints for some integer: digits, optionally preceded by `-`. */
  predicate IsIntText(s: string)
  {
    (|s| > 0 && IsDigits(s)) || (|s| > 1 && s[0] == '-' && IsDigits(s[1..]))
  }

  /** The value of an integer numeral. */
  function ParseInt(s: string): int
    requires IsIntText(s)
  {
    if s[0] == '-' then 0 - ParseNat(s[1..]) else ParseNat(s)
  }

  /** Reading back a natural numeral gives the number that was printed. */
  lemma {:induction false} ParseNatStr(n: nat)
    ensures ParseNat(NatStr(n)) == n
  {
    if n >= 10 {
      var s := NatStr(n);
      assert s[..|s| - 1] == NatStr(n / 10);
      ParseNatStr(n / 10);
    }
  }

  /** Reading back an integer numeral gives the number that was printed. */
  lemma IntStrRoundTrip(i: int)
    ensures IsIntText(IntStr(i))
    ensures ParseInt(IntStr(i)) == i
  {
    if i < 0 {
      assert IntStr(i)[1..] == NatStr(-i);
      ParseNatStr(-i);
    } else {
      ParseNatStr(i);
    }
  }

  /** A numeral never contains the letter `c` when `c` is neither a digit nor `-`. */
  lemma IntStrAvoids(i: int, c: char)
    requires c != '-' && !('0' <= c <= '9')
    ensures c !in IntStr(i)
  {
    var s := IntStr(i);
    forall k | 0 <= k < |s|
      ensures s[k] != c
    {
      if i < 0 && k > 0 {
        assert s[k] == s[1..][k - 1];
      }
    }
  }
}
