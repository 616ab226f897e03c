/** Decimal numbers as the Go formatting and strconv packages print and read them. */
module Decimal {
  import opened Wrappers

  predicate IsDigit(c: char) { '0' <= c <= '9' }

  predicate AllDigits(s: string) { forall i :: 0 <= i < |s| ==> IsDigit(s[i]) }

  function DigitOf(d: nat): (c: char)
    requires d < 10
    ensures IsDigit(c) && ValueOf(c) == d && c == "0123456789"[d]
  {
    '0' + d as char
  }

  function ValueOf(c: char): nat
    requires IsDigit(c)
  {
    (c - '0') as int
  }

  /** The %d format. */
  function Print(n: nat): (s: string)
    ensures s != [] && AllDigits(s)
  {
    if n < 10 then [DigitOf(n)] else Print(n / 10) + [DigitOf(n % 10)]
  }

  function Value(s: string): nat
    requires AllDigits(s)
  {
    if s == [] then 0 else 10 * Value(s[..|s| - 1]) + ValueOf(s[|s| - 1])
  }

  lemma {:induction false} ValueOfPrint(n: nat)
    ensures Value(Print(n)) == n
  {
    if n < 10 {
      assert Print(n)[..0] == [];
    } else {
      ValueOfPrint(n / 10);
      assert Print(n)[..|Print(n)| - 1] == Print(n / 10);
    }
  }

  /** Printing removes leading zeros and nothing else. */
  lemma {:induction false} PrintOfValue(s: string)
    requires s != [] && AllDigits(s)
    ensures Print(Value(s)) == s <==> (|s| == 1 || s[0] != '0')
  {
    var n := |s| - 1;
    var v := Value(s);
    assert s == s[..n] + [s[n]];
    if n == 0 {
      assert s[..0] == [];
    } else {
      PrintOfValue(s[..n]);
      var w := Value(s[..n]);
      assert v == 10 * w + ValueOf(s[n]) && v / 10 == w && v % 10 == ValueOf(s[n]);
      if v < 10 {
        assert w == 0;
        ZeroPrefix(s[..n]);
      } else {
        assert Print(v) == Print(w) + [s[n]];
        if Print(v) == s {
          assert Print(w) == Print(v)[..|Print(v)| - 1] == s[..n];
        }
      }
    }
  }

  lemma {:induction false} ZeroPrefix(s: string)
    requires s != [] && AllDigits(s) && Value(s) == 0
    ensures s[0] == '0'
  {
    if |s| > 1 { ZeroPrefix(s[..|s| - 1]); }
  }

  /** ParseUint in base 10 for numbers of the given bound: digits only, leading zeros allowed. */
  function ParseUint(s: string, bound: nat): Option<nat> {
    if s != [] && AllDigits(s) && Value(s) < bound then Some(Value(s)) else None
  }

  const INT64_BOUND := 0x8000_0000_0000_0000

  /** Atoi: an optional sign and digits, within 64 bits. */
  function Atoi(s: string): Option<int> {
    if s != [] && s[0] == '-' then
      match ParseUint(s[1..], INT64_BOUND + 1)
      case None => None
      case Some(v) => Some(0 - v)
    else
      match ParseUint(if s != [] && s[0] == '+' then s[1..] else s, INT64_BOUND)
      case None => None
      case Some(v) => Some(v)
  }
}
