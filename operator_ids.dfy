/**
  The string key under which the stage summary merges operator statistics:
  the pipeline id and the operator id written in decimal, joined by a dot, as
  Java's string concatenation of two `int`s produces it.

  The main fact is that the key determines the pair: two operators share a key
  exactly when they share both the pipeline id and the operator id.
 */
module OperatorIds {

  predicate IsDigit(c: char) {
    '0' <= c <= '9'
  }

  function DigitChar(d: nat): (c: char)
    requires d < 10
    ensures IsDigit(c) && c as int - '0' as int == d
  {
    ('0' as int + d) as char
  }

  /** The decimal digits of `n`, most significant first, without leading zeros. */
  function Digits(n: nat): (s: string)
    ensures |s| > 0
    ensures forall i :: 0 <= i < |s| ==> IsDigit(s[i])
  {
    if n < 10 then [DigitChar(n)] else Digits(n / 10) + [DigitChar(n % 10)]
  }

  /** The value of a string of decimal digits. */
  function DigitsValue(s: string): nat
    requires forall i :: 0 <= i < |s| ==> IsDigit(s[i])
  {
    if s == [] then 0
    else
      assert IsDigit(s[|s| - 1]);
      DigitsValue(s[..|s| - 1]) * 10 + (s[|s| - 1] as int - '0' as int)
  }

  lemma {:induction false} DigitsValueOfDigits(n: nat)
    ensures DigitsValue(Digits(n)) == n
  {
    if n >= 10 {
      var s := Digits(n);
      assert s[..|s| - 1] == Digits(n / 10);
      DigitsValueOfDigits(n / 10);
    }
  }

  /** Java's `Integer.toString`: an optional minus sign, then the digits. */
  function DecimalString(n: int): (s: string)
    ensures '.' !in s
    ensures |s| > 0 && (s[0] == '-' <==> n < 0)
  {
    if n < 0 then "-" + Digits(-n) else Digits(n)
  }

  lemma DecimalStringInjective(a: int, b: int)
    requires DecimalString(a) == DecimalString(b)
    ensures a == b
  {
    var s := DecimalString(a);
    if a < 0 && b < 0 {
      assert Digits(-a) == s[1..] == Digits(-b);
      DigitsValueOfDigits(-a);
      DigitsValueOfDigits(-b);
    } else if a >= 0 && b >= 0 {
      DigitsValueOfDigits(a);
      DigitsValueOfDigits(b);
    }
  }

  /** The key of an operator within a stage: `pipelineId + "." + operatorId`. */
  function OperatorId(pipelineId: int, operatorId: int): string {
    DecimalString(pipelineId) + "." + DecimalString(operatorId)
  }

  /** Cutting a key at its first dot gives back the two ids as written. */
  lemma OperatorIdSplitsAtDot(pipelineId: int, operatorId: int)
    ensures '.' in OperatorId(pipelineId, operatorId)
    ensures OperatorId(pipelineId, operatorId)[..IndexOfDot(OperatorId(pipelineId, operatorId))] == DecimalString(pipelineId)
    ensures OperatorId(pipelineId, operatorId)[IndexOfDot(OperatorId(pipelineId, operatorId)) + 1..] == DecimalString(operatorId)
  {
    IndexOfDotAfter(DecimalString(pipelineId), DecimalString(operatorId));
  }

  /** The position of the first dot in `s`. */
  function IndexOfDot(s: string): (n: nat)
    requires '.' in s
    ensures n < |s| && s[n] == '.' && '.' !in s[..n]
  {
    if s[0] == '.' then 0 else 1 + IndexOfDot(s[1..])
  }

  lemma {:induction false} IndexOfDotAfter(a: string, b: string)
    requires '.' !in a
    ensures IndexOfDot(a + "." + b) == |a|
  {
    if a != [] {
      assert (a + "." + b)[1..] == a[1..] + "." + b;
      IndexOfDotAfter(a[1..], b);
    }
  }

  /** Joining two dot-free strings with a dot can be undone. */
  lemma {:induction false} JoinedWithDotInjective(a: string, b: string, c: string, d: string)
    requires '.' !in a && '.' !in c
    requires a + "." + b == c + "." + d
    ensures a == c && b == d
  {
    var s := a + "." + b;
    IndexOfDotAfter(a, b);
    IndexOfDotAfter(c, d);
    assert a == s[..|a|] == c;
    assert b == s[|a| + 1..] == d;
  }

  lemma OperatorIdInjective(p1: int, o1: int, p2: int, o2: int)
    ensures OperatorId(p1, o1) == OperatorId(p2, o2) <==> p1 == p2 && o1 == o2
  {
    if OperatorId(p1, o1) == OperatorId(p2, o2) {
      JoinedWithDotInjective(DecimalString(p1), DecimalString(o1), DecimalString(p2), DecimalString(o2));
      DecimalStringInjective(p1, p2);
      DecimalStringInjective(o1, o2);
    }
  }
}
