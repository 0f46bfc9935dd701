/** Decimal numerals: how the source prints 64-bit numbers and reads them back. */
module Decimal {
  import opened Base

  predicate IsDigit(c: u8) {
    48 <= c <= 57
  }

  predicate AllDigits(s: Bytes) {
    forall i :: 0 <= i < |s| ==> IsDigit(s[i])
  }

  /** A numeral without superfluous leading zeros. */
  predicate Canonical(s: Bytes) {
    s != [] && AllDigits(s) && (|s| > 1 ==> s[0] != 48)
  }

  function NumeralValue(s: Bytes): nat
    requires AllDigits(s)
  {
    if s == [] then 0 else 10 * NumeralValue(s[..|s| - 1]) + (s[|s| - 1] - 48)
  }

  /** `std::to_string` of a non-negative number. */
  function Digits(n: nat): (s: Bytes) {
    if n < 10 then [48 + n] else Digits(n / 10) + [48 + n % 10]
  }

  lemma {:induction false} DigitsAreCanonical(n: nat)
    ensures Canonical(Digits(n))
    ensures NumeralValue(Digits(n)) == n
    ensures n > 0 ==> Digits(n)[0] != 48
  {
    if n < 10 {
      assert Digits(n)[..0] == [];
    } else {
      DigitsAreCanonical(n / 10);
      assert Digits(n)[..|Digits(n)| - 1] == Digits(n / 10);
    }
  }

  lemma {:induction false} ValueIsPositive(s: Bytes)
    requires AllDigits(s) && s != [] && s[0] != 48
    ensures NumeralValue(s) > 0
  {
    if |s| > 1 {
      ValueIsPositive(s[..|s| - 1]);
    } else {
      assert s[..0] == [];
    }
  }

  lemma {:induction false} DigitsOfValue(s: Bytes)
    requires Canonical(s)
    ensures Digits(NumeralValue(s)) == s
  {
    var front := s[..|s| - 1];
    if front == [] {
      assert s == [s[0]];
    } else {
      assert front[0] == s[0];
      ValueIsPositive(front);
      DigitsOfValue(front);
      assert s == front + [s[|s| - 1]];
    }
  }

  /** Different numbers print differently. */
  lemma DigitsInjective(m: nat, n: nat)
    requires Digits(m) == Digits(n)
    ensures m == n
  {
    DigitsAreCanonical(m);
    DigitsAreCanonical(n);
  }

  /** The accumulation of `parse_u64` in a 64-bit register, with its overflow guard. */
  function Accumulate(s: Bytes, v: i64): Option<i64> {
    if s == [] then Some(v)
    else if !IsDigit(s[0]) then None
    else
      var w := Wrap(v * 10 + (s[0] - 48));
      if w < 0 then None else Accumulate(s[1..], w)
  }

  function Parsed(s: Bytes): Option<i64> {
    if s == [] || (|s| > 1 && s[0] == 48) then None else Accumulate(s, 0)
  }

  method ParseU64(s: Bytes) returns (r: Option<i64>)
    ensures r == Parsed(s)
  {
    if |s| == 0 {
      return None;
    }
    if |s| > 1 && s[0] == 48 {
      return None;
    }
    var v: i64 := 0;
    for i := 0 to |s|
      invariant Accumulate(s[i..], v) == Accumulate(s, 0)
    {
      assert s[i..][1..] == s[i + 1..];
      if s[i] < 48 || s[i] > 57 {
        return None;
      }
      v := Wrap(v * 10 + (s[i] - 48));
      if v < 0 {
        return None;
      }
    }
    return Some(v);
  }

  lemma {:induction false} AccumulateExact(front: Bytes, s: Bytes)
    requires AllDigits(front) && AllDigits(s)
    requires NumeralValue(front + s) < TWO_63
    ensures NumeralValue(front) < TWO_63
    ensures Accumulate(s, NumeralValue(front)) == Some(NumeralValue(front + s))
    decreases |s|
  {
    if s == [] {
      assert front + s == front;
    } else {
      var next := front + [s[0]];
      assert next[..|next| - 1] == front;
      assert front + s == next + s[1..];
      AccumulateExact(next, s[1..]);
    }
  }

  lemma {:induction false} AccumulateShape(s: Bytes, v: i64)
    requires Accumulate(s, v).Some?
    ensures AllDigits(s)
    ensures 0 <= v ==> 0 <= Accumulate(s, v).value
  {
    if s != [] {
      AccumulateShape(s[1..], Wrap(v * 10 + (s[0] - 48)));
      assert forall i :: 0 < i < |s| ==> s[i] == s[1..][i - 1];
    }
  }

  /** Only canonical numerals parse, and the parsed number is the numeral's exactly when that
      number is below 2^63: the overflow guard misses some longer numerals. */
  lemma ParsedExactly(s: Bytes)
    ensures Parsed(s).Some? ==> Canonical(s) && 0 <= Parsed(s).value
    ensures Canonical(s) ==> (Parsed(s) == Some(NumeralValue(s)) <==> NumeralValue(s) < TWO_63)
  {
    if Parsed(s).Some? {
      AccumulateShape(s, 0);
    }
    if Canonical(s) && NumeralValue(s) < TWO_63 {
      assert [] + s == s;
      AccumulateExact([], s);
    }
  }

  /** The numeral of 2^64 + 1 passes the guard and reads as 1. */
  lemma OverflowPassesTheGuard()
    ensures Parsed(Digits(TWO_64 + 1)) == Some(1)
  {
    var front := Digits(TWO_64 / 10);
    assert Digits(TWO_64 + 1) == front + [48 + 7];
    DigitsAreCanonical(TWO_64 / 10);
    assert [] + front == front;
    AccumulateExact([], front);
    AccumulateSnoc(front, 48 + 7, 0);
    assert Accumulate([48 + 7], TWO_64 / 10) == Some(1) by {
      assert Wrap(TWO_64 / 10 * 10 + 7) == 1;
      assert [48 + 7][1..] == [];
    }
  }

  lemma {:induction false} AccumulateSnoc(s: Bytes, d: u8, v: i64)
    ensures Accumulate(s + [d], v) ==
      match Accumulate(s, v) case None => None case Some(w) => Accumulate([d], w)
  {
    if s != [] {
      assert (s + [d])[1..] == s[1..] + [d];
      if IsDigit(s[0]) {
        AccumulateSnoc(s[1..], d, Wrap(v * 10 + (s[0] - 48)));
      }
    }
  }
}
