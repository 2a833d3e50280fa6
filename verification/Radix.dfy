/** Numbers as digit sequences, most significant first: the arithmetic under base32 and base64. */
module Radix {
  type Byte = x: int | 0 <= x < 256

  function Pow(base: nat, n: nat): nat {
    if n == 0 then 1 else base * Pow(base, n - 1)
  }

  lemma DivMod(v: nat, base: nat)
    requires base > 0
    ensures 0 <= v / base && 0 <= v % base < base && v == v / base * base + v % base
  {
  }

  function Digits(v: nat, base: nat, n: nat): (r: seq<nat>)
    requires base > 0
    ensures |r| == n && forall i :: 0 <= i < n ==> r[i] < base
    decreases n
  {
    DivMod(v, base);
    if n == 0 then [] else Digits(v / base, base, n - 1) + [v % base]
  }

  function Value(digits: seq<nat>, base: nat): nat {
    if |digits| == 0 then 0 else Value(digits[..|digits| - 1], base) * base + digits[|digits| - 1]
  }

  lemma {:induction false} ProductNonNegative(a: nat, b: nat)
    ensures a * b >= 0
  {
    if a == 0 {
    } else {
      ProductNonNegative(a - 1, b);
      assert a * b == (a - 1) * b + b;
    }
  }

  lemma NegativeFactor(a: int, base: nat)
    requires base > 0 && a * base < 0
    ensures a < 0
  {
    if a >= 0 { ProductNonNegative(a, base); }
  }

  lemma SmallerQuotient(v: nat, base: nat, bound: nat)
    requires base > 0 && v < base * bound
    ensures v / base < bound
  {
    DivMod(v, base);
    var over := v / base - bound;
    assert over * base == v / base * base - base * bound;
    NegativeFactor(over, base);
  }

  lemma Distribute(x: nat, p: nat, y: nat, base: nat)
    ensures (x * p + y) * base == x * (base * p) + y * base
  {
    assert (x * p + y) * base == x * p * base + y * base;
    assert x * p * base == x * (p * base);
  }

  /** Digits in front count for as many powers as there are digits behind them. */
  lemma {:induction false} ValueConcat(a: seq<nat>, b: seq<nat>, base: nat)
    ensures Value(a + b, base) == Value(a, base) * Pow(base, |b|) + Value(b, base)
    decreases |b|
  {
    if |b| == 0 {
      assert a + b == a;
    } else {
      var n := |b| - 1;
      assert (a + b)[..|a| + n] == a + b[..n];
      ValueConcat(a, b[..n], base);
      Distribute(Value(a, base), Pow(base, n), Value(b[..n], base), base);
    }
  }

  lemma {:induction false} ValueOfDigits(v: nat, base: nat, n: nat)
    requires base > 0 && v < Pow(base, n)
    ensures Value(Digits(v, base, n), base) == v
    decreases n
  {
    if n == 0 {
    } else {
      DivMod(v, base);
      SmallerQuotient(v, base, Pow(base, n - 1));
      ValueOfDigits(v / base, base, n - 1);
      assert Digits(v, base, n)[..n - 1] == Digits(v / base, base, n - 1);
    }
  }

  lemma SplitDigit(high: nat, low: nat, base: nat)
    requires low < base
    ensures (high * base + low) / base == high && (high * base + low) % base == low
  {
    var v := high * base + low;
    DivMod(v, base);
    var d := v / base - high;
    assert d * base == v / base * base - high * base == low - v % base;
    assert (d - 1) * base == d * base - base;
    NegativeFactor(d - 1, base);
    assert (-d - 1) * base == -(d * base) - base;
    NegativeFactor(-d - 1, base);
  }

  lemma MulBound(high: nat, bound: nat, base: nat)
    requires high + 1 <= bound
    ensures high * base + base <= base * bound
  {
    var rest := bound - high - 1;
    ProductNonNegative(rest, base);
    assert bound == rest + high + 1;
    assert (rest + high + 1) * base == rest * base + high * base + base;
  }

  lemma {:induction false} DigitsOfValue(digits: seq<nat>, base: nat)
    requires base > 0 && forall i :: 0 <= i < |digits| ==> digits[i] < base
    ensures Value(digits, base) < Pow(base, |digits|)
    ensures Digits(Value(digits, base), base, |digits|) == digits
  {
    var n := |digits|;
    if n == 0 {
    } else {
      var high, low := Value(digits[..n - 1], base), digits[n - 1];
      DigitsOfValue(digits[..n - 1], base);
      SplitDigit(high, low, base);
      assert high + 1 <= Pow(base, n - 1);
      MulBound(high, Pow(base, n - 1), base);
    }
  }
}
