/** Prime numbers, as far as the sieve needs them: a composite has a smaller prime divisor, and
    there is always another prime. */
module Primes {
  predicate Divides(d: nat, n: nat) {
    d > 0 && n % d == 0
  }

  ghost predicate IsPrime(n: nat) {
    n >= 2 && forall d: nat :: 2 <= d < n ==> !Divides(d, n)
  }

  /** The primes below `n`, in increasing order. */
  ghost function PrimesBelow(n: nat): seq<nat> {
    if n == 0 then []
    else if IsPrime(n - 1) then PrimesBelow(n - 1) + [n - 1]
    else PrimesBelow(n - 1)
  }

  lemma DividesMeans(d: nat, n: nat)
    ensures Divides(d, n) <==> d > 0 && exists k: nat :: n == d * k
  {
    if Divides(d, n) {
      assert n == d * (n / d);
    }
    if k: nat :| d > 0 && n == d * k {
      Multiple(d, k);
    }
  }

  lemma FirstPrimesAre()
    ensures PrimesBelow(12) == [2, 3, 5, 7, 11]
  {
    assert Divides(2, 4) && Divides(2, 6) && Divides(2, 8) && Divides(3, 9) && Divides(2, 10);
    assert PrimesBelow(2) == [] == PrimesBelow(1) == PrimesBelow(0);
    assert PrimesBelow(6) == [2, 3, 5] by {
      assert PrimesBelow(3) == [2];
      assert PrimesBelow(4) == [2, 3];
      assert PrimesBelow(5) == [2, 3];
    }
    assert PrimesBelow(7) == [2, 3, 5];
    assert PrimesBelow(8) == [2, 3, 5, 7];
    assert PrimesBelow(9) == [2, 3, 5, 7];
    assert PrimesBelow(10) == [2, 3, 5, 7];
    assert PrimesBelow(11) == [2, 3, 5, 7];
  }

  lemma {:induction false} PrimesBelowAreAll(n: nat, p: nat)
    ensures p in PrimesBelow(n) <==> p < n && IsPrime(p)
  {
    if n > 0 {
      PrimesBelowAreAll(n - 1, p);
    }
  }

  lemma {:induction false} PrimesBelowIncrease(n: nat, i: nat, j: nat)
    requires i < j < |PrimesBelow(n)|
    ensures PrimesBelow(n)[i] < PrimesBelow(n)[j] < n
  {
    var before := PrimesBelow(n - 1);
    PrimesBelowAreAll(n, PrimesBelow(n)[j]);
    if j < |before| {
      PrimesBelowIncrease(n - 1, i, j);
    } else {
      assert before[i] in before;
      PrimesBelowAreAll(n - 1, before[i]);
    }
  }

  lemma {:induction false} PrimesBelowGrows(n: nat, m: nat)
    requires n <= m
    ensures PrimesBelow(n) <= PrimesBelow(m)
  {
    if n < m {
      PrimesBelowGrows(n, m - 1);
    }
  }

  lemma DividesMultiple(d: nat, n: nat, k: nat)
    requires Divides(d, n)
    ensures Divides(d, n * k)
  {
    var q := n / d;
    assert n == d * q;
    Multiple(d, q * k);
    assert n * k == d * (q * k);
  }

  lemma Multiple(d: nat, q: nat)
    requires d > 0
    ensures (d * q) % d == 0
  {
    if q > 0 {
      Multiple(d, q - 1);
      assert d * q == d * (q - 1) + d;
      Shift(d * (q - 1), d);
    }
  }

  lemma Shift(n: nat, d: nat)
    requires d > 0
    ensures (n + d) % d == n % d
  {
    var q := n / d;
    assert n + d == d * (q + 1) + n % d;
    Remainder(n + d, d, q + 1, n % d);
  }

  lemma Remainder(n: nat, d: nat, q: nat, r: nat)
    requires d > 0 && r < d && n == d * q + r
    ensures n % d == r
  {
    var p := n / d;
    assert n == d * p + n % d;
    assert d * (q - p) == d * q - d * p;
    SmallMultiple(d, q - p);
  }

  lemma SmallMultiple(d: int, k: int)
    requires -d < d * k < d
    ensures k == 0
  {
    if k >= 1 {
      AtLeast(d, k);
    } else if k <= -1 {
      AtLeast(d, -k);
    }
  }

  lemma AtLeast(d: int, k: int)
    requires d > 0 && k >= 1
    ensures d * k >= d
  {
    assert d * (k - 1) >= 0;
  }

  lemma DividesTransitively(d: nat, m: nat, n: nat)
    requires Divides(d, m) && Divides(m, n)
    ensures Divides(d, n)
  {
    DividesMultiple(d, m, n / m);
    assert n == m * (n / m);
  }

  /** The smallest divisor is prime. */
  lemma PrimeDivisor(n: nat) returns (p: nat)
    requires n >= 2
    ensures IsPrime(p) && Divides(p, n) && p <= n
  {
    p := 2;
    while !Divides(p, n)
      invariant 2 <= p <= n
      invariant forall d: nat :: 2 <= d < p ==> !Divides(d, n)
      decreases n - p
    {
      assert Divides(n, n);
      p := p + 1;
    }
    forall d: nat | 2 <= d < p
      ensures !Divides(d, p)
    {
      if Divides(d, p) {
        DividesTransitively(d, p, n);
      }
    }
  }

  function Factorial(n: nat): nat {
    if n == 0 then 1 else Factorial(n - 1) * n
  }

  lemma {:induction false} FactorialDivides(d: nat, n: nat)
    requires 0 < d <= n
    ensures Divides(d, Factorial(n))
  {
    if d < n {
      FactorialDivides(d, n - 1);
      DividesMultiple(d, Factorial(n - 1), n);
    } else {
      Multiple(n, Factorial(n - 1));
      assert n * Factorial(n - 1) == Factorial(n);
    }
  }

  lemma {:induction false} FactorialIsPositive(n: nat)
    ensures Factorial(n) > 0
  {
    if n > 0 {
      FactorialIsPositive(n - 1);
      assert Factorial(n - 1) * n >= n;
    }
  }

  /** There is always another prime. */
  lemma PrimeAbove(n: nat) returns (p: nat)
    ensures IsPrime(p) && p > n
  {
    FactorialIsPositive(n);
    p := PrimeDivisor(Factorial(n) + 1);
    if p <= n {
      FactorialDivides(p, n);
      var q := Factorial(n) / p;
      assert Factorial(n) == p * q;
      Remainder(Factorial(n) + 1, p, q, 1);
    }
  }

  /** Hence for every number of primes there is a bound below which there are as many. */
  lemma {:induction false} EnoughPrimes(count: nat) returns (bound: nat)
    ensures |PrimesBelow(bound)| >= count
  {
    bound := 0;
    if count > 0 {
      var before := EnoughPrimes(count - 1);
      var p := PrimeAbove(before);
      bound := p + 1;
      PrimesBelowGrows(before, p);
      assert PrimesBelow(bound) == PrimesBelow(p) + [p];
    }
  }
}
