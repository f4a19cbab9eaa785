/** The saturating credit counter every operator relies on.

    `Size` is the source's 64-bit `size_t`. A balance that reaches KMAX means
    "infinite": adding to it or removing from it no longer has any effect. */
module RequestBalances {
  const KMAX: nat := 0xFFFF_FFFF_FFFF_FFFF

  type Size = n: nat | n <= KMAX

  /** The balance after `count` more requests. */
  function Plus(balance: Size, count: Size): Size {
    if KMAX - balance < count then KMAX else balance + count
  }

  /** The balance after `count` deliveries. The source aborts unless the balance covers them. */
  function Minus(balance: Size, count: Size): Size
    requires balance == KMAX || count <= balance
  {
    if balance == KMAX then KMAX else balance - count
  }

  /** The conversion of a C++ `int` to `size_t`: reduction modulo 2^64. */
  function FromInt(i: int): Size {
    i % (KMAX + 1)
  }

  /** The counter itself; the operators hold theirs by value, as plain `Size` fields. */
  class RequestBalance {
    var balance: Size

    constructor ()
      ensures balance == 0
    {
      balance := 0;
    }

    predicate HasRequests()
      reads this
    {
      balance > 0
    }

    method Add(count: Size)
      modifies this
      ensures balance == Plus(old(balance), count)
    {
      balance := if KMAX - balance < count then KMAX else balance + count;
    }

    method Remove(count: Size)
      requires balance == KMAX || count <= balance
      modifies this
      ensures balance == Minus(old(balance), count)
    {
      if balance == KMAX {
        return;
      }
      balance := balance - count;
    }

    method Reset()
      modifies this
      ensures balance == 0
    {
      balance := 0;
    }
  }

  /** `balance` is a sound record of `granted` requests of which `used` were delivered:
      exact, or infinite after at least KMAX requests were granted. */
  predicate Credit(balance: Size, granted: nat, used: nat) {
    || balance == granted - used
    || (balance == KMAX <= granted)
  }

  // ----- the counter against an ideal, unbounded one -----

  datatype Op = Add(count: Size) | Remove(count: Size) | Reset

  /** The unbounded demand after a history of operations, oldest first. */
  function Ideal(ops: seq<Op>): int {
    if ops == [] then 0 else
      var before := Ideal(ops[..|ops| - 1]);
      match ops[|ops| - 1]
      case Add(n) => before + n
      case Remove(n) => before - n
      case Reset => 0
  }

  /** Every Remove was covered by the ideal demand at its time. */
  ghost predicate Covered(ops: seq<Op>) {
    forall k :: 0 <= k <= |ops| ==> Ideal(ops[..k]) >= 0
  }

  /** The ideal demand reached KMAX at some time since the last Reset. */
  predicate Overflowed(ops: seq<Op>) {
    ops != [] && ops[|ops| - 1] != Reset &&
    (Ideal(ops) >= KMAX || Overflowed(ops[..|ops| - 1]))
  }

  /** What a RequestBalance holds after a history; None when its check aborts. */
  datatype Outcome = Aborted | Holds(balance: Size)

  function Step(before: Outcome, op: Op): Outcome {
    match (before, op)
    case (Aborted, _) => Aborted
    case (Holds(b), Add(n)) => Holds(Plus(b, n))
    case (Holds(b), Remove(n)) => if b == KMAX || n <= b then Holds(Minus(b, n)) else Aborted
    case (Holds(_), Reset) => Holds(0)
  }

  function Saturating(ops: seq<Op>): Outcome {
    if ops == [] then Holds(0) else Step(Saturating(ops[..|ops| - 1]), ops[|ops| - 1])
  }

  /** The counter never aborts on a covered history; it holds the ideal demand until that
      first reaches KMAX, and KMAX from then until the next Reset. */
  lemma {:induction false} CounterSimulatesIdealDemand(ops: seq<Op>)
    requires Covered(ops)
    ensures Saturating(ops).Holds?
    ensures Overflowed(ops) ==> Saturating(ops).balance == KMAX
    ensures !Overflowed(ops) ==> Saturating(ops).balance == Ideal(ops) < KMAX
  {
    if ops != [] {
      var before := ops[..|ops| - 1];
      assert forall k :: 0 <= k <= |before| ==> before[..k] == ops[..k];
      CounterSimulatesIdealDemand(before);
      assert ops[..|ops|] == ops;
      assert Ideal(ops) >= 0 && Ideal(before) >= 0;
    }
  }

  /** Positive ideal demand is never reported as "no requests". */
  lemma DemandIsNeverForgotten(ops: seq<Op>)
    requires Covered(ops) && Ideal(ops) > 0
    ensures Saturating(ops).Holds? && Saturating(ops).balance > 0
  {
    CounterSimulatesIdealDemand(ops);
  }

  /** The sum of the first `n` of a series of requests. */
  function SumTo(counts: seq<Size>, n: nat): nat
    requires n <= |counts|
  {
    if n == 0 then 0 else SumTo(counts, n - 1) + counts[n - 1]
  }

  function Sum(counts: seq<Size>): nat {
    SumTo(counts, |counts|)
  }

  lemma {:induction false} SumGrows(counts: seq<Size>, n: nat, m: nat)
    requires n <= m <= |counts|
    ensures SumTo(counts, n) <= SumTo(counts, m)
  {
    if n < m {
      SumGrows(counts, n, m - 1);
    }
  }

  /** The balance after the first `n` of a series of requests. */
  function PlusTo(balance: Size, counts: seq<Size>, n: nat): Size
    requires n <= |counts|
  {
    if n == 0 then balance else Plus(PlusTo(balance, counts, n - 1), counts[n - 1])
  }

  /** Only the sum of a series of requests matters, wherever in it saturation strikes;
      hence any two orders of the same requests leave the same balance. */
  lemma {:induction false} OnlyTheSumMatters(balance: Size, counts: seq<Size>, n: nat)
    requires n <= |counts|
    ensures PlusTo(balance, counts, n)
         == if balance + SumTo(counts, n) >= KMAX then KMAX else balance + SumTo(counts, n)
  {
    if n > 0 {
      OnlyTheSumMatters(balance, counts, n - 1);
    }
  }

  /** The conversion differs from the number by a multiple of 2^64, like any to an unsigned type in C++. */
  lemma FromIntWraps(i: int) returns (wraps: int)
    ensures FromInt(i) == i - wraps * (KMAX + 1)
  {
    wraps := i / (KMAX + 1);
    assert i == (KMAX + 1) * wraps + i % (KMAX + 1);
  }

  /** Adding the `int` -1 does not undo adding 1: it sends any balance to KMAX. */
  lemma MinusOneSaturates(balance: Size)
    ensures Plus(balance, FromInt(-1)) == KMAX
  {
  }
}
