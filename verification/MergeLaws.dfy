/** What the round-robin interleaving means, and when merging meets its promise about errors. */
module MergeLaws {
  import opened RequestBalances
  import opened Events
  import opened Generators
  import opened Merges

  /** The values of source `i` among the events, in order. */
  function Projection<T>(events: seq<Event<Tagged<T>>>, i: nat): seq<T> {
    if events == [] then [] else
      match events[0]
      case Next(Tagged(source, value)) =>
        (if source == i then [value] else []) + Projection(events[1..], i)
      case End(_) => Projection(events[1..], i)
  }

  predicate NoErrors<T>(scripts: seq<Script<T>>) {
    forall j :: 0 <= j < |scripts| ==> scripts[j].end.Done?
  }

  /** How many values of source `j` the turns before this one have taken. */
  function Taken<T>(scripts: seq<Script<T>>, round: nat, turn: nat, j: nat): (n: nat)
    requires j < |scripts|
    ensures n <= |scripts[j].values|
  {
    var n := Consumed(scripts, round, turn, j);
    if n > |scripts[j].values| then |scripts[j].values| else n
  }

  lemma {:induction false} ProjectionMonotone<T>(shorter: seq<Event<Tagged<T>>>, longer: seq<Event<Tagged<T>>>, i: nat)
    requires shorter <= longer
    ensures Projection(shorter, i) <= Projection(longer, i)
  {
    if shorter != [] {
      ProjectionMonotone(shorter[1..], longer[1..], i);
    }
  }

  /** What one turn, or the turn of a round, takes from source `j`. */
  lemma {:induction false} TakenTurn<T>(scripts: seq<Script<T>>, round: nat, turn: nat, j: nat)
    requires turn <= |scripts| && j < |scripts|
    ensures turn == |scripts| ==> Taken(scripts, round + 1, 0, j) == Taken(scripts, round, turn, j)
    ensures turn < |scripts| ==>
              Taken(scripts, round, turn + 1, j) - Taken(scripts, round, turn, j)
              == if turn == j && round < |scripts[j].values| then 1 else 0
    ensures turn == j && round < |scripts[j].values| ==> Taken(scripts, round, turn, j) == round
    ensures round > Longest(scripts, |scripts|) ==> Taken(scripts, round, turn, j) == |scripts[j].values|
  {
  }

  lemma {:induction false} ProjectionCons<T>(source: nat, value: T, rest: seq<Event<Tagged<T>>>, i: nat)
    ensures Projection([Next(Tagged(source, value))] + rest, i)
         == (if source == i then [value] else []) + Projection(rest, i)
  {
    assert ([Next(Tagged(source, value))] + rest)[1..] == rest;
  }

  /** From any turn on, the values of each source come in order, none twice; without errors none
      is lost. */
  lemma {:induction false} ProjectionFrom<T>(scripts: seq<Script<T>>, round: nat, turn: nat, i: nat)
    requires turn <= |scripts| && i < |scripts|
    ensures InOrderFrom(scripts, i, Taken(scripts, round, turn, i), Projection(Interleave(scripts, round, turn), i))
    decreases Longest(scripts, |scripts|) + 1 - round, |scripts| - turn
  {
    TakenTurn(scripts, round, turn, i);
    if round > Longest(scripts, |scripts|) {
    } else if turn == |scripts| {
      ProjectionFrom(scripts, round + 1, 0, i);
    } else {
      var values, end := scripts[turn].values, scripts[turn].end;
      if round < |values| {
        ProjectionFrom(scripts, round, turn + 1, i);
        ProjectionCons(turn, values[round], Interleave(scripts, round, turn + 1), i);
        assert turn == i ==> values[round..] == [values[round]] + values[round + 1..];
      } else if !(round == |values| && end.Error?) {
        ProjectionFrom(scripts, round, turn + 1, i);
      }
    }
  }

  /** The source's values from `taken` on, or if some source fails the first of them. */
  ghost predicate InOrderFrom<T>(scripts: seq<Script<T>>, i: nat, taken: nat, projection: seq<T>)
    requires i < |scripts| && taken <= |scripts[i].values|
  {
    var rest := scripts[i].values[taken..];
    projection <= rest && (NoErrors(scripts) ==> projection == rest)
  }

  /** Whatever a merge delivers, each source's share is an in-order prefix of the source; a whole
      merge without errors loses and duplicates nothing. */
  lemma {:induction false} SharesAreInOrder<T>(scripts: seq<Script<T>>, delivered: seq<Event<Tagged<T>>>, i: nat)
    requires i < |scripts| && delivered <= RoundRobin(scripts)
    ensures Projection(delivered, i) <= scripts[i].values
    ensures NoErrors(scripts) && delivered == RoundRobin(scripts) ==> Projection(delivered, i) == scripts[i].values
  {
    ProjectionFrom(scripts, 0, 0, i);
    ProjectionMonotone(delivered, RoundRobin(scripts), i);
  }

  /** At any time every source has had as many turns as any other, up to one, unless it is exhausted. */
  lemma {:induction false} FairFrom<T>(scripts: seq<Script<T>>, round: nat, turn: nat,
                                       delivered: seq<Event<Tagged<T>>>, i: nat, j: nat)
    requires turn <= |scripts| && i < |scripts| && j < |scripts|
    requires delivered <= Interleave(scripts, round, turn)
    ensures var mine := Taken(scripts, round, turn, i) + |Projection(delivered, i)|;
            var yours := Taken(scripts, round, turn, j) + |Projection(delivered, j)|;
            mine <= yours + 1 || yours >= |scripts[j].values|
    decreases Longest(scripts, |scripts|) + 1 - round, |scripts| - turn
  {
    TakenTurn(scripts, round, turn, i);
    TakenTurn(scripts, round, turn, j);
    if delivered == [] || round > Longest(scripts, |scripts|) {
      NoneEnded(scripts, round, turn, delivered, i, j);
    } else if turn == |scripts| {
      FairFrom(scripts, round + 1, 0, delivered, i, j);
    } else {
      var values, end := scripts[turn].values, scripts[turn].end;
      if round < |values| {
        var value, rest := values[round], delivered[1..];
        assert delivered == [Next(Tagged(turn, value))] + rest;
        FairFrom(scripts, round, turn + 1, rest, i, j);
        ProjectionCons(turn, value, rest, i);
        ProjectionCons(turn, value, rest, j);
      } else if !(round == |values| && end.Error?) {
        FairFrom(scripts, round, turn + 1, delivered, i, j);
      } else {
        NoneEnded(scripts, round, turn, delivered, i, j);
      }
    }
  }

  /** Before any value of this turn's, or with nothing but an end marker to come. */
  lemma {:induction false} NoneEnded<T>(scripts: seq<Script<T>>, round: nat, turn: nat, delivered: seq<Event<Tagged<T>>>, i: nat, j: nat)
    requires turn <= |scripts| && i < |scripts| && j < |scripts|
    requires delivered == [] || (|delivered| == 1 && delivered[0].End?)
    ensures Projection(delivered, i) == Projection(delivered, j) == []
    ensures || Taken(scripts, round, turn, i) <= Taken(scripts, round, turn, j) + 1
            || Taken(scripts, round, turn, j) >= |scripts[j].values|
  {
  }

  lemma {:induction false} Fair<T>(scripts: seq<Script<T>>, delivered: seq<Event<Tagged<T>>>, i: nat, j: nat)
    requires i < |scripts| && j < |scripts| && delivered <= RoundRobin(scripts)
    ensures |Projection(delivered, i)| <= |Projection(delivered, j)| + 1
         || Projection(delivered, j) == scripts[j].values
  {
    FairFrom(scripts, 0, 0, delivered, i, j);
    SharesAreInOrder(scripts, delivered, j);
  }

  // ----- the order, exactly -----

  /** How many values of source `j` come before the value number `r` of source `i`, or its end: those of
      the rounds before, and of this round if `j` comes first in it. */
  function TurnsBefore<T>(scripts: seq<Script<T>>, i: nat, r: nat, j: nat): nat
    requires j < |scripts|
  {
    var turns := if j < i then r + 1 else r;
    if turns < |scripts[j].values| then turns else |scripts[j].values|
  }

  ghost predicate Precede<T>(scripts: seq<Script<T>>, counts: seq<nat>, i: nat, r: nat)
    requires |counts| == |scripts|
  {
    forall j :: 0 <= j < |scripts| ==> counts[j] == TurnsBefore(scripts, i, r, j)
  }

  /** The event is the one whose turn it is after so many values of each source: the next value of a source;
      its error, if it has no more of them; or Done, if all sources are done. */
  ghost predicate InTurn<T>(scripts: seq<Script<T>>, counts: seq<nat>, event: Event<Tagged<T>>)
    requires |counts| == |scripts|
  {
    match event
    case Next(Tagged(i, value)) =>
      && i < |scripts| && counts[i] < |scripts[i].values| && value == scripts[i].values[counts[i]]
      && Precede(scripts, counts, i, counts[i])
    case End(Error(code)) =>
      exists i :: 0 <= i < |scripts| && scripts[i].end == Error(code) && Precede(scripts, counts, i, |scripts[i].values|)
    case End(Done) =>
      forall j :: 0 <= j < |scripts| ==> scripts[j].end.Done? && counts[j] == |scripts[j].values|
  }

  /** The values of each source that came before the turn and among the events since. */
  function Counts<T>(scripts: seq<Script<T>>, round: nat, turn: nat, since: seq<Event<Tagged<T>>>): (counts: seq<nat>)
    ensures |counts| == |scripts|
    ensures forall j :: 0 <= j < |scripts| ==> counts[j] == Taken(scripts, round, turn, j) + |Projection(since, j)|
  {
    seq(|scripts|, j requires 0 <= j < |scripts| => Taken(scripts, round, turn, j) + |Projection(since, j)| as nat)
  }

  /** No source has failed before the turn. */
  ghost predicate NoneFailed<T>(scripts: seq<Script<T>>, round: nat, turn: nat) {
    forall j :: 0 <= j < |scripts| && Consumed(scripts, round, turn, j) > |scripts[j].values| ==> scripts[j].end.Done?
  }

  lemma {:induction false} NextRoundCounts<T>(scripts: seq<Script<T>>, round: nat, since: seq<Event<Tagged<T>>>)
    ensures Counts(scripts, round + 1, 0, since) == Counts(scripts, round, |scripts|, since)
    ensures NoneFailed(scripts, round, |scripts|) ==> NoneFailed(scripts, round + 1, 0)
  {
    forall j | 0 <= j < |scripts|
      ensures Taken(scripts, round + 1, 0, j) == Taken(scripts, round, |scripts|, j)
    {
      TakenTurn(scripts, round, |scripts|, j);
    }
  }

  /** A turn in which a value is delivered, or none. */
  lemma {:induction false} NextTurnCounts<T>(scripts: seq<Script<T>>, round: nat, turn: nat, since: seq<Event<Tagged<T>>>)
    requires turn < |scripts|
    ensures var values := scripts[turn].values;
            Counts(scripts, round, turn + 1, since)
            == if round < |values| then Counts(scripts, round, turn, [Next(Tagged(turn, values[round]))] + since)
               else Counts(scripts, round, turn, since)
    ensures NoneFailed(scripts, round, turn) && (round != |scripts[turn].values| || scripts[turn].end.Done?) ==>
              NoneFailed(scripts, round, turn + 1)
  {
    forall j | 0 <= j < |scripts|
      ensures Counts(scripts, round, turn + 1, since)[j]
              == if round < |scripts[turn].values|
                 then Counts(scripts, round, turn, [Next(Tagged(turn, scripts[turn].values[round]))] + since)[j]
                 else Counts(scripts, round, turn, since)[j]
    {
      TakenTurn(scripts, round, turn, j);
      if round < |scripts[turn].values| {
        ProjectionCons(turn, scripts[turn].values[round], since, j);
      }
    }
  }

  lemma {:induction false} AtTheTurn<T>(scripts: seq<Script<T>>, round: nat, turn: nat)
    requires turn < |scripts| && round <= |scripts[turn].values|
    ensures Precede(scripts, Counts(scripts, round, turn, []), turn, round)
    ensures Counts(scripts, round, turn, [])[turn] == round
  {
  }

  ghost predicate OrderedAt<T>(scripts: seq<Script<T>>, round: nat, turn: nat, k: nat)
    requires turn <= |scripts|
  {
    var events := Interleave(scripts, round, turn);
    k < |events| ==>
      InTurn(scripts, Counts(scripts, round, turn, events[..k]), events[k]) && (events[k].End? <==> k == |events| - 1)
  }

  lemma {:induction false} OrderFrom<T>(scripts: seq<Script<T>>, round: nat, turn: nat, k: nat)
    requires turn <= |scripts| && NoneFailed(scripts, round, turn)
    ensures OrderedAt(scripts, round, turn, k)
    decreases Longest(scripts, |scripts|) + 1 - round, |scripts| - turn
  {
    if round > Longest(scripts, |scripts|) {
      OrderAtEnd(scripts, round, turn);
    } else if turn == |scripts| {
      NextRoundCounts(scripts, round, []);
      OrderFrom(scripts, round + 1, 0, k);
      OrderNextRound(scripts, round, k);
    } else {
      NextTurnCounts(scripts, round, turn, []);
      if round == |scripts[turn].values| && scripts[turn].end.Error? {
        AtTheTurn(scripts, round, turn);
      } else if round < |scripts[turn].values| {
        if k > 0 {
          OrderFrom(scripts, round, turn + 1, k - 1);
        }
        OrderValue(scripts, round, turn, k);
      } else {
        OrderFrom(scripts, round, turn + 1, k);
        OrderSkip(scripts, round, turn, k);
      }
    }
  }

  lemma {:induction false} OrderAtEnd<T>(scripts: seq<Script<T>>, round: nat, turn: nat)
    requires turn <= |scripts| && NoneFailed(scripts, round, turn) && round > Longest(scripts, |scripts|)
    ensures InTurn(scripts, Counts(scripts, round, turn, []), End(Done))
  {
    forall j | 0 <= j < |scripts|
      ensures Taken(scripts, round, turn, j) == |scripts[j].values| && scripts[j].end.Done?
    {
      TakenTurn(scripts, round, turn, j);
    }
  }

  lemma {:induction false} OrderNextRound<T>(scripts: seq<Script<T>>, round: nat, k: nat)
    requires round <= Longest(scripts, |scripts|) && OrderedAt(scripts, round + 1, 0, k)
    ensures OrderedAt(scripts, round, |scripts|, k)
  {
    var events := Interleave(scripts, round + 1, 0);
    if k < |events| {
      NextRoundCounts(scripts, round, events[..k]);
    }
  }

  lemma {:induction false} OrderValue<T>(scripts: seq<Script<T>>, round: nat, turn: nat, k: nat)
    requires round <= Longest(scripts, |scripts|) && turn < |scripts| && round < |scripts[turn].values|
    requires k > 0 ==> OrderedAt(scripts, round, turn + 1, k - 1)
    ensures OrderedAt(scripts, round, turn, k)
  {
    var events, rest := Interleave(scripts, round, turn), Interleave(scripts, round, turn + 1);
    if k == 0 {
      AtTheTurn(scripts, round, turn);
      assert rest != [];
    } else if k < |events| {
      assert events[..k] == [events[0]] + rest[..k - 1];
      NextTurnCounts(scripts, round, turn, rest[..k - 1]);
    }
  }

  lemma {:induction false} OrderSkip<T>(scripts: seq<Script<T>>, round: nat, turn: nat, k: nat)
    requires round <= Longest(scripts, |scripts|) && turn < |scripts| && round >= |scripts[turn].values|
    requires !(round == |scripts[turn].values| && scripts[turn].end.Error?)
    requires OrderedAt(scripts, round, turn + 1, k)
    ensures OrderedAt(scripts, round, turn, k)
  {
    var events := Interleave(scripts, round, turn + 1);
    if k < |events| {
      NextTurnCounts(scripts, round, turn, events[..k]);
    }
  }

  /** Round-robin, exactly: whatever comes at any place is what has its turn after the values that came
      before, and the end marker comes last and only last. */
  lemma {:induction false} RoundRobinIsInOrder<T>(scripts: seq<Script<T>>, k: nat)
    requires k < |RoundRobin(scripts)|
    ensures var events := RoundRobin(scripts);
            && InTurn(scripts, Counts(scripts, 0, 0, events[..k]), events[k])
            && (events[k].End? <==> k == |events| - 1)
            && (forall j :: 0 <= j < |scripts| ==> Counts(scripts, 0, 0, events[..k])[j] == |Projection(events[..k], j)|)
  {
    OrderFrom(scripts, 0, 0, k);
  }

  /** The error of source `i` comes up before that of source `j`. */
  predicate Before<T>(scripts: seq<Script<T>>, i: nat, j: nat)
    requires i < |scripts| && j < |scripts|
  {
    |scripts[i].values| < |scripts[j].values| || (|scripts[i].values| == |scripts[j].values| && i <= j)
  }

  /** The error of source `i` is the first to come up in the interleaving. */
  predicate FirstError<T>(scripts: seq<Script<T>>, i: nat) {
    && i < |scripts| && scripts[i].end.Error?
    && forall j :: 0 <= j < |scripts| && scripts[j].end.Error? ==> Before(scripts, i, j)
  }

  /** Source `j` ends exactly where the error of source `i` finds it: it has produced its end, which
      waits for its turn. */
  predicate Beside<T>(scripts: seq<Script<T>>, i: nat, j: nat)
    requires i < |scripts| && j < |scripts|
  {
    j != i && |scripts[j].values| == |scripts[i].values| + if j < i then 1 else 0
  }

  /** That an error leads to the cancellation of the other sources fails exactly for the sources one
      of which ends beside the first error: cancelling it trips the check against access to a
      subscription after its stream ended. */
  lemma {:induction false} CancelClashesExactly<T>(scripts: seq<Script<T>>)
    ensures CancelAborts(scripts) <==>
              exists i, j :: 0 <= i < |scripts| && 0 <= j < |scripts| && FirstError(scripts, i) && Beside(scripts, i, j)
  {
    if i :| 0 <= i < |scripts| && FirstError(scripts, i) {
      ClashAtFirstError(scripts, 0, 0, i);
      forall k | 0 <= k < |scripts| && FirstError(scripts, k)
        ensures k == i
      {
        assert Before(scripts, i, k) && Before(scripts, k, i);
      }
    } else {
      NoErrorNoClash(scripts, 0, 0);
    }
  }

  lemma {:induction false} ClashAtFirstError<T>(scripts: seq<Script<T>>, round: nat, turn: nat, i: nat)
    requires turn <= |scripts| && FirstError(scripts, i)
    requires round < |scripts[i].values| || (round == |scripts[i].values| && turn <= i)
    ensures Clashes(scripts, round, turn) <==> exists j :: 0 <= j < |scripts| && Beside(scripts, i, j)
    decreases Longest(scripts, |scripts|) + 1 - round, |scripts| - turn
  {
    if turn == |scripts| {
      ClashAtFirstError(scripts, round + 1, 0, i);
    } else if round == |scripts[turn].values| && scripts[turn].end.Error? {
      assert Before(scripts, i, turn);
      assert turn == i;
      assert forall j :: 0 <= j < |scripts| ==>
        (Beside(scripts, i, j) <==> j != turn && |scripts[j].values| == if j < turn then round + 1 else round);
    } else {
      ClashAtFirstError(scripts, round, turn + 1, i);
    }
  }

  lemma {:induction false} NoErrorNoClash<T>(scripts: seq<Script<T>>, round: nat, turn: nat)
    requires turn <= |scripts| && forall i :: 0 <= i < |scripts| ==> !FirstError(scripts, i)
    ensures !Clashes(scripts, round, turn)
    decreases Longest(scripts, |scripts|) + 1 - round, |scripts| - turn
  {
    if round <= Longest(scripts, |scripts|) {
      if turn == |scripts| {
        NoErrorNoClash(scripts, round + 1, 0);
      } else {
        SomeErrorIsFirst(scripts, |scripts|);
        NoErrorNoClash(scripts, round, turn + 1);
      }
    }
  }

  /** Among the first `n` sources, some error comes up first if there is any. */
  lemma {:induction false} SomeErrorIsFirst<T>(scripts: seq<Script<T>>, n: nat)
    requires n <= |scripts|
    ensures (forall j :: 0 <= j < n ==> scripts[j].end.Done?)
         || exists i :: 0 <= i < n && FirstError(scripts[..n], i) && (n == |scripts| ==> FirstError(scripts, i))
  {
    if n > 0 {
      SomeErrorIsFirst(scripts, n - 1);
      var before, all := scripts[..n - 1], scripts[..n];
      assert n == |scripts| ==> all == scripts;
      if scripts[n - 1].end.Error? && (forall j :: 0 <= j < n - 1 ==> scripts[j].end.Done?) {
        assert FirstError(all, n - 1);
      } else if i :| 0 <= i < n - 1 && FirstError(before, i) {
        assert forall j :: 0 <= j < n - 1 && all[j].end.Error? ==> before[j] == all[j] && Before(before, i, j);
        if scripts[n - 1].end.Error? && !Before(all, i, n - 1) {
          assert FirstError(all, n - 1);
        } else {
          assert FirstError(all, i);
        }
      }
    }
  }

  /** The smallest such input: a publisher that fails at once, merged with an empty one. */
  lemma CancelClashExample()
    ensures CancelAborts<int>([Script([], Error(1)), Script([], Done)])
  {
    var scripts: seq<Script<int>> := [Script([], Error(1)), Script([], Done)];
    assert FirstError(scripts, 0) && Beside(scripts, 0, 1);
    CancelClashesExactly(scripts);
  }
}
