/** Merge: a fair, round-robin interleaving of several streams. Each upstream is always asked for
    one element ahead, which is buffered until its turn comes. */
module Merges {
  import opened RequestBalances
  import opened Events
  import opened Generators

  /** A merged value carries the index of its source (the source's variant). */
  datatype Tagged<+T> = Tagged(source: nat, value: T)

  // ----- what a merge delivers -----

  /** The length of the longest of the first `n` sources. */
  function Longest<T>(scripts: seq<Script<T>>, n: nat): (longest: nat)
    requires n <= |scripts|
    ensures forall j :: 0 <= j < n ==> |scripts[j].values| <= longest
  {
    if n == 0 then 0 else
      var before := Longest(scripts, n - 1);
      if |scripts[n - 1].values| > before then |scripts[n - 1].values| else before
  }

  /** The interleaving from turn `turn` of round `round` on: round r consists of the r-th values of
      all sources that have one, in the order of the sources. The first error that comes up ends
      it; when all sources are done there is a single Done. */
  function Interleave<T>(scripts: seq<Script<T>>, round: nat, turn: nat): (events: seq<Event<Tagged<T>>>)
    requires turn <= |scripts|
    ensures events != []
    decreases Longest(scripts, |scripts|) + 1 - round, |scripts| - turn
  {
    if round > Longest(scripts, |scripts|) then [End(Done)]
    else if turn == |scripts| then Interleave(scripts, round + 1, 0)
    else
      var values, end := scripts[turn].values, scripts[turn].end;
      if round < |values| then [Next(Tagged(turn, values[round]))] + Interleave(scripts, round, turn + 1)
      else if round == |values| && end.Error? then [End(end)]
      else Interleave(scripts, round, turn + 1)
  }

  /** All that merging the sources delivers. */
  function RoundRobin<T>(scripts: seq<Script<T>>): seq<Event<Tagged<T>>> {
    Interleave(scripts, 0, 0)
  }

  /** How many events of source `j` (its end included) the turns before this one have consumed. */
  function Consumed<T>(scripts: seq<Script<T>>, round: nat, turn: nat, j: nat): nat
    requires j < |scripts|
  {
    var turns := if j < turn then round + 1 else round;
    if turns > |scripts[j].values| then |scripts[j].values| + 1 else turns
  }

  predicate IsLive<T>(scripts: seq<Script<T>>, round: nat, turn: nat, j: nat)
    requires j < |scripts|
  {
    Consumed(scripts, round, turn, j) <= |scripts[j].values|
  }

  predicate AnyLive<T>(scripts: seq<Script<T>>, round: nat, turn: nat) {
    exists j :: 0 <= j < |scripts| && IsLive(scripts, round, turn, j)
  }

  /** Once all sources are consumed only Done is left. */
  lemma {:induction false} NothingLeft<T>(scripts: seq<Script<T>>, round: nat, turn: nat)
    requires turn <= |scripts| && !AnyLive(scripts, round, turn)
    ensures Interleave(scripts, round, turn) == [End(Done)]
    decreases Longest(scripts, |scripts|) + 1 - round, |scripts| - turn
  {
    if round <= Longest(scripts, |scripts|) {
      var nextRound, nextTurn := if turn == |scripts| then round + 1 else round, if turn == |scripts| then 0 else turn + 1;
      assert turn < |scripts| ==> !IsLive(scripts, round, turn, turn);
      forall j | 0 <= j < |scripts|
        ensures !IsLive(scripts, nextRound, nextTurn, j)
      {
        assert !IsLive(scripts, round, turn, j);
      }
      NothingLeft(scripts, nextRound, nextTurn);
    }
  }

  /** Whether, when the first error comes up at its turn, some other source has already produced
      its own end without that end having been consumed. */
  predicate Clashes<T>(scripts: seq<Script<T>>, round: nat, turn: nat)
    requires turn <= |scripts|
    decreases Longest(scripts, |scripts|) + 1 - round, |scripts| - turn
  {
    if round > Longest(scripts, |scripts|) then false
    else if turn == |scripts| then Clashes(scripts, round + 1, 0)
    else if round == |scripts[turn].values| && scripts[turn].end.Error? then
      exists j :: 0 <= j < |scripts| && j != turn && |scripts[j].values| == if j < turn then round + 1 else round
    else Clashes(scripts, round, turn + 1)
  }

  /** Whether an error that ends the merge makes the cancellation of the other sources abort. */
  predicate CancelAborts<T>(scripts: seq<Script<T>>) {
    Clashes(scripts, 0, 0)
  }

  function NextTurn<T>(scripts: seq<Script<T>>, turn: nat): nat
    requires turn < |scripts|
  {
    if turn + 1 == |scripts| then 0 else turn + 1
  }

  function NextRound<T>(scripts: seq<Script<T>>, round: nat, turn: nat): nat
    requires turn < |scripts|
  {
    if turn + 1 == |scripts| then round + 1 else round
  }

  // ----- the operator -----

  /** An upstream subscriber and its lookahead; Gone once the pointer to it was reset. */
  datatype Slot<+T> = Gone | Slot(next: Option<Event<T>>, source: Source<T>) {
    predicate HasNext() {
      Slot? && next.Some?
    }

    /** Its stream has ended although its end has not been consumed yet. */
    predicate EndedAhead() {
      Slot? && source.finished
    }
  }

  predicate AnyEndedAhead<T>(slots: seq<Slot<T>>) {
    exists j :: 0 <= j < |slots| && slots[j].EndedAhead()
  }

  /** The slot of a source of which `n` events were consumed: the next one is already there. */
  function SlotAfter<T>(script: Script<T>, n: nat): Slot<T> {
    if n > |script.values| then Gone
    else if n == |script.values| then
      Slot(Some(End(script.end)), Source(script, n, 0, true, true))
    else
      Slot(Some(Next(script.values[n])), Source(script, n + 1, 0, false, false))
  }

  /** Once all sources are consumed no error can come up any more. */
  lemma {:induction false} NoClashLeft<T>(scripts: seq<Script<T>>, round: nat, turn: nat)
    requires turn <= |scripts| && !AnyLive(scripts, round, turn)
    ensures !Clashes(scripts, round, turn)
    decreases Longest(scripts, |scripts|) + 1 - round, |scripts| - turn
  {
    if round <= Longest(scripts, |scripts|) {
      var nextRound, nextTurn := if turn == |scripts| then round + 1 else round, if turn == |scripts| then 0 else turn + 1;
      assert turn < |scripts| ==> !IsLive(scripts, round, turn, turn);
      forall j | 0 <= j < |scripts|
        ensures !IsLive(scripts, nextRound, nextTurn, j)
      {
        assert !IsLive(scripts, round, turn, j);
      }
      NoClashLeft(scripts, nextRound, nextTurn);
    }
  }

  function SlotsFor<T>(scripts: seq<Script<T>>, round: nat, turn: nat): (slots: seq<Slot<T>>)
    ensures |slots| == |scripts|
  {
    seq(|scripts|, j requires 0 <= j < |scripts| => SlotAfter(scripts[j], Consumed(scripts, round, turn, j)))
  }

  /** One turn consumes at most one event, of the source whose turn it is. */
  lemma {:induction false} TurnSlots<T>(scripts: seq<Script<T>>, round: nat, turn: nat)
    requires turn < |scripts|
    ensures var n := Consumed(scripts, round, turn, turn);
            SlotsFor(scripts, NextRound(scripts, round, turn), NextTurn(scripts, turn))
            == SlotsFor(scripts, round, turn)[
                 turn := SlotAfter(scripts[turn], if n <= |scripts[turn].values| then n + 1 else n)]
  {
  }

  /** What a turn adds to the output. */
  lemma {:induction false} TurnOutput<T>(scripts: seq<Script<T>>, round: nat, turn: nat)
    requires turn < |scripts| && AnyLive(scripts, round, turn)
    ensures round <= Longest(scripts, |scripts|)
    ensures var n := Consumed(scripts, round, turn, turn);
            var values, end := scripts[turn].values, scripts[turn].end;
            var next := Interleave(scripts, NextRound(scripts, round, turn), NextTurn(scripts, turn));
            Interleave(scripts, round, turn) ==
              if n < |values| then [Next(Tagged(turn, values[n]))] + next
              else if n == |values| && end.Error? then [End(end)]
              else next
  {
    var live :| 0 <= live < |scripts| && IsLive(scripts, round, turn, live);
    var now := Interleave(scripts, round, turn + 1);
    assert turn + 1 == |scripts| ==> now == Interleave(scripts, round + 1, 0);
  }

  /** Only the turn that consumes an end can leave no source alive. */
  lemma {:induction false} TurnLeavesLive<T>(scripts: seq<Script<T>>, round: nat, turn: nat)
    requires turn < |scripts| && AnyLive(scripts, round, turn)
    ensures Consumed(scripts, round, turn, turn) != |scripts[turn].values| ==>
              AnyLive(scripts, NextRound(scripts, round, turn), NextTurn(scripts, turn))
  {
    var nextRound, nextTurn := NextRound(scripts, round, turn), NextTurn(scripts, turn);
    var live :| 0 <= live < |scripts| && IsLive(scripts, round, turn, live);
    assert Consumed(scripts, round, turn, turn) < |scripts[turn].values| ==> IsLive(scripts, nextRound, nextTurn, turn);
    assert live != turn ==> IsLive(scripts, nextRound, nextTurn, live);
  }

  /** A turn that does not bring up an error leaves the question open; one that does answers it. */
  lemma {:induction false} TurnClash<T>(scripts: seq<Script<T>>, round: nat, turn: nat)
    requires turn < |scripts| && round <= Longest(scripts, |scripts|)
    ensures var n := Consumed(scripts, round, turn, turn);
            var nextRound, nextTurn := NextRound(scripts, round, turn), NextTurn(scripts, turn);
            Clashes(scripts, round, turn) <==>
              if n == |scripts[turn].values| && scripts[turn].end.Error?
              then AnyEndedAhead(SlotsFor(scripts, nextRound, nextTurn))
              else Clashes(scripts, nextRound, nextTurn)
  {
    var n := Consumed(scripts, round, turn, turn);
    var nextRound, nextTurn := NextRound(scripts, round, turn), NextTurn(scripts, turn);
    var slots := SlotsFor(scripts, nextRound, nextTurn);
    assert turn + 1 == |scripts| ==> Clashes(scripts, round, turn + 1) == Clashes(scripts, round + 1, 0);
    if n == |scripts[turn].values| && scripts[turn].end.Error? {
      if Clashes(scripts, round, turn) {
        var j :| 0 <= j < |scripts| && j != turn && |scripts[j].values| == if j < turn then round + 1 else round;
        assert slots[j].EndedAhead();
      }
      if AnyEndedAhead(slots) {
        var j :| 0 <= j < |slots| && slots[j].EndedAhead();
        assert j != turn && |scripts[j].values| == if j < turn then round + 1 else round;
      }
    }
  }

  /** What a turn does, as its slot shows it. */
  lemma {:induction false} Turn<T>(scripts: seq<Script<T>>, round: nat, turn: nat)
    requires turn < |scripts| && AnyLive(scripts, round, turn)
    ensures round <= Longest(scripts, |scripts|)
    ensures var nextRound, nextTurn := NextRound(scripts, round, turn), NextTurn(scripts, turn);
            var now, next := Interleave(scripts, round, turn), Interleave(scripts, nextRound, nextTurn);
            var slots, nextSlots := SlotsFor(scripts, round, turn), SlotsFor(scripts, nextRound, nextTurn);
            match slots[turn]
            case Gone =>
              && now == next && slots == nextSlots && AnyLive(scripts, nextRound, nextTurn)
              && Clashes(scripts, round, turn) == Clashes(scripts, nextRound, nextTurn)
            case Slot(None, _) => false
            case Slot(Some(Next(value)), source) =>
              && source.Valid() && !source.finished && !source.generating && source.requested == 0
              && now == [Next(Tagged(turn, value))] + next && AnyLive(scripts, nextRound, nextTurn)
              && nextSlots == slots[turn := SlotAfter(source.script, source.index)]
              && Clashes(scripts, round, turn) == Clashes(scripts, nextRound, nextTurn)
            case Slot(Some(End(status)), _) =>
              && now == (if status.Error? then [End(status)] else next)
              && nextSlots == slots[turn := Gone]
              && (Clashes(scripts, round, turn) <==>
                    if status.Error? then AnyEndedAhead(nextSlots)
                    else Clashes(scripts, nextRound, nextTurn))
  {
    TurnSlots(scripts, round, turn);
    TurnOutput(scripts, round, turn);
    TurnLeavesLive(scripts, round, turn);
    TurnClash(scripts, round, turn);
  }

  lemma Shift<T>(whole: seq<T>, before: seq<T>, next: T, rest: seq<T>)
    requires whole == before + ([next] + rest)
    ensures before + [next] <= whole && whole == before + [next] + rest
  {
  }

  class MergeStream<T> {
    const scripts: seq<Script<T>>
    const react: Reaction<Tagged<T>>

    var upstreamSubscribers: seq<Slot<T>>
    var currentIndex: nat
    var requestBalance: Size
    var availableBalance: Size
    var delivering: bool
    var alive: bool
    var aborted: bool  // a check of the source failed

    var delivered: seq<Event<Tagged<T>>>
    ghost var granted: nat
    ghost var outer: nat
    ghost var round: nat

    ghost function Whole(): seq<Event<Tagged<T>>> {
      Interleave(scripts, 0, 0)
    }

    /** What holds at the head of the delivery loop. Every live slot holds a lookahead, and
        `availableBalance` never drops to zero: it saturates with the first element consumed. */
    ghost predicate Steady()
      reads this
    {
      && alive && !aborted
      && currentIndex < |scripts| && availableBalance > 0
      && upstreamSubscribers == SlotsFor(scripts, round, currentIndex)
      && AnyLive(scripts, round, currentIndex)
      && Clashes(scripts, round, currentIndex) == Clashes(scripts, 0, 0)
      && Whole() == delivered + Interleave(scripts, round, currentIndex)
      && Booked(Whole(), react, Never, outer, granted, delivered)
      && Credit(requestBalance, granted, |delivered|)
    }

    ghost predicate Over()
      reads this
    {
      && !alive && Closed(Whole(), react, Never, outer, delivered)
      && aborted == Clashes(scripts, 0, 0)
    }

    ghost predicate AtRest()
      reads this
    {
      if alive then Steady() && !delivering && requestBalance == 0 else Over()
    }

    // ----- construction -----

    constructor (scripts: seq<Script<T>>, react: Reaction<Tagged<T>>)
      requires |scripts| > 0
      ensures AtRest() && alive && delivered == [] && outer == 0
      ensures this.scripts == scripts && this.react == react
    {
      this.scripts, this.react := scripts, react;
      upstreamSubscribers, currentIndex := [], 0;
      requestBalance, availableBalance, delivering, alive, aborted := 0, 0, false, true, false;
      delivered, granted, outer, round := [], 0, 0, 0;
      new;
      for i := 0 to |scripts|
        invariant this.scripts == scripts && this.react == react
        invariant |upstreamSubscribers| == i && (i > 0 ==> availableBalance > 0)
        invariant forall j :: 0 <= j < i ==> upstreamSubscribers[j] == SlotAfter(scripts[j], 0)
        invariant requestBalance == 0 && currentIndex == 0 && round == 0 && !delivering && alive && !aborted
        invariant delivered == [] && granted == 0 && outer == 0
      {
        upstreamSubscribers := upstreamSubscribers + [Slot(None, Fresh(scripts[i]))];
        RequestUpstream(i, 1);
      }
      assert IsLive(scripts, round, currentIndex, 0);
    }

    // ----- subscription -----

    method Request(tokens: Size)
      requires alive && (!delivering ==> AtRest())
      modifies this
      ensures old(delivering) ==>
                && requestBalance == Plus(old(requestBalance), tokens) && granted == old(granted) + tokens
                && unchanged(`upstreamSubscribers, `currentIndex, `availableBalance, `delivering,
                             `alive, `aborted, `delivered, `outer, `round)
      ensures !old(delivering) ==> AtRest() && outer == old(outer) + tokens
      decreases !delivering, 2
    {
      requestBalance := Plus(requestBalance, tokens);
      granted := granted + tokens;
      if !delivering {
        BookRequest(Whole(), react, Never, outer, old(granted), delivered, tokens);
        outer := outer + tokens;
      }
      MaybeDeliver();
    }

    method Cancel()
      requires alive && !aborted
      modifies `upstreamSubscribers, `alive, `aborted
      ensures aborted <==> AnyEndedAhead(old(upstreamSubscribers))
      ensures !aborted ==> forall slot :: slot in upstreamSubscribers ==> slot.Gone?
      ensures !alive
    {
      for i := 0 to |upstreamSubscribers|
        invariant |upstreamSubscribers| == |old(upstreamSubscribers)| && alive && !aborted
        invariant forall j :: 0 <= j < i ==> upstreamSubscribers[j].Gone? && !old(upstreamSubscribers)[j].EndedAhead()
        invariant forall j :: i <= j < |upstreamSubscribers| ==> upstreamSubscribers[j] == old(upstreamSubscribers)[j]
      {
        if upstreamSubscribers[i].Slot? {
          if upstreamSubscribers[i].source.finished {
            aborted, alive := true, false;  // access to subscription after stream ended
            return;
          }
          upstreamSubscribers := upstreamSubscribers[i := Gone];
        }
      }
      alive := false;
    }

    // ----- upstream subscribers -----

    /** An upstream stream with a single request; it is synchronous, so the element is delivered
        before this returns. */
    method RequestUpstream(i: nat, count: Size)
      requires alive && (!delivering ==> requestBalance == 0) && count == 1
      requires i < |upstreamSubscribers| && upstreamSubscribers[i].Slot? && upstreamSubscribers[i].next.None?
      requires var s := upstreamSubscribers[i].source; s.Valid() && !s.finished && !s.generating && s.requested == 0
      modifies this
      ensures var s := old(upstreamSubscribers[i]).source;
              upstreamSubscribers == old(upstreamSubscribers)[i := SlotAfter(s.script, s.index)]
      ensures availableBalance == Plus(old(availableBalance), 1)
      ensures unchanged(`currentIndex, `requestBalance, `delivering, `alive, `aborted, `delivered, `granted, `outer, `round)
      decreases !delivering, 4
    {
      var slot := upstreamSubscribers[i];
      upstreamSubscribers := upstreamSubscribers[i := slot.(source := slot.source.Grant(count))];
      GenerateUpstream(i);
    }

    method GenerateUpstream(i: nat)
      requires alive && (!delivering ==> requestBalance == 0)
      requires i < |upstreamSubscribers| && upstreamSubscribers[i].Slot? && upstreamSubscribers[i].next.None?
      requires var s := upstreamSubscribers[i].source; s.Valid() && !s.finished && !s.generating && s.requested == 1
      modifies this
      ensures var s := old(upstreamSubscribers[i]).source;
              upstreamSubscribers == old(upstreamSubscribers)[i := SlotAfter(s.script, s.index)]
      ensures availableBalance == Plus(old(availableBalance), 1)
      ensures unchanged(`currentIndex, `requestBalance, `delivering, `alive, `aborted, `delivered, `granted, `outer, `round)
      decreases !delivering, 3
    {
      var source := upstreamSubscribers[i].source.(generating := true);
      ghost var start := source.index;
      upstreamSubscribers := upstreamSubscribers[i := Slot(None, source)];
      while source.requested > 0
        invariant unchanged(`currentIndex, `requestBalance, `delivering,
                            `alive, `aborted, `delivered, `granted, `outer, `round)
        invariant |upstreamSubscribers| == |old(upstreamSubscribers)|
        invariant source.generating && !source.finished && source.Valid()
        invariant source.script == old(upstreamSubscribers[i]).source.script
        invariant source.requested == 1 ==>
                    && source.index == start && availableBalance == old(availableBalance)
                    && upstreamSubscribers == old(upstreamSubscribers)[i := Slot(None, source)]
        invariant source.requested != 1 ==>
                    && source.requested == 0 && source.index == start + 1 <= |source.script.values|
                    && availableBalance == Plus(old(availableBalance), 1)
                    && upstreamSubscribers == old(upstreamSubscribers)[i := Slot(Some(Next(source.script.values[start])), source)]
        decreases source.requested
      {
        var event := source.Event();
        source := source.Advance();
        upstreamSubscribers := upstreamSubscribers[i := Slot(None, source)];
        OnNextUpstream(i, event);
        if event.End? {
          return;
        }
      }
      source := source.(generating := false);
      upstreamSubscribers := upstreamSubscribers[i := upstreamSubscribers[i].(source := source)];
    }

    method OnNextUpstream(i: nat, event: Event<T>)
      requires alive && (!delivering ==> requestBalance == 0)
      requires i < |upstreamSubscribers| && upstreamSubscribers[i].Slot? && upstreamSubscribers[i].next.None?
      modifies this
      ensures upstreamSubscribers == old(upstreamSubscribers)[i := Slot(Some(event), old(upstreamSubscribers[i]).source)]
      ensures availableBalance == Plus(old(availableBalance), 1)
      ensures unchanged(`currentIndex, `requestBalance, `delivering, `alive, `aborted, `delivered, `granted, `outer, `round)
      decreases !delivering, 2
    {
      upstreamSubscribers := upstreamSubscribers[i := upstreamSubscribers[i].(next := Some(event))];
      UpstreamSubscriberStateChanged(1);
    }

    method UpstreamSubscriberStateChanged(diff: int)
      requires alive && (!delivering ==> requestBalance == 0)
      modifies this
      ensures availableBalance == Plus(old(availableBalance), FromInt(diff))
      ensures unchanged(`upstreamSubscribers, `currentIndex, `requestBalance, `delivering,
                        `alive, `aborted, `delivered, `granted, `outer, `round)
      decreases !delivering, 1
    {
      availableBalance := Plus(availableBalance, FromInt(diff));
      if diff > 0 {
        MaybeDeliver();
      }
    }

    method ConsumeNext(i: nat) returns (event: Event<T>)
      requires alive && delivering
      requires i < |upstreamSubscribers| && upstreamSubscribers[i].HasNext()
      requires var slot := upstreamSubscribers[i];
               slot.next.value.Next? ==>
                 slot.source.Valid() && !slot.source.finished && !slot.source.generating && slot.source.requested == 0
      modifies this
      ensures event == old(upstreamSubscribers[i]).next.value && availableBalance == KMAX
      ensures var s := old(upstreamSubscribers[i]).source;
              upstreamSubscribers
              == old(upstreamSubscribers)[i := if event.Next? then SlotAfter(s.script, s.index) else Slot(None, s)]
      ensures unchanged(`currentIndex, `requestBalance, `delivering, `alive, `aborted, `delivered, `granted, `outer, `round)
      decreases !delivering, 5
    {
      event := upstreamSubscribers[i].next.value;
      upstreamSubscribers := upstreamSubscribers[i := upstreamSubscribers[i].(next := None)];
      UpstreamSubscriberStateChanged(-1);
      MinusOneSaturates(old(availableBalance));
      if event.Next? {
        RequestUpstream(i, 1);
      }
    }

    // ----- delivery -----

    /** The round-robin delivery loop; a call made while it runs returns at once. */
    method MaybeDeliver()
      requires alive && (!delivering ==> requestBalance == 0 || Steady())
      modifies this
      ensures old(delivering || requestBalance == 0) ==>
                && unchanged(`requestBalance, `granted)
                && unchanged(`upstreamSubscribers, `currentIndex, `availableBalance, `delivering,
                                                                  `alive, `aborted, `delivered, `outer, `round)
      ensures old(!delivering && requestBalance > 0) ==> AtRest() && outer == old(outer)
      decreases !delivering, 0
    {
      if delivering {
        return;
      }
      delivering := true;
      while requestBalance > 0 && availableBalance > 0
        invariant alive && delivering && outer == old(outer)
        invariant old(requestBalance == 0) ==>
                    && unchanged(`requestBalance, `granted)
                    && unchanged(`upstreamSubscribers, `currentIndex, `availableBalance,
                                 `alive, `aborted, `delivered, `outer, `round)
        invariant old(requestBalance > 0) ==> Steady()
        decreases Longest(scripts, |scripts|) + 1 - round, |scripts| - currentIndex
      {
        DeliverTurn();
        if !alive {
          return;
        }
      }
      delivering := false;
    }

    /** The body of the loop: the turn of the upstream at the current index. */
    method DeliverTurn()
      requires Steady() && delivering && requestBalance > 0
      modifies this
      ensures outer == old(outer)
      ensures alive ==>
                && Steady() && delivering && old(round) <= Longest(scripts, |scripts|)
                && round == NextRound(scripts, old(round), old(currentIndex))
                && currentIndex == NextTurn(scripts, old(currentIndex))
      ensures !alive ==> Over()
      decreases !delivering, 8
    {
      var index := currentIndex;
      Turn(scripts, round, index);
      MoveOn();
      if upstreamSubscribers[index].Gone? || !upstreamSubscribers[index].HasNext() {
        return;
      }
      var event := ConsumeNext(index);
      if event.Next? {
        DeliverValue(Tagged(index, event.value));
        return;
      }
      upstreamSubscribers := upstreamSubscribers[index := Gone];  // this upstream ended
      if event.status.Error? {
        Fail(event.status);
      } else {
        Finish();
      }
    }

    /** A value of an upstream was consumed. */
    method DeliverValue(value: Tagged<T>)
      requires alive && !aborted && delivering && requestBalance > 0 && availableBalance > 0
      requires currentIndex < |scripts| && AnyLive(scripts, round, currentIndex)
      requires Clashes(scripts, round, currentIndex) == Clashes(scripts, 0, 0)
      requires upstreamSubscribers == SlotsFor(scripts, round, currentIndex)
      requires Whole() == delivered + ([Next(value)] + Interleave(scripts, round, currentIndex))
      requires Booked(Whole(), react, Never, outer, granted, delivered)
      requires Credit(requestBalance, granted, |delivered|)
      modifies this
      ensures outer == old(outer) && round == old(round) && currentIndex == old(currentIndex)
      ensures Steady() && delivering
      decreases !delivering, 7
    {
      requestBalance := Minus(requestBalance, 1);
      Shift(Whole(), delivered, Next(value), Interleave(scripts, round, currentIndex));
      OnNext(Next(value));
    }

    /** The error of an upstream was consumed. */
    method Fail(status: Status)
      requires alive && !aborted && delivering && requestBalance > 0 && availableBalance > 0
      requires currentIndex < |scripts|
      requires upstreamSubscribers == SlotsFor(scripts, round, currentIndex)
      requires Booked(Whole(), react, Never, outer, granted, delivered)
      requires Credit(requestBalance, granted, |delivered|)
      requires Whole() == delivered + [End(status)]
      requires Clashes(scripts, 0, 0) == AnyEndedAhead(upstreamSubscribers)
      modifies this
      ensures outer == old(outer) && Over()
      decreases !delivering, 7
    {
      OnNext(End(status));
      Cancel();
    }

    /** The Done of an upstream was consumed. */
    method Finish()
      requires alive && !aborted && delivering && requestBalance > 0 && availableBalance > 0
      requires currentIndex < |scripts|
      requires upstreamSubscribers == SlotsFor(scripts, round, currentIndex)
      requires Booked(Whole(), react, Never, outer, granted, delivered)
      requires Credit(requestBalance, granted, |delivered|)
      requires Whole() == delivered + Interleave(scripts, round, currentIndex)
      requires Clashes(scripts, 0, 0) == Clashes(scripts, round, currentIndex)
      modifies this
      ensures outer == old(outer) && round == old(round) && currentIndex == old(currentIndex)
      ensures if alive then Steady() && delivering else Over()
      decreases !delivering, 7
    {
      var done := true;
      for j := 0 to |upstreamSubscribers|
        invariant done && forall k :: 0 <= k < j ==> upstreamSubscribers[k].Gone?
      {
        if upstreamSubscribers[j].Slot? {
          done := false;
          assert IsLive(scripts, round, currentIndex, j);
          break;
        }
      }
      if done {
        assert forall k :: 0 <= k < |scripts| ==>
          SlotsFor(scripts, round, currentIndex)[k] == SlotAfter(scripts[k], Consumed(scripts, round, currentIndex, k));
        NothingLeft(scripts, round, currentIndex);
        NoClashLeft(scripts, round, currentIndex);
        OnNext(End(Done));
        alive := false;
      }
    }

    method MoveOn()
      requires currentIndex < |upstreamSubscribers| == |scripts|
      modifies `currentIndex, `round
      ensures currentIndex == NextTurn(scripts, old(currentIndex))
      ensures round == NextRound(scripts, old(round), old(currentIndex))
    {
      round := NextRound(scripts, round, currentIndex);
      currentIndex := (currentIndex + 1) % |upstreamSubscribers|;
    }

    /** The downstream subscriber's callback. */
    method OnNext(event: Event<Tagged<T>>)
      requires alive && delivering
      requires Booked(Whole(), react, Never, outer, granted, delivered) && Covers(granted, |delivered|)
      requires delivered + [event] <= Whole() && (event.End? ==> delivered + [event] == Whole())
      modifies this
      ensures delivered == old(delivered) + [event]
      ensures if event.Next? then Booked(Whole(), react, Never, outer, granted, delivered)
              else Closed(Whole(), react, Never, outer, delivered)
      ensures forall used: nat :: old(Credit(requestBalance, granted, used)) ==> Credit(requestBalance, granted, used)
      ensures unchanged(`upstreamSubscribers, `currentIndex, `availableBalance, `delivering, `alive, `aborted, `outer, `round)
      decreases !delivering, 4
    {
      Book(Whole(), react, Never, outer, granted, delivered, event);
      delivered := delivered + [event];
      React(Reply(react, delivered));
    }

    /** The requests the subscriber makes inside the callback. */
    method React(requests: seq<Size>)
      requires alive && delivering
      modifies this
      ensures granted == old(granted) + Sum(requests)
      ensures forall used: nat :: old(Credit(requestBalance, granted, used)) ==> Credit(requestBalance, granted, used)
      ensures unchanged(`upstreamSubscribers, `currentIndex, `availableBalance, `delivering,
                        `alive, `aborted, `delivered, `outer, `round)
      decreases !delivering, 3
    {
      for i := 0 to |requests|
        invariant granted == old(granted) + SumTo(requests, i)
        invariant forall used: nat :: old(Credit(requestBalance, granted, used)) ==> Credit(requestBalance, granted, used)
        invariant unchanged(`upstreamSubscribers, `currentIndex, `availableBalance, `delivering,
                            `alive, `aborted, `delivered, `outer, `round)
      {
        Request(requests[i]);
      }
    }
  }

  /** Publishers merged, subscribed by an arbitrary subscriber, then requested from outside an
      arbitrary number of times. */
  method Run<T>(scripts: seq<Script<T>>, react: Reaction<Tagged<T>>, requests: seq<Size>)
    returns (delivered: seq<Event<Tagged<T>>>, aborted: bool)
    requires |scripts| > 0
    ensures Settled(RoundRobin(scripts), react, Never, Sum(requests), delivered)
    ensures aborted <==> (delivered == RoundRobin(scripts) && CancelAborts(scripts))
  {
    var stream := new MergeStream(scripts, react);
    var i := 0;
    while i < |requests| && stream.alive
      invariant i <= |requests| && fresh(stream)
      invariant stream.scripts == scripts && stream.react == react
      invariant stream.AtRest() && stream.outer == SumTo(requests, i)
    {
      stream.Request(requests[i]);
      i := i + 1;
    }
    SumGrows(requests, i, |requests|);
    if !stream.alive {
      ClosedGrows(stream.Whole(), react, Never, stream.outer, Sum(requests) - stream.outer, stream.delivered);
    }
    BooksSettle(RoundRobin(scripts), react, Never, Sum(requests), stream.granted, stream.delivered);
    delivered, aborted := stream.delivered, stream.aborted;
  }
}
