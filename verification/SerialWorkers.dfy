/** A worker as its clients see it: a queue whose head is executed by one thread at a time. The
    scheduler refines this view of each of its workers. */
module SerialWorkers {
  import opened Schedulers
  import opened SchedulerLaws
  import opened SchedulerGuarantees

  /** The tasks that are scheduled and not finished, and whether the first is being executed. */
  datatype Serial<X> = Serial(queue: seq<X>, busy: bool)

  datatype Move<X> = Nothing | Enqueue(task: X) | Start | Stop

  predicate CanMove<X>(serial: Serial<X>, move: Move<X>) {
    && (move.Start? ==> serial.queue != [] && !serial.busy)
    && (move.Stop? ==> serial.queue != [] && serial.busy)
  }

  function Moved<X>(serial: Serial<X>, move: Move<X>): Serial<X>
    requires CanMove(serial, move)
  {
    match move
    case Nothing => serial
    case Enqueue(task) => serial.(queue := serial.queue + [task])
    case Start => serial.(busy := true)
    case Stop => Serial(serial.queue[1..], false)
  }

  ghost predicate Executing<X>(s: System<X>, w: nat) {
    exists t: nat :: InBody(s, t, w)
  }

  ghost function View<X>(s: System<X>, w: nat): Serial<X>
    requires w < |s.workers| && |s.workers[w].finished| <= |s.workers[w].scheduled|
  {
    Serial(s.workers[w].scheduled[|s.workers[w].finished|..], Executing(s, w))
  }

  /** A thread that looks for work takes a wrapper of worker `w`. */
  predicate Takes<X>(s: System<X>, w: nat) {
    s.pool.todo != [] && s.pool.todo[0].Wrapped? && s.pool.todo[0].worker == w
  }

  /** What a step of the scheduler is for the clients of worker `w`. */
  ghost function Observed<X>(s: System<X>, action: Action<X>, w: nat): Move<X>
    requires Enabled(s, action)
  {
    if action.Schedule? && action.target == OnWorker(w) then Enqueue(action.task)
    else if (action.Enter? || action.Wake?) && Takes(s, w) then Start
    else if action.Finish? && InBody(s, action.thread, w) then Stop
    else Nothing
  }

  /** The thread that executes a task of the worker executes the head of its queue. */
  lemma ExecutesHead<X(!new)>(s: System<X>, t: nat, w: nat)
    requires Invariant(s) && w < |s.workers| && InBody(s, t, w)
    ensures |s.workers[w].finished| < |s.workers[w].scheduled|
    ensures View(s, w).queue != [] && View(s, w).queue[0] == s.pool.threads[t].job.task && View(s, w).busy
  {
    BorneIsLive(s, t);
    assert Fits(s, s.pool.threads[t]);
  }

  /** What a move is for the worker's logs and the threads. */
  ghost predicate Follows<X>(s: System<X>, move: Move<X>, after: System<X>, w: nat)
    requires w < |s.workers|
  {
    && |after.workers| == |s.workers|
    && var before, now := s.workers[w], after.workers[w];
    && now.scheduled == before.scheduled + (if move.Enqueue? then [move.task] else [])
    && |now.finished| == |before.finished| + (if move.Stop? then 1 else 0)
    && (if move.Start? then !Executing(s, w) && Executing(after, w) && |before.finished| < |before.scheduled|
        else if move.Stop? then Executing(s, w) && !Executing(after, w) && |before.finished| < |before.scheduled|
        else Executing(after, w) == Executing(s, w))
  }

  lemma FollowingMoves<X(!new)>(s: System<X>, move: Move<X>, after: System<X>, w: nat)
    requires w < |s.workers| && Follows(s, move, after, w)
    requires InOrder(s.workers[w]) && InOrder(after.workers[w])
    ensures CanMove(View(s, w), move) && View(after, w) == Moved(View(s, w), move)
  {
    var before, now := s.workers[w], after.workers[w];
    if move.Enqueue? {
      assert now.scheduled[|now.finished|..] == before.scheduled[|before.finished|..] + [move.task];
    }
  }

  /** Every step of the scheduler is a move of the serial queue. */
  lemma Simulates<X(!new)>(s: System<X>, action: Action<X>, w: nat)
    requires Invariant(s) && Enabled(s, action) && w < |s.workers|
    ensures var after := After(s, action);
            && |after.workers| == |s.workers|
            && InOrder(s.workers[w]) && InOrder(after.workers[w])
            && CanMove(View(s, w), Observed(s, action, w))
            && View(after, w) == Moved(View(s, w), Observed(s, action, w))
  {
    StepFollows(s, action, w);
    StepKeeps(s, action);
    FollowingMoves(s, Observed(s, action, w), After(s, action), w);
  }

  lemma StepFollows<X(!new)>(s: System<X>, action: Action<X>, w: nat)
    requires Invariant(s) && Enabled(s, action) && w < |s.workers|
    ensures Follows(s, Observed(s, action, w), After(s, action), w)
  {
    match action {
      case Schedule(_, target, task, pick) => ScheduleSimulates(s, target, task, pick, w);
      case Enter(t) => LookSimulates(s, action, t, w);
      case Wake(t) => LookSimulates(s, action, t, w);
      case Finish(t) => FinishSimulates(s, t, w);
      case Return(t, pick) => ReturnSimulates(s, t, pick, w);
      case Spurious(t) => SameBodies(s, After(s, action), w);
      case Destroy => SameBodies(s, After(s, action), w);
    }
  }

  lemma SameBodies<X>(s: System<X>, after: System<X>, w: nat)
    requires forall t: nat :: InBody(after, t, w) == InBody(s, t, w)
    ensures Executing(after, w) == Executing(s, w)
  {
    if Executing(s, w) {
      var t: nat :| InBody(s, t, w);
      assert InBody(after, t, w);
    }
    if Executing(after, w) {
      var t: nat :| InBody(after, t, w);
      assert InBody(s, t, w);
    }
  }

  lemma ScheduleSimulates<X(!new)>(s: System<X>, target: Target, task: X, pick: nat, w: nat)
    requires Invariant(s) && w < |s.workers| && (target.OnWorker? ==> target.worker < |s.workers|)
    ensures Follows(s, if target == OnWorker(w) then Enqueue(task) else Nothing, Scheduled(s, target, task, pick), w)
  {
    SameBodies(s, Scheduled(s, target, task, pick), w);
  }

  lemma LookSimulates<X(!new)>(s: System<X>, action: Action<X>, t: nat, w: nat)
    requires Invariant(s) && Enabled(s, action) && w < |s.workers|
    requires (action.Enter? || action.Wake?) && action.thread == t
    ensures Follows(s, if Takes(s, w) then Start else Nothing, After(s, action), w)
  {
    var after := After(s, action);
    if Takes(s, w) {
      QueuedIsLive(s, s.pool.todo[0]);
      assert Unfinished(s, s.pool.todo[0]);
      if Executing(s, w) {
        var u: nat :| InBody(s, u, w);
        SoleBearer(s, u);
        assert false;
      }
      assert InBody(after, t, w);
    } else {
      SameBodies(s, after, w);
    }
  }

  lemma FinishSimulates<X(!new)>(s: System<X>, t: nat, w: nat)
    requires Invariant(s) && Enabled(s, Finish(t)) && w < |s.workers|
    ensures Follows(s, if InBody(s, t, w) then Stop else Nothing, Finished(s, t), w)
  {
    var after := Finished(s, t);
    if InBody(s, t, w) {
      SoleBearer(s, t);
      assert forall u: nat :: !InBody(after, u, w);
    } else {
      SameBodies(s, after, w);
    }
  }

  lemma ReturnSimulates<X(!new)>(s: System<X>, t: nat, pick: nat, w: nat)
    requires Invariant(s) && Enabled(s, Return(t, pick)) && w < |s.workers|
    ensures Follows(s, Nothing, Returned(s, t, pick), w)
  {
    SameBodies(s, Returned(s, t, pick), w);
  }
}
