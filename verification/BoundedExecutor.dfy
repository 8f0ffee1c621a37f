/** The bounded executor for synchronous nodes: a bounded queue, a fixed set of worker threads and a draining shutdown.
    Between two steps of one thread any other thread may step. */
module BoundedExecutor {
  import opened Collections

  type Future = nat

  /** The states of a future; `Notified` is a cancelled future a worker has come across. */
  datatype Status = Pending | Running | Cancelled | Notified | Finished {
    predicate Done() {
      Cancelled? || Notified? || Finished?
    }

    /** `Future.cancel`: it has no effect once the function is running or the future is done. */
    function Cancel(): Status {
      if Pending? then Cancelled else this
    }
  }

  /** Where a worker thread is: at the loop test, waiting on the queue, holding a future it has just fetched, past its
      second look at the shutdown flag, running the function, or returned. */
  datatype Thread =
    | Checking
    | Waiting
    | Holding(future: Future)
    | Cleared(future: Future)
    | Executing(future: Future)
    | Exited
  {
    predicate Holds() {
      Holding? || Cleared? || Executing?
    }

    predicate Has(f: Future) {
      Holds() && future == f
    }
  }

  /** The submit lock: free, or held by a shutdown that is between two futures or has just taken one off the queue. */
  datatype Lock = Free | Draining | Taken(future: Future)

  /** `futures` has every accepted future; `accepted`, `started` and `withdrawn` record which were accepted and which
      functions were called, in order, and which futures their callers cancelled in time. */
  datatype Executor = Executor(
    maxPending: nat, work: seq<Future>, shutdown: bool, lock: Lock, threads: seq<Thread>, futures: map<Future, Status>,
    accepted: seq<Future>, started: seq<Future>, withdrawn: set<Future>)

  datatype Submission = Accepted | ShutDown | CapacityExhausted

  datatype Step =
    | Submit(f: Future)
    | BeginShutdown
    | TakeOne
    | CancelTaken
    | EndShutdown
    | Look(w: nat)
    | Fetch(w: nat)
    | TimeOut(w: nat)
    | Inspect(w: nat)
    | Start(w: nat)
    | Return(w: nat)
    | Withdraw(f: Future)

  // ---------- Steps ----------

  function Answer(s: Executor): Submission {
    if s.shutdown then ShutDown else if |s.work| >= s.maxPending then CapacityExhausted else Accepted
  }

  predicate CanStep(s: Executor, step: Step) {
    match step
    case Submit(f) => s.lock.Free? && f !in s.futures
    case BeginShutdown => s.lock.Free?
    case TakeOne => s.lock.Draining? && s.work != []
    case CancelTaken => s.lock.Taken? && s.lock.future in s.futures
    case EndShutdown => s.lock.Draining? && s.work == []
    case Look(w) => w < |s.threads| && s.threads[w].Checking?
    case Fetch(w) => w < |s.threads| && s.threads[w].Waiting? && s.work != []
    case TimeOut(w) => w < |s.threads| && s.threads[w].Waiting? && s.work == []
    case Inspect(w) => w < |s.threads| && s.threads[w].Holding? && s.threads[w].future in s.futures
    case Start(w) => w < |s.threads| && s.threads[w].Cleared? && s.threads[w].future in s.futures
    case Return(w) => w < |s.threads| && s.threads[w].Executing? && s.threads[w].future in s.futures
    case Withdraw(f) => f in s.futures
  }

  function Move(s: Executor, w: nat, thread: Thread): Executor
    requires w < |s.threads|
  {
    s.(threads := s.threads[w := thread])
  }

  function SetStatus(s: Executor, f: Future, status: Status): Executor {
    s.(futures := s.futures[f := status])
  }

  function Next(s: Executor, step: Step): Executor
    requires CanStep(s, step)
  {
    match step
    case Submit(f) =>
      if Answer(s).Accepted? then
        s.(work := s.work + [f], futures := s.futures[f := Pending], accepted := s.accepted + [f])
      else s
    case BeginShutdown => s.(shutdown := true, lock := Draining)
    case TakeOne => s.(work := s.work[1..], lock := Taken(s.work[0]))
    case CancelTaken => SetStatus(s, s.lock.future, s.futures[s.lock.future].Cancel()).(lock := Draining)
    case EndShutdown => s.(lock := Free)
    case Look(w) => Move(s, w, if s.shutdown then Exited else Waiting)
    case Fetch(w) => Move(s, w, Holding(s.work[0])).(work := s.work[1..])
    case TimeOut(w) => Move(s, w, Checking)
    case Inspect(w) =>
      var f := s.threads[w].future;
      if s.shutdown then SetStatus(Move(s, w, Checking), f, s.futures[f].Cancel()) else Move(s, w, Cleared(f))
    case Start(w) =>
      var f := s.threads[w].future;
      if s.futures[f].Cancelled? then SetStatus(Move(s, w, Checking), f, Notified)
      else SetStatus(Move(s, w, Executing(f)), f, Running).(started := s.started + [f])
    case Return(w) => SetStatus(Move(s, w, Checking), s.threads[w].future, Finished)
    case Withdraw(f) =>
      SetStatus(s, f, s.futures[f].Cancel()).(withdrawn := s.withdrawn + if s.futures[f].Pending? then {f} else {})
  }

  function Init(maxWorkers: nat, maxPending: nat): Executor {
    Executor(maxPending, [], false, Free, seq(maxWorkers, _ => Checking), map[], [], [], {})
  }

  predicate IsRun(s: Executor, steps: seq<Step>)
    decreases |steps|
  {
    steps != [] ==> CanStep(s, steps[0]) && IsRun(Next(s, steps[0]), steps[1..])
  }

  function RunOf(s: Executor, steps: seq<Step>): Executor
    requires IsRun(s, steps)
    decreases |steps|
  {
    if steps == [] then s else RunOf(Next(s, steps[0]), steps[1..])
  }

  // ---------- What every reachable state satisfies ----------

  predicate Held(threads: seq<Thread>, f: Future) {
    exists w | 0 <= w < |threads| :: threads[w].Has(f)
  }

  predicate InDrain(lock: Lock, f: Future) {
    lock.Taken? && lock.future == f
  }

  /** A future is in one place only: one queue slot, one thread, or the hands of the shutdown. */
  ghost predicate OnePlace(work: seq<Future>, lock: Lock, threads: seq<Thread>) {
    && Distinct(work)
    && (forall f | f in work :: !Held(threads, f) && !InDrain(lock, f))
    && (forall f | Held(threads, f) :: !InDrain(lock, f))
    && (forall v, w | 0 <= v < w < |threads| :: !SameFuture(threads[v], threads[w]))
  }

  predicate SameFuture(a: Thread, b: Thread) {
    a.Holds() && b.Has(a.future)
  }

  /** The future is with the executor: queued, held by a thread, or being taken away by the shutdown. */
  predicate Inside(s: Executor, f: Future) {
    f in s.work || Held(s.threads, f) || InDrain(s.lock, f)
  }

  predicate Executed(threads: seq<Thread>, f: Future) {
    exists w | 0 <= w < |threads| :: threads[w] == Executing(f)
  }

  /** What the status of a future says about where it is and what became of it. */
  predicate StatusOk(s: Executor, f: Future)
    requires f in s.futures
  {
    var status := s.futures[f];
    && (Executed(s.threads, f) <==> status.Running?)
    && (Inside(s, f) && !status.Running? ==> status.Pending? || status.Cancelled?)
    && (!Inside(s, f) ==> status.Done())
    && (Inside(s, f) ==> (status.Cancelled? <==> f in s.withdrawn))
    && (f in s.started <==> status.Running? || status.Finished?)
    && (f in s.withdrawn ==> status.Cancelled? || status.Notified?)
  }

  ghost predicate Known(s: Executor) {
    forall f | Inside(s, f) || f in s.started || f in s.withdrawn :: f in s.futures
  }

  ghost predicate Inv(s: Executor) {
    && OnePlace(s.work, s.lock, s.threads) && Known(s) && (forall f | f in s.futures :: StatusOk(s, f))
    && Distinct(s.started) && |s.work| <= s.maxPending
    && (!s.shutdown ==> s.lock.Free?) && (s.shutdown && s.lock.Free? ==> s.work == [])
  }

  lemma InitOk(maxWorkers: nat, maxPending: nat)
    ensures Inv(Init(maxWorkers, maxPending))
  {}

  /** A thread that moves holds its new future, and the other threads what they held. */
  lemma MoveHolds(work: seq<Future>, lock: Lock, threads: seq<Thread>, w: nat, thread: Thread, f: Future)
    requires OnePlace(work, lock, threads) && w < |threads|
    ensures Held(threads[w := thread], f) <==> thread.Has(f) || (Held(threads, f) && !threads[w].Has(f))
    ensures Executed(threads[w := thread], f) <==> thread == Executing(f) || (Executed(threads, f) && !threads[w].Has(f))
  {
    var after := threads[w := thread];
    if thread.Has(f) {
      assert after[w].Has(f);
    } else if Held(threads, f) && !threads[w].Has(f) {
      var v :| 0 <= v < |threads| && threads[v].Has(f);
      assert after[v].Has(f);
    }
    if thread == Executing(f) {
      assert after[w] == Executing(f);
    } else if Executed(threads, f) && !threads[w].Has(f) {
      var v :| 0 <= v < |threads| && threads[v] == Executing(f);
      assert after[v] == Executing(f);
    }
    if threads[w].Has(f) {
      forall v | 0 <= v < |threads| && v != w ensures !threads[v].Has(f) {
        assert !SameFuture(threads[v], threads[w]) && !SameFuture(threads[w], threads[v]);
      }
    }
  }

  /** Letting go of a future, or going on with the same one, keeps every future in one place. */
  lemma MoveOnePlace(work: seq<Future>, lock: Lock, threads: seq<Thread>, w: nat, thread: Thread)
    requires OnePlace(work, lock, threads) && w < |threads| && (thread.Holds() ==> threads[w].Has(thread.future))
    ensures OnePlace(work, lock, threads[w := thread])
  {}

  lemma HasIsHeld(threads: seq<Thread>, w: nat, f: Future)
    requires w < |threads|
    ensures threads[w].Has(f) ==> Held(threads, f)
    ensures threads[w] == Executing(f) ==> Executed(threads, f)
  {}

  lemma FetchOnePlace(work: seq<Future>, lock: Lock, threads: seq<Thread>, w: nat)
    requires OnePlace(work, lock, threads) && w < |threads| && work != [] && threads[w].Waiting?
    ensures OnePlace(work[1..], lock, threads[w := Holding(work[0])])
  {
    hide Held, Executed;
    var first, rest, after := work[0], work[1..], threads[w := Holding(work[0])];
    assert work == [first] + rest;
    assert first in work;
    forall f ensures Held(after, f) <==> f == first || Held(threads, f) {
      MoveHolds(work, lock, threads, w, Holding(first), f);
    }
    forall u, v | 0 <= u < v < |threads| ensures !SameFuture(after[u], after[v]) {
      HasIsHeld(threads, u, first);
      HasIsHeld(threads, v, first);
      assert !SameFuture(threads[u], threads[v]);
    }
    forall i, j | 0 <= i < j < |rest| ensures rest[i] != rest[j] {
      assert work[i + 1] != work[j + 1];
    }
    forall f | f in rest ensures f in work && f != first {
      var i :| 0 <= i < |rest| && rest[i] == f;
      assert work[i + 1] == f;
    }
  }

  lemma SubmitKeeps(s: Executor, f: Future)
    requires Inv(s) && CanStep(s, Submit(f))
    ensures Inv(Next(s, Submit(f)))
  {}

  lemma ExecutedIsHeld(threads: seq<Thread>, f: Future)
    ensures Executed(threads, f) ==> Held(threads, f)
  {}

  lemma ShutdownKeeps(s: Executor, step: Step)
    requires Inv(s) && CanStep(s, step) && (step.BeginShutdown? || step.TakeOne? || step.CancelTaken? || step.EndShutdown?)
    ensures Inv(Next(s, step))
  {
    hide Held, Executed;
    var after := Next(s, step);
    if step.TakeOne? {
      assert s.work == [s.work[0]] + after.work;
    }
    forall g | g in after.futures ensures StatusOk(after, g) {
      ExecutedIsHeld(s.threads, g);
      assert StatusOk(s, g);
    }
  }

  lemma ThreadKeeps(s: Executor, step: Step, w: nat)
    requires Inv(s) && CanStep(s, step) && (step == Look(w) || step == Fetch(w) || step == TimeOut(w))
    ensures Inv(Next(s, step))
  {
    hide Held, Executed, OnePlace;
    var after := Next(s, step);
    if step.Fetch? {
      assert s.work == [s.work[0]] + after.work;
      FetchOnePlace(s.work, s.lock, s.threads, w);
    } else {
      MoveOnePlace(s.work, s.lock, s.threads, w, after.threads[w]);
    }
    forall g ensures Inside(after, g) <==> Inside(s, g)
             ensures Executed(after.threads, g) <==> Executed(s.threads, g) {
      MoveHolds(s.work, s.lock, s.threads, w, after.threads[w], g);
    }
    forall g | g in after.futures ensures StatusOk(after, g) {
      assert StatusOk(s, g);
    }
  }

  lemma HolderKeeps(s: Executor, step: Step, w: nat)
    requires Inv(s) && CanStep(s, step) && (step == Inspect(w) || step == Start(w) || step == Return(w))
    ensures Inv(Next(s, step))
  {
    hide Held, Executed;
    var after, f := Next(s, step), s.threads[w].future;
    HasIsHeld(s.threads, w, f);
    assert Held(s.threads, f) && StatusOk(s, f);
    MoveOnePlace(s.work, s.lock, s.threads, w, after.threads[w]);
    NotElsewhere(s.work, s.lock, s.threads, w, f);
    hide OnePlace;
    forall g
      ensures Held(after.threads, g) <==> if g == f then after.threads[w].Has(f) else Held(s.threads, g)
      ensures Executed(after.threads, g) <==> if g == f then after.threads[w] == Executing(f) else Executed(s.threads, g)
    {
      MoveHolds(s.work, s.lock, s.threads, w, after.threads[w], g);
    }
    forall g | g in after.futures ensures StatusOk(after, g) {
      assert StatusOk(s, g);
    }
  }

  lemma NotElsewhere(work: seq<Future>, lock: Lock, threads: seq<Thread>, w: nat, f: Future)
    requires OnePlace(work, lock, threads) && w < |threads| && threads[w].Has(f)
    ensures f !in work && !InDrain(lock, f)
    ensures Executed(threads, f) <==> threads[w] == Executing(f)
  {}

  lemma WithdrawKeeps(s: Executor, f: Future)
    requires Inv(s) && CanStep(s, Withdraw(f))
    ensures Inv(Next(s, Withdraw(f)))
  {}

  lemma NextKeeps(s: Executor, step: Step)
    requires Inv(s) && CanStep(s, step)
    ensures Inv(Next(s, step))
  {
    hide Inv, Next;
    match step
    case Submit(f) => SubmitKeeps(s, f);
    case BeginShutdown | TakeOne | CancelTaken | EndShutdown => ShutdownKeeps(s, step);
    case Look(w) => ThreadKeeps(s, step, w);
    case Fetch(w) => ThreadKeeps(s, step, w);
    case TimeOut(w) => ThreadKeeps(s, step, w);
    case Inspect(w) => HolderKeeps(s, step, w);
    case Start(w) => HolderKeeps(s, step, w);
    case Return(w) => HolderKeeps(s, step, w);
    case Withdraw(f) => WithdrawKeeps(s, f);
  }

  lemma {:induction false} RunKeeps(s: Executor, steps: seq<Step>)
    requires Inv(s) && IsRun(s, steps)
    ensures Inv(RunOf(s, steps))
    decreases |steps|
  {
    hide Inv, CanStep, Next;
    if steps != [] {
      NextKeeps(s, steps[0]);
      RunKeeps(Next(s, steps[0]), steps[1..]);
    }
  }

  // ---------- Conservation over runs ----------

  ghost function HeldFutures(threads: seq<Thread>): set<Future> {
    set w | 0 <= w < |threads| && threads[w].Holds() :: threads[w].future
  }

  lemma {:induction false} HeldIsBounded(threads: seq<Thread>)
    ensures |HeldFutures(threads)| <= |threads|
    ensures forall f :: f in HeldFutures(threads) <==> Held(threads, f)
  {
    if threads != [] {
      var last := |threads| - 1;
      HeldIsBounded(threads[..last]);
      var here := if threads[last].Holds() then {threads[last].future} else {};
      assert HeldFutures(threads) == HeldFutures(threads[..last]) + here;
    }
    forall f | Held(threads, f) ensures f in HeldFutures(threads) {
      var w :| 0 <= w < |threads| && threads[w].Has(f);
    }
  }

  function One(b: bool): nat {
    if b then 1 else 0
  }

  /** In every reachable state an accepted future is in exactly one of: one queue slot, one thread, the hands of the
      shutdown, or settled and gone; a future that is still inside is settled only if its caller withdrew it. */
  lemma Conservation(maxWorkers: nat, maxPending: nat, steps: seq<Step>, f: Future)
    requires IsRun(Init(maxWorkers, maxPending), steps)
    requires f in RunOf(Init(maxWorkers, maxPending), steps).futures
    ensures
      var s := RunOf(Init(maxWorkers, maxPending), steps);
      && One(f in s.work) + One(Held(s.threads, f)) + One(InDrain(s.lock, f)) + One(!Inside(s, f) && s.futures[f].Done()) == 1
      && (forall i, j | 0 <= i < j < |s.work| :: !(s.work[i] == f == s.work[j]))
      && (forall v, w | 0 <= v < w < |s.threads| :: !(s.threads[v].Has(f) && s.threads[w].Has(f)))
      && (Inside(s, f) ==> (s.futures[f].Done() <==> f in s.withdrawn))
  {
    var s := RunOf(Init(maxWorkers, maxPending), steps);
    InitOk(maxWorkers, maxPending);
    RunKeeps(Init(maxWorkers, maxPending), steps);
    assert StatusOk(s, f);
    forall v, w | 0 <= v < w < |s.threads| ensures !(s.threads[v].Has(f) && s.threads[w].Has(f)) {
      assert !SameFuture(s.threads[v], s.threads[w]);
    }
  }

  lemma {:induction false} ThreadsAndLimitStay(s: Executor, steps: seq<Step>)
    requires IsRun(s, steps)
    ensures |RunOf(s, steps).threads| == |s.threads| && RunOf(s, steps).maxPending == s.maxPending
    decreases |steps|
  {
    if steps != [] {
      ThreadsAndLimitStay(Next(s, steps[0]), steps[1..]);
    }
  }

  /** Never more than `maxPending` futures are queued and never more than `maxWorkers` are with threads. */
  lemma Bounded(maxWorkers: nat, maxPending: nat, steps: seq<Step>)
    requires IsRun(Init(maxWorkers, maxPending), steps)
    ensures
      var s := RunOf(Init(maxWorkers, maxPending), steps);
      && |s.work| <= maxPending && |HeldFutures(s.threads)| <= maxWorkers
      && forall f :: f in HeldFutures(s.threads) <==> Held(s.threads, f)
  {
    hide CanStep, Next;
    InitOk(maxWorkers, maxPending);
    RunKeeps(Init(maxWorkers, maxPending), steps);
    ThreadsAndLimitStay(Init(maxWorkers, maxPending), steps);
    HeldIsBounded(RunOf(Init(maxWorkers, maxPending), steps).threads);
  }

  /** A function is called at most once, and only if its future was not withdrawn first; a settled future either has its
      function's outcome or was cancelled without the function being called. */
  lemma CalledAtMostOnce(maxWorkers: nat, maxPending: nat, steps: seq<Step>, f: Future)
    requires IsRun(Init(maxWorkers, maxPending), steps)
    requires f in RunOf(Init(maxWorkers, maxPending), steps).futures
    ensures
      var s := RunOf(Init(maxWorkers, maxPending), steps);
      && (forall i, j | 0 <= i < j < |s.started| :: !(s.started[i] == f == s.started[j]))
      && (f in s.withdrawn ==> f !in s.started)
      && (s.futures[f].Done() ==> (s.futures[f].Finished? <==> f in s.started))
  {
    hide CanStep, Next;
    InitOk(maxWorkers, maxPending);
    RunKeeps(Init(maxWorkers, maxPending), steps);
    assert StatusOk(RunOf(Init(maxWorkers, maxPending), steps), f);
  }

  lemma ShutdownStays(s: Executor, step: Step)
    requires CanStep(s, step) && s.shutdown
    ensures Next(s, step).shutdown && Next(s, step).futures.Keys == s.futures.Keys
  {}

  /** Once the flag is set nothing more is accepted, and whenever no shutdown is at work any more the queue is empty. */
  lemma {:induction false} NothingAfterShutdown(s: Executor, steps: seq<Step>)
    requires Inv(s) && s.shutdown && IsRun(s, steps)
    ensures
      var t := RunOf(s, steps);
      && t.shutdown && t.futures.Keys == s.futures.Keys && (t.lock.Free? ==> t.work == [])
      && (forall f | CanStep(t, Submit(f)) :: Answer(t).ShutDown? && Next(t, Submit(f)) == t)
    decreases |steps|
  {
    if steps != [] {
      NextKeeps(s, steps[0]);
      ShutdownStays(s, steps[0]);
      NothingAfterShutdown(Next(s, steps[0]), steps[1..]);
    }
  }

  /** When the shutdown is through and every thread has returned, every accepted future is settled. */
  lemma NobodyIsLeftWaiting(maxWorkers: nat, maxPending: nat, steps: seq<Step>, f: Future)
    requires IsRun(Init(maxWorkers, maxPending), steps)
    requires
      var s := RunOf(Init(maxWorkers, maxPending), steps);
      s.shutdown && s.lock.Free? && (forall w | 0 <= w < |s.threads| :: s.threads[w].Exited?) && f in s.futures
    ensures RunOf(Init(maxWorkers, maxPending), steps).futures[f].Done()
  {
    hide CanStep, Next;
    InitOk(maxWorkers, maxPending);
    RunKeeps(Init(maxWorkers, maxPending), steps);
    assert StatusOk(RunOf(Init(maxWorkers, maxPending), steps), f);
  }

  // ---------- Every accepted future gets its turn ----------

  /** The queue is the tail of what was accepted, in order. */
  predicate IsTail(accepted: seq<Future>, work: seq<Future>) {
    |work| <= |accepted| && work == accepted[|accepted| - |work|..]
  }

  /** Nothing is cancelled but by its caller or a shutdown. */
  predicate Justified(s: Executor, f: Future)
    requires f in s.futures
  {
    s.futures[f].Cancelled? || s.futures[f].Notified? ==> f in s.withdrawn || s.shutdown
  }

  ghost predicate InTurn(s: Executor) {
    && IsTail(s.accepted, s.work) && (forall f :: f in s.accepted <==> f in s.futures)
    && (forall f | f in s.futures :: Justified(s, f))
  }

  lemma QueueStaysInOrder(s: Executor, step: Step)
    requires IsTail(s.accepted, s.work) && CanStep(s, step)
    ensures IsTail(Next(s, step).accepted, Next(s, step).work)
  {
    var after, n := Next(s, step), |s.accepted| - |s.work|;
    if step.TakeOne? || step.Fetch? {
      assert after.work == after.accepted[n + 1..];
    } else {
      assert after.work == after.accepted[n..];
    }
  }

  lemma AcceptedStays(s: Executor, step: Step)
    requires (forall f :: f in s.accepted <==> f in s.futures) && CanStep(s, step)
    ensures forall f :: f in Next(s, step).accepted <==> f in Next(s, step).futures
  {}

  lemma NextIsJustified(s: Executor, step: Step, f: Future)
    requires CanStep(s, step) && (f in s.futures ==> Justified(s, f)) && (!s.shutdown ==> s.lock.Free?)
    ensures f in Next(s, step).futures ==> Justified(Next(s, step), f)
  {}

  lemma NextIsInTurn(s: Executor, step: Step)
    requires Inv(s) && InTurn(s) && CanStep(s, step)
    ensures InTurn(Next(s, step))
  {
    hide IsTail, Justified, CanStep, Next, OnePlace, Known, StatusOk;
    QueueStaysInOrder(s, step);
    AcceptedStays(s, step);
    forall f | f in Next(s, step).futures ensures Justified(Next(s, step), f) {
      NextIsJustified(s, step, f);
    }
  }

  lemma {:induction false} RunIsInTurn(s: Executor, steps: seq<Step>)
    requires Inv(s) && InTurn(s) && IsRun(s, steps)
    ensures InTurn(RunOf(s, steps))
    decreases |steps|
  {
    hide Inv, InTurn, CanStep, Next;
    if steps != [] {
      NextKeeps(s, steps[0]);
      NextIsInTurn(s, steps[0]);
      RunIsInTurn(Next(s, steps[0]), steps[1..]);
    }
  }

  /** First in, first out: in every reachable state the queue holds the futures accepted last, in their order. Whatever
      is settled was run, unless its caller withdrew it or the executor was shut down. */
  lemma FirstInFirstOut(maxWorkers: nat, maxPending: nat, steps: seq<Step>, f: Future)
    requires IsRun(Init(maxWorkers, maxPending), steps)
    requires f in RunOf(Init(maxWorkers, maxPending), steps).futures
    ensures
      var s := RunOf(Init(maxWorkers, maxPending), steps);
      && f in s.accepted && |s.work| <= |s.accepted| && s.work == s.accepted[|s.accepted| - |s.work|..]
      && (s.futures[f].Done() && f !in s.withdrawn && !s.shutdown ==> s.futures[f] == Finished && f in s.started)
  {
    hide CanStep, Next;
    var s := RunOf(Init(maxWorkers, maxPending), steps);
    InitOk(maxWorkers, maxPending);
    RunKeeps(Init(maxWorkers, maxPending), steps);
    RunIsInTurn(Init(maxWorkers, maxPending), steps);
    assert StatusOk(s, f);
  }

  // ---------- Shutdown comes to an end ----------

  function Weight(thread: Thread): nat {
    match thread
    case Checking => 1
    case Waiting => 2
    case Holding(_) => 4
    case Cleared(_) => 3
    case Executing(_) => 2
    case Exited => 0
  }

  function Weights(threads: seq<Thread>): nat {
    if threads == [] then 0 else Weights(threads[..|threads| - 1]) + Weight(threads[|threads| - 1])
  }

  lemma {:induction false} WeightsMove(threads: seq<Thread>, w: nat, thread: Thread)
    requires w < |threads|
    ensures Weights(threads[w := thread]) == Weights(threads) - Weight(threads[w]) + Weight(thread)
  {
    var last := |threads| - 1;
    var after := threads[w := thread];
    if w == last {
      assert after[..last] == threads[..last];
    } else {
      WeightsMove(threads[..last], w, thread);
      assert after[..last] == threads[..last][w := thread];
    }
  }

  /** What is left to do once the shutdown flag is set. */
  function Remaining(s: Executor): nat {
    3 * |s.work| + Weights(s.threads) + match s.lock case Free => 0 case Draining => 1 case Taken(_) => 2
  }

  /** After the flag is set, every step that is not a caller's (submitting, withdrawing, shutting down again) uses up work
      that is never replaced, so all threads return after at most that many steps once running functions return. */
  lemma ShutdownProgresses(s: Executor, step: Step)
    requires CanStep(s, step) && s.shutdown
    ensures
      if step.Submit? || step.Withdraw? then Remaining(Next(s, step)) == Remaining(s)
      else step.BeginShutdown? || Remaining(Next(s, step)) < Remaining(s)
  {
    match step
    case Look(w) => WeightsMove(s.threads, w, Next(s, step).threads[w]);
    case Fetch(w) => WeightsMove(s.threads, w, Next(s, step).threads[w]);
    case TimeOut(w) => WeightsMove(s.threads, w, Next(s, step).threads[w]);
    case Inspect(w) => WeightsMove(s.threads, w, Next(s, step).threads[w]);
    case Start(w) => WeightsMove(s.threads, w, Next(s, step).threads[w]);
    case Return(w) => WeightsMove(s.threads, w, Next(s, step).threads[w]);
    case _ =>
  }

  /** While anything is left to do, some thread or the shutdown can step. */
  lemma {:induction false} ShutdownIsNeverStuck(s: Executor)
    requires Inv(s) && Remaining(s) > 0 && s.shutdown
    ensures exists step :: CanStep(s, step) && !step.Submit? && !step.Withdraw? && !step.BeginShutdown?
  {
    if s.lock.Taken? {
      assert Inside(s, s.lock.future);
      assert CanStep(s, CancelTaken);
    } else if s.lock.Draining? {
      assert CanStep(s, if s.work == [] then EndShutdown else TakeOne);
    } else {
      var w := BusyThread(s.threads);
      var thread := s.threads[w];
      if thread.Holds() {
        HasIsHeld(s.threads, w, thread.future);
        assert Inside(s, thread.future);
      }
      assert CanStep(s, match thread
                        case Checking => Look(w)
                        case Waiting => TimeOut(w)
                        case Holding(_) => Inspect(w)
                        case Cleared(_) => Start(w)
                        case _ => Return(w));
    }
  }

  lemma {:induction false} BusyThread(threads: seq<Thread>) returns (w: nat)
    requires Weights(threads) > 0
    ensures w < |threads| && !threads[w].Exited?
  {
    if threads[|threads| - 1].Exited? {
      w := BusyThread(threads[..|threads| - 1]);
    } else {
      w := |threads| - 1;
    }
  }

  // ---------- The executor as an object ----------

  /** `_BoundedDaemonExecutor`; each method is one thread's turn with no other thread stepping in between. */
  class BoundedDaemonExecutor {
    const maxPending: nat
    var work: seq<Future>
    var shutdownSet: bool
    var threads: seq<Thread>
    var futures: map<Future, Status>
    var accepted: seq<Future>
    var started: seq<Future>
    var withdrawn: set<Future>

    constructor (maxWorkers: nat, maxPending: nat)
      requires maxWorkers > 0 && maxPending > 0
      ensures View() == Init(maxWorkers, maxPending)
    {
      this.maxPending := maxPending;
      work, shutdownSet, threads, futures := [], false, seq(maxWorkers, _ => Checking), map[];
      accepted, started, withdrawn := [], [], {};
    }

    function View(): Executor
      reads this
    {
      Executor(maxPending, work, shutdownSet, Free, threads, futures, accepted, started, withdrawn)
    }

    /** `submit`, with the future it makes. */
    method Submit(f: Future) returns (answer: Submission)
      requires f !in futures
      modifies this`work, this`futures, this`accepted
      ensures answer == Answer(old(View())) && View() == Next(old(View()), Step.Submit(f))
      ensures answer == if shutdownSet then ShutDown
                        else if |old(work)| < maxPending then Accepted else CapacityExhausted
      ensures if answer == Accepted then work == old(work) + [f] && futures == old(futures)[f := Pending]
              else work == old(work) && futures == old(futures)
    {
      if shutdownSet {
        return ShutDown;
      }
      if |work| >= maxPending {
        return CapacityExhausted;
      }
      work, futures := work + [f], futures[f := Pending];
      accepted := accepted + [f];
      return Accepted;
    }

    /** `shutdown`: the flag, then future after future off the queue and cancelled. */
    method Shutdown()
      requires forall f | f in work :: f in futures
      modifies this`work, this`futures, this`shutdownSet
      ensures IsRun(old(View()), ShutdownSteps(|old(work)|))
      ensures View() == RunOf(old(View()), ShutdownSteps(|old(work)|))
      ensures shutdownSet && work == [] && futures.Keys == old(futures).Keys
      ensures forall f | f in old(futures) ::
                futures[f] == if f in old(work) && old(futures)[f] == Pending then Cancelled else old(futures)[f]
    {
      hide IsRun, RunOf, CanStep, Next;
      ShutdownEffect(View());
      shutdownSet := true;
      ghost var cancelled := CancelAll(futures, work);
      while work != []
        invariant shutdownSet && (forall f | f in work :: f in futures) && CancelAll(futures, work) == cancelled
      {
        var f := work[0];
        work := work[1..];
        futures := futures[f := futures[f].Cancel()];
      }
    }

    /** One round of `_worker` on thread `w`, whose function returns or raises; either settles the future. */
    method WorkerRound(w: nat)
      requires w < |threads| && threads[w].Checking? && Inv(View())
      modifies this`work, this`futures, this`threads, this`started
      ensures IsRun(old(View()), RoundSteps(old(View()), w)) && View() == RunOf(old(View()), RoundSteps(old(View()), w))
      ensures threads == if shutdownSet then old(threads)[w := Exited] else old(threads)
      ensures if shutdownSet || old(work) == [] then
                work == old(work) && futures == old(futures) && started == old(started)
              else
                var f := old(work)[0];
                && f in old(futures) && work == old(work)[1..]
                && futures == old(futures)[f := if old(futures)[f] == Cancelled then Notified else Finished]
                && started == old(started) + if old(futures)[f] == Cancelled then [] else [f]
    {
      ghost var before := View();
      RoundIsRun(before, w);
      if shutdownSet {
        threads := threads[w := Exited];
        return;
      }
      if work == [] {
        return;
      }
      var f := work[0];
      work := work[1..];
      if futures[f].Cancelled? {
        futures := futures[f := Notified];
      } else {
        started := started + [f];
        futures := futures[f := Finished];
      }
    }

    /** `Future.cancel` by the caller that submitted it. */
    method Withdraw(f: Future)
      requires f in futures
      modifies this`futures, this`withdrawn
      ensures View() == Next(old(View()), Step.Withdraw(f))
      ensures futures == if old(futures)[f] == Pending then old(futures)[f := Cancelled] else old(futures)
      ensures withdrawn == old(withdrawn) + if old(futures)[f] == Pending then {f} else {}
    {
      if futures[f].Pending? {
        withdrawn := withdrawn + {f};
        futures := futures[f := Cancelled];
      }
      assert old(View()).futures[f := old(View()).futures[f].Cancel()] == futures;
    }
  }

  function RoundSteps(s: Executor, w: nat): seq<Step> {
    if s.shutdown then [Look(w)]
    else if s.work == [] then [Look(w), TimeOut(w)]
    else if s.work[0] in s.futures && s.futures[s.work[0]].Cancelled? then [Look(w), Fetch(w), Inspect(w), Start(w)]
    else [Look(w), Fetch(w), Inspect(w), Start(w), Return(w)]
  }

  /** What a round without interference comes to. */
  lemma RoundIsRun(s: Executor, w: nat)
    requires w < |s.threads| && s.threads[w].Checking? && Inv(s)
    ensures IsRun(s, RoundSteps(s, w))
    ensures RunOf(s, RoundSteps(s, w)) ==
            if s.shutdown then Move(s, w, Exited)
            else if s.work == [] then s
            else if s.futures[s.work[0]].Cancelled? then
              s.(work := s.work[1..], futures := s.futures[s.work[0] := Notified])
            else s.(work := s.work[1..], futures := s.futures[s.work[0] := Finished], started := s.started + [s.work[0]])
  {
    var steps := RoundSteps(s, w);
    if s.shutdown || s.work == [] {
      RunSplit(s, steps);
      RunSplit(Next(s, Look(w)), steps[1..]);
      assert s.work == [] && !s.shutdown ==> s.threads[w := Checking] == s.threads;
    } else {
      assert Inside(s, s.work[0]) && StatusOk(s, s.work[0]);
      ExecutedElsewhere(s.work, s.lock, s.threads);
      RoundWithFuture(s, w);
    }
  }

  lemma ExecutedElsewhere(work: seq<Future>, lock: Lock, threads: seq<Thread>)
    requires OnePlace(work, lock, threads) && work != []
    ensures !Executed(threads, work[0])
  {
    ExecutedIsHeld(threads, work[0]);
    assert work[0] in work;
  }

  lemma RoundWithFuture(s: Executor, w: nat)
    requires w < |s.threads| && s.threads[w].Checking? && !s.shutdown && s.work != [] && s.work[0] in s.futures
    ensures IsRun(s, RoundSteps(s, w))
    ensures RunOf(s, RoundSteps(s, w)) ==
            if s.futures[s.work[0]].Cancelled? then
              s.(work := s.work[1..], futures := s.futures[s.work[0] := Notified])
            else s.(work := s.work[1..], futures := s.futures[s.work[0] := Finished], started := s.started + [s.work[0]])
  {
    hide IsRun, RunOf;
    var f := s.work[0];
    var s1, s2 := Move(s, w, Waiting), s.(work := s.work[1..], threads := s.threads[w := Holding(f)]);
    var s3 := s2.(threads := s.threads[w := Cleared(f)]);
    assert s1.threads[w := Holding(f)] == s2.threads && s2.threads[w := Cleared(f)] == s3.threads;
    var ending := if s.futures[f].Cancelled? then [Start(w)] else [Start(w), Return(w)];
    LastSteps(s3, w, s.threads);
    RunPrepend(s2, Inspect(w), ending);
    RunPrepend(s1, Fetch(w), [Inspect(w)] + ending);
    RunPrepend(s, Look(w), [Fetch(w)] + ([Inspect(w)] + ending));
    assert RoundSteps(s, w) == [Look(w)] + ([Fetch(w)] + ([Inspect(w)] + ending));
  }

  lemma LastSteps(s: Executor, w: nat, threads: seq<Thread>)
    requires w < |threads| && threads[w].Checking? && CanStep(s, Start(w))
    requires s.threads == threads[w := Cleared(s.threads[w].future)]
    ensures
      var f := s.threads[w].future;
      var ending := if s.futures[f].Cancelled? then [Start(w)] else [Start(w), Return(w)];
      && IsRun(s, ending)
      && RunOf(s, ending) ==
         if s.futures[f].Cancelled? then s.(threads := threads, futures := s.futures[f := Notified])
         else s.(threads := threads, futures := s.futures[f := Finished], started := s.started + [f])
  {
    StartAndReturn(s, w, threads);
    hide IsRun, RunOf, CanStep, Next;
    var next := Next(s, Start(w));
    if s.futures[s.threads[w].future].Cancelled? {
      RunSplit(next, []);
      RunPrepend(s, Start(w), []);
      assert [Start(w)] + [] == [Start(w)];
    } else {
      RunSplit(Next(next, Return(w)), []);
      RunPrepend(next, Return(w), []);
      assert [Return(w)] + [] == [Return(w)] && [Start(w)] + [Return(w)] == [Start(w), Return(w)];
      RunPrepend(s, Start(w), [Return(w)]);
    }
  }

  lemma StartAndReturn(s: Executor, w: nat, threads: seq<Thread>)
    requires w < |threads| && threads[w].Checking? && CanStep(s, Start(w))
    requires s.threads == threads[w := Cleared(s.threads[w].future)]
    ensures
      var f, next := s.threads[w].future, Next(s, Start(w));
      if s.futures[f].Cancelled? then next == s.(threads := threads, futures := s.futures[f := Notified])
      else
        && CanStep(next, Return(w))
        && Next(next, Return(w)) ==
           s.(threads := threads, futures := s.futures[f := Finished], started := s.started + [f])
  {
    var f, next := s.threads[w].future, Next(s, Start(w));
    if s.futures[f].Cancelled? {
      assert next.threads == threads;
    } else {
      assert Next(next, Return(w)).threads == threads;
      assert Next(next, Return(w)).futures == s.futures[f := Finished];
    }
  }

  lemma RunPrepend(s: Executor, step: Step, rest: seq<Step>)
    requires CanStep(s, step) && IsRun(Next(s, step), rest)
    ensures IsRun(s, [step] + rest) && RunOf(s, [step] + rest) == RunOf(Next(s, step), rest)
  {}

  lemma RunSplit(s: Executor, steps: seq<Step>)
    ensures IsRun(s, steps) <==> steps == [] || (CanStep(s, steps[0]) && IsRun(Next(s, steps[0]), steps[1..]))
    ensures IsRun(s, steps) ==> RunOf(s, steps) == if steps == [] then s else RunOf(Next(s, steps[0]), steps[1..])
  {}

  function DrainSteps(n: nat): seq<Step> {
    if n == 0 then [EndShutdown] else [TakeOne, CancelTaken] + DrainSteps(n - 1)
  }

  function ShutdownSteps(n: nat): seq<Step> {
    [BeginShutdown] + DrainSteps(n)
  }

  function CancelAll(futures: map<Future, Status>, work: seq<Future>): map<Future, Status>
    requires forall f | f in work :: f in futures
  {
    if work == [] then futures else CancelAll(futures[work[0] := futures[work[0]].Cancel()], work[1..])
  }

  /** Cancelling one queued future after another cancels exactly the queued ones still pending. */
  lemma {:induction false} CancelAllCancels(futures: map<Future, Status>, work: seq<Future>)
    requires forall f | f in work :: f in futures
    ensures CancelAll(futures, work).Keys == futures.Keys
    ensures forall f | f in futures :: CancelAll(futures, work)[f] == if f in work then futures[f].Cancel() else futures[f]
    decreases |work|
  {
    if work != [] {
      assert work == [work[0]] + work[1..];
      CancelAllCancels(futures[work[0] := futures[work[0]].Cancel()], work[1..]);
    }
  }

  /** A shutdown without interference leaves nothing queued and cancels exactly the queued futures still pending. */
  lemma ShutdownEffect(s: Executor)
    requires s.lock.Free? && forall f | f in s.work :: f in s.futures
    ensures IsRun(s, ShutdownSteps(|s.work|))
    ensures RunOf(s, ShutdownSteps(|s.work|)) == s.(work := [], shutdown := true, futures := CancelAll(s.futures, s.work))
    ensures CancelAll(s.futures, s.work).Keys == s.futures.Keys
    ensures forall f | f in s.futures ::
              CancelAll(s.futures, s.work)[f] == if f in s.work then s.futures[f].Cancel() else s.futures[f]
  {
    CancelAllCancels(s.futures, s.work);
    DrainEffect(s.(shutdown := true, lock := Draining));
    hide IsRun, RunOf;
    RunPrepend(s, BeginShutdown, DrainSteps(|s.work|));
  }

  lemma {:induction false} DrainEffect(s: Executor)
    requires s.lock.Draining? && forall f | f in s.work :: f in s.futures
    ensures IsRun(s, DrainSteps(|s.work|))
    ensures RunOf(s, DrainSteps(|s.work|)) == s.(work := [], lock := Free, futures := CancelAll(s.futures, s.work))
    decreases |s.work|
  {
    hide IsRun, RunOf;
    if s.work == [] {
      RunSplit(Next(s, EndShutdown), []);
      RunPrepend(s, EndShutdown, []);
      assert [EndShutdown] + [] == DrainSteps(0);
    } else {
      var taken := Next(s, TakeOne);
      var rest := Next(taken, CancelTaken);
      var steps := DrainSteps(|rest.work|);
      assert s.work == [s.work[0]] + rest.work;
      DrainEffect(rest);
      RunPrepend(taken, CancelTaken, steps);
      RunPrepend(s, TakeOne, [CancelTaken] + steps);
      assert DrainSteps(|s.work|) == [TakeOne] + ([CancelTaken] + steps);
    }
  }
}
