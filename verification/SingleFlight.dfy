/**
 * Single-flight coalescing of one event loop (Redis off): concurrent misses of one lookup key share one execution of
 * its node. A step is a stretch between two awaits.
 */
module SingleFlight {
  import opened Wrappers

  type Key(==, !new) = string
  type Future = nat

  datatype Pc = Idle | Waiting(key: Key, future: Future) | Running(key: Key, future: Future)

  /**
   * `cached` holds the keys with a live entry. `started` counts node executions; `disturbed` has the keys whose entry
   * expired or was evicted or whose capability did not resolve; `served` those some task got a result for.
   */
  datatype Loop = Loop(cached: set<Key>, inflight: map<Key, Future>, resolved: set<Future>, created: nat, pcs: seq<Pc>,
                       started: multiset<Key>, disturbed: set<Key>, served: set<Key>)

  datatype Step = Enter(task: nat, key: Key) | Wake(task: nat) | Finish(task: nat, resolvable: bool) | Drop(key: Key)

  /** Look up; on a miss join the flight, or take off as its owner. */
  function LookupOrFly(s: Loop, t: nat, key: Key): Loop
    requires t < |s.pcs|
  {
    if key in s.cached then s.(pcs := s.pcs[t := Idle], served := s.served + {key})
    else if key in s.inflight then s.(pcs := s.pcs[t := Waiting(key, s.inflight[key])])
    else
      s.(inflight := s.inflight[key := s.created], created := s.created + 1, started := s.started + multiset{key},
         pcs := s.pcs[t := Running(key, s.created)])
  }

  /** `_finish_inflight`. */
  function Resolve(s: Loop, key: Key, future: Future): Loop {
    s.(resolved := s.resolved + {future},
       inflight := if key in s.inflight && s.inflight[key] == future then s.inflight - {key} else s.inflight)
  }

  function Next(s: Loop, step: Step): Loop {
    match step
    case Enter(t, key) => if t < |s.pcs| && s.pcs[t].Idle? then LookupOrFly(s, t, key) else s
    case Wake(t) =>
      if t < |s.pcs| && s.pcs[t].Waiting? && s.pcs[t].future in s.resolved then LookupOrFly(s, t, s.pcs[t].key) else s
    case Finish(t, resolvable) =>
      if t < |s.pcs| && s.pcs[t].Running? then
        var key := s.pcs[t].key;
        Resolve(s, key, s.pcs[t].future).(
          pcs := s.pcs[t := Idle],
          cached := if resolvable then s.cached + {key} else s.cached,
          served := if resolvable then s.served + {key} else s.served,
          disturbed := if resolvable then s.disturbed else s.disturbed + {key})
      else s
    case Drop(key) => s.(cached := s.cached - {key}, disturbed := s.disturbed + {key})
  }

  ghost predicate Init(s: Loop) {
    && s.cached == {} && s.inflight == map[] && s.resolved == {} && s.started == multiset{}
    && s.disturbed == {} && s.served == {} && forall t | 0 <= t < |s.pcs| :: s.pcs[t].Idle?
  }

  predicate Owns(s: Loop, t: int, key: Key) {
    0 <= t < |s.pcs| && s.pcs[t].Running? && s.pcs[t].key == key && key in s.inflight && s.inflight[key] == s.pcs[t].future
  }

  ghost predicate FlightsOk(s: Loop) {
    && (forall t | 0 <= t < |s.pcs| && s.pcs[t].Running? :: Owns(s, t, s.pcs[t].key))
    && (forall t, u | 0 <= t < u < |s.pcs| && s.pcs[t].Running? && s.pcs[u].Running? :: s.pcs[t].key != s.pcs[u].key)
    && (forall k | k in s.inflight :: k !in s.cached && exists t :: Owns(s, t, k))
    && (forall t | 0 <= t < |s.pcs| && s.pcs[t].Waiting? ::
          s.pcs[t].future in s.resolved ||
          (s.pcs[t].key in s.inflight && s.inflight[s.pcs[t].key] == s.pcs[t].future))
  }

  ghost predicate FuturesOk(s: Loop) {
    && (forall f | f in s.resolved :: f < s.created)
    && (forall k | k in s.inflight :: s.inflight[k] < s.created && s.inflight[k] !in s.resolved)
    && (forall j, k | j in s.inflight && k in s.inflight && s.inflight[j] == s.inflight[k] :: j == k)
  }

  ghost predicate CountsOk(s: Loop) {
    forall k :: k !in s.disturbed ==>
      && s.started[k] == (if k in s.cached || k in s.inflight then 1 else 0)
      && (k in s.served ==> k in s.cached)
  }

  ghost predicate Inv(s: Loop) {
    FlightsOk(s) && FuturesOk(s) && CountsOk(s)
  }

  /** A task that is no owner moves on without touching any flight. */
  lemma NonOwnerMoves(s: Loop, t: nat, pc: Pc)
    requires FlightsOk(s) && t < |s.pcs| && !s.pcs[t].Running? && !pc.Running?
    requires pc.Waiting? ==> pc.key in s.inflight && s.inflight[pc.key] == pc.future
    ensures FlightsOk(s.(pcs := s.pcs[t := pc]))
  {
    var s' := s.(pcs := s.pcs[t := pc]);
    forall k | k in s'.inflight ensures exists u :: Owns(s', u, k) {
      var u :| Owns(s, u, k);
      assert Owns(s', u, k);
    }
    forall u | 0 <= u < |s'.pcs| && s'.pcs[u].Running? ensures Owns(s', u, s'.pcs[u].key) {
      assert Owns(s, u, s.pcs[u].key);
    }
  }

  /** Taking off: a new flight whose owner is this task. */
  lemma TakesOff(s: Loop, t: nat, key: Key)
    requires FlightsOk(s) && t < |s.pcs| && !s.pcs[t].Running? && key !in s.cached && key !in s.inflight
    ensures FlightsOk(s.(inflight := s.inflight[key := s.created], pcs := s.pcs[t := Running(key, s.created)]))
  {
    var s' := s.(inflight := s.inflight[key := s.created], pcs := s.pcs[t := Running(key, s.created)]);
    forall k | k in s'.inflight ensures exists u :: Owns(s', u, k) {
      if k != key {
        var u :| Owns(s, u, k);
        assert Owns(s', u, k);
      } else {
        assert Owns(s', t, k);
      }
    }
    forall u | 0 <= u < |s'.pcs| && s'.pcs[u].Running? ensures Owns(s', u, s'.pcs[u].key) {
      if u != t {
        assert Owns(s, u, s.pcs[u].key);
      }
    }
  }

  /** Counters and histories do not matter to the flights. */
  lemma SameFlights(a: Loop, b: Loop)
    requires FlightsOk(a) && b.pcs == a.pcs && b.inflight == a.inflight && b.cached == a.cached && b.resolved == a.resolved
    ensures FlightsOk(b)
  {
    forall t, k | Owns(a, t, k) ensures Owns(b, t, k) {}
    forall t, k | Owns(b, t, k) ensures Owns(a, t, k) {}
  }

  lemma LookupOrFlyKeepsFlights(s: Loop, t: nat, key: Key)
    requires FlightsOk(s) && t < |s.pcs| && !s.pcs[t].Running?
    ensures FlightsOk(LookupOrFly(s, t, key))
  {
    hide FlightsOk;
    if key in s.cached {
      NonOwnerMoves(s, t, Idle);
      SameFlights(s.(pcs := s.pcs[t := Idle]), LookupOrFly(s, t, key));
    } else if key in s.inflight {
      NonOwnerMoves(s, t, Waiting(key, s.inflight[key]));
    } else {
      TakesOff(s, t, key);
      SameFlights(s.(inflight := s.inflight[key := s.created], pcs := s.pcs[t := Running(key, s.created)]),
                  LookupOrFly(s, t, key));
    }
  }

  lemma LookupOrFlyKeeps(s: Loop, t: nat, key: Key)
    requires Inv(s) && t < |s.pcs| && !s.pcs[t].Running?
    ensures Inv(LookupOrFly(s, t, key))
  {
    LookupOrFlyKeepsFlights(s, t, key);
    hide FlightsOk;
  }

  lemma FinishKeepsFlights(s: Loop, t: nat, resolvable: bool)
    requires FlightsOk(s) && FuturesOk(s) && t < |s.pcs| && s.pcs[t].Running?
    ensures FlightsOk(Next(s, Finish(t, resolvable)))
  {
    var s' := Next(s, Finish(t, resolvable));
    assert Owns(s, t, s.pcs[t].key);
    forall k | k in s'.inflight ensures exists u :: Owns(s', u, k) {
      var u :| Owns(s, u, k);
      assert Owns(s', u, k);
    }
    forall u | 0 <= u < |s'.pcs| && s'.pcs[u].Running? ensures Owns(s', u, s'.pcs[u].key) {
      assert Owns(s, u, s.pcs[u].key);
    }
  }

  lemma FinishKeeps(s: Loop, t: nat, resolvable: bool)
    requires Inv(s) && t < |s.pcs| && s.pcs[t].Running?
    ensures Inv(Next(s, Finish(t, resolvable)))
  {
    FinishKeepsFlights(s, t, resolvable);
    assert Owns(s, t, s.pcs[t].key) && s.pcs[t].key !in s.cached;
    hide FlightsOk;
  }

  lemma NextKeepsInv(s: Loop, step: Step)
    requires Inv(s)
    ensures Inv(Next(s, step))
  {
    match step {
      case Enter(t, key) =>
        if t < |s.pcs| && s.pcs[t].Idle? {
          LookupOrFlyKeeps(s, t, key);
        }
      case Wake(t) =>
        if t < |s.pcs| && s.pcs[t].Waiting? && s.pcs[t].future in s.resolved {
          LookupOrFlyKeeps(s, t, s.pcs[t].key);
        }
      case Finish(t, resolvable) =>
        if t < |s.pcs| && s.pcs[t].Running? {
          FinishKeeps(s, t, resolvable);
        }
      case Drop(key) =>
        var s' := Next(s, step);
        forall k | k in s'.inflight ensures exists u :: Owns(s', u, k) {
          var u :| Owns(s, u, k);
          assert Owns(s', u, k);
        }
    }
  }

  // ---------- Runs ----------

  ghost function After(s: Loop, steps: seq<Step>): Loop
    decreases |steps|
  {
    if steps == [] then s else Next(After(s, steps[..|steps| - 1]), steps[|steps| - 1])
  }

  lemma {:induction false} RunKeepsInv(s: Loop, steps: seq<Step>)
    requires Init(s)
    ensures Inv(After(s, steps))
    decreases |steps|
  {
    if steps != [] {
      RunKeepsInv(s, steps[..|steps| - 1]);
      NextKeepsInv(After(s, steps[..|steps| - 1]), steps[|steps| - 1]);
    }
  }

  /**
   * In every reachable state at most one task runs the node of a key, and every waiter's future is either resolved or
   * owned by a task that is running that key's node, so no wake-up is lost.
   */
  lemma OneOwnerPerKey(s0: Loop, steps: seq<Step>, key: Key)
    requires Init(s0)
    ensures
      var s := After(s0, steps);
      && (forall t, u | 0 <= t < |s.pcs| && 0 <= u < |s.pcs| && s.pcs[t].Running? && s.pcs[u].Running? &&
            s.pcs[t].key == s.pcs[u].key :: t == u)
      && (forall t | 0 <= t < |s.pcs| && s.pcs[t].Waiting? ::
            s.pcs[t].future in s.resolved ||
            exists u :: Owns(s, u, s.pcs[t].key) && s.pcs[u].future == s.pcs[t].future)
  {
    RunKeepsInv(s0, steps);
    var s := After(s0, steps);
    forall t | 0 <= t < |s.pcs| && s.pcs[t].Waiting? && s.pcs[t].future !in s.resolved
      ensures exists u :: Owns(s, u, s.pcs[t].key) && s.pcs[u].future == s.pcs[t].future
    {
      var u :| Owns(s, u, s.pcs[t].key);
    }
  }

  /** A key that always resolves and whose entry is never dropped is computed exactly once, however many tasks want it. */
  lemma ComputedExactlyOnce(s0: Loop, steps: seq<Step>, key: Key)
    requires Init(s0)
    ensures
      var s := After(s0, steps);
      key !in s.disturbed ==> s.started[key] <= 1 && (key in s.served ==> s.started[key] == 1 && key in s.cached)
  {
    RunKeepsInv(s0, steps);
  }

  /**
   * A task that asks for a key, or goes on after waiting for its flight or running its node, has the key's result when
   * it is through, unless the key was disturbed.
   */
  lemma NobodyLeavesEmptyHanded(s: Loop, step: Step, t: nat, key: Key)
    requires t < |s.pcs| && (if s.pcs[t].Idle? then step == Enter(t, key) else s.pcs[t].key == key)
    requires t < |Next(s, step).pcs| && Next(s, step).pcs[t].Idle?
    ensures key in Next(s, step).served || key in Next(s, step).disturbed
  {}

  lemma WakingMoves(s: Loop, t: nat)
    requires Inv(s) && t < |s.pcs| && s.pcs[t].Waiting? && s.pcs[t].future in s.resolved
    ensures Next(s, Wake(t)).pcs[t] != s.pcs[t]
  {}

  /** While any task is unfinished, some task can take a step: an owner can finish or a waiter can wake up. */
  lemma NeverStuck(s0: Loop, steps: seq<Step>, t: nat) returns (step: Step)
    requires Init(s0) && t < |After(s0, steps).pcs| && !After(s0, steps).pcs[t].Idle?
    ensures Next(After(s0, steps), step) != After(s0, steps)
  {
    hide FuturesOk, CountsOk;
    RunKeepsInv(s0, steps);
    var s := After(s0, steps);
    if s.pcs[t].Running? {
      step := Finish(t, true);
      assert Next(s, step).pcs[t].Idle?;
    } else if s.pcs[t].future in s.resolved {
      step := Wake(t);
      WakingMoves(s, t);
    } else {
      var u :| Owns(s, u, s.pcs[t].key);
      step := Finish(u, true);
      assert Next(s, step).pcs[u].Idle?;
    }
  }

  // ---------- The table of flights as an object ----------

  /** The executor's `_inflight` dictionary; futures are numbered as they are created. */
  class InFlight {
    var inflight: map<Key, Future>
    var resolved: set<Future>
    var created: nat

    constructor ()
      ensures inflight == map[] && resolved == {} && created == 0
    {
      inflight, resolved, created := map[], {}, 0;
    }

    predicate Matches(s: Loop)
      reads this
    {
      s.inflight == inflight && s.resolved == resolved && s.created == created
    }

    /** `_await_inflight_or_own` for a task that has just missed the cache. */
    method AwaitInflightOrOwn(key: Key, ghost s: Loop, ghost t: nat) returns (isOwner: bool, future: Future)
      requires Matches(s) && t < |s.pcs| && key !in s.cached
      modifies this`inflight, this`created
      ensures Matches(LookupOrFly(s, t, key))
      ensures LookupOrFly(s, t, key).pcs[t] == if isOwner then Running(key, future) else Waiting(key, future)
      ensures isOwner == (key !in old(inflight)) && future == if isOwner then old(created) else old(inflight)[key]
      ensures created == old(created) + (if isOwner then 1 else 0)
      ensures inflight == if isOwner then old(inflight)[key := future] else old(inflight)
    {
      if key in inflight {
        return false, inflight[key];
      }
      future := created;
      created := created + 1;
      inflight := inflight[key := future];
      return true, future;
    }

    /** `_finish_inflight`: resolve, and take the flight off the table unless another one has replaced it. */
    method FinishInflight(key: Key, future: Option<Future>, ghost s: Loop)
      requires Matches(s)
      modifies this`inflight, this`resolved
      ensures Matches(if future.Some? then Resolve(s, key, future.value) else s)
      ensures resolved == old(resolved) + (if future.Some? then {future.value} else {})
      ensures inflight == if future.Some? && key in old(inflight) && old(inflight)[key] == future.value
                          then old(inflight) - {key} else old(inflight)
    {
      if future.None? {
        return;
      }
      if future.value !in resolved {
        resolved := resolved + {future.value};
      }
      if key in inflight && inflight[key] == future.value {
        inflight := inflight - {key};
      }
    }
  }

  // ---------- What breaks it ----------

  /** An owner cancelled while its node runs: only Exception is caught, so the future is never resolved. */
  function CancelOwner(s: Loop, t: nat): Loop
    requires t < |s.pcs| && s.pcs[t].Running?
  {
    s.(pcs := s.pcs[t := Idle])
  }

  /** The flight of the key is registered, unresolved, and nobody runs its node. */
  ghost predicate Orphaned(s: Loop, key: Key) {
    && key in s.inflight && key !in s.cached && s.inflight[key] !in s.resolved && s.inflight[key] < s.created
    && (forall t | 0 <= t < |s.pcs| && s.pcs[t].Running? ::
          s.pcs[t].key != key && s.pcs[t].future != s.inflight[key] && s.pcs[t].future < s.created)
  }

  lemma CancellingOrphans(s0: Loop, steps: seq<Step>, t: nat)
    requires Init(s0) && t < |After(s0, steps).pcs| && After(s0, steps).pcs[t].Running?
    ensures Orphaned(CancelOwner(After(s0, steps), t), After(s0, steps).pcs[t].key)
  {
    RunKeepsInv(s0, steps);
    var s := After(s0, steps);
    forall u | 0 <= u < |s.pcs| && s.pcs[u].Running? ensures Owns(s, u, s.pcs[u].key) {}
  }

  lemma OrphanStays(s: Loop, step: Step, key: Key)
    requires Orphaned(s, key)
    ensures Orphaned(Next(s, step), key) && Next(s, step).inflight[key] == s.inflight[key]
  {}

  /** An orphaned flight stays one for ever, and so does every task that waits for it or comes to wait for it. */
  lemma OrphansStay(s: Loop, step: Step, key: Key)
    requires Orphaned(s, key)
    ensures Orphaned(Next(s, step), key) && Next(s, step).started[key] == s.started[key]
    ensures forall t | 0 <= t < |s.pcs| && s.pcs[t] == Waiting(key, s.inflight[key]) :: Next(s, step).pcs[t] == s.pcs[t]
    ensures step.Enter? && step.key == key && step.task < |s.pcs| && s.pcs[step.task].Idle? ==>
              Next(s, step).pcs[step.task] == Waiting(key, s.inflight[key])
  {
    OrphanStays(s, step, key);
  }

  /**
   * With Redis on, a lock-wait timeout resolves the flight before the node runs. Whenever that happens to a running
   * owner, the next idle task that enters the key becomes a second runner of the same node.
   */
  lemma EarlyResolveBreaksExclusion(s0: Loop, steps: seq<Step>, t: nat, u: nat)
    requires Init(s0) && t < |After(s0, steps).pcs| && After(s0, steps).pcs[t].Running?
    requires u < |After(s0, steps).pcs| && After(s0, steps).pcs[u].Idle?
    ensures
      var s := After(s0, steps);
      var key := s.pcs[t].key;
      var next := Next(Resolve(s, key, s.pcs[t].future), Enter(u, key));
      && next.pcs[t] == s.pcs[t] && next.pcs[u].Running? && next.pcs[u].key == key
      && next.started[key] == s.started[key] + 1
  {
    RunKeepsInv(s0, steps);
    assert Owns(After(s0, steps), t, After(s0, steps).pcs[t].key);
  }
}
