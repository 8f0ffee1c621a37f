/** The executor's loop over one worker's cache, with other tasks of the worker using the cache at every await. */
module OrganismExecutor {
  import opened Wrappers
  import opened JsonValues
  import opened Collections
  import opened ComputationCache
  import opened CacheProperties
  import opened ComputationGraph
  import opened CacheCompleteness
  import S = SharedExecution

  /** What another task may do to the cache while this one waits. */
  datatype Other =
    | Registers(key: LookupKey, state: Object, next: Option<string>, success: bool, latency: real)
    | LooksUp(key: LookupKey)
    | Finds(key: LookupKey)

  predicate IsResultOf(nodes: S.Nodes, key: LookupKey, state: Object, next: Option<string>, success: bool) {
    match nodes(key.capability, key.input, key.state)
    case None => false
    case Some(r) => state == S.Public(r.state) && next == r.next && success == r.success
  }

  /** Every stored entry is what the node makes of its key. */
  ghost predicate Sound(nodes: S.Nodes, outputs: map<Id, Entry>) {
    forall id | id in outputs ::
      IsResultOf(nodes, outputs[id].key, outputs[id].state, outputs[id].next, outputs[id].success)
  }

  predicate HonestOther(nodes: S.Nodes, other: Other) {
    other.Registers? ==> IsResultOf(nodes, other.key, other.state, other.next, other.success)
  }

  lemma RegisterIsSound(nodes: S.Nodes, c: Cache, key: LookupKey, newId: Id, entry: Entry, latency: real)
    requires Ordered(c) && (key in c.ids ==> c.ids[key] in c.nodes) && Sound(nodes, c.outputs)
    requires IsResultOf(nodes, entry.key, entry.state, entry.next, entry.success)
    ensures Sound(nodes, Register(c, key, newId, entry, latency).outputs)
  {
    hide Ordered, IsResultOf;
    SameOrder(c, WithRegistration(c, key, newId, latency));
    StoredIsOrdered(WithRegistration(c, key, newId, latency), RegisteredId(c, key, newId), entry);
  }

  /** The entry is there under its key, and while there was room nothing else changed. */
  predicate Stores(a: Cache, b: Cache, key: LookupKey, id: Id, e: Entry) {
    Holds(b, key, id, e) && (|a.outputs| < a.maxEntries ==> b.ids == a.ids[key := id] && b.outputs == a.outputs[id := e])
  }

  /** A result was registered: its key's own or a new id has it, until its TTL is over. */
  ghost predicate Registered(ttls: Ttls, a: Cache, b: Cache, key: LookupKey, newId: Id, state: Object, next: Option<string>,
                             success: bool, now: real) {
    exists ttl: int | IsTtl(ttls, key.capability, success, ttl) ::
      Stores(a, b, key, if key in a.ids then a.ids[key] else newId,
             Entry(state, next, success, Some(now + ttl as real), key, now))
  }

  /** Every entry lives at least until then. */
  ghost predicate Fresh(c: Cache, until: real) {
    forall id | id in c.outputs && c.outputs[id].expiresAt.Some? :: c.outputs[id].expiresAt.value >= until
  }

  /** No other task acts, and everything happens before `until`, which whatever is registered outlives. */
  ghost predicate Quiet(others: nat -> seq<Other>, clock: nat -> real, ttls: Ttls, until: real) {
    && (forall w :: others(w) == []) && (forall n :: clock(n) < until)
    && forall n, capability, success, ttl: int | IsTtl(ttls, capability, success, ttl) :: clock(n) + ttl as real >= until
  }

  /** The second cache links these keys and whatever the first one links, to entries that live at least until then. */
  ghost predicate Grown(a: Cache, b: Cache, keys: seq<LookupKey>, until: real) {
    && Fresh(b, until) && a.ids.Keys <= b.ids.Keys && (forall k | k in keys :: k in b.ids)
    && b.maxEntries == a.maxEntries && |b.outputs| <= |a.outputs| + |keys|
  }

  ghost predicate AlwaysQuiet(others: (nat, nat) -> seq<Other>, clock: (nat, nat) -> real, ttls: Ttls, until: real) {
    && (forall h, w :: others(h, w) == []) && (forall h, n :: clock(h, n) < until)
    && forall h, n, capability, success, ttl: int | IsTtl(ttls, capability, success, ttl) ::
         clock(h, n) + ttl as real >= until
  }

  lemma HopIsQuiet(others: (nat, nat) -> seq<Other>, clock: (nat, nat) -> real, ttls: Ttls, until: real, h: nat,
                   hopOthers: nat -> seq<Other>, hopClock: nat -> real)
    requires (forall w :: hopOthers(w) == others(h, w)) && forall n :: hopClock(n) == clock(h, n)
    ensures AlwaysQuiet(others, clock, ttls, until) ==> Quiet(hopOthers, hopClock, ttls, until)
  {
    hide IsTtl;
  }

  lemma QuietIsAlone(others: nat -> seq<Other>, clock: nat -> real, ttls: Ttls, until: real)
    requires Quiet(others, clock, ttls, until)
    ensures forall w :: others(w) == []
  {
    hide IsTtl;
  }

  lemma FreshAnswers(c: Cache, key: LookupKey, until: real, now: real)
    requires Coherent(c) && Fresh(c, until) && now < until
    ensures Answers(c, key, now) <==> key in c.ids
  {
    hide Ordered;
    if key in c.ids {
      var id := c.ids[key];
      assert id in c.outputs && AliveAt(c.outputs[id].expiresAt, now);
    }
  }

  /** In an undisturbed stretch a key is answered exactly when it is linked. */
  lemma QuietAnswers(c: Cache, key: LookupKey, others: nat -> seq<Other>, clock: nat -> real, ttls: Ttls, until: real)
    requires Coherent(c) && Quiet(others, clock, ttls, until) && Fresh(c, until)
    ensures forall n :: Answers(c, key, clock(n)) <==> key in c.ids
  {
    hide IsTtl, Coherent, Fresh, Answers;
    forall n: nat ensures Answers(c, key, clock(n)) <==> key in c.ids {
      FreshAnswers(c, key, until, clock(n));
    }
  }

  /** All these keys are linked. */
  ghost predicate Knows(c: Cache, keys: seq<LookupKey>) {
    forall k | k in keys :: k in c.ids
  }

  /**
   * What an undisturbed stretch along these keys does: with room for them it leaves them all linked; where they all were
   * linked, it leaves everything and takes no cold step.
   */
  ghost predicate Shares(a: Cache, b: Cache, path: seq<LookupKey>, coldBefore: nat, coldAfter: nat, until: real) {
    && (|a.outputs| + |path| <= a.maxEntries ==> Grown(a, b, path, until))
    && (Knows(a, path) ==> coldAfter == coldBefore && b.ids == a.ids && b.outputs == a.outputs)
  }

  lemma SharesMore(a: Cache, b: Cache, c: Cache, path: seq<LookupKey>, more: seq<LookupKey>, cold: nat, cold': nat,
                   cold'': nat, until: real)
    ensures Shares(a, b, path, cold, cold', until) && (Fresh(b, until) ==> Shares(b, c, more, cold', cold'', until)) ==>
              Fresh(a, until) ==> Shares(a, c, path + more, cold, cold'', until)
  {
    if !Fresh(a, until) || !Shares(a, b, path, cold, cold', until)
       || (Fresh(b, until) && !Shares(b, c, more, cold', cold'', until)) {
      return;
    }
    if |a.outputs| + |path + more| <= a.maxEntries {
      GrownMore(a, b, c, path, more, until);
    }
    if Knows(a, path + more) {
      assert forall k | k in path :: k in path + more;
      assert forall k | k in more :: k in path + more;
    }
  }

  /** A hop that was answered. */
  lemma WarmShares(a: Cache, b: Cache, key: LookupKey, cold: nat, until: real)
    requires Fresh(a, until) && b.ids == a.ids && b.outputs == a.outputs && b.maxEntries == a.maxEntries && key in a.ids
    ensures Shares(a, b, [key], cold, cold, until)
  {}

  /** A hop that found no node. */
  lemma NothingShares(a: Cache, b: Cache, cold: nat, until: real)
    requires b.ids == a.ids && b.outputs == a.outputs && b.maxEntries == a.maxEntries
    ensures Fresh(a, until) ==> Shares(a, b, [], cold, cold, until)
  {}

  /** A hop that missed and ran its node. */
  lemma ColdShares(ttls: Ttls, first: Cache, waited: Cache, after: Cache, key: LookupKey, newId: Id, result: S.NodeResult,
                   others: nat -> seq<Other>, clock: nat -> real, cold: nat, until: real)
    requires Quiet(others, clock, ttls, until) && Fresh(first, until) && key !in first.ids
    requires waited.ids == first.ids && waited.outputs == first.outputs && waited.maxEntries == first.maxEntries
    requires Registered(ttls, waited, after, key, newId, S.Public(result.state), result.next, result.success, clock(1))
    requires after.maxEntries == first.maxEntries
    ensures Shares(first, after, [key], cold, cold + 1, until)
  {
    hide Quiet, Registered;
    assert !Knows(first, [key]) by {
      assert key in [key];
    }
    if |first.outputs| < first.maxEntries {
      StoredIsGrown(ttls, waited, after, key, newId, S.Public(result.state), result.next, result.success, others, clock, 1,
                    until);
    }
  }

  lemma GrownMore(a: Cache, b: Cache, c: Cache, keys: seq<LookupKey>, more: seq<LookupKey>, until: real)
    requires Grown(a, b, keys, until) && Grown(b, c, more, until)
    ensures Grown(a, c, keys + more, until)
  {}

  lemma StoredIsGrown(ttls: Ttls, a: Cache, b: Cache, key: LookupKey, newId: Id, state: Object, next: Option<string>,
                      success: bool, others: nat -> seq<Other>, clock: nat -> real, n: nat, until: real)
    requires Registered(ttls, a, b, key, newId, state, next, success, clock(n)) && b.maxEntries == a.maxEntries
    requires Quiet(others, clock, ttls, until) && Fresh(a, until) && |a.outputs| < a.maxEntries
    ensures Grown(a, b, [key], until)
  {
    var ttl: int :| IsTtl(ttls, key.capability, success, ttl) &&
      Stores(a, b, key, if key in a.ids then a.ids[key] else newId,
             Entry(state, next, success, Some(clock(n) + ttl as real), key, clock(n)));
    hide IsTtl;
  }

  class Organism {
    const input: Object
    var state: Object
    var next: Option<string>
    var status: S.Status

    constructor (input: Object, state: Object, next: Option<string>)
      ensures Value() == S.Organism(input, state, next, S.Running)
    {
      this.input, this.state, this.next, this.status := input, state, next, S.Running;
    }

    function Value(): S.Organism
      reads this
    {
      S.Organism(input, state, next, status)
    }
  }

  class OrganismExecutor {
    const nodes: S.Nodes
    const maxHops: nat
    var warmSteps: nat
    var coldSteps: nat

    constructor (nodes: S.Nodes, maxHops: int)
      ensures this.nodes == nodes && this.maxHops == if maxHops > 1 then maxHops else 1
    {
      this.nodes, this.maxHops, warmSteps, coldSteps := nodes, if maxHops > 1 then maxHops else 1, 0, 0;
    }

    /** Usable for execution: coherent, sound, and with every id below the next uuid. */
    ghost predicate Usable(graph: ComputationGraph, nextId: Id)
      reads graph
    {
      graph.Valid() && Sound(nodes, graph.outputs) && graph.redis == null
      && forall id | id in graph.nodes || id in graph.outputs :: id < nextId
    }

    /** `get_cached_result_by_key` without a shared tier: it answers exactly from a live entry, and then keeps it. */
    method Get(graph: ComputationGraph, key: LookupKey, now: real, ghost nextId: Id) returns (cached: Option<Cached>)
      requires Usable(graph, nextId)
      modifies graph
      ensures Usable(graph, nextId)
      ensures cached.Some? ==> exists success :: IsResultOf(nodes, key, cached.value.state, cached.value.next, success)
      ensures cached.Some? == old(Answers(graph.View(), key, now))
      ensures cached.Some? || key !in old(graph.hashToNode) ==>
        graph.hashToNode == old(graph.hashToNode) && graph.outputs == old(graph.outputs)
    {
      hide Coherent, IsResultOf, LookupLocal, Answers;
      ghost var c := graph.View();
      LookupCoheres(c, key, now);
      LocalIsSound(nodes, c, key, now);
      LookupAnswers(c, graph.ttls, None, key, true, Absent, now);
      LocalKeeps(c, key, now);
      cached := graph.GetCachedResultByKey(key, true, Absent, now);
    }

    lemma LocalKeeps(c: Cache, key: LookupKey, now: real)
      requires key in c.ids ==> c.ids[key] in c.nodes
      ensures
        var (c', cached) := LookupLocal(c, key, now);
        cached.Some? || key !in c.ids ==> c'.ids == c.ids && c'.outputs == c.outputs
    {}

    lemma LocalIsSound(nodes: S.Nodes, c: Cache, key: LookupKey, now: real)
      requires Coherent(c) && Sound(nodes, c.outputs)
      ensures
        var (c', cached) := LookupLocal(c, key, now);
        && Sound(nodes, c'.outputs)
        && (cached.Some? ==> exists success :: IsResultOf(nodes, key, cached.value.state, cached.value.next, success))
    {}

    /** `register_computation`: afterwards the key is linked to an entry with this result and the expiry of its TTL. */
    method Put(graph: ComputationGraph, key: LookupKey, state: Object, next: Option<string>, success: bool,
               latency: real, now: real, nextId: Id)
      requires Usable(graph, nextId) && IsResultOf(nodes, key, state, next, success)
      modifies graph
      ensures Usable(graph, nextId + 1)
      ensures Registered(graph.ttls, old(graph.View()), graph.View(), key, nextId, state, next, success, now)
    {
      hide Coherent, Ordered, IsResultOf, Register, IsTtl, TtlFor, Sound, Share, Stores;
      ghost var c := graph.View();
      ghost var entry := Entry(state, next, success, Some(now + TtlFor(graph.ttls, key.capability, success) as real), key,
                               now);
      LookupCoheres(c, key, now);
      RegisterIsSound(nodes, c, key, nextId, entry, latency);
      RegisterKeepsIds(c, key, nextId, entry, latency);
      RegisterStores(c, key, nextId, entry, latency);
      TtlIs(graph.ttls, key.capability, success);
      graph.RegisterComputation(key, nextId, state, next, success, latency, true, now);
    }

    lemma RegisterStores(c: Cache, key: LookupKey, newId: Id, entry: Entry, latency: real)
      requires Ordered(c) && (key in c.ids ==> c.ids[key] in c.nodes)
      ensures
        Stores(c, Register(c, key, newId, entry, latency), key, if key in c.ids then c.ids[key] else newId, entry)
    {
      hide Ordered;
      var c1, id := WithRegistration(c, key, newId, latency), RegisteredId(c, key, newId);
      SameOrder(c, c1);
      StoredHolds(c1, id, entry, key);
      if |c.outputs| < c.maxEntries {
        StoreFits(c1, id, entry);
      }
    }

    lemma StoreFits(c: Cache, id: Id, entry: Entry)
      requires Ordered(c) && |c.outputs| < c.maxEntries
      ensures StoreOutput(c, id, entry) == Stored(c, id, entry)
    {
      StoredIsOrdered(c, id, entry);
      WithoutIsDistinct(c.order, id);
      DistinctSize(c.order);
    }

    lemma RegisterKeepsIds(c: Cache, key: LookupKey, newId: Id, entry: Entry, latency: real)
      requires Ordered(c) && (key in c.ids ==> c.ids[key] in c.nodes)
      ensures
        var r := Register(c, key, newId, entry, latency);
        r.nodes.Keys <= c.nodes.Keys + {newId} && r.outputs.Keys <= c.nodes.Keys + c.outputs.Keys + {newId}
    {}

    /** Other tasks run until this one is resumed. */
    method Await(graph: ComputationGraph, others: seq<Other>, clock: nat -> real, nextId: Id) returns (nextId': Id)
      requires Usable(graph, nextId) && forall i | 0 <= i < |others| :: HonestOther(nodes, others[i])
      modifies graph
      ensures Usable(graph, nextId')
      ensures others == [] ==> graph.View() == old(graph.View())
    {
      nextId' := nextId;
      for i := 0 to |others|
        invariant Usable(graph, nextId')
        invariant others == [] ==> graph.View() == old(graph.View())
      {
        hide IsResultOf, Coherent, Sound;
        match others[i] {
          case Registers(key, state, next, success, latency) =>
            Put(graph, key, state, next, success, latency, clock(i), nextId');
            nextId' := nextId' + 1;
          case LooksUp(key) =>
            var _ := Get(graph, key, clock(i), nextId');
          case Finds(key) =>
            Find(graph, key, nextId');
        }
      }
    }

    method Find(graph: ComputationGraph, key: LookupKey, ghost nextId: Id)
      requires Usable(graph, nextId)
      modifies graph
      ensures Usable(graph, nextId)
    {
      hide IsResultOf, Ordered;
      var _ := graph.FindSharedComputation(key);
    }

    /** A hit: overlay the public keys, mark where they came from, follow the cached route. */
    method Restore(organism: Organism, cached: Cached)
      modifies organism, this`warmSteps
      ensures exists marks :: S.IsMark(marks) &&
                organism.Value() == S.Restored(old(organism.Value()), cached.state, cached.next, marks)
      ensures organism.state == old(organism.state) + S.Public(cached.state) +
                                map["_from_shared" := Bool(true), "_shared_node_id" := Int(cached.id)]
      ensures organism.next == cached.next && organism.status == old(organism.status)
      ensures warmSteps == old(warmSteps) + 1
    {
      var marks: Object := map["_from_shared" := Bool(true), "_shared_node_id" := Int(cached.id)];
      organism.state := organism.state + S.Public(cached.state) + marks;
      organism.next := cached.next;
      warmSteps := warmSteps + 1;
      assert S.IsMark(marks);
    }

    /** A hit means what running the node would have meant. */
    lemma RestoredIsRan(o: S.Organism, cached: Cached, o': S.Organism, hops: nat)
      requires S.Deterministic(nodes) && (forall key :: S.Shareable(nodes, key))
      requires S.Routes(o) && S.Capability(o.next).Some? && hops > 0
      requires exists success :: IsResultOf(nodes, S.KeyOf(o), cached.state, cached.next, success)
      requires exists marks :: S.IsMark(marks) && o' == S.Restored(o, cached.state, cached.next, marks)
      ensures S.Reference(nodes, o', hops - 1) == S.Reference(nodes, o, hops) && o'.input == o.input
      ensures S.Finds(nodes, o) == [S.KeyOf(o)] && S.Path(nodes, o, hops) == [S.KeyOf(o)] + S.Path(nodes, o', hops - 1)
    {
      hide S.Deterministic;
      var success :| IsResultOf(nodes, S.KeyOf(o), cached.state, cached.next, success);
      var marks :| S.IsMark(marks) && o' == S.Restored(o, cached.state, cached.next, marks);
      var r := nodes(S.KeyOf(o).capability, S.KeyOf(o).input, S.KeyOf(o).state).value;
      S.PublicIsIdempotent(r.state);
      S.WarmHopIsColdHop(nodes, o, r, marks);
      S.ReferenceDependsOnWhatIsSeen(nodes, o', S.Ran(nodes, o), hops - 1);
      S.PathDependsOnWhatIsSeen(nodes, o', S.Ran(nodes, o), hops - 1);
      RegisteredIsFound(o, r);
    }

    /**
     * A miss: run the node off the loop while others go on, take its result over and register it, success or failure,
     * under the key looked up. Without a node nothing is stored and no step is counted.
     */
    method RunNode(organism: Organism, graph: ComputationGraph, others: seq<Other>, clock: nat -> real, nextId: Id)
      returns (nextId': Id, ghost afterOthers: Cache)
      requires S.Deterministic(nodes) && S.Routes(organism.Value()) && S.Capability(organism.next).Some?
      requires Usable(graph, nextId) && forall i | 0 <= i < |others| :: HonestOther(nodes, others[i])
      modifies organism, graph, this`coldSteps
      ensures Usable(graph, nextId') && organism.Value() == S.Ran(nodes, old(organism.Value()))
      ensures others == [] ==> afterOthers == old(graph.View())
      ensures
        var key := old(S.KeyOf(organism.Value()));
        match nodes(key.capability, key.input, old(organism.state))
        case None => graph.View() == afterOthers && coldSteps == old(coldSteps) && organism.status == S.NodeNotFound
        case Some(r) =>
          && Registered(graph.ttls, afterOthers, graph.View(), key, nextId' - 1, S.Public(r.state), r.next, r.success,
                        clock(1))
          && coldSteps == old(coldSteps) + 1 && organism.state == r.state && organism.next == r.next
          && organism.status == if r.success then S.Running else S.NodeFailed
    {
      hide S.Deterministic, Usable, Registered;
      var before := organism.Value();
      var key := S.KeyOf(before);
      nextId' := Await(graph, others, clock, nextId);
      afterOthers := graph.View();
      var result := nodes(key.capability, key.input, organism.state);
      match result {
        case None =>
          organism.status := S.NodeNotFound;
        case Some(r) =>
          S.ColdHopRegistersHonestly(nodes, before, r);
          organism.state, organism.next := r.state, r.next;
          Put(graph, key, S.Public(r.state), r.next, r.success, clock(0), clock(1), nextId');
          nextId' := nextId' + 1;
          coldSteps := coldSteps + 1;
          if !r.success {
            organism.status := S.NodeFailed;
          }
      }
    }

    /**
     * `execute`: whatever sound entries the cache holds or others add at any await, and however often this organism
     * waits for another task's flight, the outcome is that of running every node, and every hop with a node counts as
     * one warm or one cold step. Undisturbed and with room for its hops, it leaves every key of its path linked; and
     * where they all were, it takes no cold step.
     */
    method Execute(organism: Organism, graph: ComputationGraph, others: (nat, nat) -> seq<Other>, waits: nat -> nat,
                   clock: (nat, nat) -> real, nextId: Id, ghost until: real) returns (nextId': Id)
      requires S.Deterministic(nodes) && (forall key :: S.Shareable(nodes, key)) && organism.status.Running?
      requires Usable(graph, nextId)
      requires forall h, w, i | 0 <= i < |others(h, w)| :: HonestOther(nodes, others(h, w)[i])
      modifies organism, graph, this`warmSteps, this`coldSteps
      ensures Usable(graph, nextId')
      ensures S.See(organism.Value()) == old(S.Reference(nodes, organism.Value(), maxHops))
      ensures warmSteps + coldSteps == old(warmSteps + coldSteps) + |old(S.Path(nodes, organism.Value(), maxHops))|
      ensures AlwaysQuiet(others, clock, graph.ttls, until) && old(Fresh(graph.View(), until)) ==>
        Shares(old(graph.View()), graph.View(), old(S.Path(nodes, organism.Value(), maxHops)), old(coldSteps), coldSteps,
               until)
    {
      hide S.Deterministic, S.Shareable, Usable, HonestOther, Shares, AlwaysQuiet, Quiet, Fresh, Answers;
      hide S.Path, S.Finds, S.Reference, OnCourse;
      nextId' := nextId;
      var hops := 0;
      ghost var meant, path, done := S.Reference(nodes, organism.Value(), maxHops), S.Path(nodes, organism.Value(), maxHops), [];
      ghost var first := graph.View();
      ghost var quiet := AlwaysQuiet(others, clock, graph.ttls, until) && Fresh(first, until);
      CourseStarts(organism.Value(), maxHops);
      NothingShares(first, first, coldSteps, until);
      while S.Routes(organism.Value())
        invariant Usable(graph, nextId') && hops <= maxHops
        invariant OnCourse(meant, path, done, organism.Value(), maxHops - hops)
        invariant warmSteps + coldSteps == old(warmSteps + coldSteps) + |done|
        invariant quiet ==> Shares(first, graph.View(), done, old(coldSteps), coldSteps, until)
        decreases maxHops - hops
      {
        CourseEnds(meant, path, done, organism.Value(), maxHops - hops);
        if hops == maxHops {
          organism.status := S.MaxHopsExceeded;
          break;
        }
        if S.Capability(organism.next).None? {
          break;
        }
        hops := hops + 1;
        var hopOthers, hopClock := (w: nat) => others(hops, w), (n: nat) => clock(hops, n);
        ghost var o, now, cold, found := organism.Value(), graph.View(), coldSteps, S.Finds(nodes, organism.Value());
        HopIsQuiet(others, clock, graph.ttls, until, hops, hopOthers, hopClock);
        ghost var warm;
        nextId', warm := HopOnce(organism, graph, hopOthers, waits(hops), hopClock, nextId', maxHops - hops + 1, until);
        CourseGoesOn(meant, path, done, o, organism.Value(), maxHops - hops + 1);
        SharesMore(first, now, graph.View(), done, found, old(coldSteps), cold, coldSteps, until);
        done := done + found;
      }
      CourseEnds(meant, path, done, organism.Value(), maxHops - hops);
    }

    /**
     * Executing an organism that looks like one executed before, with nobody else at work, room for the hops and nothing
     * expiring, runs no node: every hop is a warm step, and the outcome is the same.
     */
    method ExecuteTwice(first: Organism, second: Organism, graph: ComputationGraph, waits: nat -> nat,
                        clock: (nat, nat) -> real, clock': (nat, nat) -> real, nextId: Id, ghost until: real)
      returns (nextId': Id, warm: int, cold: int)
      requires S.Deterministic(nodes) && (forall key :: S.Shareable(nodes, key)) && first != second
      requires first.status.Running? && second.status.Running? && Usable(graph, nextId) && Fresh(graph.View(), until)
      requires S.See(first.Value()) == S.See(second.Value()) && first.input == second.input
      requires |graph.outputs| + |S.Path(nodes, first.Value(), maxHops)| <= graph.maxEntries
      requires AlwaysQuiet((h, w) => [], clock, graph.ttls, until) && AlwaysQuiet((h, w) => [], clock', graph.ttls, until)
      modifies first, second, graph, this`warmSteps, this`coldSteps
      ensures Usable(graph, nextId')
      ensures cold == 0 && warm == |old(S.Path(nodes, first.Value(), maxHops))|
      ensures S.See(second.Value()) == S.See(first.Value())
    {
      hide S.Deterministic, S.Shareable, Usable, AlwaysQuiet, Fresh, S.Path, S.Reference;
      ghost var a := second.Value();
      S.PathDependsOnWhatIsSeen(nodes, first.Value(), a, maxHops);
      S.ReferenceDependsOnWhatIsSeen(nodes, first.Value(), a, maxHops);
      nextId' := Execute(first, graph, (h, w) => [], waits, clock, nextId, until);
      assert second.Value() == a;
      var warmBefore, coldBefore := warmSteps, coldSteps;
      nextId' := Execute(second, graph, (h, w) => [], waits, clock', nextId', until);
      warm, cold := warmSteps - warmBefore, coldSteps - coldBefore;
    }

    /** What is done and what running every node from here would do make up the whole path, and its outcome is meant. */
    ghost predicate OnCourse(meant: S.Seen, path: seq<LookupKey>, done: seq<LookupKey>, o: S.Organism, hops: nat) {
      S.Reference(nodes, o, hops) == meant && path == done + S.Path(nodes, o, hops)
    }

    lemma CourseStarts(o: S.Organism, hops: nat)
      ensures OnCourse(S.Reference(nodes, o, hops), S.Path(nodes, o, hops), [], o, hops)
    {}

    lemma CourseGoesOn(meant: S.Seen, path: seq<LookupKey>, done: seq<LookupKey>, o: S.Organism, o': S.Organism, hops: nat)
      requires hops > 0 && S.Capability(o.next).Some?
      requires S.Reference(nodes, o', hops - 1) == S.Reference(nodes, o, hops)
      requires S.Path(nodes, o, hops) == S.Finds(nodes, o) + S.Path(nodes, o', hops - 1)
      ensures OnCourse(meant, path, done, o, hops) ==> OnCourse(meant, path, done + S.Finds(nodes, o), o', hops - 1)
    {}

    lemma CourseEnds(meant: S.Seen, path: seq<LookupKey>, done: seq<LookupKey>, o: S.Organism, hops: nat)
      ensures OnCourse(meant, path, done, o, hops) && (!S.Routes(o) || hops == 0 || S.Capability(o.next).None?) ==>
        path == done && meant == S.See(if S.Routes(o) && hops == 0 then o.(status := S.MaxHopsExceeded) else o)
    {}

    /**
     * One hop: look up; while another task owns the flight, wait and look again; as the owner, run the node. A live entry
     * makes it a warm step, and a warm or cold step is counted exactly when a node is registered.
     */
    method HopOnce(organism: Organism, graph: ComputationGraph, others: nat -> seq<Other>, waits: nat,
                   clock: nat -> real, nextId: Id, ghost hops: nat, ghost until: real)
      returns (nextId': Id, ghost warm: bool)
      requires S.Deterministic(nodes) && (forall key :: S.Shareable(nodes, key)) && hops > 0
      requires S.Routes(organism.Value()) && S.Capability(organism.next).Some? && Usable(graph, nextId)
      requires forall w, i | 0 <= i < |others(w)| :: HonestOther(nodes, others(w)[i])
      modifies organism, graph, this`warmSteps, this`coldSteps
      ensures Usable(graph, nextId')
      ensures S.Reference(nodes, organism.Value(), hops - 1) == old(S.Reference(nodes, organism.Value(), hops))
      ensures old(S.Path(nodes, organism.Value(), hops)) ==
              old(S.Finds(nodes, organism.Value())) + S.Path(nodes, organism.Value(), hops - 1)
      ensures warmSteps == old(warmSteps) + (if warm then 1 else 0)
      ensures warmSteps + coldSteps == old(warmSteps + coldSteps) + |old(S.Finds(nodes, organism.Value()))|
      ensures old(Answers(graph.View(), S.KeyOf(organism.Value()), clock(0))) ==> warm
      ensures Quiet(others, clock, graph.ttls, until) && old(Fresh(graph.View(), until)) ==>
        Shares(old(graph.View()), graph.View(), old(S.Finds(nodes, organism.Value())), old(coldSteps), coldSteps, until)
    {
      hide S.Deterministic, S.Shareable, Usable, HonestOther, S.Reference, S.Path, Quiet, Fresh, Shares, Registered, Answers;
      hide IsResultOf;
      ghost var before, first, cold := organism.Value(), graph.View(), coldSteps;
      ghost var key, quiet := S.KeyOf(before), Quiet(others, clock, graph.ttls, until) && Fresh(first, until);
      var cached;
      cached, nextId' := LookUpOrWait(organism, graph, others, waits, clock, nextId, until);
      ghost var waiting, waited := organism.Value(), graph.View();
      WaitingIsTheSame(before, waiting, hops);
      warm := cached.Some?;
      if cached.Some? {
        Restore(organism, cached.value);
        RestoredIsRan(waiting, cached.value, organism.Value(), hops);
        if quiet {
          WarmShares(first, graph.View(), key, cold, until);
        }
      } else {
        ghost var result := nodes(key.capability, key.input, organism.state);
        ghost var afterOthers;
        nextId', afterOthers := RunNode(organism, graph, others(waits), clock, nextId');
        RanIsReference(waiting, hops);
        if quiet {
          QuietIsAlone(others, clock, graph.ttls, until);
          if result.None? {
            NothingShares(first, graph.View(), cold, until);
          } else {
            ColdShares(graph.ttls, first, waited, graph.View(), key, nextId' - 1, result.value, others, clock, cold, until);
          }
        }
      }
    }

    lemma WaitingIsTheSame(a: S.Organism, b: S.Organism, hops: nat)
      requires S.Deterministic(nodes) && S.See(a) == S.See(b) && a.input == b.input && S.Capability(a.next).Some?
      ensures S.Reference(nodes, a, hops) == S.Reference(nodes, b, hops) && S.Path(nodes, a, hops) == S.Path(nodes, b, hops)
      ensures S.Finds(nodes, a) == S.Finds(nodes, b) && S.KeyOf(a) == S.KeyOf(b)
    {
      S.ReferenceDependsOnWhatIsSeen(nodes, a, b, hops);
      S.PathDependsOnWhatIsSeen(nodes, a, b, hops);
      S.FindsDependsOnWhatIsSeen(nodes, a, b);
    }

    /**
     * The lookups of a hop: first, again before anything else is tried, and once more after every flight waited for.
     * In an undisturbed stretch they answer exactly the keys that are linked, and leave links and entries alone.
     */
    method LookUpOrWait(organism: Organism, graph: ComputationGraph, others: nat -> seq<Other>, waits: nat,
                        clock: nat -> real, nextId: Id, ghost until: real)
      returns (cached: Option<Cached>, nextId': Id)
      requires S.Routes(organism.Value()) && S.Capability(organism.next).Some? && Usable(graph, nextId)
      requires forall w, i | 0 <= i < |others(w)| :: HonestOther(nodes, others(w)[i])
      modifies organism`state, graph
      ensures Usable(graph, nextId')
      ensures S.See(organism.Value()) == old(S.See(organism.Value()))
      ensures cached.Some? ==>
        exists success :: IsResultOf(nodes, old(S.KeyOf(organism.Value())), cached.value.state, cached.value.next, success)
      ensures old(Answers(graph.View(), S.KeyOf(organism.Value()), clock(0))) ==> cached.Some?
      ensures Quiet(others, clock, graph.ttls, until) && old(Fresh(graph.View(), until)) ==>
        && graph.hashToNode == old(graph.hashToNode) && graph.outputs == old(graph.outputs)
        && cached.Some? == (old(S.KeyOf(organism.Value())) in old(graph.hashToNode))
    {
      hide Usable, HonestOther, Quiet, Fresh, Answers, IsResultOf;
      nextId' := nextId;
      ghost var before, first := organism.Value(), graph.View();
      ghost var quiet := Quiet(others, clock, graph.ttls, until) && Fresh(first, until);
      if quiet {
        QuietIsAlone(others, clock, graph.ttls, until);
      }
      var key := S.KeyOf(organism.Value());
      LinkedAnswers(graph, nextId', key, others, clock, until);
      cached := Get(graph, key, clock(0), nextId');
      if cached.None? {
        LinkedAnswers(graph, nextId', key, others, clock, until);
        SameEntriesAreFresh(first, graph.View(), until);
        cached := Get(graph, key, clock(1), nextId');
      }
      var waited := 0;
      while cached.None? && waited < waits
        invariant Usable(graph, nextId') && S.See(organism.Value()) == S.See(before)
        invariant cached.Some? ==> exists success :: IsResultOf(nodes, key, cached.value.state, cached.value.next, success)
        invariant quiet ==>
          graph.hashToNode == first.ids && graph.outputs == first.outputs && cached.Some? == (key in first.ids)
        invariant old(Answers(graph.View(), key, clock(0))) ==> cached.Some?
      {
        nextId' := Await(graph, others(waited), clock, nextId');
        MarkFlight(organism);
        LinkedAnswers(graph, nextId', key, others, clock, until);
        SameEntriesAreFresh(first, graph.View(), until);
        cached := Get(graph, key, clock(2 + waited), nextId');
        waited := waited + 1;
      }
    }

    lemma LinkedAnswers(graph: ComputationGraph, nextId: Id, key: LookupKey, others: nat -> seq<Other>, clock: nat -> real,
                        until: real)
      requires Usable(graph, nextId)
      ensures Quiet(others, clock, graph.ttls, until) && Fresh(graph.View(), until) ==>
        forall n :: Answers(graph.View(), key, clock(n)) <==> key in graph.hashToNode
    {
      if Quiet(others, clock, graph.ttls, until) && Fresh(graph.View(), until) {
        QuietAnswers(graph.View(), key, others, clock, graph.ttls, until);
      }
    }

    lemma SameEntriesAreFresh(a: Cache, b: Cache, until: real)
      ensures a.outputs == b.outputs ==> Fresh(a, until) == Fresh(b, until)
    {}

    /** A waiter is marked with a private key, which nobody sees. */
    method MarkFlight(organism: Organism)
      modifies organism`state
      ensures S.See(organism.Value()) == old(S.See(organism.Value()))
      ensures organism.state == old(organism.state)["_from_single_flight" := Bool(true)]
    {
      organism.state := organism.state["_from_single_flight" := Bool(true)];
      assert S.Private("_from_single_flight");
      assert S.Public(organism.state) == S.Public(old(organism.state));
    }

    lemma RanIsReference(o: S.Organism, hops: nat)
      requires S.Routes(o) && S.Capability(o.next).Some? && hops > 0
      ensures S.Reference(nodes, S.Ran(nodes, o), hops - 1) == S.Reference(nodes, o, hops)
      ensures S.Path(nodes, o, hops) == S.Finds(nodes, o) + S.Path(nodes, S.Ran(nodes, o), hops - 1)
    {}

    lemma RegisteredIsFound(o: S.Organism, r: S.NodeResult)
      requires S.Deterministic(nodes) && S.Capability(o.next).Some?
      requires nodes(S.KeyOf(o).capability, S.KeyOf(o).input, S.KeyOf(o).state) == Some(r)
      ensures S.Finds(nodes, o) == [S.KeyOf(o)]
    {
      S.PublicIsIdempotent(o.state);
      assert S.SameResult(nodes(S.KeyOf(o).capability, o.input, o.state), Some(r));
    }
  }
}
