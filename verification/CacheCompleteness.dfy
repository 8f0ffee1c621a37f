/** What a lookup must return: a registered result until it expires, from the worker's own tier or from the shared one. */
module CacheCompleteness {
  import opened Wrappers
  import opened Collections
  import opened ComputationCache
  import opened CacheProperties
  import opened CacheRecency
  import opened CacheAccounting
  import opened CacheRuns

  // ---------- One lookup, exactly ----------

  /** Not yet expired: the expiry instant itself is too late. */
  predicate AliveAt(expiresAt: Option<real>, now: real) {
    expiresAt == None || now < expiresAt.value
  }

  /** The key is linked to this id, and the id's entry is this one. */
  predicate Holds(c: Cache, key: LookupKey, id: Id, e: Entry) {
    key in c.ids && c.ids[key] == id && id in c.outputs && c.outputs[id] == e
  }

  /** The worker's own tier has an answer. */
  predicate Answers(c: Cache, key: LookupKey, now: real) {
    key in c.ids && c.ids[key] in c.outputs && AliveAt(c.outputs[c.ids[key]].expiresAt, now)
  }

  /** The shared tier has an answer for whoever asks it. */
  predicate SharedAnswers(tier: Option<Tier>, key: LookupKey, useShared: bool, reading: Reading, now: real) {
    useShared && tier.Some? && key in tier.value && AliveAt(tier.value[key].expiresAt, now) && reading != Absent
  }

  /**
   * A lookup answers from the worker's own tier while its entry is alive, otherwise from the shared tier if it is asked,
   * has a live entry and the entry is still there when its TTL is read, and otherwise not at all.
   */
  lemma LookupAnswers(c: Cache, ttls: Ttls, tier: Option<Tier>, key: LookupKey, useShared: bool, reading: Reading,
                      now: real)
    requires Ordered(c) && (key in c.ids ==> c.ids[key] in c.nodes)
    ensures
      Lookup(c, ttls, tier, key, useShared, reading, now).1 ==
        if Answers(c, key, now) then var e := c.outputs[c.ids[key]]; Some(Cached(c.ids[key], e.state, e.next))
        else if SharedAnswers(tier, key, useShared, reading, now) then
          var e := tier.value[key]; Some(Cached(e.nodeId, e.state, e.next))
        else None
  {
    hide Ordered, Hydrate;
  }

  /**
   * Every answer is counted as a hit, one from the shared tier also there, a failure also as a negative hit; only asking
   * the shared tier in vain is a miss.
   */
  lemma LookupCounts(c: Cache, ttls: Ttls, tier: Option<Tier>, key: LookupKey, useShared: bool, reading: Reading,
                     now: real)
    requires Ordered(c) && (key in c.ids ==> c.ids[key] in c.nodes)
    ensures
      var (c', found) := Lookup(c, ttls, tier, key, useShared, reading, now);
      var own, shared := Answers(c, key, now), SharedAnswers(tier, key, useShared, reading, now);
      && c'.hits == c.hits + (if own || shared then 1 else 0)
      && c'.redisHits == c.redisHits + (if !own && shared then 1 else 0)
      && c'.misses == c.misses + (if !own && !shared && useShared then 1 else 0)
      && c'.negativeHits == c.negativeHits +
           (if own then if c.outputs[c.ids[key]].success then 0 else 1
            else if shared then if tier.value[key].success then 0 else 1
            else 0)
  {
    hide Ordered, StoreOutput, Touch, Expire;
    LocalLookupKeepsOrder(c, key, now);
    var c1 := LookupLocal(c, key, now).0;
    LocalLookupCounts(c, key, now);
    if !Answers(c, key, now) && SharedAnswers(tier, key, useShared, reading, now) {
      var shared := tier.value[key];
      hide LookupLocal;
      WithNodeIsOrdered(c1, key, shared);
      StoreCountsNothing(WithNode(c1, key, shared), shared.nodeId, LocalCopy(ttls, key, shared, reading, now));
    }
  }

  lemma LocalLookupCounts(c: Cache, key: LookupKey, now: real)
    requires key in c.ids ==> c.ids[key] in c.nodes
    ensures
      var (c', found) := LookupLocal(c, key, now);
      var own := Answers(c, key, now);
      && found.Some? == own && c'.redisHits == c.redisHits && c'.misses == c.misses
      && c'.hits == c.hits + (if own then 1 else 0)
      && c'.negativeHits == c.negativeHits + (if own && !c.outputs[c.ids[key]].success then 1 else 0)
  {}

  lemma StoreCountsNothing(c: Cache, id: Id, entry: Entry)
    requires Ordered(c)
    ensures
      var r := StoreOutput(c, id, entry);
      r.hits == c.hits && r.misses == c.misses && r.redisHits == c.redisHits && r.negativeHits == c.negativeHits
  {}

  // ---------- Whose entry stays ----------

  /** Storing under another id keeps the entry, unless it is the one that is evicted. */
  lemma StoreHolds(c: Cache, id': Id, entry: Entry, key: LookupKey, id: Id, e: Entry)
    requires Ordered(c) && Holds(c, key, id, e) && id' != id
    ensures
      var r := StoreOutput(c, id', entry);
      && (r.evicted == c.evicted || (|r.evicted| == |c.evicted| + 1 && c.evicted <= r.evicted))
      && (r.evicted == c.evicted || r.evicted[|c.evicted|].id != id ==> Holds(r, key, id, e))
  {
    hide Ordered;
    StoredIsOrdered(c, id', entry);
  }

  /** What is stored is there, whatever is evicted for it. */
  lemma StoredHolds(c: Cache, id: Id, entry: Entry, key: LookupKey)
    requires Ordered(c) && key in c.ids && c.ids[key] == id
    ensures
      var r := StoreOutput(c, id, entry);
      Holds(r, key, id, entry) && c.evicted <= r.evicted
  {
    StoredIsOrdered(c, id, entry);
  }

  /** Registering another key leaves the entry alone, unless it is evicted. */
  lemma RegisterHolds(c: Cache, k: LookupKey, newId: Id, entry: Entry, latency: real, owners: map<Id, LookupKey>,
                      key: LookupKey, id: Id, e: Entry)
    requires Linked(c, owners) && newId !in owners && entry.key == k && k != key && Holds(c, key, id, e)
    ensures
      var r := Register(c, k, newId, entry, latency);
      && (r.evicted == c.evicted || (|r.evicted| == |c.evicted| + 1 && c.evicted <= r.evicted))
      && (r.evicted == c.evicted || r.evicted[|c.evicted|].id != id ==> Holds(r, key, id, e))
  {
    hide Ordered, StoreOutput;
    SameOrder(c, WithRegistration(c, k, newId, latency));
    StoreHolds(WithRegistration(c, k, newId, latency), RegisteredId(c, k, newId), entry, key, id, e);
  }

  /** A lookup of the key while the entry is alive, or of any other key, leaves the entry alone, unless it is evicted. */
  lemma LookupHolds(ttls: Ttls, c: Cache, tier: Option<Tier>, k: LookupKey, useShared: bool, reading: Reading, now: real,
                    owners: map<Id, LookupKey>, key: LookupKey, id: Id, e: Entry)
    requires Linked(c, owners) && (tier.Some? ==> TierInv(tier.value, owners)) && Holds(c, key, id, e)
    requires k == key ==> AliveAt(e.expiresAt, now)
    ensures
      var r := Lookup(c, ttls, tier, k, useShared, reading, now).0;
      && (r.evicted == c.evicted || (|r.evicted| == |c.evicted| + 1 && c.evicted <= r.evicted))
      && (r.evicted == c.evicted || r.evicted[|c.evicted|].id != id ==> Holds(r, key, id, e))
  {
    hide Ordered, Hydrate;
    LocalLookupKeepsOrder(c, k, now);
    LocalLookupHolds(c, k, now, key, id, e);
    var (c1, cached) := LookupLocal(c, k, now);
    if cached.None? && useShared && tier.Some? && Visible(tier.value, k, now).Some? && !reading.Absent? {
      assert k != key;
      hide LookupLocal;
      HydrateHolds(ttls, c1, k, tier.value[k], reading, now, key, id, e);
    }
  }

  lemma LocalLookupHolds(c: Cache, k: LookupKey, now: real, key: LookupKey, id: Id, e: Entry)
    requires Coherent(c) && Holds(c, key, id, e) && (k == key ==> AliveAt(e.expiresAt, now))
    ensures
      var (c', found) := LookupLocal(c, k, now);
      c'.evicted == c.evicted && Holds(c', key, id, e) && (k == key ==> found.Some?)
  {
    hide Ordered;
  }

  lemma HydrateHolds(ttls: Ttls, c: Cache, k: LookupKey, shared: Shared, reading: Reading, now: real, key: LookupKey,
                     id: Id, e: Entry)
    requires Ordered(c) && Holds(c, key, id, e) && k != key && shared.nodeId != id
    ensures
      var r := Hydrate(c, ttls, k, shared, reading, now);
      && (r.evicted == c.evicted || (|r.evicted| == |c.evicted| + 1 && c.evicted <= r.evicted))
      && (r.evicted == c.evicted || r.evicted[|c.evicted|].id != id ==> Holds(r, key, id, e))
  {
    hide Ordered, StoreOutput;
    WithNodeIsOrdered(c, k, shared);
    StoreHolds(WithNode(c, k, shared), shared.nodeId, LocalCopy(ttls, k, shared, reading, now), key, id, e);
  }

  lemma FindHolds(c: Cache, k: LookupKey, key: LookupKey, id: Id, e: Entry)
    requires (k in c.ids ==> c.ids[k] in c.nodes) && Holds(c, key, id, e)
    ensures FindShared(c, k).evicted == c.evicted && Holds(FindShared(c, k), key, id, e)
  {}

  // ---------- Over runs ----------

  /** The operation does not register the key again, and does not look it up after the expiry. */
  predicate Spares(op: Op, w: nat, key: LookupKey, expiresAt: Option<real>) {
    op.worker == w && op.key == key ==> !op.RegisterOp? && (op.LookupOp? ==> AliveAt(expiresAt, op.now))
  }

  lemma StepHolds(ttls: Ttls, f: Fleet, op: Op, w: nat, key: LookupKey, id: Id, e: Entry)
    requires FleetInv(f) && Legal(f, op) && w < |f.caches| && Holds(f.caches[w], key, id, e)
    requires Spares(op, w, key, e.expiresAt)
    ensures
      var f' := Apply(ttls, f, op);
      && w < |f'.caches|
      && var c, r := f.caches[w], f'.caches[w];
         && (r.evicted == c.evicted || (|r.evicted| == |c.evicted| + 1 && c.evicted <= r.evicted))
         && (r.evicted == c.evicted || r.evicted[|c.evicted|].id != id ==> Holds(r, key, id, e))
  {
    hide Recent, Balanced, Averaged, Lookup, Register, FindShared, Holds, TierInv;
    var c := f.caches[op.worker];
    assert CacheInv(c, f.owners);
    if op.worker == w {
      match op {
        case RegisterOp(_, k, newId, _, _, _, latency, _, _) =>
          RegisterHolds(c, k, newId, EntryOf(ttls, op), latency, f.owners, key, id, e);
        case LookupOp(_, k, useShared, reading, now) =>
          LookupHolds(ttls, c, f.tier, k, useShared, reading, now, f.owners, key, id, e);
        case FindOp(_, k) =>
          FindHolds(c, k, key, id, e);
      }
    }
  }

  /** In none of the operations m to i - 1 was the entry disturbed, and its id is not among what worker w evicted then. */
  ghost predicate Undisturbed(run: seq<Fleet>, ops: seq<Op>, w: nat, key: LookupKey, id: Id, expiresAt: Option<real>,
                              m: nat, i: nat)
    requires |run| == |ops| + 1 && m <= i <= |ops| && w < |run[m].caches| && w < |run[i].caches|
  {
    && (forall j | m <= j < i :: Spares(ops[j], w, key, expiresAt))
    && forall n | |run[m].caches[w].evicted| <= n < |run[i].caches[w].evicted| :: run[i].caches[w].evicted[n].id != id
  }

  /** The list of evictions only grows. */
  lemma EvictedGrows(ttls: Ttls, f: Fleet, op: Op, w: nat)
    requires FleetInv(f) && Legal(f, op) && w < |f.caches|
    ensures
      var f' := Apply(ttls, f, op);
      |f'.caches| == |f.caches| && f.caches[w].evicted <= f'.caches[w].evicted
  {
    hide Recent, Balanced, Averaged, Ordered, StoreOutput, TierInv, LookupLocal;
    var c := f.caches[op.worker];
    assert CacheInv(c, f.owners);
    match op {
      case RegisterOp(_, k, newId, _, _, _, latency, _, _) =>
        var c1 := WithRegistration(c, k, newId, latency);
        SameOrder(c, c1);
        StoreEvicts(c1, RegisteredId(c, k, newId), EntryOf(ttls, op));
      case LookupOp(_, k, useShared, reading, now) =>
        LocalLookupKeepsOrder(c, k, now);
        LocalLookupEvictsNothing(c, k, now);
        var c1 := LookupLocal(c, k, now).0;
        if f.tier.Some? && k in f.tier.value {
          WithNodeIsOrdered(c1, k, f.tier.value[k]);
          StoreEvicts(WithNode(c1, k, f.tier.value[k]), f.tier.value[k].nodeId,
                      LocalCopy(ttls, k, f.tier.value[k], reading, now));
        }
      case FindOp(_, _) =>
    }
  }

  lemma StoreEvicts(c: Cache, id: Id, entry: Entry)
    requires Ordered(c)
    ensures c.evicted <= StoreOutput(c, id, entry).evicted
  {}

  lemma LocalLookupEvictsNothing(c: Cache, k: LookupKey, now: real)
    requires k in c.ids ==> c.ids[k] in c.nodes
    ensures LookupLocal(c, k, now).0.evicted == c.evicted
  {}

  lemma {:induction false} RunEvictions(ttls: Ttls, run: seq<Fleet>, ops: seq<Op>, w: nat, m: nat, i: nat)
    requires IsFleetRun(ttls, run, ops) && m <= i <= |ops| && w < |run[m].caches|
    ensures |run[i].caches| == |run[m].caches| && run[m].caches[w].evicted <= run[i].caches[w].evicted
    decreases i
  {
    hide Legal, Apply, FleetInv, Empty;
    if m < i {
      RunEvictions(ttls, run, ops, w, m, i - 1);
      FleetRunKeeps(ttls, run, ops, i - 1);
      EvictedGrows(ttls, run[i - 1], ops[i - 1], w);
    }
  }

  /** An undisturbed entry is still there. */
  lemma {:induction false} EntryStays(ttls: Ttls, run: seq<Fleet>, ops: seq<Op>, w: nat, key: LookupKey, id: Id, e: Entry,
                                      m: nat, i: nat)
    requires IsFleetRun(ttls, run, ops) && m <= i <= |ops| && w < |run[m].caches| && w < |run[i].caches|
    requires Holds(run[m].caches[w], key, id, e) && Undisturbed(run, ops, w, key, id, e.expiresAt, m, i)
    ensures Holds(run[i].caches[w], key, id, e)
    decreases i
  {
    hide Legal, Apply, FleetInv, Empty, Holds, Spares;
    if m < i {
      RunEvictions(ttls, run, ops, w, m, i - 1);
      FleetRunKeeps(ttls, run, ops, i - 1);
      EvictedGrows(ttls, run[i - 1], ops[i - 1], w);
      EntryStays(ttls, run, ops, w, key, id, e, m, i - 1);
      StepHolds(ttls, run[i - 1], ops[i - 1], w, key, id, e);
    }
  }

  /** ttl_for: a failure's time is at least a second; a capability's own time wins over the default, which is never 0. */
  predicate IsTtl(ttls: Ttls, capability: string, success: bool, ttl: int) {
    if !success then ttl >= 1 && ttl >= ttls.negative && (ttl == 1 || ttl == ttls.negative)
    else if capability in ttls.byCapability then ttl == ttls.byCapability[capability]
    else if ttls.default != 0 then ttl == ttls.default
    else ttl == 30
  }

  lemma TtlIs(ttls: Ttls, capability: string, success: bool)
    ensures IsTtl(ttls, capability, success, TtlFor(ttls, capability, success))
  {}

  /** What a registration leaves in its worker's own tier, for exactly its TTL. */
  lemma RegistrationHolds(ttls: Ttls, f: Fleet, op: Op, ttl: int) returns (id: Id)
    requires FleetInv(f) && Legal(f, op) && op.RegisterOp? && IsTtl(ttls, op.key.capability, op.success, ttl)
    ensures
      var e := Entry(op.state, op.next, op.success, Some(op.now + ttl as real), op.key, op.now);
      var f' := Apply(ttls, f, op);
      op.worker < |f'.caches| && Holds(f'.caches[op.worker], op.key, id, e)
    ensures id == if op.key in f.caches[op.worker].ids then f.caches[op.worker].ids[op.key] else op.newId
  {
    hide Recent, Balanced, Averaged, Ordered, StoreOutput, TierInv, Holds;
    var c := f.caches[op.worker];
    assert CacheInv(c, f.owners);
    id := RegisteredId(c, op.key, op.newId);
    var c1 := WithRegistration(c, op.key, op.newId, op.latency);
    SameOrder(c, c1);
    StoredHolds(c1, id, EntryOf(ttls, op), op.key);
  }

  /**
   * A result that worker w registered is returned, state and route as registered, by every lookup of its key by w before
   * its TTL is over, while w has not registered the key again, has not looked it up after its expiry and has not evicted
   * it. From the expiry on, a lookup that the shared tier does not answer returns nothing.
   */
  lemma RegisteredIsReturned(ttls: Ttls, run: seq<Fleet>, ops: seq<Op>, t: nat, i: nat, ttl: int) returns (id: Id)
    requires IsFleetRun(ttls, run, ops) && t < i < |ops| && ops[t].RegisterOp? && ops[i].LookupOp?
    requires ops[i].worker == ops[t].worker && ops[i].key == ops[t].key
    requires IsTtl(ttls, ops[t].key.capability, ops[t].success, ttl)
    requires FleetInv(run[t]) && Legal(run[t], ops[t]) && FleetInv(run[i]) && Legal(run[i], ops[i])
    ensures ops[t].worker < |run[t + 1].caches|
    ensures
      Undisturbed(run, ops, ops[t].worker, ops[t].key, id, Some(ops[t].now + ttl as real), t + 1, i) ==>
        Hit(ttls, run[i], ops[i]) ==
          if ops[i].now < ops[t].now + ttl as real then Some(Cached(id, ops[t].state, ops[t].next))
          else if SharedAnswers(run[i].tier, ops[i].key, ops[i].useShared, ops[i].reading, ops[i].now) then
            var e := run[i].tier.value[ops[i].key]; Some(Cached(e.nodeId, e.state, e.next))
          else None
  {
    hide Recent, Balanced, Averaged, Ordered, Apply, TierInv, Lookup;
    var w, key := ops[t].worker, ops[t].key;
    id := RegistrationHolds(ttls, run[t], ops[t], ttl);
    var e := Entry(ops[t].state, ops[t].next, ops[t].success, Some(ops[t].now + ttl as real), key, ops[t].now);
    if Undisturbed(run, ops, w, key, id, e.expiresAt, t + 1, i) {
      EntryStays(ttls, run, ops, w, key, id, e, t + 1, i);
      assert CacheInv(run[i].caches[w], run[i].owners);
      LookupAnswers(run[i].caches[w], ttls, run[i].tier, key, ops[i].useShared, ops[i].reading, ops[i].now);
    }
  }

  // ---------- How long an entry is safe from eviction ----------

  /** Between a and b every eviction came after all of a's uses. */
  ghost predicate LaterEvictions(a: Cache, b: Cache) {
    && a.uses <= b.uses && a.evicted <= b.evicted && a.maxEntries == b.maxEntries
    && forall n | |a.evicted| <= n < |b.evicted| :: b.evicted[n].at > |a.uses|
  }

  lemma StoreEvictsLater(a: Cache, c: Cache, id: Id, entry: Entry)
    requires Ordered(c) && LaterEvictions(a, c)
    ensures LaterEvictions(a, StoreOutput(c, id, entry))
  {
    hide Ordered;
    StoredIsOrdered(c, id, entry);
  }

  lemma LocalLookupEvictsLater(a: Cache, c: Cache, k: LookupKey, now: real)
    requires (k in c.ids ==> c.ids[k] in c.nodes) && LaterEvictions(a, c)
    ensures LaterEvictions(a, LookupLocal(c, k, now).0)
  {}

  lemma NothingLater(c: Cache)
    ensures LaterEvictions(c, c)
  {}

  lemma StepEvictsLater(ttls: Ttls, a: Cache, f: Fleet, op: Op, w: nat)
    requires FleetInv(f) && Legal(f, op) && w < |f.caches| && LaterEvictions(a, f.caches[w])
    ensures w < |Apply(ttls, f, op).caches| && LaterEvictions(a, Apply(ttls, f, op).caches[w])
  {
    hide Recent, Balanced, Averaged, Ordered, TierInv, Register, Lookup;
    assert CacheInv(f.caches[op.worker], f.owners);
    if op.worker == w {
      OwnStepEvictsLater(ttls, a, f, op);
    }
  }

  lemma OwnStepEvictsLater(ttls: Ttls, a: Cache, f: Fleet, op: Op)
    requires FleetInv(f) && Legal(f, op) && LaterEvictions(a, f.caches[op.worker])
    ensures op.worker < |Apply(ttls, f, op).caches| && LaterEvictions(a, Apply(ttls, f, op).caches[op.worker])
  {
    hide Recent, Balanced, Averaged, Ordered, StoreOutput, TierInv, LookupLocal;
    var c := f.caches[op.worker];
    assert CacheInv(c, f.owners);
    match op {
      case RegisterOp(_, k, newId, _, _, _, latency, _, _) =>
        var c1 := WithRegistration(c, k, newId, latency);
        SameOrder(c, c1);
        StoreEvictsLater(a, c1, RegisteredId(c, k, newId), EntryOf(ttls, op));
      case LookupOp(_, k, useShared, reading, now) =>
        LocalLookupKeepsOrder(c, k, now);
        LocalLookupEvictsLater(a, c, k, now);
        var c1 := LookupLocal(c, k, now).0;
        if f.tier.Some? && k in f.tier.value {
          WithNodeIsOrdered(c1, k, f.tier.value[k]);
          StoreEvictsLater(a, WithNode(c1, k, f.tier.value[k]), f.tier.value[k].nodeId,
                           LocalCopy(ttls, k, f.tier.value[k], reading, now));
        }
      case FindOp(_, _) =>
    }
  }

  lemma {:induction false} RunEvictsLater(ttls: Ttls, run: seq<Fleet>, ops: seq<Op>, w: nat, m: nat, i: nat)
    requires IsFleetRun(ttls, run, ops) && m <= i <= |ops| && w < |run[m].caches|
    ensures w < |run[i].caches| && LaterEvictions(run[m].caches[w], run[i].caches[w])
    decreases i
  {
    hide Legal, FleetInv, Empty, Apply, LaterEvictions;
    if m < i {
      RunEvictsLater(ttls, run, ops, w, m, i - 1);
      FleetRunKeeps(ttls, run, ops, i - 1);
      StepEvictsLater(ttls, run[m].caches[w], run[i - 1], ops[i - 1], w);
    } else {
      NothingLater(run[m].caches[w]);
    }
  }

  /** An id used last in a is not evicted until maxEntries more ids were used. */
  lemma JustUsedIsKept(a: Cache, b: Cache, id: Id)
    requires LaterEvictions(a, b) && Recent(b) && a.uses != [] && a.uses[|a.uses| - 1] == id
    requires |b.uses| - |a.uses| < b.maxEntries
    ensures forall n | |a.evicted| <= n < |b.evicted| :: b.evicted[n].id != id
  {
    forall n | |a.evicted| <= n < |b.evicted| ensures b.evicted[n].id != id {
      var e := b.evicted[n];
      assert EvictionOk(b.uses, e, b.maxEntries);
      if e.id == id {
        var uses := b.uses[..e.at];
        LastUseOfUsed(uses, id);
        assert uses[|a.uses| - 1] == id;
        ElementsAreFew(uses[|a.uses|..]);
        SubsetIsSmaller(UsedAfter(uses, id), Elements(uses[|a.uses|..]));
      }
    }
  }

  /** A registered entry is not evicted while its worker stores and hits fewer than max_entries times. */
  lemma KeptWhileFewAreUsed(ttls: Ttls, run: seq<Fleet>, ops: seq<Op>, t: nat, i: nat, ttl: int) returns (id: Id)
    requires IsFleetRun(ttls, run, ops) && t < i <= |ops| && ops[t].RegisterOp?
    requires FleetInv(run[t]) && Legal(run[t], ops[t]) && IsTtl(ttls, ops[t].key.capability, ops[t].success, ttl)
    requires forall j | t < j < i :: Spares(ops[j], ops[t].worker, ops[t].key, Some(ops[t].now + ttl as real))
    ensures var w := ops[t].worker; w < |run[t + 1].caches| && w < |run[i].caches|
    ensures
      var w := ops[t].worker;
      var before, after := run[t + 1].caches[w], run[i].caches[w];
      |after.uses| - |before.uses| < after.maxEntries ==>
        Undisturbed(run, ops, w, ops[t].key, id, Some(ops[t].now + ttl as real), t + 1, i) &&
        ops[t].key in after.ids && after.ids[ops[t].key] == id
  {
    hide Balanced, Averaged, Ordered, Apply, TierInv, Recent, LaterEvictions, EntryOf;
    var w, key := ops[t].worker, ops[t].key;
    id := RegistrationHolds(ttls, run[t], ops[t], ttl);
    RegistrationIsUsed(ttls, run[t], ops[t], id);
    RunEvictsLater(ttls, run, ops, w, t + 1, i);
    FleetRunKeeps(ttls, run, ops, i);
    assert CacheInv(run[i].caches[w], run[i].owners);
    if |run[i].caches[w].uses| - |run[t + 1].caches[w].uses| < run[i].caches[w].maxEntries {
      JustUsedIsKept(run[t + 1].caches[w], run[i].caches[w], id);
      EntryStays(ttls, run, ops, w, key, id,
                 Entry(ops[t].state, ops[t].next, ops[t].success, Some(ops[t].now + ttl as real), key, ops[t].now), t + 1, i);
    }
  }

  lemma RegistrationIsUsed(ttls: Ttls, f: Fleet, op: Op, id: Id)
    requires FleetInv(f) && Legal(f, op) && op.RegisterOp?
    requires id == RegisteredId(f.caches[op.worker], op.key, op.newId)
    ensures
      var f' := Apply(ttls, f, op);
      op.worker < |f'.caches| && f'.caches[op.worker].uses == f.caches[op.worker].uses + [id]
  {
    hide Recent, Balanced, Averaged, Ordered, TierInv;
    assert CacheInv(f.caches[op.worker], f.owners);
  }

  // ---------- The shared tier ----------

  lemma {:induction false} SharedStays(ttls: Ttls, run: seq<Fleet>, ops: seq<Op>, key: LookupKey, m: nat, i: nat)
    requires IsFleetRun(ttls, run, ops) && m <= i <= |ops| && run[m].tier.Some? && key in run[m].tier.value
    requires forall j | m <= j < i && ops[j].RegisterOp? && ops[j].persist :: ops[j].key != key
    ensures run[i].tier.Some? && key in run[i].tier.value && run[i].tier.value[key] == run[m].tier.value[key]
    decreases i
  {
    hide Legal, FleetInv, Empty;
    if m < i {
      SharedStays(ttls, run, ops, key, m, i - 1);
      FleetRunKeeps(ttls, run, ops, i - 1);
    }
  }

  /** What a persisted registration leaves in the shared tier: without an expiry when the TTL is not positive. */
  lemma RegistrationIsShared(ttls: Ttls, f: Fleet, op: Op, ttl: int) returns (id: Id)
    requires FleetInv(f) && Legal(f, op) && op.RegisterOp? && op.persist && f.tier.Some?
    requires IsTtl(ttls, op.key.capability, op.success, ttl)
    ensures
      var f' := Apply(ttls, f, op);
      && f'.tier.Some? && op.key in f'.tier.value
      && f'.tier.value[op.key] == Shared(id, op.state, op.next, op.latency, op.success,
                                         if ttl > 0 then Some(op.now + ttl as real) else None, op.now)
    ensures id == if op.key in f.caches[op.worker].ids then f.caches[op.worker].ids[op.key] else op.newId
  {
    hide Recent, Balanced, Averaged, Ordered, Register, TierInv;
    id := RegisteredId(f.caches[op.worker], op.key, op.newId);
  }

  /**
   * A persisted result is returned to every worker that asks the shared tier and has no live entry of its own, until its
   * TTL is over, or for good when the TTL is not positive, while nobody persists the key again and the entry does not
   * vanish before its TTL is read; and afterwards nothing is.
   */
  lemma SharedIsReturned(ttls: Ttls, run: seq<Fleet>, ops: seq<Op>, t: nat, i: nat, ttl: int) returns (id: Id)
    requires IsFleetRun(ttls, run, ops) && t < i < |ops| && ops[t].RegisterOp? && ops[t].persist && run[t].tier.Some?
    requires ops[i].LookupOp? && ops[i].key == ops[t].key && ops[i].useShared
    requires IsTtl(ttls, ops[t].key.capability, ops[t].success, ttl)
    requires forall j | t < j < i && ops[j].RegisterOp? && ops[j].persist :: ops[j].key != ops[t].key
    requires FleetInv(run[t]) && Legal(run[t], ops[t]) && FleetInv(run[i]) && Legal(run[i], ops[i])
    ensures
      var own, key, now := run[i].caches[ops[i].worker], ops[i].key, ops[i].now;
      Hit(ttls, run[i], ops[i]) ==
        if Answers(own, key, now) then
          Some(Cached(own.ids[key], own.outputs[own.ids[key]].state, own.outputs[own.ids[key]].next))
        else if (ttl <= 0 || now < ops[t].now + ttl as real) && ops[i].reading != Absent then
          Some(Cached(id, ops[t].state, ops[t].next))
        else None
  {
    hide Recent, Balanced, Averaged, Ordered, Apply, TierInv, Lookup;
    id := RegistrationIsShared(ttls, run[t], ops[t], ttl);
    SharedStays(ttls, run, ops, ops[t].key, t + 1, i);
    assert CacheInv(run[i].caches[ops[i].worker], run[i].owners);
    LookupAnswers(run[i].caches[ops[i].worker], ttls, run[i].tier, ops[i].key, ops[i].useShared, ops[i].reading, ops[i].now);
  }

  /** The expiry of a local copy: none if the shared entry has none, the reported seconds, or the TTL if unreadable. */
  predicate Inherits(ttls: Ttls, capability: string, reading: Reading, now: real, expiresAt: Option<real>) {
    match reading
    case NoExpiry => expiresAt == None
    case Seconds(n) => expiresAt == Some(now + (if n >= 0 then n else 0) as real)
    case _ =>
      var ttl := if capability in ttls.byCapability then ttls.byCapability[capability]
                 else if ttls.default != 0 then ttls.default else 30;
      expiresAt == Some(now + ttl as real)
  }

  lemma HydrationHolds(ttls: Ttls, f: Fleet, op: Op) returns (e: Entry)
    requires FleetInv(f) && Legal(f, op) && op.LookupOp? && !Answers(f.caches[op.worker], op.key, op.now)
    requires SharedAnswers(f.tier, op.key, op.useShared, op.reading, op.now)
    requires f.tier.value[op.key].nodeId !in f.caches[op.worker].nodes
    ensures
      var shared, f' := f.tier.value[op.key], Apply(ttls, f, op);
      && op.worker < |f'.caches| && Holds(f'.caches[op.worker], op.key, shared.nodeId, e)
      && e.state == shared.state && e.next == shared.next && e.success == shared.success && e.bornAt == shared.bornAt
      && Inherits(ttls, op.key.capability, op.reading, op.now, e.expiresAt)
  {
    e := LocalCopy(ttls, op.key, f.tier.value[op.key], op.reading, op.now);
    InheritedIs(ttls, op.key, f.tier.value[op.key], op.reading, op.now);
    hide Recent, Balanced, Averaged, Ordered, Lookup, Answers, TierInv, Inherits, InheritedExpiry;
    assert CacheInv(f.caches[op.worker], f.owners);
    NewIdIsLinked(f.caches[op.worker], ttls, f.tier, op.key, op.useShared, op.reading, op.now);
  }

  lemma InheritedIs(ttls: Ttls, key: LookupKey, shared: Shared, reading: Reading, now: real)
    requires reading != Absent
    ensures Inherits(ttls, key.capability, reading, now, LocalCopy(ttls, key, shared, reading, now).expiresAt)
  {}

  lemma MissUnlinks(c: Cache, key: LookupKey, now: real)
    requires (key in c.ids ==> c.ids[key] in c.nodes && c.ids[key] in c.outputs) && !Answers(c, key, now)
    ensures var (c', found) := LookupLocal(c, key, now); found.None? && key !in c'.ids && c'.nodes == c.nodes
  {}

  lemma NewIdIsLinked(c: Cache, ttls: Ttls, tier: Option<Tier>, key: LookupKey, useShared: bool, reading: Reading,
                      now: real)
    requires Coherent(c) && !Answers(c, key, now) && SharedAnswers(tier, key, useShared, reading, now)
    requires tier.value[key].nodeId !in c.nodes
    ensures Holds(Lookup(c, ttls, tier, key, useShared, reading, now).0, key, tier.value[key].nodeId,
                  LocalCopy(ttls, key, tier.value[key], reading, now))
  {
    hide Ordered, StoreOutput, LookupLocal, LocalCopy, Answers;
    MissUnlinks(c, key, now);
    LocalLookupKeepsOrder(c, key, now);
    var c1, shared := LookupLocal(c, key, now).0, tier.value[key];
    WithNodeIsOrdered(c1, key, shared);
    StoredHolds(WithNode(c1, key, shared), shared.nodeId, LocalCopy(ttls, key, shared, reading, now), key);
  }

  lemma StoreAddsNoLink(c: Cache, id: Id, entry: Entry, key: LookupKey)
    requires Ordered(c) && key !in c.ids
    ensures key !in StoreOutput(c, id, entry).ids
  {}

  /**
   * A hydrated entry is linked, so that the worker finds it by itself from then on, exactly when its id is new to the
   * worker. An id the worker still has a node for, such as that of its own expired entry, is stored without a link.
   */
  lemma HydrationLinksIffNew(ttls: Ttls, f: Fleet, op: Op)
    requires FleetInv(f) && Legal(f, op) && op.LookupOp? && !Answers(f.caches[op.worker], op.key, op.now)
    requires SharedAnswers(f.tier, op.key, op.useShared, op.reading, op.now)
    ensures
      var f' := Apply(ttls, f, op);
      op.worker < |f'.caches| &&
      (op.key in f'.caches[op.worker].ids <==> f.tier.value[op.key].nodeId !in f.caches[op.worker].nodes)
  {
    if f.tier.value[op.key].nodeId !in f.caches[op.worker].nodes {
      var _ := HydrationHolds(ttls, f, op);
    } else {
      hide Recent, Balanced, Averaged, Ordered, Lookup, Answers, TierInv;
      assert CacheInv(f.caches[op.worker], f.owners);
      KnownIdIsNotLinked(f.caches[op.worker], ttls, f.tier, op.key, op.useShared, op.reading, op.now);
    }
  }

  lemma KnownIdIsNotLinked(c: Cache, ttls: Ttls, tier: Option<Tier>, key: LookupKey, useShared: bool, reading: Reading,
                           now: real)
    requires Coherent(c) && !Answers(c, key, now) && SharedAnswers(tier, key, useShared, reading, now)
    requires tier.value[key].nodeId in c.nodes
    ensures key !in Lookup(c, ttls, tier, key, useShared, reading, now).0.ids
  {
    hide Ordered, StoreOutput, LookupLocal, LocalCopy, Answers;
    MissUnlinks(c, key, now);
    LocalLookupKeepsOrder(c, key, now);
    StoreAddsNoLink(LookupLocal(c, key, now).0, tier.value[key].nodeId, LocalCopy(ttls, key, tier.value[key], reading, now),
                    key);
  }

  /**
   * What a worker took over from the shared tier, under an id new to it, answers its later lookups of the key until the
   * expiry it inherited, whatever becomes of the shared tier.
   */
  lemma HydratedIsReturned(ttls: Ttls, run: seq<Fleet>, ops: seq<Op>, m: nat, i: nat) returns (expiresAt: Option<real>)
    requires IsFleetRun(ttls, run, ops) && m < i < |ops| && ops[m].LookupOp? && ops[i].LookupOp?
    requires ops[i].worker == ops[m].worker && ops[i].key == ops[m].key
    requires FleetInv(run[m]) && Legal(run[m], ops[m]) && FleetInv(run[i]) && Legal(run[i], ops[i])
    requires !Answers(run[m].caches[ops[m].worker], ops[m].key, ops[m].now)
    requires SharedAnswers(run[m].tier, ops[m].key, ops[m].useShared, ops[m].reading, ops[m].now)
    requires run[m].tier.value[ops[m].key].nodeId !in run[m].caches[ops[m].worker].nodes
    ensures Inherits(ttls, ops[m].key.capability, ops[m].reading, ops[m].now, expiresAt)
    ensures ops[m].worker < |run[m + 1].caches|
    ensures
      var shared := run[m].tier.value[ops[m].key];
      Undisturbed(run, ops, ops[m].worker, ops[m].key, shared.nodeId, expiresAt, m + 1, i) &&
      AliveAt(expiresAt, ops[i].now) ==>
        Hit(ttls, run[i], ops[i]) == Some(Cached(shared.nodeId, shared.state, shared.next))
  {
    hide Recent, Balanced, Averaged, Ordered, Apply, TierInv, Lookup, Inherits;
    var e := HydrationHolds(ttls, run[m], ops[m]);
    expiresAt := e.expiresAt;
    var w, key, id := ops[m].worker, ops[m].key, run[m].tier.value[ops[m].key].nodeId;
    if Undisturbed(run, ops, w, key, id, expiresAt, m + 1, i) {
      EntryStays(ttls, run, ops, w, key, id, e, m + 1, i);
      assert CacheInv(run[i].caches[w], run[i].owners);
      LookupAnswers(run[i].caches[w], ttls, run[i].tier, key, ops[i].useShared, ops[i].reading, ops[i].now);
    }
  }
}
