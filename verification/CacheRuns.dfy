/** Any number of workers, each with its own cache, over one shared tier: what holds after every sequence of operations. */
module CacheRuns {
  import opened Wrappers
  import opened JsonValues
  import opened ComputationCache
  import opened CacheProperties
  import opened CacheRecency
  import opened CacheAccounting
  import opened CacheFreshness

  /** `owners` is history: the key each id was created for. */
  datatype Fleet = Fleet(caches: seq<Cache>, tier: Option<Tier>, owners: map<Id, LookupKey>)

  datatype Op =
    | RegisterOp(worker: nat, key: LookupKey, newId: Id, state: Object, next: Option<string>, success: bool,
                 latency: real, persist: bool, now: real)
    | LookupOp(worker: nat, key: LookupKey, useShared: bool, reading: Reading, now: real)
    | FindOp(worker: nat, key: LookupKey)

  function EntryOf(ttls: Ttls, op: Op): Entry
    requires op.RegisterOp?
  {
    Entry(op.state, op.next, op.success, Some(op.now + TtlFor(ttls, op.key.capability, op.success) as real), op.key, op.now)
  }

  /** New ids are fresh (uuid4); TTLs and TTL readings may be anything. */
  predicate Legal(f: Fleet, op: Op) {
    op.worker < |f.caches| && (op.RegisterOp? ==> op.newId !in f.owners)
  }

  ghost predicate CacheInv(c: Cache, owners: map<Id, LookupKey>) {
    Linked(c, owners) && Recent(c) && Balanced(c) && Averaged(c)
  }

  ghost predicate TierInv(tier: Tier, owners: map<Id, LookupKey>) {
    forall k | k in tier :: tier[k].nodeId in owners && owners[tier[k].nodeId] == k
  }

  ghost predicate FleetInv(f: Fleet) {
    && (forall w | 0 <= w < |f.caches| :: CacheInv(f.caches[w], f.owners))
    && (f.tier.Some? ==> TierInv(f.tier.value, f.owners))
  }

  ghost predicate Empty(f: Fleet) {
    && f.owners == map[] && f.tier in {None, Some(map[])}
    && forall w | 0 <= w < |f.caches| :: exists max: nat ::
         max >= 1 && f.caches[w] == Cache(map[], map[], map[], [], max, 0, 0, 0, 0, 0, [], [], 0, 0, 0)
  }

  ghost function Apply(ttls: Ttls, f: Fleet, op: Op): Fleet
    requires FleetInv(f) && Legal(f, op)
  {
    var c := f.caches[op.worker];
    assert CacheInv(c, f.owners);
    match op
    case RegisterOp(w, key, newId, _, _, success, latency, persist, now) =>
      var e := EntryOf(ttls, op);
      Fleet(f.caches[w := Register(c, key, newId, e, latency)],
            if persist && f.tier.Some? then
              Some(Share(f.tier.value, key, RegisteredId(c, key, newId), e, latency,
                         TtlFor(ttls, key.capability, success), now))
            else f.tier,
            f.owners[newId := key])
    case LookupOp(w, key, useShared, reading, now) =>
      f.(caches := f.caches[w := Lookup(c, ttls, f.tier, key, useShared, reading, now).0])
    case FindOp(w, key) => f.(caches := f.caches[w := FindShared(c, key)])
  }

  // ---------- One operation ----------

  lemma RegisterKeeps(c: Cache, key: LookupKey, newId: Id, entry: Entry, latency: real, owners: map<Id, LookupKey>)
    requires CacheInv(c, owners) && entry.key == key && newId !in owners
    ensures CacheInv(Register(c, key, newId, entry, latency), owners[newId := key])
  {
    hide Register, Recent, Balanced, Averaged, Ordered;
    RegisterLinks(c, key, newId, entry, latency, owners);
    RegisterKeepsRecency(c, key, newId, entry, latency);
    RegisterBalances(c, key, newId, entry, latency);
  }

  lemma LookupKeeps(ttls: Ttls, c: Cache, tier: Option<Tier>, key: LookupKey, useShared: bool, reading: Reading, now: real,
                    owners: map<Id, LookupKey>)
    requires CacheInv(c, owners) && (tier.Some? ==> TierInv(tier.value, owners))
    ensures CacheInv(Lookup(c, ttls, tier, key, useShared, reading, now).0, owners)
  {
    hide LookupLocal, Hydrate, Recent, Balanced, Averaged, Ordered;
    var (c1, cached) := LookupLocal(c, key, now);
    LocalLookupLinks(c, key, now, owners);
    LocalLookupKeepsRecency(c, key, now);
    LocalLookupBalances(c, key, now);
    if cached.None? && useShared {
      var shared := if tier.Some? then Visible(tier.value, key, now) else None;
      if shared.Some? && !reading.Absent? {
        HydrateLinks(c1, ttls, key, shared.value, reading, now, owners);
        HydrateKeepsRecency(c1, ttls, key, shared.value, reading, now);
        HydrateBalances(c1, ttls, key, shared.value, reading, now);
      } else {
        MissKeeps(c1, owners);
      }
    }
  }

  lemma MissKeeps(c: Cache, owners: map<Id, LookupKey>)
    requires CacheInv(c, owners)
    ensures CacheInv(c.(misses := c.misses + 1), owners)
  {}

  lemma FindKeeps(c: Cache, key: LookupKey, owners: map<Id, LookupKey>)
    requires CacheInv(c, owners)
    ensures CacheInv(FindShared(c, key), owners)
  {
    hide Balanced, Averaged;
    FindBalances(c, key);
  }

  lemma MoreOwners(c: Cache, owners: map<Id, LookupKey>, id: Id, key: LookupKey)
    requires CacheInv(c, owners) && id !in owners
    ensures CacheInv(c, owners[id := key])
  {}

  /** One worker's operation keeps everybody's invariant, whatever the TTLs and whatever the TTL command reported. */
  lemma ApplyKeeps(ttls: Ttls, f: Fleet, op: Op)
    requires FleetInv(f) && Legal(f, op)
    ensures FleetInv(Apply(ttls, f, op))
  {
    hide CacheInv, TierInv, Lookup, Register, FindShared;
    var c, f' := f.caches[op.worker], Apply(ttls, f, op);
    match op {
      case RegisterOp(w, key, newId, _, _, success, latency, persist, now) =>
        RegisterKeeps(c, key, newId, EntryOf(ttls, op), latency, f.owners);
        forall v | 0 <= v < |f.caches| ensures CacheInv(f'.caches[v], f'.owners) {
          if v != w {
            MoreOwners(f.caches[v], f.owners, newId, key);
          }
        }
        if f.tier.Some? {
          ShareKeeps(ttls, f, op);
        }
      case LookupOp(w, key, useShared, reading, now) =>
        LookupKeeps(ttls, c, f.tier, key, useShared, reading, now, f.owners);
      case FindOp(w, key) =>
        FindKeeps(c, key, f.owners);
    }
  }

  lemma ShareKeeps(ttls: Ttls, f: Fleet, op: Op)
    requires FleetInv(f) && Legal(f, op) && op.RegisterOp? && f.tier.Some?
    ensures TierInv(Apply(ttls, f, op).tier.value, f.owners[op.newId := op.key])
  {
    hide Register, Recent, Balanced, Averaged, Ordered;
    var c := f.caches[op.worker];
    assert CacheInv(c, f.owners);
  }

  // ---------- Sequences of operations ----------

  /** The states a fleet goes through, starting from empty caches. */
  ghost predicate IsFleetRun(ttls: Ttls, run: seq<Fleet>, ops: seq<Op>) {
    && |run| == |ops| + 1 && Empty(run[0])
    && forall i | 0 <= i < |ops| :: FleetInv(run[i]) ==> Legal(run[i], ops[i]) && run[i + 1] == Apply(ttls, run[i], ops[i])
  }

  lemma {:induction false} FleetRunKeeps(ttls: Ttls, run: seq<Fleet>, ops: seq<Op>, i: nat)
    requires IsFleetRun(ttls, run, ops) && i <= |ops|
    ensures FleetInv(run[i])
    decreases i
  {
    hide Legal, Apply;
    hide FleetInv, Empty;
    if i == 0 {
      EmptyInv(run[0]);
    } else {
      FleetRunKeeps(ttls, run, ops, i - 1);
      ApplyKeeps(ttls, run[i - 1], ops[i - 1]);
    }
  }

  /**
   * After every sequence of operations of all workers: the dictionaries of each cache are coherent and bounded, so no
   * indexing can fail; only least recently used entries were ever evicted; every reuse is accounted for; and every
   * average lies between the latencies folded into it.
   */
  lemma CachesStayCoherent(ttls: Ttls, run: seq<Fleet>, ops: seq<Op>, i: nat, w: nat)
    requires IsFleetRun(ttls, run, ops) && i <= |ops| && w < |run[i].caches|
    ensures
      var c := run[i].caches[w];
      && Coherent(c) && |c.ids| <= |c.outputs| <= c.maxEntries
      && c.evictions == |c.evicted| && (forall e | e in c.evicted :: EvictionOk(c.uses, e, c.maxEntries))
      && Reuse(c.nodes) + c.retiredReuse == c.hits + c.reregistered + c.finds
      && (forall id | id in c.nodes :: c.nodes[id].shortest <= c.nodes[id].avgLatency <= c.nodes[id].longest)
  {
    hide EvictionOk;
    FleetRunKeeps(ttls, run, ops, i);
    assert CacheInv(run[i].caches[w], run[i].owners);
    SizesAreBounded(run[i].caches[w]);
  }

  // ---------- Where a returned state comes from ----------

  /** Some worker registered exactly this under the key, at that time, among the first n operations. */
  ghost predicate Registered(ops: seq<Op>, n: nat, key: LookupKey, state: Object, next: Option<string>, success: bool,
                             at: real)
    requires n <= |ops|
  {
    exists j | 0 <= j < n :: ops[j].RegisterOp? && ops[j].key == key && ops[j].state == state && ops[j].next == next &&
                             ops[j].success == success && ops[j].now == at
  }

  ghost predicate LocalSourced(ops: seq<Op>, n: nat, c: Cache)
    requires n <= |ops|
  {
    forall id | id in c.outputs ::
      var e := c.outputs[id]; Registered(ops, n, e.key, e.state, e.next, e.success, e.bornAt)
  }

  ghost predicate Sourced(ops: seq<Op>, n: nat, f: Fleet)
    requires n <= |ops|
  {
    && (forall w | 0 <= w < |f.caches| :: LocalSourced(ops, n, f.caches[w]))
    && (f.tier.Some? ==> forall k | k in f.tier.value ::
          var e := f.tier.value[k]; Registered(ops, n, k, e.state, e.next, e.success, e.bornAt))
  }

  lemma StoreSources(ops: seq<Op>, n: nat, c: Cache, id: Id, entry: Entry)
    requires Ordered(c) && n <= |ops| && LocalSourced(ops, n, c)
    requires Registered(ops, n, entry.key, entry.state, entry.next, entry.success, entry.bornAt)
    ensures LocalSourced(ops, n, StoreOutput(c, id, entry))
  {}

  lemma LookupSources(ops: seq<Op>, n: nat, ttls: Ttls, c: Cache, tier: Option<Tier>, key: LookupKey, useShared: bool,
                      reading: Reading, now: real)
    requires Ordered(c) && (key in c.ids ==> c.ids[key] in c.nodes) && n <= |ops| && LocalSourced(ops, n, c)
    requires tier.Some? ==> forall k | k in tier.value ::
      var e := tier.value[k]; Registered(ops, n, k, e.state, e.next, e.success, e.bornAt)
    ensures LocalSourced(ops, n, Lookup(c, ttls, tier, key, useShared, reading, now).0)
  {
    hide Registered, Ordered, StoreOutput;
    LocalLookupKeepsOrder(c, key, now);
    var (c1, cached) := LookupLocal(c, key, now);
    assert LocalSourced(ops, n, c1);
    if cached.None? && useShared && tier.Some? && Visible(tier.value, key, now).Some? {
      var shared := tier.value[key];
      WithNodeIsOrdered(c1, key, shared);
      StoreSources(ops, n, WithNode(c1, key, shared), shared.nodeId, LocalCopy(ttls, key, shared, reading, now));
    }
  }

  lemma RegisterSources(ops: seq<Op>, n: nat, c: Cache, key: LookupKey, newId: Id, entry: Entry, latency: real)
    requires Ordered(c) && (key in c.ids ==> c.ids[key] in c.nodes) && n <= |ops| && LocalSourced(ops, n, c)
    requires Registered(ops, n, entry.key, entry.state, entry.next, entry.success, entry.bornAt)
    ensures LocalSourced(ops, n, Register(c, key, newId, entry, latency))
  {
    hide Registered, StoreOutput;
    StoreSources(ops, n, WithRegistration(c, key, newId, latency), RegisteredId(c, key, newId), entry);
  }

  lemma LaterSourced(ops: seq<Op>, n: nat, f: Fleet)
    requires n < |ops| && Sourced(ops, n, f)
    ensures Sourced(ops, n + 1, f)
  {}

  /** One worker's cache and the shared tier are replaced. */
  lemma PutSources(ops: seq<Op>, n: nat, f: Fleet, f': Fleet, w: nat, k: LookupKey)
    requires n <= |ops| && Sourced(ops, n, f) && w < |f.caches| && |f'.caches| == |f.caches|
    requires f'.caches == f.caches[w := f'.caches[w]] && LocalSourced(ops, n, f'.caches[w])
    requires f'.tier == f.tier ||
             (f.tier.Some? && f'.tier.Some? && k in f'.tier.value &&
              var e := f'.tier.value[k];
              f'.tier.value == f.tier.value[k := e] && Registered(ops, n, k, e.state, e.next, e.success, e.bornAt))
    ensures Sourced(ops, n, f')
  {
    hide Registered, LocalSourced;
  }

  lemma ApplySources(ttls: Ttls, f: Fleet, ops: seq<Op>, n: nat)
    requires n < |ops| && FleetInv(f) && Legal(f, ops[n]) && Sourced(ops, n, f)
    ensures Sourced(ops, n + 1, Apply(ttls, f, ops[n]))
  {
    var op := ops[n];
    LaterSourced(ops, n, f);
    assert op.RegisterOp? ==> Registered(ops, n + 1, op.key, op.state, op.next, op.success, op.now);
    hide Registered, LocalSourced, Register, Lookup, FindShared, Recent, Balanced, Averaged, Ordered;
    var c, f' := f.caches[op.worker], Apply(ttls, f, op);
    assert CacheInv(c, f.owners) && LocalSourced(ops, n + 1, c);
    match op {
      case RegisterOp(_, key, newId, _, _, _, latency, _, _) =>
        RegisterSources(ops, n + 1, c, key, newId, EntryOf(ttls, op), latency);
      case LookupOp(_, key, useShared, reading, now) =>
        LookupSources(ops, n + 1, ttls, c, f.tier, key, useShared, reading, now);
      case FindOp(_, key) =>
        FindSources(ops, n + 1, c, key);
    }
    PutSources(ops, n + 1, f, f', op.worker, op.key);
  }

  lemma FindSources(ops: seq<Op>, n: nat, c: Cache, key: LookupKey)
    requires (key in c.ids ==> c.ids[key] in c.nodes) && n <= |ops| && LocalSourced(ops, n, c)
    ensures LocalSourced(ops, n, FindShared(c, key))
  {}

  lemma {:induction false} FleetRunSources(ttls: Ttls, run: seq<Fleet>, ops: seq<Op>, i: nat)
    requires IsFleetRun(ttls, run, ops) && i <= |ops|
    ensures Sourced(ops, i, run[i])
    decreases i
  {
    hide Legal, Apply, FleetInv, Registered, LocalSourced;
    if i == 0 {
      EmptySources(run[0], ops);
    } else {
      FleetRunSources(ttls, run, ops, i - 1);
      FleetRunKeeps(ttls, run, ops, i - 1);
      ApplySources(ttls, run[i - 1], ops, i - 1);
    }
  }

  lemma EmptySources(f: Fleet, ops: seq<Op>)
    requires Empty(f)
    ensures Sourced(ops, 0, f)
  {}

  ghost function Hit(ttls: Ttls, f: Fleet, op: Op): Option<Cached>
    requires FleetInv(f) && Legal(f, op) && op.LookupOp?
  {
    assert CacheInv(f.caches[op.worker], f.owners);
    Lookup(f.caches[op.worker], ttls, f.tier, op.key, op.useShared, op.reading, op.now).1
  }

  /** Whatever any worker's lookup returns, from its own tier or hydrated, some worker registered under that key. */
  lemma HitIsRegistered(ttls: Ttls, run: seq<Fleet>, ops: seq<Op>, i: nat) returns (at: real, success: bool)
    requires IsFleetRun(ttls, run, ops) && i < |ops| && ops[i].LookupOp?
    requires FleetInv(run[i]) && Legal(run[i], ops[i]) && Hit(ttls, run[i], ops[i]).Some?
    ensures
      var hit := Hit(ttls, run[i], ops[i]).value;
      Registered(ops, i, ops[i].key, hit.state, hit.next, success, at)
  {
    FleetRunSources(ttls, run, ops, i);
    hide Recent, Balanced, Averaged, Ordered, Lookup, Registered;
    var op, f := ops[i], run[i];
    assert CacheInv(f.caches[op.worker], f.owners);
    at, success := HitIsFound(ttls, f.caches[op.worker], f.tier, op.key, op.useShared, op.reading, op.now);
    FoundIsRegistered(ops, i, f, op.worker, op.key, Hit(ttls, f, op).value, at, success);
  }

  lemma FoundIsRegistered(ops: seq<Op>, i: nat, f: Fleet, w: nat, key: LookupKey, hit: Cached, at: real, success: bool)
    requires i <= |ops| && w < |f.caches| && Sourced(ops, i, f) && FoundIn(f.caches[w], f.tier, key, hit, at, success)
    ensures Registered(ops, i, key, hit.state, hit.next, success, at)
  {
    hide Registered;
    assert LocalSourced(ops, i, f.caches[w]);
  }

  // ---------- How old a returned state can be ----------

  /** A lookup of this capability reads a TTL that is right to a second, or misses. */
  ghost predicate Readable(f: Fleet, op: Op, capability: string) {
    op.LookupOp? && op.key.capability == capability && f.tier.Some? && Visible(f.tier.value, op.key, op.now).Some? ==>
      op.reading.Absent? || AccurateReading(Visible(f.tier.value, op.key, op.now).value, op.reading, op.now)
  }

  ghost predicate AllReadable(run: seq<Fleet>, ops: seq<Op>, capability: string)
    requires |run| == |ops| + 1
  {
    forall i | 0 <= i < |ops| :: Readable(run[i], ops[i], capability)
  }

  ghost predicate FleetFresh(ttls: Ttls, f: Fleet, capability: string) {
    && (forall w | 0 <= w < |f.caches| :: LocalFresh(ttls, f.caches[w], capability))
    && (f.tier.Some? ==> TierFresh(ttls, f.tier.value, capability))
  }

  lemma LookupIsFresh(ttls: Ttls, f: Fleet, op: Op, capability: string)
    requires FleetInv(f) && Legal(f, op) && op.LookupOp? && FleetFresh(ttls, f, capability) && Readable(f, op, capability)
    ensures LocalFresh(ttls, Apply(ttls, f, op).caches[op.worker], capability)
  {
    hide Recent, Balanced, Averaged, Ordered, Hydrate, AccurateReading, EntryFresh;
    var c, key, now := f.caches[op.worker], op.key, op.now;
    assert CacheInv(c, f.owners) && LocalFresh(ttls, c, capability);
    LocalLookupKeepsOrder(c, key, now);
    var (c1, cached) := LookupLocal(c, key, now);
    assert LocalFresh(ttls, c1, capability);
    if cached.None? && op.useShared && f.tier.Some? && Visible(f.tier.value, key, now).Some? && !op.reading.Absent? {
      HydrateIsFresh(ttls, c1, key, f.tier.value[key], op.reading, now, capability);
    }
  }

  lemma ApplyIsFresh(ttls: Ttls, f: Fleet, op: Op, capability: string)
    requires FleetInv(f) && Legal(f, op) && Positive(ttls, capability)
    requires FleetFresh(ttls, f, capability) && Readable(f, op, capability)
    ensures FleetFresh(ttls, Apply(ttls, f, op), capability)
  {
    hide Recent, Balanced, Averaged, Ordered, Lookup, Register, Readable;
    var c := f.caches[op.worker];
    assert CacheInv(c, f.owners) && LocalFresh(ttls, c, capability);
    match op {
      case RegisterOp(_, key, newId, _, _, _, latency, _, _) =>
        RegisterIsFresh(ttls, c, key, newId, EntryOf(ttls, op), latency, capability);
      case LookupOp(_, _, _, _, _) =>
        LookupIsFresh(ttls, f, op, capability);
      case FindOp(_, _) =>
    }
  }

  lemma {:induction false} FleetRunIsFresh(ttls: Ttls, run: seq<Fleet>, ops: seq<Op>, i: nat, capability: string)
    requires IsFleetRun(ttls, run, ops) && i <= |ops| && Positive(ttls, capability) && AllReadable(run, ops, capability)
    ensures FleetFresh(ttls, run[i], capability)
    decreases i
  {
    hide Legal, Apply, FleetInv, Readable, Positive;
    if i > 0 {
      hide LocalFresh, TierFresh;
      FleetRunIsFresh(ttls, run, ops, i - 1, capability);
      FleetRunKeeps(ttls, run, ops, i - 1);
      ApplyIsFresh(ttls, run[i - 1], ops[i - 1], capability);
    }
  }

  /**
   * Bounded staleness: while the TTL of a capability is positive and its TTL readings are accurate, whatever any
   * worker's lookup returns for it was registered by some worker under that key less than ttl + 1 seconds before.
   */
  lemma HitsAreRecent(ttls: Ttls, run: seq<Fleet>, ops: seq<Op>, i: nat) returns (at: real, success: bool)
    requires IsFleetRun(ttls, run, ops) && i < |ops| && ops[i].LookupOp?
    requires Positive(ttls, ops[i].key.capability) && AllReadable(run, ops, ops[i].key.capability)
    requires FleetInv(run[i]) && Legal(run[i], ops[i]) && Hit(ttls, run[i], ops[i]).Some?
    ensures ops[i].now < at + TtlFor(ttls, ops[i].key.capability, success) as real + 1.0
    ensures
      var hit := Hit(ttls, run[i], ops[i]).value;
      Registered(ops, i, ops[i].key, hit.state, hit.next, success, at)
  {
    assert |run| == |ops| + 1;
    hide Recent, Balanced, Averaged, Ordered, Lookup, Registered, IsFleetRun, AllReadable, LocalFresh, TierFresh;
    FleetRunSources(ttls, run, ops, i);
    FleetRunIsFresh(ttls, run, ops, i, ops[i].key.capability);
    var op, f := ops[i], run[i];
    assert CacheInv(f.caches[op.worker], f.owners);
    at, success := HitIsRecent(ttls, f.caches[op.worker], f.tier, op.key, op.useShared, op.reading, op.now);
    FoundIsRegistered(ops, i, f, op.worker, op.key, Hit(ttls, f, op).value, at, success);
  }

  /** In this run operation i returns a state although every registration of its key is at least `age` seconds past. */
  ghost predicate HitsAtAge(ttls: Ttls, run: seq<Fleet>, ops: seq<Op>, i: nat, age: real) {
    && IsFleetRun(ttls, run, ops) && i < |ops| && ops[i].LookupOp? && AllReadable(run, ops, ops[i].key.capability)
    && FleetInv(run[i]) && Legal(run[i], ops[i]) && Hit(ttls, run[i], ops[i]).Some?
    && forall j | 0 <= j < i && ops[j].RegisterOp? && ops[j].key == ops[i].key :: ops[i].now - ops[j].now >= age
  }

  /** No hit of this capability, in any run, is `age` seconds old. */
  ghost predicate NeverOlder(ttls: Ttls, capability: string, age: real) {
    forall run: seq<Fleet>, ops: seq<Op>, i: nat | HitsAtAge(ttls, run, ops, i, age) :: ops[i].key.capability != capability
  }

  /** With accurate readings the age of hits has a bound exactly when the capability's TTL is positive. */
  lemma AgeIsBoundedIffTtlPositive(ttls: Ttls, capability: string)
    ensures Positive(ttls, capability) <==> exists age :: NeverOlder(ttls, capability, age)
  {
    if Positive(ttls, capability) {
      PositiveBoundsAge(ttls, capability);
    } else {
      forall age ensures !NeverOlder(ttls, capability, age) {
        var run, ops := EndlessHit(ttls, capability, age);
      }
    }
  }

  lemma PositiveBoundsAge(ttls: Ttls, capability: string)
    requires Positive(ttls, capability)
    ensures NeverOlder(ttls, capability, (TtlFor(ttls, capability, true) + TtlFor(ttls, capability, false) + 1) as real)
  {
    hide IsFleetRun, AllReadable, FleetInv, Legal;
    var age := (TtlFor(ttls, capability, true) + TtlFor(ttls, capability, false) + 1) as real;
    forall run: seq<Fleet>, ops: seq<Op>, i: nat | HitsAtAge(ttls, run, ops, i, age) ensures ops[i].key.capability != capability {
      if ops[i].key.capability == capability {
        var at, success := HitsAreRecent(ttls, run, ops, i);
        assert false;
      }
    }
  }

  /** Without a positive TTL: one worker registers and shares, another hydrates without an expiry and hits at any age. */
  lemma EndlessHit(ttls: Ttls, capability: string, age: real) returns (run: seq<Fleet>, ops: seq<Op>)
    requires !Positive(ttls, capability)
    ensures HitsAtAge(ttls, run, ops, 2, age) && ops[2].key.capability == capability
  {
    hide CacheInv, Register;
    var key := LookupKey(capability, map[], map[]);
    var c := Cache(map[], map[], map[], [], 1, 0, 0, 0, 0, 0, [], [], 0, 0, 0);
    ops := [RegisterOp(0, key, 0, map[], None, true, 0.0, true, 0.0), LookupOp(1, key, true, NoExpiry, 0.0),
            LookupOp(1, key, true, NoExpiry, age)];
    var f0 := Fleet([c, c], Some(map[]), map[]);
    EmptyInv(f0);
    var f1 := Apply(ttls, f0, ops[0]);
    ApplyKeeps(ttls, f0, ops[0]);
    var f2 := Apply(ttls, f1, ops[1]);
    ApplyKeeps(ttls, f1, ops[1]);
    var f3 := Apply(ttls, f2, ops[2]);
    run := [f0, f1, f2, f3];
    NonPositiveTtlNeverExpires(ttls, c, map[], key, 0, EntryOf(ttls, ops[0]), 0.0, 0.0, age);
  }

  lemma EmptyInv(f: Fleet)
    requires Empty(f)
    ensures FleetInv(f)
  {
    assert Reuse(map[]) == 0;
  }
}
