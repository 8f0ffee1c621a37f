/**
 * The shared computation cache as a value: three linked dictionaries (nodes, key to id, LRU-ordered outputs) and the
 * second tier shared by all workers. ComputationGraph is the object with these fields.
 */
module ComputationCache {
  import opened Wrappers
  import opened JsonValues
  import opened Collections

  /** uuid4 ids. */
  type Id = int

  /** `capability:hash(capability, input, public state)`; the hash is injective, so the key is what is hashed. */
  datatype LookupKey = LookupKey(capability: string, input: Object, state: Object)

  /** `shortest` and `longest` are history: the extremes of the latencies folded into the average. */
  datatype Node = Node(key: LookupKey, executionCount: nat, avgLatency: real, shortest: real, longest: real)

  /** `bornAt` is history: when the state was registered. */
  datatype Entry = Entry(state: Object, next: Option<string>, success: bool, expiresAt: Option<real>, key: LookupKey,
                         bornAt: real)

  datatype Shared = Shared(nodeId: Id, state: Object, next: Option<string>, latency: real, success: bool,
                           expiresAt: Option<real>, bornAt: real)

  type Tier = map<LookupKey, Shared>

  /** An id that was dropped when `uses` had length `at`. */
  datatype Eviction = Eviction(id: Id, at: nat)

  /** `order` is the OrderedDict's order, oldest first. The last five fields are history. */
  datatype Cache = Cache(
    nodes: map<Id, Node>, ids: map<LookupKey, Id>, outputs: map<Id, Entry>, order: seq<Id>, maxEntries: nat,
    hits: nat, misses: nat, redisHits: nat, negativeHits: nat, evictions: nat,
    uses: seq<Id>, evicted: seq<Eviction>, retiredReuse: int, reregistered: nat, finds: nat)

  datatype Ttls = Ttls(byCapability: map<string, int>, default: int, negative: int)

  // ---------- Operations ----------

  function TtlFor(ttls: Ttls, capability: string, success: bool): int {
    if !success then (if ttls.negative > 1 then ttls.negative else 1)
    else if capability in ttls.byCapability then ttls.byCapability[capability]
    else if ttls.default == 0 then 30 else ttls.default
  }

  function Without(s: seq<Id>, id: Id): (r: seq<Id>)
    ensures forall x :: x in r <==> x in s && x != id
  {
    if s == [] then [] else if s[0] == id then Without(s[1..], id) else [s[0]] + Without(s[1..], id)
  }

  /** `move_to_end`, which is what makes an entry most recently used. */
  function Touch(c: Cache, id: Id): Cache {
    c.(order := Without(c.order, id) + [id], uses := c.uses + [id])
  }

  /** The OrderedDict lists exactly the stored ids, each once, and the bound holds. */
  ghost predicate Ordered(c: Cache) {
    Distinct(c.order) && Elements(c.order) == c.outputs.Keys && |c.order| <= c.maxEntries && c.maxEntries >= 1
  }

  /** The oldest entry goes, with its node and, if they still point at it, its key. */
  function EvictOldest(c: Cache): Cache
    requires c.order != [] && c.order[0] in c.outputs
  {
    var id := c.order[0];
    var key := c.outputs[id].key;
    c.(outputs := c.outputs - {id}, order := c.order[1..],
       ids := if key in c.ids && c.ids[key] == id then c.ids - {key} else c.ids,
       nodes := c.nodes - {id}, evictions := c.evictions + 1,
       evicted := c.evicted + [Eviction(id, |c.uses|)],
       retiredReuse := c.retiredReuse + if id in c.nodes then c.nodes[id].executionCount - 1 else 0)
  }

  function Stored(c: Cache, id: Id, entry: Entry): Cache {
    Touch(c.(outputs := c.outputs[id := entry]), id)
  }

  /** An entry is written as most recently used; when that exceeds the bound, one entry is evicted. */
  function StoreOutput(c: Cache, id: Id, entry: Entry): Cache
    requires Ordered(c)
  {
    StoredIsOrdered(c, id, entry);
    if |Stored(c, id, entry).order| <= c.maxEntries then Stored(c, id, entry) else EvictOldest(Stored(c, id, entry))
  }

  /** Folding a latency into a node: the count goes up first, and hits have raised it too. */
  function Fold(n: Node, latency: real): Node {
    var count := n.executionCount + 1;
    n.(executionCount := count,
       avgLatency := (n.avgLatency * (count - 1) as real + latency) / count as real,
       shortest := if latency < n.shortest then latency else n.shortest,
       longest := if latency > n.longest then latency else n.longest)
  }

  function Counted(c: Cache, id: Id): Cache
    requires id in c.nodes
  {
    c.(nodes := c.nodes[id := c.nodes[id].(executionCount := c.nodes[id].executionCount + 1)])
  }

  function FindShared(c: Cache, key: LookupKey): Cache
    requires key in c.ids ==> c.ids[key] in c.nodes
  {
    if key in c.ids then Counted(c, c.ids[key]).(finds := c.finds + 1) else c
  }

  function RegisteredId(c: Cache, key: LookupKey, newId: Id): Id {
    if key in c.ids then c.ids[key] else newId
  }

  /** The node a registration is stored under: a known key's node with the latency folded in, or a fresh one. */
  function WithRegistration(c: Cache, key: LookupKey, newId: Id, latency: real): Cache
    requires key in c.ids ==> c.ids[key] in c.nodes
  {
    if key in c.ids then
      c.(nodes := c.nodes[c.ids[key] := Fold(c.nodes[c.ids[key]], latency)], reregistered := c.reregistered + 1)
    else c.(nodes := c.nodes[newId := Node(key, 1, latency, latency, latency)], ids := c.ids[key := newId])
  }

  /** Registering under a known key folds into the existing node; otherwise a fresh id is used. */
  function Register(c: Cache, key: LookupKey, newId: Id, entry: Entry, latency: real): Cache
    requires Ordered(c) && (key in c.ids ==> c.ids[key] in c.nodes)
  {
    StoreOutput(WithRegistration(c, key, newId, latency), RegisteredId(c, key, newId), entry)
  }

  datatype Cached = Cached(id: Id, state: Object, next: Option<string>)

  /** An expired entry loses its key and its output, but its node stays. */
  function Expire(c: Cache, key: LookupKey, id: Id): Cache {
    c.(ids := c.ids - {key}, outputs := c.outputs - {id}, order := Without(c.order, id))
  }

  predicate Expired(e: Entry, now: real) {
    e.expiresAt.Some? && now >= e.expiresAt.value
  }

  /** The worker's own tier. */
  function LookupLocal(c: Cache, key: LookupKey, now: real): (Cache, Option<Cached>)
    requires key in c.ids ==> c.ids[key] in c.nodes
  {
    if key !in c.ids || c.ids[key] !in c.outputs then (c, None)
    else
      var id := c.ids[key];
      var e := c.outputs[id];
      if Expired(e, now) then (Expire(c, key, id), None)
      else
        (Touch(Counted(c, id), id).(hits := c.hits + 1, negativeHits := c.negativeHits + if e.success then 0 else 1),
         Some(Cached(id, e.state, e.next)))
  }

  /** What the TTL command reported about a shared entry. */
  datatype Reading = Absent | NoExpiry | Seconds(n: int) | Unreadable

  /** The expiry a local copy inherits from the shared entry. */
  function InheritedExpiry(ttls: Ttls, capability: string, reading: Reading, now: real): Option<real> {
    match reading
    case NoExpiry => None
    case Seconds(n) => Some(now + (if n > 0 then n else 0) as real)
    case _ => Some(now + TtlFor(ttls, capability, true) as real)
  }

  /** The node a shared entry is stored under; the key is linked only if the node is new to this worker. */
  function WithNode(c: Cache, key: LookupKey, shared: Shared): Cache {
    if shared.nodeId in c.nodes then c
    else c.(nodes := c.nodes[shared.nodeId := Node(key, 1, shared.latency, shared.latency, shared.latency)],
            ids := c.ids[key := shared.nodeId])
  }

  function LocalCopy(ttls: Ttls, key: LookupKey, shared: Shared, reading: Reading, now: real): Entry {
    Entry(shared.state, shared.next, shared.success, InheritedExpiry(ttls, key.capability, reading, now), key,
          shared.bornAt)
  }

  /** A hydration counts as an execution of its node, if that is still there, and as a hit. */
  function CountedHydration(c: Cache, shared: Shared): Cache {
    var c1 := if shared.nodeId in c.nodes then Counted(c, shared.nodeId) else c;
    c1.(hits := c.hits + 1, redisHits := c.redisHits + 1, negativeHits := c.negativeHits + if shared.success then 0 else 1)
  }

  /** A shared entry becomes a local one. */
  function Hydrate(c: Cache, ttls: Ttls, key: LookupKey, shared: Shared, reading: Reading, now: real): Cache
    requires Ordered(c)
  {
    CountedHydration(StoreOutput(WithNode(c, key, shared), shared.nodeId, LocalCopy(ttls, key, shared, reading, now)),
                     shared)
  }

  /** The shared entry a reader sees: the tier drops entries at their expiry. */
  function Visible(tier: Tier, key: LookupKey, now: real): Option<Shared> {
    if key in tier && !(tier[key].expiresAt.Some? && now >= tier[key].expiresAt.value) then Some(tier[key]) else None
  }

  /** `get_cached_result_by_key`: the worker's own tier first, then the shared one. */
  function Lookup(c: Cache, ttls: Ttls, tier: Option<Tier>, key: LookupKey, useShared: bool, reading: Reading, now: real)
    : (Cache, Option<Cached>)
    requires Ordered(c) && (key in c.ids ==> c.ids[key] in c.nodes)
  {
    var (c1, cached) := LookupLocal(c, key, now);
    LocalLookupKeepsOrder(c, key, now);
    if cached.Some? || !useShared then (c1, cached)
    else
      var shared := if tier.Some? then Visible(tier.value, key, now) else None;
      if shared.None? || reading.Absent? then (c1.(misses := c1.misses + 1), None)
      else
        (Hydrate(c1, ttls, key, shared.value, reading, now),
         Some(Cached(shared.value.nodeId, shared.value.state, shared.value.next)))
  }

  /** Writing to the shared tier: no expiry at all when the TTL is not positive. */
  function Share(tier: Tier, key: LookupKey, id: Id, entry: Entry, latency: real, ttl: int, now: real): Tier {
    tier[key := Shared(id, entry.state, entry.next, latency, entry.success,
                       if ttl > 0 then Some(now + ttl as real) else None, entry.bornAt)]
  }

  // ---------- The order is kept ----------

  lemma WithNodeIsOrdered(c: Cache, key: LookupKey, shared: Shared)
    requires Ordered(c)
    ensures Ordered(WithNode(c, key, shared))
  {}

  lemma {:induction false} WithoutIsDistinct(s: seq<Id>, id: Id)
    requires Distinct(s)
    ensures Distinct(Without(s, id))
    ensures |Without(s, id)| == |s| - if id in s then 1 else 0
  {
    if s != [] {
      var rest := s[1..];
      assert Distinct(rest) && s[0] !in rest && s == [s[0]] + rest;
      WithoutIsDistinct(rest, id);
    }
  }

  lemma StoredIsOrdered(c: Cache, id: Id, entry: Entry)
    requires Ordered(c)
    ensures
      var c' := Stored(c, id, entry);
      && Distinct(c'.order) && Elements(c'.order) == c'.outputs.Keys && |c'.order| <= c.maxEntries + 1
      && c'.order != [] && c'.order[0] in c'.outputs && (|c'.order| > c.maxEntries ==> c'.order[0] != id)
  {
    WithoutIsDistinct(c.order, id);
    var c' := Stored(c, id, entry);
    forall x ensures x in Elements(c'.order) <==> x in c'.outputs.Keys {
      assert x in Elements(c.order) <==> x in c.outputs.Keys;
    }
    assert c'.order[0] in Elements(c'.order);
  }

  lemma StoreKeepsOrder(c: Cache, id: Id, entry: Entry)
    requires Ordered(c)
    ensures Ordered(StoreOutput(c, id, entry)) && id in StoreOutput(c, id, entry).outputs
  {
    StoredIsOrdered(c, id, entry);
    var c', c'' := Stored(c, id, entry), StoreOutput(c, id, entry);
    if |c'.order| > c.maxEntries {
      forall x ensures x in Elements(c''.order) <==> x in c''.outputs.Keys {
        assert x in Elements(c'.order) <==> x in c'.outputs.Keys;
      }
    }
  }

  lemma LocalLookupKeepsOrder(c: Cache, key: LookupKey, now: real)
    requires Ordered(c) && (key in c.ids ==> c.ids[key] in c.nodes)
    ensures Ordered(LookupLocal(c, key, now).0)
  {
    if key in c.ids && c.ids[key] in c.outputs {
      var id := c.ids[key];
      WithoutIsDistinct(c.order, id);
      assert id in Elements(c.order);
      var c' := LookupLocal(c, key, now).0;
      forall x ensures x in Elements(c'.order) <==> x in c'.outputs.Keys {
        assert x in Elements(c.order) <==> x in c.outputs.Keys;
      }
    }
  }
}
