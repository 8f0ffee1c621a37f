/** The computation cache object, updated in place, and the tier it shares with other workers. */
module ComputationGraph {
  import opened Wrappers
  import opened JsonValues
  import opened Collections
  import opened ComputationCache
  import opened CacheProperties

  /** The Redis side: keys with values and expiries. */
  class SharedTier {
    var entries: Tier

    constructor ()
      ensures entries == map[]
    {
      entries := map[];
    }
  }

  class ComputationGraph {
    var nodes: map<Id, Node>
    var hashToNode: map<LookupKey, Id>
    var outputs: map<Id, Entry>
    var order: seq<Id>
    var hits: nat
    var misses: nat
    var redisHits: nat
    var negativeHits: nat
    var evictions: nat
    const maxEntries: nat
    const ttls: Ttls
    const redis: SharedTier?

    ghost var uses: seq<Id>
    ghost var evicted: seq<Eviction>
    ghost var retiredReuse: int
    ghost var reregistered: nat
    ghost var finds: nat

    ghost function View(): Cache
      reads this
    {
      Cache(nodes, hashToNode, outputs, order, maxEntries, hits, misses, redisHits, negativeHits, evictions,
            uses, evicted, retiredReuse, reregistered, finds)
    }

    ghost predicate Valid()
      reads this
    {
      Coherent(View())
    }

    constructor (maxEntries: int, ttls: Ttls, redis: SharedTier?)
      ensures Valid() && this.redis == redis && this.ttls == ttls
      ensures View() == Cache(map[], map[], map[], [], if maxEntries > 1 then maxEntries else 1, 0, 0, 0, 0, 0,
                              [], [], 0, 0, 0)
    {
      nodes, hashToNode, outputs, order := map[], map[], map[], [];
      hits, misses, redisHits, negativeHits, evictions := 0, 0, 0, 0, 0;
      this.maxEntries := if maxEntries > 1 then maxEntries else 1;
      this.ttls, this.redis := ttls, redis;
      uses, evicted, retiredReuse, reregistered, finds := [], [], 0, 0, 0;
    }

    /** `_store_output`: assign, move to the end, then evict from the front down to the bound. */
    method StoreOutput(id: Id, entry: Entry)
      requires Ordered(View())
      modifies this
      ensures View() == ComputationCache.StoreOutput(old(View()), id, entry) && Ordered(View())
    {
      hide Ordered, Stored, EvictOldest;
      ghost var before := View();
      StoredIsOrdered(before, id, entry);
      StoreKeepsOrder(before, id, entry);
      Put(id, entry);
      ghost var stored := View();
      SetSize(order, outputs);
      while |outputs| > maxEntries
        invariant View() == stored || (|stored.order| > maxEntries && View() == ComputationCache.StoreOutput(before, id, entry))
        invariant |outputs| == |order|
        decreases |order|
      {
        Evict();
        OrderedSize(View());
      }
    }

    method Put(id: Id, entry: Entry)
      modifies this
      ensures View() == Stored(old(View()), id, entry)
    {
      hide Without;
      outputs := outputs[id := entry];
      MoveToEnd(id);
    }

    method Evict()
      requires order != [] && order[0] in outputs
      modifies this
      ensures View() == EvictOldest(old(View()))
    {
      PopOldest();
    }

    lemma OrderedSize(c: Cache)
      requires Ordered(c)
      ensures |c.outputs| == |c.order| <= c.maxEntries
    {
      DistinctSize(c.order);
    }

    /** One round of the eviction loop: `popitem(last=False)`, then the key if it still points at the id, then the node. */
    method PopOldest()
      requires order != [] && order[0] in outputs
      modifies this`outputs, this`order, this`hashToNode, this`nodes, this`evictions, this`evicted, this`retiredReuse
      ensures outputs == old(outputs) - {old(order[0])} && order == old(order)[1..]
      ensures hashToNode == Unlinked(old(hashToNode), old(outputs[order[0]].key), old(order[0]))
      ensures nodes == old(nodes) - {old(order[0])} && evictions == old(evictions) + 1
      ensures evicted == old(evicted) + [Eviction(old(order[0]), |old(uses)|)]
      ensures retiredReuse == old(retiredReuse) +
        if old(order[0] in nodes) then old(nodes[order[0]].executionCount) - 1 else 0
    {
      var id := order[0];
      var key := outputs[id].key;
      outputs, order := outputs - {id}, order[1..];
      if key in hashToNode && hashToNode[key] == id {
        hashToNode := hashToNode - {key};
      }
      retiredReuse := retiredReuse + if id in nodes then nodes[id].executionCount - 1 else 0;
      nodes := nodes - {id};
      evictions := evictions + 1;
      evicted := evicted + [Eviction(id, |uses|)];
    }

    function Unlinked(ids: map<LookupKey, Id>, key: LookupKey, id: Id): map<LookupKey, Id> {
      if key in ids && ids[key] == id then ids - {key} else ids
    }

    /** `move_to_end`. */
    method MoveToEnd(id: Id)
      modifies this`order, this`uses
      ensures order == Without(old(order), id) + [id] && uses == old(uses) + [id]
    {
      order := Without(order, id) + [id];
      uses := uses + [id];
    }

    /** `node.execution_count += 1`. */
    method CountExecution(id: Id)
      requires id in nodes
      modifies this`nodes
      ensures nodes == old(nodes)[id := old(nodes[id]).(executionCount := old(nodes[id]).executionCount + 1)]
    {
      nodes := nodes[id := nodes[id].(executionCount := nodes[id].executionCount + 1)];
    }

    lemma SetSize(order: seq<Id>, outputs: map<Id, Entry>)
      requires Distinct(order) && Elements(order) == outputs.Keys
      ensures |outputs| == |order|
    {
      DistinctSize(order);
    }

    method FindSharedComputation(key: LookupKey) returns (node: Option<Node>)
      requires Valid()
      modifies this
      ensures Valid() && View() == FindShared(old(View()), key)
      ensures node == if key in hashToNode then Some(nodes[hashToNode[key]]) else None
      ensures hashToNode == old(hashToNode) && outputs == old(outputs) && order == old(order)
      ensures nodes == if key !in hashToNode then old(nodes)
                       else
                         var n := old(nodes)[hashToNode[key]];
                         old(nodes)[hashToNode[key] := n.(executionCount := n.executionCount + 1)]
    {
      if key !in hashToNode {
        return None;
      }
      var id := hashToNode[key];
      var found := nodes[id].(executionCount := nodes[id].executionCount + 1);
      nodes := nodes[id := found];
      finds := finds + 1;
      return Some(found);
    }

    /** `get_cached_result_by_key` up to the shared tier. */
    method LocalLookup(key: LookupKey, now: real) returns (cached: Option<Cached>)
      requires Valid()
      modifies this
      ensures Valid() && (View(), cached) == LookupLocal(old(View()), key, now)
    {
      hide Coherent, Ordered, Without;
      LookupCoheres(View(), key, now);
      if key in hashToNode {
        var id := hashToNode[key];
        var stored := outputs[id];
        if stored.expiresAt.Some? && now >= stored.expiresAt.value {
          hashToNode, outputs, order := hashToNode - {key}, outputs - {id}, Without(order, id);
        } else {
          RecordHit(id, stored.success);
          return Some(Cached(id, stored.state, stored.next));
        }
      }
      return None;
    }

    method RecordHit(id: Id, success: bool)
      requires id in nodes
      modifies this`nodes, this`hits, this`order, this`uses, this`negativeHits
      ensures View() == Touch(Counted(old(View()), id), id).(
        hits := old(hits) + 1, negativeHits := old(negativeHits) + if success then 0 else 1)
    {
      hide Without;
      CountExecution(id);
      hits := hits + 1;
      MoveToEnd(id);
      negativeHits := negativeHits + if success then 0 else 1;
    }

    /** `_hydrate_from_redis`: the local copy inherits what the TTL command reported. */
    method HydrateFromRedis(key: LookupKey, reading: Reading, now: real) returns (cached: Option<Cached>)
      requires Ordered(View())
      modifies this
      ensures Ordered(View())
      ensures
        var shared := if redis != null then Visible(old(redis.entries), key, now) else None;
        if shared.None? || reading.Absent? then cached.None? && View() == old(View())
        else
          && View() == Hydrate(old(View()), ttls, key, shared.value, reading, now)
          && cached == Some(Cached(shared.value.nodeId, shared.value.state, shared.value.next))
    {
      hide Ordered, Hydrate;
      if redis == null || key !in redis.entries {
        return None;
      }
      var shared := redis.entries[key];
      if (shared.expiresAt.Some? && now >= shared.expiresAt.value) || reading.Absent? {
        return None;
      }
      CopyShared(key, shared, reading, now);
      return Some(Cached(shared.nodeId, shared.state, shared.next));
    }

    method CopyShared(key: LookupKey, shared: Shared, reading: Reading, now: real)
      requires Ordered(View())
      modifies this
      ensures Ordered(View()) && View() == Hydrate(old(View()), ttls, key, shared, reading, now)
    {
      hide Ordered, ComputationCache.StoreOutput, WithNode;
      WithNodeIsOrdered(View(), key, shared);
      AddNode(key, shared);
      StoreOutput(shared.nodeId, Entry(shared.state, shared.next, shared.success,
                                       InheritedExpiry(ttls, key.capability, reading, now), key, shared.bornAt));
      CountHydration(shared);
    }

    method CountHydration(shared: Shared)
      modifies this`nodes, this`hits, this`redisHits, this`negativeHits
      ensures View() == CountedHydration(old(View()), shared)
      ensures old(Ordered(View())) ==> Ordered(View())
    {
      if shared.nodeId in nodes {
        CountExecution(shared.nodeId);
      }
      hits, redisHits := hits + 1, redisHits + 1;
      negativeHits := negativeHits + if shared.success then 0 else 1;
    }

    method AddNode(key: LookupKey, shared: Shared)
      modifies this`nodes, this`hashToNode
      ensures View() == WithNode(old(View()), key, shared)
    {
      if shared.nodeId !in nodes {
        nodes := nodes[shared.nodeId := Node(key, 1, shared.latency, shared.latency, shared.latency)];
        hashToNode := hashToNode[key := shared.nodeId];
      }
    }

    method GetCachedResultByKey(key: LookupKey, useRedis: bool, reading: Reading, now: real)
      returns (cached: Option<Cached>)
      requires Valid()
      modifies this
      ensures Ordered(View())
      ensures
        var tier := if redis == null then None else Some(redis.entries);
        (View(), cached) == Lookup(old(View()), ttls, tier, key, useRedis, reading, now)
    {
      cached := LocalLookup(key, now);
      if cached.None? && useRedis {
        cached := HydrateFromRedis(key, reading, now);
        if cached.None? {
          misses := misses + 1;
        }
      }
    }

    /** `register_computation`; `newId` is the uuid4 id drawn in case the key is new. */
    method RegisterComputation(key: LookupKey, newId: Id, state: Object, next: Option<string>, success: bool,
                               latency: real, persist: bool, now: real)
      requires Valid() && newId !in nodes && newId !in outputs
      modifies this, redis
      ensures
        var ttl := TtlFor(ttls, key.capability, success);
        var entry := Entry(state, next, success, Some(now + ttl as real), key, now);
        && View() == Register(old(View()), key, newId, entry, latency) && Valid()
      ensures redis != null ==>
        var ttl := TtlFor(ttls, key.capability, success);
        var entry := Entry(state, next, success, Some(now + ttl as real), key, now);
        redis.entries == if !persist then old(redis.entries)
          else Share(old(redis.entries), key, RegisteredId(old(View()), key, newId), entry, latency, ttl, now)
    {
      hide Coherent, Ordered, Without, ComputationCache.StoreOutput;
      ghost var before := View();
      var ttl := TtlFor(ttls, key.capability, success);
      var entry := Entry(state, next, success, Some(now + ttl as real), key, now);
      RegisterCoheres(before, key, newId, entry, latency);
      LookupCoheres(before, key, now);
      var id := newId;
      if key in hashToNode {
        id := hashToNode[key];
        nodes := nodes[id := Fold(nodes[id], latency)];
        reregistered := reregistered + 1;
      } else {
        nodes := nodes[id := Node(key, 1, latency, latency, latency)];
        hashToNode := hashToNode[key := id];
      }
      SameOrder(before, View());
      StoreOutput(id, entry);
      if persist && redis != null {
        redis.entries := Share(redis.entries, key, id, entry, latency, ttl, now);
      }
    }
  }
}
