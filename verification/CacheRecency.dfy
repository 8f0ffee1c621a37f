/** The bounded OrderedDict is a least-recently-used cache: what it drops was the longest unused. */
module CacheRecency {
  import opened Collections
  import opened ComputationCache

  /** The index of the last store or hit of `id`, or -1. */
  function LastUse(uses: seq<Id>, id: Id): int {
    if uses == [] then -1
    else if uses[|uses| - 1] == id then |uses| - 1
    else LastUse(uses[..|uses| - 1], id)
  }

  /** The ids stored or hit after the last store or hit of `id`. */
  ghost function UsedAfter(uses: seq<Id>, id: Id): set<Id> {
    set i | LastUse(uses, id) < i < |uses| && 0 <= i :: uses[i]
  }

  ghost predicate ByRecency(uses: seq<Id>, order: seq<Id>) {
    && (forall x | x in order :: x in uses)
    && forall i, j | 0 <= i < j < |order| :: LastUse(uses, order[i]) < LastUse(uses, order[j])
  }

  /** At least `max` other ids were stored or hit after the dropped entry's own last store or hit. */
  ghost predicate EvictionOk(uses: seq<Id>, e: Eviction, max: nat) {
    && e.at <= |uses| && e.id in uses[..e.at] && uses[e.at - 1] != e.id
    && e.id !in UsedAfter(uses[..e.at], e.id) && |UsedAfter(uses[..e.at], e.id)| >= max
  }

  ghost predicate Recent(c: Cache) {
    && ByRecency(c.uses, c.order)
    && forall i | 0 <= i < |c.evicted| :: EvictionOk(c.uses, c.evicted[i], c.maxEntries)
  }

  lemma {:induction false} LastUseOfUsed(uses: seq<Id>, id: Id)
    ensures -1 <= LastUse(uses, id) < |uses|
    ensures id in uses <==> LastUse(uses, id) >= 0
    ensures LastUse(uses, id) >= 0 ==> uses[LastUse(uses, id)] == id
    ensures forall i | LastUse(uses, id) < i < |uses| :: uses[i] != id
  {
    if uses != [] {
      LastUseOfUsed(uses[..|uses| - 1], id);
    }
  }

  lemma LastUseGrows(uses: seq<Id>, id: Id, x: Id)
    ensures LastUse(uses + [id], x) == if x == id then |uses| else LastUse(uses, x)
  {}

  /** Dropping an id from a recency-ordered list leaves it ordered. */
  lemma {:induction false} WithoutByRecency(uses: seq<Id>, order: seq<Id>, id: Id)
    requires ByRecency(uses, order)
    ensures ByRecency(uses, Without(order, id))
  {
    hide LastUse;
    if order != [] {
      var rest := order[1..];
      assert ByRecency(uses, rest) && forall x | x in rest :: LastUse(uses, order[0]) < LastUse(uses, x);
      WithoutByRecency(uses, rest, id);
      hide ByRecency;
      OneMoreByRecency(uses, order[0], Without(rest, id));
    }
  }

  lemma OneMoreByRecency(uses: seq<Id>, x: Id, order: seq<Id>)
    requires ByRecency(uses, order)
    ensures x in uses && (forall y | y in order :: LastUse(uses, x) < LastUse(uses, y)) ==> ByRecency(uses, [x] + order)
  {
    hide LastUse;
  }

  lemma TouchedByRecency(uses: seq<Id>, order: seq<Id>, id: Id)
    requires ByRecency(uses, order)
    ensures ByRecency(uses + [id], Without(order, id) + [id])
  {
    hide LastUse;
    WithoutByRecency(uses, order, id);
    var uses', rest := uses + [id], Without(order, id);
    var order' := rest + [id];
    forall x | x in order' ensures x in uses' {}
    forall i, j | 0 <= i < j < |order'| ensures LastUse(uses', order'[i]) < LastUse(uses', order'[j]) {
      assert rest[i] in rest;
      LastUseGrows(uses, id, order'[i]);
      LastUseGrows(uses, id, order'[j]);
      LastUseOfUsed(uses, order'[i]);
      if j < |rest| {
        assert rest[j] in rest;
      }
    }
  }

  lemma EvictionsStay(uses: seq<Id>, id: Id, e: Eviction, max: nat)
    requires EvictionOk(uses, e, max)
    ensures EvictionOk(uses + [id], e, max)
  {
    assert (uses + [id])[..e.at] == uses[..e.at];
  }

  lemma TouchKeepsRecency(c: Cache, c': Cache, id: Id)
    requires Recent(c) && c'.order == Without(c.order, id) + [id] && c'.uses == c.uses + [id]
    requires c'.evicted == c.evicted && c'.maxEntries == c.maxEntries
    ensures Recent(c')
  {
    hide EvictionOk, ByRecency;
    TouchedByRecency(c.uses, c.order, id);
    forall i | 0 <= i < |c.evicted| ensures EvictionOk(c'.uses, c'.evicted[i], c'.maxEntries) {
      EvictionsStay(c.uses, id, c.evicted[i], c.maxEntries);
    }
  }

  /** The victim is the least recently used, and every other stored id was used after it. */
  lemma VictimIsOldest(c: Cache)
    requires ByRecency(c.uses, c.order) && Distinct(c.order) && |c.order| == c.maxEntries + 1 && c.order != []
    requires c.uses != [] && c.uses[|c.uses| - 1] == c.order[|c.order| - 1] && c.maxEntries >= 1
    ensures EvictionOk(c.uses, Eviction(c.order[0], |c.uses|), c.maxEntries)
  {
    var uses, id, rest := c.uses, c.order[0], c.order[1..];
    assert uses[..|uses|] == uses;
    LastUseOfUsed(uses, id);
    DistinctSize(rest);
    forall x | x in Elements(rest) ensures x in UsedAfter(uses, id) {
      LastUseOfUsed(uses, x);
    }
    FiniteTail(uses, id);
    SubsetIsSmaller(Elements(rest), UsedAfter(uses, id));
  }

  lemma FiniteTail(uses: seq<Id>, id: Id)
    ensures id !in UsedAfter(uses, id)
  {
    LastUseOfUsed(uses, id);
  }

  lemma StoreKeepsRecency(c: Cache, id: Id, entry: Entry)
    requires Ordered(c) && Recent(c)
    ensures Recent(StoreOutput(c, id, entry))
  {
    hide EvictionOk, ByRecency;
    StoredIsOrdered(c, id, entry);
    var s, r := Stored(c, id, entry), StoreOutput(c, id, entry);
    TouchKeepsRecency(c, s, id);
    if |s.order| > c.maxEntries {
      VictimIsOldest(s);
      TailByRecency(s.uses, s.order);
    }
  }

  lemma TailByRecency(uses: seq<Id>, order: seq<Id>)
    requires ByRecency(uses, order) && order != []
    ensures ByRecency(uses, order[1..])
  {}

  lemma RegisterKeepsRecency(c: Cache, key: LookupKey, newId: Id, entry: Entry, latency: real)
    requires Ordered(c) && (key in c.ids ==> c.ids[key] in c.nodes) && Recent(c)
    ensures Recent(Register(c, key, newId, entry, latency))
  {
    hide StoreOutput, EvictionOk, ByRecency;
    StoreKeepsRecency(WithRegistration(c, key, newId, latency), RegisteredId(c, key, newId), entry);
  }

  /** A hit makes its entry the most recent one. */
  lemma LocalLookupKeepsRecency(c: Cache, key: LookupKey, now: real)
    requires key in c.ids ==> c.ids[key] in c.nodes
    requires Recent(c)
    ensures Recent(LookupLocal(c, key, now).0)
    ensures
      var (c', hit) := LookupLocal(c, key, now);
      hit.Some? ==> c'.order != [] && c'.order[|c'.order| - 1] == hit.value.id == c'.uses[|c'.uses| - 1]
  {
    hide EvictionOk, ByRecency;
    if key in c.ids && c.ids[key] in c.outputs {
      var id := c.ids[key];
      WithoutByRecency(c.uses, c.order, id);
      if !Expired(c.outputs[id], now) {
        TouchKeepsRecency(c, LookupLocal(c, key, now).0, id);
      }
    }
  }

  lemma HydrateKeepsRecency(c: Cache, ttls: Ttls, key: LookupKey, shared: Shared, reading: Reading, now: real)
    requires Ordered(c) && Recent(c)
    ensures Recent(Hydrate(c, ttls, key, shared, reading, now))
  {
    hide StoreOutput, EvictionOk, ByRecency;
    StoreKeepsRecency(WithNode(c, key, shared), shared.nodeId, LocalCopy(ttls, key, shared, reading, now));
  }
}
