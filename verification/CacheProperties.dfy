/** What every sequence of cache operations by any number of workers keeps. */
module CacheProperties {
  import opened Collections
  import opened ComputationCache

  // ---------- Coherence of the three dictionaries ----------

  /** Every linked key names a stored, known id that was stored for that key; every stored id is known. */
  ghost predicate Coherent(c: Cache) {
    && Ordered(c)
    && (forall k | k in c.ids :: c.ids[k] in c.nodes && c.ids[k] in c.outputs && c.outputs[c.ids[k]].key == k)
    && c.outputs.Keys <= c.nodes.Keys
  }

  /** Ids belong to keys: uuid4 ids are never shared between keys. */
  ghost predicate Owned(c: Cache, owners: map<Id, LookupKey>) {
    && c.nodes.Keys <= owners.Keys
    && forall id | id in c.outputs :: id in owners && c.outputs[id].key == owners[id]
  }

  ghost predicate Linked(c: Cache, owners: map<Id, LookupKey>) {
    Coherent(c) && Owned(c, owners)
  }

  /** Ready for `id` to be stored under `key`: the key may be linked already, everything else is coherent. */
  ghost predicate AlmostCoherent(c: Cache, id: Id, key: LookupKey) {
    && Ordered(c) && id in c.nodes
    && (forall k | k in c.ids :: c.ids[k] in c.nodes &&
          (if c.ids[k] == id then k == key else c.ids[k] in c.outputs && c.outputs[c.ids[k]].key == k))
    && c.outputs.Keys <= c.nodes.Keys
  }

  lemma StoreCoheres(c: Cache, id: Id, entry: Entry)
    requires AlmostCoherent(c, id, entry.key)
    ensures Coherent(StoreOutput(c, id, entry)) && id in StoreOutput(c, id, entry).nodes
  {
    hide Ordered, Elements, Distinct;
    StoreKeepsOrder(c, id, entry);
    StoredIsOrdered(c, id, entry);
    var s := Stored(c, id, entry);
    assert forall k | k in s.ids :: s.ids[k] in s.nodes && s.ids[k] in s.outputs && s.outputs[s.ids[k]].key == k;
    if |s.order| > c.maxEntries {
      EvictionCoheres(s);
    }
  }

  lemma EvictionCoheres(s: Cache)
    requires s.order != [] && s.order[0] in s.outputs && Ordered(EvictOldest(s)) && s.outputs.Keys <= s.nodes.Keys
    requires forall k | k in s.ids :: s.ids[k] in s.nodes && s.ids[k] in s.outputs && s.outputs[s.ids[k]].key == k
    ensures Coherent(EvictOldest(s))
  {}

  lemma StoreOwns(c: Cache, id: Id, entry: Entry, owners: map<Id, LookupKey>)
    requires Ordered(c) && Owned(c, owners) && id in owners && owners[id] == entry.key
    ensures Owned(StoreOutput(c, id, entry), owners)
  {}

  lemma RegisterCoheres(c: Cache, key: LookupKey, newId: Id, entry: Entry, latency: real)
    requires Coherent(c) && newId !in c.nodes && entry.key == key
    ensures Coherent(Register(c, key, newId, entry, latency))
  {
    hide StoreOutput, Ordered;
    SameOrder(c, WithRegistration(c, key, newId, latency));
    StoreCoheres(WithRegistration(c, key, newId, latency), RegisteredId(c, key, newId), entry);
  }

  lemma RegisterLinks(c: Cache, key: LookupKey, newId: Id, entry: Entry, latency: real, owners: map<Id, LookupKey>)
    requires Linked(c, owners) && entry.key == key && newId !in owners
    ensures Linked(Register(c, key, newId, entry, latency), owners[newId := key])
  {
    hide StoreOutput, Ordered;
    RegisterCoheres(c, key, newId, entry, latency);
    SameOrder(c, WithRegistration(c, key, newId, latency));
    StoreOwns(WithRegistration(c, key, newId, latency), RegisteredId(c, key, newId), entry, owners[newId := key]);
  }

  lemma LookupCoheres(c: Cache, key: LookupKey, now: real)
    requires Coherent(c)
    ensures key in c.ids ==> c.ids[key] in c.nodes && c.ids[key] in c.outputs
    ensures
      var c' := LookupLocal(c, key, now).0;
      && Ordered(c) && Coherent(c') && Coherent(c'.(misses := c'.misses + 1))
      && c'.nodes.Keys == c.nodes.Keys && c'.outputs.Keys <= c.outputs.Keys
  {
    hide Ordered;
    LocalLookupKeepsOrder(c, key, now);
    var c' := LookupLocal(c, key, now).0;
    forall k | k in c'.ids
      ensures c'.ids[k] in c'.nodes && c'.ids[k] in c'.outputs && c'.outputs[c'.ids[k]].key == k
    {
      assert c.ids[k] in c.nodes && c.ids[k] in c.outputs && c.outputs[c.ids[k]].key == k;
    }
    SameOrder(c', c'.(misses := c'.misses + 1));
  }

  lemma LocalLookupLinks(c: Cache, key: LookupKey, now: real, owners: map<Id, LookupKey>)
    requires Linked(c, owners)
    ensures Linked(LookupLocal(c, key, now).0, owners)
  {
    hide Coherent;
    LookupCoheres(c, key, now);
    OutputsStay(c, key, now);
  }

  lemma OutputsStay(c: Cache, key: LookupKey, now: real)
    requires key in c.ids ==> c.ids[key] in c.nodes
    ensures
      var c' := LookupLocal(c, key, now).0;
      c'.outputs.Keys <= c.outputs.Keys && forall id | id in c'.outputs :: c'.outputs[id] == c.outputs[id]
  {}

  lemma SameOrder(a: Cache, b: Cache)
    requires Ordered(a) && b.order == a.order && b.outputs == a.outputs && b.maxEntries == a.maxEntries
    ensures Ordered(b)
  {}

  lemma HydrateLinks(c: Cache, ttls: Ttls, key: LookupKey, shared: Shared, reading: Reading, now: real,
                     owners: map<Id, LookupKey>)
    requires Linked(c, owners) && shared.nodeId in owners && owners[shared.nodeId] == key
    ensures Linked(Hydrate(c, ttls, key, shared, reading, now), owners)
  {
    hide StoreOutput, Ordered;
    WithNodeIsOrdered(c, key, shared);
    var c', e := WithNode(c, key, shared), LocalCopy(ttls, key, shared, reading, now);
    StoreCoheres(c', shared.nodeId, e);
    StoreOwns(c', shared.nodeId, e, owners);
    SameOrder(StoreOutput(c', shared.nodeId, e), Hydrate(c, ttls, key, shared, reading, now));
  }

  /** Distinct keys link distinct ids, so there are no more links than entries, and no more entries than the bound. */
  lemma SizesAreBounded(c: Cache)
    requires Coherent(c)
    ensures |c.ids| <= |c.outputs| <= c.maxEntries
  {
    DistinctSize(c.order);
    InjectiveSize(c.ids.Keys, c);
    SubsetIsSmaller(Image(c.ids.Keys, c), c.outputs.Keys);
  }

  ghost function Image(keys: set<LookupKey>, c: Cache): set<Id>
    requires keys <= c.ids.Keys
  {
    set k | k in keys :: c.ids[k]
  }

  lemma {:induction false} InjectiveSize(keys: set<LookupKey>, c: Cache)
    requires Coherent(c) && keys <= c.ids.Keys
    ensures |Image(keys, c)| == |keys|
    decreases |keys|
  {
    if keys != {} {
      var k :| k in keys;
      InjectiveSize(keys - {k}, c);
      assert Image(keys, c) == Image(keys - {k}, c) + {c.ids[k]};
      assert c.ids[k] !in Image(keys - {k}, c) by {
        forall j | j in keys - {k} ensures c.ids[j] != c.ids[k] {
          assert c.outputs[c.ids[j]].key == j && c.outputs[c.ids[k]].key == k;
        }
      }
    } else {
      assert Image(keys, c) == {};
    }
  }

  /** Hydrating keeps the dictionaries coherent exactly when no other key is linked to the shared entry's id. */
  lemma HydrateCoherence(c: Cache, ttls: Ttls, key: LookupKey, shared: Shared, reading: Reading, now: real)
    requires Coherent(c)
    ensures Coherent(Hydrate(c, ttls, key, shared, reading, now)) <==>
            forall k | k in c.ids && c.ids[k] == shared.nodeId :: k == key
  {
    hide StoreOutput, Ordered;
    WithNodeIsOrdered(c, key, shared);
    var id, c', e := shared.nodeId, WithNode(c, key, shared), LocalCopy(ttls, key, shared, reading, now);
    var h := Hydrate(c, ttls, key, shared, reading, now);
    if forall k | k in c.ids && c.ids[k] == id :: k == key {
      StoreCoheres(c', id, e);
      SameOrder(StoreOutput(c', id, e), h);
    } else {
      var k :| k in c.ids && c.ids[k] == id && k != key;
      StoreKeepsLinks(c', id, e, k);
    }
  }

  /** Storing does not touch the links of other entries that name the stored id. */
  lemma StoreKeepsLinks(c: Cache, id: Id, entry: Entry, k: LookupKey)
    requires Ordered(c) && k in c.ids && c.ids[k] == id
    ensures
      var r := StoreOutput(c, id, entry);
      k in r.ids && r.ids[k] == id && id in r.outputs && r.outputs[id] == entry
  {
    StoredIsOrdered(c, id, entry);
  }
}
