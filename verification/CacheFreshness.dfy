/** How stale a cached state can be when it is returned. */
module CacheFreshness {
  import opened Wrappers
  import opened ComputationCache
  import opened CacheProperties

  /** Results of this capability are cached for a positive time; failures always are. */
  predicate Positive(ttls: Ttls, capability: string) {
    TtlFor(ttls, capability, true) > 0
  }

  /** The entry expires less than ttl + 1 seconds after its state was registered. */
  predicate EntryFresh(ttls: Ttls, e: Entry) {
    e.expiresAt.Some? && e.expiresAt.value < e.bornAt + TtlFor(ttls, e.key.capability, e.success) as real + 1.0
  }

  /** All entries of this capability are fresh. */
  ghost predicate LocalFresh(ttls: Ttls, c: Cache, capability: string) {
    forall id | id in c.outputs && c.outputs[id].key.capability == capability :: EntryFresh(ttls, c.outputs[id])
  }

  ghost predicate TierFresh(ttls: Ttls, tier: Tier, capability: string) {
    forall k | k in tier && k.capability == capability ::
      tier[k].expiresAt == Some(tier[k].bornAt + TtlFor(ttls, k.capability, tier[k].success) as real)
  }

  /** The TTL command reports the remaining time rounded to a whole second, up or down. */
  predicate AccurateReading(shared: Shared, reading: Reading, now: real) {
    match shared.expiresAt
    case None => reading.NoExpiry?
    case Some(e) => reading.Seconds? && e - now - 1.0 < reading.n as real < e - now + 1.0
  }

  lemma StoreIsFresh(ttls: Ttls, c: Cache, id: Id, entry: Entry, capability: string)
    requires Ordered(c) && LocalFresh(ttls, c, capability)
    requires entry.key.capability == capability ==> EntryFresh(ttls, entry)
    ensures LocalFresh(ttls, StoreOutput(c, id, entry), capability)
  {}

  lemma RegisterIsFresh(ttls: Ttls, c: Cache, key: LookupKey, newId: Id, entry: Entry, latency: real, capability: string)
    requires Ordered(c) && (key in c.ids ==> c.ids[key] in c.nodes) && LocalFresh(ttls, c, capability)
    requires entry.key.capability == capability ==> EntryFresh(ttls, entry)
    ensures LocalFresh(ttls, Register(c, key, newId, entry, latency), capability)
  {}

  /** Whole-second rounding is what the extra second pays for. */
  lemma HydrateIsFresh(ttls: Ttls, c: Cache, key: LookupKey, shared: Shared, reading: Reading, now: real,
                       capability: string)
    requires Ordered(c) && LocalFresh(ttls, c, capability)
    requires key.capability == capability ==>
      && AccurateReading(shared, reading, now)
      && shared.expiresAt == Some(shared.bornAt + TtlFor(ttls, key.capability, shared.success) as real)
      && now < shared.expiresAt.value
    ensures LocalFresh(ttls, Hydrate(c, ttls, key, shared, reading, now), capability)
  {
    hide StoreOutput, Ordered;
    WithNodeIsOrdered(c, key, shared);
    StoreIsFresh(ttls, WithNode(c, key, shared), shared.nodeId, LocalCopy(ttls, key, shared, reading, now), capability);
  }

  /** An unreadable TTL restarts the clock: the copy of a result keeps the bound exactly while the result is less than a
      second old. */
  lemma UnreadableKeepsBoundIffYoung(ttls: Ttls, key: LookupKey, shared: Shared, now: real)
    requires shared.success
    ensures EntryFresh(ttls, LocalCopy(ttls, key, shared, Unreadable, now)) <==> now - shared.bornAt < 1.0
  {}

  /** A hit, in the worker's own tier or the shared one, returns a state less than ttl + 1 seconds old. */
  lemma HitIsRecent(ttls: Ttls, c: Cache, tier: Option<Tier>, key: LookupKey, useShared: bool, reading: Reading,
                    now: real) returns (bornAt: real, success: bool)
    requires Ordered(c) && (key in c.ids ==> c.ids[key] in c.nodes && c.ids[key] in c.outputs)
    requires key in c.ids ==> c.outputs[c.ids[key]].key == key
    requires LocalFresh(ttls, c, key.capability) && (tier.Some? ==> TierFresh(ttls, tier.value, key.capability))
    requires Lookup(c, ttls, tier, key, useShared, reading, now).1.Some?
    ensures now < bornAt + TtlFor(ttls, key.capability, success) as real + 1.0
    ensures FoundIn(c, tier, key, Lookup(c, ttls, tier, key, useShared, reading, now).1.value, bornAt, success)
  {
    hide Hydrate;
    bornAt, success := HitIsFound(ttls, c, tier, key, useShared, reading, now);
    var (_, local) := LookupLocal(c, key, now);
    if local.Some? {
      assert EntryFresh(ttls, c.outputs[c.ids[key]]);
    }
  }

  /** The returned state and route are those of an entry under the key, in one tier or the other. */
  ghost predicate FoundIn(c: Cache, tier: Option<Tier>, key: LookupKey, hit: Cached, bornAt: real, success: bool) {
    || (exists id | id in c.outputs ::
          var e := c.outputs[id];
          e.key == key && e.bornAt == bornAt && e.success == success && e.state == hit.state && e.next == hit.next)
    || (tier.Some? && key in tier.value &&
        var e := tier.value[key];
        e.bornAt == bornAt && e.success == success && e.state == hit.state && e.next == hit.next)
  }

  lemma HitIsFound(ttls: Ttls, c: Cache, tier: Option<Tier>, key: LookupKey, useShared: bool, reading: Reading, now: real)
    returns (bornAt: real, success: bool)
    requires Ordered(c) && (key in c.ids ==> c.ids[key] in c.nodes && c.ids[key] in c.outputs)
    requires key in c.ids ==> c.outputs[c.ids[key]].key == key
    requires Lookup(c, ttls, tier, key, useShared, reading, now).1.Some?
    ensures FoundIn(c, tier, key, Lookup(c, ttls, tier, key, useShared, reading, now).1.value, bornAt, success)
    ensures if LookupLocal(c, key, now).1.Some?
            then bornAt == c.outputs[c.ids[key]].bornAt && success == c.outputs[c.ids[key]].success
            else tier.Some? && Visible(tier.value, key, now).Some? && bornAt == tier.value[key].bornAt
                 && success == tier.value[key].success
  {
    hide Hydrate;
    var (_, local) := LookupLocal(c, key, now);
    if local.Some? {
      var e := c.outputs[c.ids[key]];
      bornAt, success := e.bornAt, e.success;
    } else {
      bornAt, success := tier.value[key].bornAt, tier.value[key].success;
    }
  }

  /** Without a positive TTL there is no bound: a copy hydrated from such an entry is returned at any later time. */
  lemma NonPositiveTtlNeverExpires(ttls: Ttls, c: Cache, tier: Tier, key: LookupKey, id: Id, entry: Entry, latency: real,
                                   at: real, later: real)
    requires Ordered(c) && key !in c.ids && id !in c.nodes && TtlFor(ttls, key.capability, entry.success) <= 0
    requires entry.key == key
    ensures
      var tier' := Share(tier, key, id, entry, latency, TtlFor(ttls, key.capability, entry.success), at);
      var c' := Lookup(c, ttls, Some(tier'), key, true, NoExpiry, at).0;
      && key in c'.ids && c'.ids[key] in c'.nodes
      && LookupLocal(c', key, later).1 == Some(Cached(id, entry.state, entry.next))
  {
    hide StoreOutput, Ordered;
    var shared := Share(tier, key, id, entry, latency, TtlFor(ttls, key.capability, entry.success), at)[key];
    var c' := WithNode(c, key, shared);
    WithNodeIsOrdered(c, key, shared);
    StoreKeepsLinks(c', id, LocalCopy(ttls, key, shared, NoExpiry, at), key);
    StoreKeepsNode(c', id, LocalCopy(ttls, key, shared, NoExpiry, at));
  }

  lemma StoreKeepsNode(c: Cache, id: Id, entry: Entry)
    requires Ordered(c) && id in c.nodes
    ensures id in StoreOutput(c, id, entry).nodes
  {}
}
