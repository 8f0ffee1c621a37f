/** Where every reuse is counted, and what a node's average latency means. */
module CacheAccounting {
  import opened ComputationCache

  /** The sum of execution_count - 1 over all nodes. */
  ghost function Reuse(nodes: map<Id, Node>): int
    decreases |nodes|
  {
    if forall id :: id !in nodes then 0
    else var id :| id in nodes; nodes[id].executionCount - 1 + Reuse(nodes - {id})
  }

  /** The sum does not depend on the order of summation. */
  lemma {:induction false} ReuseSplits(nodes: map<Id, Node>, id: Id)
    requires id in nodes
    ensures Reuse(nodes) == nodes[id].executionCount - 1 + Reuse(nodes - {id})
    decreases |nodes|
  {
    var x :| x in nodes && Reuse(nodes) == nodes[x].executionCount - 1 + Reuse(nodes - {x});
    if x != id {
      ReuseSplits(nodes - {x}, id);
      ReuseSplits(nodes - {id}, x);
      assert nodes - {x} - {id} == nodes - {id} - {x};
    }
  }

  lemma ReuseUpdate(nodes: map<Id, Node>, id: Id, n: Node)
    ensures Reuse(nodes[id := n]) == n.executionCount - 1 + Reuse(nodes - {id})
    ensures id !in nodes ==> nodes - {id} == nodes
  {
    ReuseSplits(nodes[id := n], id);
    assert nodes[id := n] - {id} == nodes - {id};
  }

  /** Every reuse, of live and of evicted nodes, is a hit, a re-registration or a shared find. */
  ghost predicate Balanced(c: Cache) {
    Reuse(c.nodes) + c.retiredReuse == c.hits + c.reregistered + c.finds && c.evictions == |c.evicted|
  }

  /** The average stays between the extremes of the latencies folded into it. */
  ghost predicate Averaged(c: Cache) {
    forall id | id in c.nodes ::
      c.nodes[id].executionCount >= 1 && c.nodes[id].shortest <= c.nodes[id].avgLatency <= c.nodes[id].longest
  }

  lemma FoldAverages(n: Node, latency: real)
    requires n.executionCount >= 1 && n.shortest <= n.avgLatency <= n.longest
    ensures
      var n' := Fold(n, latency);
      && n'.shortest <= n'.avgLatency <= n'.longest && n'.shortest <= latency <= n'.longest
      && n'.shortest <= n.shortest && n.longest <= n'.longest
  {
    var n' := Fold(n, latency);
    MeanIsBetween(n'.shortest, n'.longest, n.avgLatency, latency, n.executionCount as real);
  }

  lemma MeanIsBetween(low: real, high: real, a: real, b: real, k: real)
    requires k >= 1.0 && low <= a <= high && low <= b <= high
    ensures low <= (a * k + b) / (k + 1.0) <= high
  {
    var m, n := a * k + b, k + 1.0;
    WeightedAtLeast(low, a, b, k);
    WeightedAtMost(high, a, b, k);
    AtLeast(m, n, low);
    AtMost(m, n, high);
  }

  lemma Scale(x: real, y: real, k: real)
    requires x <= y && k >= 0.0
    ensures x * k <= y * k
  {}

  lemma WeightedAtLeast(low: real, a: real, b: real, k: real)
    requires low <= a && low <= b && k >= 0.0
    ensures low * (k + 1.0) <= a * k + b
  {
    Scale(low, a, k);
  }

  lemma WeightedAtMost(high: real, a: real, b: real, k: real)
    requires a <= high && b <= high && k >= 0.0
    ensures a * k + b <= high * (k + 1.0)
  {
    Scale(a, high, k);
  }

  lemma AtLeast(m: real, n: real, low: real)
    requires n > 0.0 && low * n <= m
    ensures low <= m / n
  {}

  lemma AtMost(m: real, n: real, high: real)
    requires n > 0.0 && m <= high * n
    ensures m / n <= high
  {}

  /** An average that is the mean of the `m` latencies folded so far stays one with the next latency exactly when nothing
      but those folds raised the count, or when the next latency happens to equal the average. */
  lemma AverageIsMeanIff(n: Node, latency: real, sum: real, m: nat)
    requires n.executionCount >= m >= 1 && n.avgLatency == sum / m as real
    ensures Fold(n, latency).avgLatency == (sum + latency) / (m + 1) as real
            <==> n.executionCount == m || latency == n.avgLatency
  {
    var a, c, k := n.avgLatency, n.executionCount as real, m as real;
    FoldedAverage(n, latency);
    hide Fold;
    TimesCount(sum, k);
    SameQuotient(a * k + latency, sum + latency, k + 1.0, (m + 1) as real);
    SameMean(a, latency, c, k);
  }

  lemma FoldedAverage(n: Node, latency: real)
    ensures Fold(n, latency).avgLatency ==
            (n.avgLatency * n.executionCount as real + latency) / (n.executionCount as real + 1.0)
  {}

  lemma SameQuotient(x: real, y: real, p: real, q: real)
    requires x == y && p == q && p != 0.0
    ensures x / p == y / q
  {}

  lemma TimesCount(sum: real, k: real)
    requires k >= 1.0
    ensures sum == sum / k * k
  {}

  lemma SameMean(a: real, b: real, c: real, k: real)
    requires c >= k >= 1.0
    ensures (a * c + b) / (c + 1.0) == (a * k + b) / (k + 1.0) <==> c == k || a == b
  {
    var x, y := (a * c + b) / (c + 1.0), (a * k + b) / (k + 1.0);
    WeightedStep(a, b, c);
    WeightedStep(a, b, k);
    var d := b - a;
    if x == y && d != 0.0 {
      Cancel(d, c + 1.0, k + 1.0);
    }
  }

  /** One step of a weighted mean moves by the difference over the new weight. */
  lemma WeightedStep(a: real, b: real, c: real)
    requires c >= 0.0
    ensures (a * c + b) / (c + 1.0) == a + (b - a) / (c + 1.0)
  {
    assert a * c + b == a * (c + 1.0) + (b - a);
  }

  lemma Cancel(d: real, p: real, q: real)
    requires d != 0.0 && p > 0.0 && q > 0.0 && d / p == d / q
    ensures p == q
  {
    var r := d / p;
    assert r * p == d && r * q == d;
    assert r * (p - q) == 0.0;
  }

  /** A witness: one hit between two registrations already weighs the first one double. */
  lemma AverageIsNotMean(key: LookupKey)
    ensures
      var first := Node(key, 1, 1.0, 1.0, 1.0);
      var hit := first.(executionCount := 2);
      Fold(hit, 2.0).avgLatency == 4.0 / 3.0 && 4.0 / 3.0 != (1.0 + 2.0) / 2.0
  {}

  // ---------- Operations ----------

  lemma StoreBalances(c: Cache, id: Id, entry: Entry)
    requires Ordered(c)
    ensures
      var r := StoreOutput(c, id, entry);
      && Reuse(r.nodes) + r.retiredReuse == Reuse(c.nodes) + c.retiredReuse
      && r.hits == c.hits && r.reregistered == c.reregistered && r.finds == c.finds
      && r.evictions - |r.evicted| == c.evictions - |c.evicted|
      && r.nodes.Keys <= c.nodes.Keys && (forall x | x in r.nodes :: r.nodes[x] == c.nodes[x])
      && (id in c.nodes ==> id in r.nodes)
  {
    StoredIsOrdered(c, id, entry);
    var s := Stored(c, id, entry);
    if |s.order| > c.maxEntries {
      var oldest := s.order[0];
      if oldest in c.nodes {
        ReuseSplits(c.nodes, oldest);
      } else {
        assert c.nodes - {oldest} == c.nodes;
      }
    }
  }

  lemma CountedBalances(c: Cache, id: Id)
    requires id in c.nodes
    ensures Reuse(Counted(c, id).nodes) == Reuse(c.nodes) + 1
    ensures Averaged(c) ==> Averaged(Counted(c, id))
  {
    ReuseSplits(c.nodes, id);
    ReuseUpdate(c.nodes, id, c.nodes[id].(executionCount := c.nodes[id].executionCount + 1));
  }

  lemma RegisterBalances(c: Cache, key: LookupKey, newId: Id, entry: Entry, latency: real)
    requires Ordered(c) && (key in c.ids ==> c.ids[key] in c.nodes) && newId !in c.nodes
    requires Balanced(c) && Averaged(c)
    ensures Balanced(Register(c, key, newId, entry, latency)) && Averaged(Register(c, key, newId, entry, latency))
  {
    hide StoreOutput;
    var id := RegisteredId(c, key, newId);
    if key in c.ids {
      FoldAverages(c.nodes[id], latency);
      ReuseSplits(c.nodes, id);
      ReuseUpdate(c.nodes, id, Fold(c.nodes[id], latency));
    } else {
      ReuseUpdate(c.nodes, newId, Node(key, 1, latency, latency, latency));
    }
    StoreBalances(WithRegistration(c, key, newId, latency), id, entry);
  }

  lemma LocalLookupBalances(c: Cache, key: LookupKey, now: real)
    requires (key in c.ids ==> c.ids[key] in c.nodes) && Balanced(c) && Averaged(c)
    ensures Balanced(LookupLocal(c, key, now).0) && Averaged(LookupLocal(c, key, now).0)
  {
    if key in c.ids {
      CountedBalances(c, c.ids[key]);
    }
  }

  lemma FindBalances(c: Cache, key: LookupKey)
    requires (key in c.ids ==> c.ids[key] in c.nodes) && Balanced(c) && Averaged(c)
    ensures Balanced(FindShared(c, key)) && Averaged(FindShared(c, key))
  {
    if key in c.ids {
      CountedBalances(c, c.ids[key]);
    }
  }

  lemma WithNodeBalances(c: Cache, key: LookupKey, shared: Shared)
    requires Balanced(c) && Averaged(c)
    ensures
      var c' := WithNode(c, key, shared);
      Balanced(c') && Averaged(c') && shared.nodeId in c'.nodes
  {
    ReuseUpdate(c.nodes, shared.nodeId, Node(key, 1, shared.latency, shared.latency, shared.latency));
  }

  lemma HydrateBalances(c: Cache, ttls: Ttls, key: LookupKey, shared: Shared, reading: Reading, now: real)
    requires Ordered(c) && Balanced(c) && Averaged(c)
    ensures
      var h := Hydrate(c, ttls, key, shared, reading, now);
      Balanced(h) && Averaged(h)
  {
    var id, c', e := shared.nodeId, WithNode(c, key, shared), LocalCopy(ttls, key, shared, reading, now);
    WithNodeBalances(c, key, shared);
    WithNodeIsOrdered(c, key, shared);
    hide StoreOutput, WithNode, LocalCopy, Reuse, Ordered;
    StoreBalances(c', id, e);
    CountedBalances(StoreOutput(c', id, e), id);
  }
}
