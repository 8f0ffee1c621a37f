/** Swarm execution: splitting data into partitions, handing them to workers, collecting and reducing the results. */
module Swarm {
  import opened Wrappers
  import opened Collections

  // ---------- Partitions ----------

  /** The distinct keys, in the order in which they first appear. */
  function Order<K(==)>(keys: seq<K>): seq<K> {
    if keys == [] then []
    else
      var before := Order(keys[..|keys| - 1]);
      if keys[|keys| - 1] in before then before else before + [keys[|keys| - 1]]
  }

  /** The items with this key, in the order of the data. */
  function Select<K(==), T>(data: seq<T>, keys: seq<K>, k: K): seq<T>
    requires |data| == |keys|
  {
    if keys == [] then []
    else
      var last := |keys| - 1;
      Select(data[..last], keys[..last], k) + if keys[last] == k then [data[last]] else []
  }

  function Parts<K(==), T>(data: seq<T>, keys: seq<K>): seq<seq<T>>
    requires |data| == |keys|
  {
    seq(|Order(keys)|, r requires 0 <= r < |Order(keys)| => Select(data, keys, Order(keys)[r]))
  }

  function Flatten<T>(parts: seq<seq<T>>): seq<T> {
    if parts == [] then [] else Flatten(parts[..|parts| - 1]) + parts[|parts| - 1]
  }

  /** What worker after worker is given: partition `i % P`, or nothing when there is no data. */
  function Assigned<T>(parts: seq<seq<T>>, workers: nat): seq<seq<T>> {
    seq(workers, i requires 0 <= i < workers => Share(parts, i))
  }

  function Share<T>(parts: seq<seq<T>>, i: nat): seq<T> {
    if parts == [] then [] else parts[i % |parts|]
  }

  function RoundRobinKeys(n: nat, workers: nat): seq<nat> {
    seq(n, (i: nat) => RoundRobinKey(i, workers))
  }

  function RoundRobinKey(i: nat, workers: nat): nat {
    i % Max(workers, 1)
  }

  function Max(a: nat, b: nat): nat {
    if a < b then b else a
  }

  /** The partition loop: items are appended to the list of their key, and the lists come out in insertion order. */
  method Partition<K(==), T>(data: seq<T>, keys: seq<K>) returns (values: seq<seq<T>>)
    requires |data| == |keys|
    ensures values == Parts(data, keys)
  {
    var order: seq<K>, groups: map<K, seq<T>> := [], map[];
    for i := 0 to |data|
      invariant order == Order(keys[..i])
      invariant forall k :: k in groups <==> k in order
      invariant forall k | k in groups :: groups[k] == Select(data[..i], keys[..i], k)
    {
      assert keys[..i + 1][..i] == keys[..i] && data[..i + 1][..i] == data[..i];
      UnseenKeySelectsNothing(data[..i], keys[..i], keys[i]);
      if keys[i] !in groups {
        order, groups := order + [keys[i]], groups[keys[i] := []];
      }
      groups := groups[keys[i] := groups[keys[i]] + [data[i]]];
    }
    assert keys[..|data|] == keys && data[..|data|] == data;
    values := seq(|order|, r requires 0 <= r < |order| && order[r] in groups => groups[order[r]]);
  }

  lemma {:induction false} OrderListsKeys<K>(keys: seq<K>)
    ensures Distinct(Order(keys))
    ensures forall k :: k in Order(keys) <==> k in keys
  {
    if keys != [] {
      var last := |keys| - 1;
      OrderListsKeys(keys[..last]);
      assert keys == keys[..last] + [keys[last]];
    }
  }

  lemma {:induction false} UnseenKeySelectsNothing<K, T>(data: seq<T>, keys: seq<K>, k: K)
    requires |data| == |keys|
    ensures Select(data, keys, k) == [] <==> k !in Order(keys)
  {
    if keys != [] {
      var last := |keys| - 1;
      UnseenKeySelectsNothing(data[..last], keys[..last], k);
    }
  }

  /** Each partition holds exactly the items of one key, none of them empty. */
  lemma PartsAreNotEmpty<K, T>(data: seq<T>, keys: seq<K>)
    requires |data| == |keys|
    ensures forall r | 0 <= r < |Parts(data, keys)| :: Parts(data, keys)[r] != []
    ensures Parts(data, keys) == [] <==> data == []
  {
    forall r | 0 <= r < |Parts(data, keys)| ensures Parts(data, keys)[r] != [] {
      UnseenKeySelectsNothing(data, keys, Order(keys)[r]);
    }
    OrderListsKeys(keys);
    if data != [] {
      assert keys[0] in Order(keys);
    }
  }

  lemma FlattenLast<T>(parts: seq<seq<T>>)
    requires parts != []
    ensures multiset(Flatten(parts)) == multiset(Flatten(parts[..|parts| - 1])) + multiset(parts[|parts| - 1])
  {}

  lemma {:induction false} FlattenExtend<T>(parts: seq<seq<T>>, r: nat, x: T)
    requires r < |parts|
    ensures multiset(Flatten(parts[r := parts[r] + [x]])) == multiset(Flatten(parts)) + multiset{x}
  {
    hide Flatten;
    var last := |parts| - 1;
    var more := parts[r := parts[r] + [x]];
    FlattenLast(parts);
    FlattenLast(more);
    if r == last {
      assert more[..last] == parts[..last];
    } else {
      FlattenExtend(parts[..last], r, x);
      assert more[..last] == parts[..last][r := parts[r] + [x]];
    }
  }

  lemma LastItem<K, T>(data: seq<T>, keys: seq<K>, k: K)
    requires |data| == |keys| && keys != []
    ensures
      var last := |keys| - 1;
      && Order(keys) == Order(keys[..last]) + (if keys[last] in Order(keys[..last]) then [] else [keys[last]])
      && Select(data, keys, k) == Select(data[..last], keys[..last], k) + if keys[last] == k then [data[last]] else []
  {}

  /** Adding an item extends one partition or opens a new one. */
  lemma PartsExtend<K, T>(data: seq<T>, keys: seq<K>)
    requires |data| == |keys| && keys != []
    ensures
      var last := |keys| - 1;
      var before := Parts(data[..last], keys[..last]);
      if keys[last] in Order(keys[..last]) then
        exists r | 0 <= r < |before| :: Parts(data, keys) == before[r := before[r] + [data[last]]]
      else Parts(data, keys) == before + [[data[last]]]
  {
    hide Order, Select;
    var last := |keys| - 1;
    var before, order := Parts(data[..last], keys[..last]), Order(keys[..last]);
    LastItem(data, keys, keys[last]);
    OrderListsKeys(keys[..last]);
    UnseenKeySelectsNothing(data[..last], keys[..last], keys[last]);
    var parts := Parts(data, keys);
    forall s | 0 <= s < |order|
      ensures parts[s] == before[s] + if order[s] == keys[last] then [data[last]] else []
    {
      LastItem(data, keys, order[s]);
    }
    if keys[last] in order {
      var r :| 0 <= r < |order| && order[r] == keys[last];
      forall s | 0 <= s < |order| && s != r ensures parts[s] == before[s] {}
      assert parts == before[r := before[r] + [data[last]]];
    } else {
      forall s | 0 <= s < |order| ensures parts[s] == before[s] {}
      assert parts[|order|] == Select(data, keys, keys[last]) == [data[last]];
      assert parts == before + [[data[last]]];
    }
  }

  /** Partitioning loses and duplicates nothing. */
  lemma {:induction false} PartsHoldTheData<K, T>(data: seq<T>, keys: seq<K>)
    requires |data| == |keys|
    ensures multiset(Flatten(Parts(data, keys))) == multiset(data)
  {
    if keys != [] {
      hide Parts, Order, Flatten;
      var last := |keys| - 1;
      var before := Parts(data[..last], keys[..last]);
      PartsHoldTheData(data[..last], keys[..last]);
      PartsExtend(data, keys);
      assert multiset(data) == multiset(data[..last]) + multiset{data[last]} by {
        assert data == data[..last] + [data[last]];
      }
      if keys[last] in Order(keys[..last]) {
        var r :| 0 <= r < |before| && Parts(data, keys) == before[r := before[r] + [data[last]]];
        FlattenExtend(before, r, data[last]);
      } else {
        FlattenOneMore(before, data[last]);
      }
    }
  }

  lemma FlattenOneMore<T>(parts: seq<seq<T>>, x: T)
    ensures multiset(Flatten(parts + [[x]])) == multiset(Flatten(parts)) + multiset{x}
  {
    assert (parts + [[x]])[..|parts|] == parts;
  }

  // ---------- Coverage ----------

  lemma {:induction false} FlattenShorter<T>(parts: seq<seq<T>>, w: nat)
    requires w < |parts| && forall r | 0 <= r < |parts| :: parts[r] != []
    ensures |Flatten(parts[..w])| < |Flatten(parts)|
  {
    var last := |parts| - 1;
    if w < last {
      FlattenShorter(parts[..last], w);
      assert parts[..last][..w] == parts[..w];
    }
  }

  /** The workers together process every item exactly once if and only if there are as many partitions as workers. */
  lemma CoverageIffOnePartitionEach<K, T>(data: seq<T>, keys: seq<K>, workers: nat)
    requires |data| == |keys| && data != []
    ensures multiset(Flatten(Assigned(Parts(data, keys), workers))) == multiset(data) <==> |Parts(data, keys)| == workers
  {
    hide Parts, Assigned, Flatten;
    var parts := Parts(data, keys);
    var shares := Assigned(parts, workers);
    PartsHoldTheData(data, keys);
    PartsAreNotEmpty(data, keys);
    AssignedPrefix(parts, workers);
    assert |multiset(Flatten(shares))| == |Flatten(shares)|;
    assert |multiset(Flatten(parts))| == |Flatten(parts)|;
    if workers < |parts| {
      FlattenShorter(parts, workers);
    } else if workers > |parts| {
      FlattenShorter(shares, |parts|);
    } else {
      assert parts[..workers] == parts;
    }
  }

  lemma AssignedPrefix<T>(parts: seq<seq<T>>, workers: nat)
    requires parts != [] && forall r | 0 <= r < |parts| :: parts[r] != []
    ensures workers <= |parts| ==> Assigned(parts, workers) == parts[..workers]
    ensures workers >= |parts| ==> Assigned(parts, workers)[..|parts|] == parts
    ensures |Assigned(parts, workers)| == workers && forall i | 0 <= i < workers :: Assigned(parts, workers)[i] != []
  {
    var shares := Assigned(parts, workers);
    forall i | 0 <= i < workers && i < |parts| ensures shares[i] == parts[i] {
      SmallRemainder(i, |parts|);
    }
  }

  lemma SmallRemainder(i: nat, p: nat)
    requires i < p
    ensures i % p == i
  {}

  lemma {:induction false} RoundRobinOrder(n: nat, workers: nat)
    requires workers > 0
    ensures Order(RoundRobinKeys(n, workers)) == seq(Min(n, workers), i => i)
  {
    if n > 0 {
      var keys, before := RoundRobinKeys(n, workers), seq(Min(n - 1, workers), i => i);
      RoundRobinOrder(n - 1, workers);
      assert keys[..n - 1] == RoundRobinKeys(n - 1, workers);
      assert keys[n - 1] == (n - 1) % workers;
      if n <= workers {
        SmallRemainder(n - 1, workers);
        assert keys[n - 1] !in before;
        assert Order(keys) == before + [n - 1] == seq(n, i => i);
      } else {
        assert before[(n - 1) % workers] == keys[n - 1];
      }
    }
  }

  function Min(a: int, b: int): int {
    if a < b then a else b
  }

  /** With at least as many items as workers, round robin gives the workers a permutation of the data. */
  lemma RoundRobinCovers<T>(data: seq<T>, workers: nat)
    requires 1 <= workers <= |data|
    ensures multiset(Flatten(Assigned(Parts(data, RoundRobinKeys(|data|, workers)), workers))) == multiset(data)
  {
    RoundRobinOrder(|data|, workers);
    CoverageIffOnePartitionEach(data, RoundRobinKeys(|data|, workers), workers);
  }

  // ---------- How often an item is processed ----------

  /** The number of workers below `workers` that are given partition `r` out of `p`: the rounded-up (workers - r) / p. */
  function Times(workers: nat, p: nat, r: nat): nat
    requires r < p
  {
    (workers - r + p - 1) / p
  }

  lemma TimesStep(workers: nat, p: nat, r: nat)
    requires r < p
    ensures Times(workers + 1, p, r) == Times(workers, p, r) + if workers % p == r then 1 else 0
    ensures Times(0, p, r) == 0
  {
    var m := workers % p;
    RoundedUp(workers, p, r, workers / p, m);
    if m < p - 1 {
      RoundedUp(workers + 1, p, r, workers / p, m + 1);
    } else {
      NextRound(workers, p, workers / p);
      RoundedUp(workers + 1, p, r, workers / p + 1, 0);
    }
    RoundedUp(0, p, r, 0, 0);
  }

  /** After q whole rounds and m workers more, partition r was reached q times, and once more if r < m. */
  lemma RoundedUp(workers: nat, p: nat, r: nat, q: nat, m: nat)
    requires r < p && workers == q * p + m && m < p
    ensures Times(workers, p, r) == q + if r < m then 1 else 0
  {
    if r < m {
      NextRound(q * p + p - 1, p, q);
      Quotient(workers - r + p - 1, p, q + 1, m - r - 1);
    } else {
      Quotient(workers - r + p - 1, p, q, m - r + p - 1);
    }
  }

  lemma NextRound(x: nat, p: nat, q: nat)
    requires x == q * p + p - 1
    ensures x + 1 == (q + 1) * p
  {}

  lemma Quotient(x: int, p: int, q: int, m: int)
    requires x == q * p + m && 0 <= m < p
    ensures x / p == q
  {
    var d := x / p;
    assert x == d * p + x % p;
    if d < q {
      assert (q - d) * p >= p by { MulMono(q - d, p); }
    } else if d > q {
      assert (d - q) * p >= p by { MulMono(d - q, p); }
    }
  }

  lemma MulMono(a: int, p: int)
    requires a >= 1 && p > 0
    ensures a * p >= p
  {}

  /** An item of partition `r` and of no other partition is processed once by every worker that is given that partition. */
  lemma {:induction false} ProcessedTimes<T>(parts: seq<seq<T>>, workers: nat, r: nat, x: T)
    requires r < |parts| && forall s | 0 <= s < |parts| :: multiset(parts[s])[x] == if s == r then 1 else 0
    ensures multiset(Flatten(Assigned(parts, workers)))[x] == Times(workers, |parts|, r)
  {
    if workers == 0 {
      TimesStep(0, |parts|, r);
    } else {
      var before, shares := Assigned(parts, workers - 1), Assigned(parts, workers);
      assert shares[..workers - 1] == before && shares[workers - 1] == parts[(workers - 1) % |parts|];
      TimesStep(workers - 1, |parts|, r);
      FlattenLast(shares);
      hide Flatten, Times, Assigned;
      ProcessedTimes(parts, workers - 1, r, x);
    }
  }

  lemma {:induction false} SelectCounts<K, T>(data: seq<T>, keys: seq<K>, k: K, j: nat)
    requires |data| == |keys| && j < |data| && Distinct(data)
    ensures multiset(Select(data, keys, k))[data[j]] == if keys[j] == k then 1 else 0
  {
    var last := |keys| - 1;
    var before := Select(data[..last], keys[..last], k);
    if j < last {
      SelectCounts(data[..last], keys[..last], k, j);
      assert data[..last][j] != data[last];
    } else {
      SelectIsPart(data[..last], keys[..last], k);
      assert data[j] !in before;
    }
    assert Select(data, keys, k) == before + if keys[last] == k then [data[last]] else [];
  }

  lemma {:induction false} SelectIsPart<K, T>(data: seq<T>, keys: seq<K>, k: K)
    requires |data| == |keys|
    ensures forall x | x in Select(data, keys, k) :: x in data
  {
    if keys != [] {
      SelectIsPart(data[..|keys| - 1], keys[..|keys| - 1], k);
    }
  }

  function Positions(n: nat): seq<nat> {
    seq(n, (i: nat) => i)
  }

  predicate Within(positions: seq<nat>, n: nat) {
    forall i | 0 <= i < |positions| :: positions[i] < n
  }

  /** The items at these positions. */
  function Pick<T>(data: seq<T>, positions: seq<nat>): seq<T>
    requires Within(positions, |data|)
  {
    seq(|positions|, i requires 0 <= i < |positions| => data[positions[i]])
  }

  lemma {:induction false} SelectByPosition<K, T>(data: seq<T>, keys: seq<K>, k: K)
    requires |data| == |keys|
    ensures Within(Select(Positions(|data|), keys, k), |data|)
    ensures Select(data, keys, k) == Pick(data, Select(Positions(|data|), keys, k))
  {
    if keys != [] {
      var last := |keys| - 1;
      SelectByPosition(data[..last], keys[..last], k);
      assert Positions(|data|)[..last] == Positions(last);
      var before := Select(Positions(last), keys[..last], k);
      assert Pick(data[..last], before) == Pick(data, before);
    }
  }

  /** Each partition holds the positions of one key, in order, and the partitions come in the order in which their keys
      first appear; the items of a partition are those at its positions. */
  lemma PartitionsAreInOrder<K, T>(data: seq<T>, keys: seq<K>)
    requires |data| == |keys|
    ensures
      var places := Parts<K, nat>(Positions(|keys|), keys);
      && |Parts(data, keys)| == |places|
      && (forall r | 0 <= r < |places| ::
            && places[r] != [] && Within(places[r], |keys|) && Parts(data, keys)[r] == Pick(data, places[r])
            && (forall a, b | 0 <= a < b < |places[r]| :: places[r][a] < places[r][b])
            && (forall j | 0 <= j < |keys| :: j in places[r] <==> keys[j] == keys[places[r][0]]))
      && (forall r, s | 0 <= r < s < |places| :: places[r] != [] && places[s] != [] && places[r][0] < places[s][0])
  {
    hide Select, Order;
    var order := Order(keys);
    var places := Parts<K, nat>(Positions(|keys|), keys);
    PartsAreNotEmpty<K, nat>(Positions(|keys|), keys);
    forall r | 0 <= r < |places|
      ensures places[r] != [] && Within(places[r], |keys|) && Parts(data, keys)[r] == Pick(data, places[r])
      ensures forall a, b | 0 <= a < b < |places[r]| :: places[r][a] < places[r][b]
      ensures forall j | 0 <= j < |keys| :: j in places[r] <==> keys[j] == order[r]
    {
      SelectByPosition(data, keys, order[r]);
      SelectedPositions(keys, order[r]);
      assert places[r] == Select<K, nat>(Positions(|keys|), keys, order[r]);
    }
    forall r, s | 0 <= r < s < |places| ensures places[r][0] < places[s][0] {
      FirstAppearance(keys, r, s);
    }
  }

  /** The positions of a key: all of them, in order. */
  lemma {:induction false} SelectedPositions<K>(keys: seq<K>, k: K)
    ensures
      var places := Select<K, nat>(Positions(|keys|), keys, k);
      && (forall a, b | 0 <= a < b < |places| :: places[a] < places[b])
      && (forall a | 0 <= a < |places| :: places[a] < |keys|)
      && (forall j | 0 <= j < |keys| :: j in places <==> keys[j] == k)
  {
    if keys != [] {
      var last := |keys| - 1;
      SelectedPositions(keys[..last], k);
      assert Positions(|keys|)[..last] == Positions(last);
    }
  }

  /** A key listed earlier appears earlier. */
  lemma {:induction false} FirstAppearance<K>(keys: seq<K>, r: nat, s: nat)
    requires r < s < |Order(keys)|
    ensures
      var a := Select<K, nat>(Positions(|keys|), keys, Order(keys)[r]);
      var b := Select<K, nat>(Positions(|keys|), keys, Order(keys)[s]);
      a != [] && b != [] && a[0] < b[0]
  {
    var last := |keys| - 1;
    var before, j, k := Order(keys[..last]), Order(keys)[r], Order(keys)[s];
    LastItem<K, nat>(Positions(|keys|), keys, j);
    LastItem<K, nat>(Positions(|keys|), keys, k);
    hide Order, Select;
    assert Positions(|keys|)[..last] == Positions(last) && Positions(|keys|)[last] == last;
    UnseenKeySelectsNothing<K, nat>(Positions(last), keys[..last], j);
    UnseenKeySelectsNothing<K, nat>(Positions(last), keys[..last], k);
    SelectedPositions(keys[..last], j);
    assert j in before by {
      assert before[r] == j;
    }
    if s < |before| {
      FirstAppearance(keys[..last], r, s);
    }
  }

  /** The positions each worker is given: the shares of data that is its own positions. */
  function PositionShares<K(==)>(keys: seq<K>, workers: nat): seq<seq<nat>> {
    Assigned<nat>(Parts<K, nat>(Positions(|keys|), keys), workers)
  }

  /** Partitioning never looks at the items: worker `i` is given the items at the positions it would be given, were the
      data its own positions. */
  lemma SharesByPosition<K, T>(data: seq<T>, keys: seq<K>, workers: nat, i: nat)
    requires |data| == |keys| && i < workers
    ensures Within(PositionShares(keys, workers)[i], |data|)
    ensures Assigned(Parts(data, keys), workers)[i] == Pick(data, PositionShares(keys, workers)[i])
  {
    hide Select, Order;
    var order := Order(keys);
    if order != [] {
      SelectByPosition(data, keys, order[i % |order|]);
    }
  }

  /** A position is in the partition of its key, once, and in no other. */
  lemma PositionInOnePart<K>(keys: seq<K>, j: nat, r: nat)
    requires j < |keys| && r < |Order(keys)| && Order(keys)[r] == keys[j]
    ensures
      var parts := Parts<K, nat>(Positions(|keys|), keys);
      |parts| == |Order(keys)| && forall s | 0 <= s < |parts| :: multiset(parts[s])[j] == if s == r then 1 else 0
  {
    hide Order, Select;
    OrderListsKeys(keys);
    var n, parts := |keys|, Parts<K, nat>(Positions(|keys|), keys);
    forall s | 0 <= s < |parts| ensures multiset(parts[s])[j] == if s == r then 1 else 0 {
      SelectCounts(Positions(n), keys, Order(keys)[s], j);
      assert Positions(n)[j] == j && parts[s] == Select(Positions(n), keys, Order(keys)[s]);
    }
  }

  /** With any keys and any number of workers, the item at position `j` is processed as often as the workers, counted
      round and round over the partitions, reach the partition of its key; equal items are counted by position. */
  lemma TimesProcessed<K>(keys: seq<K>, workers: nat, j: nat, r: nat)
    requires j < |keys| && r < |Order(keys)| && Order(keys)[r] == keys[j]
    ensures multiset(Flatten<nat>(PositionShares(keys, workers)))[j] == Times(workers, |Order(keys)|, r)
  {
    hide Parts, Times;
    PositionInOnePart(keys, j, r);
    ProcessedTimes<nat>(Parts<K, nat>(Positions(|keys|), keys), workers, r, j);
  }

  /** With fewer items than workers, round robin processes the item at position `j` the rounded-up (workers - j) / n
      times, whatever the items are. */
  lemma RoundRobinRepeats<T>(data: seq<T>, workers: nat, j: nat)
    requires j < |data| < workers
    ensures
      var keys := RoundRobinKeys(|data|, workers);
      var shares := PositionShares(keys, workers);
      && multiset(Flatten<nat>(shares))[j] == (workers - j + |data| - 1) / |data|
      && forall i | 0 <= i < workers ::
           Within(shares[i], |data|) && Assigned(Parts(data, keys), workers)[i] == Pick(data, shares[i])
  {
    hide Order, Parts, PositionShares, Assigned, Flatten, Pick;
    var keys := RoundRobinKeys(|data|, workers);
    RoundRobinOrder(|data|, workers);
    SmallRemainder(j, workers);
    assert Order(keys)[j] == j == keys[j];
    TimesProcessed(keys, workers, j, j);
    AssignedSize(Parts(data, keys), workers);
    PositionSharesSize(keys, workers);
    forall i | 0 <= i < workers
      ensures Within(PositionShares(keys, workers)[i], |data|)
      ensures Assigned(Parts(data, keys), workers)[i] == Pick(data, PositionShares(keys, workers)[i])
    {
      SharesByPosition(data, keys, workers, i);
    }
  }

  lemma PositionSharesSize<K>(keys: seq<K>, workers: nat)
    ensures |PositionShares(keys, workers)| == workers
  {}

  lemma AssignedSize<T>(parts: seq<seq<T>>, workers: nat)
    ensures |Assigned(parts, workers)| == workers
  {}

  // ---------- Execution ----------

  /** How the node ends for one worker: success, a returned failure (still registered), or an exception. */
  datatype Outcome<+R> = Done(value: R) | Failed(value: R) | Raised {
    predicate Registered() {
      !Raised?
    }
  }

  datatype Run<T(==), R> = Run(results: seq<R>, errors: nat, known: map<seq<T>, R>, raised: bool)

  /** One worker: a known partition is answered from the computation graph, whatever its recorded success. Under
      `failFast` a returned failure is counted when seen and again when the exception it turns into is caught. */
  function WorkerStep<T(==), R>(run: Run<T, R>, part: seq<T>, node: seq<T> -> Outcome<R>, held: bool, failFast: bool): Run<T, R> {
    if held && part in run.known then run.(results := run.results + [run.known[part]])
    else
      match node(part)
      case Done(v) => run.(results := run.results + [v], known := run.known[part := v])
      case Failed(v) => run.(errors := run.errors + (if failFast then 2 else 1), known := run.known[part := v], raised := failFast)
      case Raised => run.(errors := run.errors + 1, raised := failFast)
  }

  /** The first `i` workers, one after the other, up to the first raised exception. `held(i)` says whether the graph
      still holds an entry when worker `i` looks it up. */
  function After<T(==), R>(shares: seq<seq<T>>, i: nat, node: seq<T> -> Outcome<R>, known: map<seq<T>, R>, held: nat -> bool,
                       failFast: bool): Run<T, R>
    requires i <= |shares|
  {
    if i == 0 then Run([], 0, known, false)
    else
      var run := After(shares, i - 1, node, known, held, failFast);
      if run.raised then run else WorkerStep(run, shares[i - 1], node, held(i - 1), failFast)
  }

  lemma AfterNext<T, R>(shares: seq<seq<T>>, i: nat, node: seq<T> -> Outcome<R>, known: map<seq<T>, R>, held: nat -> bool,
                        failFast: bool)
    requires i < |shares|
    ensures
      var run := After(shares, i, node, known, held, failFast);
      After(shares, i + 1, node, known, held, failFast)
      == if run.raised then run else WorkerStep(run, shares[i], node, held(i), failFast)
  {}

  lemma NothingYet<T, R>(shares: seq<seq<T>>, node: seq<T> -> Outcome<R>, known: map<seq<T>, R>, held: nat -> bool,
                         failFast: bool)
    ensures After(shares, 0, node, known, held, failFast) == Run([], 0, known, false)
  {}

  class SwarmCoordinator<T(==), R> {
    var lastErrorCount: nat
    var lastWorkerCount: nat

    /** `execute_swarm` for a swarm of this many identical workers, with the keys the partition function (or round
        robin) gives the items. Nothing is returned when fail-fast raised; `known` is what the graph holds. */
    method ExecuteSwarm<K(==), O>(workers: nat, data: seq<T>, keys: seq<K>, node: seq<T> -> Outcome<R>,
                                  known: map<seq<T>, R>, held: nat -> bool, failFast: bool, reducer: seq<R> -> O)
      returns (reduced: Option<O>, graph: map<seq<T>, R>)
      requires |data| == |keys|
      modifies this
      ensures
        var run := After(Assigned(Parts(data, keys), workers), workers, node, known, held, failFast);
        && reduced == (if run.raised then None else Some(reducer(run.results)))
        && graph == run.known && lastErrorCount == run.errors && lastWorkerCount == workers
    {
      hide Parts, Share;
      NothingYet(Assigned(Parts(data, keys), workers), node, known, held, failFast);
      hide After;
      lastWorkerCount, lastErrorCount := workers, 0;
      var partitions := Partition(data, keys);
      var results: seq<R> := [];
      graph := known;
      ghost var shares := Assigned(partitions, workers);
      for i := 0 to workers
        invariant lastWorkerCount == workers
        invariant After(shares, i, node, known, held, failFast) == Run(results, lastErrorCount, graph, false)
      {
        var part := Share(partitions, i);
        assert part == shares[i];
        AfterNext(shares, i, node, known, held, failFast);
        if held(i) && part in graph {
          results := results + [graph[part]];
          continue;
        }
        match node(part) {
          case Done(v) =>
            graph := graph[part := v];
            results := results + [v];
          case Failed(v) =>
            graph := graph[part := v];
            lastErrorCount := lastErrorCount + 1;
            if failFast {
              lastErrorCount := lastErrorCount + 1;
              RaisedStays(shares, i + 1, node, known, held, failFast);
              return None, graph;
            }
          case Raised =>
            lastErrorCount := lastErrorCount + 1;
            if failFast {
              RaisedStays(shares, i + 1, node, known, held, failFast);
              return None, graph;
            }
        }
      }
      reduced := Some(reducer(results));
    }
  }

  lemma {:induction false} RaisedStays<T, R>(shares: seq<seq<T>>, i: nat, node: seq<T> -> Outcome<R>, known: map<seq<T>, R>,
                                             held: nat -> bool, failFast: bool)
    requires i <= |shares| && After(shares, i, node, known, held, failFast).raised
    ensures After(shares, |shares|, node, known, held, failFast) == After(shares, i, node, known, held, failFast)
    decreases |shares| - i
  {
    if i < |shares| {
      RaisedStays(shares, i + 1, node, known, held, failFast);
    }
  }

  /** The graph holds what the node would return, wherever it holds anything. */
  ghost predicate Honest<T, R>(known: map<seq<T>, R>, node: seq<T> -> Outcome<R>) {
    forall p | p in known :: node(p).Registered() && node(p).value == known[p]
  }

  /** When the node succeeds on every assigned partition, neither what the graph already held nor what it forgets is
      visible: each worker contributes the node's result, in order. */
  lemma {:induction false} CachingIsInvisible<T, R>(shares: seq<seq<T>>, i: nat, node: seq<T> -> Outcome<R>,
                                                    known: map<seq<T>, R>, held: nat -> bool, failFast: bool)
    requires i <= |shares| && Honest(known, node) && forall j | 0 <= j < |shares| :: node(shares[j]).Done?
    ensures
      var run := After(shares, i, node, known, held, failFast);
      && Honest(run.known, node) && run.errors == 0 && !run.raised && |run.results| == i
      && forall j | 0 <= j < i :: run.results[j] == node(shares[j]).value
  {
    hide After;
    if i == 0 {
      NothingYet(shares, node, known, held, failFast);
    } else {
      CachingIsInvisible(shares, i - 1, node, known, held, failFast);
      AfterNext(shares, i - 1, node, known, held, failFast);
    }
  }

  /** Without fail-fast every worker either contributes a result or counts as an error, and nothing is raised. */
  lemma {:induction false} ResultsPlusErrors<T, R>(shares: seq<seq<T>>, i: nat, node: seq<T> -> Outcome<R>,
                                                   known: map<seq<T>, R>, held: nat -> bool)
    requires i <= |shares|
    ensures
      var run := After(shares, i, node, known, held, false);
      !run.raised && |run.results| + run.errors == i
  {
    if i > 0 {
      ResultsPlusErrors(shares, i - 1, node, known, held);
    }
  }

  /** The partitions on which the node fails and whose outcome was not known beforehand. */
  ghost function FailedParts<T, R>(parts: seq<seq<T>>, node: seq<T> -> Outcome<R>, known: map<seq<T>, R>): set<seq<T>> {
    set p | p in Elements(parts) && p !in known && !node(p).Done?
  }

  lemma ElementsStep<T>(s: seq<T>, i: nat)
    requires i < |s|
    ensures Elements(s[..i + 1]) == Elements(s[..i]) + {s[i]}
  {}

  lemma {:induction false} KnownPartitions<T, R>(shares: seq<seq<T>>, i: nat, node: seq<T> -> Outcome<R>,
                                                 known: map<seq<T>, R>, held: nat -> bool)
    requires i <= |shares| && forall j | 0 <= j < |shares| :: held(j) && node(shares[j]).Registered()
    ensures After(shares, i, node, known, held, false).known.Keys == known.Keys + Elements(shares[..i])
  {
    hide After, Elements;
    if i == 0 {
      NothingYet(shares, node, known, held, false);
      NoElements(shares[..0]);
    } else {
      KnownPartitions(shares, i - 1, node, known, held);
      ResultsPlusErrors(shares, i - 1, node, known, held);
      ElementsStep(shares, i - 1);
      AfterNext(shares, i - 1, node, known, held, false);
    }
  }

  /** While nothing is forgotten, a failing partition is an error only once: a later worker given the same partition is
      answered with the recorded failure and its state counts as a result. */
  lemma {:induction false} FailuresAreCountedOnce<T, R>(shares: seq<seq<T>>, i: nat, node: seq<T> -> Outcome<R>,
                                                        known: map<seq<T>, R>, held: nat -> bool)
    requires i <= |shares| && forall j | 0 <= j < |shares| :: held(j) && node(shares[j]).Registered()
    ensures After(shares, i, node, known, held, false).errors == |FailedParts(shares[..i], node, known)|
  {
    hide After, Elements, FailedParts;
    if i == 0 {
      NothingYet(shares, node, known, held, false);
      NothingFailed(shares[..0], node, known);
    } else {
      FailuresAreCountedOnce(shares, i - 1, node, known, held);
      KnownPartitions(shares, i - 1, node, known, held);
      ResultsPlusErrors(shares, i - 1, node, known, held);
      FailedStep(shares, i - 1, node, known);
      AfterNext(shares, i - 1, node, known, held, false);
    }
  }

  lemma FailedStep<T, R>(shares: seq<seq<T>>, i: nat, node: seq<T> -> Outcome<R>, known: map<seq<T>, R>)
    requires i < |shares|
    ensures |FailedParts(shares[..i + 1], node, known)| == |FailedParts(shares[..i], node, known)|
            + if !node(shares[i]).Done? && shares[i] !in known.Keys + Elements(shares[..i]) then 1 else 0
  {
    hide Elements;
    var part, before := shares[i], FailedParts(shares[..i], node, known);
    ElementsStep(shares, i);
    if node(part).Done? || part in known || part in Elements(shares[..i]) {
      assert FailedParts(shares[..i + 1], node, known) == before;
    } else {
      assert FailedParts(shares[..i + 1], node, known) == before + {part};
    }
  }

  lemma NothingFailed<T, R>(parts: seq<seq<T>>, node: seq<T> -> Outcome<R>, known: map<seq<T>, R>)
    requires parts == []
    ensures FailedParts(parts, node, known) == {}
  {}

  /** Worker `i` finds its partition in the graph: known beforehand, or registered by an earlier worker. */
  predicate Answered<T(==), R>(shares: seq<seq<T>>, i: nat, known: map<seq<T>, R>, held: nat -> bool)
    requires i < |shares|
  {
    held(i) && (shares[i] in known || shares[i] in shares[..i])
  }

  /** Worker `i` runs the node and does not get a success. */
  predicate Trips<T(==), R>(shares: seq<seq<T>>, i: nat, node: seq<T> -> Outcome<R>, known: map<seq<T>, R>, held: nat -> bool)
    requires i < |shares|
  {
    !Answered(shares, i, known, held) && !node(shares[i]).Done?
  }

  lemma NoElements<T>(s: seq<T>)
    requires s == []
    ensures Elements(s) == {}
  {}

  lemma InElements<T>(s: seq<T>, x: T)
    ensures x in Elements(s) <==> x in s
  {}

  lemma {:induction false} SmoothSoFar<T, R>(shares: seq<seq<T>>, i: nat, node: seq<T> -> Outcome<R>,
                                             known: map<seq<T>, R>, held: nat -> bool)
    requires i <= |shares| && forall j | 0 <= j < i :: !Trips(shares, j, node, known, held)
    ensures
      var run := After(shares, i, node, known, held, true);
      run.errors == 0 && !run.raised && |run.results| == i && run.known.Keys == known.Keys + Elements(shares[..i])
  {
    hide After, Elements;
    if i == 0 {
      NothingYet(shares, node, known, held, true);
      NoElements(shares[..0]);
    } else {
      SmoothSoFar(shares, i - 1, node, known, held);
      ElementsStep(shares, i - 1);
      InElements(shares[..i - 1], shares[i - 1]);
      AfterNext(shares, i - 1, node, known, held, true);
      assert !Trips(shares, i - 1, node, known, held);
    }
  }

  /** Fail-fast, exactly: it raises when some worker trips, and then on behalf of the first that does; a returned failure
      has been counted twice by then and an exception once, whatever the graph knew beforehand or has forgotten since. */
  lemma FailFastErrors<T, R>(shares: seq<seq<T>>, node: seq<T> -> Outcome<R>, known: map<seq<T>, R>, held: nat -> bool)
    returns (first: nat)
    ensures first <= |shares| && (first < |shares| ==> Trips(shares, first, node, known, held))
    ensures forall j | 0 <= j < first :: !Trips(shares, j, node, known, held)
    ensures
      var run := After(shares, |shares|, node, known, held, true);
      && (run.raised <==> first < |shares|) && |run.results| == first
      && run.errors == if first == |shares| then 0 else if node(shares[first]).Failed? then 2 else 1
  {
    hide After, Trips;
    first := 0;
    while first < |shares| && !Trips(shares, first, node, known, held)
      invariant first <= |shares| && forall j | 0 <= j < first :: !Trips(shares, j, node, known, held)
    {
      first := first + 1;
    }
    SmoothSoFar(shares, first, node, known, held);
    if first < |shares| {
      TrippedWorker(shares, first, node, known, held);
      RaisedStays(shares, first + 1, node, known, held, true);
    }
  }

  lemma TrippedWorker<T, R>(shares: seq<seq<T>>, i: nat, node: seq<T> -> Outcome<R>, known: map<seq<T>, R>,
                            held: nat -> bool)
    requires i < |shares| && Trips(shares, i, node, known, held)
    requires forall j | 0 <= j < i :: !Trips(shares, j, node, known, held)
    ensures
      var run := After(shares, i + 1, node, known, held, true);
      run.raised && |run.results| == i && run.errors == if node(shares[i]).Failed? then 2 else 1
  {
    SmoothSoFar(shares, i, node, known, held);
    AfterNext(shares, i, node, known, held, true);
  }

  /** So the error rate of a one-worker swarm can be 2. */
  lemma OneWorkerTwoErrors<T, R>(part: seq<T>, node: seq<T> -> Outcome<R>, held: nat -> bool)
    requires node(part).Failed?
    ensures After([part], 1, node, map[], held, true).errors == 2
  {
    var first := FailFastErrors([part], node, map[], held);
    assert Trips([part], 0, node, map[], held);
  }

  // ---------- Summing ----------

  function Sum(s: seq<int>): int {
    if s == [] then 0 else Sum(s[..|s| - 1]) + s[|s| - 1]
  }

  lemma {:induction false} SumAppend(a: seq<int>, b: seq<int>)
    ensures Sum(a + b) == Sum(a) + Sum(b)
  {
    if b == [] {
      assert a + b == a;
    } else {
      assert (a + b)[..|a + b| - 1] == a + b[..|b| - 1];
      SumAppend(a, b[..|b| - 1]);
    }
  }

  lemma Without(b: seq<int>, k: nat)
    requires k < |b|
    ensures multiset(b) == multiset(b[..k] + b[k + 1..]) + multiset{b[k]}
  {
    assert b == b[..k] + [b[k]] + b[k + 1..];
  }

  lemma SumOne(x: int)
    ensures Sum([x]) == x
  {
    assert [x][..0] == [];
  }

  lemma SumWithout(b: seq<int>, k: nat)
    requires k < |b|
    ensures Sum(b) == Sum(b[..k] + b[k + 1..]) + b[k]
  {
    hide Sum;
    SumOne(b[k]);
    SumAppend(b[..k], b[k + 1..]);
    SumAppend([b[k]], b[k + 1..]);
    SumAppend(b[..k], [b[k]] + b[k + 1..]);
    assert b == b[..k] + ([b[k]] + b[k + 1..]);
  }

  lemma {:induction false} SumOfPermutation(a: seq<int>, b: seq<int>)
    requires multiset(a) == multiset(b)
    ensures Sum(a) == Sum(b)
  {
    if a == [] {
      assert |multiset(b)| == 0;
    } else {
      var last, x := |a| - 1, a[|a| - 1];
      assert multiset(a) == multiset(a[..last]) + multiset{x} by {
        assert a == a[..last] + [x];
      }
      assert x in multiset(b);
      var k :| 0 <= k < |b| && b[k] == x;
      Without(b, k);
      SumWithout(b, k);
      assert multiset(a[..last]) == multiset(b) - multiset{x} == multiset(b[..k] + b[k + 1..]);
      SumOfPermutation(a[..last], b[..k] + b[k + 1..]);
    }
  }

  lemma {:induction false} SumOfSums(parts: seq<seq<int>>, sums: seq<int>)
    requires |sums| == |parts| && forall i | 0 <= i < |parts| :: sums[i] == Sum(parts[i])
    ensures Sum(sums) == Sum(Flatten(parts))
  {
    if parts != [] {
      var last := |parts| - 1;
      SumOfSums(parts[..last], sums[..last]);
      SumAppend(Flatten(parts[..last]), parts[last]);
    }
  }

  /** A summing node and a summing reducer over round robin give the sum of the data, whatever the graph remembers. */
  lemma SwarmSums(data: seq<int>, workers: nat, known: map<seq<int>, int>, held: nat -> bool, failFast: bool)
    requires 1 <= workers <= |data| && forall p | p in known :: known[p] == Sum(p)
    ensures
      var shares := Assigned(Parts(data, RoundRobinKeys(|data|, workers)), workers);
      var run := After(shares, workers, p => Done(Sum(p)), known, held, failFast);
      !run.raised && run.errors == 0 && Sum(run.results) == Sum(data)
  {
    var shares := Assigned(Parts(data, RoundRobinKeys(|data|, workers)), workers);
    CachingIsInvisible(shares, workers, p => Done(Sum(p)), known, held, failFast);
    var run := After(shares, workers, p => Done(Sum(p)), known, held, failFast);
    SumOfSums(shares, run.results);
    RoundRobinCovers(data, workers);
    SumOfPermutation(Flatten(shares), data);
  }
}
