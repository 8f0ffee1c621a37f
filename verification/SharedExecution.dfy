/**
 * Executing an organism with shared computations: a hop restores a cached result instead of running the node. When
 * that means the same as running every node, and the exact condition under which one hop does.
 */
module SharedExecution {
  import opened Wrappers
  import opened JsonValues
  import opened ComputationCache
  import opened CacheRuns

  // ---------- Organisms and nodes ----------

  predicate Private(key: string) {
    key != "" && key[0] == '_'
  }

  function Public(state: Object): Object {
    map k | k in state && !Private(k) :: state[k]
  }

  datatype NodeResult = NodeResult(state: Object, next: Option<string>, success: bool)

  /** What the router and its nodes do with (capability, input, state); None when no node is registered. */
  type Nodes = (string, Object, Object) -> Option<NodeResult>

  datatype Status = Running | MaxHopsExceeded | NodeFailed | NodeNotFound

  datatype Organism = Organism(input: Object, state: Object, next: Option<string>, status: Status)

  const PREFIX := "capability:"

  /** `get_capability`: an explicit prefix is stripped; an empty name is no capability. */
  function Capability(next: Option<string>): Option<string> {
    match next
    case None => None
    case Some(name) =>
      var stripped := if PREFIX <= name then name[|PREFIX|..] else name;
      if stripped == "" then None else Some(stripped)
  }

  /** The prefix is stripped once; a bare prefix, an empty name and no name at all are no capability. */
  lemma CapabilityIsNamed(name: string)
    ensures Capability(Some("capability:" + name)) == if name == "" then None else Some(name)
    ensures !("capability:" <= name) ==> Capability(Some(name)) == if name == "" then None else Some(name)
    ensures Capability(None) == None
  {
    assert ("capability:" + name)[|PREFIX|..] == name;
  }

  /** The loop guard: there is a next name at all. */
  predicate Routes(o: Organism) {
    o.status.Running? && o.next.Some? && o.next.value != ""
  }

  function KeyOf(o: Organism): LookupKey
    requires Capability(o.next).Some?
  {
    LookupKey(Capability(o.next).value, o.input, Public(o.state))
  }

  /** The cold step: run the node; a failing node terminates the organism after its state was taken over. */
  function Ran(nodes: Nodes, o: Organism): Organism
    requires Capability(o.next).Some?
  {
    match nodes(Capability(o.next).value, o.input, o.state)
    case None => o.(status := NodeNotFound)
    case Some(r) => o.(state := r.state, next := r.next, status := if r.success then o.status else NodeFailed)
  }

  /** The warm step: overlay the cached public keys and mark where they came from; `success` is not consulted. */
  function Restored(o: Organism, cached: Object, next: Option<string>, marks: Object): Organism {
    o.(state := o.state + Public(cached) + marks, next := next)
  }

  /** The marks a warm step leaves are private keys. */
  predicate IsMark(marks: Object) {
    forall k | k in marks :: Private(k)
  }

  // ---------- Meaning ----------

  /** What a client sees of an organism. */
  datatype Seen = Seen(state: Object, next: Option<string>, status: Status)

  function See(o: Organism): Seen {
    Seen(Public(o.state), o.next, o.status)
  }

  /** Executing with an empty cache, hop by hop. */
  function Reference(nodes: Nodes, o: Organism, hops: nat): Seen
    decreases hops
  {
    if !Routes(o) then See(o)
    else if hops == 0 then See(o.(status := MaxHopsExceeded))
    else if Capability(o.next).None? then See(o)
    else Reference(nodes, Ran(nodes, o), hops - 1)
  }

  /** The key of the next hop, if a node is registered for it. */
  function Finds(nodes: Nodes, o: Organism): seq<LookupKey>
    requires Capability(o.next).Some?
  {
    if nodes(Capability(o.next).value, o.input, o.state).Some? then [KeyOf(o)] else []
  }

  /** The keys of the hops, executing with an empty cache, that find a node registered. */
  function Path(nodes: Nodes, o: Organism, hops: nat): seq<LookupKey>
    decreases hops
  {
    if !Routes(o) || hops == 0 || Capability(o.next).None? then []
    else Finds(nodes, o) + Path(nodes, Ran(nodes, o), hops - 1)
  }

  predicate SameResult(a: Option<NodeResult>, b: Option<NodeResult>) {
    if a.None? || b.None? then a.None? && b.None?
    else Public(a.value.state) == Public(b.value.state) && a.value.next == b.value.next && a.value.success == b.value.success
  }

  /** Nodes are deterministic in (capability, input, public state). */
  ghost predicate Deterministic(nodes: Nodes) {
    forall c, i, s, t | Public(s) == Public(t) :: SameResult(nodes(c, i, s), nodes(c, i, t))
  }

  /** The node succeeds on this key and deletes none of its public keys. */
  predicate Shareable(nodes: Nodes, key: LookupKey) {
    match nodes(key.capability, key.input, key.state)
    case None => true
    case Some(r) => r.success && key.state.Keys <= Public(r.state).Keys
  }

  lemma PublicIsIdempotent(s: Object)
    ensures Public(Public(s)) == Public(s)
  {}

  lemma PublicOfRestored(state: Object, cached: Object, marks: Object)
    requires IsMark(marks)
    ensures Public(state + Public(cached) + marks) == Public(state) + Public(cached)
  {}

  lemma OverlayIsReplacement(a: Object, b: Object)
    ensures a + b == b <==> a.Keys <= b.Keys
  {}

  /**
   * One hop, exactly: restoring what the node produced for this key is the same as running the node if and only if
   * the node succeeded and kept every public key.
   */
  lemma WarmHopIsColdHop(nodes: Nodes, o: Organism, r: NodeResult, marks: Object)
    requires Deterministic(nodes) && Routes(o) && Capability(o.next).Some? && IsMark(marks)
    requires nodes(KeyOf(o).capability, KeyOf(o).input, KeyOf(o).state) == Some(r)
    ensures See(Restored(o, Public(r.state), r.next, marks)) == See(Ran(nodes, o)) <==> Shareable(nodes, KeyOf(o))
  {
    PublicIsIdempotent(o.state);
    PublicIsIdempotent(r.state);
    assert SameResult(nodes(KeyOf(o).capability, o.input, o.state), Some(r));
    PublicOfRestored(o.state, Public(r.state), marks);
    OverlayIsReplacement(Public(o.state), Public(r.state));
  }

  /** Seen alike, run alike. */
  lemma {:induction false} ReferenceDependsOnWhatIsSeen(nodes: Nodes, a: Organism, b: Organism, hops: nat)
    requires Deterministic(nodes) && See(a) == See(b) && a.input == b.input
    ensures Reference(nodes, a, hops) == Reference(nodes, b, hops)
    decreases hops
  {
    if Routes(a) && Capability(a.next).Some? && hops > 0 {
      var c := Capability(a.next).value;
      assert SameResult(nodes(c, a.input, a.state), nodes(c, b.input, b.state));
      ReferenceDependsOnWhatIsSeen(nodes, Ran(nodes, a), Ran(nodes, b), hops - 1);
    }
  }

  lemma FindsDependsOnWhatIsSeen(nodes: Nodes, a: Organism, b: Organism)
    requires Deterministic(nodes) && See(a) == See(b) && a.input == b.input && Capability(a.next).Some?
    ensures Finds(nodes, a) == Finds(nodes, b)
  {
    var c := Capability(a.next).value;
    assert SameResult(nodes(c, a.input, a.state), nodes(c, b.input, b.state));
  }

  lemma {:induction false} PathDependsOnWhatIsSeen(nodes: Nodes, a: Organism, b: Organism, hops: nat)
    requires Deterministic(nodes) && See(a) == See(b) && a.input == b.input
    ensures Path(nodes, a, hops) == Path(nodes, b, hops)
    decreases hops
  {
    if Routes(a) && Capability(a.next).Some? && hops > 0 {
      var c := Capability(a.next).value;
      assert SameResult(nodes(c, a.input, a.state), nodes(c, b.input, b.state));
      FindsDependsOnWhatIsSeen(nodes, a, b);
      PathDependsOnWhatIsSeen(nodes, Ran(nodes, a), Ran(nodes, b), hops - 1);
    }
  }

  // ---------- Why the conditions are needed ----------

  /** A cached failure does not terminate the organism that restores it. */
  lemma CachedFailureIsIgnored(o: Organism)
    requires o.status.Running? && o.next == Some("fail")
    ensures
      var nodes: Nodes := (c, i, s) => Some(NodeResult(s, None, false));
      See(Ran(nodes, o)).status.NodeFailed? && See(Restored(o, Public(o.state), None, map[])).status.Running?
  {}

  /** A key the node deletes survives in the organism that restores its result. */
  lemma DeletedKeySurvives()
    ensures
      var nodes: Nodes := (c, i, s) => Some(NodeResult(map[], None, true));
      var o := Organism(map[], map["k" := Null], Some("drop"), Running);
      "k" !in See(Ran(nodes, o)).state && "k" in See(Restored(o, map[], None, map[])).state
  {}

  // ---------- Whole executions ----------

  /** A hop is restored from what a lookup of some worker returned, or the node is run. */
  datatype Hop = Warm(lookup: nat, marks: Object) | Cold

  /** Everything ever registered is what the node makes of the key. */
  ghost predicate Honest(nodes: Nodes, ops: seq<Op>) {
    forall j | 0 <= j < |ops| && ops[j].RegisterOp? ::
      match nodes(ops[j].key.capability, ops[j].key.input, ops[j].key.state)
      case None => false
      case Some(r) => ops[j].state == Public(r.state) && ops[j].next == r.next && ops[j].success == r.success
  }

  /** What a cold hop registers is honest, although the node saw private keys that the key does not carry. */
  lemma ColdHopRegistersHonestly(nodes: Nodes, o: Organism, r: NodeResult)
    requires Deterministic(nodes) && Capability(o.next).Some?
    requires nodes(KeyOf(o).capability, KeyOf(o).input, o.state) == Some(r)
    ensures SameResult(nodes(KeyOf(o).capability, KeyOf(o).input, KeyOf(o).state), Some(r))
  {}

  /** A run of the cache fleet, in which any number of other executions take part, under any TTLs and TTL readings. */
  datatype World = World(ttls: Ttls, run: seq<Fleet>, ops: seq<Op>)

  ghost predicate IsWorld(world: World, nodes: Nodes) {
    IsFleetRun(world.ttls, world.run, world.ops) && Honest(nodes, world.ops)
  }

  ghost predicate HitAt(world: World, n: nat, key: LookupKey, hit: Cached) {
    && n < |world.ops| && n < |world.run| && world.ops[n].LookupOp? && world.ops[n].key == key
    && FleetInv(world.run[n]) && Legal(world.run[n], world.ops[n])
    && Hit(world.ttls, world.run[n], world.ops[n]) == Some(hit)
  }

  ghost predicate HopOk(world: World, nodes: Nodes, a: Organism, hop: Hop, b: Organism) {
    Routes(a) && Capability(a.next).Some? &&
    match hop
    case Cold => b == Ran(nodes, a)
    case Warm(n, marks) =>
      IsMark(marks) && exists hit :: HitAt(world, n, KeyOf(a), hit) && b == Restored(a, hit.state, hit.next, marks)
  }

  /** The loop of `execute`: hops while there is a capability, at most `maxHops` of them. */
  ghost predicate IsExecution(world: World, nodes: Nodes, maxHops: nat, trace: seq<Organism>, hops: seq<Hop>) {
    && |trace| == |hops| + 1 && |hops| <= maxHops
    && forall i | 0 <= i < |hops| :: HopOk(world, nodes, trace[i], hops[i], trace[i + 1])
  }

  /** The organism when the loop ends, seen from outside. */
  function Outcome(last: Organism, hops: nat, maxHops: nat): Seen {
    if Routes(last) && hops >= maxHops then See(last.(status := MaxHopsExceeded)) else See(last)
  }

  predicate Ended(last: Organism, hops: nat, maxHops: nat) {
    !Routes(last) || hops >= maxHops || Capability(last.next).None?
  }

  /** Every restored hop was of a key whose node succeeds and keeps its public keys. */
  predicate SharesSafely(nodes: Nodes, trace: seq<Organism>, hops: seq<Hop>)
    requires |trace| == |hops| + 1
  {
    forall i | 0 <= i < |hops| && hops[i].Warm? && Capability(trace[i].next).Some? :: Shareable(nodes, KeyOf(trace[i]))
  }

  /** A warm hop is a cold hop, whatever the state of the caches and whoever registered the entry. */
  lemma HopMeansRan(world: World, nodes: Nodes, a: Organism, hop: Hop, b: Organism)
    requires IsWorld(world, nodes) && Deterministic(nodes) && HopOk(world, nodes, a, hop, b)
    requires hop.Warm? ==> Shareable(nodes, KeyOf(a))
    ensures See(b) == See(Ran(nodes, a)) && b.input == a.input
  {
    hide FleetInv, Legal, IsFleetRun, Deterministic, Registered, Hit;
    if hop.Warm? {
      var hit :| HitAt(world, hop.lookup, KeyOf(a), hit) && b == Restored(a, hit.state, hit.next, hop.marks);
      var r := HitIsNodeResult(world, nodes, hop.lookup, KeyOf(a), hit);
      WarmHopIsColdHop(nodes, a, r, hop.marks);
    }
  }

  /** Whatever a lookup returns is what the node makes of the key. */
  lemma HitIsNodeResult(world: World, nodes: Nodes, n: nat, key: LookupKey, hit: Cached) returns (r: NodeResult)
    requires IsWorld(world, nodes) && HitAt(world, n, key, hit)
    ensures nodes(key.capability, key.input, key.state) == Some(r)
    ensures hit.state == Public(r.state) && hit.next == r.next
  {
    hide FleetInv, Legal, IsFleetRun, Hit;
    var at, success := HitIsRegistered(world.ttls, world.run, world.ops, n);
    var j :| 0 <= j < n && world.ops[j].RegisterOp? && world.ops[j].key == key && world.ops[j].state == hit.state &&
             world.ops[j].next == hit.next;
    r := nodes(key.capability, key.input, key.state).value;
  }

  /**
   * Sharing preserves meaning: for deterministic nodes that succeed and keep public keys, an execution whose hops are
   * restored from any worker's cache at any time ends with the public state, the next capability and the hop-limit
   * outcome of an execution with an empty cache, for every routing graph including cycles.
   */
  lemma {:induction false} SharingPreservesMeaning(world: World, nodes: Nodes, maxHops: nat, trace: seq<Organism>,
                                                   hops: seq<Hop>)
    requires IsWorld(world, nodes) && Deterministic(nodes) && IsExecution(world, nodes, maxHops, trace, hops)
    requires SharesSafely(nodes, trace, hops) && Ended(trace[|hops|], |hops|, maxHops)
    ensures Outcome(trace[|hops|], |hops|, maxHops) == Reference(nodes, trace[0], maxHops)
    decreases |hops|
  {
    hide IsWorld, Deterministic, HopOk;
    if hops == [] {
      StartEnds(nodes, trace[0], maxHops);
    } else {
      var a, b := trace[0], trace[1];
      assert HopOk(world, nodes, a, hops[0], b);
      HopRoutes(world, nodes, a, hops[0], b);
      HopMeansRan(world, nodes, a, hops[0], b);
      forall i | 0 <= i < |hops[1..]| ensures HopOk(world, nodes, trace[1..][i], hops[1..][i], trace[1..][i + 1]) {
        assert HopOk(world, nodes, trace[i + 1], hops[i + 1], trace[i + 2]);
      }
      SafelyStill(nodes, trace, hops);
      SharingPreservesMeaning(world, nodes, maxHops - 1, trace[1..], hops[1..]);
      ReferenceDependsOnWhatIsSeen(nodes, b, Ran(nodes, a), maxHops - 1);
    }
  }

  lemma StartEnds(nodes: Nodes, o: Organism, maxHops: nat)
    requires Ended(o, 0, maxHops)
    ensures Outcome(o, 0, maxHops) == Reference(nodes, o, maxHops)
  {}

  lemma HopRoutes(world: World, nodes: Nodes, a: Organism, hop: Hop, b: Organism)
    requires HopOk(world, nodes, a, hop, b)
    ensures Routes(a) && Capability(a.next).Some?
  {}

  lemma SafelyStill(nodes: Nodes, trace: seq<Organism>, hops: seq<Hop>)
    requires |trace| == |hops| + 1 && hops != [] && SharesSafely(nodes, trace, hops)
    ensures SharesSafely(nodes, trace[1..], hops[1..])
  {}
}
