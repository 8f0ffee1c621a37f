/** No pending publication starves: a failed attempt goes to the back of the outbox. */
module DrainFairness {
  import opened Wrappers
  import opened JsonValues
  import opened Collections
  import opened OperationStore
  import opened Outbox

  /** `now` is later than the timestamp of every final row. */
  ghost predicate Latest(rows: Table, now: Instant) {
    forall k | k in rows && rows[k].status.Final() :: rows[k].updatedAt < now
  }

  /** Between the two tables somebody tried to publish row k and wrote the outcome down. */
  ghost predicate Attempt(a: Table, b: Table, k: string) {
    && k in a && k in b && a[k].status.Final() && Latest(a, b[k].updatedAt)
    && (b[k] == PublicationRow(a[k], true, b[k].updatedAt) || b[k] == PublicationRow(a[k], false, b[k].updatedAt))
  }

  /** Any number of workers did anything, with strictly advancing timestamps on final rows. */
  ghost predicate Advances(a: Table, b: Table) {
    && TableEvolves(a, b)
    && forall k | k in b && b[k].status.Final() ::
         if k in a && a[k].status.Final() then b[k] == a[k] || Attempt(a, b, k) else Latest(a, b[k].updatedAt)
  }

  // ---------- Every transaction with a fresh timestamp advances ----------

  lemma ClaimAdvances(rows: Table, request: Request, now: Instant, lease: Instant, token: Token)
    ensures Advances(rows, Claim(rows, request, now, lease, token).0)
  {}

  lemma FinishAdvances(rows: Table, key: string, token: Token, status: Status, result: Option<Object>,
                       error: Option<Object>, outbound: Outbound, now: Instant)
    requires status.Final() && Latest(rows, now)
    requires forall k | k in rows :: rows[k].publication.Published? ==> rows[k].status.Final()
    ensures Advances(rows, Finish(rows, key, token, status, result, error, outbound, now).0)
  {}

  lemma RecordRetryableAdvances(rows: Table, key: string, token: Token, error: Object, now: Instant)
    ensures Advances(rows, RecordRetryable(rows, key, token, error, now).0)
  {}

  lemma PublicationUpdateAdvances(rows: Table, key: string, published: bool, now: Instant)
    requires key in rows ==> rows[key].status.Final()
    requires Latest(rows, now)
    ensures Advances(rows, PublicationUpdate(rows, key, published, now).0)
  {}

  // ---------- Fairness ----------

  /** The pending rows the outbox query returns before k. */
  ghost function Ahead(rows: Table, k: string): set<string>
    requires k in rows
  {
    set j | j in rows && rows[j].publication.Pending? && Before(rows, j, k)
  }

  /** A drain: it reads one page at `start` and by `end` has attempted every row of it. */
  datatype Drain = Drain(start: nat, end: nat)

  ghost predicate IsDrain(trace: seq<Table>, d: Drain, limit: nat) {
    && d.start <= d.end < |trace| && UniqueIds(trace[d.start])
    && forall f | f in FirstPending(trace[d.start], limit) :: AttemptedIn(trace, d.start, d.end, f)
  }

  ghost predicate AttemptStep(trace: seq<Table>, x: nat, k: string)
    requires x + 1 < |trace|
  {
    Attempt(trace[x], trace[x + 1], k)
  }

  ghost predicate AttemptedIn(trace: seq<Table>, lo: nat, hi: nat, k: string)
    requires hi < |trace|
  {
    exists x: nat | lo <= x < hi :: AttemptStep(trace, x, k)
  }

  ghost predicate IsTrace(trace: seq<Table>) {
    && (forall x | 0 <= x < |trace| - 1 :: Advances(trace[x], trace[x + 1]))
    && (forall x, k | 0 <= x < |trace| && k in trace[x] && trace[x][k].publication.Pending? ::
          trace[x][k].status.Final())
  }

  lemma AheadShrinksOnce(a: Table, b: Table, k: string)
    requires Advances(a, b) && k in a && k in b && b[k] == a[k] && a[k].status.Final()
    requires forall j | j in b && b[j].publication.Pending? :: b[j].status.Final()
    ensures Ahead(b, k) <= Ahead(a, k)
  {}

  lemma {:induction false} AheadShrinks(trace: seq<Table>, lo: nat, hi: nat, k: string)
    requires IsTrace(trace) && lo <= hi < |trace|
    requires k in trace[lo] && trace[lo][k].status.Final() && !AttemptedIn(trace, lo, hi, k)
    ensures k in trace[hi] && trace[hi][k] == trace[lo][k]
    ensures Ahead(trace[hi], k) <= Ahead(trace[lo], k)
    decreases hi
  {
    if lo < hi {
      AheadShrinks(trace, lo, hi - 1, k);
      assert Advances(trace[hi - 1], trace[hi]) && !AttemptStep(trace, hi - 1, k);
      AheadShrinksOnce(trace[hi - 1], trace[hi], k);
    }
  }

  lemma NotAttemptedWithin(trace: seq<Table>, lo: nat, hi: nat, start: nat, upTo: nat, k: string)
    requires lo <= start && upTo <= hi < |trace| && !AttemptedIn(trace, lo, hi, k)
    ensures !AttemptedIn(trace, start, upTo, k)
  {
    hide Attempt;
  }

  lemma AttemptAt(trace: seq<Table>, lo: nat, hi: nat, k: string) returns (x: nat)
    requires hi < |trace| && AttemptedIn(trace, lo, hi, k)
    ensures lo <= x < hi && Attempt(trace[x], trace[x + 1], k)
  {
    x :| lo <= x < hi && AttemptStep(trace, x, k);
  }

  /** An attempt gives its row a later timestamp than every final row has, so it does not stand before k. */
  lemma AttemptGoesBehind(a: Table, b: Table, f: string, k: string)
    requires Attempt(a, b, f) && k in a && a[k].status.Final() && k in b && b[k] == a[k]
    ensures f !in Ahead(b, k)
  {}

  /** Once attempted, a row is published or stands behind k. */
  lemma AttemptedLeavesTheFront(trace: seq<Table>, lo: nat, hi: nat, f: string, k: string)
    requires IsTrace(trace) && lo <= hi < |trace|
    requires k in trace[lo] && trace[lo][k].status.Final() && !AttemptedIn(trace, lo, hi, k)
    requires AttemptedIn(trace, lo, hi, f)
    ensures k in trace[hi] && f !in Ahead(trace[hi], k)
  {
    hide Attempt, Advances, Ahead, IsTrace, AttemptedIn;
    var x := AttemptAt(trace, lo, hi, f);
    NotAttemptedWithin(trace, lo, hi, lo, x, k);
    NotAttemptedWithin(trace, lo, hi, lo, x + 1, k);
    NotAttemptedWithin(trace, lo, hi, x + 1, hi, k);
    AheadShrinks(trace, lo, x, k);
    AheadShrinks(trace, lo, x + 1, k);
    AheadShrinks(trace, x + 1, hi, k);
    AttemptGoesBehind(trace[x], trace[x + 1], f, k);
  }

  /** One drain that does not reach k removes `limit` rows from in front of it. */
  lemma DrainMakesProgress(trace: seq<Table>, d: Drain, limit: nat, k: string)
    requires IsTrace(trace) && IsDrain(trace, d, limit)
    requires k in trace[d.start] && trace[d.start][k].publication.Pending?
    requires !AttemptedIn(trace, d.start, d.end, k)
    ensures k in trace[d.end] && trace[d.end][k] == trace[d.start][k]
    ensures |Ahead(trace[d.end], k)| + limit <= |Ahead(trace[d.start], k)|
  {
    var rows := trace[d.start];
    var page := FirstPending(rows, limit);
    PageIsFull(rows, PendingKeys(rows), limit);
    PageIsSorted(rows, PendingKeys(rows), limit, page);
    DistinctSize(page);
    var front := Elements(page);
    SubsetIsSmaller(front, PendingKeys(rows));
    assert k in PendingKeys(rows) && k !in front;
    AheadShrinks(trace, d.start, d.end, k);
    forall f | f in front ensures f in Ahead(rows, k) && f !in Ahead(trace[d.end], k) {
      AttemptedLeavesTheFront(trace, d.start, d.end, f, k);
    }
    SubsetIsSmaller(Ahead(trace[d.end], k) + front, Ahead(rows, k));
  }

  /** Consecutive drains; other workers act during and between them. */
  ghost predicate Schedule(trace: seq<Table>, drains: seq<Drain>, limit: nat) {
    && drains != [] && IsDrain(trace, drains[0], limit) && IsDrain(trace, drains[|drains| - 1], limit)
    && (forall i | 0 <= i < |drains| :: IsDrain(trace, drains[i], limit))
    && (forall i | 0 <= i < |drains| - 1 :: drains[i].end <= drains[i + 1].start)
  }

  /**
   * A pending record with r records ahead of it is attempted within any n consecutive drains with n * limit > r,
   * whatever fails, whatever arrives and whoever else publishes in between.
   */
  lemma {:induction false} PendingIsAttempted(trace: seq<Table>, drains: seq<Drain>, limit: nat, k: string)
    requires IsTrace(trace)
    requires Schedule(trace, drains, limit)
    requires k in trace[drains[0].start] && trace[drains[0].start][k].publication.Pending?
    requires |drains| * limit > |Ahead(trace[drains[0].start], k)|
    ensures AttemptedIn(trace, drains[0].start, drains[|drains| - 1].end, k)
    decreases |drains|
  {
    var d, last := drains[0], drains[|drains| - 1];
    assert IsDrain(trace, d, limit) && IsDrain(trace, last, limit);
    DrainsAreOrdered(trace, drains, limit);
    if !AttemptedIn(trace, d.start, last.end, k) {
      DrainMakesProgress(trace, d, limit, k);
      assert |drains| > 1;
      var rest, next := drains[1..], drains[1];
      assert rest[|rest| - 1] == last && rest[0] == next && IsDrain(trace, next, limit);
      DrainsAreOrdered(trace, rest, limit);
      assert !AttemptedIn(trace, d.end, next.start, k);
      AheadShrinks(trace, d.end, next.start, k);
      SubsetIsSmaller(Ahead(trace[next.start], k), Ahead(trace[d.end], k));
      OneLess(|drains|, limit);
      PendingIsAttempted(trace, rest, limit, k);
      assert false;
    }
  }

  lemma {:induction false} DrainsAreOrdered(trace: seq<Table>, drains: seq<Drain>, limit: nat)
    requires Schedule(trace, drains, limit)
    ensures drains[0].start <= drains[0].end <= drains[|drains| - 1].end
    ensures drains[0].start <= drains[|drains| - 1].start
  {
    assert IsDrain(trace, drains[0], limit);
    if |drains| > 1 {
      assert IsDrain(trace, drains[1], limit);
      DrainsAreOrdered(trace, drains[1..], limit);
    }
  }

  lemma OneLess(n: int, limit: int)
    ensures (n - 1) * limit == n * limit - limit
  {}

  /** The bound with the quotient written out: r / limit + 1 drains are enough. */
  lemma AttemptedWithinQuotient(trace: seq<Table>, drains: seq<Drain>, limit: nat, k: string)
    requires IsTrace(trace) && limit > 0
    requires Schedule(trace, drains, limit)
    requires k in trace[drains[0].start] && trace[drains[0].start][k].publication.Pending?
    requires |drains| == |Ahead(trace[drains[0].start], k)| / limit + 1
    ensures AttemptedIn(trace, drains[0].start, drains[|drains| - 1].end, k)
  {
    var r := |Ahead(trace[drains[0].start], k)|;
    assert r == limit * (r / limit) + r % limit;
    assert |drains| * limit == limit * (r / limit) + limit;
    PendingIsAttempted(trace, drains, limit, k);
  }
}
