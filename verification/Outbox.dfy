/** The outbox query: pending rows in (updated_at, operation_id) order, cut at a limit. */
module Outbox {
  import opened Collections
  import opened OperationStore
  import Text

  /** `operation_id` is the primary key of the table. */
  ghost predicate UniqueIds(rows: Table) {
    forall j, k | j in rows && k in rows && rows[j].request.operationId == rows[k].request.operationId :: j == k
  }

  ghost function PendingKeys(rows: Table): set<string> {
    set k | k in rows && rows[k].publication.Pending?
  }

  /** ORDER BY updated_at, operation_id. */
  predicate Before(rows: Table, j: string, k: string)
    requires j in rows && k in rows
  {
    || rows[j].updatedAt < rows[k].updatedAt
    || (rows[j].updatedAt == rows[k].updatedAt && Text.Less(rows[j].request.operationId, rows[k].request.operationId))
  }

  ghost predicate IsFirst(rows: Table, keys: set<string>, k: string)
    requires keys <= rows.Keys
  {
    k in keys && forall j | j in keys && j != k :: Before(rows, k, j)
  }

  lemma BeforeIsStrictTotal(rows: Table, i: string, j: string, k: string)
    requires i in rows && j in rows && k in rows && UniqueIds(rows)
    ensures !Before(rows, j, j)
    ensures i != j ==> Before(rows, i, j) || Before(rows, j, i)
    ensures Before(rows, i, j) && Before(rows, j, k) ==> Before(rows, i, k)
  {
    var a, b, c := rows[i].request.operationId, rows[j].request.operationId, rows[k].request.operationId;
    Text.LessIrreflexive(b);
    Text.LessTotal(a, b);
    if Text.Less(a, b) && Text.Less(b, c) {
      Text.LessTransitive(a, b, c);
    }
  }

  lemma {:induction false} FirstExists(rows: Table, keys: set<string>)
    requires keys <= rows.Keys && keys != {} && UniqueIds(rows)
    ensures exists k :: IsFirst(rows, keys, k)
    decreases |keys|
  {
    var x :| x in keys;
    var rest := keys - {x};
    if rest == {} {
      assert keys == {x};
      assert IsFirst(rows, keys, x);
    } else {
      FirstExists(rows, rest);
      var y :| IsFirst(rows, rest, y);
      BeforeIsStrictTotal(rows, x, y, y);
      if Before(rows, x, y) {
        forall j | j in keys && j != x ensures Before(rows, x, j) {
          BeforeIsStrictTotal(rows, x, y, j);
        }
        assert IsFirst(rows, keys, x);
      } else {
        assert IsFirst(rows, keys, y);
      }
    }
  }

  lemma FirstIsUnique(rows: Table, keys: set<string>, j: string, k: string)
    requires keys <= rows.Keys && UniqueIds(rows) && IsFirst(rows, keys, j) && IsFirst(rows, keys, k)
    ensures j == k
  {
    if j != k {
      BeforeIsStrictTotal(rows, j, k, j);
      BeforeIsStrictTotal(rows, k, j, k);
    }
  }

  /** The first `limit` of `keys` in outbox order. */
  ghost function FirstOf(rows: Table, keys: set<string>, limit: nat): (page: seq<string>)
    requires keys <= rows.Keys && UniqueIds(rows)
    ensures forall k | k in page :: k in keys
    decreases limit
  {
    if limit == 0 || keys == {} then []
    else
      FirstExists(rows, keys);
      var k :| IsFirst(rows, keys, k);
      [k] + FirstOf(rows, keys - {k}, limit - 1)
  }

  lemma FirstOfStep(rows: Table, keys: set<string>, limit: nat, k: string)
    requires keys <= rows.Keys && UniqueIds(rows) && limit > 0 && IsFirst(rows, keys, k)
    ensures FirstOf(rows, keys, limit) == [k] + FirstOf(rows, keys - {k}, limit - 1)
  {
    FirstExists(rows, keys);
    forall j | IsFirst(rows, keys, j) ensures j == k {
      FirstIsUnique(rows, keys, j, k);
    }
  }

  ghost function FirstPending(rows: Table, limit: nat): (page: seq<string>)
    requires UniqueIds(rows)
    ensures forall k | k in page :: k in rows && rows[k].publication.Pending?
  {
    FirstOf(rows, PendingKeys(rows), limit)
  }

  lemma FirstOfNone(rows: Table, keys: set<string>, limit: nat)
    requires keys <= rows.Keys && UniqueIds(rows) && (limit == 0 || keys == {})
    ensures FirstOf(rows, keys, limit) == []
  {}

  /** LIMIT: a full page of distinct rows, or all of them. */
  lemma {:induction false} PageIsFull(rows: Table, keys: set<string>, limit: nat)
    requires keys <= rows.Keys && UniqueIds(rows)
    ensures |FirstOf(rows, keys, limit)| == if |keys| < limit then |keys| else limit
    ensures Distinct(FirstOf(rows, keys, limit))
    decreases limit
  {
    hide FirstOf, UniqueIds, Before;
    if limit == 0 || keys == {} {
      FirstOfNone(rows, keys, limit);
    } else {
      FirstExists(rows, keys);
      var first :| IsFirst(rows, keys, first);
      var rest := FirstOf(rows, keys - {first}, limit - 1);
      FirstOfStep(rows, keys, limit, first);
      PageIsFull(rows, keys - {first}, limit - 1);
      OneMoreDistinct(first, rest);
    }
  }

  lemma OneMoreDistinct(x: string, s: seq<string>)
    requires Distinct(s) && x !in s
    ensures Distinct([x] + s)
  {}

  /** ORDER BY: in order, and nothing left out sorts before anything returned. */
  lemma {:induction false} PageIsSorted(rows: Table, keys: set<string>, limit: nat, page: seq<string>)
    requires keys <= rows.Keys && UniqueIds(rows) && page == FirstOf(rows, keys, limit)
    ensures forall i, j | 0 <= i < j < |page| :: Before(rows, page[i], page[j])
    ensures forall j, k | j in page && k in keys && k !in page :: Before(rows, j, k)
    decreases limit
  {
    if limit > 0 && keys != {} {
      FirstExists(rows, keys);
      var first :| IsFirst(rows, keys, first);
      FirstOfStep(rows, keys, limit, first);
      PageIsSorted(rows, keys - {first}, limit - 1, page[1..]);
    }
  }

  function AtLeastZero(limit: int): nat {
    if limit < 0 then 0 else limit
  }

  function Records(rows: Table, keys: seq<string>): seq<Row>
    requires forall k | k in keys :: k in rows
  {
    seq(|keys|, i requires 0 <= i < |keys| => rows[keys[i]])
  }

  lemma RecordsCons(rows: Table, k: string, keys: seq<string>)
    requires k in rows && forall j | j in keys :: j in rows
    ensures Records(rows, [k] + keys) == [rows[k]] + Records(rows, keys)
  {}

  /** updated_at first, then operation_id, which compares as text. */
  predicate Earlier(a: Row, b: Row) {
    a.updatedAt < b.updatedAt || (a.updatedAt == b.updatedAt && Text.Less(a.request.operationId, b.request.operationId))
  }

  /** The page holds pending rows in order; the pending rows left out come after them, and only a full page leaves any. */
  ghost predicate IsPage(rows: Table, limit: int, page: seq<Row>) {
    && (forall i | 0 <= i < |page| :: page[i].publication == Pending && page[i] in rows.Values)
    && (forall i, j | 0 <= i < j < |page| :: Earlier(page[i], page[j]))
    && (forall k, i | k in rows && rows[k].publication == Pending && rows[k] !in page && 0 <= i < |page| ::
          Earlier(page[i], rows[k]))
    && (if limit <= 0 then page == []
        else |page| <= limit && (|page| < limit ==> forall k | k in rows && rows[k].publication == Pending :: rows[k] in page))
  }

  lemma RecordsAreSorted(rows: Table, keys: seq<string>)
    requires forall k | k in keys :: k in rows && rows[k].publication.Pending?
    requires forall i, j | 0 <= i < j < |keys| :: keys[i] in rows && keys[j] in rows && Before(rows, keys[i], keys[j])
    ensures
      var page := Records(rows, keys);
      && (forall i | 0 <= i < |page| :: page[i].publication == Pending && page[i] in rows.Values)
      && (forall i, j | 0 <= i < j < |page| :: Earlier(page[i], page[j]))
  {
    forall i | 0 <= i < |keys| ensures keys[i] in rows && rows[keys[i]].publication == Pending {
      assert keys[i] in keys;
    }
  }

  lemma RecordIsIn(rows: Table, keys: seq<string>, k: string)
    requires forall j | j in keys :: j in rows
    ensures k in keys ==> rows[k] in Records(rows, keys)
  {
    if k in keys {
      var n :| 0 <= n < |keys| && keys[n] == k;
      assert Records(rows, keys)[n] == rows[k];
    }
  }

  lemma RestIsLater(rows: Table, keys: seq<string>)
    requires forall k | k in keys :: k in rows
    requires forall j, k | j in keys && k in PendingKeys(rows) && k !in keys :: Before(rows, j, k)
    ensures
      var page := Records(rows, keys);
      forall k, i | k in rows && rows[k].publication == Pending && rows[k] !in page && 0 <= i < |page| ::
        Earlier(page[i], rows[k])
  {
    var page := Records(rows, keys);
    forall k, i | k in rows && rows[k].publication == Pending && rows[k] !in page && 0 <= i < |page|
      ensures Earlier(page[i], rows[k])
    {
      RecordIsIn(rows, keys, k);
      assert keys[i] in keys && Before(rows, keys[i], k);
    }
  }

  lemma EverythingPending(rows: Table, keys: seq<string>)
    requires (forall k | k in keys :: k in rows && rows[k].publication.Pending?) && Distinct(keys)
    requires |keys| == |PendingKeys(rows)|
    ensures forall k | k in rows && rows[k].publication == Pending :: rows[k] in Records(rows, keys)
  {
    DistinctSize(keys);
    SubsetIsSmaller(Elements(keys), PendingKeys(rows));
    forall k | k in rows && rows[k].publication == Pending ensures rows[k] in Records(rows, keys) {
      assert k in Elements(keys);
      RecordIsIn(rows, keys, k);
    }
  }

  lemma FirstPendingIsPage(rows: Table, limit: int)
    requires UniqueIds(rows)
    ensures IsPage(rows, limit, Records(rows, FirstPending(rows, AtLeastZero(limit))))
  {
    var keys := FirstPending(rows, AtLeastZero(limit));
    PageIsSorted(rows, PendingKeys(rows), AtLeastZero(limit), keys);
    PageIsFull(rows, PendingKeys(rows), AtLeastZero(limit));
    hide FirstPending, FirstOf, UniqueIds, PendingKeys;
    PageOf(rows, limit, keys);
  }

  lemma PageOf(rows: Table, limit: int, keys: seq<string>)
    requires (forall k | k in keys :: k in rows && rows[k].publication.Pending?) && Distinct(keys)
    requires |keys| == if |PendingKeys(rows)| < AtLeastZero(limit) then |PendingKeys(rows)| else AtLeastZero(limit)
    requires forall i, j | 0 <= i < j < |keys| :: Before(rows, keys[i], keys[j])
    requires forall j, k | j in keys && k in PendingKeys(rows) && k !in keys :: Before(rows, j, k)
    ensures IsPage(rows, limit, Records(rows, keys))
  {
    hide Before, PendingKeys, Earlier, Distinct;
    RecordsAreSorted(rows, keys);
    RestIsLater(rows, keys);
    if |keys| == |PendingKeys(rows)| {
      EverythingPending(rows, keys);
    }
  }

  /** SELECT ... WHERE publication_state = 'pending' ORDER BY updated_at, operation_id LIMIT max(limit, 0). */
  method PendingPublications(rows: Table, limit: int) returns (page: seq<Row>)
    requires UniqueIds(rows)
    ensures page == Records(rows, FirstPending(rows, AtLeastZero(limit))) && IsPage(rows, limit, page)
  {
    var pending := set k | k in rows && rows[k].publication.Pending?;
    assert pending == PendingKeys(rows);
    page := Page(rows, pending, AtLeastZero(limit));
    FirstPendingIsPage(rows, limit);
  }

  method Page(rows: Table, keys: set<string>, limit: nat) returns (page: seq<Row>)
    requires keys <= rows.Keys && UniqueIds(rows)
    ensures page == Records(rows, FirstOf(rows, keys, limit))
    decreases limit
  {
    if limit == 0 || keys == {} {
      page := [];
    } else {
      var best := FirstKey(rows, keys);
      FirstOfStep(rows, keys, limit, best);
      RecordsCons(rows, best, FirstOf(rows, keys - {best}, limit - 1));
      var rest := Page(rows, keys - {best}, limit - 1);
      page := [rows[best]] + rest;
    }
  }

  method FirstKey(rows: Table, keys: set<string>) returns (best: string)
    requires keys <= rows.Keys && keys != {} && UniqueIds(rows)
    ensures IsFirst(rows, keys, best)
  {
    best :| best in keys;
    var seen := {best};
    while seen != keys
      invariant seen <= keys && best in seen
      invariant forall j | j in seen && j != best :: Before(rows, best, j)
      decreases keys - seen
    {
      var rest := keys - seen;
      assert rest != {} by {
        assert rest + seen == keys;
      }
      var k :| k in rest;
      BeforeIsStrictTotal(rows, best, k, k);
      if Before(rows, k, best) {
        forall j | j in seen ensures Before(rows, k, j) {
          BeforeIsStrictTotal(rows, k, best, j);
        }
        best := k;
      }
      seen := seen + {k};
    }
  }
}
