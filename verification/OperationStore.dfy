/** The durable operation table: one row per idempotency key, one method per SQL transaction. */
module OperationStore {
  import opened Wrappers
  import opened JsonValues

  /** Microseconds; the table stores ISO text, whose order is proved to be this order in IsoTime. */
  type Instant = int
  /** uuid4 claim tokens. */
  type Token = nat
  type Table = map<string, Row>

  datatype Status = Received | Processing | Succeeded | RetryableFailure | TerminalFailure | DeadLettered {
    predicate Final() {
      Succeeded? || TerminalFailure? || DeadLettered?
    }
  }

  datatype PublicationState = Unpublished | Pending | Published {
    function Rank(): nat {
      match this
      case Unpublished => 0
      case Pending => 1
      case Published => 2
    }
  }

  /** The columns a claim writes once and nothing updates. */
  datatype Request = Request(
    operationId: string, key: string, fingerprint: string,
    documentId: string, manifestVersion: string, payload: Object, metadata: Object)

  datatype ResultMessage = ResultMessage(
    success: bool, operationId: string, key: string, documentId: string, manifestVersion: string,
    result: Option<Object>, error: Option<Object>, metadata: Object)

  datatype Outbound = Outbound(topic: string, messageId: string, payload: ResultMessage)

  datatype Row = Row(
    request: Request, status: Status, attempts: nat, token: Option<Token>, leaseUntil: Option<Instant>,
    createdAt: Instant, updatedAt: Instant, result: Option<Object>, error: Option<Object>,
    publication: PublicationState, publicationAttempts: nat, outbound: Option<Outbound>)

  // ---------- Transactions as functions of the table ----------

  datatype ClaimOutcome = Granted(record: Row) | Observed(record: Row) | Conflict | DuplicateOperationId

  /** A live claim keeps everybody else out: PROCESSING under a lease later than the caller's clock reading. */
  predicate HeldAt(row: Row, now: Instant) {
    row.status.Processing? && row.leaseUntil.Some? && row.leaseUntil.value > now
  }

  predicate OperationIdTaken(rows: Table, id: string) {
    exists k | k in rows :: rows[k].request.operationId == id
  }

  function NewRow(request: Request, now: Instant, lease: Instant, token: Token): Row {
    Row(request, Processing, 1, Some(token), Some(lease), now, now, None, None, Unpublished, 0, None)
  }

  function Regrant(row: Row, now: Instant, lease: Instant, token: Token): Row {
    row.(status := Processing, attempts := row.attempts + 1, updatedAt := now,
         leaseUntil := Some(lease), token := Some(token), error := None)
  }

  function Claim(rows: Table, request: Request, now: Instant, lease: Instant, token: Token): (Table, ClaimOutcome) {
    var key := request.key;
    if key !in rows then
      if OperationIdTaken(rows, request.operationId) then (rows, DuplicateOperationId)
      else var row := NewRow(request, now, lease, token); (rows[key := row], Granted(row))
    else
      var row := rows[key];
      if row.request.fingerprint != request.fingerprint then (rows, Conflict)
      else if row.status.Final() || HeldAt(row, now) then (rows, Observed(row))
      else var row' := Regrant(row, now, lease, token); (rows[key := row'], Granted(row'))
  }

  datatype UpdateOutcome = Updated(record: Row) | Stale | Missing

  /** The status a row must have for `finish` to move it to `target`. */
  function ExpectedStatus(target: Status): Status {
    if target.DeadLettered? then RetryableFailure else Processing
  }

  function Finished(row: Row, status: Status, result: Option<Object>, error: Option<Object>,
                    outbound: Outbound, now: Instant): Row {
    row.(status := status, result := result, error := error, updatedAt := now, leaseUntil := None,
         token := None, publication := Pending, outbound := Some(outbound))
  }

  /** Callers pass one of the three final statuses. */
  function Finish(rows: Table, key: string, token: Token, status: Status, result: Option<Object>,
                  error: Option<Object>, outbound: Outbound, now: Instant): (Table, UpdateOutcome)
    requires status.Final()
  {
    if key !in rows then (rows, Missing)
    else if rows[key].token != Some(token) || rows[key].status != ExpectedStatus(status) then (rows, Stale)
    else var row' := Finished(rows[key], status, result, error, outbound, now); (rows[key := row'], Updated(row'))
  }

  function RetryableRow(row: Row, error: Object, now: Instant): Row {
    row.(status := RetryableFailure, error := Some(error), updatedAt := now, leaseUntil := None)
  }

  /** The token stays on the row, so that whoever sees the failure can dead-letter it. */
  function RecordRetryable(rows: Table, key: string, token: Token, error: Object, now: Instant): (Table, UpdateOutcome) {
    if key !in rows || rows[key].token != Some(token) || !rows[key].status.Processing? then (rows, Stale)
    else var row' := RetryableRow(rows[key], error, now); (rows[key := row'], Updated(row'))
  }

  function PublicationRow(row: Row, published: bool, now: Instant): Row {
    if published then row.(publication := Published, updatedAt := now)
    else row.(publicationAttempts := row.publicationAttempts + 1, updatedAt := now)
  }

  function PublicationUpdate(rows: Table, key: string, published: bool, now: Instant): (Table, UpdateOutcome) {
    if key !in rows then (rows, Missing)
    else var row' := PublicationRow(rows[key], published, now); (rows[key := row'], Updated(row'))
  }

  // ---------- What a transaction may do to a row ----------

  /** One row's future: identity fixed, counters and publication only move forward, a final outcome frozen. */
  predicate RowEvolves(a: Row, b: Row) {
    && a.request == b.request && a.createdAt == b.createdAt
    && a.attempts <= b.attempts && a.publicationAttempts <= b.publicationAttempts
    && a.publication.Rank() <= b.publication.Rank()
    && (a.status.Final() ==>
          && b.status == a.status && b.result == a.result && b.error == a.error && b.outbound == a.outbound
          && b.token == a.token && b.attempts == a.attempts && b.leaseUntil == a.leaseUntil)
  }

  ghost predicate TableEvolves(a: Table, b: Table) {
    forall k | k in a :: k in b && RowEvolves(a[k], b[k])
  }

  lemma TableEvolvesTransitive(a: Table, b: Table, c: Table)
    requires TableEvolves(a, b) && TableEvolves(b, c)
    ensures TableEvolves(a, c)
  {}

  // ---------- The store object ----------

  class SQLiteDocumentOperationStore {
    var rows: Table

    constructor ()
      ensures rows == map[]
    {
      rows := map[];
    }

    method ClaimOperation(request: Request, now: Instant, lease: Instant, token: Token) returns (outcome: ClaimOutcome)
      modifies this
      ensures (rows, outcome) == Claim(old(rows), request, now, lease, token)
      ensures rows == if outcome.Granted? then old(rows)[request.key := outcome.record] else old(rows)
      ensures request.key !in old(rows) ==>
        outcome ==
          if exists k | k in old(rows) :: old(rows)[k].request.operationId == request.operationId then DuplicateOperationId
          else Granted(Row(request, Processing, 1, Some(token), Some(lease), now, now, None, None, Unpublished, 0, None))
      ensures request.key in old(rows) ==>
        var row := old(rows)[request.key];
        outcome ==
          if row.request.fingerprint != request.fingerprint then Conflict
          else if row.status in {Succeeded, TerminalFailure, DeadLettered} then Observed(row)
          else if row.status == Processing && row.leaseUntil.Some? && row.leaseUntil.value > now then Observed(row)
          else Granted(Row(row.request, Processing, row.attempts + 1, Some(token), Some(lease), row.createdAt, now,
                           row.result, None, row.publication, row.publicationAttempts, row.outbound))
    {
      if request.key !in rows {
        if OperationIdTaken(rows, request.operationId) {
          return DuplicateOperationId;
        }
        var row := NewRow(request, now, lease, token);
        rows := rows[request.key := row];
        return Granted(row);
      }
      var record := rows[request.key];
      if record.request.fingerprint != request.fingerprint {
        return Conflict;
      }
      if record.status.Final() {
        return Observed(record);
      }
      if record.status.Processing? && record.leaseUntil.Some? && record.leaseUntil.value > now {
        return Observed(record);
      }
      rows := rows[request.key := record.(status := Processing, attempts := record.attempts + 1, updatedAt := now,
                                          leaseUntil := Some(lease), token := Some(token), error := None)];
      return Granted(rows[request.key]);
    }

    method FinishOperation(key: string, token: Token, status: Status, result: Option<Object>, error: Option<Object>,
                           outbound: Outbound, now: Instant) returns (outcome: UpdateOutcome)
      requires status.Final()
      modifies this
      ensures (rows, outcome) == Finish(old(rows), key, token, status, result, error, outbound, now)
      ensures rows == if outcome.Updated? then old(rows)[key := outcome.record] else old(rows)
      ensures key !in old(rows) ==> outcome == Missing
      ensures key in old(rows) ==>
        var row := old(rows)[key];
        outcome ==
          if row.token == Some(token) && row.status == (if status == DeadLettered then RetryableFailure else Processing)
          then Updated(Row(row.request, status, row.attempts, None, None, row.createdAt, now, result, error, Pending,
                           row.publicationAttempts, Some(outbound)))
          else Stale
    {
      if key !in rows {
        return Missing;
      }
      var row := rows[key];
      var expected := if status == DeadLettered then RetryableFailure else Processing;
      if row.token != Some(token) || row.status != expected {
        return Stale;
      }
      row := row.(status := status, result := result, error := error, updatedAt := now);
      row := row.(leaseUntil := None, token := None);
      row := row.(publication := Pending, outbound := Some(outbound));
      rows := rows[key := row];
      return Updated(row);
    }

    method RecordRetryableFailure(key: string, token: Token, error: Object, now: Instant)
      returns (outcome: UpdateOutcome)
      modifies this
      ensures (rows, outcome) == RecordRetryable(old(rows), key, token, error, now)
      ensures rows == if outcome.Updated? then old(rows)[key := outcome.record] else old(rows)
      ensures outcome ==
        if key in old(rows) && old(rows)[key].token == Some(token) && old(rows)[key].status == Processing
        then
          var row := old(rows)[key];
          Updated(Row(row.request, RetryableFailure, row.attempts, Some(token), None, row.createdAt, now, row.result,
                      Some(error), row.publication, row.publicationAttempts, row.outbound))
        else Stale
    {
      if key !in rows || rows[key].token != Some(token) || rows[key].status != Processing {
        return Stale;
      }
      rows := rows[key := rows[key].(status := RetryableFailure, error := Some(error), updatedAt := now,
                                     leaseUntil := None)];
      return Updated(rows[key]);
    }

    method UpdatePublication(key: string, published: bool, now: Instant) returns (outcome: UpdateOutcome)
      modifies this
      ensures (rows, outcome) == PublicationUpdate(old(rows), key, published, now)
      ensures rows == if outcome.Updated? then old(rows)[key := outcome.record] else old(rows)
      ensures key !in old(rows) ==> outcome == Missing
      ensures key in old(rows) ==>
        var row := old(rows)[key];
        outcome == Updated(
          Row(row.request, row.status, row.attempts, row.token, row.leaseUntil, row.createdAt, now, row.result, row.error,
              if published then Published else row.publication,
              if published then row.publicationAttempts else row.publicationAttempts + 1, row.outbound))
    {
      if key !in rows {
        return Missing;
      }
      var row := rows[key].(updatedAt := now);
      if published {
        row := row.(publication := Published);
      } else {
        row := row.(publicationAttempts := row.publicationAttempts + 1);
      }
      rows := rows[key := row];
      return Updated(row);
    }

    method Get(key: string) returns (record: Option<Row>)
      ensures record == if key in rows then Some(rows[key]) else None
    {
      record := if key in rows then Some(rows[key]) else None;
    }
  }
}
