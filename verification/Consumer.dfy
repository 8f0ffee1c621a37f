/** The consumer's imperative code run by itself against the store and the in-memory broker. */
module Consumer {
  import opened Wrappers
  import opened JsonValues
  import opened Collections
  import opened OperationStore
  import opened Outbox
  import opened DeepiriBus
  import opened DocumentProcessing
  import opened ProtocolInvariants
  import opened ProtocolSteps
  import opened ProtocolTheorems
  import opened ProtocolBroker
  import opened ProtocolOrigins
  import opened ProtocolOutcomes

  // ---------- drain_pending_publications ----------

  /** How many of n publications in a row the broker refuses. */
  function Refused(connected: bool, failPublications: int, n: nat): nat {
    if !connected then n
    else if failPublications <= 0 then 0
    else if failPublications < n then failPublications
    else n
  }

  function MessageFor(row: Row): DeepiriMessage<ResultMessage>
    requires row.outbound.Some?
  {
    DeepiriMessage(row.outbound.value.messageId, row.outbound.value.payload, row.request.metadata, 1,
                   row.outbound.value.topic)
  }

  /** Every row marked published has its own message on the broker. */
  ghost predicate OnBus(rows: Table, log: seq<DeepiriMessage<ResultMessage>>) {
    forall k | k in rows && rows[k].publication.Published? :: rows[k].outbound.Some? && MessageFor(rows[k]) in log
  }

  lemma PublishedOnBus(rows: Table, log: seq<DeepiriMessage<ResultMessage>>, record: Row, ok: bool, now: Instant)
    requires OnBus(rows, log) && record.request.key in rows && record.outbound.Some?
    requires rows[record.request.key].outbound == record.outbound && rows[record.request.key].request == record.request
    ensures OnBus(PublicationUpdate(rows, record.request.key, ok, now).0, if ok then log + [MessageFor(record)] else log)
  {}

  lemma MoveOnBus(cfg: Config, a: Table, b: Table, log: seq<DeepiriMessage<ResultMessage>>)
    requires TableOk(cfg, a) && TableEvolves(a, b) && MarksNothing(a, b)
    ensures OnBus(a, log) ==> OnBus(b, log)
  {
    forall k | OnBus(a, log) && k in b && b[k].publication.Published?
      ensures b[k].outbound.Some? && MessageFor(b[k]) in log {
      CurrentRow(cfg, a, k);
    }
  }

  /** The first n rows of the page were attempted, the first `refused` of them in vain; no other row was touched. */
  ghost predicate Attempted(a: Table, b: Table, keys: seq<string>, n: nat, refused: nat, clock: nat -> Instant)
    requires n <= |keys|
  {
    && b.Keys == a.Keys
    && (forall k | k in a && k !in keys[..n] :: b[k] == a[k])
    && (forall i | 0 <= i < n :: keys[i] in a && b[keys[i]] == PublicationRow(a[keys[i]], i >= refused, clock(i)))
  }

  /** The broker got the messages of rows[from..n], in order, and nothing else. */
  ghost predicate PublishedPage(before: seq<DeepiriMessage<ResultMessage>>, after: seq<DeepiriMessage<ResultMessage>>,
                            rows: seq<Row>, from: nat, n: nat)
    requires n <= |rows|
  {
    && before <= after && |after| == |before| + (if from < n then n - from else 0)
    && forall i | from <= i < n :: rows[i].outbound.Some? && after[|before| + i - from] == MessageFor(rows[i])
  }

  /** What one publication attempt came to; an incomplete record raises before anything is sent. */
  datatype Publication = Taken | Rejected | Incomplete

  /** `_publish_record` and, when the broker refuses, the count of the failed attempt. */
  method PublishRecord(store: SQLiteDocumentOperationStore, transport: InMemoryDeepiriTransport, record: Row, now: Instant)
    returns (outcome: Publication)
    modifies store, transport`published, transport`failPublications
    ensures outcome == if record.outbound.None? then Incomplete
                       else if transport.connected && old(transport.failPublications) <= 0 then Taken
                       else Rejected
    ensures transport.failPublications == old(transport.failPublications) -
              if !outcome.Incomplete? && transport.connected && old(transport.failPublications) > 0 then 1 else 0
    ensures transport.published ==
              if outcome.Taken? then old(transport.published) + [MessageFor(record)] else old(transport.published)
    ensures store.rows == if outcome.Incomplete? then old(store.rows)
                          else PublicationUpdate(old(store.rows), record.request.key, outcome.Taken?, now).0
  {
    if record.outbound.None? {
      return Incomplete;
    }
    var ok := transport.Publish(record.outbound.value, record.request.metadata);
    var _ := store.UpdatePublication(record.request.key, ok, now);
    return if ok then Taken else Rejected;
  }

  /**
   * One page of the outbox: the refused rows stay pending with one more attempt and a new timestamp, the others are
   * published in outbox order, and no other row is touched.
   */
  method DrainPendingPublications(cfg: Config, store: SQLiteDocumentOperationStore,
                                  transport: InMemoryDeepiriTransport, limit: int, clock: nat -> Instant)
    returns (published: nat)
    requires TableOk(cfg, store.rows)
    modifies store, transport
    ensures TableOk(cfg, store.rows)
    ensures
      var rows, keys := old(store.rows), FirstPending(old(store.rows), AtLeastZero(limit));
      var refused := Refused(transport.connected, old(transport.failPublications), |keys|);
      && published == |keys| - refused
      && Attempted(rows, store.rows, keys, |keys|, refused, clock)
      && PublishedPage(old(transport.published), transport.published, Records(rows, keys), refused, |keys|)
    ensures old(OnBus(store.rows, transport.published)) ==> OnBus(store.rows, transport.published)
    ensures transport.connected == old(transport.connected)
    ensures transport.acknowledged == old(transport.acknowledged) && transport.retried == old(transport.retried)
  {
    hide TableOk, FirstPending, OnBus, DrainedTo, IsPage;
    var rows := store.rows;
    ghost var keys := PageKeys(cfg, rows, limit);
    ghost var refused := Refused(transport.connected, transport.failPublications, |keys|);
    ghost var log, onBus := transport.published, OnBus(store.rows, transport.published);
    var page := PendingPublications(rows, limit);
    published := 0;
    var i := 0;
    NothingYet(cfg, rows, keys, refused, clock, log, onBus);
    while i < |page|
      invariant 0 <= i <= |page|
      invariant transport.connected == old(transport.connected)
      invariant transport.acknowledged == old(transport.acknowledged) && transport.retried == old(transport.retried)
      invariant Refused(transport.connected, transport.failPublications, |keys| - i) == if refused < i then 0 else refused - i
      invariant published == if refused < i then i - refused else 0
      invariant DrainedTo(cfg, rows, store.rows, keys, i, refused, clock, log, transport.published, onBus)
    {
      OneMore(cfg, rows, store.rows, keys, i, refused, clock, log, transport.published, onBus);
      var outcome := PublishRecord(store, transport, page[i], clock(i));
      if outcome.Taken? {
        published := published + 1;
      }
      i := i + 1;
    }
    DrainedAll(cfg, rows, store.rows, keys, refused, clock, log, transport.published, onBus);
  }

  /** Where a drain stands after n rows of its page. */
  ghost predicate DrainedTo(cfg: Config, rows: Table, now: Table, keys: seq<string>, n: nat, refused: nat,
                            clock: nat -> Instant, log: seq<DeepiriMessage<ResultMessage>>,
                            sent: seq<DeepiriMessage<ResultMessage>>, onBus: bool)
    requires n <= |keys| && forall k | k in keys :: k in rows
  {
    && TableOk(cfg, now) && Attempted(rows, now, keys, n, refused, clock)
    && PublishedPage(log, sent, Records(rows, keys), refused, n) && (onBus ==> OnBus(now, sent))
  }

  lemma OneMore(cfg: Config, rows: Table, now: Table, keys: seq<string>, i: nat, refused: nat, clock: nat -> Instant,
                log: seq<DeepiriMessage<ResultMessage>>, sent: seq<DeepiriMessage<ResultMessage>>, onBus: bool)
    requires TableOk(cfg, rows) && i < |keys| && Distinct(keys)
    requires forall k | k in keys :: k in rows && rows[k].publication.Pending?
    requires DrainedTo(cfg, rows, now, keys, i, refused, clock, log, sent, onBus)
    ensures
      var record, ok := Records(rows, keys)[i], i >= refused;
      && record.outbound.Some?
      && DrainedTo(cfg, rows, PublicationUpdate(now, record.request.key, ok, clock(i)).0, keys, i + 1, refused, clock, log,
                   if ok then sent + [MessageFor(record)] else sent, onBus)
  {
    hide TableOk, Attempted, PublishedPage, OnBus, PublicationUpdate;
    var record := Records(rows, keys)[i];
    assert keys[i] in keys;
    NextRecord(cfg, rows, now, keys, i, refused, clock);
    OneMoreMessage(log, sent, Records(rows, keys), refused, i);
    OneMoreRow(rows, now, keys, i, refused, clock);
    PublicationKeepsTable(cfg, now, record, i >= refused, clock(i));
    if onBus {
      PublishedOnBus(now, sent, record, i >= refused, clock(i));
    }
  }

  lemma DrainedAll(cfg: Config, rows: Table, now: Table, keys: seq<string>, refused: nat, clock: nat -> Instant,
                   log: seq<DeepiriMessage<ResultMessage>>, sent: seq<DeepiriMessage<ResultMessage>>, onBus: bool)
    requires (forall k | k in keys :: k in rows) && DrainedTo(cfg, rows, now, keys, |keys|, refused, clock, log, sent, onBus)
    ensures TableOk(cfg, now) && Attempted(rows, now, keys, |keys|, refused, clock)
    ensures PublishedPage(log, sent, Records(rows, keys), refused, |keys|) && (onBus ==> OnBus(now, sent))
  {}

  /** The page is distinct, complete rows of the table. */
  lemma PageKeys(cfg: Config, rows: Table, limit: int) returns (keys: seq<string>)
    requires TableOk(cfg, rows)
    ensures UniqueIds(rows) && keys == FirstPending(rows, AtLeastZero(limit)) && Distinct(keys)
    ensures forall k | k in keys :: k in rows && rows[k].publication.Pending?
  {
    keys := FirstPending(rows, AtLeastZero(limit));
    PageIsFull(rows, PendingKeys(rows), AtLeastZero(limit));
  }

  lemma NothingYet(cfg: Config, rows: Table, keys: seq<string>, refused: nat, clock: nat -> Instant,
                   log: seq<DeepiriMessage<ResultMessage>>, onBus: bool)
    requires TableOk(cfg, rows) && (onBus ==> OnBus(rows, log)) && forall k | k in keys :: k in rows
    ensures DrainedTo(cfg, rows, rows, keys, 0, refused, clock, log, log, onBus)
  {
    hide TableOk, OnBus;
  }

  lemma NextRecord(cfg: Config, rows: Table, now: Table, keys: seq<string>, i: nat, refused: nat, clock: nat -> Instant)
    requires TableOk(cfg, rows) && TableOk(cfg, now) && i < |keys| && Distinct(keys)
    requires keys[i] in rows && rows[keys[i]].publication.Pending? && Attempted(rows, now, keys, i, refused, clock)
    ensures keys[i] in now && now[keys[i]] == rows[keys[i]] && rows[keys[i]].request.key == keys[i]
    ensures rows[keys[i]].outbound.Some? && SnapshotOk(cfg, now, rows[keys[i]])
  {}

  lemma OneMoreRow(rows: Table, now: Table, keys: seq<string>, i: nat, refused: nat, clock: nat -> Instant)
    requires i < |keys| && Distinct(keys) && keys[i] in rows && keys[i] in now
    requires Attempted(rows, now, keys, i, refused, clock) && now[keys[i]] == rows[keys[i]]
    ensures Attempted(rows, PublicationUpdate(now, keys[i], i >= refused, clock(i)).0, keys, i + 1, refused, clock)
  {}

  lemma OneMoreMessage(log: seq<DeepiriMessage<ResultMessage>>, sent: seq<DeepiriMessage<ResultMessage>>,
                       page: seq<Row>, refused: nat, i: nat)
    requires i < |page| && PublishedPage(log, sent, page, refused, i) && page[i].outbound.Some?
    ensures PublishedPage(log, if i >= refused then sent + [MessageFor(page[i])] else sent, page, refused, i + 1)
  {}

  // ---------- process and process_message ----------

  /** What resolving the chunks and running the vectorizer came to. */
  datatype Outcome = Output(value: Object) | RetryableError(error: Object) | TerminalError(error: Object)

  datatype Handled = Acknowledged | Requeued | Left | Raised

  /** The record is the current row of the request the message carries. */
  ghost predicate Current(cfg: Config, rows: Table, body: Incoming, record: Row) {
    RecordOf(cfg, rows, body, record) && rows[record.request.key] == record
  }

  /** How an owner's attempt ends. */
  predicate Settles(record: Row, outcome: Outcome) {
    match outcome
    case Output(value) => record.status.Succeeded? && record.result == Some(value)
    case RetryableError(error) => record.status.RetryableFailure? && record.error == Some(error)
    case TerminalError(error) => record.status.TerminalFailure? && record.error == Some(error)
  }

  /** Only this row was written. */
  ghost predicate SameBut(a: Table, b: Table, key: string) {
    b.Keys == a.Keys + {key} && forall k | k in a && k != key :: b[k] == a[k]
  }

  /** An attempt at the row of `key`: the first one creates it, a later one keeps its request and creation time. */
  ghost predicate AttemptAt(a: Table, key: string, claimNow: Instant, settled: Row) {
    if key in a then
      && settled.request == a[key].request && settled.attempts == a[key].attempts + 1
      && settled.createdAt == a[key].createdAt
    else settled.attempts == 1 && settled.createdAt == claimNow
  }

  /**
   * How `process` goes, by what became of its claim: the new table against the old one, and what is returned. A row it
   * creates carries the body's document id, version, payload and metadata.
   */
  ghost predicate Processed(cfg: Config, a: Table, b: Table, body: Incoming, outcome: Outcome, claimNow: Instant,
                            lease: Instant, token: Token, token': Token, settled: Option<Row>) {
    match OperationStore.Claim(a, RequestOf(cfg, body), claimNow, lease, token).1
    case Granted(_) =>
      && settled.Some? && settled.value.request.key == body.key && SameBut(a, b, body.key)
      && AttemptAt(a, body.key, claimNow, settled.value)
      && (body.key !in a ==> OwnRequest(cfg, body, settled.value.request))
      && Settles(settled.value, if body.invalid.Some? then TerminalError(body.invalid.value) else outcome)
    case Observed(record) => settled == Some(record) && b == a
    case Conflict => body.key in a && ConflictRecorded(cfg, a, b, body, claimNow, lease, token', settled)
    case DuplicateOperationId => settled.None? && b == a
  }

  /** How a conflicting request goes: a terminal failure under its conflict key that names the row it conflicts with. */
  ghost predicate ConflictRecorded(cfg: Config, a: Table, b: Table, body: Incoming, claimNow: Instant, lease: Instant,
                                   token: Token, settled: Option<Row>)
    requires body.key in a
  {
    var existing := a[body.key].request;
    var conflict := ConflictRequest(cfg, existing, body);
    match OperationStore.Claim(a, conflict, claimNow, lease, token).1
    case Granted(_) =>
      && settled.Some? && settled.value.request.key == conflict.key && conflict.key != body.key
      && AttemptAt(a, conflict.key, claimNow, settled.value)
      && (conflict.key !in a ==> ConflictingRequest(cfg, body, existing, settled.value.request))
      && Settles(settled.value, TerminalError(NamingConflict(existing))) && SameBut(a, b, conflict.key)
    case Observed(record) => settled == Some(record) && b == a
    case _ => settled.None? && b == a
  }

  lemma TwoSteps(a: Table, b: Table, c: Table, key: string)
    requires TableEvolves(a, b) && TableEvolves(b, c) && MarksNothing(a, b) && MarksNothing(b, c)
    requires SameBut(a, b, key) && SameBut(b, c, key)
    ensures TableEvolves(a, c) && MarksNothing(a, c) && SameBut(a, c, key)
  {
    TableEvolvesTransitive(a, b, c);
    hide TableEvolves;
  }

  class DocumentVectorizeProcessor {
    const cfg: Config
    const operationStore: SQLiteDocumentOperationStore

    constructor (cfg: Config, operationStore: SQLiteDocumentOperationStore)
      ensures this.cfg == cfg && this.operationStore == operationStore
    {
      this.cfg, this.operationStore := cfg, operationStore;
    }

    /** _finish_failure with the claim's record. */
    method FinishFailure(record: Row, error: Object, deadLettered: bool, now: Instant) returns (settled: Option<Row>)
      requires TableOk(cfg, operationStore.rows) && SnapshotOk(cfg, operationStore.rows, record)
      modifies operationStore
      ensures TableOk(cfg, operationStore.rows) && TableEvolves(old(operationStore.rows), operationStore.rows)
      ensures settled.Some? <==>
        record.token.Some? && old(operationStore.rows)[record.request.key].token == record.token &&
        old(operationStore.rows)[record.request.key].status.RetryableFailure? == deadLettered
      ensures settled.Some? ==>
        && record.request.key in operationStore.rows && settled.value == operationStore.rows[record.request.key]
        && settled.value.status == (if deadLettered then DeadLettered else TerminalFailure)
        && settled.value.error == Some(error) && settled.value.publication.Pending?
        && settled.value.request == record.request && settled.value.result.None? && settled.value.updatedAt == now
        && settled.value.token.None? && settled.value.leaseUntil.None?
        && var row := old(operationStore.rows)[record.request.key];
           && settled.value.attempts == row.attempts && settled.value.createdAt == row.createdAt
           && settled.value.publicationAttempts == row.publicationAttempts
      ensures settled.None? ==> operationStore.rows == old(operationStore.rows)
      ensures SameBut(old(operationStore.rows), operationStore.rows, record.request.key)
      ensures MarksNothing(old(operationStore.rows), operationStore.rows)
    {
      CurrentRow(cfg, operationStore.rows, record.request.key);
      if record.token.None? {
        return None;
      }
      var outbound := FailureOutbound(record.request, error);
      var status := if deadLettered then DeadLettered else TerminalFailure;
      FinishKeepsTable(cfg, operationStore.rows, record, status, None, Some(error), outbound, now);
      var update := operationStore.FinishOperation(record.request.key, record.token.value, status, None, Some(error),
                                                   outbound, now);
      if update.Updated? {
        return Some(update.record);
      }
      return None;
    }

    /** Every attempt is used up: the recorded failure becomes a dead letter. */
    method DeadLetter(body: Incoming, record: Row, now: Instant) returns (settled: Row)
      requires TableOk(cfg, operationStore.rows) && Current(cfg, operationStore.rows, body, record)
      requires record.status.RetryableFailure?
      modifies operationStore
      ensures TableOk(cfg, operationStore.rows) && TableEvolves(old(operationStore.rows), operationStore.rows)
      ensures MarksNothing(old(operationStore.rows), operationStore.rows)
      ensures Current(cfg, operationStore.rows, body, settled)
      ensures settled == Row(record.request, DeadLettered, record.attempts, None, None, record.createdAt, now, None,
                             Some(LastError(record.error)), Pending, record.publicationAttempts, settled.outbound)
      ensures SameBut(old(operationStore.rows), operationStore.rows, record.request.key)
    {
      hide TableOk, TableEvolves, MarksNothing, SameBut;
      ghost var rows := operationStore.rows;
      ExhaustedIsLast(record.error);
      var dead := FinishFailure(record, Exhausted(record.error), true, now);
      settled := dead.value;
      RecordStays(cfg, rows, operationStore.rows, body, record, settled);
    }

    /** The owner runs the vectorizer (or has a verdict already) and commits; nobody else holds the row. */
    method Commit(body: Incoming, record: Row, outcome: Outcome, now: Instant) returns (settled: Row)
      requires TableOk(cfg, operationStore.rows) && Current(cfg, operationStore.rows, body, record)
      requires record.status.Processing?
      modifies operationStore
      ensures TableOk(cfg, operationStore.rows) && TableEvolves(old(operationStore.rows), operationStore.rows)
      ensures Current(cfg, operationStore.rows, body, settled) && Settles(settled, outcome)
      ensures settled.request == record.request && settled.attempts == record.attempts
      ensures settled.createdAt == record.createdAt
      ensures SameBut(old(operationStore.rows), operationStore.rows, record.request.key)
      ensures MarksNothing(old(operationStore.rows), operationStore.rows)
    {
      hide TableOk;
      var key := record.request.key;
      match outcome {
        case Output(value) =>
          var outbound := SuccessOutbound(record.request, value);
          FinishKeepsTable(cfg, operationStore.rows, record, Succeeded, Some(value), None, outbound, now);
          var update := operationStore.FinishOperation(key, record.token.value, Succeeded, Some(value), None, outbound, now);
          settled := update.record;
        case RetryableError(error) =>
          RetryableKeepsTable(cfg, operationStore.rows, record, error, now);
          var update := operationStore.RecordRetryableFailure(key, record.token.value, error, now);
          settled := update.record;
        case TerminalError(error) =>
          var finished := FinishFailure(record, error, false, now);
          settled := finished.value;
      }
      CurrentRow(cfg, operationStore.rows, key);
    }

    /** `_record_conflict`, after the row of the key has been read again. */
    method RecordConflict(body: Incoming, claimNow: Instant, lease: Instant, token: Token, now: Instant)
      returns (settled: Option<Row>)
      requires TableOk(cfg, operationStore.rows) && body.key in operationStore.rows
      requires operationStore.rows[body.key].request.fingerprint != body.fingerprint
      requires operationStore.rows[body.key].request.key == body.key
      modifies operationStore
      ensures TableOk(cfg, operationStore.rows) && TableEvolves(old(operationStore.rows), operationStore.rows)
      ensures MarksNothing(old(operationStore.rows), operationStore.rows)
      ensures settled.Some? ==> Current(cfg, operationStore.rows, body, settled.value)
      ensures ConflictRecorded(cfg, old(operationStore.rows), operationStore.rows, body, claimNow, lease, token, settled)
    {
      hide TableOk, OperationStore.Claim, TableEvolves, Current, MarksNothing, SameBut, Settles;
      ghost var before := operationStore.rows;
      var existing := operationStore.Get(body.key);
      var conflict := ConflictRequest(cfg, existing.value.request, body);
      ConflictFacts(cfg, before, body, claimNow, lease, token);
      ConflictIsNamed(existing.value.request);
      hide ConflictRequest, ConflictError, NamingConflict, ConflictingRequest;
      var claim := operationStore.ClaimOperation(conflict, claimNow, lease, token);
      ghost var claimed := operationStore.rows;
      match claim {
        case Granted(record) =>
          var settledRow := Commit(body, record, TerminalError(ConflictError(existing.value.request)), now);
          TwoSteps(before, claimed, operationStore.rows, conflict.key);
          return Some(settledRow);
        case Observed(record) =>
          return Some(record);
        case _ =>
          return None;
      }
    }

    /**
     * `process` with nobody interfering: an owner commits the outcome of its attempt, a duplicate gets the row as it
     * is, and a request whose key belongs to another request is settled under its conflict key as a terminal failure
     * that names the other request, whose row it leaves alone.
     */
    method Process(body: Incoming, outcome: Outcome, claimNow: Instant, lease: Instant, token: Token, token': Token,
                   now: Instant) returns (settled: Option<Row>)
      requires TableOk(cfg, operationStore.rows)
      modifies operationStore
      ensures TableOk(cfg, operationStore.rows) && TableEvolves(old(operationStore.rows), operationStore.rows)
      ensures MarksNothing(old(operationStore.rows), operationStore.rows)
      ensures settled.Some? ==> Current(cfg, operationStore.rows, body, settled.value)
      ensures Processed(cfg, old(operationStore.rows), operationStore.rows, body, outcome, claimNow, lease, token, token',
                        settled)
    {
      hide TableOk, OperationStore.Claim, TableEvolves, ConflictRecorded, Current, MarksNothing, SameBut, Settles;
      ghost var before := operationStore.rows;
      var request := RequestOf(cfg, body);
      ClaimKeepsTable(cfg, operationStore.rows, request, claimNow, lease, token);
      var claim := operationStore.ClaimOperation(request, claimNow, lease, token);
      ghost var claimed := operationStore.rows;
      ClaimFacts(cfg, before, body, request, claimNow, lease, token);
      ClaimMarksNothing(before, request, claimNow, lease, token);
      match claim {
        case Granted(record) =>
          var settledRow := Commit(body, record,
            if body.invalid.Some? then TerminalError(body.invalid.value) else outcome, now);
          TwoSteps(before, claimed, operationStore.rows, body.key);
          return Some(settledRow);
        case Observed(record) =>
          return Some(record);
        case DuplicateOperationId =>
          return None;
        case Conflict =>
          settled := RecordConflict(body, claimNow, lease, token', now);
      }
    }
  }

  lemma ClaimWrites(rows: Table, request: Request, now: Instant, lease: Instant, token: Token)
    ensures
      var (rows', claim) := OperationStore.Claim(rows, request, now, lease, token);
      && (claim.Granted? ==> claim.record.status.Processing? && SameBut(rows, rows', request.key))
      && (!claim.Granted? ==> rows' == rows)
      && (claim.Conflict? ==> request.key in rows && rows[request.key].request.fingerprint != request.fingerprint)
  {}

  lemma ClaimFacts(cfg: Config, rows: Table, body: Incoming, request: Request, now: Instant, lease: Instant, token: Token)
    requires TableOk(cfg, rows) && request == RequestOf(cfg, body)
    ensures
      var (rows', claim) := OperationStore.Claim(rows, request, now, lease, token);
      && (claim.Granted? || claim.Observed? ==>
            Current(cfg, rows', body, claim.record) && claim.record.request.key == request.key)
      && (claim.Granted? ==> claim.record.status.Processing? && SameBut(rows, rows', request.key))
      && (!claim.Granted? ==> rows' == rows)
      && (claim.Conflict? ==>
            && body.key in rows && rows[body.key].request.fingerprint != body.fingerprint
            && rows[body.key].request.key == body.key)
  {
    hide TableOk, OperationStore.Claim, TableEvolves, SameBut, RowOk, RowEvolves;
    var (rows', claim) := OperationStore.Claim(rows, request, now, lease, token);
    ClaimKeepsTable(cfg, rows, request, now, lease, token);
    ClaimWrites(rows, request, now, lease, token);
    if body.key in rows {
      CurrentRow(cfg, rows, body.key);
    }
    if body.key in rows' {
      CurrentRow(cfg, rows', body.key);
    }
  }

  lemma ConflictFacts(cfg: Config, rows: Table, body: Incoming, now: Instant, lease: Instant, token: Token)
    requires TableOk(cfg, rows) && body.key in rows && rows[body.key].request.fingerprint != body.fingerprint
    requires rows[body.key].request.key == body.key
    ensures
      var request := ConflictRequest(cfg, rows[body.key].request, body);
      var (rows', claim) := OperationStore.Claim(rows, request, now, lease, token);
      && ConflictingRequest(cfg, body, rows[body.key].request, request)
      && request.key != body.key && TableOk(cfg, rows') && TableEvolves(rows, rows') && MarksNothing(rows, rows')
      && (claim.Granted? || claim.Observed? ==>
            Current(cfg, rows', body, claim.record) && claim.record.request.key == request.key)
      && (claim.Granted? ==> claim.record.status.Processing? && SameBut(rows, rows', request.key))
      && (!claim.Granted? ==> rows' == rows)
  {
    var request := ConflictRequest(cfg, rows[body.key].request, body);
    assert |request.key| > |body.key|;
    ClaimKeepsTable(cfg, rows, request, now, lease, token);
    ClaimMarksNothing(rows, request, now, lease, token);
    ClaimWrites(rows, request, now, lease, token);
    OldRowStays(rows, OperationStore.Claim(rows, request, now, lease, token).0, body.key);
    hide TableOk, OperationStore.Claim, TableEvolves, SameBut, RowOk, RowEvolves, MarksNothing, ConflictRequest;
    var (rows', claim) := OperationStore.Claim(rows, request, now, lease, token);
    if request.key in rows' {
      CurrentRow(cfg, rows', request.key);
    }
    if claim.Granted? || claim.Observed? {
      ConflictIsTarget(cfg, rows, rows', body);
    }
  }

  lemma OldRowStays(a: Table, b: Table, key: string)
    requires TableEvolves(a, b) && key in a
    ensures key in b && b[key].request == a[key].request
  {}

  lemma ConflictIsTarget(cfg: Config, rows: Table, rows': Table, body: Incoming)
    requires body.key in rows && rows[body.key].request.key == body.key
    requires rows[body.key].request.fingerprint != body.fingerprint
    requires body.key in rows' && rows'[body.key].request == rows[body.key].request
    ensures
      var request := ConflictRequest(cfg, rows[body.key].request, body);
      Target(rows', body) == request.key && request.fingerprint == body.fingerprint
  {}

  // ---------- process_message ----------

  /** The row a message is about stays its row. */
  lemma RecordStays(cfg: Config, a: Table, b: Table, body: Incoming, record: Row, record': Row)
    requires TableOk(cfg, b) && TableEvolves(a, b) && RecordOf(cfg, a, body, record)
    requires record.request.key in b && b[record.request.key] == record'
    ensures Current(cfg, b, body, record')
  {}

  lemma AttemptsGrow(a: Table, b: Table, body: Incoming)
    requires TableEvolves(a, b)
    ensures PublicationAttempts(a, Target(a, body)) <= PublicationAttempts(b, Target(b, body))
  {}

  lemma RetryIsProgress(cfg: Config, a: Table, b: Table, m: Message)
    requires TableEvolves(a, b) && m.delivery < cfg.maxAttempts
    ensures Measure(cfg, b, NextDelivery(m)) < Measure(cfg, a, m)
  {}

  lemma FailureIsProgress(cfg: Config, a: Table, b: Table, m: Message)
    requires PublicationAttempts(a, Target(a, m.body)) < PublicationAttempts(b, Target(b, m.body)) < cfg.maxAttempts
    ensures Measure(cfg, b, NextDelivery(m)) < Measure(cfg, a, m)
  {}

  /** The row the body is about is final and its message published, or pending with every attempt used up. */
  ghost predicate Safe(cfg: Config, rows: Table, body: Incoming) {
    && Target(rows, body) in rows && Delivered(cfg, rows[Target(rows, body)])
    && rows[Target(rows, body)].request.fingerprint == body.fingerprint
  }

  /** A pending row was offered to the broker: published, or one more failed attempt; retried while attempts are left. */
  predicate Offered(cfg: Config, connected: bool, refusing: bool, record: Row, row: Row, now: Instant, handled: Handled) {
    var taken := connected && !refusing;
    && row == Row(record.request, record.status, record.attempts, None, None, record.createdAt, now, record.result,
                  record.error, if taken then Published else Pending,
                  record.publicationAttempts + (if taken then 0 else 1), record.outbound)
    && handled ==
         if !connected then Raised
         else if !taken && row.publicationAttempts < cfg.maxAttempts then Requeued
         else Acknowledged
  }

  /**
   * What `process_message` does with the record `process` settled on, and the row it leaves. An unfinished row is
   * retried while deliveries are left and otherwise left alone; a failure is retried while attempts and deliveries are
   * left and otherwise dead-lettered and offered; a pending result is offered; a published one is acknowledged. A retry
   * or an acknowledgement without a connection raises.
   */
  predicate Decided(cfg: Config, connected: bool, refusing: bool, delivery: nat, record: Row, row: Row,
                    deadLetteredAt: Instant, now: Instant, handled: Handled) {
    var retried := if connected then Requeued else Raised;
    match record.status
    case Processing => row == record && handled == if delivery < cfg.maxAttempts then retried else Left
    case RetryableFailure =>
      if record.attempts < cfg.maxAttempts && delivery < cfg.maxAttempts then row == record && handled == retried
      else
        Offered(cfg, connected, refusing,
                Row(record.request, DeadLettered, record.attempts, None, None, record.createdAt, deadLetteredAt, None,
                    Some(LastError(record.error)), Pending, record.publicationAttempts, row.outbound), row, now, handled)
    case _ =>
      if record.publication == Pending then Offered(cfg, connected, refusing, record, row, now, handled)
      else row == record && handled == if connected then Acknowledged else Raised
  }

  /** The broker got the message of a row exactly when the row became published. */
  predicate Delivers(log: seq<DeepiriMessage<ResultMessage>>, after: seq<DeepiriMessage<ResultMessage>>, record: Row,
                     row: Row) {
    if row.publication == Published && record.publication != Published then
      row.outbound.Some? &&
      after == log + [DeepiriMessage(row.outbound.value.messageId, row.outbound.value.payload, row.request.metadata, 1,
                                     row.outbound.value.topic)]
    else after == log
  }

  class DocumentVectorizeConsumer {
    const transport: InMemoryDeepiriTransport
    const processor: DocumentVectorizeProcessor
    const cfg: Config

    constructor (transport: InMemoryDeepiriTransport, processor: DocumentVectorizeProcessor)
      requires processor.cfg.maxAttempts > 0
      ensures this.transport == transport && this.processor == processor && cfg == processor.cfg
    {
      this.transport, this.processor, this.cfg := transport, processor, processor.cfg;
    }

    /**
     * `process_message` with nobody interfering: what `process` came to decides exactly how the message goes on and what
     * becomes of its row. A message is acknowledged only with a delivered row, retried only while that makes the retry
     * measure smaller, never both, and otherwise left alone.
     */
    method ProcessMessage(message: DeepiriMessage<Object>, body: Incoming, outcome: Outcome, claimNow: Instant,
                          lease: Instant, token: Token, token': Token, clock: nat -> Instant)
      returns (handled: Handled, ghost processed: Table, ghost settled: Option<Row>)
      requires cfg == processor.cfg && TableOk(cfg, processor.operationStore.rows)
      modifies transport, processor.operationStore
      ensures TableOk(cfg, processor.operationStore.rows)
      ensures TableEvolves(old(processor.operationStore.rows), processor.operationStore.rows)
      ensures Processed(cfg, old(processor.operationStore.rows), processed, body, outcome, claimNow, lease, token, token',
                        settled)
      ensures settled.None? ==>
        handled.Raised? && processor.operationStore.rows == processed && transport.published == old(transport.published)
      ensures settled.Some? ==>
        && var rows, key := processor.operationStore.rows, settled.value.request.key;
        && SameBut(processed, rows, key) && key in rows
        && Decided(cfg, old(transport.connected), old(transport.failPublications) > 0, message.deliveryAttempt,
                   settled.value, rows[key], clock(1), clock(2), handled)
        && Delivers(old(transport.published), transport.published, settled.value, rows[key])
      ensures handled.Acknowledged? ==>
        && message.messageId in transport.acknowledged && transport.retried == old(transport.retried)
        && Safe(cfg, processor.operationStore.rows, body)
      ensures handled.Requeued? ==>
        && transport.acknowledged == old(transport.acknowledged)
        && transport.retried == old(transport.retried) + [message.messageId]
        && var m := Message(body, message.deliveryAttempt, 0);
           Measure(cfg, processor.operationStore.rows, NextDelivery(m))
             < Measure(cfg, old(processor.operationStore.rows), m)
      ensures handled.Left? || handled.Raised? ==>
        transport.acknowledged == old(transport.acknowledged) && transport.retried == old(transport.retried)
      ensures old(OnBus(processor.operationStore.rows, transport.published)) ==>
                OnBus(processor.operationStore.rows, transport.published)
    {
      hide TableOk, TableEvolves, Measure, Processed, OnBus, MarksNothing, Safe, Current, RowOk, SameBut, Offered, Delivers;
      ghost var log := transport.published;
      ghost var m := Message(body, message.deliveryAttempt, 0);
      var store := processor.operationStore;
      ghost var before := store.rows;
      var result := processor.Process(body, outcome, claimNow, lease, token, token', clock(0));
      processed, settled := store.rows, result;
      MoveOnBus(cfg, before, processed, log);
      if result.None? {
        handled := Raised;
        return;
      }
      var record := result.value;
      CurrentStays(cfg, processed, body, record, log);
      if record.status.Processing? {
        if message.deliveryAttempt < cfg.maxAttempts {
          RetryIsProgress(cfg, before, processed, m);
          handled := Requeue(message);
          return;
        }
        handled := Left;
        return;
      }
      if record.status.RetryableFailure? {
        if Max(record.attempts, message.deliveryAttempt) < cfg.maxAttempts {
          RetryIsProgress(cfg, before, processed, m);
          handled := Requeue(message);
          return;
        }
        record := processor.DeadLetter(body, record, clock(1));
        MoveOnBus(cfg, processed, store.rows, log);
        TableEvolvesTransitive(before, processed, store.rows);
      }
      RestIsFinal(cfg, store.rows, body, record);
      ghost var ready, key := store.rows, record.request.key;
      handled := PublishAndAcknowledge(message, body, record, clock(2), before);
      StillSameBut(processed, ready, store.rows, key);
      if result.value.status.RetryableFailure? {
        DeadLetterDecided(cfg, old(transport.connected), old(transport.failPublications) > 0, message.deliveryAttempt,
                          result.value, record, store.rows[key], clock(1), clock(2), handled, log, transport.published);
      }
    }

    /** A pending result is published, or the failed attempt is counted. */
    method PublishPending(body: Incoming, record: Row, now: Instant) returns (taken: bool, updated: Row)
      requires cfg == processor.cfg && TableOk(cfg, processor.operationStore.rows)
      requires Current(cfg, processor.operationStore.rows, body, record) && record.outbound.Some?
      requires record.publication.Pending?
      modifies transport`published, transport`failPublications, processor.operationStore
      ensures TableOk(cfg, processor.operationStore.rows)
      ensures TableEvolves(old(processor.operationStore.rows), processor.operationStore.rows)
      ensures Current(cfg, processor.operationStore.rows, body, updated) && updated == PublicationRow(record, taken, now)
      ensures taken == (transport.connected && old(transport.failPublications) <= 0)
      ensures transport.published == if taken then old(transport.published) + [MessageFor(record)]
                                     else old(transport.published)
      ensures SameBut(old(processor.operationStore.rows), processor.operationStore.rows, record.request.key)
      ensures old(OnBus(processor.operationStore.rows, transport.published)) ==>
                OnBus(processor.operationStore.rows, transport.published)
    {
      hide TableOk, TableEvolves, ExpectedOutbound, OnBus;
      var store := processor.operationStore;
      ghost var rows := store.rows;
      if OnBus(rows, transport.published) {
        PublishedOnBus(rows, transport.published, record, true, now);
        PublishedOnBus(rows, transport.published, record, false, now);
      }
      var publication := PublishRecord(store, transport, record, now);
      taken := publication.Taken?;
      PublicationKeepsTable(cfg, rows, record, taken, now);
      updated := store.rows[record.request.key];
      RecordStays(cfg, rows, store.rows, body, record, updated);
    }

    /** `_retry`. */
    method Requeue(message: DeepiriMessage<Object>) returns (handled: Handled)
      modifies transport`retried, transport`queues
      ensures handled == if transport.connected then Requeued else Raised
      ensures transport.retried == old(transport.retried) + if handled.Requeued? then [message.messageId] else []
    {
      var ok := transport.Retry(message);
      return if ok then Requeued else Raised;
    }

    /** The end of `process_message`: a pending result is published; a failure is counted and retried or given up. */
    method PublishAndAcknowledge(message: DeepiriMessage<Object>, body: Incoming, settled: Row, now: Instant,
                                 ghost before: Table) returns (handled: Handled)
      requires cfg == processor.cfg && TableOk(cfg, processor.operationStore.rows)
      requires TableEvolves(before, processor.operationStore.rows) && settled.status.Final()
      requires Current(cfg, processor.operationStore.rows, body, settled)
      modifies transport, processor.operationStore
      ensures TableOk(cfg, processor.operationStore.rows) && TableEvolves(before, processor.operationStore.rows)
      ensures SameBut(old(processor.operationStore.rows), processor.operationStore.rows, settled.request.key)
      ensures settled.request.key in processor.operationStore.rows
      ensures
        var row := processor.operationStore.rows[settled.request.key];
        && (if settled.publication == Pending
            then Offered(cfg, old(transport.connected), old(transport.failPublications) > 0, settled, row, now, handled)
            else row == settled && handled == if old(transport.connected) then Acknowledged else Raised)
        && Delivers(old(transport.published), transport.published, settled, row)
      ensures handled.Acknowledged? ==>
        && message.messageId in transport.acknowledged && transport.retried == old(transport.retried)
        && Safe(cfg, processor.operationStore.rows, body)
      ensures handled.Requeued? ==>
        && transport.acknowledged == old(transport.acknowledged)
        && transport.retried == old(transport.retried) + [message.messageId]
        && var m := Message(body, message.deliveryAttempt, 0);
           Measure(cfg, processor.operationStore.rows, NextDelivery(m)) < Measure(cfg, before, m)
      ensures handled.Left? || handled.Raised? ==>
        transport.acknowledged == old(transport.acknowledged) && transport.retried == old(transport.retried)
      ensures old(OnBus(processor.operationStore.rows, transport.published)) ==>
                OnBus(processor.operationStore.rows, transport.published)
    {
      hide TableOk, TableEvolves, Measure, OnBus, Safe, Current, RowOk, SameBut, Offered, Delivers;
      var store := processor.operationStore;
      ghost var rows, m, log := store.rows, Message(body, message.deliveryAttempt, 0), transport.published;
      var record := settled;
      FinalIsOffered(cfg, rows, body, record);
      CurrentStays(cfg, rows, body, record, log);
      if record.publication.Pending? {
        var taken, updated := PublishPending(body, record, now);
        TableEvolvesTransitive(before, rows, store.rows);
        CurrentStays(cfg, store.rows, body, updated, log);
        OfferEnds(cfg, transport.connected, old(transport.failPublications) > 0, settled, updated, now,
                  if !transport.connected then Raised
                  else if !taken && updated.publicationAttempts < cfg.maxAttempts then Requeued else Acknowledged, log);
        if !taken && updated.publicationAttempts < cfg.maxAttempts {
          OneMoreAttempt(cfg, before, rows, store.rows, body, record, updated, message.deliveryAttempt);
          handled := Requeue(message);
          return;
        }
        record := updated;
      }
      DeliveredIsSafe(cfg, store.rows, body, record);
      var ok := transport.Acknowledge(message);
      return if ok then Acknowledged else Raised;
    }
  }

  lemma CurrentStays(cfg: Config, rows: Table, body: Incoming, record: Row, log: seq<DeepiriMessage<ResultMessage>>)
    requires Current(cfg, rows, body, record)
    ensures SameBut(rows, rows, record.request.key) && record.request.key in rows && rows[record.request.key] == record
    ensures Delivers(log, log, record, record) && (record.status.RetryableFailure? ==> !record.publication.Published?)
  {}

  lemma StillSameBut(a: Table, b: Table, c: Table, key: string)
    requires SameBut(a, b, key) && SameBut(b, c, key)
    ensures SameBut(a, c, key)
  {}

  lemma RestIsFinal(cfg: Config, rows: Table, body: Incoming, record: Row)
    requires Current(cfg, rows, body, record) && !record.status.Processing? && !record.status.RetryableFailure?
    ensures record.status.Final()
  {}

  /** A final row is offered to the broker: pending or published. */
  lemma FinalIsOffered(cfg: Config, rows: Table, body: Incoming, record: Row)
    requires Current(cfg, rows, body, record) && record.status.Final()
    ensures !record.publication.Unpublished? && record.token.None? && record.leaseUntil.None? && record.outbound.Some?
  {}

  lemma OfferEnds(cfg: Config, connected: bool, refusing: bool, record: Row, row: Row, now: Instant, handled: Handled,
                  log: seq<DeepiriMessage<ResultMessage>>)
    requires record.publication.Pending? && record.token.None? && record.leaseUntil.None? && record.outbound.Some?
    requires row == PublicationRow(record, connected && !refusing, now)
    requires handled == if !connected then Raised
                        else if refusing && row.publicationAttempts < cfg.maxAttempts then Requeued else Acknowledged
    ensures Offered(cfg, connected, refusing, record, row, now, handled)
    ensures Delivers(log, if connected && !refusing then log + [MessageFor(record)] else log, record, row)
  {}

  lemma DeadLetterDecided(cfg: Config, connected: bool, refusing: bool, delivery: nat, record: Row, dead: Row, row: Row,
                          at: Instant, now: Instant, handled: Handled, log: seq<DeepiriMessage<ResultMessage>>,
                          after: seq<DeepiriMessage<ResultMessage>>)
    requires record.status.RetryableFailure? && (record.attempts >= cfg.maxAttempts || delivery >= cfg.maxAttempts)
    requires !record.publication.Published?
    requires dead == Row(record.request, DeadLettered, record.attempts, None, None, record.createdAt, at, None,
                         Some(LastError(record.error)), Pending, record.publicationAttempts, dead.outbound)
    requires Offered(cfg, connected, refusing, dead, row, now, handled) && Delivers(log, after, dead, row)
    ensures Decided(cfg, connected, refusing, delivery, record, row, at, now, handled)
    ensures Delivers(log, after, record, row)
  {}

  lemma DeliveredIsSafe(cfg: Config, rows: Table, body: Incoming, record: Row)
    requires Current(cfg, rows, body, record) && Delivered(cfg, record)
    ensures Safe(cfg, rows, body)
  {}

  lemma OneMoreAttempt(cfg: Config, before: Table, rows: Table, after: Table, body: Incoming, record: Row, updated: Row,
                       delivery: nat)
    requires TableEvolves(before, rows) && TableEvolves(rows, after)
    requires Current(cfg, rows, body, record) && Current(cfg, after, body, updated)
    requires record.publicationAttempts < updated.publicationAttempts < cfg.maxAttempts
    ensures
      var m := Message(body, delivery, 0);
      Measure(cfg, after, NextDelivery(m)) < Measure(cfg, before, m)
  {
    hide TableEvolves, Measure, RowOk;
    AttemptsGrow(before, rows, body);
    FailureIsProgress(cfg, before, after, Message(body, delivery, 0));
  }
}
