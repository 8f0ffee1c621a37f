/**
 * document.vectorize processing as a step machine: any number of workers, each running the processor and the
 * consumer (or a recovery drain), over one operation table and one broker. A step is what happens between two
 * awaits; steps of different workers interleave freely, workers may crash at any point and the broker may
 * deliver a message any number of times.
 */
module DocumentProcessing {
  import opened Wrappers
  import opened JsonValues
  import opened OperationStore
  import opened Outbox

  /** `claimLease` is claim_lease_seconds in microseconds. */
  datatype Config = Config(maxAttempts: nat, claimLease: int, operationId: string -> string)

  /** What parsing made of a message; `invalid` is the validation error, if there was one. */
  datatype Incoming = Incoming(
    key: string, fingerprint: string, documentId: Option<string>, manifestVersion: Option<string>,
    payload: Object, metadata: Object, invalid: Option<Object>)

  /** `retries` counts how often this message's lineage went through `transport.retry`. */
  datatype Message = Message(body: Incoming, delivery: nat, retries: nat)

  /** One handling of one delivery. */
  datatype Job = Job(handling: nat, message: Message)

  datatype Pc =
    | Idle
    | Claiming(job: Job)                                            // process(): about to claim
    | Conflicted(job: Job)                                          // IdempotencyConflictError caught
    | ClaimingConflict(job: Job, existing: Row)                     // _record_conflict(): about to claim
    | Working(job: Job, record: Row, verdict: Option<Object>)       // owner; a verdict must be committed as a failure
    | Waiting(job: Job, record: Row)                                // _settled_duplicate(): polling
    | Settled(job: Job, record: Row)                                // process() returned
    | Publishing(job: Job, record: Row)
    | Sent(job: Job, record: Row)                                   // the broker took the result
    | Unsent(job: Job, record: Row)                                 // DeepiriTransportError
    | Retrying(job: Job)
    | Acking(job: Job, record: Row)
    | Draining(page: seq<Row>)                                      // recovery: page[0] is next
    | DrainSent(page: seq<Row>)
    | DrainUnsent(page: seq<Row>)

  /** A message on the broker, with the key of the row it came from. */
  datatype PublishedMessage = PublishedMessage(key: string, outbound: Outbound, headers: Object)

  datatype Settlement =
    | Acked(handling: nat, message: Message, key: string)
    | Retried(handling: nat, message: Message)

  /** A grant of ownership; `settled` once its attempt committed an outcome or recorded a failure. */
  datatype Grant = Grant(token: Token, lease: Instant, settled: bool)

  /** `tokens`, `published`, `settlements`, `grants`, `commits` and `handlings` are the history of the run. */
  datatype System = System(
    rows: Table, pcs: seq<Pc>, clock: Instant, sent: seq<Message>, tokens: set<Token>,
    published: seq<PublishedMessage>, settlements: seq<Settlement>, grants: map<string, seq<Grant>>,
    commits: multiset<string>, handlings: nat)

  // ---------- Requests and result messages ----------

  const ARTIFACTS := "document.artifacts"
  const DEAD_LETTER := "pipeline.dead-letter"

  function RequestOf(cfg: Config, body: Incoming): Request {
    Request(cfg.operationId(body.key), body.key, body.fingerprint, body.documentId.GetOr("unknown"),
            body.manifestVersion.GetOr("unknown"), body.payload, body.metadata)
  }

  function ConflictKey(key: string, fingerprint: string): string {
    key + ":conflict:" + if |fingerprint| <= 24 then fingerprint else fingerprint[..24]
  }

  function ConflictRequest(cfg: Config, existing: Request, body: Incoming): Request {
    var key := ConflictKey(existing.key, body.fingerprint);
    Request(cfg.operationId(key), key, body.fingerprint, body.documentId.GetOr(existing.documentId),
            body.manifestVersion.GetOr(existing.manifestVersion), body.payload, body.metadata)
  }

  function ConflictError(existing: Request): Object {
    map["code" := Str("IDEMPOTENCY_CONFLICT"),
        "message" := Str("The idempotency key is already associated with a different request"),
        "retryable" := Bool(false),
        "details" := Obj(map["conflictingOperationId" := Str(existing.operationId),
                             "conflictingIdempotencyKey" := Str(existing.key)])]
  }

  function Exhausted(error: Option<Object>): Object {
    error.GetOr(map[])["retryable" := Bool(false)]["exhausted" := Bool(true)]
  }

  function ResultFor(request: Request, success: bool, result: Option<Object>, error: Option<Object>): ResultMessage {
    ResultMessage(success, request.operationId, request.key, request.documentId, request.manifestVersion,
                  result, error, request.metadata)
  }

  function SuccessOutbound(request: Request, output: Object): Outbound {
    Outbound(ARTIFACTS, "document-result-" + request.operationId, ResultFor(request, true, Some(output), None))
  }

  function FailureOutbound(request: Request, error: Object): Outbound {
    Outbound(DEAD_LETTER, "document-failure-" + request.operationId, ResultFor(request, false, None, Some(error)))
  }

  // ---------- Steps ----------

  datatype Action =
    | Deliver(index: nat)
    | Claim(now: Instant, leaseFrom: Instant, token: Token)
    | GetExisting
    | CommitSuccess(output: Object)
    | CommitFailure(error: Object)
    | CommitRetryable(error: Object)
    | CommitCancelled(error: Object)
    | Poll
    | GiveUpWaiting
    | Dispatch
    | Publish(accepted: bool, reported: bool)
    | RecordPublication
    | CallTransport
    | StartDrain(limit: int)
    | Crash

  datatype Step = Act(worker: nat, action: Action) | Send(body: Incoming) | Tick(now: Instant)

  function Goto(s: System, w: nat, pc: Pc): System
    requires w < |s.pcs|
  {
    s.(pcs := s.pcs[w := pc])
  }

  /** The broker hands any message it ever held to an idle worker. */
  function DeliverStep(s: System, w: nat, index: nat): System
    requires w < |s.pcs|
  {
    if s.pcs[w].Idle? && index < |s.sent| then
      Goto(s, w, Claiming(Job(s.handlings, s.sent[index]))).(handlings := s.handlings + 1)
    else s
  }

  /** Bookkeeping of a grant: ownership passes to a new token under a new lease. */
  function Grants(grants: map<string, seq<Grant>>, key: string): seq<Grant> {
    if key in grants then grants[key] else []
  }

  function AfterClaim(s: System, w: nat, job: Job, request: Request, outcome: (Table, ClaimOutcome),
                      lease: Instant, token: Token, verdict: Option<Object>, onConflict: Pc): System
    requires w < |s.pcs|
  {
    match outcome.1
    case Granted(record) =>
      s.(pcs := s.pcs[w := Working(job, record, verdict)], rows := outcome.0, tokens := s.tokens + {token},
         grants := s.grants[request.key := Grants(s.grants, request.key) + [Grant(token, lease, false)]])
    case Observed(record) =>
      Goto(s, w, if record.status.Processing? then Waiting(job, record) else Settled(job, record))
    case Conflict => Goto(s, w, onConflict)
    case DuplicateOperationId => Goto(s, w, Idle)
  }

  /** A negative lease counts as none. */
  function LeaseLength(cfg: Config): nat {
    if cfg.claimLease > 0 then cfg.claimLease else 0
  }

  /** `now` and the lease base were read from the clock before the transaction began, so they may be old. */
  function ClaimStep(cfg: Config, s: System, w: nat, now: Instant, leaseFrom: Instant, token: Token): System
    requires w < |s.pcs|
  {
    if !(now <= leaseFrom <= s.clock) || token in s.tokens then s
    else
      var lease := leaseFrom + LeaseLength(cfg);
      match s.pcs[w]
      case Claiming(job) =>
        var request := RequestOf(cfg, job.message.body);
        AfterClaim(s, w, job, request, OperationStore.Claim(s.rows, request, now, lease, token), lease, token,
                   job.message.body.invalid, Conflicted(job))
      case ClaimingConflict(job, existing) =>
        var request := ConflictRequest(cfg, existing.request, job.message.body);
        AfterClaim(s, w, job, request, OperationStore.Claim(s.rows, request, now, lease, token), lease, token,
                   Some(ConflictError(existing.request)), Idle)
      case _ => s
  }

  function GetExistingStep(s: System, w: nat): System
    requires w < |s.pcs|
  {
    match s.pcs[w]
    case Conflicted(job) =>
      var key := job.message.body.key;
      Goto(s, w, if key in s.rows then ClaimingConflict(job, s.rows[key]) else Idle)
    case _ => s
  }

  function SettleLast(grants: map<string, seq<Grant>>, key: string): map<string, seq<Grant>> {
    if key in grants && grants[key] != [] then
      var g := grants[key];
      grants[key := g[|g| - 1 := g[|g| - 1].(settled := true)]]
    else grants
  }

  /** After a committed `finish` the worker goes on with the new record; a stale claim raises and ends the handling. */
  function AfterFinish(s: System, w: nat, job: Job, key: string, outcome: (Table, UpdateOutcome)): System
    requires w < |s.pcs|
  {
    match outcome.1
    case Updated(record) =>
      Goto(s, w, Settled(job, record)).(
        rows := outcome.0, grants := SettleLast(s.grants, key), commits := s.commits + multiset{key})
    case _ => Goto(s, w, Idle)
  }

  function CommitSuccessStep(s: System, w: nat, output: Object): System
    requires w < |s.pcs|
  {
    match s.pcs[w]
    case Working(job, record, None) =>
      if record.token.None? then Goto(s, w, Idle)
      else
        var key := record.request.key;
        AfterFinish(s, w, job, key,
          Finish(s.rows, key, record.token.value, Succeeded, Some(output), None,
                 SuccessOutbound(record.request, output), s.clock))
    case _ => s
  }

  function FinishFailure(s: System, w: nat, job: Job, record: Row, error: Object, deadLettered: bool): System
    requires w < |s.pcs|
  {
    if record.token.None? then Goto(s, w, Idle)
    else
      var key := record.request.key;
      AfterFinish(s, w, job, key,
        Finish(s.rows, key, record.token.value, if deadLettered then DeadLettered else TerminalFailure, None, Some(error),
               FailureOutbound(record.request, error), s.clock))
  }

  function CommitFailureStep(s: System, w: nat, error: Object): System
    requires w < |s.pcs|
  {
    match s.pcs[w]
    case Working(job, record, verdict) => FinishFailure(s, w, job, record, verdict.GetOr(error), false)
    case _ => s
  }

  /** A cancelled handling records the failure too, but then the cancellation propagates. */
  function CommitRetryableStep(s: System, w: nat, error: Object, cancelled: bool): System
    requires w < |s.pcs|
  {
    match s.pcs[w]
    case Working(job, record, None) =>
      if record.token.None? then Goto(s, w, Idle)
      else
        var key := record.request.key;
        var outcome := RecordRetryable(s.rows, key, record.token.value, error, s.clock);
        (match outcome.1
         case Updated(record') =>
           Goto(s, w, if cancelled then Idle else Settled(job, record')).(
             rows := outcome.0, grants := SettleLast(s.grants, key))
         case _ => Goto(s, w, Idle))
    case _ => s
  }

  function PollStep(s: System, w: nat): System
    requires w < |s.pcs|
  {
    match s.pcs[w]
    case Waiting(job, record) =>
      var key := record.request.key;
      if key !in s.rows then Goto(s, w, Settled(job, record))
      else if s.rows[key].status.Processing? then s
      else Goto(s, w, Settled(job, s.rows[key]))
    case _ => s
  }

  function GiveUpStep(s: System, w: nat): System
    requires w < |s.pcs|
  {
    match s.pcs[w]
    case Waiting(job, record) => Goto(s, w, Settled(job, record))
    case _ => s
  }

  function Max(a: nat, b: nat): nat {
    if a < b then b else a
  }

  /** process_message() after process(): retry, dead-letter, publish or acknowledge. */
  function DispatchStep(cfg: Config, s: System, w: nat): System
    requires w < |s.pcs|
  {
    match s.pcs[w]
    case Settled(job, record) =>
      if record.status.Processing? then
        Goto(s, w, if job.message.delivery < cfg.maxAttempts then Retrying(job) else Idle)
      else if record.status.RetryableFailure? then
        if Max(record.attempts, job.message.delivery) < cfg.maxAttempts then Goto(s, w, Retrying(job))
        else FinishFailure(s, w, job, record, Exhausted(record.error), true)
      else if record.publication.Pending? then Goto(s, w, Publishing(job, record))
      else Goto(s, w, Acking(job, record))
    case _ => s
  }

  /**
   * `transport.publish`: the broker may take the message, and the caller may see success or an error. A timeout can
   * report an error for a message that was taken, but a message that was not taken is never reported as published.
   */
  function PublishStep(s: System, w: nat, accepted: bool, reported: bool): System
    requires w < |s.pcs|
  {
    match s.pcs[w]
    case Publishing(job, record) =>
      if record.outbound.None? then Goto(s, w, Idle)
      else
        Goto(s, w, if accepted && reported then Sent(job, record) else Unsent(job, record)).(
          published := if accepted then s.published + [PublicationOf(record)] else s.published)
    case Draining(page) =>
      if page == [] || page[0].outbound.None? then Goto(s, w, Idle)
      else
        Goto(s, w, if accepted && reported then DrainSent(page) else DrainUnsent(page)).(
          published := if accepted then s.published + [PublicationOf(page[0])] else s.published)
    case _ => s
  }

  function PublicationOf(record: Row): PublishedMessage
    requires record.outbound.Some?
  {
    PublishedMessage(record.request.key, record.outbound.value, record.request.metadata)
  }

  /** mark_published or increment_publication_attempt, and what the caller does with the returned record. */
  function RecordPublicationStep(cfg: Config, s: System, w: nat): System
    requires w < |s.pcs|
  {
    match s.pcs[w]
    case Sent(job, record) =>
      var outcome := PublicationUpdate(s.rows, record.request.key, true, s.clock);
      if outcome.1.Updated? then Goto(s, w, Acking(job, outcome.1.record)).(rows := outcome.0)
      else Goto(s, w, Idle)
    case Unsent(job, record) =>
      var outcome := PublicationUpdate(s.rows, record.request.key, false, s.clock);
      if outcome.1.Updated? then
        Goto(s, w, if outcome.1.record.publicationAttempts < cfg.maxAttempts then Retrying(job)
                   else Acking(job, outcome.1.record)).(rows := outcome.0)
      else Goto(s, w, Idle)
    case DrainSent(page) => DrainRecord(s, w, page, true)
    case DrainUnsent(page) => DrainRecord(s, w, page, false)
    case _ => s
  }

  function DrainRecord(s: System, w: nat, page: seq<Row>, published: bool): System
    requires w < |s.pcs|
  {
    if page == [] then Goto(s, w, Idle)
    else
      var outcome := PublicationUpdate(s.rows, page[0].request.key, published, s.clock);
      if outcome.1.Updated? then Goto(s, w, Draining(page[1..])).(rows := outcome.0) else Goto(s, w, Idle)
  }

  function CallTransportStep(s: System, w: nat): System
    requires w < |s.pcs|
  {
    match s.pcs[w]
    case Retrying(job) =>
      var m := job.message;
      Goto(s, w, Idle).(
        sent := s.sent + [m.(delivery := m.delivery + 1, retries := m.retries + 1)],
        settlements := s.settlements + [Retried(job.handling, m)])
    case Acking(job, record) =>
      Goto(s, w, Idle).(settlements := s.settlements + [Acked(job.handling, job.message, record.request.key)])
    case _ => s
  }

  ghost function StartDrainStep(s: System, w: nat, limit: int): System
    requires w < |s.pcs|
  {
    if s.pcs[w].Idle? && UniqueIds(s.rows) then
      Goto(s, w, Draining(Records(s.rows, FirstPending(s.rows, AtLeastZero(limit)))))
    else s
  }

  ghost function ActStep(cfg: Config, s: System, w: nat, action: Action): System
    requires w < |s.pcs|
  {
    match action
    case Deliver(index) => DeliverStep(s, w, index)
    case Claim(now, leaseFrom, token) => ClaimStep(cfg, s, w, now, leaseFrom, token)
    case GetExisting => GetExistingStep(s, w)
    case CommitSuccess(output) => CommitSuccessStep(s, w, output)
    case CommitFailure(error) => CommitFailureStep(s, w, error)
    case CommitRetryable(error) => CommitRetryableStep(s, w, error, false)
    case CommitCancelled(error) => CommitRetryableStep(s, w, error, true)
    case Poll => PollStep(s, w)
    case GiveUpWaiting => GiveUpStep(s, w)
    case Dispatch => DispatchStep(cfg, s, w)
    case Publish(accepted, reported) => PublishStep(s, w, accepted, reported)
    case RecordPublication => RecordPublicationStep(cfg, s, w)
    case CallTransport => CallTransportStep(s, w)
    case StartDrain(limit) => StartDrainStep(s, w, limit)
    case Crash => Goto(s, w, Idle)
  }

  /** A step that does not apply leaves the system as it is. */
  ghost function Next(cfg: Config, s: System, step: Step): System {
    match step
    case Act(w, action) => if w < |s.pcs| then ActStep(cfg, s, w, action) else s
    case Send(body) => s.(sent := s.sent + [Message(body, 1, 0)])
    case Tick(now) => if now >= s.clock then s.(clock := now) else s
  }

  ghost predicate Init(s: System) {
    && s.rows == map[] && (forall w | 0 <= w < |s.pcs| :: s.pcs[w] == Idle)
    && s.sent == [] && s.tokens == {} && s.published == [] && s.settlements == [] && s.grants == map[]
    && s.commits == multiset{} && s.handlings == 0
  }

  ghost predicate CanStep(cfg: Config, a: System, b: System) {
    exists step :: b == Next(cfg, a, step)
  }

  ghost predicate IsRun(cfg: Config, run: seq<System>) {
    && run != [] && Init(run[0])
    && forall i | 0 <= i < |run| - 1 :: CanStep(cfg, run[i], run[i + 1])
  }
}
