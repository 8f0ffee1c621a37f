/** Where the rows, outcomes and messages of a run come from: each is traced to the step and the request behind it. */
module ProtocolOrigins {
  import opened Wrappers
  import opened JsonValues
  import opened OperationStore
  import opened Outbox
  import opened DocumentProcessing
  import opened ProtocolInvariants
  import opened ProtocolSteps
  import opened ProtocolMoves

  // ---------- What a row's request is made of ----------

  /** The request of a row created for `body` under its own key. */
  predicate OwnRequest(cfg: Config, body: Incoming, request: Request) {
    && request.key == body.key && request.operationId == cfg.operationId(body.key)
    && request.fingerprint == body.fingerprint && request.payload == body.payload && request.metadata == body.metadata
    && request.documentId == (if body.documentId.Some? then body.documentId.value else "unknown")
    && request.manifestVersion == (if body.manifestVersion.Some? then body.manifestVersion.value else "unknown")
  }

  /** The request of a row created for `body` whose own key belongs to the different request `other`. */
  predicate ConflictingRequest(cfg: Config, body: Incoming, other: Request, request: Request) {
    && other.key == body.key && other.fingerprint != body.fingerprint
    && request.key == body.key + ":conflict:" + body.fingerprint[..if |body.fingerprint| < 24 then |body.fingerprint| else 24]
    && request.operationId == cfg.operationId(request.key)
    && request.fingerprint == body.fingerprint && request.payload == body.payload && request.metadata == body.metadata
    && request.documentId == (if body.documentId.Some? then body.documentId.value else other.documentId)
    && request.manifestVersion ==
         (if body.manifestVersion.Some? then body.manifestVersion.value else other.manifestVersion)
  }

  /** The error of a request whose key belongs to `other`. */
  function NamingConflict(other: Request): Object {
    map["code" := Str("IDEMPOTENCY_CONFLICT"), "retryable" := Bool(false),
        "message" := Str("The idempotency key is already associated with a different request"),
        "details" := Obj(map["conflictingIdempotencyKey" := Str(other.key),
                             "conflictingOperationId" := Str(other.operationId)])]
  }

  /**
   * An owner's verdict: for its own key's row the validation error, if there is one, and for a conflict row the
   * conflict.
   */
  predicate VerdictOk(rows: Table, body: Incoming, key: string, verdict: Option<Object>) {
    if key == body.key then verdict == body.invalid
    else body.key in rows && verdict == Some(NamingConflict(rows[body.key].request))
  }

  // ---------- Handlings carry delivered messages ----------

  ghost predicate PcTraced(rows: Table, sent: seq<Message>, pc: Pc) {
    && (JobOf(pc).Some? ==> JobOf(pc).value.message in sent)
    && (pc.Working? ==> VerdictOk(rows, pc.job.message.body, pc.record.request.key, pc.verdict))
  }

  ghost predicate Traced(s: System) {
    forall w | 0 <= w < |s.pcs| :: PcTraced(s.rows, s.sent, s.pcs[w])
  }

  /** How a worker gets to own a row: through a claim for its own key or for its conflict key. */
  predicate Owns(a: Pc, b: Pc)
    requires b.Working?
  {
    || (a.Claiming? && b.record.request.key == a.job.message.body.key && b.verdict == a.job.message.body.invalid)
    || (a.ClaimingConflict? && b.record.request.key == ConflictKey(a.existing.request.key, a.job.message.body.fingerprint)
        && b.verdict == Some(NamingConflict(a.existing.request)))
  }

  function JobOf(pc: Pc): Option<Job> {
    if pc.Idle? || pc.Draining? || pc.DrainSent? || pc.DrainUnsent? then None else Some(pc.job)
  }

  /** A step that goes on with its worker's message and does not make it an owner. */
  predicate SameJob(a: System, b: System, w: nat)
    requires w < |a.pcs|
  {
    w < |b.pcs| && (b.pcs[w] == a.pcs[w] || (JobOf(b.pcs[w]) in {None, JobOf(a.pcs[w])} && !b.pcs[w].Working?))
  }

  /** A step that takes a delivered message. */
  predicate TakesJob(a: System, b: System, w: nat) {
    w < |b.pcs| && b.pcs[w].Claiming? && b.pcs[w].job.message in a.sent
  }

  /** A step that makes its worker an owner. */
  predicate GetsOwner(a: System, b: System, w: nat)
    requires w < |a.pcs|
  {
    w < |b.pcs| && b.pcs[w].Working? && JobOf(a.pcs[w]) == Some(b.pcs[w].job) && Owns(a.pcs[w], b.pcs[w])
  }

  predicate KeepsJob(a: System, b: System, w: nat)
    requires w < |a.pcs|
  {
    SameJob(a, b, w) || TakesJob(a, b, w) || GetsOwner(a, b, w)
  }

  lemma AfterClaimKeepsJob(s: System, w: nat, job: Job, request: Request, outcome: (Table, ClaimOutcome), lease: Instant,
                           token: Token, verdict: Option<Object>, onConflict: Pc)
    requires w < |s.pcs| && JobOf(s.pcs[w]) == Some(job) && JobOf(onConflict) in {None, Some(job)} && !onConflict.Working?
    ensures
      var b := AfterClaim(s, w, job, request, outcome, lease, token, verdict, onConflict);
      if outcome.1.Granted? then w < |b.pcs| && b.pcs[w] == Working(job, outcome.1.record, verdict) else SameJob(s, b, w)
  {}

  lemma ClaimKeepsJob(cfg: Config, s: System, w: nat, now: Instant, leaseFrom: Instant, token: Token)
    requires TableOk(cfg, s.rows) && w < |s.pcs|
    ensures KeepsJob(s, ClaimStep(cfg, s, w, now, leaseFrom, token), w)
  {
    hide TableOk, OperationStore.Claim, AfterClaim, ConflictError, NamingConflict;
    var lease := leaseFrom + LeaseLength(cfg);
    match s.pcs[w] {
      case Claiming(job) =>
        var request := RequestOf(cfg, job.message.body);
        ClaimedKey(cfg, s.rows, request, now, lease, token);
        AfterClaimKeepsJob(s, w, job, request, OperationStore.Claim(s.rows, request, now, lease, token), lease, token,
                           job.message.body.invalid, Conflicted(job));
      case ClaimingConflict(job, existing) =>
        var request := ConflictRequest(cfg, existing.request, job.message.body);
        ClaimedKey(cfg, s.rows, request, now, lease, token);
        ConflictIsNamed(existing.request);
        AfterClaimKeepsJob(s, w, job, request, OperationStore.Claim(s.rows, request, now, lease, token), lease, token,
                           Some(ConflictError(existing.request)), Idle);
      case _ =>
    }
  }

  lemma ConflictIsNamed(other: Request)
    ensures ConflictError(other) == NamingConflict(other)
  {
    assert ConflictError(other)["details"].fields == NamingConflict(other)["details"].fields;
  }

  lemma ClaimedKey(cfg: Config, rows: Table, request: Request, now: Instant, lease: Instant, token: Token)
    requires TableOk(cfg, rows)
    ensures
      var claim := OperationStore.Claim(rows, request, now, lease, token).1;
      claim.Granted? ==> claim.record.request.key == request.key
  {}

  lemma CommitKeepsJob(s: System, w: nat, value: Object)
    requires w < |s.pcs|
    ensures SameJob(s, CommitSuccessStep(s, w, value), w)
  {
    hide Finish, SuccessOutbound;
  }

  lemma FailureKeepsJob(s: System, w: nat, value: Object)
    requires w < |s.pcs|
    ensures SameJob(s, CommitFailureStep(s, w, value), w)
  {
    hide Finish, FailureOutbound;
  }

  lemma RetryableKeepsJob(s: System, w: nat, value: Object, cancelled: bool)
    requires w < |s.pcs|
    ensures SameJob(s, CommitRetryableStep(s, w, value, cancelled), w)
  {
    hide RecordRetryable;
  }

  lemma DispatchKeepsJob(cfg: Config, s: System, w: nat)
    requires w < |s.pcs|
    ensures SameJob(s, DispatchStep(cfg, s, w), w)
  {
    hide Finish, FailureOutbound;
  }

  lemma RecordPublicationKeepsJob(cfg: Config, s: System, w: nat)
    requires w < |s.pcs|
    ensures SameJob(s, RecordPublicationStep(cfg, s, w), w)
  {
    hide PublicationUpdate;
  }

  lemma ReadsKeepJob(s: System, w: nat)
    requires w < |s.pcs|
    ensures SameJob(s, GetExistingStep(s, w), w) && SameJob(s, PollStep(s, w), w)
    ensures SameJob(s, GiveUpStep(s, w), w) && SameJob(s, CallTransportStep(s, w), w)
  {}

  lemma PublishKeepsJob(s: System, w: nat, accepted: bool, reported: bool)
    requires w < |s.pcs|
    ensures SameJob(s, PublishStep(s, w, accepted, reported), w)
  {
    hide PublicationOf;
  }

  lemma RestartsKeepJob(s: System, w: nat, limit: int)
    requires w < |s.pcs|
    ensures SameJob(s, StartDrainStep(s, w, limit), w) && SameJob(s, Goto(s, w, Idle), w)
  {
    hide FirstPending, UniqueIds;
  }

  lemma DeliverKeepsJob(s: System, w: nat, index: nat)
    requires w < |s.pcs|
    ensures KeepsJob(s, DeliverStep(s, w, index), w)
  {}

  lemma ActKeepsJob(cfg: Config, s: System, w: nat, action: Action)
    requires TableOk(cfg, s.rows) && w < |s.pcs|
    ensures KeepsJob(s, ActStep(cfg, s, w, action), w)
  {
    hide TableOk, SameJob, Owns, DeliverStep, GetExistingStep, PollStep, GiveUpStep, CallTransportStep, StartDrainStep;
    hide CommitSuccessStep, CommitFailureStep, CommitRetryableStep, ClaimStep, DispatchStep, PublishStep, Goto;
    hide RecordPublicationStep;
    match action {
      case Deliver(index) => DeliverKeepsJob(s, w, index);
      case Claim(now, leaseFrom, token) => ClaimKeepsJob(cfg, s, w, now, leaseFrom, token);
      case CommitSuccess(output) => CommitKeepsJob(s, w, output);
      case CommitFailure(error) => FailureKeepsJob(s, w, error);
      case CommitRetryable(error) => RetryableKeepsJob(s, w, error, false);
      case CommitCancelled(error) => RetryableKeepsJob(s, w, error, true);
      case Dispatch => DispatchKeepsJob(cfg, s, w);
      case RecordPublication => RecordPublicationKeepsJob(cfg, s, w);
      case Publish(accepted, reported) => PublishKeepsJob(s, w, accepted, reported);
      case StartDrain(limit) => RestartsKeepJob(s, w, limit);
      case Crash => RestartsKeepJob(s, w, 0);
      case _ => ReadsKeepJob(s, w);
    }
  }

  /** What a worker is doing stays traced as the table moves on and more messages are sent. */
  lemma TracedStays(cfg: Config, a: Table, b: Table, sent: seq<Message>, sent': seq<Message>, pc: Pc)
    requires TableEvolves(a, b) && sent <= sent' && PcTraced(a, sent, pc) && PcOk(cfg, a, pc)
    ensures PcTraced(b, sent', pc)
  {
    hide RowOk, MessageOk;
  }

  lemma OwnerIsTraced(cfg: Config, a: Table, b: Table, sent: seq<Message>, sent': seq<Message>, pc: Pc, pc': Pc)
    requires TableEvolves(a, b) && sent <= sent' && PcTraced(a, sent, pc) && PcOk(cfg, a, pc)
    requires pc'.Working? && JobOf(pc) == Some(pc'.job) && Owns(pc, pc')
    ensures PcTraced(b, sent', pc')
  {
    if pc.ClaimingConflict? {
      ExistingRequest(cfg, a, pc);
      ExistingStays(a, b, pc.job.message.body.key);
      assert |pc'.record.request.key| > |pc.job.message.body.key|;
    }
    hide PcOk, TableEvolves, NamingConflict;
  }

  lemma ExistingStays(a: Table, b: Table, key: string)
    requires TableEvolves(a, b) && key in a
    ensures key in b && b[key].request == a[key].request
  {}

  lemma ExistingRequest(cfg: Config, rows: Table, pc: Pc)
    requires pc.ClaimingConflict? && PcOk(cfg, rows, pc)
    ensures
      var key := pc.job.message.body.key;
      key in rows && rows[key].request == pc.existing.request && pc.existing.request.key == key
    ensures pc.existing.request.fingerprint != pc.job.message.body.fingerprint
  {}

  lemma NextIsTraced(cfg: Config, s: System, step: Step)
    requires Inv(cfg, s) && Traced(s)
    ensures Traced(Next(cfg, s, step))
  {
    hide Inv, ActStep, PcTraced, TableMoves, PcOk;
    var s' := Next(cfg, s, step);
    NextMoves(cfg, s, step);
    EvolvesIn(s, s');
    InvTable(cfg, s);
    forall v | 0 <= v < |s.pcs| ensures v < |s'.pcs| && PcTraced(s'.rows, s'.sent, s'.pcs[v]) {
      PcOf(cfg, s, v);
      TracedStays(cfg, s.rows, s'.rows, s.sent, s'.sent, s.pcs[v]);
      if step.Act? && step.worker < |s.pcs| {
        StepsAreExplained(cfg, s, step.worker, step.action, "");
        if v == step.worker {
          ActKeepsJob(cfg, s, v, step.action);
          WorkerIsTraced(cfg, s, s', v);
        }
      }
    }
  }

  lemma EvolvesIn(a: System, b: System)
    requires TableMoves(a.rows, a.clock, b.rows)
    ensures TableEvolves(a.rows, b.rows)
  {}

  lemma WorkerIsTraced(cfg: Config, a: System, b: System, w: nat)
    requires w < |a.pcs| && KeepsJob(a, b, w) && TableOk(cfg, a.rows) && TableEvolves(a.rows, b.rows) && a.sent <= b.sent
    requires PcTraced(a.rows, a.sent, a.pcs[w]) && PcOk(cfg, a.rows, a.pcs[w])
    ensures PcTraced(b.rows, b.sent, b.pcs[w])
  {
    hide TableOk, TableEvolves, PcOk, VerdictOk, Owns;
    if b.pcs[w] == a.pcs[w] {
      TracedStays(cfg, a.rows, b.rows, a.sent, b.sent, a.pcs[w]);
    } else if b.pcs[w].Working? {
      OwnerIsTraced(cfg, a.rows, b.rows, a.sent, b.sent, a.pcs[w], b.pcs[w]);
    }
  }

  /** In every run every handling carries a message on the broker, and every owner the right verdict. */
  lemma {:induction false} RunIsTraced(cfg: Config, run: seq<System>, i: nat)
    requires IsRun(cfg, run) && cfg.maxAttempts > 0 && i < |run|
    ensures Traced(run[i])
    decreases i
  {
    hide Next, Inv, TableMoves, HistoryGrows;
    if i > 0 {
      RunIsTraced(cfg, run, i - 1);
      var step := RunStep(cfg, run, i - 1);
      NextIsTraced(cfg, run[i - 1], step);
    }
  }

  // ---------- Grants and new rows ----------

  /**
   * The row of a grant: a lease of the configured length, counted from a clock reading between the row's new timestamp
   * and the commit, under a fresh token; a row that was there keeps its request and its creation time.
   */
  predicate GrantedFrom(cfg: Config, rows: Table, tokens: set<Token>, clock: Instant, key: string, row: Row) {
    && row.token.Some? && row.token.value !in tokens && row.leaseUntil.Some?
    && row.updatedAt <= row.leaseUntil.value - (if cfg.claimLease > 0 then cfg.claimLease else 0) <= clock
    && (if key in rows then
          row == Row(rows[key].request, Processing, rows[key].attempts + 1, row.token, row.leaseUntil,
                     rows[key].createdAt, row.updatedAt, None, None, Unpublished, rows[key].publicationAttempts, None)
        else
          row == Row(row.request, Processing, 1, row.token, row.leaseUntil, row.updatedAt, row.updatedAt, None, None,
                     Unpublished, 0, None))
  }

  /** Worker w is granted `key`, and nothing else is written. */
  ghost predicate GrantsTo(cfg: Config, a: System, b: System, w: nat, key: string) {
    && w < |a.pcs| && JobOf(a.pcs[w]).Some? && w < |b.pcs| && b.pcs[w].Working? && b.pcs[w].job == JobOf(a.pcs[w]).value
    && b.rows == a.rows[key := b.pcs[w].record] && GrantedFrom(cfg, a.rows, a.tokens, a.clock, key, b.pcs[w].record)
    && var row := b.pcs[w].record;
       Grants(b.grants, key) == Grants(a.grants, key) + [Grant(row.token.value, row.leaseUntil.value, false)]
  }

  /** Worker w's claim creates the row of `key` for the message it handles. */
  ghost predicate Creates(cfg: Config, a: System, b: System, w: nat, key: string) {
    && GrantsTo(cfg, a, b, w, key) && key !in a.rows && JobOf(a.pcs[w]).value.message in a.sent
    && var body, request := JobOf(a.pcs[w]).value.message.body, b.rows[key].request;
       if a.pcs[w].Claiming? then OwnRequest(cfg, body, request)
       else
         a.pcs[w].ClaimingConflict? && body.key in a.rows &&
         ConflictingRequest(cfg, body, a.rows[body.key].request, request)
  }

  lemma GrantIsGranted(cfg: Config, rows: Table, request: Request, now: Instant, leaseFrom: Instant, token: Token,
                       tokens: set<Token>, clock: Instant)
    requires TableOk(cfg, rows) && now <= leaseFrom <= clock && token !in tokens
    ensures
      var lease := leaseFrom + LeaseLength(cfg);
      var (rows', claim) := OperationStore.Claim(rows, request, now, lease, token);
      claim.Granted? ==>
        && rows' == rows[request.key := claim.record] && claim.record.token == Some(token)
        && claim.record.leaseUntil == Some(lease) && GrantedFrom(cfg, rows, tokens, clock, request.key, claim.record)
        && (request.key !in rows ==> claim.record.request == request)
  {
    hide UniqueIds;
    if request.key in rows {
      assert RowOk(cfg, rows[request.key]);
    }
  }

  lemma AfterClaimGrants(cfg: Config, s: System, w: nat, job: Job, request: Request, now: Instant, leaseFrom: Instant,
                         token: Token, verdict: Option<Object>, onConflict: Pc, key: string)
    requires TableOk(cfg, s.rows) && w < |s.pcs| && JobOf(s.pcs[w]) == Some(job)
    requires now <= leaseFrom <= s.clock && token !in s.tokens
    ensures
      var lease := leaseFrom + LeaseLength(cfg);
      var claim := OperationStore.Claim(s.rows, request, now, lease, token);
      var b := AfterClaim(s, w, job, request, claim, lease, token, verdict, onConflict);
      && (|Grants(b.grants, key)| > |Grants(s.grants, key)| ==> claim.1.Granted? && key == request.key)
      && (claim.1.Granted? ==>
            && GrantsTo(cfg, s, b, w, request.key) && b.pcs[w] == Working(job, b.rows[request.key], verdict)
            && (request.key !in s.rows ==> b.rows[request.key].request == request))
  {
    hide TableOk, OperationStore.Claim, GrantedFrom;
    GrantIsGranted(cfg, s.rows, request, now, leaseFrom, token, s.tokens, s.clock);
  }

  lemma ClaimGrants(cfg: Config, s: System, w: nat, now: Instant, leaseFrom: Instant, token: Token, key: string)
    requires Inv(cfg, s) && w < |s.pcs|
    ensures
      var b := ClaimStep(cfg, s, w, now, leaseFrom, token);
      |Grants(b.grants, key)| > |Grants(s.grants, key)| ==>
        && JobOf(s.pcs[w]).Some? && GrantsTo(cfg, s, b, w, key)
        && (key !in s.rows && JobOf(s.pcs[w]).value.message in s.sent ==> Creates(cfg, s, b, w, key))
  {
    hide Inv, TableOk, OperationStore.Claim, AfterClaim, GrantsTo, Grants, PcOk, ConflictError;
    if now <= leaseFrom <= s.clock && token !in s.tokens {
      InvTable(cfg, s);
      PcOf(cfg, s, w);
      match s.pcs[w] {
        case Claiming(job) =>
          AfterClaimGrants(cfg, s, w, job, RequestOf(cfg, job.message.body), now, leaseFrom, token,
                           job.message.body.invalid, Conflicted(job), key);
        case ClaimingConflict(job, existing) =>
          AfterClaimGrants(cfg, s, w, job, ConflictRequest(cfg, existing.request, job.message.body), now, leaseFrom, token,
                           Some(ConflictError(existing.request)), Idle, key);
          ExistingRequest(cfg, s.rows, s.pcs[w]);
        case _ =>
      }
    }
  }

  /** Every grant of a run is a claim's. */
  lemma GrantOrigin(cfg: Config, run: seq<System>, i: nat, key: string) returns (w: nat)
    requires IsRun(cfg, run) && cfg.maxAttempts > 0 && i + 1 < |run|
    requires |Grants(run[i + 1].grants, key)| > |Grants(run[i].grants, key)|
    ensures GrantsTo(cfg, run[i], run[i + 1], w, key)
    ensures key !in run[i].rows ==> Creates(cfg, run[i], run[i + 1], w, key)
  {
    hide IsRun, Inv, ActStep, TableMoves, HistoryGrows, GrantsTo, Creates, Grants, PcTraced;
    var step := RunStep(cfg, run, i);
    RunIsTraced(cfg, run, i);
    if step.Act? && step.worker < |run[i].pcs| {
      w := step.worker;
      StepsAreExplained(cfg, run[i], w, step.action, key);
      GrantedByAct(cfg, run[i], w, step.action, key);
      TracedJob(run[i], w);
    }
  }

  lemma TracedJob(s: System, w: nat)
    requires Traced(s) && w < |s.pcs|
    ensures JobOf(s.pcs[w]).Some? ==> JobOf(s.pcs[w]).value.message in s.sent
  {}

  lemma GrantedByAct(cfg: Config, s: System, w: nat, action: Action, key: string)
    requires Inv(cfg, s) && w < |s.pcs| && action.Claim?
    requires |Grants(ActStep(cfg, s, w, action).grants, key)| > |Grants(s.grants, key)|
    ensures
      var b := ActStep(cfg, s, w, action);
      && JobOf(s.pcs[w]).Some? && GrantsTo(cfg, s, b, w, key)
      && (key !in s.rows && JobOf(s.pcs[w]).value.message in s.sent ==> Creates(cfg, s, b, w, key))
  {
    hide ClaimStep, Inv, GrantsTo, Creates, Grants;
    ClaimGrants(cfg, s, w, action.now, action.leaseFrom, action.token, key);
  }

  /** Every row of a run was created by a claim for a delivered message, and still carries the request of that message. */
  lemma {:induction false} RowOrigin(cfg: Config, run: seq<System>, i: nat, key: string) returns (j: nat, w: nat)
    requires IsRun(cfg, run) && cfg.maxAttempts > 0 && i < |run| && key in run[i].rows
    ensures j < i && Creates(cfg, run[j], run[j + 1], w, key)
    ensures
      var (made, row) := (run[j + 1].rows[key], run[i].rows[key]);
      row.request == made.request && row.createdAt == made.createdAt
    decreases i
  {
    hide Inv, Creates, CanStep;
    assert i > 0;
    RunEvolves(cfg, run, i - 1, i);
    if key in run[i - 1].rows {
      j, w := RowOrigin(cfg, run, i - 1, key);
    } else {
      NewRowIsGranted(cfg, run, i - 1, key);
      hide IsRun;
      j := i - 1;
      w := GrantOrigin(cfg, run, i - 1, key);
    }
  }

  lemma NewRowIsGranted(cfg: Config, run: seq<System>, i: nat, key: string)
    requires IsRun(cfg, run) && cfg.maxAttempts > 0 && i + 1 < |run| && key !in run[i].rows && key in run[i + 1].rows
    ensures |Grants(run[i + 1].grants, key)| > |Grants(run[i].grants, key)|
  {
    hide IsRun, UniqueIds, CommitsOk, HandlingsOk, PcsOk, MessagesOk, PublishedOk, SettlementsOk;
    RunKeepsInv(cfg, run, i);
    RunKeepsInv(cfg, run, i + 1);
  }
}
