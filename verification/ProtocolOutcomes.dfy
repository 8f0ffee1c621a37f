/** Where the outcomes of a run come from, and what the messages it publishes say about the requests behind them. */
module ProtocolOutcomes {
  import opened Wrappers
  import opened JsonValues
  import opened OperationStore
  import opened Outbox
  import opened DocumentProcessing
  import opened ProtocolInvariants
  import opened ProtocolSteps
  import opened ProtocolMoves
  import opened ProtocolTheorems
  import opened ProtocolOrigins

  /** The error of a failure whose attempts are used up. */
  function LastError(error: Option<Object>): Object {
    match error
    case Some(e) => e["exhausted" := Bool(true)]["retryable" := Bool(false)]
    case None => map["exhausted" := Bool(true), "retryable" := Bool(false)]
  }

  /**
   * How a worker comes to the outcome it commits: an owner without a verdict commits what its node returned or how it
   * failed, one with a verdict commits the verdict, and a recorded failure is dead-lettered when its attempts or its
   * deliveries are used up.
   */
  predicate OutcomeOf(cfg: Config, pc: Pc, action: Action, row: Row) {
    && JobOf(pc).Some?
    && match action
       case CommitSuccess(output) =>
         pc.Working? && pc.verdict.None? && row.status.Succeeded? && row.result == Some(output) && row.error.None?
       case CommitFailure(error) =>
         && pc.Working? && row.status.TerminalFailure? && row.result.None?
         && row.error == Some(if pc.verdict.Some? then pc.verdict.value else error)
       case Dispatch =>
         && pc.Settled? && pc.record.status.RetryableFailure?
         && (pc.record.attempts >= cfg.maxAttempts || pc.job.message.delivery >= cfg.maxAttempts)
         && row.status.DeadLettered? && row.result.None? && row.error == Some(LastError(pc.record.error))
       case _ => false
  }

  /** Worker w, holding the token of the row, ends it: it becomes final, pending in the outbox, and no other row changes. */
  ghost predicate Ends(cfg: Config, a: System, b: System, w: nat, action: Action, key: string) {
    && w < |a.pcs| && w < |b.pcs| && key in a.rows && key in b.rows && OutcomeOf(cfg, a.pcs[w], action, b.rows[key])
    && (a.pcs[w].Working? || a.pcs[w].Settled?)
    && a.pcs[w].record.request.key == key && a.pcs[w].record.token.Some? && a.pcs[w].record.token == a.rows[key].token
    && a.rows[key].status == (if action.Dispatch? then RetryableFailure else Processing)
    && b.rows == a.rows[key := b.rows[key]] && b.pcs[w] == Settled(a.pcs[w].job, b.rows[key])
    && var (before, row) := (a.rows[key], b.rows[key]);
       row == Row(before.request, row.status, before.attempts, None, None, before.createdAt, a.clock, row.result, row.error,
                  Pending, before.publicationAttempts, row.outbound)
  }

  lemma FinishEnds(s: System, w: nat, job: Job, record: Row, status: Status, result: Option<Object>,
                   error: Option<Object>, outbound: Outbound)
    requires w < |s.pcs| && record.token.Some? && status.Final()
    ensures
      var key := record.request.key;
      var b := AfterFinish(s, w, job, key,
                           Finish(s.rows, key, record.token.value, status, result, error, outbound, s.clock));
      && (forall k | k != key :: b.commits[k] == s.commits[k])
      && (b.commits[key] != s.commits[key] ==>
            && key in s.rows && s.rows[key].token == record.token && key in b.rows
            && s.rows[key].status == (if status.DeadLettered? then RetryableFailure else Processing)
            && var before := s.rows[key];
               && b.rows == s.rows[key := b.rows[key]]
               && b.rows[key] == Row(before.request, status, before.attempts, None, None, before.createdAt, s.clock, result,
                                     error, Pending, before.publicationAttempts, Some(outbound))
               && w < |b.pcs| && b.pcs[w] == Settled(job, b.rows[key]))
  {}

  lemma SuccessEnds(cfg: Config, s: System, w: nat, output: Object, key: string)
    requires w < |s.pcs|
    ensures
      var b := CommitSuccessStep(s, w, output);
      b.commits[key] != s.commits[key] ==> Ends(cfg, s, b, w, CommitSuccess(output), key)
  {
    hide AfterFinish, Finish, SuccessOutbound;
    if s.pcs[w].Working? && s.pcs[w].record.token.Some? {
      var record := s.pcs[w].record;
      FinishEnds(s, w, s.pcs[w].job, record, Succeeded, Some(output), None, SuccessOutbound(record.request, output));
    }
  }

  lemma FinishFailureEnds(s: System, w: nat, job: Job, record: Row, error: Object, deadLettered: bool, key: string)
    requires w < |s.pcs|
    ensures
      var b := FinishFailure(s, w, job, record, error, deadLettered);
      b.commits[key] != s.commits[key] ==>
        && key == record.request.key && key in s.rows && record.token.Some? && s.rows[key].token == record.token
        && s.rows[key].status == (if deadLettered then RetryableFailure else Processing)
        && key in b.rows && b.rows == s.rows[key := b.rows[key]] && w < |b.pcs| && b.pcs[w] == Settled(job, b.rows[key])
        && var before := s.rows[key];
           b.rows[key] == Row(before.request, if deadLettered then DeadLettered else TerminalFailure, before.attempts, None,
                              None, before.createdAt, s.clock, None, Some(error), Pending, before.publicationAttempts,
                              Some(FailureOutbound(record.request, error)))
  {
    hide AfterFinish, Finish, FailureOutbound;
    if record.token.Some? {
      FinishEnds(s, w, job, record, if deadLettered then DeadLettered else TerminalFailure, None, Some(error),
                 FailureOutbound(record.request, error));
    }
  }

  lemma FailureEnds(cfg: Config, s: System, w: nat, error: Object, key: string)
    requires w < |s.pcs|
    ensures
      var b := CommitFailureStep(s, w, error);
      b.commits[key] != s.commits[key] ==> Ends(cfg, s, b, w, CommitFailure(error), key)
  {
    hide FinishFailure, FailureOutbound;
    if s.pcs[w].Working? {
      FinishFailureEnds(s, w, s.pcs[w].job, s.pcs[w].record, s.pcs[w].verdict.GetOr(error), false, key);
    }
  }

  lemma DispatchEnds(cfg: Config, s: System, w: nat, key: string)
    requires w < |s.pcs|
    ensures
      var b := DispatchStep(cfg, s, w);
      b.commits[key] != s.commits[key] ==> Ends(cfg, s, b, w, Dispatch, key)
  {
    hide FinishFailure, FailureOutbound;
    if s.pcs[w].Settled? {
      var record := s.pcs[w].record;
      ExhaustedIsLast(record.error);
      hide Exhausted, LastError;
      FinishFailureEnds(s, w, s.pcs[w].job, record, Exhausted(record.error), true, key);
    }
  }

  lemma ExhaustedIsLast(error: Option<Object>)
    ensures Exhausted(error) == LastError(error)
  {}

  lemma ClaimEndsNothing(cfg: Config, s: System, w: nat, now: Instant, leaseFrom: Instant, token: Token)
    requires w < |s.pcs|
    ensures ClaimStep(cfg, s, w, now, leaseFrom, token).commits == s.commits
  {
    hide OperationStore.Claim, AfterClaim;
    var lease := leaseFrom + LeaseLength(cfg);
    match s.pcs[w] {
      case Claiming(job) =>
        var request := RequestOf(cfg, job.message.body);
        AfterClaimEndsNothing(s, w, job, request, OperationStore.Claim(s.rows, request, now, lease, token), lease, token,
                              job.message.body.invalid, Conflicted(job));
      case ClaimingConflict(job, existing) =>
        var request := ConflictRequest(cfg, existing.request, job.message.body);
        AfterClaimEndsNothing(s, w, job, request, OperationStore.Claim(s.rows, request, now, lease, token), lease, token,
                              Some(ConflictError(existing.request)), Idle);
      case _ =>
    }
  }

  lemma AfterClaimEndsNothing(s: System, w: nat, job: Job, request: Request, outcome: (Table, ClaimOutcome),
                              lease: Instant, token: Token, verdict: Option<Object>, onConflict: Pc)
    requires w < |s.pcs|
    ensures AfterClaim(s, w, job, request, outcome, lease, token, verdict, onConflict).commits == s.commits
  {}

  lemma RecordingEndsNothing(cfg: Config, s: System, w: nat, error: Object, cancelled: bool)
    requires w < |s.pcs|
    ensures CommitRetryableStep(s, w, error, cancelled).commits == s.commits
    ensures RecordPublicationStep(cfg, s, w).commits == s.commits
  {
    hide RecordRetryable, PublicationUpdate;
  }

  /** No other step commits anything. */
  lemma OthersEndNothing(cfg: Config, s: System, w: nat, action: Action)
    requires w < |s.pcs| && !action.CommitSuccess? && !action.CommitFailure? && !action.Dispatch?
    ensures ActStep(cfg, s, w, action).commits == s.commits
  {
    hide ClaimStep, CommitRetryableStep, RecordPublicationStep, PublicationOf, FirstPending, UniqueIds;
    if action.Claim? {
      ClaimEndsNothing(cfg, s, w, action.now, action.leaseFrom, action.token);
    } else if action.CommitRetryable? || action.CommitCancelled? {
      RecordingEndsNothing(cfg, s, w, action.error, action.CommitCancelled?);
    } else {
      RecordingEndsNothing(cfg, s, w, map[], false);
    }
  }

  lemma ActEnds(cfg: Config, s: System, w: nat, action: Action, key: string)
    requires w < |s.pcs| && ActStep(cfg, s, w, action).commits[key] != s.commits[key]
    ensures Ends(cfg, s, ActStep(cfg, s, w, action), w, action, key)
  {
    hide Ends, CommitSuccessStep, CommitFailureStep, DispatchStep;
    if action.CommitSuccess? {
      SuccessEnds(cfg, s, w, action.output, key);
    } else if action.CommitFailure? {
      FailureEnds(cfg, s, w, action.error, key);
    } else if action.Dispatch? {
      DispatchEnds(cfg, s, w, key);
    } else {
      OthersEndNothing(cfg, s, w, action);
    }
  }

  // ---------- Over runs ----------

  /** A row that becomes final is ended by the worker that acted, on its own message and with the right verdict. */
  lemma OutcomeStep(cfg: Config, run: seq<System>, i: nat, key: string) returns (w: nat, action: Action)
    requires IsRun(cfg, run) && cfg.maxAttempts > 0 && i + 1 < |run| && key in run[i + 1].rows
    requires run[i + 1].rows[key].status.Final() && (key in run[i].rows ==> !run[i].rows[key].status.Final())
    ensures Ends(cfg, run[i], run[i + 1], w, action, key)
    ensures JobOf(run[i].pcs[w]).value.message in run[i].sent
    ensures run[i].pcs[w].Working? ==>
      VerdictOk(run[i].rows, run[i].pcs[w].job.message.body, key, run[i].pcs[w].verdict)
  {
    hide IsRun, Inv, ActStep, TableMoves, HistoryGrows, Ends, VerdictOk;
    var step := RunStep(cfg, run, i);
    AtMostOneFinish(cfg, run, i, key);
    AtMostOneFinish(cfg, run, i + 1, key);
    RunIsTraced(cfg, run, i);
    assert step.Act? && step.worker < |run[i].pcs|;
    w, action := step.worker, step.action;
    ActEnds(cfg, run[i], w, action, key);
    TracedOwner(cfg, run[i], run[i + 1], w, action, key);
  }

  lemma TracedOwner(cfg: Config, a: System, b: System, w: nat, action: Action, key: string)
    requires Traced(a) && Ends(cfg, a, b, w, action, key)
    ensures w < |a.pcs| && JobOf(a.pcs[w]).Some? && JobOf(a.pcs[w]).value.message in a.sent
    ensures a.pcs[w].Working? ==> VerdictOk(a.rows, a.pcs[w].job.message.body, key, a.pcs[w].verdict)
  {
    hide OutcomeOf, VerdictOk;
  }

  /** Every final row of a run was ended by a worker that held its token, on a delivered message of its request. */
  lemma {:induction false} OutcomeOrigin(cfg: Config, run: seq<System>, i: nat, key: string)
    returns (j: nat, w: nat, action: Action)
    requires IsRun(cfg, run) && cfg.maxAttempts > 0 && i < |run| && key in run[i].rows
    requires run[i].rows[key].status.Final()
    ensures j < i && Ends(cfg, run[j], run[j + 1], w, action, key)
    ensures JobOf(run[j].pcs[w]).value.message in run[j].sent
    ensures run[j].pcs[w].Working? ==>
      VerdictOk(run[j].rows, run[j].pcs[w].job.message.body, key, run[j].pcs[w].verdict)
    ensures
      var (ended, row) := (run[j + 1].rows[key], run[i].rows[key]);
      && row.request == ended.request && row.status == ended.status && row.result == ended.result
      && row.error == ended.error && row.outbound == ended.outbound && row.attempts == ended.attempts
    decreases i
  {
    hide Inv, Ends, CanStep, VerdictOk;
    assert i > 0;
    if key in run[i - 1].rows && run[i - 1].rows[key].status.Final() {
      OutcomeIsFrozen(cfg, run, i - 1, i, key);
      j, w, action := OutcomeOrigin(cfg, run, i - 1, key);
    } else {
      j := i - 1;
      hide IsRun;
      w, action := OutcomeStep(cfg, run, i - 1, key);
    }
  }

  /**
   * A row is dead-lettered only after as many grants as attempts are allowed, or when a delivery with that number of a
   * message about it was handled; and its error says that it will not be retried.
   */
  lemma DeadLetteredOnlyWhenExhausted(cfg: Config, run: seq<System>, i: nat, key: string)
    requires IsRun(cfg, run) && cfg.maxAttempts > 0 && i < |run| && key in run[i].rows
    requires run[i].rows[key].status.DeadLettered?
    ensures
      || |Grants(run[i].grants, key)| >= cfg.maxAttempts
      || exists n | 0 <= n < |run[i].sent| ::
           run[i].sent[n].delivery >= cfg.maxAttempts && Target(run[i].rows, run[i].sent[n].body) == key
    ensures
      var error := run[i].rows[key].error;
      error.Some? && "exhausted" in error.value && error.value["exhausted"] == Bool(true)
      && "retryable" in error.value && error.value["retryable"] == Bool(false)
  {
    hide IsRun, Inv, Target, PcOk, RowEvolves, HistoryGrows;
    var j, w, action := OutcomeOrigin(cfg, run, i, key);
    AttemptsCountGrants(cfg, run, i, key);
    RunKeepsInv(cfg, run, j);
    PcOf(cfg, run[j], w);
    RunEvolves(cfg, run, j, i);
    SettledTarget(cfg, run[j].rows, run[i].rows, run[j].pcs[w]);
    var message := run[j].pcs[w].job.message;
    SentStays(run[j], run[i], message);
  }

  lemma SettledTarget(cfg: Config, a: Table, b: Table, pc: Pc)
    requires PcOk(cfg, a, pc) && pc.Settled? && TableEvolves(a, b)
    ensures Target(b, pc.job.message.body) == pc.record.request.key
    ensures pc.record.request.key in a && pc.record.attempts <= a[pc.record.request.key].attempts
  {
    hide RowOk;
  }

  lemma SentStays(a: System, b: System, message: Message)
    requires HistoryGrows(a, b) && message in a.sent
    ensures exists n :: 0 <= n < |b.sent| && b.sent[n] == message
  {
    var n :| 0 <= n < |a.sent| && a.sent[n] == message;
    assert b.sent[n] == message;
  }

  /** Only a valid request, under its own key, ever succeeds. */
  lemma SucceededRequestIsValid(cfg: Config, run: seq<System>, i: nat, key: string) returns (n: nat)
    requires IsRun(cfg, run) && cfg.maxAttempts > 0 && i < |run| && key in run[i].rows
    requires run[i].rows[key].status.Succeeded?
    ensures n < |run[i].sent|
    ensures
      var body := run[i].sent[n].body;
      body.key == key && body.invalid.None? && body.fingerprint == run[i].rows[key].request.fingerprint
  {
    hide IsRun, Inv, PcOk, RowEvolves, HistoryGrows;
    var j, w, action := OutcomeOrigin(cfg, run, i, key);
    RunKeepsInv(cfg, run, j);
    PcOf(cfg, run[j], w);
    RunEvolves(cfg, run, j, i);
    var message := run[j].pcs[w].job.message;
    SentStays(run[j], run[i], message);
    WorkingFingerprint(cfg, run[j].rows, run[j].pcs[w]);
    n :| 0 <= n < |run[i].sent| && run[i].sent[n] == message;
  }

  lemma WorkingFingerprint(cfg: Config, rows: Table, pc: Pc)
    requires PcOk(cfg, rows, pc) && pc.Working?
    ensures pc.record.request.key in rows
    ensures rows[pc.record.request.key].request.fingerprint == pc.job.message.body.fingerprint
  {
    hide RowOk;
  }

  /**
   * Every message ever published names the request whose claim created its row: under that request's own key its
   * document and version, under a conflict key those of the request it conflicts with where it has none itself, and
   * always its own metadata, as payload and as headers.
   */
  lemma PublishedNamesItsRequest(cfg: Config, run: seq<System>, i: nat, n: nat) returns (j: nat, w: nat)
    requires IsRun(cfg, run) && cfg.maxAttempts > 0 && i < |run| && n < |run[i].published|
    ensures j < i && Creates(cfg, run[j], run[j + 1], w, run[i].published[n].key)
    ensures
      var p, body := run[i].published[n], JobOf(run[j].pcs[w]).value.message.body;
      var m := p.outbound.payload;
      && m.key == p.key && m.operationId == cfg.operationId(p.key) && m.metadata == body.metadata && p.headers == body.metadata
      && if run[j].pcs[w].Claiming? then
           && m.key == body.key
           && m.documentId == (if body.documentId.Some? then body.documentId.value else "unknown")
           && m.manifestVersion == (if body.manifestVersion.Some? then body.manifestVersion.value else "unknown")
         else
           && body.key in run[i].rows && run[i].rows[body.key].request.fingerprint != body.fingerprint
           && var other := run[i].rows[body.key].request;
              && m.documentId == (if body.documentId.Some? then body.documentId.value else other.documentId)
              && m.manifestVersion == (if body.manifestVersion.Some? then body.manifestVersion.value else other.manifestVersion)
  {
    hide IsRun, Inv, RowOk, GrantedFrom, HistoryGrows;
    var p := run[i].published[n];
    OutboxIsUniform(cfg, run, i, n);
    j, w := RowOrigin(cfg, run, i, p.key);
    RunEvolves(cfg, run, j, i);
  }
}
