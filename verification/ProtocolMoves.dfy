/** How one step, and so a whole run, moves the table, the histories and the acting worker. */
module ProtocolMoves {
  import opened Wrappers
  import opened JsonValues
  import opened OperationStore
  import opened Outbox
  import opened DrainFairness
  import opened DocumentProcessing
  import opened ProtocolInvariants
  import opened ProtocolSteps

  // ---------- Runs ----------

  lemma {:induction false} RunKeepsInv(cfg: Config, run: seq<System>, i: nat)
    requires IsRun(cfg, run) && cfg.maxAttempts > 0 && i < |run|
    ensures Inv(cfg, run[i])
    decreases i
  {
    hide Next, Inv;
    if i == 0 {
      InitHasInv(cfg, run[0]);
    } else {
      RunKeepsInv(cfg, run, i - 1);
      assert CanStep(cfg, run[i - 1], run[i - 1 + 1]);
      var step :| run[i] == Next(cfg, run[i - 1], step);
      NextKeepsInv(cfg, run[i - 1], step);
    }
  }

  lemma InitHasInv(cfg: Config, s: System)
    requires Init(s)
    ensures Inv(cfg, s)
  {}

  /** Every row moved forward; if the clock had passed every final row's timestamp, the outbox advanced. */
  ghost predicate TableMoves(a: Table, clock: Instant, b: Table) {
    TableEvolves(a, b) && (Latest(a, clock) ==> Advances(a, b))
  }

  predicate HistoryGrows(a: System, b: System) {
    && a.published <= b.published && a.settlements <= b.settlements && a.sent <= b.sent
    && a.clock <= b.clock && |a.pcs| == |b.pcs|
  }

  lemma HistoryStays(a: System, b: System)
    requires b.published == a.published && b.settlements == a.settlements && b.sent == a.sent && b.clock == a.clock
    requires |b.pcs| == |a.pcs|
    ensures HistoryGrows(a, b)
  {}

  lemma TableStays(rows: Table, clock: Instant)
    ensures TableMoves(rows, clock, rows)
  {}

  lemma FinishMoves(cfg: Config, rows: Table, clock: Instant, record: Row, token: Token, status: Status,
                    result: Option<Object>, error: Option<Object>, outbound: Outbound)
    requires TableOk(cfg, rows) && status.Final()
    ensures TableMoves(rows, clock, Finish(rows, record.request.key, token, status, result, error, outbound, clock).0)
  {
    hide UniqueIds;
    assert forall k | k in rows :: RowOk(cfg, rows[k]);
    if Latest(rows, clock) {
      FinishAdvances(rows, record.request.key, token, status, result, error, outbound, clock);
    }
  }

  lemma PublicationMoves(cfg: Config, rows: Table, clock: Instant, record: Row, published: bool)
    requires SnapshotOk(cfg, rows, record) && record.publication.Pending?
    ensures TableMoves(rows, clock, PublicationUpdate(rows, record.request.key, published, clock).0)
  {
    if Latest(rows, clock) {
      PublicationUpdateAdvances(rows, record.request.key, published, clock);
    }
    hide Advances, RowOk;
  }

  lemma AfterClaimMoves(s: System, w: nat, job: Job, request: Request, outcome: (Table, ClaimOutcome), lease: Instant,
                        token: Token, verdict: Option<Object>, onConflict: Pc)
    requires w < |s.pcs|
    ensures
      var b := AfterClaim(s, w, job, request, outcome, lease, token, verdict, onConflict);
      b.rows == (if outcome.1.Granted? then outcome.0 else s.rows) && HistoryGrows(s, b)
  {
    hide HistoryGrows;
    HistoryStays(s, AfterClaim(s, w, job, request, outcome, lease, token, verdict, onConflict));
  }

  lemma ClaimMoves(cfg: Config, s: System, w: nat, job: Job, request: Request, now: Instant, lease: Instant,
                   token: Token, verdict: Option<Object>, onConflict: Pc)
    requires w < |s.pcs|
    ensures
      var outcome := OperationStore.Claim(s.rows, request, now, lease, token);
      var b := AfterClaim(s, w, job, request, outcome, lease, token, verdict, onConflict);
      TableMoves(s.rows, s.clock, b.rows) && HistoryGrows(s, b)
  {
    hide TableMoves, Advances, AfterClaim, OperationStore.Claim;
    var outcome := OperationStore.Claim(s.rows, request, now, lease, token);
    TableStays(s.rows, s.clock);
    ClaimAdvances(s.rows, request, now, lease, token);
    AdvancesMoves(s.rows, s.clock, outcome.0);
    AfterClaimMoves(s, w, job, request, outcome, lease, token, verdict, onConflict);
  }

  lemma ClaimStepMoves(cfg: Config, s: System, w: nat, now: Instant, leaseFrom: Instant, token: Token)
    requires w < |s.pcs|
    ensures var b := ClaimStep(cfg, s, w, now, leaseFrom, token);
            TableMoves(s.rows, s.clock, b.rows) && HistoryGrows(s, b)
  {
    hide TableMoves, OperationStore.Claim, AfterClaim;
    TableStays(s.rows, s.clock);
    var lease := leaseFrom + LeaseLength(cfg);
    match s.pcs[w] {
      case Claiming(job) =>
        ClaimMoves(cfg, s, w, job, RequestOf(cfg, job.message.body), now, lease, token, job.message.body.invalid,
                   Conflicted(job));
      case ClaimingConflict(job, existing) =>
        ClaimMoves(cfg, s, w, job, ConflictRequest(cfg, existing.request, job.message.body), now, lease, token,
                   Some(ConflictError(existing.request)), Idle);
      case _ =>
    }
  }

  lemma AdvancesMoves(a: Table, clock: Instant, b: Table)
    requires Advances(a, b)
    ensures TableMoves(a, clock, b)
  {}

  lemma AfterFinishMoves(cfg: Config, s: System, w: nat, job: Job, record: Row, token: Token, status: Status,
                         result: Option<Object>, error: Option<Object>, outbound: Outbound)
    requires TableOk(cfg, s.rows) && w < |s.pcs| && status.Final()
    ensures
      var outcome := Finish(s.rows, record.request.key, token, status, result, error, outbound, s.clock);
      var b := AfterFinish(s, w, job, record.request.key, outcome);
      TableMoves(s.rows, s.clock, b.rows) && HistoryGrows(s, b)
  {
    hide TableMoves, TableOk;
    TableStays(s.rows, s.clock);
    FinishMoves(cfg, s.rows, s.clock, record, token, status, result, error, outbound);
  }

  lemma CommitSuccessMoves(cfg: Config, s: System, w: nat, value: Object)
    requires TableOk(cfg, s.rows) && w < |s.pcs|
    ensures var b := CommitSuccessStep(s, w, value); TableMoves(s.rows, s.clock, b.rows) && HistoryGrows(s, b)
  {
    hide TableMoves, TableOk, AfterFinish, Finish;
    TableStays(s.rows, s.clock);
    if s.pcs[w].Working? && s.pcs[w].record.token.Some? {
      var record := s.pcs[w].record;
      AfterFinishMoves(cfg, s, w, s.pcs[w].job, record, record.token.value, Succeeded, Some(value), None,
                       SuccessOutbound(record.request, value));
    }
  }

  lemma FinishFailureMoves(cfg: Config, s: System, w: nat, job: Job, record: Row, error: Object, deadLettered: bool)
    requires TableOk(cfg, s.rows) && w < |s.pcs|
    ensures var b := FinishFailure(s, w, job, record, error, deadLettered);
            TableMoves(s.rows, s.clock, b.rows) && HistoryGrows(s, b)
  {
    hide TableMoves, TableOk, AfterFinish, Finish;
    TableStays(s.rows, s.clock);
    if record.token.Some? {
      AfterFinishMoves(cfg, s, w, job, record, record.token.value,
                       if deadLettered then DeadLettered else TerminalFailure, None, Some(error),
                       FailureOutbound(record.request, error));
    }
  }

  lemma CommitRetryableMoves(cfg: Config, s: System, w: nat, value: Object, cancelled: bool)
    requires w < |s.pcs|
    ensures var b := CommitRetryableStep(s, w, value, cancelled);
            TableMoves(s.rows, s.clock, b.rows) && HistoryGrows(s, b)
  {
    hide TableMoves, Advances;
    TableStays(s.rows, s.clock);
    if s.pcs[w].Working? && s.pcs[w].record.token.Some? {
      var record := s.pcs[w].record;
      RecordRetryableAdvances(s.rows, record.request.key, record.token.value, value, s.clock);
      AdvancesMoves(s.rows, s.clock,
                    RecordRetryable(s.rows, record.request.key, record.token.value, value, s.clock).0);
    }
  }

  lemma FailuresMove(cfg: Config, s: System, w: nat, value: Object)
    requires TableOk(cfg, s.rows) && w < |s.pcs|
    ensures var b := CommitFailureStep(s, w, value); TableMoves(s.rows, s.clock, b.rows) && HistoryGrows(s, b)
    ensures var b := DispatchStep(cfg, s, w); TableMoves(s.rows, s.clock, b.rows) && HistoryGrows(s, b)
  {
    hide TableMoves, TableOk, FinishFailure;
    TableStays(s.rows, s.clock);
    match s.pcs[w] {
      case Working(job, record, verdict) => FinishFailureMoves(cfg, s, w, job, record, verdict.GetOr(value), false);
      case Settled(job, record) => FinishFailureMoves(cfg, s, w, job, record, Exhausted(record.error), true);
      case _ =>
    }
  }

  lemma RecordPublicationStepMoves(cfg: Config, s: System, w: nat)
    requires Inv(cfg, s) && w < |s.pcs|
    ensures var b := RecordPublicationStep(cfg, s, w);
            TableMoves(s.rows, s.clock, b.rows) && HistoryGrows(s, b)
  {
    hide TableMoves, PublicationUpdate, Inv;
    var pc := s.pcs[w];
    PcOf(cfg, s, w);
    TableStays(s.rows, s.clock);
    if pc.Sent? || pc.Unsent? || pc.DrainSent? || pc.DrainUnsent? {
      var record := if pc.Sent? || pc.Unsent? then pc.record else pc.page[0];
      PublicationMoves(cfg, s.rows, s.clock, record, pc.Sent? || pc.DrainSent?);
    }
  }

  /** A step that leaves the table and the grants alone and does not decide to retry. */
  predicate Local(a: System, b: System, w: nat)
    requires w < |a.pcs|
  {
    && b.rows == a.rows && b.grants == a.grants && HistoryGrows(a, b) && b.pcs == a.pcs[w := b.pcs[w]]
    && (b.pcs[w].Retrying? ==> a.pcs[w].Retrying?)
  }

  lemma LocalSteps(s: System, w: nat, index: nat, limit: int)
    requires w < |s.pcs|
    ensures Local(s, DeliverStep(s, w, index), w) && Local(s, GetExistingStep(s, w), w) && Local(s, PollStep(s, w), w)
    ensures Local(s, GiveUpStep(s, w), w) && Local(s, StartDrainStep(s, w, limit), w) && Local(s, Goto(s, w, Idle), w)
  {
    hide FirstPending, UniqueIds;
  }

  lemma PublishIsLocal(s: System, w: nat, accepted: bool, reported: bool)
    requires w < |s.pcs|
    ensures Local(s, PublishStep(s, w, accepted, reported), w)
  {
    hide HistoryGrows, PublishStep;
    PublishAppends(s, w, accepted, reported);
    PublishTouchesNothingElse(s, w, accepted, reported);
    HistoryAppends(s, PublishStep(s, w, accepted, reported));
  }

  lemma PublishTouchesNothingElse(s: System, w: nat, accepted: bool, reported: bool)
    requires w < |s.pcs|
    ensures
      var b := PublishStep(s, w, accepted, reported);
      && b == s.(pcs := b.pcs, published := b.published) && |b.pcs| == |s.pcs| && b.pcs == s.pcs[w := b.pcs[w]]
      && (b.pcs[w].Retrying? ==> s.pcs[w].Retrying?)
  {
    hide PublicationOf;
  }

  lemma PublishAppends(s: System, w: nat, accepted: bool, reported: bool)
    requires w < |s.pcs|
    ensures
      var b := PublishStep(s, w, accepted, reported);
      b.published == s.published || exists p :: b.published == s.published + [p]
  {
    hide PublicationOf;
    var b := PublishStep(s, w, accepted, reported);
    if b.published != s.published {
      var record := if s.pcs[w].Publishing? then s.pcs[w].record else s.pcs[w].page[0];
      assert b.published == s.published + [PublicationOf(record)];
    }
  }

  lemma HistoryAppends(a: System, b: System)
    requires b.clock == a.clock && |b.pcs| == |a.pcs|
    requires b.published == a.published || exists p :: b.published == a.published + [p]
    requires b.settlements == a.settlements || exists e :: b.settlements == a.settlements + [e]
    requires b.sent == a.sent || exists m :: b.sent == a.sent + [m]
    ensures HistoryGrows(a, b)
  {}

  lemma CallTransportIsLocal(s: System, w: nat)
    requires w < |s.pcs|
    ensures Local(s, CallTransportStep(s, w), w)
  {
    hide HistoryGrows;
    HistoryAppends(s, CallTransportStep(s, w));
  }

  lemma OtherStepsAreLocal(cfg: Config, s: System, w: nat, action: Action)
    requires w < |s.pcs| && !action.Claim? && !action.CommitSuccess? && !action.CommitFailure?
    requires !action.CommitRetryable? && !action.CommitCancelled? && !action.Dispatch? && !action.RecordPublication?
    ensures Local(s, ActStep(cfg, s, w, action), w)
  {
    hide Local, DeliverStep, GetExistingStep, PollStep, GiveUpStep, PublishStep, CallTransportStep, StartDrainStep, Goto;
    LocalSteps(s, w, if action.Deliver? then action.index else 0, if action.StartDrain? then action.limit else 0);
    PublishIsLocal(s, w, action.Publish? && action.accepted, action.Publish? && action.reported);
    CallTransportIsLocal(s, w);
  }

  /** Whatever the step, every row moves forward and the histories grow. */
  lemma NextMoves(cfg: Config, s: System, step: Step)
    requires Inv(cfg, s)
    ensures var b := Next(cfg, s, step); TableMoves(s.rows, s.clock, b.rows) && HistoryGrows(s, b)
  {
    hide TableMoves, Inv, TableOk, ClaimStep, CommitSuccessStep, CommitFailureStep, CommitRetryableStep, DispatchStep;
    hide RecordPublicationStep, DeliverStep, GetExistingStep, PollStep, GiveUpStep, PublishStep, CallTransportStep;
    hide StartDrainStep;
    TableStays(s.rows, s.clock);
    InvTable(cfg, s);
    if step.Act? && step.worker < |s.pcs| {
      var w := step.worker;
      match step.action {
        case Claim(now, leaseFrom, token) => ClaimStepMoves(cfg, s, w, now, leaseFrom, token);
        case CommitSuccess(value) => CommitSuccessMoves(cfg, s, w, value);
        case CommitFailure(value) => FailuresMove(cfg, s, w, value);
        case CommitRetryable(value) => CommitRetryableMoves(cfg, s, w, value, false);
        case CommitCancelled(value) => CommitRetryableMoves(cfg, s, w, value, true);
        case Dispatch => FailuresMove(cfg, s, w, map[]);
        case RecordPublication => RecordPublicationStepMoves(cfg, s, w);
        case _ => OtherStepsAreLocal(cfg, s, w, step.action);
      }
    }
  }

  lemma RunStep(cfg: Config, run: seq<System>, i: nat) returns (step: Step)
    requires IsRun(cfg, run) && cfg.maxAttempts > 0 && i + 1 < |run|
    ensures Inv(cfg, run[i]) && run[i + 1] == Next(cfg, run[i], step)
    ensures TableMoves(run[i].rows, run[i].clock, run[i + 1].rows) && HistoryGrows(run[i], run[i + 1])
  {
    hide Next, Inv, TableMoves;
    RunKeepsInv(cfg, run, i);
    assert CanStep(cfg, run[i], run[i + 1]);
    step :| run[i + 1] == Next(cfg, run[i], step);
    NextMoves(cfg, run[i], step);
  }

  lemma {:induction false} RunEvolves(cfg: Config, run: seq<System>, i: nat, j: nat)
    requires IsRun(cfg, run) && cfg.maxAttempts > 0 && i <= j < |run|
    ensures TableEvolves(run[i].rows, run[j].rows) && HistoryGrows(run[i], run[j])
    decreases j
  {
    hide Inv, IsRun, RowEvolves, Advances, Latest;
    if i < j {
      RunEvolves(cfg, run, i, j - 1);
      var _ := RunStep(cfg, run, j - 1);
      TableEvolvesTransitive(run[i].rows, run[j - 1].rows, run[j].rows);
    } else {
      TableStays(run[i].rows, 0);
    }
  }

  // ---------- What a step does to its worker and to the grants ----------

  /** A step of worker w that grants nothing and does not decide to retry. */
  predicate Quiet(a: System, b: System, w: nat, key: string)
    requires w < |a.pcs|
  {
    && |b.pcs| == |a.pcs| && b.pcs == a.pcs[w := b.pcs[w]]
    && |Grants(b.grants, key)| == |Grants(a.grants, key)| && (b.pcs[w].Retrying? ==> a.pcs[w].Retrying?)
  }

  /** Only a claim adds a grant, one at a time, at the clock it commits at; only two decisions lead to a retry. */
  predicate Explained(a: System, b: System, w: nat, action: Action, key: string)
    requires w < |a.pcs|
  {
    && |b.pcs| == |a.pcs| && b.pcs == a.pcs[w := b.pcs[w]]
    && (|Grants(b.grants, key)| != |Grants(a.grants, key)| ==>
          && action.Claim? && |Grants(b.grants, key)| == |Grants(a.grants, key)| + 1 && b.clock == a.clock
          && Grants(a.grants, key) <= Grants(b.grants, key))
    && (b.pcs[w].Retrying? && !a.pcs[w].Retrying? ==>
          (action.Dispatch? && a.pcs[w].Settled?) || (action.RecordPublication? && a.pcs[w].Unsent?))
  }

  lemma AfterFinishIsQuiet(s: System, w: nat, job: Job, k: string, outcome: (Table, UpdateOutcome), key: string)
    requires w < |s.pcs|
    ensures Quiet(s, AfterFinish(s, w, job, k, outcome), w, key)
  {}

  lemma FinishFailureIsQuiet(s: System, w: nat, job: Job, record: Row, error: Object, deadLettered: bool, key: string)
    requires w < |s.pcs|
    ensures Quiet(s, FinishFailure(s, w, job, record, error, deadLettered), w, key)
  {}

  lemma RetryableIsQuiet(s: System, w: nat, value: Object, cancelled: bool, key: string)
    requires w < |s.pcs|
    ensures Quiet(s, CommitRetryableStep(s, w, value, cancelled), w, key)
  {
    hide RecordRetryable;
  }

  lemma CommitsAreQuiet(s: System, w: nat, value: Object, key: string)
    requires w < |s.pcs|
    ensures Quiet(s, CommitSuccessStep(s, w, value), w, key) && Quiet(s, CommitFailureStep(s, w, value), w, key)
  {
    hide Finish, AfterFinish, FinishFailure;
    if s.pcs[w].Working? {
      var job, record := s.pcs[w].job, s.pcs[w].record;
      FinishFailureIsQuiet(s, w, job, record, s.pcs[w].verdict.GetOr(value), false, key);
      if record.token.Some? {
        AfterFinishIsQuiet(s, w, job, record.request.key,
          Finish(s.rows, record.request.key, record.token.value, Succeeded, Some(value), None,
                 SuccessOutbound(record.request, value), s.clock), key);
      }
    }
  }

  lemma AfterClaimIsExplained(cfg: Config, s: System, w: nat, job: Job, request: Request,
                              outcome: (Table, ClaimOutcome), lease: Instant, token: Token, verdict: Option<Object>,
                              onConflict: Pc, action: Action, key: string)
    requires w < |s.pcs| && !onConflict.Retrying? && action.Claim?
    ensures Explained(s, AfterClaim(s, w, job, request, outcome, lease, token, verdict, onConflict), w, action, key)
  {
    if outcome.1.Granted? {
      OneGrantMore(s.grants, request.key, Grant(token, lease, false), key);
    }
    hide Grants;
  }

  lemma OneGrantMore(grants: map<string, seq<Grant>>, k: string, g: Grant, key: string)
    ensures
      var before, after := Grants(grants, key), Grants(grants[k := Grants(grants, k) + [g]], key);
      before <= after && |after| == |before| + if k == key then 1 else 0
  {}

  lemma ClaimIsExplained(cfg: Config, s: System, w: nat, now: Instant, leaseFrom: Instant, token: Token, key: string)
    requires w < |s.pcs|
    ensures Explained(s, ClaimStep(cfg, s, w, now, leaseFrom, token), w, Action.Claim(now, leaseFrom, token), key)
  {
    hide OperationStore.Claim, AfterClaim, Explained;
    StaysExplained(s, w, Action.Claim(now, leaseFrom, token), key);
    var lease := leaseFrom + LeaseLength(cfg);
    match s.pcs[w] {
      case Claiming(job) =>
        var request := RequestOf(cfg, job.message.body);
        AfterClaimIsExplained(cfg, s, w, job, request, OperationStore.Claim(s.rows, request, now, lease, token), lease,
                              token, job.message.body.invalid, Conflicted(job), Action.Claim(now, leaseFrom, token), key);
      case ClaimingConflict(job, existing) =>
        var request := ConflictRequest(cfg, existing.request, job.message.body);
        AfterClaimIsExplained(cfg, s, w, job, request, OperationStore.Claim(s.rows, request, now, lease, token), lease,
                              token, Some(ConflictError(existing.request)), Idle,
                              Action.Claim(now, leaseFrom, token), key);
      case _ =>
    }
  }

  lemma StaysExplained(s: System, w: nat, action: Action, key: string)
    requires w < |s.pcs|
    ensures Explained(s, s, w, action, key)
  {}

  lemma DecisionsAreExplained(cfg: Config, s: System, w: nat, key: string)
    requires w < |s.pcs|
    ensures Explained(s, DispatchStep(cfg, s, w), w, Dispatch, key)
    ensures Explained(s, RecordPublicationStep(cfg, s, w), w, RecordPublication, key)
  {
    hide FinishFailure, PublicationUpdate;
    if s.pcs[w].Settled? {
      FinishFailureIsQuiet(s, w, s.pcs[w].job, s.pcs[w].record, Exhausted(s.pcs[w].record.error), true, key);
    }
  }

  lemma StepsAreExplained(cfg: Config, s: System, w: nat, action: Action, key: string)
    requires w < |s.pcs|
    ensures Explained(s, ActStep(cfg, s, w, action), w, action, key)
  {
    hide DeliverStep, GetExistingStep, PollStep, GiveUpStep, PublishStep, CallTransportStep, StartDrainStep;
    hide CommitSuccessStep, CommitFailureStep, CommitRetryableStep, ClaimStep, DispatchStep, RecordPublicationStep;
    match action {
      case Claim(now, leaseFrom, token) => ClaimIsExplained(cfg, s, w, now, leaseFrom, token, key);
      case Dispatch => DecisionsAreExplained(cfg, s, w, key);
      case RecordPublication => DecisionsAreExplained(cfg, s, w, key);
      case CommitSuccess(value) => CommitsAreQuiet(s, w, value, key);
      case CommitFailure(value) => CommitsAreQuiet(s, w, value, key);
      case CommitRetryable(value) => RetryableIsQuiet(s, w, value, false, key);
      case CommitCancelled(value) => RetryableIsQuiet(s, w, value, true, key);
      case _ => OtherStepsAreLocal(cfg, s, w, action);
    }
  }
}
