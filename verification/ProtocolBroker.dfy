/** What the rows say about publication, the broker's log confirms: nothing is marked published that was not sent. */
module ProtocolBroker {
  import opened Wrappers
  import opened JsonValues
  import opened OperationStore
  import opened Outbox
  import opened DocumentProcessing
  import opened ProtocolInvariants
  import opened ProtocolSteps
  import opened ProtocolMoves

  ghost predicate Logged(published: seq<PublishedMessage>, key: string) {
    exists n | 0 <= n < |published| :: published[n].key == key
  }

  /** Every row marked published has a message on the broker. */
  ghost predicate RowsLogged(rows: Table, published: seq<PublishedMessage>) {
    forall k | k in rows && rows[k].publication.Published? :: Logged(published, k)
  }

  /** So has the row that a worker is about to mark. */
  ghost predicate PcLogged(pc: Pc, published: seq<PublishedMessage>) {
    && (pc.Sent? ==> Logged(published, pc.record.request.key))
    && (pc.DrainSent? && pc.page != [] ==> Logged(published, pc.page[0].request.key))
  }

  ghost predicate BrokerOk(s: System) {
    RowsLogged(s.rows, s.published) && forall w | 0 <= w < |s.pcs| :: PcLogged(s.pcs[w], s.published)
  }

  /** A table step that marks nothing new. */
  ghost predicate MarksNothing(a: Table, b: Table) {
    forall k | k in b && b[k].publication.Published? :: k in a && a[k].publication.Published?
  }

  lemma LogGrows(a: seq<PublishedMessage>, b: seq<PublishedMessage>, key: string)
    requires a <= b && Logged(a, key)
    ensures Logged(b, key)
  {
    var n :| 0 <= n < |a| && a[n].key == key;
    assert b[n].key == key;
  }

  /** A step of one worker that marks at most rows on the log, and leaves the worker where it knows the same. */
  lemma StepKeepsBroker(a: System, b: System, w: nat)
    requires BrokerOk(a) && w < |a.pcs| && |b.pcs| == |a.pcs| && b.pcs == a.pcs[w := b.pcs[w]]
    requires a.published <= b.published && PcLogged(b.pcs[w], b.published)
    requires forall k | k in b.rows && b.rows[k].publication.Published? ::
               (k in a.rows && a.rows[k].publication.Published?) || Logged(b.published, k)
    ensures BrokerOk(b)
  {
    hide Logged;
    forall k | Logged(a.published, k) ensures Logged(b.published, k) {
      LogGrows(a.published, b.published, k);
    }
  }

  /** A step that sends nothing, marks nothing and does not lead to a mark. */
  ghost predicate Silent(a: System, b: System, w: nat)
    requires w < |a.pcs|
  {
    && b.published == a.published && MarksNothing(a.rows, b.rows) && w < |b.pcs|
    && (b.pcs[w] == a.pcs[w] || !(b.pcs[w].Sent? || b.pcs[w].DrainSent?))
  }

  lemma ClaimMarksNothing(rows: Table, request: Request, now: Instant, lease: Instant, token: Token)
    ensures MarksNothing(rows, OperationStore.Claim(rows, request, now, lease, token).0)
  {}

  lemma AfterClaimIsSilent(s: System, w: nat, job: Job, request: Request, outcome: (Table, ClaimOutcome), lease: Instant,
                           token: Token, verdict: Option<Object>, onConflict: Pc)
    requires w < |s.pcs| && MarksNothing(s.rows, outcome.0) && !onConflict.Sent? && !onConflict.DrainSent?
    ensures Silent(s, AfterClaim(s, w, job, request, outcome, lease, token, verdict, onConflict), w)
  {
    NothingIsMarked(s.rows);
    hide MarksNothing;
  }

  lemma ClaimIsSilent(cfg: Config, s: System, w: nat, now: Instant, leaseFrom: Instant, token: Token)
    requires w < |s.pcs|
    ensures Silent(s, ClaimStep(cfg, s, w, now, leaseFrom, token), w)
  {
    hide OperationStore.Claim, AfterClaim, MarksNothing;
    var lease := leaseFrom + LeaseLength(cfg);
    NothingIsMarked(s.rows);
    match s.pcs[w] {
      case Claiming(job) =>
        var request := RequestOf(cfg, job.message.body);
        ClaimMarksNothing(s.rows, request, now, lease, token);
        AfterClaimIsSilent(s, w, job, request, OperationStore.Claim(s.rows, request, now, lease, token), lease, token,
                           job.message.body.invalid, Conflicted(job));
      case ClaimingConflict(job, existing) =>
        var request := ConflictRequest(cfg, existing.request, job.message.body);
        ClaimMarksNothing(s.rows, request, now, lease, token);
        AfterClaimIsSilent(s, w, job, request, OperationStore.Claim(s.rows, request, now, lease, token), lease, token,
                           Some(ConflictError(existing.request)), Idle);
      case _ =>
    }
  }

  lemma NothingIsMarked(rows: Table)
    ensures MarksNothing(rows, rows)
  {}

  lemma AfterFinishIsSilent(s: System, w: nat, job: Job, key: string, token: Token, status: Status, result: Option<Object>,
                            error: Option<Object>, outbound: Outbound)
    requires w < |s.pcs| && status.Final()
    ensures Silent(s, AfterFinish(s, w, job, key, Finish(s.rows, key, token, status, result, error, outbound, s.clock)), w)
  {}

  lemma FinishFailureIsSilent(s: System, w: nat, job: Job, record: Row, error: Object, deadLettered: bool)
    requires w < |s.pcs|
    ensures Silent(s, FinishFailure(s, w, job, record, error, deadLettered), w)
  {
    hide AfterFinish, Finish;
    if record.token.Some? {
      AfterFinishIsSilent(s, w, job, record.request.key, record.token.value,
                          if deadLettered then DeadLettered else TerminalFailure, None, Some(error),
                          FailureOutbound(record.request, error));
    }
  }

  lemma RetryableIsSilent(s: System, w: nat, value: Object, cancelled: bool)
    requires w < |s.pcs|
    ensures Silent(s, CommitRetryableStep(s, w, value, cancelled), w)
  {}

  lemma CommitsAreSilent(s: System, w: nat, value: Object)
    requires w < |s.pcs|
    ensures Silent(s, CommitSuccessStep(s, w, value), w)
    ensures Silent(s, CommitFailureStep(s, w, value), w)
  {
    hide AfterFinish, Finish, FinishFailure;
    if s.pcs[w].Working? {
      var job, record := s.pcs[w].job, s.pcs[w].record;
      FinishFailureIsSilent(s, w, job, record, s.pcs[w].verdict.GetOr(value), false);
      if record.token.Some? {
        AfterFinishIsSilent(s, w, job, record.request.key, record.token.value, Succeeded, Some(value), None,
                            SuccessOutbound(record.request, value));
      }
    }
  }

  lemma DispatchIsSilent(cfg: Config, s: System, w: nat)
    requires w < |s.pcs|
    ensures Silent(s, DispatchStep(cfg, s, w), w)
  {
    hide FinishFailure;
    if s.pcs[w].Settled? {
      FinishFailureIsSilent(s, w, s.pcs[w].job, s.pcs[w].record, Exhausted(s.pcs[w].record.error), true);
    }
  }

  lemma OthersAreSilent(s: System, w: nat, index: nat, limit: int)
    requires w < |s.pcs|
    ensures Silent(s, DeliverStep(s, w, index), w) && Silent(s, GetExistingStep(s, w), w)
    ensures Silent(s, PollStep(s, w), w) && Silent(s, GiveUpStep(s, w), w) && Silent(s, CallTransportStep(s, w), w)
    ensures Silent(s, StartDrainStep(s, w, limit), w) && Silent(s, Goto(s, w, Idle), w)
  {
    NothingIsMarked(s.rows);
    hide FirstPending, UniqueIds, MarksNothing;
  }

  /** Only a message the broker took leads to a mark. */
  lemma PublishKeepsBroker(s: System, w: nat, accepted: bool, reported: bool)
    requires BrokerOk(s) && w < |s.pcs|
    ensures BrokerOk(PublishStep(s, w, accepted, reported))
  {
    hide Logged;
    var pc := s.pcs[w];
    assert PcLogged(pc, s.published);
    if pc.Publishing? && pc.record.outbound.Some? {
      Appended(s.published, PublicationOf(pc.record));
    } else if pc.Draining? && pc.page != [] && pc.page[0].outbound.Some? {
      Appended(s.published, PublicationOf(pc.page[0]));
    }
    StepKeepsBroker(s, PublishStep(s, w, accepted, reported), w);
  }

  lemma Appended(published: seq<PublishedMessage>, p: PublishedMessage)
    ensures Logged(published + [p], p.key)
  {
    assert (published + [p])[|published|] == p;
  }

  lemma DrainRecordKeepsBroker(s: System, w: nat, page: seq<Row>, published: bool)
    requires BrokerOk(s) && w < |s.pcs| && page != [] && (published ==> Logged(s.published, page[0].request.key))
    ensures BrokerOk(DrainRecord(s, w, page, published))
  {
    hide Logged, BrokerOk;
    StepKeepsBroker(s, DrainRecord(s, w, page, published), w);
  }

  lemma RecordPublicationKeepsBroker(cfg: Config, s: System, w: nat)
    requires BrokerOk(s) && w < |s.pcs|
    ensures BrokerOk(RecordPublicationStep(cfg, s, w))
  {
    var pc := s.pcs[w];
    assert PcLogged(pc, s.published);
    hide Logged, BrokerOk;
    if (pc.DrainSent? || pc.DrainUnsent?) && pc.page != [] {
      hide DrainRecord;
      DrainRecordKeepsBroker(s, w, pc.page, pc.DrainSent?);
    } else {
      StepKeepsBroker(s, RecordPublicationStep(cfg, s, w), w);
    }
  }

  lemma ActIsSilent(cfg: Config, s: System, w: nat, action: Action)
    requires w < |s.pcs| && !action.Publish? && !action.RecordPublication?
    ensures Silent(s, ActStep(cfg, s, w, action), w)
  {
    hide Silent, DeliverStep, GetExistingStep, PollStep, GiveUpStep, CallTransportStep, StartDrainStep, Goto;
    hide CommitSuccessStep, CommitFailureStep, CommitRetryableStep, ClaimStep, DispatchStep;
    OthersAreSilent(s, w, if action.Deliver? then action.index else 0, if action.StartDrain? then action.limit else 0);
    if action.Claim? {
      ClaimIsSilent(cfg, s, w, action.now, action.leaseFrom, action.token);
    } else if action.CommitSuccess? {
      CommitsAreSilent(s, w, action.output);
    } else if action.CommitFailure? {
      CommitsAreSilent(s, w, action.error);
    } else if action.CommitRetryable? || action.CommitCancelled? {
      RetryableIsSilent(s, w, action.error, action.CommitCancelled?);
    } else if action.Dispatch? {
      DispatchIsSilent(cfg, s, w);
    }
  }

  lemma ActKeepsBroker(cfg: Config, s: System, w: nat, action: Action)
    requires BrokerOk(s) && w < |s.pcs|
    ensures BrokerOk(ActStep(cfg, s, w, action))
  {
    if action.Publish? {
      hide BrokerOk, PublishStep;
      PublishKeepsBroker(s, w, action.accepted, action.reported);
    } else if action.RecordPublication? {
      hide BrokerOk, RecordPublicationStep;
      RecordPublicationKeepsBroker(cfg, s, w);
    } else {
      hide ActStep, Logged;
      ActIsSilent(cfg, s, w, action);
      StepsAreExplained(cfg, s, w, action, "");
      StepKeepsBroker(s, ActStep(cfg, s, w, action), w);
    }
  }

  lemma NextKeepsBroker(cfg: Config, s: System, step: Step)
    requires BrokerOk(s)
    ensures BrokerOk(Next(cfg, s, step))
  {
    hide ActStep, Logged;
    if step.Act? && step.worker < |s.pcs| {
      ActKeepsBroker(cfg, s, step.worker, step.action);
    }
  }

  lemma {:induction false} RunKeepsBroker(cfg: Config, run: seq<System>, i: nat)
    requires IsRun(cfg, run) && cfg.maxAttempts > 0 && i < |run|
    ensures BrokerOk(run[i])
    decreases i
  {
    hide Next, Inv, TableMoves, HistoryGrows;
    if i > 0 {
      RunKeepsBroker(cfg, run, i - 1);
      var step := RunStep(cfg, run, i - 1);
      NextKeepsBroker(cfg, run[i - 1], step);
    }
  }

  /** In every state of every run a row marked published has its own message, header for header, on the broker. */
  lemma PublishedWasSent(cfg: Config, run: seq<System>, i: nat, key: string) returns (n: nat)
    requires IsRun(cfg, run) && cfg.maxAttempts > 0 && i < |run|
    requires key in run[i].rows && run[i].rows[key].publication.Published?
    ensures n < |run[i].published| && run[i].rows[key].outbound.Some?
    ensures run[i].published[n] == PublicationOf(run[i].rows[key])
  {
    hide IsRun, GrantsOk, HandlingsOk, PcsOk, MessagesOk, CommitsOk, UniqueIds, SettlementsOk;
    RunKeepsBroker(cfg, run, i);
    RunKeepsInv(cfg, run, i);
    assert Logged(run[i].published, key);
    n :| n < |run[i].published| && run[i].published[n].key == key;
    assert PublicationOk(run[i].rows, run[i].published[n]);
    CurrentRow(cfg, run[i].rows, key);
  }
}
