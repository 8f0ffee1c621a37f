/** What a worker decides in a reachable state, spelled out: the outcome of every claim, commit, dispatch and publication. */
module ProtocolDecisions {
  import opened Wrappers
  import opened JsonValues
  import opened OperationStore
  import opened Outbox
  import opened DocumentProcessing
  import opened ProtocolInvariants
  import opened ProtocolSteps
  import opened ProtocolOrigins
  import opened ProtocolOutcomes

  /** Only worker w and the table move. */
  predicate Moves(a: System, b: System, w: nat, rows: Table, pc: Pc)
    requires w < |a.pcs|
  {
    && b.pcs == a.pcs[w := pc] && b.rows == rows && b.clock == a.clock && b.sent == a.sent
    && b.published == a.published && b.settlements == a.settlements
  }

  lemma ClaimOutcomeIs(cfg: Config, rows: Table, request: Request, now: Instant, lease: Instant, token: Token)
    requires TableOk(cfg, rows)
    ensures
      var (rows', claim) := OperationStore.Claim(rows, request, now, lease, token);
      && (request.key !in rows ==>
            if exists k | k in rows :: rows[k].request.operationId == request.operationId then claim.DuplicateOperationId?
            else claim.Granted?)
      && (request.key in rows ==>
            var row := rows[request.key];
            && (row.status == Processing ==> row.leaseUntil.Some?)
            && if row.request.fingerprint != request.fingerprint then claim.Conflict?
               else if row.status in {Succeeded, TerminalFailure, DeadLettered} then claim == Observed(row)
               else if row.status == Processing && row.leaseUntil.value > now then claim == Observed(row)
               else claim.Granted?)
  {
    hide UniqueIds;
    if request.key in rows {
      assert RowOk(cfg, rows[request.key]);
    }
  }

  /** How the worker goes on by the outcome of its claim. */
  lemma AfterClaimDecides(s: System, w: nat, job: Job, request: Request, outcome: (Table, ClaimOutcome), lease: Instant,
                          token: Token, verdict: Option<Object>, onConflict: Pc)
    requires w < |s.pcs|
    ensures
      var b := AfterClaim(s, w, job, request, outcome, lease, token, verdict, onConflict);
      match outcome.1
      case Granted(_) => true
      case Observed(row) => Moves(s, b, w, s.rows, if row.status == Processing then Waiting(job, row) else Settled(job, row))
      case Conflict => Moves(s, b, w, s.rows, onConflict)
      case DuplicateOperationId => Moves(s, b, w, s.rows, Idle)
  {}

  /** A delivery is a new handling of the message as it was sent. */
  lemma DeliverDecides(cfg: Config, s: System, w: nat, index: nat)
    requires w < |s.pcs| && s.pcs[w] == Idle && index < |s.sent|
    ensures
      var b := Next(cfg, s, Act(w, Deliver(index)));
      Moves(s, b, w, s.rows, Claiming(Job(s.handlings, s.sent[index]))) && b.handlings == s.handlings + 1
  {}

  lemma NextClaim(cfg: Config, s: System, w: nat, job: Job, now: Instant, leaseFrom: Instant, token: Token)
    requires w < |s.pcs| && s.pcs[w] == Claiming(job) && now <= leaseFrom <= s.clock && token !in s.tokens
    ensures
      var request, lease := RequestOf(cfg, job.message.body), leaseFrom + LeaseLength(cfg);
      Next(cfg, s, Act(w, Action.Claim(now, leaseFrom, token))) ==
      AfterClaim(s, w, job, request, OperationStore.Claim(s.rows, request, now, lease, token), lease, token,
                 job.message.body.invalid, Conflicted(job))
  {
    hide AfterClaim, OperationStore.Claim, RequestOf;
  }

  /**
   * A claim for a message: a row that does not fit the request is a conflict, a row with an outcome or a live lease is
   * shown, and otherwise the row is granted.
   */
  lemma ClaimDecides(cfg: Config, s: System, w: nat, job: Job, now: Instant, leaseFrom: Instant, token: Token)
    requires Inv(cfg, s) && w < |s.pcs| && s.pcs[w] == Claiming(job) && job.message in s.sent
    requires now <= leaseFrom <= s.clock && token !in s.tokens
    ensures
      var b, key, body := Next(cfg, s, Act(w, Action.Claim(now, leaseFrom, token))), job.message.body.key, job.message.body;
      if key !in s.rows then
        if exists k | k in s.rows :: s.rows[k].request.operationId == cfg.operationId(key) then Moves(s, b, w, s.rows, Idle)
        else Creates(cfg, s, b, w, key) && b.pcs[w] == Working(job, b.rows[key], body.invalid)
      else if s.rows[key].request.fingerprint != body.fingerprint then Moves(s, b, w, s.rows, Conflicted(job))
      else if s.rows[key].status in {Succeeded, TerminalFailure, DeadLettered} then
        Moves(s, b, w, s.rows, Settled(job, s.rows[key]))
      else if s.rows[key].status == Processing && s.rows[key].leaseUntil.value > now then
        Moves(s, b, w, s.rows, Waiting(job, s.rows[key]))
      else GrantsTo(cfg, s, b, w, key) && b.pcs[w] == Working(job, b.rows[key], body.invalid)
  {
    hide Next, Inv, TableOk, OperationStore.Claim, AfterClaim, GrantedFrom, Moves;
    var request, lease := RequestOf(cfg, job.message.body), leaseFrom + LeaseLength(cfg);
    InvTable(cfg, s);
    NextClaim(cfg, s, w, job, now, leaseFrom, token);
    ClaimOutcomeIs(cfg, s.rows, request, now, lease, token);
    AfterClaimDecides(s, w, job, request, OperationStore.Claim(s.rows, request, now, lease, token), lease, token,
                      job.message.body.invalid, Conflicted(job));
    AfterClaimGrants(cfg, s, w, job, request, now, leaseFrom, token, job.message.body.invalid, Conflicted(job), request.key);
  }

  /** The row of a Conflicted worker's key is read again, and its conflict key is claimed with the conflict as verdict. */
  lemma ConflictDecides(cfg: Config, s: System, w: nat, job: Job)
    requires Inv(cfg, s) && w < |s.pcs| && s.pcs[w] == Conflicted(job)
    ensures job.message.body.key in s.rows
    ensures Moves(s, Next(cfg, s, Act(w, GetExisting)), w, s.rows, ClaimingConflict(job, s.rows[job.message.body.key]))
  {
    hide Inv, RowOk, MessageOk;
    PcOf(cfg, s, w);
  }

  lemma NextConflictClaim(cfg: Config, s: System, w: nat, job: Job, existing: Row, now: Instant, leaseFrom: Instant,
                          token: Token)
    requires w < |s.pcs| && s.pcs[w] == ClaimingConflict(job, existing)
    requires now <= leaseFrom <= s.clock && token !in s.tokens
    ensures
      var request, lease := ConflictRequest(cfg, existing.request, job.message.body), leaseFrom + LeaseLength(cfg);
      Next(cfg, s, Act(w, Action.Claim(now, leaseFrom, token))) ==
      AfterClaim(s, w, job, request, OperationStore.Claim(s.rows, request, now, lease, token), lease, token,
                 Some(ConflictError(existing.request)), Idle)
  {
    hide AfterClaim, OperationStore.Claim, ConflictRequest, ConflictError;
  }

  /**
   * A claim for the conflict key: a row of yet another request ends the handling, a row with an outcome or a live lease
   * is shown, and otherwise the row is granted with the conflict as the verdict.
   */
  lemma ConflictClaimDecides(cfg: Config, s: System, w: nat, job: Job, existing: Row, now: Instant, leaseFrom: Instant,
                             token: Token)
    requires Inv(cfg, s) && w < |s.pcs| && s.pcs[w] == ClaimingConflict(job, existing) && job.message in s.sent
    requires now <= leaseFrom <= s.clock && token !in s.tokens
    ensures job.message.body.key in s.rows
    ensures
      var b, body := Next(cfg, s, Act(w, Action.Claim(now, leaseFrom, token))), job.message.body;
      var key := body.key + ":conflict:" + body.fingerprint[..if |body.fingerprint| < 24 then |body.fingerprint| else 24];
      var verdict := Some(NamingConflict(s.rows[body.key].request));
      if key !in s.rows then
        if exists k | k in s.rows :: s.rows[k].request.operationId == cfg.operationId(key) then Moves(s, b, w, s.rows, Idle)
        else Creates(cfg, s, b, w, key) && b.pcs[w] == Working(job, b.rows[key], verdict)
      else if s.rows[key].request.fingerprint != body.fingerprint then Moves(s, b, w, s.rows, Idle)
      else if s.rows[key].status in {Succeeded, TerminalFailure, DeadLettered} then
        Moves(s, b, w, s.rows, Settled(job, s.rows[key]))
      else if s.rows[key].status == Processing && s.rows[key].leaseUntil.value > now then
        Moves(s, b, w, s.rows, Waiting(job, s.rows[key]))
      else GrantsTo(cfg, s, b, w, key) && b.pcs[w] == Working(job, b.rows[key], verdict)
  {
    hide Next, Inv, TableOk, OperationStore.Claim, AfterClaim, GrantedFrom, Moves, PcOk, ConflictError, NamingConflict;
    var request, lease := ConflictRequest(cfg, existing.request, job.message.body), leaseFrom + LeaseLength(cfg);
    InvTable(cfg, s);
    PcOf(cfg, s, w);
    ExistingRequest(cfg, s.rows, s.pcs[w]);
    assert ConflictingRequest(cfg, job.message.body, existing.request, request);
    ConflictIsNamed(existing.request);
    NextConflictClaim(cfg, s, w, job, existing, now, leaseFrom, token);
    ClaimOutcomeIs(cfg, s.rows, request, now, lease, token);
    AfterClaimDecides(s, w, job, request, OperationStore.Claim(s.rows, request, now, lease, token), lease, token,
                      Some(ConflictError(existing.request)), Idle);
    AfterClaimGrants(cfg, s, w, job, request, now, leaseFrom, token, Some(ConflictError(existing.request)), Idle, request.key);
  }

  lemma FinishDecides(s: System, w: nat, job: Job, record: Row, status: Status, result: Option<Object>,
                      error: Option<Object>, outbound: Outbound)
    requires w < |s.pcs| && record.token.Some? && status.Final()
    ensures
      var key := record.request.key;
      var b := AfterFinish(s, w, job, key,
                           Finish(s.rows, key, record.token.value, status, result, error, outbound, s.clock));
      if key in s.rows && s.rows[key].token == record.token
         && s.rows[key].status == (if status == DeadLettered then RetryableFailure else Processing)
      then b.commits[key] != s.commits[key]
      else Moves(s, b, w, s.rows, Idle)
  {}

  lemma FailureDecides(s: System, w: nat, job: Job, record: Row, error: Object, deadLettered: bool)
    requires w < |s.pcs| && record.token.Some?
    ensures
      var key, b := record.request.key, FinishFailure(s, w, job, record, error, deadLettered);
      if key in s.rows && s.rows[key].token == record.token
         && s.rows[key].status == (if deadLettered then RetryableFailure else Processing)
      then b.commits[key] != s.commits[key]
      else Moves(s, b, w, s.rows, Idle)
  {
    hide AfterFinish, Finish, FailureOutbound, Moves;
    FinishDecides(s, w, job, record, if deadLettered then DeadLettered else TerminalFailure, None, Some(error),
                  FailureOutbound(record.request, error));
  }

  lemma RetryableDecides(s: System, w: nat, job: Job, record: Row, value: Object, cancelled: bool)
    requires w < |s.pcs| && s.pcs[w] == Working(job, record, None) && record.token.Some?
    ensures
      var key, b := record.request.key, CommitRetryableStep(s, w, value, cancelled);
      if key in s.rows && s.rows[key].token == record.token && s.rows[key].status == Processing then
        && key in b.rows
        && Moves(s, b, w, s.rows[key := b.rows[key]], if cancelled then Idle else Settled(job, b.rows[key]))
        && var row := s.rows[key];
           b.rows[key] == Row(row.request, RetryableFailure, row.attempts, row.token, None, row.createdAt, s.clock, row.result,
                              Some(value), row.publication, row.publicationAttempts, row.outbound)
      else Moves(s, b, w, s.rows, Idle)
  {}

  lemma WorkingRow(cfg: Config, s: System, w: nat)
    requires Inv(cfg, s) && w < |s.pcs| && s.pcs[w].Working?
    ensures s.pcs[w].record.token.Some? && s.pcs[w].record.request.key in s.rows
    ensures
      var row := s.rows[s.pcs[w].record.request.key];
      row.status == Processing ==> row.result.None? && row.outbound.None? && row.publication.Unpublished?
  {
    hide TableOk, UniqueIds, GrantsOk, CommitsOk, HandlingsOk, MessagesOk, PublishedOk, SettlementsOk;
    PcOf(cfg, s, w);
    InvTable(cfg, s);
    CurrentRow(cfg, s.rows, s.pcs[w].record.request.key);
  }

  lemma NextCommits(cfg: Config, s: System, w: nat, value: Object)
    requires w < |s.pcs|
    ensures Next(cfg, s, Act(w, CommitSuccess(value))) == CommitSuccessStep(s, w, value)
    ensures Next(cfg, s, Act(w, CommitFailure(value))) == CommitFailureStep(s, w, value)
    ensures Next(cfg, s, Act(w, CommitRetryable(value))) == CommitRetryableStep(s, w, value, false)
    ensures Next(cfg, s, Act(w, CommitCancelled(value))) == CommitRetryableStep(s, w, value, true)
    ensures Next(cfg, s, Act(w, Dispatch)) == DispatchStep(cfg, s, w)
  {
    hide CommitSuccessStep, CommitFailureStep, CommitRetryableStep, DispatchStep;
  }

  /** An owner whose token the row still carries commits what it came to; any other owner's commit changes nothing. */
  lemma CommitDecides(cfg: Config, s: System, w: nat, job: Job, record: Row, verdict: Option<Object>, value: Object)
    requires Inv(cfg, s) && w < |s.pcs| && s.pcs[w] == Working(job, record, verdict)
    ensures
      var key := record.request.key;
      var success := Next(cfg, s, Act(w, CommitSuccess(value)));
      var failure := Next(cfg, s, Act(w, CommitFailure(value)));
      && key in s.rows
      && if s.rows[key].token == record.token && s.rows[key].status == Processing then
           && (verdict.None? ==> Ends(cfg, s, success, w, CommitSuccess(value), key))
           && Ends(cfg, s, failure, w, CommitFailure(value), key)
         else
           (verdict.None? ==> Moves(s, success, w, s.rows, Idle)) && Moves(s, failure, w, s.rows, Idle)
  {
    hide Inv, Next, FinishFailure, AfterFinish, Finish, SuccessOutbound, FailureOutbound, Ends, Moves;
    WorkingRow(cfg, s, w);
    NextCommits(cfg, s, w, value);
    SuccessEnds(cfg, s, w, value, record.request.key);
    FailureEnds(cfg, s, w, value, record.request.key);
    FinishDecides(s, w, job, record, Succeeded, Some(value), None, SuccessOutbound(record.request, value));
    FailureDecides(s, w, job, record, verdict.GetOr(value), false);
  }

  /**
   * An owner without a verdict whose token the row still carries records a failure that may be retried, keeping the
   * token; a cancelled one does the same and ends. Any other owner's failure changes nothing.
   */
  lemma FailureIsRecorded(cfg: Config, s: System, w: nat, job: Job, record: Row, value: Object, cancelled: bool)
    requires Inv(cfg, s) && w < |s.pcs| && s.pcs[w] == Working(job, record, None)
    ensures
      var key := record.request.key;
      var b := Next(cfg, s, Act(w, if cancelled then CommitCancelled(value) else CommitRetryable(value)));
      && key in s.rows
      && if s.rows[key].token == record.token && s.rows[key].status == Processing then
           && key in b.rows
           && Moves(s, b, w, s.rows[key := b.rows[key]], if cancelled then Idle else Settled(job, b.rows[key]))
           && var row := s.rows[key];
              b.rows[key] == Row(row.request, RetryableFailure, row.attempts, row.token, None, row.createdAt, s.clock, None,
                                 Some(value), Unpublished, row.publicationAttempts, None)
         else Moves(s, b, w, s.rows, Idle)
  {
    hide Inv, Next, CommitRetryableStep, Moves;
    WorkingRow(cfg, s, w);
    NextCommits(cfg, s, w, value);
    RetryableDecides(s, w, job, record, value, cancelled);
  }

  /**
   * The decision about a settled record: retry an unfinished row while deliveries are left and leave it otherwise; retry
   * a failure while both attempts and deliveries are left and dead-letter it otherwise; publish a pending result;
   * acknowledge a published one.
   */
  lemma DispatchDecides(cfg: Config, s: System, w: nat, job: Job, record: Row)
    requires Inv(cfg, s) && w < |s.pcs| && s.pcs[w] == Settled(job, record)
    ensures
      var b, key := Next(cfg, s, Act(w, Dispatch)), record.request.key;
      var again := job.message.delivery < cfg.maxAttempts;
      match record.status
      case Processing => Moves(s, b, w, s.rows, if again then Retrying(job) else Idle)
      case RetryableFailure =>
        && key in s.rows
        && if again && record.attempts < cfg.maxAttempts then Moves(s, b, w, s.rows, Retrying(job))
           else if s.rows[key].token == record.token && s.rows[key].status == RetryableFailure then
             Ends(cfg, s, b, w, Dispatch, key)
           else Moves(s, b, w, s.rows, Idle)
      case _ => Moves(s, b, w, s.rows, if record.publication == Published then Acking(job, record) else Publishing(job, record))
  {
    hide Inv, Next, FinishFailure, FailureOutbound, Ends;
    SettledRow(cfg, s, w);
    NextCommits(cfg, s, w, map[]);
    DispatchEnds(cfg, s, w, record.request.key);
    if record.status == RetryableFailure {
      FailureDecides(s, w, job, record, Exhausted(record.error), true);
    }
    hide Exhausted;
  }

  lemma SettledRow(cfg: Config, s: System, w: nat)
    requires Inv(cfg, s) && w < |s.pcs| && s.pcs[w].Settled?
    ensures
      var record := s.pcs[w].record;
      && record.request.key in s.rows && !record.status.Received? && (record.status == RetryableFailure ==> record.token.Some?)
      && (record.status.Final() ==> !record.publication.Unpublished?)
  {
    hide TableOk, GrantsOk, CommitsOk, HandlingsOk, MessagesOk, PublishedOk, SettlementsOk;
    PcOf(cfg, s, w);
  }

  /** The worker learns what the broker did with its message, or an error although the broker took it. */
  lemma PublishDecides(cfg: Config, s: System, w: nat, accepted: bool, reported: bool)
    requires Inv(cfg, s) && w < |s.pcs| && (s.pcs[w].Publishing? || (s.pcs[w].Draining? && s.pcs[w].page != []))
    ensures
      var b, pc := Next(cfg, s, Act(w, Publish(accepted, reported))), s.pcs[w];
      var record := if pc.Publishing? then pc.record else pc.page[0];
      && record.outbound.Some?
      && b.published == s.published + (if accepted then [PublishedMessage(record.request.key, record.outbound.value,
                                                                          record.request.metadata)] else [])
      && Moves(s, b.(published := s.published), w, s.rows,
               if pc.Publishing? then if accepted && reported then Sent(pc.job, record) else Unsent(pc.job, record)
               else if accepted && reported then DrainSent(pc.page) else DrainUnsent(pc.page))
  {
    hide Inv, Next;
    PendingRow(cfg, s, w);
    NextPublications(cfg, s, w, accepted, reported);
  }

  /** The row a worker is about to publish, or has just tried to publish, is final and complete. */
  lemma PendingRow(cfg: Config, s: System, w: nat)
    requires Inv(cfg, s) && w < |s.pcs|
    ensures
      var pc := s.pcs[w];
      && (pc.Publishing? || pc.Sent? || pc.Unsent? ==> Complete(s.rows, pc.record))
      && (pc.DrainSent? || pc.DrainUnsent? ==> pc.page != [])
      && (InPage(pc) && pc.page != [] ==> Complete(s.rows, pc.page[0]))
  {
    hide TableOk, GrantsOk, CommitsOk, HandlingsOk, MessagesOk, PublishedOk, SettlementsOk, PcsOk, MessageOk;
    PcOf(cfg, s, w);
  }

  predicate InPage(pc: Pc) {
    pc.Draining? || pc.DrainSent? || pc.DrainUnsent?
  }

  predicate Complete(rows: Table, record: Row) {
    record.outbound.Some? && record.request.key in rows && rows[record.request.key].token.None?
    && rows[record.request.key].leaseUntil.None?
  }

  lemma NextPublications(cfg: Config, s: System, w: nat, accepted: bool, reported: bool)
    requires w < |s.pcs|
    ensures Next(cfg, s, Act(w, Publish(accepted, reported))) == PublishStep(s, w, accepted, reported)
    ensures Next(cfg, s, Act(w, RecordPublication)) == RecordPublicationStep(cfg, s, w)
  {
    hide PublishStep, RecordPublicationStep;
  }

  lemma NextCalls(cfg: Config, s: System, w: nat)
    requires w < |s.pcs|
    ensures Next(cfg, s, Act(w, CallTransport)) == CallTransportStep(s, w)
    ensures Next(cfg, s, Act(w, Poll)) == PollStep(s, w) && Next(cfg, s, Act(w, GiveUpWaiting)) == GiveUpStep(s, w)
  {
    hide CallTransportStep, PollStep, GiveUpStep;
  }

  /**
   * What became of a publication is written on the row; after a failed one the worker retries while publication
   * attempts are left, and acknowledges otherwise. A drain goes on with its next row.
   */
  lemma RecordDecides(cfg: Config, s: System, w: nat)
    requires Inv(cfg, s) && w < |s.pcs|
    requires s.pcs[w].Sent? || s.pcs[w].Unsent? || s.pcs[w].DrainSent? || s.pcs[w].DrainUnsent?
    ensures
      var b, pc := Next(cfg, s, Act(w, RecordPublication)), s.pcs[w];
      var taken, page := pc.Sent? || pc.DrainSent?, if pc.DrainSent? || pc.DrainUnsent? then pc.page else [];
      && (pc.DrainSent? || pc.DrainUnsent? ==> page != [])
      && var key := if page == [] then pc.record.request.key else page[0].request.key;
         && key in s.rows && key in b.rows
         && Moves(s, b, w, s.rows[key := b.rows[key]],
                  if page != [] then Draining(page[1..])
                  else if !taken && b.rows[key].publicationAttempts < cfg.maxAttempts then Retrying(pc.job)
                  else Acking(pc.job, b.rows[key]))
         && var row := s.rows[key];
            b.rows[key] == Row(row.request, row.status, row.attempts, None, None, row.createdAt, s.clock, row.result,
                               row.error, if taken then Published else row.publication,
                               row.publicationAttempts + (if taken then 0 else 1), row.outbound)
  {
    hide Inv, Next;
    PendingRow(cfg, s, w);
    NextPublications(cfg, s, w, false, false);
  }

  /** A retry puts the message back with one more delivery; an acknowledgement names the row it rests on. */
  lemma TransportDecides(cfg: Config, s: System, w: nat)
    requires Inv(cfg, s) && w < |s.pcs| && (s.pcs[w].Retrying? || s.pcs[w].Acking?)
    ensures
      var b, pc := Next(cfg, s, Act(w, CallTransport)), s.pcs[w];
      var m := pc.job.message;
      && Moves(s, b.(sent := s.sent, settlements := s.settlements), w, s.rows, Idle)
      && b.sent == s.sent + (if pc.Retrying? then [Message(m.body, m.delivery + 1, m.retries + 1)] else [])
      && b.settlements == s.settlements +
           [if pc.Retrying? then Retried(pc.job.handling, m) else Acked(pc.job.handling, m, pc.record.request.key)]
  {
    hide Inv, Next;
    NextCalls(cfg, s, w);
  }

  /** A duplicate waits until the row is settled and then goes on with it. */
  lemma PollDecides(cfg: Config, s: System, w: nat, job: Job, record: Row)
    requires Inv(cfg, s) && w < |s.pcs| && s.pcs[w] == Waiting(job, record)
    ensures
      var b, key := Next(cfg, s, Act(w, Poll)), record.request.key;
      && key in s.rows
      && Moves(s, b, w, s.rows,
               if s.rows[key].status == Processing then Waiting(job, record) else Settled(job, s.rows[key]))
      && Moves(s, Next(cfg, s, Act(w, GiveUpWaiting)), w, s.rows, Settled(job, record))
  {
    hide Inv, Next;
    WaitingRow(cfg, s, w);
    NextCalls(cfg, s, w);
  }

  lemma WaitingRow(cfg: Config, s: System, w: nat)
    requires Inv(cfg, s) && w < |s.pcs| && s.pcs[w].Waiting?
    ensures s.pcs[w].record.request.key in s.rows
  {
    hide TableOk, GrantsOk, CommitsOk, HandlingsOk, MessagesOk, PublishedOk, SettlementsOk, MessageOk, RowOk;
    PcOf(cfg, s, w);
  }
}
