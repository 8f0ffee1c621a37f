/** Every step of the processing protocol keeps the invariant. */
module ProtocolSteps {
  import opened Wrappers
  import opened JsonValues
  import opened OperationStore
  import opened Outbox
  import opened DocumentProcessing
  import opened ProtocolInvariants

  // ---------- Writing one row ----------

  lemma PutRow(cfg: Config, rows: Table, k: string, row: Row)
    requires TableOk(cfg, rows) && RowOk(cfg, row) && row.request.key == k
    requires if k in rows then RowEvolves(rows[k], row) else !OperationIdTaken(rows, row.request.operationId)
    ensures TableOk(cfg, rows[k := row]) && TableEvolves(rows, rows[k := row])
  {}

  lemma PutGrants(rows: Table, grants: map<string, seq<Grant>>, clock: Instant, tokens: set<Token>,
                  k: string, row: Row, g: seq<Grant>, tokens': set<Token>)
    requires GrantsOk(rows, grants, clock, tokens) && tokens <= tokens' && KeyGrantsOk(row, g, clock, tokens')
    ensures GrantsOk(rows[k := row], grants[k := g], clock, tokens')
  {}

  lemma PutCommits(rows: Table, commits: multiset<string>, k: string, row: Row)
    requires CommitsOk(rows, commits) && row.status.Final() == (k in rows && rows[k].status.Final())
    ensures CommitsOk(rows[k := row], commits)
  {}

  // ---------- Transactions ----------

  lemma ClaimKeepsTable(cfg: Config, rows: Table, request: Request, now: Instant, lease: Instant, token: Token)
    requires TableOk(cfg, rows) && request.operationId == cfg.operationId(request.key)
    ensures
      var (rows', outcome) := OperationStore.Claim(rows, request, now, lease, token);
      && TableOk(cfg, rows') && TableEvolves(rows, rows')
      && (outcome.Granted? || outcome.Observed? ==>
            && request.key in rows' && rows'[request.key] == outcome.record
            && outcome.record.request.fingerprint == request.fingerprint
            && (outcome.Granted? ==> outcome.record.status.Processing?))
  {
    hide UniqueIds, RowOk;
    var (rows', outcome) := OperationStore.Claim(rows, request, now, lease, token);
    if outcome.Granted? {
      GrantedRowOk(cfg, rows, request, now, lease, token);
      PutRow(cfg, rows, request.key, outcome.record);
    }
  }

  lemma GrantedRowOk(cfg: Config, rows: Table, request: Request, now: Instant, lease: Instant, token: Token)
    requires TableOk(cfg, rows) && request.operationId == cfg.operationId(request.key)
    ensures
      var outcome := OperationStore.Claim(rows, request, now, lease, token).1;
      outcome.Granted? ==> RowOk(cfg, outcome.record)
  {}

  /** A grant's predecessor is settled, or its lease ran out before the transaction committed. */
  lemma ClaimKeepsGrants(cfg: Config, rows: Table, request: Request, now: Instant, lease: Instant, token: Token,
                         grants: map<string, seq<Grant>>, clock: Instant, tokens: set<Token>)
    requires TableOk(cfg, rows) && GrantsOk(rows, grants, clock, tokens) && token !in tokens && now <= clock
    ensures
      var (rows', outcome) := OperationStore.Claim(rows, request, now, lease, token);
      outcome.Granted? ==>
        GrantsOk(rows', grants[request.key := Grants(grants, request.key) + [Grant(token, lease, false)]], clock,
                 tokens + {token})
  {
    hide UniqueIds;
    var (rows', outcome) := OperationStore.Claim(rows, request, now, lease, token);
    var key := request.key;
    if outcome.Granted? {
      var g' := Grants(grants, key) + [Grant(token, lease, false)];
      if key in rows {
        assert KeyGrantsOk(rows[key], grants[key], clock, tokens) && RowOk(cfg, rows[key]);
      }
      assert KeyGrantsOk(outcome.record, g', clock, tokens + {token});
      PutGrants(rows, grants, clock, tokens, key, outcome.record, g', tokens + {token});
    }
  }

  lemma ClaimKeepsCommits(rows: Table, request: Request, now: Instant, lease: Instant, token: Token,
                          commits: multiset<string>)
    requires CommitsOk(rows, commits)
    ensures CommitsOk(OperationStore.Claim(rows, request, now, lease, token).0, commits)
  {}

  lemma FinishKeepsTable(cfg: Config, rows: Table, record: Row, status: Status, result: Option<Object>,
                         error: Option<Object>, outbound: Outbound, now: Instant)
    requires TableOk(cfg, rows) && SnapshotOk(cfg, rows, record) && record.token.Some? && status.Final()
    requires result.Some? == status.Succeeded? && error.Some? == !status.Succeeded?
    requires outbound == if status.Succeeded? then SuccessOutbound(record.request, result.value)
                         else FailureOutbound(record.request, error.value)
    ensures
      var (rows', outcome) := Finish(rows, record.request.key, record.token.value, status, result, error, outbound, now);
      && TableOk(cfg, rows') && TableEvolves(rows, rows')
      && (outcome.Updated? ==>
            && rows' == rows[record.request.key := outcome.record]
            && !rows[record.request.key].status.Final() && outcome.record.status.Final()
            && outcome.record.attempts == rows[record.request.key].attempts && outcome.record.token == None
            && outcome.record.request == record.request)
      && (!outcome.Updated? ==> rows' == rows)
  {
    hide UniqueIds;
    var key := record.request.key;
    var (rows', outcome) := Finish(rows, key, record.token.value, status, result, error, outbound, now);
    if outcome.Updated? {
      assert RowOk(cfg, rows[key]);
      PutRow(cfg, rows, key, outcome.record);
    }
  }

  lemma FinishKeepsCommits(rows: Table, commits: multiset<string>, key: string, row: Row)
    requires CommitsOk(rows, commits) && key in rows && !rows[key].status.Final() && row.status.Final()
    ensures CommitsOk(rows[key := row], commits + multiset{key})
  {}

  lemma RetryableKeepsTable(cfg: Config, rows: Table, record: Row, error: Object, now: Instant)
    requires TableOk(cfg, rows) && SnapshotOk(cfg, rows, record) && record.token.Some?
    ensures
      var (rows', outcome) := RecordRetryable(rows, record.request.key, record.token.value, error, now);
      && TableOk(cfg, rows') && TableEvolves(rows, rows')
      && (outcome.Updated? ==>
            && rows' == rows[record.request.key := outcome.record]
            && rows[record.request.key].status.Processing? && outcome.record.status.RetryableFailure?
            && outcome.record.request == record.request && outcome.record.attempts == rows[record.request.key].attempts
            && outcome.record.token == rows[record.request.key].token)
      && (!outcome.Updated? ==> rows' == rows)
  {
    hide UniqueIds;
    var key := record.request.key;
    var (rows', outcome) := RecordRetryable(rows, key, record.token.value, error, now);
    if outcome.Updated? {
      assert RowOk(cfg, rows[key]);
      PutRow(cfg, rows, key, outcome.record);
    }
  }

  /** Committing an outcome or a failure settles the last grant, whose token the row held. */
  lemma SettlingKeepsGrants(rows: Table, key: string, row: Row, grants: map<string, seq<Grant>>,
                            clock: Instant, tokens: set<Token>)
    requires GrantsOk(rows, grants, clock, tokens) && key in rows
    requires row.attempts == rows[key].attempts && row.token in {None, rows[key].token} && !row.status.Processing?
    ensures GrantsOk(rows[key := row], SettleLast(grants, key), clock, tokens)
  {}

  lemma PublicationKeepsTable(cfg: Config, rows: Table, record: Row, published: bool, now: Instant)
    requires TableOk(cfg, rows) && SnapshotOk(cfg, rows, record) && record.publication.Pending?
    ensures
      var (rows', outcome) := PublicationUpdate(rows, record.request.key, published, now);
      && outcome.Updated? && outcome.record.request == record.request
      && TableOk(cfg, rows') && TableEvolves(rows, rows')
      && rows' == rows[record.request.key := outcome.record]
      && outcome.record == PublicationRow(rows[record.request.key], published, now) && outcome.record.status.Final()
  {
    hide UniqueIds;
    var key := record.request.key;
    assert RowOk(cfg, rows[key]);
    PutRow(cfg, rows, key, PublicationRow(rows[key], published, now));
  }

  lemma PublicationKeepsGrants(rows: Table, key: string, published: bool, now: Instant,
                               grants: map<string, seq<Grant>>, clock: Instant, tokens: set<Token>)
    requires GrantsOk(rows, grants, clock, tokens) && key in rows
    ensures GrantsOk(rows[key := PublicationRow(rows[key], published, now)], grants, clock, tokens)
  {
    var row := PublicationRow(rows[key], published, now);
    assert KeyGrantsOk(rows[key], grants[key], clock, tokens);
    PutGrants(rows, grants, clock, tokens, key, row, grants[key], tokens);
    assert grants[key := grants[key]] == grants;
  }

  // ---------- Steps ----------

  lemma CurrentRow(cfg: Config, rows: Table, key: string)
    requires TableOk(cfg, rows) && key in rows
    ensures SnapshotOk(cfg, rows, rows[key]) && rows[key].request.key == key
  {}

  lemma PcOf(cfg: Config, s: System, w: nat)
    requires Inv(cfg, s) && w < |s.pcs|
    ensures PcOk(cfg, s.rows, s.pcs[w])
  {}

  lemma InvTable(cfg: Config, s: System)
    requires Inv(cfg, s)
    ensures TableOk(cfg, s.rows)
  {}

  lemma DeliverKeeps(cfg: Config, s: System, w: nat, index: nat)
    requires Inv(cfg, s) && w < |s.pcs|
    ensures Inv(cfg, DeliverStep(s, w, index))
  {
    hide TableOk, GrantsOk, CommitsOk, PublishedOk, SettlementsOk;
    if s.pcs[w].Idle? && index < |s.sent| {
      var pc := Claiming(Job(s.handlings, s.sent[index]));
      assert MessageOk(cfg, s.rows, s.sent[index]);
      assert TableEvolves(s.rows, s.rows);
      PcsStable(cfg, s.rows, s.rows, s.pcs, w, pc);
      assert HandlingsOk(s.pcs[w := pc], s.settlements, s.handlings + 1);
    }
  }

  /** The request a claim was built from is about the row the message targets. */
  predicate Addresses(cfg: Config, rows: Table, body: Incoming, request: Request) {
    && request.operationId == cfg.operationId(request.key) && request.fingerprint == body.fingerprint
    && (request.key == body.key ||
        (body.key in rows && rows[body.key].request.fingerprint != body.fingerprint &&
         request.key == ConflictKey(body.key, body.fingerprint)))
  }

  /** Whoever is granted or shown a row knows it as the row of its message. */
  lemma ClaimedPcOk(cfg: Config, rows: Table, job: Job, request: Request, now: Instant, lease: Instant, token: Token,
                    verdict: Option<Object>)
    requires TableOk(cfg, rows) && MessageOk(cfg, rows, job.message) && Addresses(cfg, rows, job.message.body, request)
    ensures
      var (rows', outcome) := OperationStore.Claim(rows, request, now, lease, token);
      && (outcome.Granted? ==> PcOk(cfg, rows', Working(job, outcome.record, verdict)))
      && (outcome.Observed? ==> PcOk(cfg, rows, Waiting(job, outcome.record)) && PcOk(cfg, rows, Settled(job, outcome.record)))
      && PcOk(cfg, rows, Idle)
  {
    hide TableOk, TableEvolves;
    var (rows', outcome) := OperationStore.Claim(rows, request, now, lease, token);
    ClaimKeepsTable(cfg, rows, request, now, lease, token);
    PcStable(cfg, rows, rows', Claiming(job));
    if request.key in rows' {
      CurrentRow(cfg, rows', request.key);
    }
    if request.key in rows {
      CurrentRow(cfg, rows, request.key);
    }
  }

  lemma AfterClaimKeeps(cfg: Config, s: System, w: nat, job: Job, request: Request, now: Instant, lease: Instant,
                        token: Token, verdict: Option<Object>, onConflict: Pc)
    requires Inv(cfg, s) && w < |s.pcs| && MessageOk(cfg, s.rows, job.message)
    requires HandlingOf(s.pcs[w]) == Some(job.handling) && HandlingOf(onConflict) in {None, Some(job.handling)}
    requires Addresses(cfg, s.rows, job.message.body, request) && now <= s.clock && token !in s.tokens
    requires request.key in s.rows && s.rows[request.key].request.fingerprint != request.fingerprint ==>
      PcOk(cfg, s.rows, onConflict)
    ensures
      var outcome := OperationStore.Claim(s.rows, request, now, lease, token);
      Inv(cfg, AfterClaim(s, w, job, request, outcome, lease, token, verdict, onConflict))
  {
    hide TableOk, GrantsOk, CommitsOk, HandlingsOk, PcsOk, MessagesOk, PublishedOk, SettlementsOk, TableEvolves;
    var outcome := OperationStore.Claim(s.rows, request, now, lease, token);
    var s' := AfterClaim(s, w, job, request, outcome, lease, token, verdict, onConflict);
    ClaimKeepsTable(cfg, s.rows, request, now, lease, token);
    ClaimedPcOk(cfg, s.rows, job, request, now, lease, token, verdict);
    if outcome.1.Granted? {
      ClaimKeepsGrants(cfg, s.rows, request, now, lease, token, s.grants, s.clock, s.tokens);
      ClaimKeepsCommits(s.rows, request, now, lease, token, s.commits);
      hide OperationStore.Claim, PcOk, MessageOk, Addresses;
      Moved(cfg, s, s', w, s'.pcs[w]);
    } else {
      hide PcOk, MessageOk, Addresses;
      LocalStep(cfg, s, w, s'.pcs[w]);
    }
  }

  lemma FirstClaimKeeps(cfg: Config, s: System, w: nat, job: Job, now: Instant, lease: Instant, token: Token)
    requires Inv(cfg, s) && w < |s.pcs| && s.pcs[w] == Claiming(job) && MessageOk(cfg, s.rows, job.message)
    requires now <= s.clock && token !in s.tokens
    ensures
      var request := RequestOf(cfg, job.message.body);
      Inv(cfg, AfterClaim(s, w, job, request, OperationStore.Claim(s.rows, request, now, lease, token), lease, token,
                          job.message.body.invalid, Conflicted(job)))
  {
    hide Inv, OperationStore.Claim, AfterClaim, MessageOk;
    AfterClaimKeeps(cfg, s, w, job, RequestOf(cfg, job.message.body), now, lease, token, job.message.body.invalid,
                    Conflicted(job));
  }

  lemma ConflictClaimKeeps(cfg: Config, s: System, w: nat, job: Job, existing: Row, now: Instant, lease: Instant,
                           token: Token)
    requires Inv(cfg, s) && w < |s.pcs| && s.pcs[w] == ClaimingConflict(job, existing) && PcOk(cfg, s.rows, s.pcs[w])
    requires now <= s.clock && token !in s.tokens
    ensures
      var request := ConflictRequest(cfg, existing.request, job.message.body);
      Inv(cfg, AfterClaim(s, w, job, request, OperationStore.Claim(s.rows, request, now, lease, token), lease, token,
                          Some(ConflictError(existing.request)), Idle))
  {
    hide Inv, OperationStore.Claim, AfterClaim, MessageOk, RowOk, ConflictError;
    AfterClaimKeeps(cfg, s, w, job, ConflictRequest(cfg, existing.request, job.message.body), now, lease, token,
                    Some(ConflictError(existing.request)), Idle);
  }

  lemma ClaimKeeps(cfg: Config, s: System, w: nat, now: Instant, leaseFrom: Instant, token: Token)
    requires Inv(cfg, s) && w < |s.pcs|
    ensures Inv(cfg, ClaimStep(cfg, s, w, now, leaseFrom, token))
  {
    hide Inv, OperationStore.Claim, AfterClaim, SnapshotOk, MessageOk;
    if now <= leaseFrom <= s.clock && token !in s.tokens {
      var lease := leaseFrom + LeaseLength(cfg);
      PcOf(cfg, s, w);
      if s.pcs[w].Claiming? {
        FirstClaimKeeps(cfg, s, w, s.pcs[w].job, now, lease, token);
      } else if s.pcs[w].ClaimingConflict? {
        ConflictClaimKeeps(cfg, s, w, s.pcs[w].job, s.pcs[w].existing, now, lease, token);
      }
    }
  }

  lemma AfterFinishKeeps(cfg: Config, s: System, w: nat, job: Job, record: Row, status: Status, result: Option<Object>,
                         error: Option<Object>, outbound: Outbound)
    requires Inv(cfg, s) && w < |s.pcs| && HandlingOf(s.pcs[w]) == Some(job.handling)
    requires MessageOk(cfg, s.rows, job.message) && RecordOf(cfg, s.rows, job.message.body, record)
    requires record.token.Some? && status.Final()
    requires result.Some? == status.Succeeded? && error.Some? == !status.Succeeded?
    requires outbound == if status.Succeeded? then SuccessOutbound(record.request, result.value)
                         else FailureOutbound(record.request, error.value)
    ensures
      var outcome := Finish(s.rows, record.request.key, record.token.value, status, result, error, outbound, s.clock);
      Inv(cfg, AfterFinish(s, w, job, record.request.key, outcome))
  {
    hide TableOk, GrantsOk, CommitsOk, HandlingsOk, PcsOk, MessagesOk, PublishedOk, SettlementsOk, TableEvolves;
    var key := record.request.key;
    var outcome := Finish(s.rows, key, record.token.value, status, result, error, outbound, s.clock);
    var s' := AfterFinish(s, w, job, key, outcome);
    FinishKeepsTable(cfg, s.rows, record, status, result, error, outbound, s.clock);
    if outcome.1.Updated? {
      SettlingKeepsGrants(s.rows, key, outcome.1.record, s.grants, s.clock, s.tokens);
      FinishKeepsCommits(s.rows, s.commits, key, outcome.1.record);
      NewRecordOk(cfg, s.rows, s'.rows, job, record);
      hide PcOk, RowOk, RowEvolves, RecordOf, MessageOk;
      Moved(cfg, s, s', w, s'.pcs[w]);
    } else {
      LocalStep(cfg, s, w, Idle);
    }
  }

  lemma CommitsKeep(cfg: Config, s: System, w: nat, value: Object)
    requires Inv(cfg, s) && w < |s.pcs|
    ensures Inv(cfg, CommitSuccessStep(s, w, value)) && Inv(cfg, CommitFailureStep(s, w, value))
  {
    hide Inv, AfterFinish, Finish;
    PcOf(cfg, s, w);
    match s.pcs[w] {
      case Working(job, record, verdict) =>
        var error := verdict.GetOr(value);
        AfterFinishKeeps(cfg, s, w, job, record, Succeeded, Some(value), None, SuccessOutbound(record.request, value));
        AfterFinishKeeps(cfg, s, w, job, record, TerminalFailure, None, Some(error), FailureOutbound(record.request, error));
      case _ =>
    }
  }

  lemma RetryableWorking(cfg: Config, s: System, w: nat, job: Job, record: Row, error: Object, cancelled: bool)
    requires Inv(cfg, s) && w < |s.pcs| && s.pcs[w] == Working(job, record, None) && record.token.Some?
    requires MessageOk(cfg, s.rows, job.message) && RecordOf(cfg, s.rows, job.message.body, record)
    ensures Inv(cfg, CommitRetryableStep(s, w, error, cancelled))
  {
    hide TableOk, GrantsOk, CommitsOk, HandlingsOk, PcsOk, MessagesOk, PublishedOk, SettlementsOk, TableEvolves;
    var key := record.request.key;
    var outcome := RecordRetryable(s.rows, key, record.token.value, error, s.clock);
    var s' := CommitRetryableStep(s, w, error, cancelled);
    RetryableKeepsTable(cfg, s.rows, record, error, s.clock);
    if outcome.1.Updated? {
      SettlingKeepsGrants(s.rows, key, outcome.1.record, s.grants, s.clock, s.tokens);
      PutCommits(s.rows, s.commits, key, outcome.1.record);
      NewRecordOk(cfg, s.rows, s'.rows, job, record);
      hide PcOk, RowOk, RowEvolves, RecordOf, MessageOk;
      Moved(cfg, s, s', w, s'.pcs[w]);
    } else {
      LocalStep(cfg, s, w, Idle);
    }
  }

  /** The worker that wrote its row goes on with the row as it is now. */
  lemma NewRecordOk(cfg: Config, rows: Table, rows': Table, job: Job, record: Row)
    requires TableEvolves(rows, rows') && TableOk(cfg, rows')
    requires MessageOk(cfg, rows, job.message) && RecordOf(cfg, rows, job.message.body, record)
    ensures record.request.key in rows' && PcOk(cfg, rows', Settled(job, rows'[record.request.key]))
  {
    hide UniqueIds, TableOk;
    PcStable(cfg, rows, rows', Waiting(job, record));
    CurrentRow(cfg, rows', record.request.key);
  }

  lemma CommitRetryableKeeps(cfg: Config, s: System, w: nat, error: Object, cancelled: bool)
    requires Inv(cfg, s) && w < |s.pcs|
    ensures Inv(cfg, CommitRetryableStep(s, w, error, cancelled))
  {
    hide Inv, RecordRetryable;
    PcOf(cfg, s, w);
    if s.pcs[w].Working? && s.pcs[w].verdict.None? {
      var job, record := s.pcs[w].job, s.pcs[w].record;
      assert record.token.Some?;
      hide CommitRetryableStep;
      RetryableWorking(cfg, s, w, job, record, error, cancelled);
    }
  }

  /** The decision about a settled record that is not dead-lettered: each way on is safe. */
  lemma DecisionOk(cfg: Config, rows: Table, job: Job, record: Row)
    requires MessageOk(cfg, rows, job.message) && RecordOf(cfg, rows, job.message.body, record)
    ensures job.message.delivery < cfg.maxAttempts ==> PcOk(cfg, rows, Retrying(job))
    ensures record.publication.Pending? ==> PcOk(cfg, rows, Publishing(job, record))
    ensures record.status.Final() && !record.publication.Pending? ==> PcOk(cfg, rows, Acking(job, record))
    ensures !record.status.Final() ==> record.token.Some?
    ensures !record.status.Final() && !record.status.Processing? ==> record.status.RetryableFailure?
  {
    hide RowEvolves;
  }

  lemma DispatchKeeps(cfg: Config, s: System, w: nat)
    requires Inv(cfg, s) && w < |s.pcs|
    ensures Inv(cfg, DispatchStep(cfg, s, w))
  {
    hide Inv, AfterFinish, Finish, ExpectedOutbound;
    PcOf(cfg, s, w);
    if s.pcs[w].Settled? {
      var job, record := s.pcs[w].job, s.pcs[w].record;
      assert MessageOk(cfg, s.rows, job.message) && RecordOf(cfg, s.rows, job.message.body, record);
      DecisionOk(cfg, s.rows, job, record);
      assert PcOk(cfg, s.rows, Idle);
      hide PcOk, MessageOk, RecordOf;
      if record.status.RetryableFailure? && Max(record.attempts, job.message.delivery) >= cfg.maxAttempts {
        var error := Exhausted(record.error);
        AfterFinishKeeps(cfg, s, w, job, record, DeadLettered, None, Some(error), FailureOutbound(record.request, error));
      } else {
        LocalStep(cfg, s, w, DispatchStep(cfg, s, w).pcs[w]);
      }
    }
  }

  lemma PublishedGrows(rows: Table, published: seq<PublishedMessage>, p: PublishedMessage)
    requires PublishedOk(rows, published) && PublicationOk(rows, p)
    ensures PublishedOk(rows, published + [p])
  {}

  lemma PublishKeeps(cfg: Config, s: System, w: nat, accepted: bool, reported: bool)
    requires Inv(cfg, s) && w < |s.pcs|
    ensures Inv(cfg, PublishStep(s, w, accepted, reported))
  {
    hide TableOk, GrantsOk, CommitsOk, HandlingsOk, PcsOk, MessagesOk, PublishedOk, SettlementsOk, TableEvolves;
    var pc := s.pcs[w];
    PcOf(cfg, s, w);
    if pc.Publishing? || pc.Draining? {
      LocalStep(cfg, s, w, PublishStep(s, w, accepted, reported).pcs[w]);
      if pc.Publishing? || pc.page != [] {
        var record := if pc.Publishing? then pc.record else pc.page[0];
        if record.outbound.Some? {
          PublishedGrows(s.rows, s.published, PublicationOf(record));
        }
      }
    }
  }

  /** A publication update from any snapshot of a pending row, and where its worker goes on. */
  lemma PublicationKeeps(cfg: Config, s: System, w: nat, record: Row, published: bool, pc: Pc)
    requires Inv(cfg, s) && w < |s.pcs| && SnapshotOk(cfg, s.rows, record) && record.publication.Pending?
    requires HandlingOf(pc) in {None, HandlingOf(s.pcs[w])}
    requires PcOk(cfg, PublicationUpdate(s.rows, record.request.key, published, s.clock).0, pc)
    ensures Inv(cfg, Goto(s, w, pc).(rows := PublicationUpdate(s.rows, record.request.key, published, s.clock).0))
  {
    hide TableOk, GrantsOk, CommitsOk, HandlingsOk, PcsOk, PcOk, MessagesOk, PublishedOk, SettlementsOk, TableEvolves;
    hide RowOk, RowEvolves;
    var key := record.request.key;
    PublicationKeepsTable(cfg, s.rows, record, published, s.clock);
    PublicationKeepsGrants(s.rows, key, published, s.clock, s.grants, s.clock, s.tokens);
    PutCommits(s.rows, s.commits, key, PublicationRow(s.rows[key], published, s.clock));
    Moved(cfg, s, Goto(s, w, pc).(rows := PublicationUpdate(s.rows, key, published, s.clock).0), w, pc);
  }

  lemma DrainRecordKeeps(cfg: Config, s: System, w: nat, page: seq<Row>, published: bool)
    requires Inv(cfg, s) && w < |s.pcs| && PageOk(cfg, s.rows, page) && page != []
    ensures Inv(cfg, DrainRecord(s, w, page, published))
  {
    hide Inv, TableOk, TableEvolves, RowOk, SnapshotOk, PublicationUpdate;
    InvTable(cfg, s);
    var record := page[0];
    PublicationKeepsTable(cfg, s.rows, record, published, s.clock);
    PcStable(cfg, s.rows, PublicationUpdate(s.rows, record.request.key, published, s.clock).0, Draining(page));
    PublicationKeeps(cfg, s, w, record, published, Draining(page[1..]));
  }

  /** After the update the worker retries while attempts are left, or acknowledges a delivered row. */
  lemma PublicationDecided(cfg: Config, rows: Table, job: Job, record: Row, published: bool, clock: Instant)
    requires TableOk(cfg, rows) && PublishingOk(cfg, rows, job, record)
    ensures
      var (rows', outcome) := PublicationUpdate(rows, record.request.key, published, clock);
      && outcome.Updated?
      && PcOk(cfg, rows', AfterRecording(cfg, job, outcome.record, published))
  {
    var rows' := PublicationUpdate(rows, record.request.key, published, clock).0;
    PublicationKeepsTable(cfg, rows, record, published, clock);
    assert PcOk(cfg, rows, Publishing(job, record));
    PcStable(cfg, rows, rows', Publishing(job, record));
    hide TableOk, TableEvolves;
    CurrentRow(cfg, rows', record.request.key);
  }

  function AfterRecording(cfg: Config, job: Job, record: Row, published: bool): Pc {
    if !published && record.publicationAttempts < cfg.maxAttempts then Retrying(job) else Acking(job, record)
  }

  lemma RecordingStep(cfg: Config, s: System, w: nat, job: Job, record: Row, published: bool)
    requires w < |s.pcs| && s.pcs[w] == (if published then Sent(job, record) else Unsent(job, record))
    ensures
      var (rows, outcome) := PublicationUpdate(s.rows, record.request.key, published, s.clock);
      RecordPublicationStep(cfg, s, w) ==
      if outcome.Updated? then Goto(s, w, AfterRecording(cfg, job, outcome.record, published)).(rows := rows)
      else Goto(s, w, Idle)
  {}

  lemma SentKeeps(cfg: Config, s: System, w: nat, job: Job, record: Row, published: bool)
    requires Inv(cfg, s) && w < |s.pcs| && PublishingOk(cfg, s.rows, job, record)
    requires s.pcs[w] == if published then Sent(job, record) else Unsent(job, record)
    ensures Inv(cfg, RecordPublicationStep(cfg, s, w))
  {
    InvTable(cfg, s);
    PublicationDecided(cfg, s.rows, job, record, published, s.clock);
    RecordingStep(cfg, s, w, job, record, published);
    hide Inv, TableOk, PcOk, RecordPublicationStep;
    var outcome := PublicationUpdate(s.rows, record.request.key, published, s.clock).1;
    PublicationKeeps(cfg, s, w, record, published, AfterRecording(cfg, job, outcome.record, published));
  }

  lemma RecordPublicationKeeps(cfg: Config, s: System, w: nat)
    requires Inv(cfg, s) && w < |s.pcs|
    ensures Inv(cfg, RecordPublicationStep(cfg, s, w))
  {
    hide Inv, DrainRecord;
    var pc := s.pcs[w];
    PcOf(cfg, s, w);
    if pc.Sent? || pc.Unsent? {
      hide RecordPublicationStep;
      SentKeeps(cfg, s, w, pc.job, pc.record, pc.Sent?);
    } else if pc.DrainSent? || pc.DrainUnsent? {
      DrainRecordKeeps(cfg, s, w, pc.page, pc.DrainSent?);
    }
  }

  lemma SettlementsGrow(cfg: Config, rows: Table, settlements: seq<Settlement>, e: Settlement)
    requires SettlementsOk(cfg, rows, settlements) && SettlementOk(cfg, rows, e)
    ensures SettlementsOk(cfg, rows, settlements + [e])
  {}

  lemma MessagesGrow(cfg: Config, rows: Table, sent: seq<Message>, m: Message)
    requires MessagesOk(cfg, rows, sent) && MessageOk(cfg, rows, m)
    ensures MessagesOk(cfg, rows, sent + [m])
  {}

  lemma HandlingEnds(pcs: seq<Pc>, settlements: seq<Settlement>, handlings: nat, w: nat, e: Settlement)
    requires HandlingsOk(pcs, settlements, handlings) && w < |pcs| && HandlingOf(pcs[w]) == Some(e.handling)
    ensures HandlingsOk(pcs[w := Idle], settlements + [e], handlings)
  {}

  lemma CallTransportKeeps(cfg: Config, s: System, w: nat)
    requires Inv(cfg, s) && w < |s.pcs|
    ensures Inv(cfg, CallTransportStep(s, w))
  {
    hide TableOk, GrantsOk, CommitsOk, HandlingsOk, PcsOk, MessagesOk, PublishedOk, SettlementsOk, TableEvolves;
    hide MessageOk, RowOk;
    var pc := s.pcs[w];
    PcOf(cfg, s, w);
    if pc.Retrying? || pc.Acking? {
      LocalStep(cfg, s, w, Idle);
      var e := if pc.Retrying? then Retried(pc.job.handling, pc.job.message)
               else Acked(pc.job.handling, pc.job.message, pc.record.request.key);
      SettlementsGrow(cfg, s.rows, s.settlements, e);
      HandlingEnds(s.pcs, s.settlements, s.handlings, w, e);
      if pc.Retrying? {
        MessagesGrow(cfg, s.rows, s.sent, NextDelivery(pc.job.message));
      }
    }
  }

  lemma StartDrainKeeps(cfg: Config, s: System, w: nat, limit: int)
    requires Inv(cfg, s) && w < |s.pcs|
    ensures Inv(cfg, StartDrainStep(s, w, limit))
  {
    hide Inv, UniqueIds, SnapshotOk;
    InvTable(cfg, s);
    if s.pcs[w].Idle? {
      var keys := FirstPending(s.rows, AtLeastZero(limit));
      var page := Records(s.rows, keys);
      forall i | 0 <= i < |page| ensures SnapshotOk(cfg, s.rows, page[i]) && page[i].publication.Pending? {
        assert keys[i] in keys;
        CurrentRow(cfg, s.rows, keys[i]);
      }
      LocalStep(cfg, s, w, Draining(page));
    }
  }

  lemma LocalStepsKeep(cfg: Config, s: System, w: nat)
    requires Inv(cfg, s) && w < |s.pcs|
    ensures Inv(cfg, GetExistingStep(s, w)) && Inv(cfg, PollStep(s, w)) && Inv(cfg, GiveUpStep(s, w))
    ensures Inv(cfg, Goto(s, w, Idle))
  {
    hide Inv, TableOk, UniqueIds;
    InvTable(cfg, s);
    PcOf(cfg, s, w);
    LocalStep(cfg, s, w, Idle);
    if s.pcs[w].Conflicted? {
      CurrentRow(cfg, s.rows, s.pcs[w].job.message.body.key);
      LocalStep(cfg, s, w, GetExistingStep(s, w).pcs[w]);
    }
    if s.pcs[w].Waiting? {
      LocalStep(cfg, s, w, GiveUpStep(s, w).pcs[w]);
      if PollStep(s, w) != s {
        CurrentRow(cfg, s.rows, s.pcs[w].record.request.key);
        LocalStep(cfg, s, w, PollStep(s, w).pcs[w]);
      }
    }
  }

  lemma SendKeeps(cfg: Config, s: System, body: Incoming)
    requires Inv(cfg, s) && cfg.maxAttempts > 0
    ensures Inv(cfg, s.(sent := s.sent + [Message(body, 1, 0)]))
  {}

  lemma TickKeeps(cfg: Config, s: System, now: Instant)
    requires Inv(cfg, s) && now >= s.clock
    ensures Inv(cfg, s.(clock := now))
  {}

  /** Every step of every worker, the environment and the clock keeps the invariant. */
  lemma NextKeepsInv(cfg: Config, s: System, step: Step)
    requires Inv(cfg, s) && cfg.maxAttempts > 0
    ensures Inv(cfg, Next(cfg, s, step))
  {
    hide Inv, DeliverStep, ClaimStep, GetExistingStep, CommitSuccessStep, CommitFailureStep, CommitRetryableStep;
    hide PollStep, GiveUpStep, DispatchStep, PublishStep, RecordPublicationStep, CallTransportStep, StartDrainStep;
    match step {
      case Act(w, action) =>
        if w < |s.pcs| {
          match action {
            case Deliver(index) => DeliverKeeps(cfg, s, w, index);
            case Claim(now, leaseFrom, token) => ClaimKeeps(cfg, s, w, now, leaseFrom, token);
            case CommitSuccess(output) => CommitsKeep(cfg, s, w, output);
            case CommitFailure(error) => CommitsKeep(cfg, s, w, error);
            case CommitRetryable(error) => CommitRetryableKeeps(cfg, s, w, error, false);
            case CommitCancelled(error) => CommitRetryableKeeps(cfg, s, w, error, true);
            case Dispatch => DispatchKeeps(cfg, s, w);
            case Publish(accepted, reported) => PublishKeeps(cfg, s, w, accepted, reported);
            case RecordPublication => RecordPublicationKeeps(cfg, s, w);
            case CallTransport => CallTransportKeeps(cfg, s, w);
            case StartDrain(limit) => StartDrainKeeps(cfg, s, w, limit);
            case _ => LocalStepsKeep(cfg, s, w);
          }
        }
      case Send(body) =>
        SendKeeps(cfg, s, body);
      case Tick(now) =>
        if now >= s.clock {
          TickKeeps(cfg, s, now);
        }
    }
  }
}
