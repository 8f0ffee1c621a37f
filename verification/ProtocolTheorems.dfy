/** What the processing protocol guarantees over whole runs. */
module ProtocolTheorems {
  import opened Wrappers
  import opened JsonValues
  import opened OperationStore
  import opened Outbox
  import opened DocumentProcessing
  import opened ProtocolInvariants
  import opened ProtocolSteps
  import opened ProtocolMoves
  import opened ProtocolBroker

  // ---------- One outcome per key ----------

  /** At most one `finish` ever succeeds for a key, and exactly one has when its row is final. */
  lemma AtMostOneFinish(cfg: Config, run: seq<System>, i: nat, key: string)
    requires IsRun(cfg, run) && cfg.maxAttempts > 0 && i < |run|
    ensures run[i].commits[key] <= 1
    ensures run[i].commits[key] == 1 <==> key in run[i].rows && run[i].rows[key].status.Final()
  {
    RunKeepsInv(cfg, run, i);
  }

  /** Once final, a row's outcome and outgoing message never change again, and it accepts no token. */
  lemma OutcomeIsFrozen(cfg: Config, run: seq<System>, i: nat, j: nat, key: string)
    requires IsRun(cfg, run) && cfg.maxAttempts > 0 && i <= j < |run|
    requires key in run[i].rows && run[i].rows[key].status.Final()
    ensures key in run[j].rows
    ensures
      var (a, b) := (run[i].rows[key], run[j].rows[key]);
      && b.request == a.request && b.status == a.status && b.result == a.result && b.error == a.error
      && b.outbound == a.outbound && b.attempts == a.attempts && b.token == None
      && a.publication.Rank() <= b.publication.Rank()
  {
    hide IsRun, Inv;
    RunEvolves(cfg, run, i, j);
    RunKeepsInv(cfg, run, i);
    InvTable(cfg, run[i]);
    CurrentRow(cfg, run[i].rows, key);
  }

  // ---------- Fencing and leases ----------

  function LastGrant(s: System, key: string): Option<Grant> {
    if key in s.grants && s.grants[key] != [] then Some(s.grants[key][|s.grants[key]| - 1]) else None
  }

  /**
   * Fencing, exactly: an outcome is accepted from the latest grant while its attempt is open and from nobody else, a
   * dead letter from the latest grant once its attempt failed, and every refused write leaves the table as it was.
   */
  lemma OnlyTheLatestGrantWrites(cfg: Config, run: seq<System>, i: nat, key: string, token: Token, status: Status,
                                 result: Option<Object>, error: Option<Object>, outbound: Outbound, now: Instant)
    requires IsRun(cfg, run) && cfg.maxAttempts > 0 && i < |run| && status.Final()
    ensures
      var s, last := run[i], LastGrant(run[i], key);
      var open := last.Some? && last.value.token == token && key in s.rows && !s.rows[key].status.Final();
      var finish := Finish(s.rows, key, token, status, result, error, outbound, now);
      var failure := RecordRetryable(s.rows, key, token, error.GetOr(map[]), now);
      && (finish.1.Updated? <==> open && last.value.settled == status.DeadLettered?)
      && (failure.1.Updated? <==> open && !last.value.settled)
      && (!finish.1.Updated? ==> finish.0 == s.rows) && (!failure.1.Updated? ==> failure.0 == s.rows)
  {
    hide IsRun, UniqueIds, CommitsOk, HandlingsOk, PcsOk, MessagesOk, PublishedOk, SettlementsOk;
    RunKeepsInv(cfg, run, i);
    var s := run[i];
    if key in s.rows {
      assert KeyGrantsOk(s.rows[key], s.grants[key], s.clock, s.tokens) && RowOk(cfg, s.rows[key]);
    }
  }

  predicate Live(g: Grant, clock: Instant) {
    !g.settled && g.lease > clock
  }

  /** At any time at most one grant of a key is unsettled with time left on its lease, and it is the latest. */
  lemma LeasesExclude(cfg: Config, run: seq<System>, i: nat, key: string, m: nat)
    requires IsRun(cfg, run) && cfg.maxAttempts > 0 && i < |run| && key in run[i].grants
    requires m < |run[i].grants[key]| && Live(run[i].grants[key][m], run[i].clock)
    ensures m == |run[i].grants[key]| - 1
    ensures key in run[i].rows && run[i].rows[key].status.Processing?
    ensures run[i].rows[key].token == Some(run[i].grants[key][m].token)
  {
    hide IsRun, UniqueIds, CommitsOk, HandlingsOk, PcsOk, MessagesOk, PublishedOk, SettlementsOk;
    RunKeepsInv(cfg, run, i);
    var s := run[i];
    assert KeyGrantsOk(s.rows[key], s.grants[key], s.clock, s.tokens) && RowOk(cfg, s.rows[key]);
  }

  /**
   * A claim is granted exactly when its key is new and its operation id unused, or the row is of the same request, has
   * no outcome yet and its latest grant is not live at the caller's clock reading. A new row carries the request as it
   * is; a taken-over row keeps its own request and creation time and loses its error. No other row is touched.
   */
  lemma GrantedExactlyWhenFree(cfg: Config, run: seq<System>, i: nat, request: Request, now: Instant, lease: Instant,
                               token: Token)
    requires IsRun(cfg, run) && cfg.maxAttempts > 0 && i < |run|
    ensures
      var s, key := run[i], request.key;
      var (rows, claim) := OperationStore.Claim(s.rows, request, now, lease, token);
      && (claim.Granted? <==>
            if key in s.rows then
              && s.rows[key].request.fingerprint == request.fingerprint && s.commits[key] == 0
              && LastGrant(s, key).Some? && !Live(LastGrant(s, key).value, now)
            else forall k | k in s.rows :: s.rows[k].request.operationId != request.operationId)
      && (claim.Granted? ==>
            && rows.Keys == s.rows.Keys + {key} && (forall k | k in s.rows && k != key :: rows[k] == s.rows[k])
            && rows[key] == claim.record
            && claim.record ==
                 if key in s.rows then
                   Row(s.rows[key].request, Processing, |s.grants[key]| + 1, Some(token), Some(lease),
                       s.rows[key].createdAt, now, None, None, Unpublished, s.rows[key].publicationAttempts, None)
                 else
                   Row(request, Processing, 1, Some(token), Some(lease), now, now, None, None, Unpublished, 0, None))
      && (!claim.Granted? ==> rows == s.rows)
  {
    hide IsRun, UniqueIds, HandlingsOk, PcsOk, MessagesOk, PublishedOk, SettlementsOk;
    RunKeepsInv(cfg, run, i);
    var s, key := run[i], request.key;
    GrantedRow(s.rows, request, now, lease, token);
    if key in s.rows {
      HeldIffLive(cfg, s.rows[key], s.grants[key], s.clock, s.tokens, now);
    }
    hide OperationStore.Claim, HeldAt, Live, KeyGrantsOk, RowOk;
  }

  /** Among the rows without an outcome, those whose latest grant is live are the ones a claim leaves alone. */
  lemma HeldIffLive(cfg: Config, row: Row, g: seq<Grant>, clock: Instant, tokens: set<Token>, now: Instant)
    requires RowOk(cfg, row) && KeyGrantsOk(row, g, clock, tokens)
    ensures |g| == row.attempts && g != [] && (HeldAt(row, now) <==> Live(g[|g| - 1], now))
    ensures !row.status.Final() ==> row.result.None? && row.outbound.None? && row.publication.Unpublished?
  {}

  lemma GrantedRow(rows: Table, request: Request, now: Instant, lease: Instant, token: Token)
    ensures
      var key := request.key;
      var (rows', claim) := OperationStore.Claim(rows, request, now, lease, token);
      && (claim.Granted? <==>
            if key in rows then
              && rows[key].request.fingerprint == request.fingerprint && !rows[key].status.Final() && !HeldAt(rows[key], now)
            else !OperationIdTaken(rows, request.operationId))
      && (claim.Granted? ==>
            && rows' == rows[key := claim.record]
            && claim.record ==
                 if key in rows then
                   var row := rows[key];
                   Row(row.request, Processing, row.attempts + 1, Some(token), Some(lease), row.createdAt, now, row.result,
                       None, row.publication, row.publicationAttempts, row.outbound)
                 else
                   Row(request, Processing, 1, Some(token), Some(lease), now, now, None, None, Unpublished, 0, None))
      && (!claim.Granted? ==> rows' == rows)
  {}

  /** However old its clock reading, a step grants ownership only when no earlier grant of the key is live. */
  lemma GrantedOnlyWhenFree(cfg: Config, run: seq<System>, i: nat, key: string, m: nat)
    requires IsRun(cfg, run) && cfg.maxAttempts > 0 && i + 1 < |run|
    requires |Grants(run[i + 1].grants, key)| > |Grants(run[i].grants, key)| > m
    ensures !Live(Grants(run[i].grants, key)[m], run[i].clock)
  {
    hide IsRun, Inv, ActStep, TableMoves;
    var step := RunStep(cfg, run, i);
    if step.Act? && step.worker < |run[i].pcs| {
      StepsAreExplained(cfg, run[i], step.worker, step.action, key);
    }
    if Live(Grants(run[i].grants, key)[m], run[i].clock) {
      LeasesExclude(cfg, run, i + 1, key, m);
    }
  }

  /** The attempt counter counts grants, and a row carries no token exactly when it is final. */
  lemma AttemptsCountGrants(cfg: Config, run: seq<System>, i: nat, key: string)
    requires IsRun(cfg, run) && cfg.maxAttempts > 0 && i < |run| && key in run[i].rows
    ensures key in run[i].grants && run[i].rows[key].attempts == |run[i].grants[key]| >= 1
    ensures run[i].rows[key].token.None? <==> run[i].rows[key].status.Final()
    ensures run[i].rows[key].token.Some? ==> run[i].rows[key].token == Some(LastGrant(run[i], key).value.token)
  {
    hide IsRun, UniqueIds, CommitsOk, HandlingsOk, PcsOk, MessagesOk, PublishedOk, SettlementsOk;
    RunKeepsInv(cfg, run, i);
    var s := run[i];
    assert KeyGrantsOk(s.rows[key], s.grants[key], s.clock, s.tokens) && RowOk(cfg, s.rows[key]);
  }

  // ---------- The outbox ----------

  /**
   * Whatever was ever published for a key is the one message its final row determines, field by field, on the artifact
   * stream exactly when the row succeeded and on the dead-letter stream otherwise, with the request's metadata as its
   * headers; nothing is published before the outcome is committed.
   */
  lemma OutboxIsUniform(cfg: Config, run: seq<System>, i: nat, n: nat)
    requires IsRun(cfg, run) && cfg.maxAttempts > 0 && i < |run| && n < |run[i].published|
    ensures
      var s, p := run[i], run[i].published[n];
      && p.key in s.rows && s.rows[p.key].status.Final() && s.commits[p.key] == 1
      && var row, id := s.rows[p.key], cfg.operationId(p.key);
         var ok := row.status == Succeeded;
         && row.result.Some? == ok && row.error.Some? == !ok && row.request.key == p.key
         && p.outbound.topic == (if ok then "document.artifacts" else "pipeline.dead-letter")
         && p.outbound.messageId == (if ok then "document-result-" else "document-failure-") + id
         && p.outbound.payload == ResultMessage(ok, id, p.key, row.request.documentId, row.request.manifestVersion,
                                                row.result, row.error, row.request.metadata)
         && p.headers == row.request.metadata
    ensures forall m | 0 <= m < |run[i].published| && run[i].published[m].key == run[i].published[n].key ::
              run[i].published[m] == run[i].published[n]
  {
    hide IsRun, UniqueIds, GrantsOk, HandlingsOk, PcsOk, MessagesOk, SettlementsOk;
    RunKeepsInv(cfg, run, i);
    var s := run[i];
    assert PublicationOk(s.rows, s.published[n]);
    assert RowOk(cfg, s.rows[s.published[n].key]);
  }

  // ---------- Acknowledgements and retries ----------

  /**
   * No result is lost on acknowledge: from then on, the row the message is about is final, and its message is on the
   * broker, or still in the outbox after as many failed attempts as are allowed.
   */
  lemma AcknowledgedIsSafe(cfg: Config, run: seq<System>, i: nat, j: nat, n: nat)
    requires IsRun(cfg, run) && cfg.maxAttempts > 0 && i <= j < |run|
    requires n < |run[i].settlements| && run[i].settlements[n].Acked?
    ensures
      var e := run[i].settlements[n];
      && e.key in run[j].rows && Delivered(cfg, run[j].rows[e.key])
      && e.key == Target(run[j].rows, e.message.body)
      && run[j].rows[e.key].request.fingerprint == e.message.body.fingerprint
      && run[j].rows[e.key].outbound.Some?
      && (run[j].rows[e.key].publication.Published? ==>
            exists m | 0 <= m < |run[j].published| :: run[j].published[m] == PublicationOf(run[j].rows[e.key]))
  {
    hide IsRun, GrantsOk, HandlingsOk, PcsOk, MessagesOk, PublishedOk, CommitsOk, UniqueIds;
    RunEvolves(cfg, run, i, j);
    RunKeepsInv(cfg, run, j);
    var e := run[j].settlements[n];
    assert SettlementOk(cfg, run[j].rows, e);
    assert RowOk(cfg, run[j].rows[e.key]);
    if run[j].rows[e.key].publication.Published? {
      var m := PublishedWasSent(cfg, run, j, e.key);
    }
  }

  /** One handling acknowledges or retries its message, never both and never twice. */
  lemma SettledOnce(cfg: Config, run: seq<System>, i: nat, m: nat, n: nat)
    requires IsRun(cfg, run) && cfg.maxAttempts > 0 && i < |run|
    requires m < |run[i].settlements| && n < |run[i].settlements|
    requires run[i].settlements[m].handling == run[i].settlements[n].handling
    ensures m == n
  {
    hide IsRun, GrantsOk, PcsOk, MessagesOk, PublishedOk, CommitsOk, TableOk, SettlementsOk;
    RunKeepsInv(cfg, run, i);
  }

  /** A message's lineage is retried at most 2 * max_attempts - 2 times, whatever other workers do. */
  lemma RetriesAreBounded(cfg: Config, run: seq<System>, i: nat, n: nat)
    requires IsRun(cfg, run) && cfg.maxAttempts > 0 && i < |run| && n < |run[i].sent|
    ensures run[i].sent[n].retries <= 2 * cfg.maxAttempts - 2
  {
    hide IsRun, GrantsOk, PcsOk, HandlingsOk, PublishedOk, CommitsOk, TableOk, SettlementsOk;
    RunKeepsInv(cfg, run, i);
    assert MessageOk(cfg, run[i].rows, run[i].sent[n]);
  }

  /** max(0, M - delivery) + max(0, M - publication_attempts of the row the message is about). */
  function Measure(cfg: Config, rows: Table, m: Message): nat {
    Room(cfg.maxAttempts - m.delivery) + Room(cfg.maxAttempts - PublicationAttempts(rows, Target(rows, m.body)))
  }

  lemma DispatchRetryDecreases(cfg: Config, s: System, w: nat)
    requires w < |s.pcs| && PcOk(cfg, s.rows, s.pcs[w]) && s.pcs[w].Settled?
    requires DispatchStep(cfg, s, w).pcs[w].Retrying?
    ensures
      var m, s' := s.pcs[w].job.message, DispatchStep(cfg, s, w);
      s'.pcs[w].job == s.pcs[w].job && Measure(cfg, s'.rows, NextDelivery(m)) < Measure(cfg, s.rows, m)
  {
    hide RowOk, PcOk, Target, PublicationAttempts, FinishFailure;
    var m, s' := s.pcs[w].job.message, DispatchStep(cfg, s, w);
    RetryLeavesTable(cfg, s, w);
  }

  lemma RetryLeavesTable(cfg: Config, s: System, w: nat)
    requires w < |s.pcs| && s.pcs[w].Settled? && DispatchStep(cfg, s, w).pcs[w].Retrying?
    ensures
      var s' := DispatchStep(cfg, s, w);
      s'.rows == s.rows && s'.pcs[w].job == s.pcs[w].job && s.pcs[w].job.message.delivery < cfg.maxAttempts
  {}

  lemma PublicationRetryDecreases(cfg: Config, s: System, w: nat)
    requires w < |s.pcs| && PcOk(cfg, s.rows, s.pcs[w]) && s.pcs[w].Unsent?
    requires RecordPublicationStep(cfg, s, w).pcs[w].Retrying?
    ensures
      var m, s' := s.pcs[w].job.message, RecordPublicationStep(cfg, s, w);
      s'.pcs[w].job == s.pcs[w].job && Measure(cfg, s'.rows, NextDelivery(m)) < Measure(cfg, s.rows, m)
  {
    hide RowOk;
  }

  /** The decision to retry makes the measure of the message smaller. */
  lemma RetryDecreases(cfg: Config, run: seq<System>, i: nat, w: nat)
    requires IsRun(cfg, run) && cfg.maxAttempts > 0 && i + 1 < |run|
    requires w < |run[i].pcs| && !run[i].pcs[w].Retrying?
    requires w < |run[i + 1].pcs| && run[i + 1].pcs[w].Retrying?
    ensures
      var m := run[i + 1].pcs[w].job.message;
      && HandlingOf(run[i].pcs[w]) == Some(run[i + 1].pcs[w].job.handling) && run[i].pcs[w].job.message == m
      && Measure(cfg, run[i + 1].rows, NextDelivery(m)) < Measure(cfg, run[i].rows, m)
  {
    hide IsRun, Inv, TableMoves, DispatchStep, RecordPublicationStep, PcOk;
    var step := RunStep(cfg, run, i);
    if step.Act? && step.worker < |run[i].pcs| {
      StepsAreExplained(cfg, run[i], step.worker, step.action, "");
    }
    PcOf(cfg, run[i], w);
    if step.action.Dispatch? {
      DispatchRetryDecreases(cfg, run[i], w);
    } else {
      PublicationRetryDecreases(cfg, run[i], w);
    }
  }
}
