/** Drain fairness inside the protocol: the drains are those of recovery workers in a run. */
module ProtocolDrains {
  import opened OperationStore
  import opened Outbox
  import opened DrainFairness
  import opened DocumentProcessing
  import opened ProtocolInvariants
  import opened ProtocolSteps
  import opened ProtocolMoves

  function Tables(run: seq<System>): seq<Table> {
    seq(|run|, i requires 0 <= i < |run| => run[i].rows)
  }

  predicate InDrain(pc: Pc) {
    pc.Draining? || pc.DrainSent? || pc.DrainUnsent?
  }

  /** The step writes the table: it changes it, or a drain records what became of a publication. */
  ghost predicate Writes(a: System, b: System) {
    a.rows != b.rows || exists w | 0 <= w < |a.pcs| ::
      (a.pcs[w].DrainSent? || a.pcs[w].DrainUnsent?) && w < |b.pcs| && b.pcs[w].Draining?
  }

  /** Timestamps strictly advance: the clock has passed every final row's timestamp whenever the table is written. */
  ghost predicate StampsAdvance(run: seq<System>) {
    forall i | 0 <= i < |run| - 1 && Writes(run[i], run[i + 1]) :: Latest(run[i].rows, run[i].clock)
  }

  /** Worker `worker` starts a drain at state `start` and has worked off its page at state `end`. */
  datatype WorkerDrain = WorkerDrain(worker: nat, start: nat, end: nat)

  ghost predicate Drains(run: seq<System>, d: WorkerDrain, limit: int) {
    && d.start < d.end < |run| && d.worker < |run[d.start].pcs| && run[d.start].pcs[d.worker].Idle?
    && run[d.start + 1] == StartDrainStep(run[d.start], d.worker, limit)
    && (forall x | d.start < x <= d.end :: d.worker < |run[x].pcs| && InDrain(run[x].pcs[d.worker]))
    && run[d.end].pcs[d.worker] == Draining([])
  }

  lemma StepAdvances(cfg: Config, run: seq<System>, x: nat)
    requires IsRun(cfg, run) && cfg.maxAttempts > 0 && StampsAdvance(run) && x + 1 < |run|
    ensures Advances(run[x].rows, run[x + 1].rows)
  {
    hide IsRun, Inv, Advances, Latest, TableEvolves;
    var _ := RunStep(cfg, run, x);
    if run[x].rows == run[x + 1].rows {
      StaysAdvances(run[x].rows);
    } else {
      assert Writes(run[x], run[x + 1]);
    }
  }

  lemma PendingIsFinal(cfg: Config, run: seq<System>, x: nat, k: string)
    requires IsRun(cfg, run) && cfg.maxAttempts > 0 && x < |run|
    requires k in run[x].rows && run[x].rows[k].publication.Pending?
    ensures run[x].rows[k].status.Final()
  {
    hide IsRun, Inv, TableOk;
    RunKeepsInv(cfg, run, x);
    InvTable(cfg, run[x]);
    CurrentRow(cfg, run[x].rows, k);
  }

  lemma RunIsTrace(cfg: Config, run: seq<System>)
    requires IsRun(cfg, run) && cfg.maxAttempts > 0 && StampsAdvance(run)
    ensures IsTrace(Tables(run))
  {
    hide IsRun, Advances, StampsAdvance;
    var trace := Tables(run);
    forall x | 0 <= x < |trace| - 1 ensures Advances(trace[x], trace[x + 1]) {
      StepAdvances(cfg, run, x);
    }
    forall x, k | 0 <= x < |trace| && k in trace[x] && trace[x][k].publication.Pending?
      ensures trace[x][k].status.Final()
    {
      PendingIsFinal(cfg, run, x, k);
    }
  }

  lemma StaysAdvances(rows: Table)
    ensures Advances(rows, rows)
  {}

  /** What is left of the drain's page, and the part of it that has been attempted. */
  ghost predicate DrainedUpTo(run: seq<System>, d: WorkerDrain, keys: seq<string>, x: nat, n: nat)
    requires d.start < x < |run| && d.worker < |run[x].pcs| && InDrain(run[x].pcs[d.worker])
  {
    && n <= |keys| && |run[x].pcs[d.worker].page| == |keys| - n
    && (forall i | n <= i < |keys| :: run[x].pcs[d.worker].page[i - n].request.key == keys[i])
    && (forall i | 0 <= i < n :: AttemptedIn(Tables(run), d.start, x, keys[i]))
  }

  /** One step of anybody during the drain: the drain stays where it is or records one more attempt. */
  lemma DrainStep(cfg: Config, s: System, step: Step, w: nat)
    requires Inv(cfg, s) && w < |s.pcs| && InDrain(s.pcs[w])
    requires var s' := Next(cfg, s, step); w < |s'.pcs| && InDrain(s'.pcs[w])
    ensures
      var s', page := Next(cfg, s, step), s.pcs[w].page;
      s'.pcs[w].page == page ||
      ((s.pcs[w].DrainSent? || s.pcs[w].DrainUnsent?) && s'.pcs[w].Draining? &&
       page != [] && s'.pcs[w].page == page[1..] &&
       s'.rows == PublicationUpdate(s.rows, page[0].request.key, s.pcs[w].DrainSent?, s.clock).0)
  {
    hide Inv, ClaimStep, DeliverStep, GetExistingStep, PollStep, GiveUpStep, CommitSuccessStep, CommitFailureStep;
    hide CommitRetryableStep, DispatchStep, CallTransportStep, FirstPending, UniqueIds, PublicationUpdate;
    if step.Act? && step.worker < |s.pcs| {
      if step.worker != w {
        OthersStay(cfg, s, step.worker, step.action, w);
      } else {
        PcOf(cfg, s, w);
        ForeignActions(cfg, s, w);
      }
    }
  }

  lemma OthersStay(cfg: Config, s: System, v: nat, action: Action, w: nat)
    requires v < |s.pcs| && w < |s.pcs| && v != w
    ensures |ActStep(cfg, s, v, action).pcs| == |s.pcs| && ActStep(cfg, s, v, action).pcs[w] == s.pcs[w]
  {
    hide ActStep;
    StepsAreExplained(cfg, s, v, action, "");
  }

  /** Actions of the consumer do nothing to a worker that is draining. */
  lemma ForeignActions(cfg: Config, s: System, w: nat)
    requires w < |s.pcs| && InDrain(s.pcs[w])
    ensures forall i :: DeliverStep(s, w, i) == s
    ensures forall now, leaseFrom, token :: ClaimStep(cfg, s, w, now, leaseFrom, token) == s
    ensures forall o :: CommitSuccessStep(s, w, o) == s && CommitFailureStep(s, w, o) == s
    ensures forall e, c :: CommitRetryableStep(s, w, e, c) == s
    ensures GetExistingStep(s, w) == s && PollStep(s, w) == s && GiveUpStep(s, w) == s
    ensures DispatchStep(cfg, s, w) == s && CallTransportStep(s, w) == s
  {}

  lemma RecordedIsAttempt(cfg: Config, rows: Table, record: Row, published: bool, clock: Instant)
    requires TableOk(cfg, rows) && SnapshotOk(cfg, rows, record) && record.publication.Pending? && Latest(rows, clock)
    ensures Attempt(rows, PublicationUpdate(rows, record.request.key, published, clock).0, record.request.key)
  {}

  lemma DrainBegins(cfg: Config, run: seq<System>, d: WorkerDrain, limit: int)
    requires IsRun(cfg, run) && cfg.maxAttempts > 0 && Drains(run, d, limit)
    requires UniqueIds(run[d.start].rows)
    ensures DrainedUpTo(run, d, FirstPending(run[d.start].rows, AtLeastZero(limit)), d.start + 1, 0)
  {
    hide IsRun, Inv, UniqueIds, TableOk;
    var rows := run[d.start].rows;
    var keys := FirstPending(rows, AtLeastZero(limit));
    RunKeepsInv(cfg, run, d.start);
    InvTable(cfg, run[d.start]);
    forall i | 0 <= i < |keys| ensures keys[i] in rows && rows[keys[i]].request.key == keys[i] {
      assert keys[i] in keys;
      CurrentRow(cfg, rows, keys[i]);
    }
  }

  lemma DrainContinues(cfg: Config, run: seq<System>, d: WorkerDrain, limit: int, keys: seq<string>, y: nat, n: nat)
    returns (n': nat)
    requires IsRun(cfg, run) && cfg.maxAttempts > 0 && StampsAdvance(run) && Drains(run, d, limit)
    requires d.start < y < d.end && DrainedUpTo(run, d, keys, y, n)
    ensures DrainedUpTo(run, d, keys, y + 1, n')
  {
    hide IsRun, Inv, Next, TableMoves, Attempt, Latest, SnapshotOk, TableOk, PublicationUpdate, HistoryGrows;
    var w := d.worker;
    n' := n;
    var step := RunStep(cfg, run, y);
    var page, after := run[y].pcs[w].page, run[y + 1].pcs[w].page;
    DrainStep(cfg, run[y], step, w);
    LaterStill(run, d, keys, y, n);
    if after != page {
      assert Writes(run[y], run[y + 1]);
      PcOf(cfg, run[y], w);
      InvTable(cfg, run[y]);
      RecordedIsAttempt(cfg, run[y].rows, page[0], run[y].pcs[w].DrainSent?, run[y].clock);
      assert page[0].request.key == keys[n];
      assert AttemptStep(Tables(run), y, keys[n]);
      n' := n + 1;
    }
  }

  lemma {:induction false} DrainProgress(cfg: Config, run: seq<System>, d: WorkerDrain, limit: int, x: nat)
    returns (n: nat)
    requires IsRun(cfg, run) && cfg.maxAttempts > 0 && StampsAdvance(run) && Drains(run, d, limit)
    requires UniqueIds(run[d.start].rows) && d.start < x <= d.end
    ensures DrainedUpTo(run, d, FirstPending(run[d.start].rows, AtLeastZero(limit)), x, n)
    decreases x
  {
    hide IsRun, UniqueIds, DrainedUpTo, StampsAdvance;
    if x == d.start + 1 {
      n := 0;
      DrainBegins(cfg, run, d, limit);
    } else {
      n := DrainProgress(cfg, run, d, limit, x - 1);
      n := DrainContinues(cfg, run, d, limit, FirstPending(run[d.start].rows, AtLeastZero(limit)), x - 1, n);
    }
  }

  lemma LaterStill(run: seq<System>, d: WorkerDrain, keys: seq<string>, y: nat, n: nat)
    requires d.start < y && y + 1 < |run| && n <= |keys|
    requires forall i | 0 <= i < n :: AttemptedIn(Tables(run), d.start, y, keys[i])
    ensures forall i | 0 <= i < n :: AttemptedIn(Tables(run), d.start, y + 1, keys[i])
  {}

  /** A completed drain of a worker attempted its whole page. */
  lemma WorkerDrainIsDrain(cfg: Config, run: seq<System>, d: WorkerDrain, limit: int)
    requires IsRun(cfg, run) && cfg.maxAttempts > 0 && StampsAdvance(run) && Drains(run, d, limit)
    ensures IsDrain(Tables(run), Drain(d.start, d.end), AtLeastZero(limit))
  {
    hide IsRun, AttemptedIn, UniqueIds, Inv;
    RunKeepsInv(cfg, run, d.start);
    InvTable(cfg, run[d.start]);
    var n := DrainProgress(cfg, run, d, limit, d.end);
  }

  /**
   * In any run with advancing timestamps, a pending row with r rows ahead of it is attempted before the end of the
   * (r / limit + 1)-th drain, counting the completed drains of all recovery workers from any point on.
   */
  lemma PendingIsAttemptedInRun(cfg: Config, run: seq<System>, drains: seq<WorkerDrain>, limit: nat, key: string)
    requires IsRun(cfg, run) && cfg.maxAttempts > 0 && StampsAdvance(run) && limit > 0 && drains != []
    requires forall i | 0 <= i < |drains| :: Drains(run, drains[i], limit)
    requires forall i | 0 <= i < |drains| - 1 :: drains[i].end <= drains[i + 1].start
    requires drains[0].start < |run| && key in run[drains[0].start].rows
    requires run[drains[0].start].rows[key].publication.Pending?
    requires |drains| == |Ahead(run[drains[0].start].rows, key)| / limit + 1
    ensures drains[|drains| - 1].end < |run|
    ensures AttemptedIn(Tables(run), drains[0].start, drains[|drains| - 1].end, key)
  {
    hide IsRun, AttemptedIn, IsTrace, IsDrain, Drains, StampsAdvance;
    RunIsTrace(cfg, run);
    var ds := seq(|drains|, i requires 0 <= i < |drains| => Drain(drains[i].start, drains[i].end));
    forall i | 0 <= i < |drains| ensures IsDrain(Tables(run), ds[i], limit) {
      WorkerDrainIsDrain(cfg, run, drains[i], limit);
    }
    EndsInRun(run, drains[|drains| - 1], limit);
    AttemptedWithinQuotient(Tables(run), ds, limit, key);
  }

  lemma EndsInRun(run: seq<System>, d: WorkerDrain, limit: int)
    requires Drains(run, d, limit)
    ensures d.end < |run|
  {}
}
