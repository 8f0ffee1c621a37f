/** What every reachable state of the processing protocol satisfies, and the proof that every step keeps it. */
module ProtocolInvariants {
  import opened Wrappers
  import opened OperationStore
  import opened Outbox
  import opened DocumentProcessing

  // ---------- Rows ----------

  /** The message the outbox must hold for a final row: a function of the row itself. */
  function ExpectedOutbound(row: Row): Outbound
    requires row.status.Succeeded? ==> row.result.Some?
    requires row.status.Final() && !row.status.Succeeded? ==> row.error.Some?
    requires row.status.Final()
  {
    if row.status.Succeeded? then SuccessOutbound(row.request, row.result.value)
    else FailureOutbound(row.request, row.error.value)
  }

  predicate RowOk(cfg: Config, row: Row) {
    && row.attempts >= 1 && row.request.operationId == cfg.operationId(row.request.key)
    && !row.status.Received?
    && (row.token.None? <==> row.status.Final())
    && (row.publication.Unpublished? <==> !row.status.Final())
    && (row.status.Processing? <==> row.leaseUntil.Some?)
    && (if row.status.Final() then
          && row.result.Some? == row.status.Succeeded? && row.error.Some? == !row.status.Succeeded?
          && row.outbound == Some(ExpectedOutbound(row))
        else row.result.None? && row.outbound.None?)
  }

  ghost predicate TableOk(cfg: Config, rows: Table) {
    && UniqueIds(rows)
    && forall k | k in rows :: rows[k].request.key == k && RowOk(cfg, rows[k])
  }

  /** A record somebody read: well formed, and the row has only moved on from it. */
  predicate SnapshotOk(cfg: Config, rows: Table, record: Row) {
    && RowOk(cfg, record)
    && record.request.key in rows && RowEvolves(record, rows[record.request.key])
  }

  // ---------- Messages and handlings ----------

  /** The row a message is about: its own key's, unless that key belongs to a different request. */
  function Target(rows: Table, body: Incoming): string {
    if body.key in rows && rows[body.key].request.fingerprint != body.fingerprint
    then ConflictKey(body.key, body.fingerprint) else body.key
  }

  function PublicationAttempts(rows: Table, key: string): nat {
    if key in rows then rows[key].publicationAttempts else 0
  }

  function Room(n: int): nat {
    if n < 0 then 0 else n
  }

  /** How often this delivery's lineage can still be retried. */
  function RetriesLeft(cfg: Config, rows: Table, m: Message): nat {
    Room(cfg.maxAttempts - m.delivery) + Room(cfg.maxAttempts - 1 - PublicationAttempts(rows, Target(rows, m.body)))
  }

  predicate MessageOk(cfg: Config, rows: Table, m: Message) {
    m.delivery >= 1 && m.retries + RetriesLeft(cfg, rows, m) <= 2 * cfg.maxAttempts - 2
  }

  function NextDelivery(m: Message): Message {
    m.(delivery := m.delivery + 1, retries := m.retries + 1)
  }

  /** The record a handling works on is the row of its own message. */
  predicate RecordOf(cfg: Config, rows: Table, body: Incoming, record: Row) {
    && SnapshotOk(cfg, rows, record)
    && record.request.fingerprint == body.fingerprint && body.key in rows
    && record.request.key == Target(rows, body)
  }

  /** The row keeps its result safe: published, or in the outbox with every attempt of its own used up. */
  predicate Delivered(cfg: Config, row: Row) {
    && row.status.Final()
    && (row.publication.Published? || (row.publication.Pending? && row.publicationAttempts >= cfg.maxAttempts))
  }

  ghost predicate PageOk(cfg: Config, rows: Table, page: seq<Row>) {
    forall i | 0 <= i < |page| :: SnapshotOk(cfg, rows, page[i]) && page[i].publication.Pending?
  }

  ghost predicate PcOk(cfg: Config, rows: Table, pc: Pc) {
    match pc
    case Idle => true
    case Claiming(job) => MessageOk(cfg, rows, job.message)
    case Conflicted(job) =>
      && MessageOk(cfg, rows, job.message) && job.message.body.key in rows
      && rows[job.message.body.key].request.fingerprint != job.message.body.fingerprint
    case ClaimingConflict(job, existing) =>
      && MessageOk(cfg, rows, job.message) && SnapshotOk(cfg, rows, existing)
      && existing.request.key == job.message.body.key
      && existing.request.fingerprint != job.message.body.fingerprint
    case Working(job, record, verdict) =>
      && MessageOk(cfg, rows, job.message) && RecordOf(cfg, rows, job.message.body, record)
      && record.status.Processing?
    case Waiting(job, record) => MessageOk(cfg, rows, job.message) && RecordOf(cfg, rows, job.message.body, record)
    case Settled(job, record) => MessageOk(cfg, rows, job.message) && RecordOf(cfg, rows, job.message.body, record)
    case Publishing(job, record) => PublishingOk(cfg, rows, job, record)
    case Sent(job, record) => PublishingOk(cfg, rows, job, record)
    case Unsent(job, record) => PublishingOk(cfg, rows, job, record)
    case Retrying(job) => MessageOk(cfg, rows, NextDelivery(job.message))
    case Acking(job, record) => RecordOf(cfg, rows, job.message.body, record) && Delivered(cfg, record)
    case Draining(page) => PageOk(cfg, rows, page)
    case DrainSent(page) => PageOk(cfg, rows, page) && page != []
    case DrainUnsent(page) => PageOk(cfg, rows, page) && page != []
  }

  predicate PublishingOk(cfg: Config, rows: Table, job: Job, record: Row) {
    && MessageOk(cfg, rows, job.message) && RecordOf(cfg, rows, job.message.body, record)
    && record.publication.Pending?
  }

  /** Nothing a worker knows is invalidated by what the others do to the table. */
  lemma PcStable(cfg: Config, a: Table, b: Table, pc: Pc)
    requires TableEvolves(a, b) && PcOk(cfg, a, pc)
    ensures PcOk(cfg, b, pc)
  {}

  // ---------- The whole state ----------

  /** One grant per attempt, fresh tokens, and every superseded grant was settled or has run out. */
  ghost predicate KeyGrantsOk(row: Row, g: seq<Grant>, clock: Instant, tokens: set<Token>) {
    && |g| == row.attempts && |g| >= 1
    && (forall i | 0 <= i < |g| :: g[i].token in tokens)
    && (forall i, j | 0 <= i < j < |g| :: g[i].token != g[j].token)
    && (forall i | 0 <= i < |g| - 1 :: g[i].settled || g[i].lease <= clock)
    && var last := g[|g| - 1];
       && (row.token.Some? ==> row.token.value == last.token)
       && last.settled == !row.status.Processing?
       && (row.status.Processing? ==> row.leaseUntil == Some(last.lease))
  }

  ghost predicate GrantsOk(rows: Table, grants: map<string, seq<Grant>>, clock: Instant, tokens: set<Token>) {
    && grants.Keys == rows.Keys
    && forall k | k in rows :: KeyGrantsOk(rows[k], grants[k], clock, tokens)
  }

  predicate PublicationOk(rows: Table, p: PublishedMessage) {
    && p.key in rows && rows[p.key].status.Final()
    && rows[p.key].outbound == Some(p.outbound) && p.headers == rows[p.key].request.metadata
  }

  predicate SettlementOk(cfg: Config, rows: Table, e: Settlement) {
    match e
    case Acked(_, m, key) =>
      && key in rows && Delivered(cfg, rows[key])
      && m.body.key in rows && key == Target(rows, m.body) && rows[key].request.fingerprint == m.body.fingerprint
    case Retried(_, m) => MessageOk(cfg, rows, NextDelivery(m))
  }

  ghost predicate CommitsOk(rows: Table, commits: multiset<string>) {
    forall k :: commits[k] == if k in rows && rows[k].status.Final() then 1 else 0
  }

  function HandlingOf(pc: Pc): Option<nat> {
    if pc.Idle? || pc.Draining? || pc.DrainSent? || pc.DrainUnsent? then None else Some(pc.job.handling)
  }

  /** Handlings are numbered; a running one has settled nothing yet and a finished one settled at most once. */
  ghost predicate HandlingsOk(pcs: seq<Pc>, settlements: seq<Settlement>, handlings: nat) {
    && (forall w | 0 <= w < |pcs| :: HandlingOf(pcs[w]).Some? ==> HandlingOf(pcs[w]).value < handlings)
    && (forall v, w | 0 <= v < w < |pcs| && HandlingOf(pcs[v]).Some? :: HandlingOf(pcs[v]) != HandlingOf(pcs[w]))
    && (forall i | 0 <= i < |settlements| :: settlements[i].handling < handlings)
    && (forall i, w | 0 <= i < |settlements| && 0 <= w < |pcs| :: HandlingOf(pcs[w]) != Some(settlements[i].handling))
    && (forall i, j | 0 <= i < j < |settlements| :: settlements[i].handling != settlements[j].handling)
  }

  ghost predicate MessagesOk(cfg: Config, rows: Table, sent: seq<Message>) {
    forall i | 0 <= i < |sent| :: MessageOk(cfg, rows, sent[i])
  }

  ghost predicate PublishedOk(rows: Table, published: seq<PublishedMessage>) {
    forall i | 0 <= i < |published| :: PublicationOk(rows, published[i])
  }

  ghost predicate SettlementsOk(cfg: Config, rows: Table, settlements: seq<Settlement>) {
    forall i | 0 <= i < |settlements| :: SettlementOk(cfg, rows, settlements[i])
  }

  ghost predicate PcsOk(cfg: Config, rows: Table, pcs: seq<Pc>) {
    forall w | 0 <= w < |pcs| :: PcOk(cfg, rows, pcs[w])
  }

  ghost predicate Inv(cfg: Config, s: System) {
    && TableOk(cfg, s.rows) && GrantsOk(s.rows, s.grants, s.clock, s.tokens) && CommitsOk(s.rows, s.commits)
    && HandlingsOk(s.pcs, s.settlements, s.handlings) && PcsOk(cfg, s.rows, s.pcs)
    && MessagesOk(cfg, s.rows, s.sent) && PublishedOk(s.rows, s.published) && SettlementsOk(cfg, s.rows, s.settlements)
  }

  // ---------- What the table's evolution keeps ----------

  /** Logs only grow true: a message on the broker, a publication or a settlement stays right as the table moves on. */
  lemma LogsStable(cfg: Config, a: Table, b: Table, sent: seq<Message>, published: seq<PublishedMessage>,
                   settlements: seq<Settlement>)
    requires TableEvolves(a, b)
    requires MessagesOk(cfg, a, sent) && PublishedOk(a, published) && SettlementsOk(cfg, a, settlements)
    ensures MessagesOk(cfg, b, sent) && PublishedOk(b, published) && SettlementsOk(cfg, b, settlements)
  {}

  lemma PcsStable(cfg: Config, a: Table, b: Table, pcs: seq<Pc>, w: nat, pc: Pc)
    requires TableEvolves(a, b) && PcsOk(cfg, a, pcs) && w < |pcs| && PcOk(cfg, b, pc)
    ensures PcsOk(cfg, b, pcs[w := pc])
  {
    forall v | 0 <= v < |pcs| && v != w ensures PcOk(cfg, b, pcs[v]) {
      PcStable(cfg, a, b, pcs[v]);
    }
  }

  lemma HandlingsStable(pcs: seq<Pc>, settlements: seq<Settlement>, handlings: nat, w: nat, pc: Pc)
    requires HandlingsOk(pcs, settlements, handlings) && w < |pcs|
    requires HandlingOf(pc) in {None, HandlingOf(pcs[w])}
    ensures HandlingsOk(pcs[w := pc], settlements, handlings)
  {}

  /** A step of worker w that evolves the table and appends to no log. */
  lemma Moved(cfg: Config, a: System, b: System, w: nat, pc: Pc)
    requires Inv(cfg, a) && w < |a.pcs| && TableEvolves(a.rows, b.rows) && PcOk(cfg, b.rows, pc)
    requires HandlingOf(pc) in {None, HandlingOf(a.pcs[w])}
    requires b == a.(rows := b.rows, grants := b.grants, tokens := b.tokens, commits := b.commits, pcs := a.pcs[w := pc])
    requires TableOk(cfg, b.rows) && GrantsOk(b.rows, b.grants, b.clock, b.tokens) && CommitsOk(b.rows, b.commits)
    ensures Inv(cfg, b)
  {
    LogsStable(cfg, a.rows, b.rows, a.sent, a.published, a.settlements);
    PcsStable(cfg, a.rows, b.rows, a.pcs, w, pc);
    HandlingsStable(a.pcs, a.settlements, a.handlings, w, pc);
  }

  lemma LocalStep(cfg: Config, s: System, w: nat, pc: Pc)
    requires Inv(cfg, s) && w < |s.pcs| && PcOk(cfg, s.rows, pc)
    requires HandlingOf(pc) in {None, HandlingOf(s.pcs[w])}
    ensures Inv(cfg, Goto(s, w, pc))
  {}
}
