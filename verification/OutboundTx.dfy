/** lib/outbound.py: each transaction of the daemon's sender as a function of the tables. */
module OutboundTx {
  import opened Schema
  import opened Jobs

  // ---- tick ----

  /** _cancel_disallowed_jobs */
  function CancelDisallowed(js: seq<Job>, cfg: Config): (r: seq<Job>)
    ensures |r| == |js|
  {
    seq(|js|, i requires 0 <= i < |js| =>
      if js[i].state.Retryable() && !ChatAllowed(cfg, js[i].chat) then js[i].(state := Cancelled) else js[i])
  }

  predicate Due(job: Job, now: int) {
    || (job.state.Queued? && (job.next == None || job.next.value <= now))
    || (job.state.Unknown? && job.next.Some? && job.next.value <= now)
  }

  function DueAt(now: int): Job -> bool { (job: Job) => Due(job, now) }

  /** SELECT ... ORDER BY job_seq: the rows from `from` on that `keep` selects. */
  function SelectRows(js: seq<Job>, from: nat, keep: Job -> bool): seq<nat>
    requires from <= |js|
    decreases |js| - from
  {
    if from == |js| then []
    else if keep(js[from]) then [from] + SelectRows(js, from + 1, keep)
    else SelectRows(js, from + 1, keep)
  }

  ghost predicate Sorted(rows: seq<nat>) {
    forall a, b :: 0 <= a < b < |rows| ==> rows[a] < rows[b]
  }

  lemma {:induction false} SelectRowsAre(js: seq<Job>, from: nat, keep: Job -> bool)
    requires from <= |js|
    ensures var r := SelectRows(js, from, keep);
            && Sorted(r) && (forall a :: 0 <= a < |r| ==> from <= r[a] < |js| && keep(js[r[a]]))
            && (forall p :: from <= p < |js| && keep(js[p]) ==> p in r)
    decreases |js| - from
  {
    if from < |js| {
      SelectRowsAre(js, from + 1, keep);
      if keep(js[from]) {
        var rest := SelectRows(js, from + 1, keep);
        assert SelectRows(js, from, keep) == [from] + rest;
        forall p | from <= p < |js| && keep(js[p]) ensures p in [from] + rest {
          assert p == from || p in rest;
        }
      }
    }
  }

  function DueRows(js: seq<Job>, now: int): seq<nat> {
    SelectRows(js, 0, DueAt(now))
  }

  // ---- _prepare ----

  datatype Verdict = Gone | Dropped | Skip | Send

  datatype Gate = Pass | Wait | Abandon

  predicate EarlierTurnInDoubt(js: seq<Job>, j: nat)
    requires j < |js|
  {
    exists i :: 0 <= i < j && js[i].kind.SessionTurn? && js[i].binding == js[j].binding && js[i].group.Some?
                && js[i].group != js[j].group && (js[i].state.Unknown? || js[i].state.Sending?)
  }

  predicate EarlierNoticeOpen(js: seq<Job>, j: nat)
    requires j < |js|
  {
    exists i :: 0 <= i < j && js[i].kind.Notice() && js[i].chat == js[j].chat
                && (js[i].state.Queued? || js[i].state.Sending? || js[i].state.Unknown?)
  }

  /** The row of the previous chunk, if the table holds it. */
  function PrevChunk(js: seq<Job>, j: nat): (r: Option<nat>)
    requires j < |js|
    ensures r.Some? ==> r.value < |js| && js[r.value].group == js[j].group && js[r.value].chunk + 1 == js[j].chunk
  {
    if exists i :: 0 <= i < |js| && js[i].group == js[j].group && js[i].chunk + 1 == js[j].chunk
    then FirstChunk(js, j, 0) else None
  }

  function FirstChunk(js: seq<Job>, j: nat, from: nat): (r: Option<nat>)
    requires j < |js| && from <= |js|
    ensures r.Some? ==> r.value < |js| && js[r.value].group == js[j].group && js[r.value].chunk + 1 == js[j].chunk
    ensures r.None? ==> forall i :: from <= i < |js| ==> !(js[i].group == js[j].group && js[i].chunk + 1 == js[j].chunk)
    decreases |js| - from
  {
    if from == |js| then None
    else if js[from].group == js[j].group && js[from].chunk + 1 == js[j].chunk then Some(from)
    else FirstChunk(js, j, from + 1)
  }

  function ChunkGate(js: seq<Job>, j: nat): Gate
    requires j < |js|
  {
    if js[j].group.Some? && js[j].chunk > 0 then
      match PrevChunk(js, j)
      case None => Wait
      case Some(i) =>
        if js[i].state.Failed? || js[i].state.Cancelled? then Abandon
        else if !js[i].state.Sent? then Wait
        else Pass
    else Pass
  }

  /** _order_gate */
  function OrderGate(js: seq<Job>, j: nat): Gate
    requires j < |js|
  {
    var g := ChunkGate(js, j);
    if !g.Pass? then g
    else if js[j].kind.SessionTurn? && EarlierTurnInDoubt(js, j) then Wait
    else if js[j].kind.Notice() && EarlierNoticeOpen(js, j) then Wait
    else Pass
  }

  predicate BindingActive(t: Tables, b: Option<nat>) {
    b.Some? && b.value < |t.bindings| && t.bindings[b.value].status.Active?
  }

  predicate InboxIs(t: Tables, m: Option<nat>, s: InboxState) {
    m.Some? && m.value < |t.inbox| && t.inbox[m.value].state == s
  }

  predicate PendingIs(t: Tables, p: Option<nat>, s: PendState) {
    p.Some? && p.value < |t.pendings| && t.pendings[p.value].state == s
  }

  /** _guard_ok */
  predicate GuardOk(t: Tables, job: Job) {
    match job.kind
    case SessionTurn => BindingActive(t, job.binding)
    case ApprovalCard =>
      PendingIs(t, job.refPending, PPending) && t.pendings[job.refPending.value].card == None
      && BindingActive(t, job.binding)
    case DecisionNotice =>
      (match job.expected
       case ExpectPend(s) => s != PPending && PendingIs(t, job.refPending, s)
       case ExpectInbox(s) => s.FailedIn? && InboxIs(t, job.refMsg, FailedIn)
       case _ => false)
    case LifecycleNotice =>
      job.binding.Some? && job.binding.value < |t.bindings| &&
      (match job.expected
       case ExpectActive => t.bindings[job.binding.value].status.Active?
       case ExpectClosed(s, why) =>
         t.bindings[job.binding.value].status == s && t.bindings[job.binding.value].reason == Some(why)
       case _ => false)
    case UnsupportedNotice => InboxIs(t, job.refMsg, Unsupported)
    case InboundNotice => job.expected.ExpectInbox? && InboxIs(t, job.refMsg, job.expected.inbox)
    case ReceiptReaction =>
      job.refDelivery.Some? && job.refDelivery.value < |t.deliveries|
      && !t.deliveries[job.refDelivery.value].state.DDropped?
  }

  predicate OverCap(job: Job) {
    job.kind.SessionTurn? && (job.attempts < 0 || job.attempts >= TURN_MAX_ATTEMPTS)
  }

  predicate NotYetDue(job: Job, now: int) {
    if job.state.Unknown? then job.next == None || job.next.value > now
    else job.next.Some? && job.next.value > now
  }

  /** The decision _prepare takes on row j. */
  function PrepareVerdict(t: Tables, cfg: Config, j: nat, now: int): Verdict
    requires j < |t.jobs|
  {
    var job := t.jobs[j];
    if !job.state.Retryable() then Gone
    else if !ChatAllowed(cfg, job.chat) then Dropped
    else if OverCap(job) then Dropped
    else if NotYetDue(job, now) then Skip
    else
      match OrderGate(t.jobs, j)
      case Wait => Skip
      case Abandon => Dropped
      case Pass => if GuardOk(t, job) then Send else Dropped
  }

  /** What _prepare leaves in row j; `at` is the clock read for sending_at. */
  function PrepareJob(t: Tables, cfg: Config, j: nat, now: int, at: int): Job
    requires j < |t.jobs|
  {
    var job := t.jobs[j];
    match PrepareVerdict(t, cfg, j, now)
    case Gone => job
    case Skip => job
    case Dropped =>
      if ChatAllowed(cfg, job.chat) && OverCap(job) then job.(state := Failed, error := CapAtPrepare)
      else job.(state := Cancelled)
    case Send => job.(state := Sending, sendingAt := Some(at), attempts := job.attempts + 1)
  }

  function PrepareTx(t: Tables, cfg: Config, j: nat, now: int, at: int): Tables
    requires j < |t.jobs|
  {
    t.(jobs := t.jobs[j := PrepareJob(t, cfg, j, now, at)])
  }

  // ---- _send_and_finalize ----

  datatype Outcome = WasSent(message: Option<nat>) | WasRefused | InDoubt(retryable: bool)

  function Pow2(n: nat): nat { if n == 0 then 1 else 2 * Pow2(n - 1) }

  function Min(a: int, b: int): int { if a <= b then a else b }

  function TurnDelay(attempts: int, retryable: bool): int {
    if retryable
    then Min(TURN_RETRY_BACKOFF_MS * Pow2(if attempts - 1 > 0 then attempts - 1 else 0), TURN_RETRY_BACKOFF_MAX_MS)
    else UNKNOWN_RETRY_DELAY_MS
  }

  function TurnCap(retryable: bool): int {
    if retryable then TURN_MAX_ATTEMPTS else MAX_SEND_ATTEMPTS
  }

  /** The row after _finalize_unknown. */
  function UnknownJob(job: Job, retryable: bool, now: int): Job {
    if !job.kind.SessionTurn? then
      job.(state := Unknown, error := Uncertain,
           next := if job.attempts < MAX_SEND_ATTEMPTS then Some(now + UNKNOWN_RETRY_DELAY_MS) else None)
    else if job.attempts < TurnCap(retryable) then
      job.(state := Unknown, error := Uncertain, next := Some(now + TurnDelay(job.attempts, retryable)))
    else job.(state := Failed, error := Exhausted)
  }

  predicate IsAlertTurn(job: Job) {
    job.group.Some? && job.group.value.AlertGroup?
  }

  /** _enqueue_send_failure_alert for row j */
  function AlertFor(js: seq<Job>, j: nat, now: int): Job
    requires j < |js|
  {
    TurnJob(AlertGroup(j), 0, js[j].binding, js[j].chat, "alert", now)
  }

  function FinalJob(job: Job, outcome: Outcome, now: int): Job {
    match outcome
    case WasSent(mid) => job.(state := Sent, sentMsg := mid, error := NoError)
    case WasRefused => job.(state := Failed, error := Permanent)
    case InDoubt(retryable) => UnknownJob(job, retryable, now)
  }

  /** The queue after the finalizing transaction of row j, which is `sending`. */
  function FinalizeJobs(js: seq<Job>, j: nat, outcome: Outcome, now: int): seq<Job>
    requires j < |js|
  {
    var job' := FinalJob(js[j], outcome, now);
    var js1 := js[j := job'];
    if job'.state.Failed? && job'.error.Exhausted? && !IsAlertTurn(job') then AddJob(js1, AlertFor(js1, j, now))
    else js1
  }

  function BackfillCard(ps: seq<Pending>, p: Option<nat>, mid: Option<nat>): (r: seq<Pending>)
    ensures |r| == |ps|
  {
    if p.Some? && p.value < |ps| && mid.Some? && ps[p.value].card == None
    then ps[p.value := ps[p.value].(card := mid)] else ps
  }

  function FinalizeTx(t: Tables, j: nat, outcome: Outcome, now: int): Tables
    requires j < |t.jobs|
  {
    var job := t.jobs[j];
    t.(jobs := FinalizeJobs(t.jobs, j, outcome, now),
       pendings := if outcome.WasSent? && job.kind.ApprovalCard?
                   then BackfillCard(t.pendings, job.refPending, outcome.message) else t.pendings)
  }

  // ---- startup_scan ----

  predicate NeedsReconcile(job: Job) {
    job.kind.SessionTurn? && (job.attempts >= TURN_MAX_ATTEMPTS || job.attempts < 0)
    && (job.state.Sending? || job.state.Unknown?)
  }

  function ReconcileRows(js: seq<Job>): (r: seq<nat>)
    ensures forall a :: 0 <= a < |r| ==> r[a] < |js|
  {
    SelectRowsAre(js, 0, NeedsReconcile);
    SelectRows(js, 0, NeedsReconcile)
  }

  /** Step 1 for one row. */
  function ReconcileRow(js: seq<Job>, j: nat, now: int): seq<Job>
    requires j < |js|
  {
    if js[j].state.Sending? || js[j].state.Unknown? then
      var js1 := js[j := js[j].(state := Failed, error := Exhausted)];
      if IsAlertTurn(js[j]) then js1 else AddJob(js1, AlertFor(js1, j, now))
    else js
  }

  /** Steps 2 to 5, one row each. */
  function Sweep2(job: Job): Job {
    if job.state.Sending? && !job.kind.SessionTurn? && job.attempts >= MAX_SEND_ATTEMPTS
    then job.(state := Unknown, error := CrashedMidSend, next := None) else job
  }

  function Sweep3(job: Job, now: int): Job {
    if job.state.Sending? then job.(state := Unknown, error := CrashedMidSend, next := Some(now)) else job
  }

  function Sweep4(job: Job, now: int): Job {
    if job.state.Unknown? && job.kind.SessionTurn? && job.next == None && 0 <= job.attempts < TURN_MAX_ATTEMPTS
    then job.(next := Some(now)) else job
  }

  function Sweep5(job: Job): Job {
    if job.state.Unknown? && !job.kind.SessionTurn? && job.attempts >= MAX_SEND_ATTEMPTS
    then job.(next := None) else job
  }

  function Sweep(stage: nat, job: Job, now: int): Job {
    if stage == 2 then Sweep2(job)
    else if stage == 3 then Sweep3(job, now)
    else if stage == 4 then Sweep4(job, now)
    else Sweep5(job)
  }

  function SweepAll(stage: nat, js: seq<Job>, now: int): (r: seq<Job>)
    ensures |r| == |js|
    ensures forall i :: 0 <= i < |js| ==> r[i] == Sweep(stage, js[i], now)
  {
    seq(|js|, i requires 0 <= i < |js| => Sweep(stage, js[i], now))
  }

  /** Step 1 over the rows it read. */
  function ReconcileAll(js: seq<Job>, rows: seq<nat>, k: nat, now: int): (r: seq<Job>)
    requires k <= |rows| && forall a :: 0 <= a < |rows| ==> rows[a] < |js|
    ensures |js| <= |r|
    decreases |rows| - k
  {
    if k == |rows| then js else ReconcileAll(ReconcileRow(js, rows[k], now), rows, k + 1, now)
  }

  /** startup_scan with nobody in between. */
  function StartupScan(js: seq<Job>, now: int): seq<Job> {
    SweepAll(5, SweepAll(4, SweepAll(3, SweepAll(2, ReconcileAll(js, ReconcileRows(js), 0, now), now), now), now), now)
  }

  // ---- recovery: _legacy_sending ----

  function LegacySending(js: seq<Job>, now: int): (r: seq<Job>)
    ensures |r| == |js|
  {
    seq(|js|, i requires 0 <= i < |js| =>
      if js[i].state.Sending? && js[i].sendingAt.Some? && js[i].sendingAt.value < now - 2 * SEND_TIMEOUT_MS
      then js[i].(state := Unknown, error := StaleSending, next := Some(now)) else js[i])
  }
}
