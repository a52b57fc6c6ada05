/** lib/recovery.py: each statement or per-row transaction of the recovery worker as a function of the tables. */
module RecoveryTx {
  import opened Schema
  import opened Jobs
  import opened OutboundTx
  import opened LifecycleTx
  import opened InboundTx

  /** _redrive_resolving past the deadline */
  function ResolveDeadline(t: Tables, m: nat, now: int): Tables {
    if m < |t.inbox| && (t.inbox[m].state.Received? || t.inbox[m].state.Resolving?)
       && now - t.inbox[m].ts > RESOLVE_DEADLINE_MS
    then SetState(t, m, FailedIn, now) else t
  }

  function JobWithKey(js: seq<Job>, key: Key, from: nat): (r: Option<nat>)
    requires from <= |js|
    ensures r.Some? ==> r.value < |js| && js[r.value].key == key
    decreases |js| - from
  {
    if from == |js| then None
    else if js[from].key == key then Some(from)
    else JobWithKey(js, key, from + 1)
  }

  /** _replenish_cards, one pending */
  function ReplenishCard(t: Tables, p: nat, now: int): Tables {
    if !(p < |t.pendings| && t.pendings[p].state.PPending? && t.pendings[p].msg < |t.inbox|) then t
    else
      match JobWithKey(t.jobs, KCard(p), 0)
      case None => t.(jobs := AddJob(t.jobs, CardJob(t.inbox[t.pendings[p].msg].chat, t.pendings[p].binding, p, now)))
      case Some(j) =>
        if t.pendings[p].card == None && t.jobs[j].state.Sent?
        then t.(pendings := BackfillCard(t.pendings, Some(p), t.jobs[j].sentMsg)) else t
  }

  predicate CardAwaited(t: Tables, job: Job) {
    job.kind.ApprovalCard? && job.state.Failed?
    && job.refPending.Some? && job.refPending.value < |t.pendings|
    && t.pendings[job.refPending.value].state.PPending? && t.pendings[job.refPending.value].card == None
  }

  function CardDelay(attempts: int): int {
    var n := if attempts == 0 then 1 else attempts;
    Min(CARD_REARM_BACKOFF_MS * Pow2(if n - 1 > 0 then n - 1 else 0), CARD_REARM_BACKOFF_MAX_MS)
  }

  /** _rearm_failed_cards, one row */
  function RearmCard(t: Tables, j: nat, now: int): Tables {
    if !(j < |t.jobs| && CardAwaited(t, t.jobs[j])) then t
    else if t.jobs[j].attempts >= CARD_REARM_MAX_ATTEMPTS then
      t.(jobs := t.jobs[j := t.jobs[j].(error := GivenUp)])
    else if BindingActive(t, t.jobs[j].binding) then
      t.(jobs := t.jobs[j := t.jobs[j].(state := Queued, next := Some(now + CardDelay(t.jobs[j].attempts)))])
    else t
  }

  /** _redrive_materializing: the binding is not active any more */
  function MaterializeOrphan(t: Tables, m: nat, now: int): Tables {
    if m < |t.inbox| && t.inbox[m].state.ApprovedMaterializing?
       && (BindingOf(t, m).None? || !BindingOf(t, m).value.status.Active?)
    then SetState(t, m, Undeliverable, now) else t
  }

  function PendingOfMsg(ps: seq<Pending>, m: nat, from: nat): (r: Option<nat>)
    requires from <= |ps|
    ensures r.Some? ==> from <= r.value < |ps| && ps[r.value].msg == m
    ensures r.None? ==> forall i :: from <= i < |ps| ==> ps[i].msg != m
    decreases |ps| - from
  {
    if from == |ps| then None
    else if ps[from].msg == m then Some(from)
    else PendingOfMsg(ps, m, from + 1)
  }

  /** _redrive_materializing past the deadline; the binding was active when the worker looked */
  function MaterializeDeadline(t: Tables, m: nat, now: int): Tables {
    if m < |t.inbox| && t.inbox[m].state.ApprovedMaterializing? && now - t.inbox[m].ts > MATERIALIZE_DEADLINE_MS then
      var t1 := SetState(t, m, FailedIn, now);
      match PendingOfMsg(t.pendings, m, 0)
      case None => t1
      case Some(p) => t1.(jobs := AddJob(t1.jobs, DecisionJob(t, m, p, ExpectInbox(FailedIn), now)))
    else t
  }

  /** _expire_pendings, one row */
  function ExpirePending(t: Tables, p: nat, now: int): Tables {
    if p < |t.pendings| && t.pendings[p].state.PPending? && t.pendings[p].msg < |t.inbox|
       && t.pendings[p].createdAt + PENDING_TTL_MS < now
    then
      var m := t.pendings[p].msg;
      var t1 := t.(pendings := t.pendings[p := t.pendings[p].(state := PExpired)]);
      var t2 := CasState(t1, m, AwaitingApproval, Expired, now);
      t2.(jobs := AddJob(t2.jobs, DecisionJob(t, m, p, ExpectPend(PExpired), now)))
    else t
  }

  /** _close_orphan_starting picks binding b. */
  predicate OrphanStarting(t: Tables, b: nat) {
    b < |t.bindings| && t.bindings[b].status.Starting? && !t.bindings[b].confirmed
    && !(b < |t.binds| && t.binds[b].state.BPending?)
  }

  function CloseOrphan(t: Tables, b: nat, now: int): Tables {
    if OrphanStarting(t, b) then Terminate(t, b, BindTimeout, Closed, now) else t
  }

  /** _reclaim_leases: one statement that looks at the binding as it writes */
  function ReclaimRow(d: Delivery, bs: seq<Binding>, now: int): Delivery {
    if d.state.DLeased? && d.leaseUntil.Some? && d.leaseUntil.value < now then
      d.(state := if d.binding < |bs| && bs[d.binding].status.Active? then DEnqueued else DDropped,
         token := None, leaseEpoch := None, leaseUntil := None)
    else d
  }

  function ReclaimLeases(t: Tables, now: int): (r: Tables)
    ensures |r.deliveries| == |t.deliveries| && r == t.(deliveries := r.deliveries)
    ensures forall i :: 0 <= i < |t.deliveries| ==> r.deliveries[i] == ReclaimRow(t.deliveries[i], t.bindings, now)
  {
    t.(deliveries := seq(|t.deliveries|, i requires 0 <= i < |t.deliveries| =>
                       ReclaimRow(t.deliveries[i], t.bindings, now)))
  }

  /** _sweep_stranded_enqueued */
  function SweepStranded(t: Tables): (r: Tables)
    ensures |r.deliveries| == |t.deliveries| && r == t.(deliveries := r.deliveries)
    ensures forall i :: 0 <= i < |t.deliveries| ==>
              r.deliveries[i] == if t.deliveries[i].state.DEnqueued? && t.deliveries[i].binding < |t.bindings|
                                    && !t.bindings[t.deliveries[i].binding].status.Live()
                                 then t.deliveries[i].(state := DDropped) else t.deliveries[i]
  {
    t.(deliveries := seq(|t.deliveries|, i requires 0 <= i < |t.deliveries| =>
                       if t.deliveries[i].state.DEnqueued? && t.deliveries[i].binding < |t.bindings|
                          && !t.bindings[t.deliveries[i].binding].status.Live()
                       then t.deliveries[i].(state := DDropped) else t.deliveries[i]))
  }

  // ---- _retention: bodies of finished rows are trimmed ----

  function TrimInbox(row: Inbox, cutoff: int): Inbox {
    if row.state.Final() && row.ts < cutoff then row.(snap := None) else row
  }

  function TrimDelivery(d: Delivery, cutoff: int): Delivery {
    if (d.state.DEmitted? || d.state.DDropped?) && d.enqAt < cutoff then d.(payload := None) else d
  }

  function TrimJob(job: Job, cutoff: int): Job {
    if job.state.Terminal() && job.createdAt < cutoff then job.(body := None) else job
  }

  function Retention(t: Tables, now: int): (r: Tables)
    ensures r == t.(inbox := r.inbox, deliveries := r.deliveries, jobs := r.jobs)
    ensures |r.inbox| == |t.inbox| && |r.deliveries| == |t.deliveries| && |r.jobs| == |t.jobs|
    ensures forall i :: 0 <= i < |t.inbox| ==> r.inbox[i] == TrimInbox(t.inbox[i], now - RETENTION_MS)
    ensures forall i :: 0 <= i < |t.deliveries| ==> r.deliveries[i] == TrimDelivery(t.deliveries[i], now - RETENTION_MS)
    ensures forall i :: 0 <= i < |t.jobs| ==> r.jobs[i] == TrimJob(t.jobs[i], now - RETENTION_MS)
  {
    t.(inbox := seq(|t.inbox|, i requires 0 <= i < |t.inbox| => TrimInbox(t.inbox[i], now - RETENTION_MS)),
       deliveries := seq(|t.deliveries|, i requires 0 <= i < |t.deliveries| =>
                       TrimDelivery(t.deliveries[i], now - RETENTION_MS)),
       jobs := seq(|t.jobs|, i requires 0 <= i < |t.jobs| => TrimJob(t.jobs[i], now - RETENTION_MS)))
  }
}
