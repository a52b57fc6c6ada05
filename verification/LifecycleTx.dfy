/** lib/lifecycle.py: each transaction as a function of the tables. */
module LifecycleTx {
  import opened Schema
  import opened Jobs

  predicate LiveBinding(t: Tables, b: nat) {
    b < |t.bindings| && t.bindings[b].status.Live()
  }

  /** map_terminated_to_inbox_state; on a live binding the code raises. */
  function MapTerminated(b: Option<Binding>): InboxState
    requires b.Some? ==> !b.value.status.Live()
  {
    match b
    case None => Unbound
    case Some(row) =>
      if row.status.Dead? then SessionClosed
      else
        match row.reason
        case Some(UserUnbind) => Unbound
        case Some(BindFailed) => Unbound
        case Some(BindTimeout) => Unbound
        case Some(BindSuperseded) => Unbound
        case _ => SessionClosed
  }

  // ---- _terminate_in_tx ----

  predicate HasOpenPending(ps: seq<Pending>, b: nat, m: nat) {
    exists p :: 0 <= p < |ps| && ps[p].binding == b && ps[p].msg == m && ps[p].state.PPending?
  }

  function ExpirePendingsOf(ps: seq<Pending>, b: nat): (r: seq<Pending>)
    ensures |r| == |ps|
    ensures forall i :: 0 <= i < |ps| ==>
              r[i] == if ps[i].binding == b && ps[i].state.PPending? then ps[i].(state := PExpired) else ps[i]
  {
    seq(|ps|, i requires 0 <= i < |ps| =>
      if ps[i].binding == b && ps[i].state.PPending? then ps[i].(state := PExpired) else ps[i])
  }

  /** A row of the inbox after the cascade: waiting for approval it expires, waiting for the binding it is told. */
  function CascadedRow(row: Inbox, open: bool, b: nat, target: InboxState, now: int): Inbox {
    if open && (row.state.AwaitingApproval? || row.state.ApprovedMaterializing?) then row.(state := Expired, ts := now)
    else if row.binding == Some(b) && row.state.WaitingBinding? then row.(state := target, ts := now)
    else row
  }

  function CascadeInbox(inbox: seq<Inbox>, ps: seq<Pending>, b: nat, target: InboxState, now: int): (r: seq<Inbox>)
    ensures |r| == |inbox|
    ensures forall m :: 0 <= m < |inbox| ==>
              r[m] == CascadedRow(inbox[m], HasOpenPending(ps, b, m), b, target, now)
  {
    seq(|inbox|, m requires 0 <= m < |inbox| => CascadedRow(inbox[m], HasOpenPending(ps, b, m), b, target, now))
  }

  function DropDeliveriesOf(ds: seq<Delivery>, b: nat): (r: seq<Delivery>)
    ensures |r| == |ds|
    ensures forall i :: 0 <= i < |ds| ==>
              r[i] == if ds[i].binding == b && ds[i].state.DEnqueued? then ds[i].(state := DDropped) else ds[i]
  {
    seq(|ds|, i requires 0 <= i < |ds| =>
      if ds[i].binding == b && ds[i].state.DEnqueued? then ds[i].(state := DDropped) else ds[i])
  }

  /** The binding's own request ends if it was pending; a supersede also shuts the instance's consumed latches. */
  function CascadedBind(row: PendingBind, i: nat, b: nat, inst: nat, reason: Reason): PendingBind {
    var row1 := if i == b && row.state.BPending? then row.(state := BExpired, latch := false) else row;
    if reason.BindSuperseded? && row1.inst == inst && row1.latch && row1.state.BConsumed? then row1.(latch := false)
    else row1
  }

  function CascadeBinds(binds: seq<PendingBind>, b: nat, inst: nat, reason: Reason): (r: seq<PendingBind>)
    ensures |r| == |binds|
    ensures forall i :: 0 <= i < |binds| ==> r[i] == CascadedBind(binds[i], i, b, inst, reason)
  {
    seq(|binds|, i requires 0 <= i < |binds| => CascadedBind(binds[i], i, b, inst, reason))
  }

  /** The notices to the rows that waited for the binding, in inbox order from row `from` on. */
  function WaitingNotices(js: seq<Job>, inbox: seq<Inbox>, b: nat, target: InboxState, from: nat, now: int): seq<Job>
    requires from <= |inbox|
    decreases |inbox| - from
  {
    if from == |inbox| then js
    else if inbox[from].binding == Some(b) && inbox[from].state.WaitingBinding? then
      WaitingNotices(AddInboundNotice(js, inbox[from].chat, from, target, Some(b), now), inbox, b, target, from + 1,
                     now)
    else WaitingNotices(js, inbox, b, target, from + 1, now)
  }

  function CloseNotice(row: Binding, b: nat, reason: Reason, status: Status, now: int): Job {
    NewJob(LifecycleNotice, Some(b), row.chat, KLc(b, LcClosed(reason)), ExpectClosed(status, reason), now)
  }

  /** The whole cascade; without a live binding nothing happens. */
  function Terminate(t: Tables, b: nat, reason: Reason, status: Status, now: int): Tables
    requires !status.Live()
  {
    if !LiveBinding(t, b) then t
    else
      var row := t.bindings[b].(status := status, reason := Some(reason));
      var target := MapTerminated(Some(row));
      var js := AddJob(CancelOf(t.jobs, b), CloseNotice(row, b, reason, status, now));
      t.(bindings := t.bindings[b := row],
         pendings := ExpirePendingsOf(t.pendings, b),
         inbox := CascadeInbox(t.inbox, t.pendings, b, target, now),
         deliveries := DropDeliveriesOf(t.deliveries, b),
         binds := CascadeBinds(t.binds, b, row.inst, reason),
         jobs := WaitingNotices(js, t.inbox, b, target, 0, now))
  }

  lemma {:induction false} WaitingNoticesQuiet(js: seq<Job>, js1: seq<Job>, inbox: seq<Inbox>, b: nat,
                                               target: InboxState, from: nat, now: int)
    requires from <= |inbox| && Quiet(js, js1)
    ensures Quiet(js, WaitingNotices(js1, inbox, b, target, from, now))
    decreases |inbox| - from
  {
    if from < |inbox| {
      if inbox[from].binding == Some(b) && inbox[from].state.WaitingBinding? {
        NoticeQuiet(js, js1, inbox[from].chat, from, target, Some(b), now);
        WaitingNoticesQuiet(js, AddInboundNotice(js1, inbox[from].chat, from, target, Some(b), now), inbox, b, target,
                            from + 1, now);
      } else {
        WaitingNoticesQuiet(js, js1, inbox, b, target, from + 1, now);
      }
    }
  }

  /** To the sender a termination is quiet, and it leaves nothing of the binding to send. */
  lemma TerminateQuiet(t: Tables, b: nat, reason: Reason, status: Status, now: int)
    requires !status.Live()
    ensures Quiet(t.jobs, Terminate(t, b, reason, status, now).jobs)
  {
    if LiveBinding(t, b) {
      var row := t.bindings[b].(status := status, reason := Some(reason));
      CancelOfQuiet(t.jobs, b);
      AddJobQuiet(t.jobs, CancelOf(t.jobs, b), CloseNotice(row, b, reason, status, now));
      WaitingNoticesQuiet(t.jobs, AddJob(CancelOf(t.jobs, b), CloseNotice(row, b, reason, status, now)), t.inbox, b,
                          MapTerminated(Some(row)), 0, now);
    }
  }

  // ---- create_binding ----

  datatype BindOutcome = Bound(id: nat) | ChatBusy | InstanceBusy

  /** The row the partial unique index on (cc_pid, cc_start) lets at most one `starting` binding be. */
  function StartingOf(bs: seq<Binding>, inst: nat, from: nat): (r: Option<nat>)
    requires from <= |bs|
    ensures r.Some? ==> from <= r.value < |bs| && bs[r.value].inst == inst && bs[r.value].status.Starting?
    ensures r.None? ==> forall i :: from <= i < |bs| ==> !(bs[i].inst == inst && bs[i].status.Starting?)
    decreases |bs| - from
  {
    if from == |bs| then None
    else if bs[from].inst == inst && bs[from].status.Starting? then Some(from)
    else StartingOf(bs, inst, from + 1)
  }

  predicate ChatTaken(bs: seq<Binding>, chat: nat) {
    exists i :: 0 <= i < |bs| && bs[i].status.Live() && bs[i].chat == chat
  }

  predicate InstTaken(bs: seq<Binding>, inst: nat) {
    exists i :: 0 <= i < |bs| && bs[i].status.Live() && bs[i].inst == inst
  }

  function ExpireBindsOf(binds: seq<PendingBind>, inst: nat): (r: seq<PendingBind>)
    ensures |r| == |binds|
    ensures forall i :: 0 <= i < |binds| ==>
              r[i] == if binds[i].inst == inst && binds[i].state.BPending?
                      then binds[i].(state := BExpired, latch := false) else binds[i]
  {
    seq(|binds|, i requires 0 <= i < |binds| =>
      if binds[i].inst == inst && binds[i].state.BPending? then binds[i].(state := BExpired, latch := false)
      else binds[i])
  }

  /** The instance's own unfinished bind, if any, gives way first. */
  function Superseded(t: Tables, inst: nat, now: int): Tables {
    var t1 := match StartingOf(t.bindings, inst, 0)
              case Some(b) => Terminate(t, b, BindSuperseded, Closed, now)
              case None => t;
    t1.(binds := ExpireBindsOf(t1.binds, inst))
  }

  /** A unique-index conflict rolls everything back. */
  function CreateBinding(t: Tables, chat: nat, inst: nat, nonce: nat, now: int): (Tables, BindOutcome) {
    var t1 := Superseded(t, inst, now);
    if ChatTaken(t1.bindings, chat) || InstTaken(t1.bindings, inst) then
      (t, if ChatTaken(t.bindings, chat) then ChatBusy else InstanceBusy)
    else
      (t1.(bindings := t1.bindings + [Binding(chat, None, inst, Starting, false, None, None, 0, None, None, None)],
           binds := t1.binds + [PendingBind(inst, nonce, BPending, false, now + PENDING_BIND_TTL_MS)]),
       Bound(|t1.bindings|))
  }

  // ---- expire_stale_pending_binds, one row ----

  predicate BindExpired(t: Tables, r: nat, now: int) {
    r < |t.binds| && t.binds[r].state.BPending? && t.binds[r].expires < now
  }

  function ExpireBind(t: Tables, r: nat, now: int): Tables {
    if !BindExpired(t, r, now) then t
    else
      Terminate(t.(binds := t.binds[r := t.binds[r].(state := BExpired, latch := false)]), r, BindTimeout, Closed, now)
  }

  // ---- activate_if_ready ----

  predicate HeartbeatFresh(b: Binding, now: int) {
    b.listener.Some? && b.epoch > 0 && b.beat.Some? && now - b.beat.value <= HEARTBEAT_FRESH_MS
  }

  function BoundNotice(row: Binding, b: nat, now: int): Job {
    NewJob(LifecycleNotice, Some(b), row.chat, KLc(b, LcBound), ExpectActive, now)
  }

  function Activate(t: Tables, b: nat, now: int): Tables
    requires b < |t.bindings|
  {
    t.(bindings := t.bindings[b := t.bindings[b].(status := Active)],
       jobs := AddJob(t.jobs, BoundNotice(t.bindings[b], b, now)))
  }

  function ActivateIfReady(t: Tables, b: nat, now: int): Tables {
    if b >= |t.bindings| || !t.bindings[b].status.Starting? || !t.bindings[b].confirmed then t
    else if HeartbeatFresh(t.bindings[b], now) then
      if t.bindings[b].session.Some? then Activate(t, b, now) else t
    else if t.bindings[b].confirmedAt.Some? && now - t.bindings[b].confirmedAt.value > ACTIVATION_TIMEOUT_MS then
      Terminate(t, b, ListenerNeverReady, Closed, now)
    else t
  }

  // ---- death_scan, one row as read ----

  datatype Judgement = CcDead | NotActive | Alive | Spared | Suspected | ConfirmedGone

  /** The decision on a row as the scan read it; `dead` is the process probe's answer. */
  function Judge(seen: Binding, scanNow: int, dead: bool, inSuspectWindow: bool): Judgement {
    if dead then CcDead
    else if !seen.status.Active? then NotActive
    else if seen.beat.Some? && scanNow - seen.beat.value <= HEARTBEAT_GRACE_MS then Alive
    else if inSuspectWindow then Spared
    else if seen.suspect == None then Suspected
    else if scanNow - seen.suspect.value >= SUSPECT_CONFIRM_MS then ConfirmedGone
    else Spared
  }

  function SetSuspect(t: Tables, b: nat, s: Option<int>): Tables {
    if b < |t.bindings| && t.bindings[b].status.Active?
    then t.(bindings := t.bindings[b := t.bindings[b].(suspect := s)]) else t
  }

  function JudgeRow(t: Tables, b: nat, seen: Binding, scanNow: int, dead: bool, inSuspectWindow: bool, now: int)
    : Tables
  {
    match Judge(seen, scanNow, dead, inSuspectWindow)
    case CcDead => Terminate(t, b, CcGone, Closed, now)
    case Alive => if seen.suspect.Some? then SetSuspect(t, b, None) else t
    case Suspected => SetSuspect(t, b, Some(scanNow))
    case ConfirmedGone => Terminate(t, b, ListenerGone, Dead, now)
    case _ => t
  }
}
