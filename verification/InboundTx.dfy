/** lib/inbound.py: each transaction as a function of the tables. */
module InboundTx {
  import opened Schema
  import opened Jobs
  import opened LifecycleTx

  /** The pipeline never touches a binding or a bind request. */
  predicate LeavesBindings(t: Tables, r: Tables) {
    r.bindings == t.bindings && r.binds == t.binds && r.nextId == t.nextId
  }

  // ---- _insert_or_resume ----

  /** The chat's newest binding, ended or not. */
  function NewestOf(bs: seq<Binding>, chat: nat, below: nat): (r: Option<nat>)
    requires below <= |bs|
    ensures r.Some? ==> r.value < below && bs[r.value].chat == chat
    ensures r.Some? ==> forall i :: r.value < i < below ==> bs[i].chat != chat
    ensures r.None? ==> forall i :: 0 <= i < below ==> bs[i].chat != chat
  {
    if below == 0 then None
    else if bs[below - 1].chat == chat then Some(below - 1)
    else NewestOf(bs, chat, below - 1)
  }

  predicate EventKnown(inbox: seq<Inbox>, event: nat, message: nat) {
    exists m :: 0 <= m < |inbox| && (inbox[m].event == event || inbox[m].message == message)
  }

  /** A known event or message id inserts nothing. */
  function InsertTx(t: Tables, event: nat, message: nat, chat: nat, sender: Option<nat>, now: int): (r: Tables)
    ensures LeavesBindings(t, r)
  {
    if EventKnown(t.inbox, event, message) then t
    else t.(inbox := t.inbox + [Inbox(event, message, chat, NewestOf(t.bindings, chat, |t.bindings|), sender, None,
                                      Received, now)])
  }

  // ---- Row states ----

  function SetState(t: Tables, m: nat, s: InboxState, now: int): (r: Tables)
    requires m < |t.inbox|
    ensures LeavesBindings(t, r)
  {
    t.(inbox := t.inbox[m := t.inbox[m].(state := s, ts := now)])
  }

  /** UPDATE ... WHERE state=from */
  function CasState(t: Tables, m: nat, from: InboxState, s: InboxState, now: int): (r: Tables)
    requires m < |t.inbox|
    ensures LeavesBindings(t, r)
  {
    if t.inbox[m].state == from then SetState(t, m, s, now) else t
  }

  function BindingOf(t: Tables, m: nat): Option<Binding>
    requires m < |t.inbox|
  {
    match t.inbox[m].binding
    case Some(b) => if b < |t.bindings| then Some(t.bindings[b]) else None
    case None => None
  }

  // ---- _enqueue_in_tx ----

  function DeliveryOf(ds: seq<Delivery>, b: nat, m: nat, from: nat): (r: Option<nat>)
    requires from <= |ds|
    ensures r.Some? ==> r.value < |ds| && ds[r.value].binding == b && ds[r.value].msg == m
    ensures r.None? ==> forall i :: from <= i < |ds| ==> !(ds[i].binding == b && ds[i].msg == m)
    decreases |ds| - from
  {
    if from == |ds| then None
    else if ds[from].binding == b && ds[from].msg == m then Some(from)
    else DeliveryOf(ds, b, m, from + 1)
  }

  function ReceiptJob(chat: nat, b: nat, m: nat, seqno: nat, now: int): Job {
    NewJob(ReceiptReaction, Some(b), chat, KRc(seqno), ExpectNothing, now)
    .(refDelivery := Some(seqno), refMsg := Some(m))
  }

  function EnqueueTx(t: Tables, m: nat, b: nat, snap: Snap, from: InboxState, approver: ApprovedBy, receipt: bool, now: int)
    : (r: (Tables, bool))
    requires m < |t.inbox|
    ensures LeavesBindings(t, r.0)
  {
    if !(b < |t.bindings| && t.bindings[b].status.Active?) then (t, false)
    else
      var known := DeliveryOf(t.deliveries, b, m, 0);
      var seqno := if known.Some? then known.value else |t.deliveries|;
      var t1 := if known.Some? then t
                else t.(deliveries := t.deliveries + [Delivery(b, m, Some(Payload(snap.sender, approver)), DEnqueued, None,
                                                               None, None, 0, now)]);
      var t2 := CasState(t1, m, from, Enqueued, now);
      (if receipt then t2.(jobs := AddJob(t2.jobs, ReceiptJob(t.inbox[m].chat, b, m, seqno, now))) else t2, true)
  }

  // ---- _gate_active_in_tx ----

  function CountUndecided(t: Tables, chat: nat, from: nat): nat
    requires from <= |t.pendings|
    decreases |t.pendings| - from
  {
    if from == |t.pendings| then 0
    else
      var p := t.pendings[from];
      (if p.msg < |t.inbox| && t.inbox[p.msg].chat == chat && p.state.PPending? then 1 else 0)
      + CountUndecided(t, chat, from + 1)
  }

  function LastPending(t: Tables, sender: Option<nat>, from: nat): Option<int>
    requires from <= |t.pendings|
    decreases |t.pendings| - from
  {
    if from == |t.pendings| then None
    else
      var p := t.pendings[from];
      var rest := LastPending(t, sender, from + 1);
      if p.msg < |t.inbox| && sender.Some? && t.inbox[p.msg].sender == sender
         && (rest.None? || rest.value < p.createdAt)
      then Some(p.createdAt) else rest
  }

  /** _member_quota_reason: the row may not open another approval. */
  predicate OverQuota(t: Tables, chat: nat, sender: Option<nat>, now: int) {
    || CountUndecided(t, chat, 0) >= MAX_UNDECIDED_PER_CHAT
    || (var last := LastPending(t, sender, 0);
        last.Some? && 0 <= now - last.value < SENDER_COOLDOWN_MS)
  }

  function CardJob(chat: nat, b: nat, p: nat, now: int): Job {
    NewJob(ApprovalCard, Some(b), chat, KCard(p), ExpectPend(PPending), now).(refPending := Some(p))
  }

  function OpenApproval(t: Tables, m: nat, b: nat, from: InboxState, nonce: nat, now: int): (r: Tables)
    requires m < |t.inbox|
    ensures LeavesBindings(t, r)
  {
    var p := |t.pendings|;
    var t1 := t.(pendings := t.pendings + [Pending(m, b, nonce, None, PPending, None, None, now)]);
    var t2 := CasState(t1, m, from, AwaitingApproval, now);
    t2.(jobs := AddJob(t2.jobs, CardJob(t.inbox[m].chat, b, p, now)))
  }

  /** The gate asks the member allowlist about this row: a supported message of somebody known, other than the owner, to
      an active binding. */
  predicate Consults(t: Tables, cfg: Config, m: nat, snap: Snap, from: InboxState)
    requires m < |t.inbox|
  {
    && t.inbox[m].state == from && (from.Resolving? ==> snap.mentioned)
    && t.inbox[m].binding.Some? && t.inbox[m].binding.value < |t.bindings|
    && t.bindings[t.inbox[m].binding.value].status.Active?
    && snap.msgType.Supported() && snap.sender.Some? && snap.sender != Some(cfg.owner)
  }

  function UnsupportedJob(chat: nat, b: nat, m: nat, now: int): Job {
    NewJob(UnsupportedNotice, Some(b), chat, KUn(m), ExpectInbox(Unsupported), now).(refMsg := Some(m))
  }

  /** The gate of an active binding; the flag asks for a media download before the row may go on. `listed` is the
      member allowlist's answer for the row's chat and sender (never for a missing sender). */
  function GateTx(t: Tables, cfg: Config, m: nat, snap: Snap, b: nat, from: InboxState, listed: bool, nonce: nat,
                  now: int): (r: (Tables, bool))
    requires m < |t.inbox|
    ensures LeavesBindings(t, r.0)
  {
    if !snap.msgType.Supported() then
      var t1 := CasState(t, m, from, Unsupported, now);
      (t1.(jobs := AddJob(t1.jobs, UnsupportedJob(t.inbox[m].chat, b, m, now))), false)
    else if snap.sender == Some(cfg.owner) then
      if snap.msgType.Media() then (t, true) else (EnqueueTx(t, m, b, snap, from, NoApprover, true, now).0, false)
    else if snap.sender.Some? && listed then
      if snap.msgType.Media() then (t, true) else (EnqueueTx(t, m, b, snap, from, ByAllowlist, true, now).0, false)
    else if OverQuota(t, t.inbox[m].chat, snap.sender, now) then (CasState(t, m, from, FailedIn, now), false)
    else (OpenApproval(t, m, b, from, nonce, now), false)
  }

  /** Closing a row whose binding has ended, with its notice. */
  function TellTx(t: Tables, m: nat, from: InboxState, b: Option<Binding>, now: int): (r: Tables)
    requires m < |t.inbox| && (b.Some? ==> !b.value.status.Live())
    ensures LeavesBindings(t, r)
  {
    var target := MapTerminated(b);
    var t1 := CasState(t, m, from, target, now);
    t1.(jobs := AddInboundNotice(t1.jobs, t.inbox[m].chat, m, target, if b.Some? then t.inbox[m].binding else None, now))
  }

  // ---- _drive_resolving / _decide_in_tx ----

  function SnapOf(t: Tables, m: nat, fetched: Snap): Snap
    requires m < |t.inbox|
  {
    if t.inbox[m].snap.Some? then t.inbox[m].snap.value else fetched
  }

  function DecideTx(t: Tables, cfg: Config, m: nat, fetched: Snap, listed: bool, nonce: nat, now: int): (r: (Tables, bool))
    requires m < |t.inbox|
    ensures LeavesBindings(t, r.0)
  {
    if !t.inbox[m].state.Resolving? then (t, false)
    else
      var snap := SnapOf(t, m, fetched);
      var t1 := t.(inbox := t.inbox[m := t.inbox[m].(snap := Some(snap), sender := snap.sender)]);
      if !snap.mentioned then
        (t1.(inbox := t1.inbox[m := t1.inbox[m].(state := IgnoredNotMentioned, snap := None, ts := now)]), false)
      else
        var b := BindingOf(t1, m);
        if b.None? || !b.value.status.Live() then (TellTx(t1, m, Resolving, b, now), false)
        else if b.value.status.Starting? then (CasState(t1, m, Resolving, WaitingBinding, now), false)
        else GateTx(t1, cfg, m, snap, t1.inbox[m].binding.value, Resolving, listed, nonce, now)
  }

  // ---- _drive_waiting ----

  function WaitingTx(t: Tables, cfg: Config, m: nat, fetched: Snap, listed: bool, nonce: nat, now: int): (r: (Tables, bool))
    requires m < |t.inbox|
    ensures LeavesBindings(t, r.0)
  {
    if !t.inbox[m].state.WaitingBinding? then (t, false)
    else
      var snap := SnapOf(t, m, fetched);
      var b := BindingOf(t, m);
      if b.Some? && b.value.status.Active? then
        GateTx(t, cfg, m, snap, t.inbox[m].binding.value, WaitingBinding, listed, nonce, now)
      else if b.None? || !b.value.status.Live() then (TellTx(t, m, WaitingBinding, b, now), false)
      else (t, false)
  }

  // ---- _materialize_then_finalize ----

  function DecisionJob(t: Tables, m: nat, p: nat, outcome: Expect, now: int): Job
    requires m < |t.inbox|
  {
    NewJob(DecisionNotice, t.inbox[m].binding, t.inbox[m].chat, KDec(p, outcome), outcome, now)
    .(refPending := Some(p), refMsg := Some(m))
  }

  /** The download failed for good. */
  function MediaFailedTx(t: Tables, m: nat, from: InboxState, pending: Option<nat>, now: int): (r: Tables)
    requires m < |t.inbox|
    ensures LeavesBindings(t, r)
  {
    var t1 := CasState(t, m, from, FailedIn, now);
    if pending.Some? then t1.(jobs := AddJob(t1.jobs, DecisionJob(t, m, pending.value, ExpectInbox(FailedIn), now)))
    else t1
  }

  /** Who let a downloaded message through. */
  function MediaApprover(t: Tables, cfg: Config, snap: Snap, pending: Option<nat>): ApprovedBy {
    if pending.Some? then
      if pending.value < |t.pendings| && t.pendings[pending.value].decidedBy.Some?
      then ByUser(t.pendings[pending.value].decidedBy.value) else NoApprover
    else if snap.sender != Some(cfg.owner) then ByAllowlist
    else NoApprover
  }

  /** The transaction after the download; it does not look at the row's state again. */
  function MediaDoneTx(t: Tables, cfg: Config, m: nat, snap: Snap, from: InboxState, pending: Option<nat>, now: int)
    : (r: Tables)
    requires m < |t.inbox|
    ensures LeavesBindings(t, r)
  {
    var b := BindingOf(t, m);
    if b.Some? && b.value.status.Active? then
      var t1 := EnqueueTx(t, m, t.inbox[m].binding.value, snap, from, MediaApprover(t, cfg, snap, pending),
                          pending.None?, now).0;
      if pending.Some? then
        t1.(jobs := AddJob(t1.jobs, DecisionJob(t, m, pending.value, ExpectPend(PApproved), now)))
      else t1
    else if pending.Some? then CasState(t, m, from, Undeliverable, now)
    else if b.Some? && b.value.status.Live() then t // the mapping raises and the transaction rolls back
    else if t.inbox[m].state == from then TellTx(t, m, from, b, now)
    else t
  }
}
