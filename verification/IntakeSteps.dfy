/** Inbox, approvals and deliveries: every transaction keeps the coupling. */
module IntakeSteps {
  import opened Schema
  import opened World
  import opened LifecycleTx
  import opened InboundTx
  import opened ApprovalTx
  import opened IntakeInvariant

  // ---- A delivery is queued ----

  lemma NoDeliveryYet(t: Tables, allowed: set<(nat, nat, Option<nat>)>, owner: nat, m: nat, b: nat)
    requires IntakeOk(t, allowed, owner) && m < |t.inbox| && !t.inbox[m].state.Enqueued?
    ensures forall d :: 0 <= d < |t.deliveries| ==> t.deliveries[d].msg != m
    ensures DeliveryOf(t.deliveries, b, m, 0).None?
  {}

  /** What queueing does to the tables of the intake. */
  ghost predicate Queued1(t: Tables, t': Tables, m: nat, b: nat, d: Delivery, now: int)
    requires m < |t.inbox|
  {
    && d.binding == b && d.msg == m && d.state.DEnqueued?
    && t'.bindings == t.bindings && t'.callbacks == t.callbacks
    && t'.inbox == t.inbox[m := t.inbox[m].(state := Enqueued, ts := now)]
    && t'.deliveries == t.deliveries + [d]
  }

  /** An enqueue in an active binding, from the state the row is in, is exactly one new delivery. */
  lemma EnqueueIs(t: Tables, allowed: set<(nat, nat, Option<nat>)>, owner: nat, m: nat, b: nat, snap: Snap,
                  from: InboxState, approver: ApprovedBy, receipt: bool, now: int)
    requires IntakeOk(t, allowed, owner) && m < |t.inbox| && t.inbox[m].state == from && !from.Enqueued?
    requires b < |t.bindings| && t.bindings[b].status.Active?
    ensures var r := EnqueueTx(t, m, b, snap, from, approver, receipt, now);
            r.1 && r.0.pendings == t.pendings
            && Queued1(t, r.0, m, b,
                       Delivery(b, m, Some(Payload(snap.sender, approver)), DEnqueued, None, None, None, 0, now), now)
  {}

  lemma QueuedKeeps(t: Tables, t': Tables, allowed: set<(nat, nat, Option<nat>)>, owner: nat, m: nat, b: nat,
                    d: Delivery, now: int)
    requires IntakeOk(t, allowed, owner) && m < |t.inbox| && !t.inbox[m].state.Enqueued?
    requires Queued1(t, t', m, b, d, now) && |t'.pendings| == |t.pendings|
    requires t.inbox[m].binding == Some(b) && b < |t.bindings| && t.bindings[b].status.Active?
    requires forall p :: 0 <= p < |t.pendings| ==> t'.pendings[p].msg == t.pendings[p].msg
    requires forall p :: 0 <= p < |t.pendings| && t.pendings[p].state.PApproved? ==> t'.pendings[p] == t.pendings[p]
    requires forall p :: 0 <= p < |t.pendings| && t.pendings[p].msg != m ==> t'.pendings[p] == t.pendings[p]
    requires forall p :: 0 <= p < |t.pendings| && t.pendings[p].msg == m ==>
               t'.pendings[p].binding == t.pendings[p].binding && t'.pendings[p].state.PApproved?
    requires forall p :: 0 <= p < |t'.pendings| ==> DecisionFits(t'.pendings[p], t'.callbacks, owner)
    requires PendingsDistinct(t'.pendings)
    requires Provenance(d, t'.inbox, t'.pendings, allowed, owner)
    ensures IntakeOk(t', allowed, owner)
  {
    NoDeliveryYet(t, allowed, owner, m, b);
    DeliveriesUnmoved(t, t'.(deliveries := t.deliveries), allowed, owner);
    var n := |t.deliveries|;
    assert t'.deliveries[n] == d;
    forall i | 0 <= i < |t'.inbox|
      ensures RowFits(t'.inbox[i], t'.bindings) && (NeedsPending(t'.inbox[i].state) ==> HasPending(t'.pendings, i))
      ensures t'.inbox[i].state.Enqueued? ==> HasDelivery(t'.deliveries, i)
    {
      assert RowFits(t.inbox[i], t.bindings);
      if i != m && NeedsPending(t'.inbox[i].state) {
        assert HasPending(t.pendings, i);
        var p :| 0 <= p < |t.pendings| && t.pendings[p].msg == i;
        assert t'.pendings[p].msg == i;
      }
      if i != m && t'.inbox[i].state.Enqueued? {
        assert HasDelivery(t.deliveries, i);
        var e :| 0 <= e < |t.deliveries| && t.deliveries[e].msg == i;
        assert t'.deliveries[e].msg == i;
      }
    }
    forall p | 0 <= p < |t'.pendings| ensures PendingFits(t'.pendings[p], t'.inbox, t'.bindings) {
      assert PendingFits(t.pendings[p], t.inbox, t.bindings);
    }
    forall i | 0 <= i < |t'.deliveries|
      ensures DeliveryFits(t'.deliveries[i], t'.inbox, t'.bindings)
      ensures Provenance(t'.deliveries[i], t'.inbox, t'.pendings, allowed, owner)
    {
      if i < n { assert t'.deliveries[i] == t.deliveries[i]; }
    }
  }

  /** A direct delivery: the owner's, or one the allowlist let through. */
  lemma DirectEnqueueKeeps(t: Tables, allowed: set<(nat, nat, Option<nat>)>, owner: nat, m: nat, b: nat, snap: Snap,
                           from: InboxState, approver: ApprovedBy, receipt: bool, now: int)
    requires IntakeOk(t, allowed, owner) && m < |t.inbox| && t.inbox[m].state == from
    requires from.Resolving? || from.WaitingBinding?
    requires t.inbox[m].binding == Some(b) && b < |t.bindings| && t.bindings[b].status.Active?
    requires (approver.NoApprover? && snap.sender == Some(owner))
             || (approver.ByAllowlist? && (m, t.inbox[m].chat, snap.sender) in allowed)
    ensures IntakeOk(EnqueueTx(t, m, b, snap, from, approver, receipt, now).0, allowed, owner)
  {
    NoPendingYet(t, allowed, owner, m);
    EnqueueIs(t, allowed, owner, m, b, snap, from, approver, receipt, now);
    QueuedKeeps(t, EnqueueTx(t, m, b, snap, from, approver, receipt, now).0, allowed, owner, m, b,
                Delivery(b, m, Some(Payload(snap.sender, approver)), DEnqueued, None, None, None, 0, now), now);
  }

  lemma MoreAllowedKeeps(t: Tables, d: Daemon, allowed: set<(nat, nat, Option<nat>)>,
                         more: set<(nat, nat, Option<nat>)>, owner: nat)
    requires IntakeOk(t, allowed, owner) && MediaOk(t, d, allowed, owner) && allowed <= more
    ensures IntakeOk(t, more, owner) && MediaOk(t, d, more, owner)
  {}

  lemma JobsDoNotMatter(t: Tables, t': Tables, d: Daemon, allowed: set<(nat, nat, Option<nat>)>, owner: nat)
    requires IntakeOk(t, allowed, owner) && MediaOk(t, d, allowed, owner)
    requires OnlyBindings(t, t') && t'.bindings == t.bindings
    ensures IntakeOk(t', allowed, owner) && MediaOk(t', d, allowed, owner)
  {}

  // ---- The gate of an active binding ----

  ghost predicate AskedMedia(t: Tables, m: nat, snap: Snap, from: InboxState, allowed: set<(nat, nat, Option<nat>)>,
                             owner: nat, asked: bool) {
    asked ==> MediaOk(t, Materializing(m, snap, from, None), allowed, owner)
  }

  lemma GateKeeps(t: Tables, cfg: Config, allowed: set<(nat, nat, Option<nat>)>, m: nat, snap: Snap, b: nat,
                  from: InboxState, listed: bool, nonce: nat, now: int)
    requires IntakeOk(t, allowed, cfg.owner) && m < |t.inbox| && t.inbox[m].state == from && t.inbox[m].snap.Some?
    requires from.Resolving? || from.WaitingBinding?
    requires t.inbox[m].binding == Some(b) && b < |t.bindings| && t.bindings[b].status.Active?
    requires from.Resolving? ==> snap.mentioned
    requires listed && Consults(t, cfg, m, snap, from) ==> (m, t.inbox[m].chat, snap.sender) in allowed
    ensures var r := GateTx(t, cfg, m, snap, b, from, listed, nonce, now);
            IntakeOk(r.0, allowed, cfg.owner) && AskedMedia(r.0, m, snap, from, allowed, cfg.owner, r.1)
  {
    if !snap.msgType.Supported() {
      var t1 := CasState(t, m, from, Unsupported, now);
      EarlyRowMoves(t, t1, allowed, cfg.owner, m, t.inbox[m].(state := Unsupported, ts := now));
      JobsDoNotMatter(t1, GateTx(t, cfg, m, snap, b, from, listed, nonce, now).0, Idle, allowed, cfg.owner);
    } else if snap.sender == Some(cfg.owner) {
      DirectEnqueueKeeps(t, allowed, cfg.owner, m, b, snap, from, NoApprover, true, now);
    } else if snap.sender.Some? && listed {
      DirectEnqueueKeeps(t, allowed, cfg.owner, m, b, snap, from, ByAllowlist, true, now);
    } else if OverQuota(t, t.inbox[m].chat, snap.sender, now) {
      EarlyRowMoves(t, CasState(t, m, from, FailedIn, now), allowed, cfg.owner, m,
                    t.inbox[m].(state := FailedIn, ts := now));
    } else {
      OpenApprovalKeeps(t, allowed, cfg.owner, m, b, from, nonce, now);
    }
  }

  lemma TellKeeps(t: Tables, allowed: set<(nat, nat, Option<nat>)>, owner: nat, m: nat, from: InboxState,
                  b: Option<Binding>, now: int)
    requires IntakeOk(t, allowed, owner) && m < |t.inbox| && (b.Some? ==> !b.value.status.Live())
    requires t.inbox[m].state == from && (from.Resolving? || from.WaitingBinding?)
    ensures IntakeOk(TellTx(t, m, from, b, now), allowed, owner)
  {
    var row := t.inbox[m].(state := MapTerminated(b), ts := now);
    var t1 := CasState(t, m, from, MapTerminated(b), now);
    assert RowFits(t.inbox[m], t.bindings);
    EarlyRowMoves(t, t1, allowed, owner, m, row);
    JobsDoNotMatter(t1, TellTx(t, m, from, b, now), Idle, allowed, owner);
  }

  lemma DecideKeeps(t: Tables, cfg: Config, allowed: set<(nat, nat, Option<nat>)>, m: nat, fetched: Snap,
                    listed: bool, nonce: nat, now: int)
    requires IntakeOk(t, allowed, cfg.owner) && m < |t.inbox|
    requires listed && Consults(t, cfg, m, SnapOf(t, m, fetched), Resolving) ==>
               (m, t.inbox[m].chat, SnapOf(t, m, fetched).sender) in allowed
    ensures var r := DecideTx(t, cfg, m, fetched, listed, nonce, now);
            IntakeOk(r.0, allowed, cfg.owner)
            && AskedMedia(r.0, m, SnapOf(t, m, fetched), Resolving, allowed, cfg.owner, r.1)
  {
    if t.inbox[m].state.Resolving? {
      var snap := SnapOf(t, m, fetched);
      var row := t.inbox[m].(snap := Some(snap), sender := snap.sender);
      var t1 := t.(inbox := t.inbox[m := row]);
      assert RowFits(t.inbox[m], t.bindings);
      EarlyRowMoves(t, t1, allowed, cfg.owner, m, row);
      if !snap.mentioned {
        var row2 := row.(state := IgnoredNotMentioned, snap := None, ts := now);
        EarlyRowMoves(t1, t1.(inbox := t1.inbox[m := row2]), allowed, cfg.owner, m, row2);
      } else {
        var b := BindingOf(t1, m);
        if b.None? || !b.value.status.Live() {
          TellKeeps(t1, allowed, cfg.owner, m, Resolving, b, now);
        } else if b.value.status.Starting? {
          EarlyRowMoves(t1, CasState(t1, m, Resolving, WaitingBinding, now), allowed, cfg.owner, m,
                        row.(state := WaitingBinding, ts := now));
        } else {
          GateKeeps(t1, cfg, allowed, m, snap, row.binding.value, Resolving, listed, nonce, now);
        }
      }
    }
  }

  lemma WaitingKeeps(t: Tables, cfg: Config, allowed: set<(nat, nat, Option<nat>)>, m: nat, fetched: Snap,
                     listed: bool, nonce: nat, now: int)
    requires IntakeOk(t, allowed, cfg.owner) && m < |t.inbox|
    requires listed && Consults(t, cfg, m, SnapOf(t, m, fetched), WaitingBinding) ==>
               (m, t.inbox[m].chat, SnapOf(t, m, fetched).sender) in allowed
    ensures var r := WaitingTx(t, cfg, m, fetched, listed, nonce, now);
            IntakeOk(r.0, allowed, cfg.owner)
            && AskedMedia(r.0, m, SnapOf(t, m, fetched), WaitingBinding, allowed, cfg.owner, r.1)
  {
    if t.inbox[m].state.WaitingBinding? {
      assert RowFits(t.inbox[m], t.bindings);
      var b := BindingOf(t, m);
      if b.Some? && b.value.status.Active? {
        GateKeeps(t, cfg, allowed, m, SnapOf(t, m, fetched), t.inbox[m].binding.value, WaitingBinding, listed, nonce,
                  now);
      }
    }
  }

  // ---- After a download ----

  lemma ApprovedRowLeaves(t: Tables, t': Tables, allowed: set<(nat, nat, Option<nat>)>, owner: nat, m: nat,
                          s: InboxState, now: int)
    requires IntakeOk(t, allowed, owner) && m < |t.inbox| && t.inbox[m].state.ApprovedMaterializing?
    requires s.FailedIn? || s.Undeliverable?
    requires OnlyInbox(t, t') && t'.inbox == t.inbox[m := t.inbox[m].(state := s, ts := now)]
    ensures IntakeOk(t', allowed, owner)
  {}

  lemma MediaFailedKeeps(t: Tables, allowed: set<(nat, nat, Option<nat>)>, owner: nat, m: nat, snap: Snap,
                         from: InboxState, pending: Option<nat>, now: int)
    requires IntakeOk(t, allowed, owner) && MediaOk(t, Materializing(m, snap, from, pending), allowed, owner)
    ensures IntakeOk(MediaFailedTx(t, m, from, pending, now), allowed, owner)
  {
    var t1 := CasState(t, m, from, FailedIn, now);
    if t.inbox[m].state == from {
      assert RowFits(t.inbox[m], t.bindings);
      if from.ApprovedMaterializing? {
        ApprovedRowLeaves(t, t1, allowed, owner, m, FailedIn, now);
      } else {
        EarlyRowMoves(t, t1, allowed, owner, m, t.inbox[m].(state := FailedIn, ts := now));
      }
    }
    JobsDoNotMatter(t1, MediaFailedTx(t, m, from, pending, now), Idle, allowed, owner);
  }

  lemma ApprovedEnqueueKeeps(t: Tables, cfg: Config, allowed: set<(nat, nat, Option<nat>)>, m: nat, snap: Snap,
                             p: nat, now: int)
    requires IntakeOk(t, allowed, cfg.owner)
    requires MediaOk(t, Materializing(m, snap, ApprovedMaterializing, Some(p)), allowed, cfg.owner)
    requires t.bindings[t.inbox[m].binding.value].status.Active?
    ensures IntakeOk(EnqueueTx(t, m, t.inbox[m].binding.value, snap, ApprovedMaterializing,
                               MediaApprover(t, cfg, snap, Some(p)), false, now).0, allowed, cfg.owner)
  {
    var b := t.inbox[m].binding.value;
    var approver := MediaApprover(t, cfg, snap, Some(p));
    assert DecisionFits(t.pendings[p], t.callbacks, cfg.owner);
    EnqueueIs(t, allowed, cfg.owner, m, b, snap, ApprovedMaterializing, approver, false, now);
    forall q | 0 <= q < |t.pendings| && t.pendings[q].msg == m ensures t.pendings[q].state.PApproved? {
      assert PendingFits(t.pendings[q], t.inbox, t.bindings);
    }
    assert HasApproved(t.pendings, m);
    QueuedKeeps(t, EnqueueTx(t, m, b, snap, ApprovedMaterializing, approver, false, now).0, allowed, cfg.owner, m, b,
                Delivery(b, m, Some(Payload(snap.sender, approver)), DEnqueued, None, None, None, 0, now), now);
  }

  /** The transaction that never looks at the row again is right not to: an active binding means the row is still
      where the download started from, so the delivery and the row move together. */
  lemma MediaDoneKeeps(t: Tables, cfg: Config, allowed: set<(nat, nat, Option<nat>)>, m: nat, snap: Snap,
                       from: InboxState, pending: Option<nat>, now: int)
    requires IntakeOk(t, allowed, cfg.owner)
    requires MediaOk(t, Materializing(m, snap, from, pending), allowed, cfg.owner)
    ensures IntakeOk(MediaDoneTx(t, cfg, m, snap, from, pending, now), allowed, cfg.owner)
  {
    var b := t.inbox[m].binding.value;
    var t' := MediaDoneTx(t, cfg, m, snap, from, pending, now);
    assert RowFits(t.inbox[m], t.bindings);
    if t.bindings[b].status.Active? {
      var approver := MediaApprover(t, cfg, snap, pending);
      var t1 := EnqueueTx(t, m, b, snap, from, approver, pending.None?, now).0;
      if pending.Some? {
        ApprovedEnqueueKeeps(t, cfg, allowed, m, snap, pending.value, now);
        JobsDoNotMatter(t1, t', Idle, allowed, cfg.owner);
      } else {
        DirectEnqueueKeeps(t, allowed, cfg.owner, m, b, snap, from, approver, true, now);
      }
    } else if pending.Some? {
      ApprovedRowLeaves(t, t', allowed, cfg.owner, m, Undeliverable, now);
    } else if t.inbox[m].state == from {
      TellKeeps(t, allowed, cfg.owner, m, from, Some(t.bindings[b]), now);
    }
  }

  // ---- A card callback ----

  lemma DecidedKeepsDistinct(t: Tables, allowed: set<(nat, nat, Option<nat>)>, owner: nat, pid: nat, s: PendState,
                             c: Callback)
    requires IntakeOk(t, allowed, owner) && pid < |t.pendings| && t.pendings[pid].state.PPending?
    requires (s.PApproved? || s.PRejected?) && c.operator == Some(owner) && c.event !in t.callbacks
    ensures var ps' := t.pendings[pid := Decided(t.pendings[pid], s, c)];
            && PendingsDistinct(ps')
            && (forall p :: 0 <= p < |ps'| ==> DecisionFits(ps'[p], t.callbacks + {c.event}, owner))
            && !EventUsed(t.pendings, c.event)
  {}

  /** The one pending of an awaiting message. */
  lemma OnlyPendingOf(t: Tables, allowed: set<(nat, nat, Option<nat>)>, owner: nat, pid: nat)
    requires IntakeOk(t, allowed, owner) && pid < |t.pendings|
    ensures forall q :: 0 <= q < |t.pendings| && t.pendings[q].msg == t.pendings[pid].msg ==> q == pid
  {}

  /** A pending's decision and its row's new state go together. */
  lemma DecisionKeeps(t: Tables, t': Tables, allowed: set<(nat, nat, Option<nat>)>, owner: nat, pid: nat,
                      s: InboxState, now: int)
    requires IntakeOk(t, allowed, owner) && pid < |t.pendings| && t.pendings[pid].state.PPending?
    requires t'.bindings == t.bindings && t'.deliveries == t.deliveries
    requires |t'.pendings| == |t.pendings|
    requires forall p :: 0 <= p < |t.pendings| && p != pid ==> t'.pendings[p] == t.pendings[p]
    requires t'.pendings[pid].msg == t.pendings[pid].msg && t'.pendings[pid].binding == t.pendings[pid].binding
    requires !t'.pendings[pid].state.PPending? && PendMatches(t'.pendings[pid].state, s)
    requires s.Rejected? || s.Expired? || s.ApprovedMaterializing?
    requires t.pendings[pid].msg < |t.inbox|
    requires t'.inbox == t.inbox[t.pendings[pid].msg := t.inbox[t.pendings[pid].msg].(state := s, ts := now)]
    requires forall p :: 0 <= p < |t'.pendings| ==> DecisionFits(t'.pendings[p], t'.callbacks, owner)
    requires PendingsDistinct(t'.pendings)
    ensures IntakeOk(t', allowed, owner)
  {
    var m := t.pendings[pid].msg;
    assert PendingFits(t.pendings[pid], t.inbox, t.bindings);
    OnlyPendingOf(t, allowed, owner, pid);
    DeliveriesUnmoved(t, t', allowed, owner);
    forall i | 0 <= i < |t'.inbox|
      ensures RowFits(t'.inbox[i], t'.bindings) && (NeedsPending(t'.inbox[i].state) ==> HasPending(t'.pendings, i))
    {
      assert RowFits(t.inbox[i], t.bindings);
      if NeedsPending(t'.inbox[i].state) {
        assert HasPending(t.pendings, i);
        var p :| 0 <= p < |t.pendings| && t.pendings[p].msg == i;
        assert t'.pendings[p].msg == i;
      }
    }
    forall p | 0 <= p < |t'.pendings| ensures PendingFits(t'.pendings[p], t'.inbox, t'.bindings) {
      assert PendingFits(t.pendings[p], t.inbox, t.bindings);
    }
  }

  lemma RejectKeeps(t: Tables, cfg: Config, allowed: set<(nat, nat, Option<nat>)>, c: Callback, now: int)
    requires IntakeOk(t, allowed, cfg.owner) && c.event !in t.callbacks && ValidCallback(t, cfg, c)
    requires c.act.value.Reject? && t.pendings[c.pending.value].state.PPending?
    ensures IntakeOk(CallbackTx(t, cfg, c, now).0, allowed, cfg.owner) && CallbackTx(t, cfg, c, now).1.Applied?
  {
    var pid := c.pending.value;
    assert PendingFits(t.pendings[pid], t.inbox, t.bindings);
    DecidedKeepsDistinct(t, allowed, cfg.owner, pid, PRejected, c);
    DecisionKeeps(t, CallbackTx(t, cfg, c, now).0, allowed, cfg.owner, pid, Rejected, now);
  }

  lemma ApproveMediaKeeps(t: Tables, cfg: Config, allowed: set<(nat, nat, Option<nat>)>, c: Callback, now: int)
    requires IntakeOk(t, allowed, cfg.owner) && c.event !in t.callbacks && ValidCallback(t, cfg, c)
    requires c.act.value.Approve? && t.pendings[c.pending.value].state.PPending?
    requires t.inbox[t.pendings[c.pending.value].msg].snap.Some?
             && t.inbox[t.pendings[c.pending.value].msg].snap.value.msgType.Media()
    ensures IntakeOk(CallbackTx(t, cfg, c, now).0, allowed, cfg.owner) && CallbackTx(t, cfg, c, now).1.AppliedMedia?
  {
    var pid := c.pending.value;
    assert PendingFits(t.pendings[pid], t.inbox, t.bindings);
    DecidedKeepsDistinct(t, allowed, cfg.owner, pid, PApproved, c);
    DecisionKeeps(t, CallbackTx(t, cfg, c, now).0, allowed, cfg.owner, pid, ApprovedMaterializing, now);
  }

  lemma ApproveTextKeeps(t: Tables, cfg: Config, allowed: set<(nat, nat, Option<nat>)>, c: Callback, now: int)
    requires IntakeOk(t, allowed, cfg.owner) && c.event !in t.callbacks && ValidCallback(t, cfg, c)
    requires c.act.value.Approve? && t.pendings[c.pending.value].state.PPending?
    requires t.inbox[t.pendings[c.pending.value].msg].snap.Some?
             && !t.inbox[t.pendings[c.pending.value].msg].snap.value.msgType.Media()
    ensures IntakeOk(CallbackTx(t, cfg, c, now).0, allowed, cfg.owner) && CallbackTx(t, cfg, c, now).1.Applied?
  {
    var pid := c.pending.value;
    var p := t.pendings[pid];
    var m, b := p.msg, p.binding;
    var snap := t.inbox[m].snap.value;
    assert PendingFits(p, t.inbox, t.bindings);
    DecidedKeepsDistinct(t, allowed, cfg.owner, pid, PApproved, c);
    OnlyPendingOf(t, allowed, cfg.owner, pid);
    NoDeliveryYet(t, allowed, cfg.owner, m, b);
    var t1 := t.(pendings := t.pendings[pid := Decided(p, PApproved, c)]);
    var d := Delivery(b, m, Some(Payload(snap.sender, ByUser(cfg.owner))), DEnqueued, None, None, None, 0, now);
    var r := EnqueueTx(t1, m, b, snap, AwaitingApproval, ByUser(cfg.owner), false, now);
    assert r.1 && r.0.deliveries == t.deliveries + [d];
    var t' := CallbackTx(t, cfg, c, now).0;
    assert t'.pendings[pid].msg == m && t'.pendings[pid].state.PApproved?;
    assert HasApproved(t'.pendings, m);
    QueuedKeeps(t.(callbacks := t'.callbacks), t', allowed, cfg.owner, m, b, d, now) by {
      assert IntakeOk(t.(callbacks := t'.callbacks), allowed, cfg.owner) by {
        MoreCallbacksKeep(t, t'.callbacks, Idle, allowed, cfg.owner);
      }
    }
  }

  lemma MoreCallbacksKeep(t: Tables, cbs: set<nat>, d: Daemon, allowed: set<(nat, nat, Option<nat>)>, owner: nat)
    requires IntakeOk(t, allowed, owner) && MediaOk(t, d, allowed, owner) && t.callbacks <= cbs
    ensures IntakeOk(t.(callbacks := cbs), allowed, owner) && MediaOk(t.(callbacks := cbs), d, allowed, owner)
  {}

  /** A valid click on an open pending is applied, whatever it says: neither the failed enqueue nor the failed
      conditional update nor an exception can happen; on a decided pending it is late. */
  lemma CallbackDecides(t: Tables, cfg: Config, allowed: set<(nat, nat, Option<nat>)>, c: Callback, now: int)
    requires IntakeOk(t, allowed, cfg.owner)
    ensures IntakeOk(CallbackTx(t, cfg, c, now).0, allowed, cfg.owner)
    ensures !CallbackTx(t, cfg, c, now).1.Raised?
    ensures c.event !in t.callbacks && ValidCallback(t, cfg, c) ==>
              (CallbackTx(t, cfg, c, now).1.Late? <==> !t.pendings[c.pending.value].state.PPending?)
  {
    if c.event !in t.callbacks {
      if !ValidCallback(t, cfg, c) || !t.pendings[c.pending.value].state.PPending? {
        MoreCallbacksKeep(t, t.callbacks + {c.event}, Idle, allowed, cfg.owner);
      } else {
        var m := t.pendings[c.pending.value].msg;
        assert PendingFits(t.pendings[c.pending.value], t.inbox, t.bindings) && RowFits(t.inbox[m], t.bindings);
        if c.act.value.Reject? { RejectKeeps(t, cfg, allowed, c, now); }
        else if t.inbox[m].snap.value.msgType.Media() { ApproveMediaKeeps(t, cfg, allowed, c, now); }
        else { ApproveTextKeeps(t, cfg, allowed, c, now); }
      }
    }
  }
}
