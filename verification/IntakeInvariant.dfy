/** Inbox, approvals and deliveries: the invariant that couples the three tables to the bindings. */
module IntakeInvariant {
  import opened Schema
  import opened World
  import opened LifecycleTx
  import opened InboundTx

  // ---- The invariant ----

  /** Which inbox states a pending's state allows for its message. */
  predicate PendMatches(p: PendState, s: InboxState) {
    match p
    case PPending => s.AwaitingApproval?
    case PApproved => s.ApprovedMaterializing? || s.Enqueued? || s.FailedIn? || s.Undeliverable?
    case PRejected => s.Rejected?
    case PExpired => s.Expired?
  }

  predicate NeedsPending(s: InboxState) {
    s.AwaitingApproval? || s.ApprovedMaterializing? || s.Rejected? || s.Expired?
  }

  predicate RowFits(row: Inbox, bs: seq<Binding>) {
    && (row.binding.Some? ==> row.binding.value < |bs| && bs[row.binding.value].chat == row.chat)
    && (row.state.WaitingBinding? ==> row.binding.Some? && bs[row.binding.value].status.Live() && row.snap.Some?)
    && (row.state.AwaitingApproval? || row.state.ApprovedMaterializing? || row.state.Enqueued? ==>
          row.binding.Some? && !bs[row.binding.value].status.Starting?)
    && (row.state.AwaitingApproval? || row.state.ApprovedMaterializing? ==> row.snap.Some?)
  }

  predicate DecisionFits(p: Pending, callbacks: set<nat>, owner: nat) {
    if p.state.PApproved? || p.state.PRejected?
    then p.decidedBy == Some(owner) && p.decidedEvent.Some? && p.decidedEvent.value in callbacks
    else p.decidedEvent.None?
  }

  predicate PendingFits(p: Pending, inbox: seq<Inbox>, bs: seq<Binding>) {
    && p.msg < |inbox| && p.binding < |bs|
    && inbox[p.msg].binding == Some(p.binding)
    && PendMatches(p.state, inbox[p.msg].state)
    && (p.state.PPending? ==> bs[p.binding].status.Active?)
  }

  ghost predicate HasPending(ps: seq<Pending>, m: nat) {
    exists p :: 0 <= p < |ps| && ps[p].msg == m
  }

  ghost predicate HasApproved(ps: seq<Pending>, m: nat) {
    exists p :: 0 <= p < |ps| && ps[p].msg == m && ps[p].state.PApproved?
  }

  ghost predicate HasDelivery(ds: seq<Delivery>, m: nat) {
    exists d :: 0 <= d < |ds| && ds[d].msg == m
  }

  predicate DeliveryFits(d: Delivery, inbox: seq<Inbox>, bs: seq<Binding>) {
    && d.msg < |inbox| && d.binding < |bs|
    && inbox[d.msg].state.Enqueued? && inbox[d.msg].binding == Some(d.binding)
    && (d.state.DEnqueued? ==> bs[d.binding].status.Active?)
    && (d.state.DDropped? ==> !bs[d.binding].status.Live())
  }

  /** Who a delivery comes from, as its payload tells the agent. */
  ghost predicate Provenance(d: Delivery, inbox: seq<Inbox>, ps: seq<Pending>,
                             allowed: set<(nat, nat, Option<nat>)>, owner: nat)
    requires d.msg < |inbox|
  {
    d.payload.Some? ==>
      match d.payload.value.approvedBy
      case NoApprover => d.payload.value.sender == Some(owner)
      case ByAllowlist => (d.msg, inbox[d.msg].chat, d.payload.value.sender) in allowed
      case ByUser(u) => u == owner && HasApproved(ps, d.msg)
  }

  ghost predicate PendingsDistinct(ps: seq<Pending>) {
    forall p, q :: 0 <= p < q < |ps| ==>
      ps[p].msg != ps[q].msg && (ps[p].decidedEvent.Some? ==> ps[p].decidedEvent != ps[q].decidedEvent)
  }

  ghost predicate DeliveriesDistinct(ds: seq<Delivery>) {
    forall d, e :: 0 <= d < e < |ds| ==> ds[d].msg != ds[e].msg
  }

  ghost predicate IntakeOk(t: Tables, allowed: set<(nat, nat, Option<nat>)>, owner: nat) {
    && (forall m :: 0 <= m < |t.inbox| ==> RowFits(t.inbox[m], t.bindings))
    && (forall m :: 0 <= m < |t.inbox| && NeedsPending(t.inbox[m].state) ==> HasPending(t.pendings, m))
    && (forall m :: 0 <= m < |t.inbox| && t.inbox[m].state.Enqueued? ==> HasDelivery(t.deliveries, m))
    && (forall p :: 0 <= p < |t.pendings| ==> PendingFits(t.pendings[p], t.inbox, t.bindings))
    && (forall p :: 0 <= p < |t.pendings| ==> DecisionFits(t.pendings[p], t.callbacks, owner))
    && PendingsDistinct(t.pendings)
    && (forall d :: 0 <= d < |t.deliveries| ==> DeliveryFits(t.deliveries[d], t.inbox, t.bindings))
    && (forall d :: 0 <= d < |t.deliveries| ==>
          Provenance(t.deliveries[d], t.inbox, t.pendings, allowed, owner))
    && DeliveriesDistinct(t.deliveries)
  }

  /** A media download: as long as the binding is active, the row is still where the download started from. */
  ghost predicate MediaOk(t: Tables, d: Daemon, allowed: set<(nat, nat, Option<nat>)>, owner: nat) {
    match d
    case Materializing(m, snap, from, pending) =>
      && m < |t.inbox| && t.inbox[m].binding.Some? && t.inbox[m].binding.value < |t.bindings|
      && !t.bindings[t.inbox[m].binding.value].status.Starting?
      && (t.bindings[t.inbox[m].binding.value].status.Active? ==> t.inbox[m].state == from)
      && (match from
          case Resolving => t.inbox[m].state.Resolving? && pending.None?
          case WaitingBinding =>
            pending.None?
            && (t.inbox[m].state.WaitingBinding? || t.inbox[m].state.Unbound? || t.inbox[m].state.SessionClosed?)
          case ApprovedMaterializing =>
            t.inbox[m].state.ApprovedMaterializing?
            && pending.Some? && pending.value < |t.pendings| && t.pendings[pending.value].msg == m
            && t.pendings[pending.value].state.PApproved?
          case _ => false)
      && (pending.None? ==> snap.sender == Some(owner) || (m, t.inbox[m].chat, snap.sender) in allowed)
    case _ => true
  }

  // ---- Bindings move up ----

  predicate StatusUp(a: Binding, b: Binding) {
    b.chat == a.chat && (b.status == a.status || (a.status.Starting? && b.status.Active?))
  }

  ghost predicate BindingsUp(bs: seq<Binding>, bs': seq<Binding>) {
    |bs| <= |bs'| && forall i :: 0 <= i < |bs| ==> StatusUp(bs[i], bs'[i])
  }

  predicate OnlyBindings(t: Tables, t': Tables) {
    t'.inbox == t.inbox && t'.pendings == t.pendings && t'.deliveries == t.deliveries && t'.callbacks == t.callbacks
  }

  lemma BindingsUpKeep(t: Tables, t': Tables, d: Daemon, allowed: set<(nat, nat, Option<nat>)>, owner: nat)
    requires IntakeOk(t, allowed, owner) && MediaOk(t, d, allowed, owner)
    requires OnlyBindings(t, t') && BindingsUp(t.bindings, t'.bindings)
    ensures IntakeOk(t', allowed, owner) && MediaOk(t', d, allowed, owner)
  {}

  // ---- The termination cascade ----

  lemma CascadeRows(t: Tables, t': Tables, allowed: set<(nat, nat, Option<nat>)>, owner: nat, b: nat, reason: Reason,
                    status: Status, now: int)
    requires IntakeOk(t, allowed, owner) && LiveBinding(t, b) && !status.Live()
    requires t' == Terminate(t, b, reason, status, now)
    ensures forall m :: 0 <= m < |t.inbox| ==>
              t'.inbox[m] == RowAfter(t.inbox[m], b, MapTerminated(Some(t'.bindings[b])), now)
  {}

  /** A row after its binding's cascade, told from the row alone. */
  function RowAfter(row: Inbox, b: nat, target: InboxState, now: int): Inbox {
    if row.binding == Some(b) && row.state.AwaitingApproval? then row.(state := Expired, ts := now)
    else if row.binding == Some(b) && row.state.WaitingBinding? then row.(state := target, ts := now)
    else row
  }

  function PendingAfter(p: Pending, b: nat): Pending {
    if p.binding == b && p.state.PPending? then p.(state := PExpired) else p
  }

  function DeliveryAfter(d: Delivery, b: nat): Delivery {
    if d.binding == b && d.state.DEnqueued? then d.(state := DDropped) else d
  }

  /** What the cascade does to the tables of the intake, in terms of the row states before it. */
  ghost predicate Cascaded(t: Tables, t': Tables, b: nat, target: InboxState, now: int) {
    && b < |t.bindings| && t.bindings[b].status.Live() && |t'.bindings| == |t.bindings|
    && (forall i :: 0 <= i < |t.bindings| && i != b ==> t'.bindings[i] == t.bindings[i])
    && t'.bindings[b].chat == t.bindings[b].chat && !t'.bindings[b].status.Live()
    && (target.Unbound? || target.SessionClosed?)
    && |t'.inbox| == |t.inbox| && |t'.pendings| == |t.pendings| && |t'.deliveries| == |t.deliveries|
    && t'.callbacks == t.callbacks
    && (forall m :: 0 <= m < |t.inbox| ==> t'.inbox[m] == RowAfter(t.inbox[m], b, target, now))
    && (forall p :: 0 <= p < |t.pendings| ==> t'.pendings[p] == PendingAfter(t.pendings[p], b))
    && (forall d :: 0 <= d < |t.deliveries| ==> t'.deliveries[d] == DeliveryAfter(t.deliveries[d], b))
  }

  lemma TerminateCascades(t: Tables, allowed: set<(nat, nat, Option<nat>)>, owner: nat, b: nat, reason: Reason,
                          status: Status, now: int)
    requires IntakeOk(t, allowed, owner) && LiveBinding(t, b) && !status.Live()
    ensures var t' := Terminate(t, b, reason, status, now);
            b < |t'.bindings| && !t'.bindings[b].status.Live()
            && Cascaded(t, t', b, MapTerminated(Some(t'.bindings[b])), now)
  {
    CascadeRows(t, Terminate(t, b, reason, status, now), allowed, owner, b, reason, status, now);
  }

  lemma CascadeKeepsRows(t: Tables, t': Tables, allowed: set<(nat, nat, Option<nat>)>, owner: nat, b: nat,
                         target: InboxState, now: int)
    requires IntakeOk(t, allowed, owner) && Cascaded(t, t', b, target, now)
    ensures forall m :: 0 <= m < |t'.inbox| ==> RowFits(t'.inbox[m], t'.bindings)
    ensures forall m :: 0 <= m < |t'.inbox| && NeedsPending(t'.inbox[m].state) ==> HasPending(t'.pendings, m)
    ensures forall m :: 0 <= m < |t'.inbox| && t'.inbox[m].state.Enqueued? ==> HasDelivery(t'.deliveries, m)
  {}

  lemma CascadeKeepsApproved(t: Tables, t': Tables, b: nat, target: InboxState, now: int, m: nat)
    requires Cascaded(t, t', b, target, now) && HasApproved(t.pendings, m)
    ensures HasApproved(t'.pendings, m)
  {}

  lemma CascadeKeepsOthers(t: Tables, t': Tables, allowed: set<(nat, nat, Option<nat>)>, owner: nat, b: nat,
                           target: InboxState, now: int)
    requires IntakeOk(t, allowed, owner) && Cascaded(t, t', b, target, now)
    ensures forall p :: 0 <= p < |t'.pendings| ==> PendingFits(t'.pendings[p], t'.inbox, t'.bindings)
    ensures forall p :: 0 <= p < |t'.pendings| ==> DecisionFits(t'.pendings[p], t'.callbacks, owner)
    ensures PendingsDistinct(t'.pendings)
    ensures forall d :: 0 <= d < |t'.deliveries| ==> DeliveryFits(t'.deliveries[d], t'.inbox, t'.bindings)
    ensures DeliveriesDistinct(t'.deliveries)
  {
    forall p | 0 <= p < |t'.pendings|
      ensures PendingFits(t'.pendings[p], t'.inbox, t'.bindings) && DecisionFits(t'.pendings[p], t'.callbacks, owner)
    {
      assert PendingFits(t.pendings[p], t.inbox, t.bindings) && DecisionFits(t.pendings[p], t.callbacks, owner);
    }
    forall d | 0 <= d < |t'.deliveries| ensures DeliveryFits(t'.deliveries[d], t'.inbox, t'.bindings) {
      assert DeliveryFits(t.deliveries[d], t.inbox, t.bindings);
    }
    forall p, q | 0 <= p < q < |t'.pendings|
      ensures t'.pendings[p].msg != t'.pendings[q].msg
              && (t'.pendings[p].decidedEvent.Some? ==> t'.pendings[p].decidedEvent != t'.pendings[q].decidedEvent)
    {
      assert t'.pendings[p].msg == t.pendings[p].msg && t'.pendings[q].msg == t.pendings[q].msg;
    }
    forall d, e | 0 <= d < e < |t'.deliveries| ensures t'.deliveries[d].msg != t'.deliveries[e].msg {
      assert t'.deliveries[d].msg == t.deliveries[d].msg && t'.deliveries[e].msg == t.deliveries[e].msg;
    }
  }

  /** Terminating a binding keeps the three tables coupled, even under a running media download. */
  lemma TerminateKeeps(t: Tables, d: Daemon, allowed: set<(nat, nat, Option<nat>)>, owner: nat, b: nat,
                       reason: Reason, status: Status, now: int)
    requires IntakeOk(t, allowed, owner) && MediaOk(t, d, allowed, owner) && !status.Live()
    ensures IntakeOk(Terminate(t, b, reason, status, now), allowed, owner)
    ensures MediaOk(Terminate(t, b, reason, status, now), d, allowed, owner)
  {
    if LiveBinding(t, b) {
      var t' := Terminate(t, b, reason, status, now);
      TerminateCascades(t, allowed, owner, b, reason, status, now);
      CascadedKeeps(t, t', d, allowed, owner, b, MapTerminated(Some(t'.bindings[b])), now);
    }
  }

  lemma CascadedKeeps(t: Tables, t': Tables, d: Daemon, allowed: set<(nat, nat, Option<nat>)>, owner: nat, b: nat,
                      target: InboxState, now: int)
    requires IntakeOk(t, allowed, owner) && MediaOk(t, d, allowed, owner) && Cascaded(t, t', b, target, now)
    ensures IntakeOk(t', allowed, owner) && MediaOk(t', d, allowed, owner)
  {
    CascadeKeepsRows(t, t', allowed, owner, b, target, now);
    CascadeKeepsOthers(t, t', allowed, owner, b, target, now);
    forall d | 0 <= d < |t'.deliveries| ensures Provenance(t'.deliveries[d], t'.inbox, t'.pendings, allowed, owner) {
      assert Provenance(t.deliveries[d], t.inbox, t.pendings, allowed, owner);
      if HasApproved(t.pendings, t.deliveries[d].msg) {
        CascadeKeepsApproved(t, t', b, target, now, t.deliveries[d].msg);
      }
    }
  }

  // ---- A row moves on while it has neither an approval nor a delivery ----

  lemma NoPendingYet(t: Tables, allowed: set<(nat, nat, Option<nat>)>, owner: nat, m: nat)
    requires IntakeOk(t, allowed, owner) && m < |t.inbox|
    requires t.inbox[m].state.Received? || t.inbox[m].state.Resolving? || t.inbox[m].state.WaitingBinding?
    ensures forall p :: 0 <= p < |t.pendings| ==> t.pendings[p].msg != m
    ensures forall d :: 0 <= d < |t.deliveries| ==> t.deliveries[d].msg != m
  {}

  predicate SameRefs(a: Inbox, b: Inbox) {
    b.chat == a.chat && b.binding == a.binding
  }

  predicate OnlyInbox(t: Tables, t': Tables) {
    t'.bindings == t.bindings && t'.pendings == t.pendings && t'.deliveries == t.deliveries
    && t'.callbacks == t.callbacks
  }

  /** One row changes to a state that needs nothing beside it. */
  lemma RowMoves(t: Tables, t': Tables, allowed: set<(nat, nat, Option<nat>)>, owner: nat, m: nat, row: Inbox)
    requires IntakeOk(t, allowed, owner) && m < |t.inbox| && OnlyInbox(t, t') && t'.inbox == t.inbox[m := row]
    requires SameRefs(t.inbox[m], row) && RowFits(row, t.bindings)
    requires NeedsPending(row.state) ==> NeedsPending(t.inbox[m].state)
    requires row.state.Enqueued? ==> t.inbox[m].state.Enqueued?
    requires forall p :: 0 <= p < |t.pendings| && t.pendings[p].msg == m ==> PendMatches(t.pendings[p].state, row.state)
    requires t.inbox[m].state.Enqueued? ==> row.state.Enqueued?
    ensures IntakeOk(t', allowed, owner)
  {}

  /** From received, resolving or waiting to any state that needs neither an approval nor a delivery. */
  lemma EarlyRowMoves(t: Tables, t': Tables, allowed: set<(nat, nat, Option<nat>)>, owner: nat, m: nat, row: Inbox)
    requires IntakeOk(t, allowed, owner) && m < |t.inbox| && OnlyInbox(t, t') && t'.inbox == t.inbox[m := row]
    requires t.inbox[m].state.Received? || t.inbox[m].state.Resolving? || t.inbox[m].state.WaitingBinding?
    requires SameRefs(t.inbox[m], row) && RowFits(row, t.bindings)
    requires !NeedsPending(row.state) && !row.state.Enqueued?
    ensures IntakeOk(t', allowed, owner)
  {
    NoPendingYet(t, allowed, owner, m);
    RowMoves(t, t', allowed, owner, m, row);
  }

  // ---- Opening an approval ----

  lemma OpenApprovalKeeps(t: Tables, allowed: set<(nat, nat, Option<nat>)>, owner: nat, m: nat, b: nat,
                          from: InboxState, nonce: nat, now: int)
    requires IntakeOk(t, allowed, owner) && m < |t.inbox| && t.inbox[m].state == from
    requires from.Resolving? || from.WaitingBinding?
    requires t.inbox[m].binding == Some(b) && b < |t.bindings| && t.bindings[b].status.Active? && t.inbox[m].snap.Some?
    ensures IntakeOk(OpenApproval(t, m, b, from, nonce, now), allowed, owner)
  {
    NoPendingYet(t, allowed, owner, m);
    var t' := OpenApproval(t, m, b, from, nonce, now);
    var n := |t.pendings|;
    assert t'.pendings[n].msg == m;
    forall i | 0 <= i < |t'.inbox|
      ensures RowFits(t'.inbox[i], t'.bindings) && (NeedsPending(t'.inbox[i].state) ==> HasPending(t'.pendings, i))
    {
      assert RowFits(t.inbox[i], t.bindings);
      if i != m && NeedsPending(t'.inbox[i].state) {
        assert HasPending(t.pendings, i);
        var p :| 0 <= p < |t.pendings| && t.pendings[p].msg == i;
        assert t'.pendings[p].msg == i;
      }
    }
    forall p | 0 <= p < |t'.pendings|
      ensures PendingFits(t'.pendings[p], t'.inbox, t'.bindings) && DecisionFits(t'.pendings[p], t'.callbacks, owner)
    {
      if p < n {
        assert PendingFits(t.pendings[p], t.inbox, t.bindings) && DecisionFits(t.pendings[p], t.callbacks, owner);
      }
    }
    DeliveriesUnmoved(t, t', allowed, owner);
  }

  /** Deliveries stay as they are while no enqueued row changes and no approval is withdrawn. */
  lemma DeliveriesUnmoved(t: Tables, t': Tables, allowed: set<(nat, nat, Option<nat>)>, owner: nat)
    requires IntakeOk(t, allowed, owner) && t'.deliveries == t.deliveries && t'.bindings == t.bindings
    requires |t.inbox| <= |t'.inbox| && |t.pendings| <= |t'.pendings|
    requires forall m :: 0 <= m < |t.inbox| && t.inbox[m].state.Enqueued? ==> t'.inbox[m] == t.inbox[m]
    requires forall m :: 0 <= m < |t.inbox| ==> t'.inbox[m].chat == t.inbox[m].chat
    requires forall p :: 0 <= p < |t.pendings| && t.pendings[p].state.PApproved? ==> t'.pendings[p] == t.pendings[p]
    ensures forall d :: 0 <= d < |t'.deliveries| ==> DeliveryFits(t'.deliveries[d], t'.inbox, t'.bindings)
    ensures forall d :: 0 <= d < |t'.deliveries| ==>
              Provenance(t'.deliveries[d], t'.inbox, t'.pendings, allowed, owner)
  {}
}
