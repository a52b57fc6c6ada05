/** Inbox, approvals and deliveries over whole runs. */
module IntakeRun {
  import opened Schema
  import opened World
  import opened OutboundTx
  import opened LifecycleTx
  import opened BindTx
  import opened InboundTx
  import opened RecoveryTx
  import opened ListenerTx
  import opened Machine
  import opened IntakeInvariant
  import opened IntakeSteps

  ghost predicate IntakeAt(w: World) {
    IntakeOk(w.t, w.hist.allowed, w.cfg.owner) && MediaOk(w.t, w.daemon, w.hist.allowed, w.cfg.owner)
  }

  // ---- Small changes beside the coupling ----

  predicate SamePending(a: Pending, b: Pending) { b == a.(card := b.card) }

  /** Only the card references of pendings change. */
  lemma CardsKeep(t: Tables, t': Tables, d: Daemon, allowed: set<(nat, nat, Option<nat>)>, owner: nat)
    requires IntakeOk(t, allowed, owner) && MediaOk(t, d, allowed, owner)
    requires t'.bindings == t.bindings && t'.inbox == t.inbox && t'.deliveries == t.deliveries
    requires t'.callbacks == t.callbacks && |t'.pendings| == |t.pendings|
    requires forall p :: 0 <= p < |t.pendings| ==> SamePending(t.pendings[p], t'.pendings[p])
    ensures IntakeOk(t', allowed, owner) && MediaOk(t', d, allowed, owner)
  {
    forall p | 0 <= p < |t'.pendings|
      ensures PendingFits(t'.pendings[p], t'.inbox, t'.bindings) && DecisionFits(t'.pendings[p], t'.callbacks, owner)
    {
      assert SamePending(t.pendings[p], t'.pendings[p]);
      assert PendingFits(t.pendings[p], t.inbox, t.bindings) && DecisionFits(t.pendings[p], t.callbacks, owner);
    }
    forall p, q | 0 <= p < q < |t'.pendings|
      ensures t'.pendings[p].msg != t'.pendings[q].msg
              && (t'.pendings[p].decidedEvent.Some? ==> t'.pendings[p].decidedEvent != t'.pendings[q].decidedEvent)
    {
      assert SamePending(t.pendings[p], t'.pendings[p]) && SamePending(t.pendings[q], t'.pendings[q]);
    }
    forall m | 0 <= m < |t.inbox| && HasPending(t.pendings, m) ensures HasPending(t'.pendings, m) {
      var p :| 0 <= p < |t.pendings| && t.pendings[p].msg == m;
      assert SamePending(t.pendings[p], t'.pendings[p]);
    }
    forall d | 0 <= d < |t'.deliveries|
      ensures Provenance(t'.deliveries[d], t'.inbox, t'.pendings, allowed, owner)
    {
      assert Provenance(t.deliveries[d], t.inbox, t.pendings, allowed, owner);
      var m := t.deliveries[d].msg;
      if HasApproved(t.pendings, m) {
        var p :| 0 <= p < |t.pendings| && t.pendings[p].msg == m && t.pendings[p].state.PApproved?;
        assert SamePending(t.pendings[p], t'.pendings[p]);
      }
    }
  }

  predicate DeliveryStep(a: Delivery, b: Delivery, bs: seq<Binding>) {
    && b.binding == a.binding && b.msg == a.msg
    && (b.payload == a.payload || b.payload.None?)
    && (b.state.DEnqueued? && !a.state.DEnqueued? ==> a.binding < |bs| && bs[a.binding].status.Active?)
    && (b.state.DDropped? && !a.state.DDropped? ==> a.binding >= |bs| || !bs[a.binding].status.Active?)
  }

  /** Deliveries are claimed, printed, reclaimed or trimmed. */
  lemma DeliveriesKeep(t: Tables, t': Tables, d: Daemon, allowed: set<(nat, nat, Option<nat>)>, owner: nat)
    requires IntakeOk(t, allowed, owner) && MediaOk(t, d, allowed, owner)
    requires t'.bindings == t.bindings && t'.inbox == t.inbox && t'.pendings == t.pendings
    requires t'.callbacks == t.callbacks && |t'.deliveries| == |t.deliveries|
    requires forall i :: 0 <= i < |t.deliveries| ==> DeliveryStep(t.deliveries[i], t'.deliveries[i], t.bindings)
    ensures IntakeOk(t', allowed, owner) && MediaOk(t', d, allowed, owner)
  {}

  /** Snapshots of finished rows are trimmed. */
  lemma TrimRowsKeep(t: Tables, t': Tables, d: Daemon, allowed: set<(nat, nat, Option<nat>)>, owner: nat)
    requires IntakeOk(t, allowed, owner) && MediaOk(t, d, allowed, owner)
    requires t'.bindings == t.bindings && t'.pendings == t.pendings && t'.deliveries == t.deliveries
    requires t'.callbacks == t.callbacks && |t'.inbox| == |t.inbox|
    requires forall m :: 0 <= m < |t.inbox| ==>
               t'.inbox[m] == t.inbox[m] || (t.inbox[m].state.Final() && t'.inbox[m] == t.inbox[m].(snap := None))
    ensures IntakeOk(t', allowed, owner) && MediaOk(t', d, allowed, owner)
  {
    forall m | 0 <= m < |t'.inbox| ensures RowFits(t'.inbox[m], t'.bindings) && t'.inbox[m].state == t.inbox[m].state {
      assert RowFits(t.inbox[m], t.bindings);
    }
    forall p | 0 <= p < |t'.pendings| ensures PendingFits(t'.pendings[p], t'.inbox, t'.bindings) {
      assert PendingFits(t.pendings[p], t.inbox, t.bindings);
    }
    forall i | 0 <= i < |t'.deliveries|
      ensures DeliveryFits(t'.deliveries[i], t'.inbox, t'.bindings)
      ensures Provenance(t'.deliveries[i], t'.inbox, t'.pendings, allowed, owner)
    {
      assert DeliveryFits(t.deliveries[i], t.inbox, t.bindings);
      assert Provenance(t.deliveries[i], t.inbox, t.pendings, allowed, owner);
    }
  }

  // ---- lib/recovery.py ----

  /** The safety net never catches anything: no queued delivery belongs to an ended binding. */
  lemma SweepFindsNothing(t: Tables, allowed: set<(nat, nat, Option<nat>)>, owner: nat)
    requires IntakeOk(t, allowed, owner)
    ensures SweepStranded(t) == t
  {}

  lemma ExpirePendingKeeps(t: Tables, allowed: set<(nat, nat, Option<nat>)>, owner: nat, p: nat, now: int)
    requires IntakeOk(t, allowed, owner)
    ensures IntakeOk(ExpirePending(t, p, now), allowed, owner)
  {
    var t' := ExpirePending(t, p, now);
    if t' != t {
      assert PendingFits(t.pendings[p], t.inbox, t.bindings) && DecisionFits(t.pendings[p], t.callbacks, owner);
      forall q, r | 0 <= q < r < |t'.pendings|
        ensures t'.pendings[q].msg != t'.pendings[r].msg
                && (t'.pendings[q].decidedEvent.Some? ==> t'.pendings[q].decidedEvent != t'.pendings[r].decidedEvent)
      {
        assert t.pendings[q].msg != t.pendings[r].msg;
      }
      forall q | 0 <= q < |t'.pendings| ensures DecisionFits(t'.pendings[q], t'.callbacks, owner) {
        assert DecisionFits(t.pendings[q], t.callbacks, owner);
      }
      DecisionKeeps(t, t', allowed, owner, p, Expired, now);
    }
  }

  lemma ResolveDeadlineKeeps(t: Tables, allowed: set<(nat, nat, Option<nat>)>, owner: nat, m: nat, now: int)
    requires IntakeOk(t, allowed, owner)
    ensures IntakeOk(ResolveDeadline(t, m, now), allowed, owner)
  {
    if m < |t.inbox| && (t.inbox[m].state.Received? || t.inbox[m].state.Resolving?) {
      assert RowFits(t.inbox[m], t.bindings);
      EarlyRowMoves(t, SetState(t, m, FailedIn, now), allowed, owner, m, t.inbox[m].(state := FailedIn, ts := now));
    }
  }

  lemma MaterializeSweepsKeep(t: Tables, allowed: set<(nat, nat, Option<nat>)>, owner: nat, m: nat, now: int)
    requires IntakeOk(t, allowed, owner)
    ensures IntakeOk(MaterializeOrphan(t, m, now), allowed, owner)
    ensures IntakeOk(MaterializeDeadline(t, m, now), allowed, owner)
  {
    if m < |t.inbox| && t.inbox[m].state.ApprovedMaterializing? {
      ApprovedRowLeaves(t, SetState(t, m, Undeliverable, now), allowed, owner, m, Undeliverable, now);
      ApprovedRowLeaves(t, SetState(t, m, FailedIn, now), allowed, owner, m, FailedIn, now);
      JobsDoNotMatter(SetState(t, m, FailedIn, now),
                      SetState(t, m, FailedIn, now).(jobs := MaterializeDeadline(t, m, now).jobs), Idle, allowed,
                      owner);
    }
  }

  lemma ReclaimKeeps(t: Tables, allowed: set<(nat, nat, Option<nat>)>, owner: nat, now: int)
    requires IntakeOk(t, allowed, owner)
    ensures IntakeOk(ReclaimLeases(t, now), allowed, owner)
  {}

  lemma RetentionKeeps(t: Tables, allowed: set<(nat, nat, Option<nat>)>, owner: nat, now: int)
    requires IntakeOk(t, allowed, owner)
    ensures IntakeOk(Retention(t, now), allowed, owner)
  {
    var r := Retention(t, now);
    var t1 := t.(inbox := r.inbox);
    TrimRowsKeep(t, t1, Idle, allowed, owner);
    DeliveriesKeep(t1, t1.(deliveries := r.deliveries), Idle, allowed, owner);
    JobsDoNotMatter(t1.(deliveries := r.deliveries), r, Idle, allowed, owner);
  }

  lemma ReplenishKeeps(t: Tables, allowed: set<(nat, nat, Option<nat>)>, owner: nat, p: nat, now: int)
    requires IntakeOk(t, allowed, owner)
    ensures IntakeOk(ReplenishCard(t, p, now), allowed, owner)
  {
    CardsKeep(t, ReplenishCard(t, p, now), Idle, allowed, owner);
  }

  /** A change to bind requests alone. */
  lemma BindsDoNotMatter(t: Tables, t': Tables, d: Daemon, allowed: set<(nat, nat, Option<nat>)>, owner: nat)
    requires IntakeOk(t, allowed, owner) && MediaOk(t, d, allowed, owner)
    requires OnlyBindings(t, t') && t'.bindings == t.bindings
    ensures IntakeOk(t', allowed, owner) && MediaOk(t', d, allowed, owner)
  {}

  lemma BindThenTerminateKeeps(t: Tables, d: Daemon, allowed: set<(nat, nat, Option<nat>)>, owner: nat, r: nat,
                               row: PendingBind, reason: Reason, now: int)
    requires IntakeOk(t, allowed, owner) && MediaOk(t, d, allowed, owner) && r < |t.binds|
    ensures IntakeOk(Terminate(t.(binds := t.binds[r := row]), r, reason, Closed, now), allowed, owner)
    ensures MediaOk(Terminate(t.(binds := t.binds[r := row]), r, reason, Closed, now), d, allowed, owner)
  {
    BindsDoNotMatter(t, t.(binds := t.binds[r := row]), d, allowed, owner);
    TerminateKeeps(t.(binds := t.binds[r := row]), d, allowed, owner, r, reason, Closed, now);
  }

  lemma ActivateKeeps(t: Tables, d: Daemon, allowed: set<(nat, nat, Option<nat>)>, owner: nat, b: nat, now: int)
    requires IntakeOk(t, allowed, owner) && MediaOk(t, d, allowed, owner)
    requires b < |t.bindings| && t.bindings[b].status.Starting?
    ensures IntakeOk(Activate(t, b, now), allowed, owner) && MediaOk(Activate(t, b, now), d, allowed, owner)
  {
    BindingsUpKeep(t, Activate(t, b, now), d, allowed, owner);
  }

  lemma WorkerKeeps(t: Tables, allowed: set<(nat, nat, Option<nat>)>, owner: nat, a: WorkerAct)
    requires IntakeOk(t, allowed, owner)
    ensures IntakeOk(WorkerTables(t, a), allowed, owner)
  {
    hide IntakeOk;
    match a
    case ResolveTimeout(m, now) => ResolveDeadlineKeeps(t, allowed, owner, m, now);
    case Replenish(p, now) => ReplenishKeeps(t, allowed, owner, p, now);
    case Rearm(j, now) => JobsDoNotMatter(t, RearmCard(t, j, now), Idle, allowed, owner);
    case Orphaned(m, now) => MaterializeSweepsKeep(t, allowed, owner, m, now);
    case MaterializeTimeout(m, now) => MaterializeSweepsKeep(t, allowed, owner, m, now);
    case PendingTimeout(p, now) => ExpirePendingKeeps(t, allowed, owner, p, now);
    case BindingTimeout(r, now) =>
      if BindExpired(t, r, now) {
        BindThenTerminateKeeps(t, Idle, allowed, owner, r, t.binds[r].(state := BExpired, latch := false), BindTimeout,
                               now);
      }
    case CloseStray(b, now) => TerminateKeeps(t, Idle, allowed, owner, b, BindTimeout, Closed, now);
    case Reclaim(now) => ReclaimKeeps(t, allowed, owner, now);
    case SweepDeliveries => SweepFindsNothing(t, allowed, owner);
    case RescueSending(now) => JobsDoNotMatter(t, t.(jobs := LegacySending(t.jobs, now)), Idle, allowed, owner);
    case Retain(now) => RetentionKeeps(t, allowed, owner, now);
    case ActivateOne(b, now) =>
      if b < |t.bindings| && t.bindings[b].status.Starting? { ActivateKeeps(t, Idle, allowed, owner, b, now); }
      TerminateKeeps(t, Idle, allowed, owner, b, ListenerNeverReady, Closed, now);
    case _ =>
  }

  lemma SetSuspectKeeps(t: Tables, d: Daemon, allowed: set<(nat, nat, Option<nat>)>, owner: nat, b: nat, s: Option<int>)
    requires IntakeOk(t, allowed, owner) && MediaOk(t, d, allowed, owner)
    ensures IntakeOk(SetSuspect(t, b, s), allowed, owner) && MediaOk(SetSuspect(t, b, s), d, allowed, owner)
  {
    BindingsUpKeep(t, SetSuspect(t, b, s), d, allowed, owner);
  }

  lemma JudgeKeeps(t: Tables, d: Daemon, allowed: set<(nat, nat, Option<nat>)>, owner: nat, b: nat, seen: Binding,
                   scanNow: int, dead: bool, inSuspectWindow: bool, now: int)
    requires IntakeOk(t, allowed, owner) && MediaOk(t, d, allowed, owner)
    ensures IntakeOk(JudgeRow(t, b, seen, scanNow, dead, inSuspectWindow, now), allowed, owner)
    ensures MediaOk(JudgeRow(t, b, seen, scanNow, dead, inSuspectWindow, now), d, allowed, owner)
  {
    match Judge(seen, scanNow, dead, inSuspectWindow)
    case CcDead => TerminateKeeps(t, d, allowed, owner, b, CcGone, Closed, now);
    case Alive => SetSuspectKeeps(t, d, allowed, owner, b, None);
    case Suspected => SetSuspectKeeps(t, d, allowed, owner, b, Some(scanNow));
    case ConfirmedGone => TerminateKeeps(t, d, allowed, owner, b, ListenerGone, Dead, now);
    case _ =>
  }

  lemma WorkerStep(w: World, a: WorkerAct)
    requires IntakeAt(w)
    ensures IntakeAt(StepWorker(w, a))
  {
    hide Run, StepSender, StepIntake, StepHook, StepListener;
    if a.JudgeNext? {
      if w.daemon.Judging? && w.daemon.at < |w.daemon.seen| {
        JudgeKeeps(w.t, w.daemon, w.hist.allowed, w.cfg.owner, w.daemon.at, w.daemon.seen[w.daemon.at],
                   w.daemon.scanNow, a.dead, a.inSuspectWindow, a.judgeNow);
      }
    } else if !a.ScanDeaths? {
      WorkerKeeps(w.t, w.hist.allowed, w.cfg.owner, a);
    }
  }

  // ---- lib/inbound.py, lib/approval.py ----

  lemma GatedStep(w: World, r: (Tables, bool), m: nat, snap: Snap, from: InboxState, listed: bool)
    requires m < |w.t.inbox| && w.daemon.Idle?
    requires var more := NoteListed(w.hist, w.t, w.cfg, m, snap, from, listed).allowed;
             IntakeOk(r.0, more, w.cfg.owner) && AskedMedia(r.0, m, snap, from, more, w.cfg.owner, r.1)
    ensures IntakeAt(Gated(w, r, m, snap, from, listed))
  {}

  lemma DecideStep(w: World, m: nat, fetched: Snap, listed: bool, nonce: nat, now: int)
    requires IntakeAt(w) && w.daemon.Idle? && m < |w.t.inbox|
    ensures IntakeAt(Gated(w, DecideTx(w.t, w.cfg, m, fetched, listed, nonce, now), m, SnapOf(w.t, m, fetched),
                           Resolving, listed))
  {
    var snap := SnapOf(w.t, m, fetched);
    var more := NoteListed(w.hist, w.t, w.cfg, m, snap, Resolving, listed).allowed;
    MoreAllowedKeeps(w.t, Idle, w.hist.allowed, more, w.cfg.owner);
    DecideKeeps(w.t, w.cfg, more, m, fetched, listed, nonce, now);
    GatedStep(w, DecideTx(w.t, w.cfg, m, fetched, listed, nonce, now), m, snap, Resolving, listed);
  }

  lemma RedecideStep(w: World, m: nat, fetched: Snap, listed: bool, nonce: nat, now: int)
    requires IntakeAt(w) && w.daemon.Idle? && m < |w.t.inbox|
    ensures IntakeAt(Gated(w, WaitingTx(w.t, w.cfg, m, fetched, listed, nonce, now), m, SnapOf(w.t, m, fetched),
                           WaitingBinding, listed))
  {
    var snap := SnapOf(w.t, m, fetched);
    var more := NoteListed(w.hist, w.t, w.cfg, m, snap, WaitingBinding, listed).allowed;
    MoreAllowedKeeps(w.t, Idle, w.hist.allowed, more, w.cfg.owner);
    WaitingKeeps(w.t, w.cfg, more, m, fetched, listed, nonce, now);
    GatedStep(w, WaitingTx(w.t, w.cfg, m, fetched, listed, nonce, now), m, snap, WaitingBinding, listed);
  }

  lemma InsertKeeps(t: Tables, allowed: set<(nat, nat, Option<nat>)>, owner: nat, event: nat, message: nat, chat: nat,
                    sender: Option<nat>, now: int)
    requires IntakeOk(t, allowed, owner)
    ensures IntakeOk(InsertTx(t, event, message, chat, sender, now), allowed, owner)
  {
    var t' := InsertTx(t, event, message, chat, sender, now);
    if t' != t {
      DeliveriesUnmoved(t, t', allowed, owner);
      forall m | 0 <= m < |t'.inbox| ensures RowFits(t'.inbox[m], t'.bindings) {
        if m < |t.inbox| { assert RowFits(t.inbox[m], t.bindings); }
      }
      forall p | 0 <= p < |t'.pendings| ensures PendingFits(t'.pendings[p], t'.inbox, t'.bindings) {
        assert PendingFits(t.pendings[p], t.inbox, t.bindings);
      }
    }
  }

  lemma StartResolvingKeeps(t: Tables, allowed: set<(nat, nat, Option<nat>)>, owner: nat, m: nat, now: int)
    requires IntakeOk(t, allowed, owner) && m < |t.inbox|
    ensures IntakeOk(CasState(t, m, Received, Resolving, now), allowed, owner)
  {
    if t.inbox[m].state.Received? {
      assert RowFits(t.inbox[m], t.bindings);
      EarlyRowMoves(t, CasState(t, m, Received, Resolving, now), allowed, owner, m,
                    t.inbox[m].(state := Resolving, ts := now));
    }
  }

  lemma StartMaterializingStep(w: World, m: nat, fetched: Snap)
    requires IntakeAt(w)
    ensures IntakeAt(StepIntake(w, StartMaterializing(m, fetched)))
  {
    if w.daemon.Idle? && m < |w.t.inbox| { assert RowFits(w.t.inbox[m], w.t.bindings); }
  }

  lemma MediaStep(w: World, now: int)
    requires IntakeAt(w)
    ensures IntakeAt(StepIntake(w, MediaFailed(now))) && IntakeAt(StepIntake(w, MediaDone(now)))
  {
    if w.daemon.Materializing? {
      MediaFailedKeeps(w.t, w.hist.allowed, w.cfg.owner, w.daemon.msg, w.daemon.snap, w.daemon.from, w.daemon.pending,
                       now);
      MediaDoneKeeps(w.t, w.cfg, w.hist.allowed, w.daemon.msg, w.daemon.snap, w.daemon.from, w.daemon.pending, now);
    }
  }

  lemma IntakeActStep(w: World, a: IntakeAct)
    requires IntakeAt(w)
    ensures IntakeAt(StepIntake(w, a))
  {
    match a
    case Receive(event, message, chat, sender, now) =>
      InsertKeeps(w.t, w.hist.allowed, w.cfg.owner, event, message, chat, sender, now);
    case StartResolving(m, now) =>
      if m < |w.t.inbox| { StartResolvingKeeps(w.t, w.hist.allowed, w.cfg.owner, m, now); }
    case Decide(m, fetched, listed, nonce, now) =>
      if w.daemon.Idle? && m < |w.t.inbox| { DecideStep(w, m, fetched, listed, nonce, now); }
    case Redecide(m, fetched, listed, nonce, now) =>
      if w.daemon.Idle? && m < |w.t.inbox| { RedecideStep(w, m, fetched, listed, nonce, now); }
    case StartMaterializing(m, fetched) => StartMaterializingStep(w, m, fetched);
    case MediaFailed(now) => MediaStep(w, now);
    case MediaPutOff =>
    case MediaDone(now) => MediaStep(w, now);
    case Click(c, now) => CallbackDecides(w.t, w.cfg, w.hist.allowed, c, now);
  }

  // ---- The sender, the hooks, the command line, the listeners ----

  lemma SenderStep(w: World, a: SenderAct)
    requires IntakeAt(w)
    ensures IntakeAt(StepSender(w, a))
  {
    var w' := StepSender(w, a);
    SenderTables(w, a);
    CardsKeep(w.t, w'.t, Idle, w.hist.allowed, w.cfg.owner);
    if w'.daemon == w.daemon { CardsKeep(w.t, w'.t, w.daemon, w.hist.allowed, w.cfg.owner); }
  }

  lemma SenderTables(w: World, a: SenderAct)
    ensures var w' := StepSender(w, a);
            w'.t.bindings == w.t.bindings && w'.t.inbox == w.t.inbox && w'.t.deliveries == w.t.deliveries
            && w'.t.callbacks == w.t.callbacks && |w'.t.pendings| == |w.t.pendings|
            && (forall p :: 0 <= p < |w.t.pendings| ==> SamePending(w.t.pendings[p], w'.t.pendings[p]))
            && w'.hist.allowed == w.hist.allowed && w'.cfg.owner == w.cfg.owner
            && (w'.daemon == w.daemon || !w'.daemon.Materializing?)
  {
    hide Run, StepIntake, StepWorker, StepCli, StepHook, StepListener;
  }

  lemma CreateBindingKeeps(t: Tables, d: Daemon, allowed: set<(nat, nat, Option<nat>)>, owner: nat, chat: nat,
                           inst: nat, nonce: nat, now: int)
    requires IntakeOk(t, allowed, owner) && MediaOk(t, d, allowed, owner)
    ensures IntakeOk(CreateBinding(t, chat, inst, nonce, now).0, allowed, owner)
    ensures MediaOk(CreateBinding(t, chat, inst, nonce, now).0, d, allowed, owner)
  {
    var t' := CreateBinding(t, chat, inst, nonce, now).0;
    var t1 := Superseded(t, inst, now);
    match StartingOf(t.bindings, inst, 0) {
      case Some(b) =>
        TerminateKeeps(t, d, allowed, owner, b, BindSuperseded, Closed, now);
        BindsDoNotMatter(Terminate(t, b, BindSuperseded, Closed, now), t1, d, allowed, owner);
      case None => BindsDoNotMatter(t, t1, d, allowed, owner);
    }
    if !(ChatTaken(t1.bindings, chat) || InstTaken(t1.bindings, inst)) {
      BindingsUpKeep(t1, t', d, allowed, owner);
    }
  }

  lemma HandshakeKeeps(t: Tables, d: Daemon, allowed: set<(nat, nat, Option<nat>)>, owner: nat, r: nat, session: nat,
                       now: int)
    requires IntakeOk(t, allowed, owner) && MediaOk(t, d, allowed, owner)
    ensures IntakeOk(HandshakeTx(t, r, session, now), allowed, owner)
    ensures MediaOk(HandshakeTx(t, r, session, now), d, allowed, owner)
  {
    var v := HandshakeVerdict(t, r, session, now);
    if v.BindingGone? {
      BindsDoNotMatter(t, HandshakeTx(t, r, session, now), d, allowed, owner);
    } else if v.HandshakeDone? {
      var row := t.bindings[r].(confirmed := true, confirmedAt := Some(now), session := Some(session));
      var t1 := t.(binds := t.binds[r := t.binds[r].(state := BConsumed, latch := true)],
                   bindings := t.bindings[r := row]);
      BindingsUpKeep(t, t1, d, allowed, owner);
      ActivateKeeps(t1, d, allowed, owner, r, now);
    }
  }

  lemma HandshakeStep(w: World, inst: nat)
    requires IntakeAt(w)
    ensures IntakeAt(StepStopHandshake(w, inst))
  {
    if inst in w.stops && w.stops[inst].ToHandshake? && w.stops[inst].p.session.Some? {
      HandshakeKeeps(w.t, w.daemon, w.hist.allowed, w.cfg.owner, w.stops[inst].request, w.stops[inst].p.session.value,
                     w.stops[inst].p.now);
    }
  }

  lemma FailStep(w: World, inst: nat)
    requires IntakeAt(w)
    ensures IntakeAt(StepHook(w, inst, StopFail))
  {
    if inst in w.stops && (w.stops[inst].ToMiss? || w.stops[inst].ToConflict?) {
      var r := w.stops[inst].request;
      if r < |w.t.binds| {
        BindThenTerminateKeeps(w.t, w.daemon, w.hist.allowed, w.cfg.owner, r,
                               w.t.binds[r].(state := BFailed, latch := true), BindFailed, w.stops[inst].p.now);
      }
    }
  }

  lemma InsertStep(w: World, inst: nat)
    requires IntakeAt(w)
    ensures IntakeAt(StepStopInsert(w, inst))
  {}

  lemma HookStep(w: World, inst: nat, a: HookAct)
    requires IntakeAt(w)
    ensures IntakeAt(StepHook(w, inst, a))
  {
    var allowed, owner := w.hist.allowed, w.cfg.owner;
    match a
    case StopBegin(p) =>
      BindsDoNotMatter(w.t, w.t.(binds := CloseLatches(w.t.binds, inst)), w.daemon, allowed, owner);
    case StopHandshake => HandshakeStep(w, inst);
    case StopFail => FailStep(w, inst);
    case StopInsert => InsertStep(w, inst);
    case EndBinding(b, now) => TerminateKeeps(w.t, w.daemon, allowed, owner, b, SessionEnd, Closed, now);
    case EndRequest(r, now) =>
      if r < |w.t.binds| {
        BindThenTerminateKeeps(w.t, w.daemon, allowed, owner, r,
                               w.t.binds[r].(state := BExpired, latch := false), SessionEnd, now);
      }
    case EndLatches =>
      BindsDoNotMatter(w.t, w.t.(binds := CloseLatches(w.t.binds, inst)), w.daemon, allowed, owner);
    case _ =>
  }

  lemma ListenerStep(w: World, c: nat, a: ListenerAct)
    requires IntakeAt(w)
    ensures IntakeAt(StepListener(w, c, a))
  {
    if c in w.cores {
      var allowed, owner := w.hist.allowed, w.cfg.owner;
      var core := w.cores[c];
      match a {
        case Takeover(seen, now, _) =>
          BindingsUpKeep(w.t, TakeoverTx(w.t, core.binding, seen, core.process, now), w.daemon, allowed, owner);
        case Beat(now) => BindingsUpKeep(w.t, BeatTx(w.t, core, now), w.daemon, allowed, owner);
        case Claim(now) => DeliveriesKeep(w.t, ClaimTx(w.t, core, now), w.daemon, allowed, owner);
        case Emit =>
          if core.holding.Printed? {
            DeliveriesKeep(w.t, EmitTx(w.t, core.holding.delivery, core.holding.token), w.daemon, allowed, owner);
          }
        case _ =>
      }
    }
  }

  lemma IntakeStep(w: World, a: Act)
    requires IntakeAt(w)
    ensures IntakeAt(Next(w, a))
  {
    hide Run, StepSender, StepIntake, StepWorker, StepHook, StepListener;
    match a
    case BySender(s) => SenderStep(w, s);
    case ByIntake(i) => IntakeActStep(w, i);
    case ByWorker(r) => WorkerStep(w, r);
    case ByCli(Bind(chat, inst, nonce, now)) =>
      CreateBindingKeeps(w.t, w.daemon, w.hist.allowed, w.cfg.owner, chat, inst, nonce, now);
    case ByCli(Unbind(b, now)) =>
      TerminateKeeps(w.t, w.daemon, w.hist.allowed, w.cfg.owner, b, UserUnbind, Closed, now);
    case ByHook(inst, h) => HookStep(w, inst, h);
    case ByListener(c, l) => ListenerStep(w, c, l);
  }

  lemma {:induction false} IntakeRunKeeps(w: World, acts: seq<Act>)
    requires IntakeAt(w)
    ensures IntakeAt(Run(w, acts))
    decreases |acts|
  {
    hide Next;
    if acts != [] {
      IntakeStep(w, acts[0]);
      IntakeRunKeeps(Next(w, acts[0]), acts[1..]);
    }
  }
}
