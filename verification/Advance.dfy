/** What no run ever takes back: ended bindings, decisions, finished messages and printed deliveries. */
module Advance {
  import opened Schema
  import opened World
  import opened LifecycleTx
  import opened InboundTx
  import opened ApprovalTx
  import opened RecoveryTx
  import opened Machine
  import opened ListenerInvariant
  import IntakeRun

  /** A message keeps what it is and the binding it was pinned to; a final state is final. */
  predicate RowMovesOn(a: Inbox, b: Inbox) {
    && b.event == a.event && b.message == a.message && b.chat == a.chat && b.binding == a.binding
    && (a.state.Final() ==> b.state == a.state)
  }

  /** A decision is taken once: state, decider and deciding event of a decided approval never change. */
  predicate PendingMoves(a: Pending, b: Pending) {
    && b.msg == a.msg && b.binding == a.binding && b.nonce == a.nonce
    && (a.card.Some? ==> b.card == a.card)
    && (!a.state.PPending? ==> b.state == a.state && b.decidedBy == a.decidedBy && b.decidedEvent == a.decidedEvent)
  }

  ghost predicate BindingsMove(t: Tables, t': Tables) {
    |t.bindings| <= |t'.bindings| && forall i :: 0 <= i < |t.bindings| ==> BindingMoves(t.bindings[i], t'.bindings[i])
  }

  ghost predicate DeliveriesMove(t: Tables, t': Tables) {
    && |t.deliveries| <= |t'.deliveries|
    && forall i :: 0 <= i < |t.deliveries| ==> DeliveryMoves(t.deliveries[i], t'.deliveries[i])
  }

  ghost predicate InboxMoves(t: Tables, t': Tables) {
    |t.inbox| <= |t'.inbox| && forall m :: 0 <= m < |t.inbox| ==> RowMovesOn(t.inbox[m], t'.inbox[m])
  }

  ghost predicate PendingsMove(t: Tables, t': Tables) {
    && |t.pendings| <= |t'.pendings|
    && forall p :: 0 <= p < |t.pendings| ==> PendingMoves(t.pendings[p], t'.pendings[p])
  }

  ghost predicate Advances(t: Tables, t': Tables) {
    BindingsMove(t, t') && DeliveriesMove(t, t') && InboxMoves(t, t') && PendingsMove(t, t')
    && t.callbacks <= t'.callbacks
  }

  lemma AdvancesTwice(t: Tables, t1: Tables, t2: Tables)
    requires Advances(t, t1) && Advances(t1, t2)
    ensures Advances(t, t2)
  {}

  // ---- Transactions ----

  ghost predicate RowsMove(t: Tables, t': Tables) {
    InboxMoves(t, t') && PendingsMove(t, t') && t.callbacks <= t'.callbacks
  }

  lemma AsideAdvances(t: Tables, t': Tables)
    requires Aside(t, t') && RowsMove(t, t')
    ensures Advances(t, t')
  {}

  lemma TerminateRows(t: Tables, b: nat, reason: Reason, status: Status, now: int)
    requires !status.Live()
    ensures RowsMove(t, Terminate(t, b, reason, status, now))
  {}

  lemma CreateBindingRows(t: Tables, chat: nat, inst: nat, nonce: nat, now: int)
    ensures RowsMove(t, CreateBinding(t, chat, inst, nonce, now).0)
  {}

  lemma SameRows(t: Tables, t': Tables)
    requires t'.inbox == t.inbox && t'.pendings == t.pendings && t'.callbacks == t.callbacks
    ensures RowsMove(t, t')
  {}

  /** A transaction of the pipeline moves one row, and at most opens one approval. */
  predicate OneRow(t: Tables, t': Tables, m: nat)
    requires m < |t.inbox|
  {
    && |t'.inbox| == |t.inbox| && t'.inbox == t.inbox[m := t'.inbox[m]] && RowMovesOn(t.inbox[m], t'.inbox[m])
    && |t.pendings| <= |t'.pendings| && t'.pendings[..|t.pendings|] == t.pendings
    && t'.callbacks == t.callbacks
  }

  lemma OneRowMoves(t: Tables, t': Tables, m: nat)
    requires m < |t.inbox| && OneRow(t, t', m)
    ensures RowsMove(t, t')
  {}

  lemma EnqueueRow(t: Tables, m: nat, b: nat, snap: Snap, from: InboxState, approver: ApprovedBy, receipt: bool,
                   now: int)
    requires m < |t.inbox| && !from.Final()
    ensures OneRow(t, EnqueueTx(t, m, b, snap, from, approver, receipt, now).0, m)
  {}

  lemma CasRow(t: Tables, t': Tables, m: nat, from: InboxState, s: InboxState, now: int)
    requires m < |t.inbox| && !from.Final()
    requires t' == CasState(t, m, from, s, now).(jobs := t'.jobs)
    ensures OneRow(t, t', m)
  {}

  lemma OpenApprovalRow(t: Tables, m: nat, b: nat, from: InboxState, nonce: nat, now: int)
    requires m < |t.inbox| && !from.Final()
    ensures OneRow(t, OpenApproval(t, m, b, from, nonce, now), m)
  {}

  lemma GateRow(t: Tables, cfg: Config, m: nat, snap: Snap, b: nat, from: InboxState, listed: bool, nonce: nat,
                now: int)
    requires m < |t.inbox| && !from.Final()
    ensures OneRow(t, GateTx(t, cfg, m, snap, b, from, listed, nonce, now).0, m)
  {
    var t' := GateTx(t, cfg, m, snap, b, from, listed, nonce, now).0;
    if !snap.msgType.Supported() {
      CasRow(t, t', m, from, Unsupported, now);
    } else if snap.sender == Some(cfg.owner) {
      EnqueueRow(t, m, b, snap, from, NoApprover, true, now);
    } else if snap.sender.Some? && listed {
      EnqueueRow(t, m, b, snap, from, ByAllowlist, true, now);
    } else if OverQuota(t, t.inbox[m].chat, snap.sender, now) {
      CasRow(t, t', m, from, FailedIn, now);
    } else {
      OpenApprovalRow(t, m, b, from, nonce, now);
    }
  }

  lemma DecideRow(t: Tables, cfg: Config, m: nat, fetched: Snap, listed: bool, nonce: nat, now: int)
    requires m < |t.inbox|
    ensures OneRow(t, DecideTx(t, cfg, m, fetched, listed, nonce, now).0, m)
  {
    if t.inbox[m].state.Resolving? && t.inbox[m].binding.Some? {
      var snap := SnapOf(t, m, fetched);
      var t1 := t.(inbox := t.inbox[m := t.inbox[m].(snap := Some(snap), sender := snap.sender)]);
      GateRow(t1, cfg, m, snap, t1.inbox[m].binding.value, Resolving, listed, nonce, now);
    }
  }

  lemma WaitingRow(t: Tables, cfg: Config, m: nat, fetched: Snap, listed: bool, nonce: nat, now: int)
    requires m < |t.inbox|
    ensures OneRow(t, WaitingTx(t, cfg, m, fetched, listed, nonce, now).0, m)
  {
    if t.inbox[m].binding.Some? {
      GateRow(t, cfg, m, SnapOf(t, m, fetched), t.inbox[m].binding.value, WaitingBinding, listed, nonce, now);
    }
  }

  lemma MediaRow(t: Tables, cfg: Config, m: nat, snap: Snap, from: InboxState, pending: Option<nat>, now: int)
    requires m < |t.inbox| && !from.Final()
    ensures OneRow(t, MediaDoneTx(t, cfg, m, snap, from, pending, now), m)
  {
    var b := BindingOf(t, m);
    var t' := MediaDoneTx(t, cfg, m, snap, from, pending, now);
    if b.Some? && b.value.status.Active? {
      EnqueueRow(t, m, t.inbox[m].binding.value, snap, from, MediaApprover(t, cfg, snap, pending), pending.None?, now);
    } else if pending.Some? {
      CasRow(t, t', m, from, Undeliverable, now);
    } else if !(b.Some? && b.value.status.Live()) && t.inbox[m].state == from {
      CasRow(t, t', m, from, MapTerminated(b), now);
    }
  }

  lemma ApplyRows(t: Tables, c: Callback, now: int)
    requires c.act.Some? && c.pending.Some? && c.pending.value < |t.pendings|
    requires t.pendings[c.pending.value].msg < |t.inbox|
    ensures RowsMove(t, ApplyTx(t, c, now).0) && ApplyTx(t, c, now).0.callbacks == t.callbacks
  {}

  lemma CallbackRows(t: Tables, cfg: Config, c: Callback, now: int)
    ensures RowsMove(t, CallbackTx(t, cfg, c, now).0)
  {
    if ValidCallback(t, cfg, c) { ApplyRows(t, c, now); }
  }

  lemma DownloadRows(w: World, a: IntakeAct)
    requires IntakeRun.IntakeAt(w) && (a.MediaDone? || a.MediaFailed?)
    ensures RowsMove(w.t, StepIntake(w, a).t)
  {
    SameRows(w.t, w.t);
    if w.daemon.Materializing? {
      var d := w.daemon;
      var now := if a.MediaDone? then a.doneNow else a.failNow;
      MediaRow(w.t, w.cfg, d.msg, d.snap, d.from, d.pending, now);
      OneRowMoves(w.t, MediaDoneTx(w.t, w.cfg, d.msg, d.snap, d.from, d.pending, now), d.msg);
      CasRow(w.t, MediaFailedTx(w.t, d.msg, d.from, d.pending, now), d.msg, d.from, FailedIn, now);
      OneRowMoves(w.t, MediaFailedTx(w.t, d.msg, d.from, d.pending, now), d.msg);
    }
  }

  lemma DecisionRows(w: World, a: IntakeAct)
    requires a.Decide? || a.Redecide?
    ensures RowsMove(w.t, StepIntake(w, a).t)
  {
    hide Next, Run;
    SameRows(w.t, w.t);
    match a
    case Decide(m, fetched, listed, nonce, now) =>
      if m < |w.t.inbox| {
        DecideRow(w.t, w.cfg, m, fetched, listed, nonce, now);
        OneRowMoves(w.t, DecideTx(w.t, w.cfg, m, fetched, listed, nonce, now).0, m);
      }
    case Redecide(m, fetched, listed, nonce, now) =>
      if m < |w.t.inbox| {
        WaitingRow(w.t, w.cfg, m, fetched, listed, nonce, now);
        OneRowMoves(w.t, WaitingTx(w.t, w.cfg, m, fetched, listed, nonce, now).0, m);
      }
  }

  lemma IntakeRows(w: World, a: IntakeAct)
    requires IntakeRun.IntakeAt(w)
    ensures RowsMove(w.t, StepIntake(w, a).t)
  {
    match a
    case Decide(_, _, _, _, _) => DecisionRows(w, a);
    case Redecide(_, _, _, _, _) => DecisionRows(w, a);
    case MediaFailed(_) => DownloadRows(w, a);
    case MediaDone(_) => DownloadRows(w, a);
    case Click(c, now) => CallbackRows(w.t, w.cfg, c, now);
    case Receive(event, message, chat, sender, now) => InsertRows(w.t, event, message, chat, sender, now);
    case StartResolving(m, now) => ResolvingRows(w, m, now);
    case StartMaterializing(_, _) => SameRows(w.t, StepIntake(w, a).t);
    case MediaPutOff => SameRows(w.t, StepIntake(w, a).t);
  }

  lemma InsertRows(t: Tables, event: nat, message: nat, chat: nat, sender: Option<nat>, now: int)
    ensures RowsMove(t, InsertTx(t, event, message, chat, sender, now)) && RowsMove(t, t)
  {}

  lemma ResolvingRows(w: World, m: nat, now: int)
    ensures RowsMove(w.t, StepIntake(w, StartResolving(m, now)).t)
  {
    SameRows(w.t, w.t);
    if m < |w.t.inbox| {
      CasRow(w.t, CasState(w.t, m, Received, Resolving, now), m, Received, Resolving, now);
      OneRowMoves(w.t, CasState(w.t, m, Received, Resolving, now), m);
    }
  }

  lemma ExpirePendingRows(t: Tables, p: nat, now: int)
    ensures RowsMove(t, ExpirePending(t, p, now))
  {}

  lemma WorkerRows(t: Tables, a: WorkerAct)
    ensures RowsMove(t, WorkerTables(t, a))
  {
    match a
    case BindingTimeout(r, now) =>
      if BindExpired(t, r, now) {
        TerminateRows(t.(binds := t.binds[r := t.binds[r].(state := BExpired, latch := false)]), r, BindTimeout, Closed,
                      now);
      }
    case PendingTimeout(p, now) => ExpirePendingRows(t, p, now);
    case CloseStray(b, now) => TerminateRows(t, b, BindTimeout, Closed, now);
    case ActivateOne(b, now) => TerminateRows(t, b, ListenerNeverReady, Closed, now);
    case Replenish(p, now) => ReplenishRows(t, p, now);
    case Retain(now) => RetentionRows(t, now);
    case ResolveTimeout(m, now) =>
      if m < |t.inbox| { OneRowMoves(t, ResolveDeadline(t, m, now), m); }
    case Orphaned(m, now) =>
      if m < |t.inbox| { OneRowMoves(t, MaterializeOrphan(t, m, now), m); }
    case MaterializeTimeout(m, now) =>
      if m < |t.inbox| { OneRowMoves(t, MaterializeDeadline(t, m, now), m); }
    case _ => SameRows(t, WorkerTables(t, a));
  }

  lemma ReplenishRows(t: Tables, p: nat, now: int)
    ensures RowsMove(t, ReplenishCard(t, p, now))
  {}

  lemma RetentionRows(t: Tables, now: int)
    ensures RowsMove(t, Retention(t, now))
  {}

  lemma TerminateAdvances(t: Tables, b: nat, reason: Reason, status: Status, now: int)
    requires !status.Live()
    ensures Advances(t, Terminate(t, b, reason, status, now))
  {}

  lemma SuspectAdvances(t: Tables, b: nat, s: Option<int>)
    ensures Advances(t, SetSuspect(t, b, s))
  {}

  lemma JudgeAdvances(w: World, dead: bool, inSuspectWindow: bool, now: int)
    ensures Advances(w.t, StepJudge(w, dead, inSuspectWindow, now).t)
  {
    hide Next, Run;
    SuspectAdvances(w.t, |w.t.bindings|, None);
    if w.daemon.Judging? && w.daemon.at < |w.daemon.seen| {
      TerminateAdvances(w.t, w.daemon.at, CcGone, Closed, now);
      TerminateAdvances(w.t, w.daemon.at, ListenerGone, Dead, now);
      SuspectAdvances(w.t, w.daemon.at, None);
      SuspectAdvances(w.t, w.daemon.at, Some(w.daemon.scanNow));
    }
  }

  lemma HookRows(w: World, inst: nat, a: HookAct)
    ensures RowsMove(w.t, StepHook(w, inst, a).t)
  {
    hide Next, Run;
    match a
    case StopFail =>
      if inst in w.stops && (w.stops[inst].ToMiss? || w.stops[inst].ToConflict?) {
        var r := w.stops[inst].request;
        if r < |w.t.binds| {
          TerminateRows(w.t.(binds := w.t.binds[r := w.t.binds[r].(state := BFailed, latch := true)]), r, BindFailed,
                        Closed, w.stops[inst].p.now);
        }
      }
    case EndBinding(b, now) => TerminateRows(w.t, b, SessionEnd, Closed, now);
    case EndRequest(r, now) =>
      if r < |w.t.binds| {
        TerminateRows(w.t.(binds := w.t.binds[r := w.t.binds[r].(state := BExpired, latch := false)]), r, SessionEnd,
                      Closed, now);
      }
    case _ =>
  }

  lemma ListenerAdvances(w: World, c: nat, a: ListenerAct)
    requires ListenAt(w)
    ensures Advances(w.t, StepListener(w, c, a).t)
  {
    hide Run, StepSender, StepIntake, StepWorker, StepHook;
    var t' := StepListener(w, c, a).t;
    forall i | 0 <= i < |w.t.deliveries| ensures DeliveryMoves(w.t.deliveries[i], t'.deliveries[i]) {
      assert LeaseOk(w.t.deliveries[i], i, w.hist.won, w.hist.printed, w.t.nextId);
    }
  }

  // ---- Every step, every run ----

  ghost predicate Sound(w: World) { IntakeRun.IntakeAt(w) && ListenAt(w) }

  lemma AdvanceStep(w: World, a: Act)
    requires Sound(w)
    ensures Advances(w.t, Next(w, a).t)
  {
    hide Run, StepSender, StepIntake, StepHook, StepListener;
    match a
    case BySender(s) =>
      SenderAside(w, s);
      IntakeRun.SenderTables(w, s);
      SenderPendings(w, s);
    case ByIntake(i) =>
      IntakeAppends(w, i);
      AppendsAside(w.t, StepIntake(w, i).t);
      IntakeRows(w, i);
      AsideAdvances(w.t, StepIntake(w, i).t);
    case ByWorker(r) =>
      if r.JudgeNext? {
        JudgeAdvances(w, r.dead, r.inSuspectWindow, r.judgeNow);
      } else {
        WorkerAside(w.t, r);
        WorkerRows(w.t, r);
        AsideAdvances(w.t, WorkerTables(w.t, r));
      }
    case ByCli(Bind(chat, inst, nonce, now)) =>
      CreateBindingAside(w.t, chat, inst, nonce, now);
      CreateBindingRows(w.t, chat, inst, nonce, now);
      AsideAdvances(w.t, Next(w, a).t);
    case ByCli(Unbind(b, now)) =>
      TerminateAside(w.t, b, UserUnbind, Closed, now);
      TerminateRows(w.t, b, UserUnbind, Closed, now);
      AsideAdvances(w.t, Next(w, a).t);
    case ByHook(inst, h) =>
      HookAside(w, inst, h);
      HookRows(w, inst, h);
      AsideAdvances(w.t, StepHook(w, inst, h).t);
    case ByListener(c, l) => ListenerAdvances(w, c, l);
  }

  lemma SenderPendings(w: World, a: SenderAct)
    ensures PendingsMove(w.t, StepSender(w, a).t)
  {}

  lemma {:induction false} AdvanceRun(w: World, acts: seq<Act>)
    requires Sound(w)
    ensures Sound(Run(w, acts)) && Advances(w.t, Run(w, acts).t)
    decreases |acts|
  {
    hide Next;
    if acts != [] {
      AdvanceStep(w, acts[0]);
      IntakeRun.IntakeStep(w, acts[0]);
      ListenStep(w, acts[0]);
      AdvanceRun(Next(w, acts[0]), acts[1..]);
      AdvancesTwice(w.t, Next(w, acts[0]).t, Run(w, acts).t);
    }
  }
}
