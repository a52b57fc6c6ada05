/** The outbound queue over whole runs: every step of every actor keeps the invariant. */
module QueueRun {
  import opened Schema
  import opened World
  import opened Jobs
  import opened TurnText
  import opened OutboundTx
  import opened LifecycleTx
  import opened BindTx
  import opened InboundTx
  import opened ApprovalTx
  import opened RecoveryTx
  import opened Machine
  import opened QueueInvariant
  import opened QueueSteps

  // ---- Everybody but the sender is quiet ----

  lemma SameQuiet(js: seq<Job>)
    ensures Quiet(js, js)
  {}

  lemma RowQuiet(js: seq<Job>, j: nat, b: Job)
    requires j < |js| && QuietJob(js[j], b) && !IsTurn(js[j]) && b.key == js[j].key
    ensures Quiet(js, js[j := b])
  {}

  lemma ActivateQuiet(t: Tables, b: nat, now: int)
    requires b < |t.bindings|
    ensures Quiet(t.jobs, Activate(t, b, now).jobs)
  {}

  lemma CreateBindingQuiet(t: Tables, chat: nat, inst: nat, nonce: nat, now: int)
    ensures Quiet(t.jobs, CreateBinding(t, chat, inst, nonce, now).0.jobs)
  {
    SameQuiet(t.jobs);
    match StartingOf(t.bindings, inst, 0)
    case Some(b) => TerminateQuiet(t, b, BindSuperseded, Closed, now);
    case None =>
  }

  lemma EnqueueQuiet(t: Tables, m: nat, b: nat, snap: Snap, from: InboxState, approver: ApprovedBy, receipt: bool,
                     now: int)
    requires m < |t.inbox|
    ensures Quiet(t.jobs, EnqueueTx(t, m, b, snap, from, approver, receipt, now).0.jobs)
  {
    var known := DeliveryOf(t.deliveries, b, m, 0);
    var seqno := if known.Some? then known.value else |t.deliveries|;
    var job := ReceiptJob(t.inbox[m].chat, b, m, seqno, now);
    var js' := EnqueueTx(t, m, b, snap, from, approver, receipt, now).0.jobs;
    assert js' == t.jobs || js' == AddJob(t.jobs, job);
    SameQuiet(t.jobs);
    AddJobQuiet(t.jobs, t.jobs, job);
  }

  lemma GateQuiet(t: Tables, cfg: Config, m: nat, snap: Snap, b: nat, from: InboxState, listed: bool, nonce: nat,
                  now: int)
    requires m < |t.inbox|
    ensures Quiet(t.jobs, GateTx(t, cfg, m, snap, b, from, listed, nonce, now).0.jobs)
  {
    SameQuiet(t.jobs);
    if !snap.msgType.Supported() {
      AddJobQuiet(t.jobs, t.jobs, UnsupportedJob(t.inbox[m].chat, b, m, now));
    } else if snap.sender == Some(cfg.owner) {
      EnqueueQuiet(t, m, b, snap, from, NoApprover, true, now);
    } else if snap.sender.Some? && listed {
      EnqueueQuiet(t, m, b, snap, from, ByAllowlist, true, now);
    } else if !OverQuota(t, t.inbox[m].chat, snap.sender, now) {
      OpenApprovalQuiet(t, m, b, from, nonce, now);
    }
  }

  lemma OpenApprovalQuiet(t: Tables, m: nat, b: nat, from: InboxState, nonce: nat, now: int)
    requires m < |t.inbox|
    ensures Quiet(t.jobs, OpenApproval(t, m, b, from, nonce, now).jobs)
  {}

  lemma TellQuiet(t: Tables, m: nat, from: InboxState, b: Option<Binding>, now: int)
    requires m < |t.inbox| && (b.Some? ==> !b.value.status.Live())
    ensures Quiet(t.jobs, TellTx(t, m, from, b, now).jobs)
  {
    NoticeQuiet(t.jobs, t.jobs, t.inbox[m].chat, m, MapTerminated(b), if b.Some? then t.inbox[m].binding else None,
                now);
  }

  lemma DecideQuiet(t: Tables, cfg: Config, m: nat, fetched: Snap, listed: bool, nonce: nat, now: int)
    requires m < |t.inbox|
    ensures Quiet(t.jobs, DecideTx(t, cfg, m, fetched, listed, nonce, now).0.jobs)
  {
    SameQuiet(t.jobs);
    if t.inbox[m].state.Resolving? {
      var snap := SnapOf(t, m, fetched);
      var t1 := t.(inbox := t.inbox[m := t.inbox[m].(snap := Some(snap), sender := snap.sender)]);
      var b := BindingOf(t1, m);
      if b.None? || !b.value.status.Live() {
        TellQuiet(t1, m, Resolving, b, now);
      } else {
        GateQuiet(t1, cfg, m, snap, t1.inbox[m].binding.value, Resolving, listed, nonce, now);
      }
    }
  }

  lemma WaitingQuiet(t: Tables, cfg: Config, m: nat, fetched: Snap, listed: bool, nonce: nat, now: int)
    requires m < |t.inbox|
    ensures Quiet(t.jobs, WaitingTx(t, cfg, m, fetched, listed, nonce, now).0.jobs)
  {
    SameQuiet(t.jobs);
    var b := BindingOf(t, m);
    if b.None? || !b.value.status.Live() {
      TellQuiet(t, m, WaitingBinding, b, now);
    } else {
      GateQuiet(t, cfg, m, SnapOf(t, m, fetched), t.inbox[m].binding.value, WaitingBinding, listed, nonce, now);
    }
  }

  lemma MediaFailedQuiet(t: Tables, m: nat, from: InboxState, pending: Option<nat>, now: int)
    requires m < |t.inbox|
    ensures Quiet(t.jobs, MediaFailedTx(t, m, from, pending, now).jobs)
  {
    SameQuiet(t.jobs);
    if pending.Some? { AddJobQuiet(t.jobs, t.jobs, DecisionJob(t, m, pending.value, ExpectInbox(FailedIn), now)); }
  }

  lemma MediaDoneQuiet(t: Tables, cfg: Config, m: nat, snap: Snap, from: InboxState, pending: Option<nat>, now: int)
    requires m < |t.inbox|
    ensures Quiet(t.jobs, MediaDoneTx(t, cfg, m, snap, from, pending, now).jobs)
  {
    SameQuiet(t.jobs);
    var b := BindingOf(t, m);
    if b.Some? && b.value.status.Active? {
      var approver := MediaApprover(t, cfg, snap, pending);
      EnqueueQuiet(t, m, t.inbox[m].binding.value, snap, from, approver, pending.None?, now);
      if pending.Some? {
        AddJobQuiet(t.jobs, EnqueueTx(t, m, t.inbox[m].binding.value, snap, from, approver, false, now).0.jobs,
                    DecisionJob(t, m, pending.value, ExpectPend(PApproved), now));
      }
    } else if pending.None? && !(b.Some? && b.value.status.Live()) {
      TellQuiet(t, m, from, b, now);
    }
  }

  lemma ApproveQuiet(t: Tables, c: Callback, now: int)
    requires c.act == Some(Approve) && c.pending.Some? && c.pending.value < |t.pendings|
    requires t.pendings[c.pending.value].msg < |t.inbox|
    ensures Quiet(t.jobs, ApplyTx(t, c, now).0.jobs)
  {
    SameQuiet(t.jobs);
    var pid := c.pending.value;
    var m := t.pendings[pid].msg;
    if t.inbox[m].snap.Some? && !t.inbox[m].snap.value.msgType.Media() {
      var t1 := t.(pendings := t.pendings[pid := Decided(t.pendings[pid], PApproved, c)]);
      var approver := if c.operator.Some? then ByUser(c.operator.value) else NoApprover;
      EnqueueQuiet(t1, m, t.pendings[pid].binding, t.inbox[m].snap.value, AwaitingApproval, approver, false, now);
      AddJobQuiet(t.jobs, EnqueueTx(t1, m, t.pendings[pid].binding, t.inbox[m].snap.value, AwaitingApproval, approver,
                                    false, now).0.jobs, DecisionJob(t, m, pid, ExpectPend(PApproved), now));
    }
  }

  lemma RejectQuiet(t: Tables, c: Callback, now: int)
    requires c.act == Some(Reject) && c.pending.Some? && c.pending.value < |t.pendings|
    requires t.pendings[c.pending.value].msg < |t.inbox|
    ensures Quiet(t.jobs, ApplyTx(t, c, now).0.jobs)
  {}

  lemma CallbackQuiet(t: Tables, cfg: Config, c: Callback, now: int)
    ensures Quiet(t.jobs, CallbackTx(t, cfg, c, now).0.jobs)
  {
    SameQuiet(t.jobs);
    if c.event !in t.callbacks && ValidCallback(t, cfg, c) {
      if c.act.value.Approve? { ApproveQuiet(t, c, now); } else { RejectQuiet(t, c, now); }
    }
  }

  lemma RearmQuiet(t: Tables, j: nat, now: int)
    ensures Quiet(t.jobs, RearmCard(t, j, now).jobs)
  {
    SameQuiet(t.jobs);
    if j < |t.jobs| && CardAwaited(t, t.jobs[j]) {
      RowQuiet(t.jobs, j, t.jobs[j].(error := GivenUp));
      if t.jobs[j].attempts < CARD_REARM_MAX_ATTEMPTS {
        RowQuiet(t.jobs, j, t.jobs[j].(state := Queued, next := Some(now + CardDelay(t.jobs[j].attempts))));
      }
    }
  }

  lemma RetainQuiet(t: Tables, now: int)
    ensures Quiet(t.jobs, Retention(t, now).jobs)
  {}

  lemma ExpireBindQuiet(t: Tables, r: nat, now: int)
    ensures Quiet(t.jobs, ExpireBind(t, r, now).jobs)
  {
    SameQuiet(t.jobs);
    if BindExpired(t, r, now) {
      TerminateQuiet(t.(binds := t.binds[r := t.binds[r].(state := BExpired, latch := false)]), r, BindTimeout, Closed,
                     now);
    }
  }

  lemma MaterializeDeadlineQuiet(t: Tables, m: nat, now: int)
    ensures Quiet(t.jobs, MaterializeDeadline(t, m, now).jobs)
  {}

  lemma ExpirePendingQuiet(t: Tables, p: nat, now: int)
    ensures Quiet(t.jobs, ExpirePending(t, p, now).jobs)
  {
    SameQuiet(t.jobs);
    if p < |t.pendings| && t.pendings[p].msg < |t.inbox| {
      AddJobQuiet(t.jobs, t.jobs, DecisionJob(t, t.pendings[p].msg, p, ExpectPend(PExpired), now));
    }
  }

  lemma ActivateIfReadyQuiet(t: Tables, b: nat, now: int)
    ensures Quiet(t.jobs, ActivateIfReady(t, b, now).jobs)
  {
    SameQuiet(t.jobs);
    if b < |t.bindings| { ActivateQuiet(t, b, now); }
    TerminateQuiet(t, b, ListenerNeverReady, Closed, now);
  }

  lemma WorkerQuiet(t: Tables, a: WorkerAct)
    requires !a.RescueSending?
    ensures Quiet(t.jobs, WorkerTables(t, a).jobs)
  {
    SameQuiet(t.jobs);
    match a
    case Replenish(p, now) =>
      if p < |t.pendings| && t.pendings[p].msg < |t.inbox| {
        AddJobQuiet(t.jobs, t.jobs, CardJob(t.inbox[t.pendings[p].msg].chat, t.pendings[p].binding, p, now));
      }
    case Rearm(j, now) => RearmQuiet(t, j, now);
    case MaterializeTimeout(m, now) => MaterializeDeadlineQuiet(t, m, now);
    case PendingTimeout(p, now) => ExpirePendingQuiet(t, p, now);
    case BindingTimeout(r, now) => ExpireBindQuiet(t, r, now);
    case CloseStray(b, now) => TerminateQuiet(t, b, BindTimeout, Closed, now);
    case ActivateOne(b, now) => ActivateIfReadyQuiet(t, b, now);
    case Retain(now) => RetainQuiet(t, now);
    case _ =>
  }

  lemma JudgeQuiet(t: Tables, b: nat, seen: Binding, scanNow: int, dead: bool, inSuspectWindow: bool, now: int)
    ensures Quiet(t.jobs, JudgeRow(t, b, seen, scanNow, dead, inSuspectWindow, now).jobs)
  {
    match Judge(seen, scanNow, dead, inSuspectWindow)
    case CcDead => TerminateQuiet(t, b, CcGone, Closed, now);
    case ConfirmedGone => TerminateQuiet(t, b, ListenerGone, Dead, now);
    case _ => SameQuiet(t.jobs);
  }

  lemma FailBindQuiet(t: Tables, r: nat, now: int)
    ensures Quiet(t.jobs, FailBind(t, r, now).jobs)
  {
    SameQuiet(t.jobs);
    if r < |t.binds| && t.binds[r].state.BPending? {
      TerminateQuiet(t.(binds := t.binds[r := t.binds[r].(state := BFailed, latch := true)]), r, BindFailed, Closed,
                     now);
    }
  }

  lemma EndPendingQuiet(t: Tables, r: nat, now: int)
    ensures Quiet(t.jobs, EndPending(t, r, now).jobs)
  {
    SameQuiet(t.jobs);
    if r < |t.binds| && t.binds[r].state.BPending? {
      TerminateQuiet(t.(binds := t.binds[r := t.binds[r].(state := BExpired, latch := false)]), r, SessionEnd, Closed,
                     now);
    }
  }

  lemma HandshakeQuiet(t: Tables, r: nat, session: nat, now: int)
    ensures Quiet(t.jobs, HandshakeTx(t, r, session, now).jobs)
  {
    SameQuiet(t.jobs);
    if HandshakeVerdict(t, r, session, now).HandshakeDone? {
      var row := t.bindings[r].(confirmed := true, confirmedAt := Some(now), session := Some(session));
      ActivateQuiet(t.(binds := t.binds[r := t.binds[r].(state := BConsumed, latch := true)],
                       bindings := t.bindings[r := row]), r, now);
    }
  }

  // ---- Every step ----

  ghost predicate QueueAt(w: World) {
    && QueueOk(w.t.jobs, w.hist.spans, w.hist.acked, w.t.nextId)
    && AtPosition(w.t.jobs, w.daemon)
    && forall i :: i in w.stops && w.stops[i].ToInsert? ==> !Blank(w.stops[i].p.text)
  }

  predicate Between(d: Daemon) { d.Idle? || d.Materializing? || d.Judging? }

  predicate Bystander(w: World, w': World) {
    && w'.hist.spans == w.hist.spans && w'.hist.acked == w.hist.acked && w.t.nextId <= w'.t.nextId
    && (w'.daemon == w.daemon || (Between(w.daemon) && Between(w'.daemon)))
    && (forall i :: i in w'.stops && w'.stops[i].ToInsert? ==>
          !Blank(w'.stops[i].p.text) || (i in w.stops && w.stops[i] == w'.stops[i]))
  }

  /** A step that is quiet to the queue and does not move the sender. */
  lemma QuietStep(w: World, w': World)
    requires QueueAt(w) && Quiet(w.t.jobs, w'.t.jobs) && Bystander(w, w')
    ensures QueueAt(w')
  {
    QuietKeepsQueue(w.t.jobs, w'.t.jobs, w.hist.spans, w.hist.acked, w.t.nextId);
    if w'.daemon == w.daemon {
      QuietKeepsPosition(w.t.jobs, w'.t.jobs, w.daemon);
    } else {
      QuietKeepsSending(w.t.jobs, w'.t.jobs);
    }
  }

  // ---- The sender ----

  lemma ReconcileStep(w: World)
    requires QueueAt(w)
    ensures QueueAt(StepReconcile(w))
  {
    if w.daemon.Reconciling? {
      if w.daemon.k < |w.daemon.rows| {
        ReconcileKeepsPosition(w.t.jobs, w.daemon.now, w.daemon.rows, w.daemon.k, w.hist.spans, w.hist.acked,
                               w.t.nextId);
        ReconciledAt(w, StepReconcile(w));
      } else {
        assert w.daemon.rows[w.daemon.k..] == [];
        assert StepReconcile(w).t == w.t;
      }
    }
  }

  lemma ReconciledAt(w: World, w': World)
    requires w.daemon.Reconciling? && w.daemon.k < |w.daemon.rows| && w.daemon.rows[w.daemon.k] < |w.t.jobs|
    requires w' == StepReconcile(w)
    requires forall i :: i in w.stops && w.stops[i].ToInsert? ==> !Blank(w.stops[i].p.text)
    requires var js' := ReconcileRow(w.t.jobs, w.daemon.rows[w.daemon.k], w.daemon.now);
             QueueOk(js', w.hist.spans, w.hist.acked, w.t.nextId)
             && AtPosition(js', Reconciling(w.daemon.now, w.daemon.rows, w.daemon.k + 1))
    ensures QueueAt(w')
  {}

  lemma SweepStep(w: World)
    requires QueueAt(w)
    ensures QueueAt(StepSender(w, SweepNext))
  {
    if w.daemon.Sweeping? {
      SweepKeepsQueue(w.t.jobs, w.daemon.now, w.daemon.stage, w.hist.spans, w.hist.acked, w.t.nextId);
    }
  }

  lemma SelectStep(w: World, now: int, gateOpen: bool)
    requires QueueAt(w)
    ensures QueueAt(StepSender(w, Select(now, gateOpen)))
  {
    if w.daemon.Idle? && gateOpen { SelectStartsTick(w.t.jobs, now); }
  }

  lemma DropStep(w: World)
    requires QueueAt(w)
    ensures QueueAt(StepSender(w, DropDisallowed))
  {
    if w.daemon.Idle? { CancelDisallowedKeeps(w.t.jobs, w.cfg, w.hist.spans, w.hist.acked, w.t.nextId); }
  }

  lemma PrepareStep(w: World, now: int, at: int)
    requires QueueAt(w)
    ensures QueueAt(StepPrepare(w, now, at))
  {
    hide QueueOk;
    if w.daemon.Ticking? {
      var d := w.daemon;
      if d.k < |d.rows| && d.sends < OUTBOUND_BATCH {
        PrepareKeepsQueue(w.t, w.cfg, w.hist.spans, w.hist.acked, d.len, d.rows, d.k, now, at);
        PrepareKeepsPosition(w.t, w.cfg, w.hist.spans, w.hist.acked, d.len, d.rows, d.k, d.sends, now, at);
      }
    }
  }

  lemma FinishStep(w: World, outcome: Outcome, now: int)
    requires QueueAt(w)
    ensures QueueAt(StepFinish(w, outcome, now))
  {
    if w.daemon.InFlight? {
      var d := w.daemon;
      FinalizeKeepsQueue(w.t.jobs, d.rows[d.k], outcome, now, w.hist.spans, w.hist.acked, w.t.nextId);
      FinalizeKeepsPosition(w.t.jobs, outcome, now, w.hist.spans, w.hist.acked, w.t.nextId, d.len, d.rows, d.k,
                            d.sends);
      FinishedAt(w, StepFinish(w, outcome, now), outcome, now);
    }
  }

  lemma FinishedAt(w: World, w': World, outcome: Outcome, now: int)
    requires w.daemon.InFlight? && w.daemon.k < |w.daemon.rows| && w.daemon.rows[w.daemon.k] < |w.t.jobs|
    requires w.t.jobs[w.daemon.rows[w.daemon.k]].state.Sending? && w' == StepFinish(w, outcome, now)
    requires forall i :: i in w.stops && w.stops[i].ToInsert? ==> !Blank(w.stops[i].p.text)
    requires var j := w.daemon.rows[w.daemon.k];
             && QueueOk(FinalizeJobs(w.t.jobs, j, outcome, now), w.hist.spans,
                        Acknowledge(w.hist.acked, w.t.jobs, j, outcome), w.t.nextId)
             && AtPosition(FinalizeJobs(w.t.jobs, j, outcome, now),
                           Ticking(w.daemon.len, w.daemon.rows, w.daemon.k + 1, w.daemon.sends + 1))
    ensures QueueAt(w')
  {}

  lemma BootStep(w: World, allow: set<nat>, now: int)
    requires QueueAt(w)
    ensures QueueAt(StepSender(w, Boot(allow, now)))
  {
    if w.daemon.Down? { StartKeepsPosition(w.t.jobs, now); }
  }

  lemma CrashStep(w: World)
    requires QueueAt(w)
    ensures QueueAt(StepSender(w, Crash))
  {
    CrashKeepsPosition(w.t.jobs, w.daemon);
  }

  lemma SenderStep(w: World, a: SenderAct)
    requires QueueAt(w)
    ensures QueueAt(StepSender(w, a))
  {
    match a
    case Boot(allow, now) => BootStep(w, allow, now);
    case ReconcileNext => ReconcileStep(w);
    case SweepNext => SweepStep(w);
    case DropDisallowed => DropStep(w);
    case Select(now, gateOpen) => SelectStep(w, now, gateOpen);
    case PrepareNext(now, at) => PrepareStep(w, now, at);
    case Finish(outcome, now) => FinishStep(w, outcome, now);
    case Crash => CrashStep(w);
  }

  // ---- The others ----

  lemma IntakeQuiet(w: World, a: IntakeAct)
    ensures Quiet(w.t.jobs, StepIntake(w, a).t.jobs)
  {
    SameQuiet(w.t.jobs);
    match a
    case Decide(m, fetched, listed, nonce, now) =>
      if m < |w.t.inbox| { DecideQuiet(w.t, w.cfg, m, fetched, listed, nonce, now); }
    case Redecide(m, fetched, listed, nonce, now) =>
      if m < |w.t.inbox| { WaitingQuiet(w.t, w.cfg, m, fetched, listed, nonce, now); }
    case MediaFailed(now) =>
      if w.daemon.Materializing? && w.daemon.msg < |w.t.inbox| {
        MediaFailedQuiet(w.t, w.daemon.msg, w.daemon.from, w.daemon.pending, now);
      }
    case MediaDone(now) =>
      if w.daemon.Materializing? && w.daemon.msg < |w.t.inbox| {
        MediaDoneQuiet(w.t, w.cfg, w.daemon.msg, w.daemon.snap, w.daemon.from, w.daemon.pending, now);
      }
    case Click(c, now) => CallbackQuiet(w.t, w.cfg, c, now);
    case _ =>
  }

  lemma IntakeBystander(w: World, a: IntakeAct)
    ensures Bystander(w, StepIntake(w, a))
  {
    hide Run, StepSender, StepCli, StepHook, StepListener;
  }

  lemma WorkerStep(w: World, a: WorkerAct)
    requires QueueAt(w)
    ensures QueueAt(StepWorker(w, a))
  {
    if a.RescueSending? {
      if w.daemon.Idle? { LegacySendingIsIdle(w.t.jobs, a.rescueNow); }
    } else {
      WorkerStepQuiet(w, a);
      WorkerBystander(w, a);
      QuietStep(w, StepWorker(w, a));
    }
  }

  lemma WorkerStepQuiet(w: World, a: WorkerAct)
    requires !a.RescueSending?
    ensures Quiet(w.t.jobs, StepWorker(w, a).t.jobs)
  {
    SameQuiet(w.t.jobs);
    if a.JudgeNext? {
      if w.daemon.Judging? && w.daemon.at < |w.daemon.seen| {
        JudgeQuiet(w.t, w.daemon.at, w.daemon.seen[w.daemon.at], w.daemon.scanNow, a.dead, a.inSuspectWindow,
                   a.judgeNow);
      }
    } else {
      WorkerQuiet(w.t, a);
    }
  }

  lemma WorkerBystander(w: World, a: WorkerAct)
    ensures Bystander(w, StepWorker(w, a))
  {
    hide Run, StepSender, StepIntake, StepHook, StepListener;
  }

  lemma CliStep(w: World, a: CliAct)
    requires QueueAt(w)
    ensures QueueAt(StepCli(w, a))
  {
    match a
    case Bind(chat, inst, nonce, now) =>
      CreateBindingQuiet(w.t, chat, inst, nonce, now);
      QuietStep(w, StepCli(w, a));
    case Unbind(b, now) =>
      TerminateQuiet(w.t, b, UserUnbind, Closed, now);
      QuietStep(w, StepCli(w, a));
  }

  /** A Stop hook queues a turn. */
  lemma InsertStep(w: World, inst: nat)
    requires QueueAt(w)
    ensures QueueAt(StepStopInsert(w, inst))
  {
    if inst in w.stops && w.stops[inst].ToInsert? {
      var pc := w.stops[inst];
      if pc.binding < |w.t.bindings| && w.t.bindings[pc.binding].status.Active? {
        var chunks := WithFooter(ChunkText(pc.p.text), pc.p.footer);
        var chat := w.t.bindings[pc.binding].chat;
        NotBlankHasChunks(pc.p.text);
        EnqueueIsAppend(w.t.jobs, w.hist.spans, w.hist.acked, w.t.nextId, pc.binding, chat, chunks, pc.p.now);
        EnqueueKeepsQueue(w.t.jobs, w.hist.spans, w.hist.acked, w.t.nextId, pc.binding, chat, chunks, pc.p.now);
        EnqueueKeepsPosition(w.t.jobs, TurnJobs(w.t.nextId, pc.binding, chat, chunks, pc.p.now), w.daemon);
        InsertedAt(w, StepStopInsert(w, inst), inst, chunks);
      }
    }
  }

  lemma NotBlankHasChunks(text: string)
    requires !Blank(text)
    ensures ChunkText(text) != []
  {
    ChunkTextWhole(text);
  }

  lemma InsertedAt(w: World, w': World, inst: nat, chunks: seq<string>)
    requires inst in w.stops && w.stops[inst].ToInsert? && w' == StepStopInsert(w, inst)
    requires w.stops[inst].binding < |w.t.bindings| && w.t.bindings[w.stops[inst].binding].status.Active?
    requires chunks == WithFooter(ChunkText(w.stops[inst].p.text), w.stops[inst].p.footer)
    requires forall i :: i in w.stops && w.stops[i].ToInsert? ==> !Blank(w.stops[i].p.text)
    requires var pc := w.stops[inst];
             var js' := EnqueueTurn(w.t.jobs, w.t.nextId, pc.binding, w.t.bindings[pc.binding].chat, chunks, 0, pc.p.now);
             QueueOk(js', w.hist.spans[w.t.nextId := Span(|w.t.jobs|, pc.binding, chunks)], w.hist.acked, w.t.nextId + 1)
             && AtPosition(js', w.daemon)
    ensures QueueAt(w')
  {
    var pc := w.stops[inst];
    assert w'.t.jobs == EnqueueTurn(w.t.jobs, w.t.nextId, pc.binding, w.t.bindings[pc.binding].chat, chunks, 0, pc.p.now);
    assert w'.hist.spans == w.hist.spans[w.t.nextId := Span(|w.t.jobs|, pc.binding, chunks)];
  }

  lemma HookQuiet(w: World, inst: nat, a: HookAct)
    requires !a.StopInsert?
    ensures Quiet(w.t.jobs, StepHook(w, inst, a).t.jobs)
  {
    hide Next, Run;
    SameQuiet(w.t.jobs);
    match a
    case StopHandshake =>
      if inst in w.stops && w.stops[inst].ToHandshake? && w.stops[inst].p.session.Some? {
        HandshakeQuiet(w.t, w.stops[inst].request, w.stops[inst].p.session.value, w.stops[inst].p.now);
      }
    case StopFail =>
      if inst in w.stops && (w.stops[inst].ToMiss? || w.stops[inst].ToConflict?) {
        FailBindQuiet(w.t, w.stops[inst].request, w.stops[inst].p.now);
      }
    case EndBinding(b, now) => TerminateQuiet(w.t, b, SessionEnd, Closed, now);
    case EndRequest(r, now) => EndPendingQuiet(w.t, r, now);
    case _ =>
  }

  lemma HookBystander(w: World, inst: nat, a: HookAct)
    requires !a.StopInsert?
    ensures Bystander(w, StepHook(w, inst, a))
  {
    hide Run, StepSender, StepIntake, StepWorker, StepCli;
  }

  lemma ListenerQuiet(w: World, c: nat, a: ListenerAct)
    ensures Quiet(w.t.jobs, StepListener(w, c, a).t.jobs) && Bystander(w, StepListener(w, c, a))
  {
    SameQuiet(w.t.jobs);
  }

  /** Whoever else acts, the queue stays quiet, unless a Stop hook inserts a turn or recovery rescues a stale row. */
  lemma OthersQuiet(w: World, a: Act)
    requires (hide Next, Run;
              !a.BySender? && !(a.ByWorker? && a.worker.RescueSending?) && !(a.ByHook? && a.hook.StopInsert?))
    ensures Quiet(w.t.jobs, Next(w, a).t.jobs)
  {
    hide Run, StepSender, StepIntake, StepWorker, StepHook, StepListener, Quiet;
    match a
    case ByIntake(i) => IntakeQuiet(w, i);
    case ByWorker(r) => WorkerStepQuiet(w, r);
    case ByCli(Bind(chat, inst, nonce, now)) => CreateBindingQuiet(w.t, chat, inst, nonce, now);
    case ByCli(Unbind(b, now)) => TerminateQuiet(w.t, b, UserUnbind, Closed, now);
    case ByHook(inst, h) => HookQuiet(w, inst, h);
    case ByListener(c, l) => ListenerQuiet(w, c, l);
  }

  /** Nothing but fresh turns at the end. */
  ghost predicate TurnsAppended(js: seq<Job>, js': seq<Job>) {
    && js <= js'
    && forall i :: |js| <= i < |js'| ==> IsTurn(js'[i]) && js'[i].state.Queued? && js'[i].attempts == 0
  }

  lemma InsertAppends(w: World, inst: nat)
    requires QueueAt(w)
    ensures TurnsAppended(w.t.jobs, StepStopInsert(w, inst).t.jobs)
  {
    if inst in w.stops && w.stops[inst].ToInsert? {
      var pc := w.stops[inst];
      if pc.binding < |w.t.bindings| && w.t.bindings[pc.binding].status.Active? {
        EnqueueIsAppend(w.t.jobs, w.hist.spans, w.hist.acked, w.t.nextId, pc.binding, w.t.bindings[pc.binding].chat,
                        WithFooter(ChunkText(pc.p.text), pc.p.footer), pc.p.now);
      }
    }
  }

  /** Under the queue's invariant that is all anybody but the sender does to it: no rescue finds a row. */
  lemma OthersLeaveQueue(w: World, a: Act)
    requires (hide Next, Run; QueueAt(w) && !a.BySender?)
    ensures Quiet(w.t.jobs, Next(w, a).t.jobs) || TurnsAppended(w.t.jobs, Next(w, a).t.jobs)
  {
    if a.ByHook? && a.hook.StopInsert? {
      hide Run, StepSender, StepIntake, StepWorker, StepCli, StepListener, QueueAt;
      InsertAppends(w, a.inst);
    } else if a.ByWorker? && a.worker.RescueSending? {
      hide Run, StepSender, StepIntake, StepCli, StepHook, StepListener;
      if w.daemon.Idle? { LegacySendingIsIdle(w.t.jobs, a.worker.rescueNow); }
    } else {
      hide Next, Run;
      OthersQuiet(w, a);
    }
  }

  // ---- Every step, every run ----

  lemma QueueStep(w: World, a: Act)
    requires QueueAt(w)
    ensures QueueAt(Next(w, a))
  {
    hide Run, QueueAt, Quiet, Bystander;
    match a
    case BySender(s) => SenderStep(w, s);
    case ByIntake(i) =>
      IntakeQuiet(w, i);
      IntakeBystander(w, i);
      QuietStep(w, StepIntake(w, i));
    case ByWorker(r) => WorkerStep(w, r);
    case ByCli(c) => CliStep(w, c);
    case ByHook(inst, h) =>
      if h.StopInsert? {
        InsertStep(w, inst);
      } else {
        HookQuiet(w, inst, h);
        HookBystander(w, inst, h);
        QuietStep(w, StepHook(w, inst, h));
      }
    case ByListener(c, l) =>
      ListenerQuiet(w, c, l);
      QuietStep(w, StepListener(w, c, l));
  }

  lemma {:induction false} QueueRunKeeps(w: World, acts: seq<Act>)
    requires QueueAt(w)
    ensures QueueAt(Run(w, acts))
    decreases |acts|
  {
    hide Next;
    if acts != [] {
      QueueStep(w, acts[0]);
      QueueRunKeeps(Next(w, acts[0]), acts[1..]);
    }
  }
}
