/** Jobs nobody is sending: notices that are held back for good, and failed cards that come back. */
module RestingJobs {
  import opened Schema
  import opened World
  import opened Jobs
  import opened OutboundTx
  import opened LifecycleTx
  import opened BindTx
  import opened InboundTx
  import opened ApprovalTx
  import opened RecoveryTx
  import opened Machine
  import opened QueueInvariant
  import opened QueueRun
  import opened SendClaims
  import Frames
  import Advance
  import IntakeRun
  import ListenerInvariant
  import Progress
  import UnbindClaims

  /** A notice in doubt without a retry time. */
  predicate Stuck(job: Job) { job.kind.Notice() && job.state.Unknown? && job.next.None? }

  // ---- Who may touch a stuck notice ----

  /** A stuck notice stays exactly as it is, unless its binding ends. */
  ghost predicate Spares(t: Tables, t': Tables) {
    && |t.jobs| <= |t'.jobs|
    && forall i :: 0 <= i < |t.jobs| && Stuck(t.jobs[i]) ==>
         t'.jobs[i] == t.jobs[i]
         || (t.jobs[i].binding.Some? && UnbindClaims.Ends(t, t', t.jobs[i].binding.value))
  }

  /** What has failed stays failed. */
  ghost predicate KeepsFailed(js: seq<Job>, js': seq<Job>) {
    |js| <= |js'| && forall j :: 0 <= j < |js| && js[j].state.Failed? ==> js'[j].state.Failed?
  }

  lemma TerminateSpares(t: Tables, b: nat, reason: Reason, status: Status, now: int)
    requires !status.Live()
    ensures Spares(t, Terminate(t, b, reason, status, now))
    ensures KeepsFailed(t.jobs, Terminate(t, b, reason, status, now).jobs)
  {
    if LiveBinding(t, b) {
      var row := t.bindings[b].(status := status, reason := Some(reason));
      var js := AddJob(CancelOf(t.jobs, b), CloseNotice(row, b, reason, status, now));
      UnbindClaims.WaitingNoticesAreNotices(js, t.inbox, b, MapTerminated(Some(row)), 0, now);
    }
  }

  lemma SettledSpares(t: Tables, r: nat, row: PendingBind, reason: Reason, now: int)
    requires r < |t.binds|
    ensures Spares(t, Terminate(t.(binds := t.binds[r := row]), r, reason, Closed, now))
    ensures KeepsFailed(t.jobs, Terminate(t.(binds := t.binds[r := row]), r, reason, Closed, now).jobs)
  {
    TerminateSpares(t.(binds := t.binds[r := row]), r, reason, Closed, now);
  }

  lemma CreateBindingSpares(t: Tables, chat: nat, inst: nat, nonce: nat, now: int)
    ensures Spares(t, CreateBinding(t, chat, inst, nonce, now).0)
    ensures KeepsFailed(t.jobs, CreateBinding(t, chat, inst, nonce, now).0.jobs)
  {
    var found := StartingOf(t.bindings, inst, 0);
    if found.Some? { TerminateSpares(t, found.value, BindSuperseded, Closed, now); }
  }

  // ---- The pipeline only appends jobs ----

  lemma EnqueueGrows(t: Tables, m: nat, b: nat, snap: Snap, from: InboxState, approver: ApprovedBy, receipt: bool,
                     now: int)
    requires m < |t.inbox|
    ensures t.jobs <= EnqueueTx(t, m, b, snap, from, approver, receipt, now).0.jobs
  {}

  lemma OpenApprovalGrows(t: Tables, m: nat, b: nat, from: InboxState, nonce: nat, now: int)
    requires m < |t.inbox|
    ensures t.jobs <= OpenApproval(t, m, b, from, nonce, now).jobs
  {}

  lemma AddGrows(js: seq<Job>, job: Job)
    ensures js <= AddJob(js, job)
  {}

  lemma GateGrows(t: Tables, cfg: Config, m: nat, snap: Snap, b: nat, from: InboxState, listed: bool, nonce: nat,
                  now: int)
    requires m < |t.inbox|
    ensures t.jobs <= GateTx(t, cfg, m, snap, b, from, listed, nonce, now).0.jobs
  {
    EnqueueGrows(t, m, b, snap, from, NoApprover, true, now);
    EnqueueGrows(t, m, b, snap, from, ByAllowlist, true, now);
    OpenApprovalGrows(t, m, b, from, nonce, now);
    AddGrows(t.jobs, UnsupportedJob(t.inbox[m].chat, b, m, now));
    if !snap.msgType.Supported() {
      assert GateTx(t, cfg, m, snap, b, from, listed, nonce, now).0.jobs
             == AddJob(t.jobs, UnsupportedJob(t.inbox[m].chat, b, m, now));
    }
  }

  lemma DecideGrows(t: Tables, cfg: Config, m: nat, fetched: Snap, listed: bool, nonce: nat, now: int)
    requires m < |t.inbox|
    ensures t.jobs <= DecideTx(t, cfg, m, fetched, listed, nonce, now).0.jobs
  {
    var snap := SnapOf(t, m, fetched);
    var t1 := t.(inbox := t.inbox[m := t.inbox[m].(snap := Some(snap), sender := snap.sender)]);
    if t.inbox[m].binding.Some? {
      GateGrows(t1, cfg, m, snap, t1.inbox[m].binding.value, Resolving, listed, nonce, now);
    }
  }

  lemma WaitingGrows(t: Tables, cfg: Config, m: nat, fetched: Snap, listed: bool, nonce: nat, now: int)
    requires m < |t.inbox|
    ensures t.jobs <= WaitingTx(t, cfg, m, fetched, listed, nonce, now).0.jobs
  {
    if t.inbox[m].binding.Some? {
      GateGrows(t, cfg, m, SnapOf(t, m, fetched), t.inbox[m].binding.value, WaitingBinding, listed, nonce, now);
    }
  }

  lemma MediaGrows(t: Tables, cfg: Config, m: nat, snap: Snap, from: InboxState, pending: Option<nat>, now: int)
    requires m < |t.inbox|
    ensures t.jobs <= MediaDoneTx(t, cfg, m, snap, from, pending, now).jobs
    ensures t.jobs <= MediaFailedTx(t, m, from, pending, now).jobs
  {
    hide EnqueueTx;
    if t.inbox[m].binding.Some? {
      EnqueueGrows(t, m, t.inbox[m].binding.value, snap, from, MediaApprover(t, cfg, snap, pending), pending.None?, now);
    }
  }

  lemma CallbackGrows(t: Tables, cfg: Config, c: Callback, now: int)
    ensures t.jobs <= CallbackTx(t, cfg, c, now).0.jobs
  {}

  lemma IntakeGrows(w: World, a: IntakeAct)
    ensures w.t.jobs <= StepIntake(w, a).t.jobs
  {
    match a
    case Decide(m, fetched, listed, nonce, now) =>
      if m < |w.t.inbox| { DecideGrows(w.t, w.cfg, m, fetched, listed, nonce, now); }
    case Redecide(m, fetched, listed, nonce, now) =>
      if m < |w.t.inbox| { WaitingGrows(w.t, w.cfg, m, fetched, listed, nonce, now); }
    case MediaFailed(now) =>
      if w.daemon.Materializing? && w.daemon.msg < |w.t.inbox| {
        MediaGrows(w.t, w.cfg, w.daemon.msg, w.daemon.snap, w.daemon.from, w.daemon.pending, now);
      }
    case MediaDone(now) =>
      if w.daemon.Materializing? && w.daemon.msg < |w.t.inbox| {
        MediaGrows(w.t, w.cfg, w.daemon.msg, w.daemon.snap, w.daemon.from, w.daemon.pending, now);
      }
    case Click(c, now) => CallbackGrows(w.t, w.cfg, c, now);
    case _ =>
  }

  // ---- Workers and hooks ----

  lemma OtherWorkSpares(t: Tables, a: WorkerAct)
    requires !a.BindingTimeout? && !a.CloseStray? && !a.ActivateOne?
    ensures Spares(t, WorkerTables(t, a))
    ensures !a.Rearm? ==> KeepsFailed(t.jobs, WorkerTables(t, a).jobs)
  {}

  lemma ActivateSpares(t: Tables, b: nat, now: int)
    ensures Spares(t, ActivateIfReady(t, b, now))
    ensures KeepsFailed(t.jobs, ActivateIfReady(t, b, now).jobs)
  {
    TerminateSpares(t, b, ListenerNeverReady, Closed, now);
  }

  lemma TimeoutSpares(t: Tables, r: nat, now: int)
    ensures Spares(t, ExpireBind(t, r, now))
    ensures KeepsFailed(t.jobs, ExpireBind(t, r, now).jobs)
  {
    if BindExpired(t, r, now) {
      SettledSpares(t, r, t.binds[r].(state := BExpired, latch := false), BindTimeout, now);
    }
  }

  lemma JudgeSpares(w: World, dead: bool, inSuspectWindow: bool, now: int)
    ensures Spares(w.t, StepJudge(w, dead, inSuspectWindow, now).t)
    ensures KeepsFailed(w.t.jobs, StepJudge(w, dead, inSuspectWindow, now).t.jobs)
  {
    hide Next, Run;
    if w.daemon.Judging? {
      TerminateSpares(w.t, w.daemon.at, CcGone, Closed, now);
      TerminateSpares(w.t, w.daemon.at, ListenerGone, Dead, now);
    }
  }

  lemma WorkerSpares(w: World, a: WorkerAct)
    ensures Spares(w.t, StepWorker(w, a).t)
    ensures !a.Rearm? ==> KeepsFailed(w.t.jobs, StepWorker(w, a).t.jobs)
  {
    if a.JudgeNext? {
      JudgeSpares(w, a.dead, a.inSuspectWindow, a.judgeNow);
    } else if !a.ScanDeaths? && w.daemon.Idle? {
      match a
      case BindingTimeout(r, now) => TimeoutSpares(w.t, r, now);
      case CloseStray(b, now) => TerminateSpares(w.t, b, BindTimeout, Closed, now);
      case ActivateOne(b, now) => ActivateSpares(w.t, b, now);
      case _ => OtherWorkSpares(w.t, a);
    }
  }

  lemma HandshakeGrows(t: Tables, r: nat, session: nat, now: int)
    ensures t.jobs <= HandshakeTx(t, r, session, now).jobs
  {}

  lemma OtherHooksLeaveJobs(w: World, inst: nat, a: HookAct)
    requires !a.StopHandshake? && !a.StopFail? && !a.StopInsert? && !a.EndBinding? && !a.EndRequest?
    ensures StepHook(w, inst, a).t.jobs == w.t.jobs
  {}

  lemma HookSpares(w: World, inst: nat, a: HookAct)
    requires QueueAt(w)
    ensures Spares(w.t, StepHook(w, inst, a).t)
    ensures KeepsFailed(w.t.jobs, StepHook(w, inst, a).t.jobs)
  {
    hide Run, StepSender, StepIntake, StepWorker, StepListener;
    match a
    case StopHandshake =>
      if inst in w.stops && w.stops[inst].ToHandshake? && w.stops[inst].p.session.Some? {
        HandshakeGrows(w.t, w.stops[inst].request, w.stops[inst].p.session.value, w.stops[inst].p.now);
      }
    case StopFail =>
      if inst in w.stops && (w.stops[inst].ToMiss? || w.stops[inst].ToConflict?) {
        var r := w.stops[inst].request;
        if r < |w.t.binds| {
          SettledSpares(w.t, r, w.t.binds[r].(state := BFailed, latch := true), BindFailed, w.stops[inst].p.now);
        }
      }
    case StopInsert => InsertAppends(w, inst);
    case EndBinding(b, now) => TerminateSpares(w.t, b, SessionEnd, Closed, now);
    case EndRequest(r, now) =>
      if r < |w.t.binds| {
        SettledSpares(w.t, r, w.t.binds[r].(state := BExpired, latch := false), SessionEnd, now);
      }
    case _ => OtherHooksLeaveJobs(w, inst, a);
  }

  // ---- The sender ----

  /** The sender leaves a failed job alone, and a stuck notice as long as its chat is allowed. */
  ghost predicate SenderSpares(w: World, w': World) {
    && KeepsFailed(w.t.jobs, w'.t.jobs)
    && forall i :: 0 <= i < |w.t.jobs| && Stuck(w.t.jobs[i]) && ChatAllowed(w.cfg, w.t.jobs[i].chat) ==>
         w'.t.jobs[i] == w.t.jobs[i]
  }

  lemma ReconcileSpares(w: World)
    requires QueueAt(w)
    ensures SenderSpares(w, StepReconcile(w))
  {
    hide Run, StepSender, StepIntake, StepWorker, StepCli, StepHook, StepListener;
  }

  lemma SweepSpares(w: World)
    ensures SenderSpares(w, StepSender(w, SweepNext))
  {}

  lemma PrepareSpares(w: World, now: int, at: int)
    ensures SenderSpares(w, StepPrepare(w, now, at))
  {}

  lemma FinishSpares(w: World, outcome: Outcome, now: int)
    ensures SenderSpares(w, StepFinish(w, outcome, now))
  {}

  lemma SenderLeavesStuck(w: World, a: SenderAct)
    requires QueueAt(w)
    ensures SenderSpares(w, StepSender(w, a))
  {
    match a
    case ReconcileNext => ReconcileSpares(w);
    case SweepNext => SweepSpares(w);
    case PrepareNext(now, at) => PrepareSpares(w, now, at);
    case Finish(outcome, now) => FinishSpares(w, outcome, now);
    case _ =>
  }

  // ---- For good ----

  /** A stuck notice stays exactly as it is but for two things: its chat is no longer allowed, or its binding ends. */
  lemma StuckStep(w: World, a: Act, i: nat)
    requires (hide Next, Run; QueueAt(w) && i < |w.t.jobs| && Stuck(w.t.jobs[i]))
    ensures i < |Next(w, a).t.jobs|
    ensures Next(w, a).t.jobs[i] == w.t.jobs[i] || !ChatAllowed(w.cfg, w.t.jobs[i].chat)
            || (w.t.jobs[i].binding.Some? && UnbindClaims.Ends(w.t, Next(w, a).t, w.t.jobs[i].binding.value))
  {
    hide Run, StepSender, StepIntake, StepWorker, StepHook, StepListener;
    match a
    case BySender(s) => SenderLeavesStuck(w, s);
    case ByIntake(x) => IntakeGrows(w, x);
    case ByWorker(r) => WorkerSpares(w, r);
    case ByCli(Bind(chat, inst, nonce, now)) => CreateBindingSpares(w.t, chat, inst, nonce, now);
    case ByCli(Unbind(b, now)) => TerminateSpares(w.t, b, UserUnbind, Closed, now);
    case ByHook(inst, h) => HookSpares(w, inst, h);
    case ByListener(c, l) => ListenerLeavesJobs(w, c, l);
  }

  lemma ListenerLeavesJobs(w: World, c: nat, l: ListenerAct)
    ensures StepListener(w, c, l).t.jobs == w.t.jobs
  {}

  /** The chat is allowed now and at every later start of the daemon. */
  predicate ChatStaysAllowed(cfg: Config, acts: seq<Act>, chat: nat) {
    && ChatAllowed(cfg, chat)
    && forall k :: 0 <= k < |acts| && acts[k].BySender? && acts[k].sender.Boot? ==>
         acts[k].sender.allow == {} || chat in acts[k].sender.allow
  }

  /** The job's binding does not end in the run: it has none, or it ended before, or it is live at the end. */
  ghost predicate BindingStays(w: World, acts: seq<Act>, binding: Option<nat>) {
    binding.Some? ==>
      (binding.value < |w.t.bindings| && !w.t.bindings[binding.value].status.Live())
      || LiveBinding(Run(w, acts).t, binding.value)
  }

  lemma AllowedStep(w: World, a: Act, chat: nat)
    requires ChatStaysAllowed(w.cfg, [a], chat)
    ensures ChatAllowed(Next(w, a).cfg, chat)
  {
    hide Run, StepIntake, StepWorker, StepHook, StepListener;
    assert [a][0] == a;
    match a
    case BySender(s) =>
    case ByIntake(i) => Frames.IntakeFrame(w, i);
    case ByWorker(r) => Frames.WorkerFrame(w, r);
    case ByCli(c) => Frames.CliFrame(w, c);
    case ByHook(h, hook) => Frames.HookFrame(w, h, hook);
    case ByListener(c, l) => Frames.ListenerFrame(w, c, l);
  }

  lemma EndingIsFinal(w: World, acts: seq<Act>, b: nat)
    requires (hide Next, Run; Advance.Sound(w) && b < |w.t.bindings| && !w.t.bindings[b].status.Live())
    ensures !LiveBinding(Run(w, acts).t, b)
  {
    hide Next, Run;
    Advance.AdvanceRun(w, acts);
    assert ListenerInvariant.BindingMoves(w.t.bindings[b], Run(w, acts).t.bindings[b]);
  }

  lemma {:induction false} StuckLasts(w: World, acts: seq<Act>, i: nat)
    requires (hide Next, Run; QueueAt(w) && Advance.Sound(w) && i < |w.t.jobs| && Stuck(w.t.jobs[i]))
    requires ChatStaysAllowed(w.cfg, acts, w.t.jobs[i].chat) && BindingStays(w, acts, w.t.jobs[i].binding)
    ensures i < |Run(w, acts).t.jobs| && Run(w, acts).t.jobs[i] == w.t.jobs[i]
    ensures QueueAt(Run(w, acts))
    decreases |acts|
  {
    hide Next;
    if acts != [] {
      var w1 := Next(w, acts[0]);
      var binding := w.t.jobs[i].binding;
      StuckStep(w, acts[0], i);
      QueueStep(w, acts[0]);
      IntakeRun.IntakeStep(w, acts[0]);
      ListenerInvariant.ListenStep(w, acts[0]);
      AllowedStep(w, acts[0], w.t.jobs[i].chat);
      if binding.Some? {
        if UnbindClaims.Ends(w.t, w1.t, binding.value) { EndingIsFinal(w1, acts[1..], binding.value); }
        if binding.value < |w.t.bindings| && !w.t.bindings[binding.value].status.Live() {
          EndingIsFinal(w, [acts[0]], binding.value);
          RunIsNext(w, acts[0]);
          Advance.AdvanceStep(w, acts[0]);
        }
      }
      assert ChatStaysAllowed(w1.cfg, acts[1..], w.t.jobs[i].chat);
      StuckLasts(w1, acts[1..], i);
    }
  }

  /** Behind a stuck notice no later notice of the chat is sent: in every continuation in which the chat stays allowed and
      the stuck notice's binding does not end, it is still stuck, never due again, and no step of anybody launches a later
      notice of the chat. */
  lemma StuckBlocks(w: World, acts: seq<Act>, i: nat, a: Act, j: nat, now: int)
    requires (hide Next, Run; QueueAt(w) && Advance.Sound(w) && i < |w.t.jobs| && Stuck(w.t.jobs[i]))
    requires ChatStaysAllowed(w.cfg, acts, w.t.jobs[i].chat) && BindingStays(w, acts, w.t.jobs[i].binding)
    requires i < j < |Run(w, acts).t.jobs|
    requires Run(w, acts).t.jobs[j].kind.Notice() && Run(w, acts).t.jobs[j].chat == w.t.jobs[i].chat
    ensures Run(w, acts).t.jobs[i] == w.t.jobs[i] && !Due(Run(w, acts).t.jobs[i], now)
    ensures !Launched(Run(w, acts), Next(Run(w, acts), a), j)
  {
    hide Next, Run;
    StuckLasts(w, acts, i);
    var w' := Run(w, acts);
    assert EarlierNoticeOpen(w'.t.jobs, j);
    if Launched(w', Next(w', a), j) { OnlyPrepareLaunches(w', a, j); }
  }

  // ---- When a notice goes ----

  /** A due notice of an allowed chat, when the loop stands at it, is held back exactly while an earlier notice of its chat
      is queued, in flight or in doubt, and launched exactly when there is none and its guard holds. */
  lemma NoticeGoesIff(w: World, j: nat, now: int, at: int)
    requires QueueAt(w) && Progress.AtRow(w, j) && j < |w.t.jobs| && w.t.jobs[j].kind.Notice()
    requires Due(w.t.jobs[j], now) && ChatAllowed(w.cfg, w.t.jobs[j].chat)
    ensures var w' := Next(w, BySender(PrepareNext(now, at)));
            && (w'.t.jobs[j] == w.t.jobs[j] <==> EarlierNoticeOpen(w.t.jobs, j))
            && (Launched(w, w', j) <==> !EarlierNoticeOpen(w.t.jobs, j) && GuardOk(w.t, w.t.jobs[j]))
  {
    hide Run, StepIntake, StepWorker, StepCli, StepHook, StepListener;
    assert RowOk(w.t.jobs[j]);
  }

  // ---- How a notice gets stuck ----

  /** What strikes the second attempt of notice i: its network call ends in doubt, or the daemon died before it had
      recorded the answer and now takes the second step of its startup scan. */
  predicate SecondAttemptLost(w: World, a: Act, i: nat)
    requires i < |w.t.jobs|
  {
    && w.t.jobs[i].state.Sending? && w.t.jobs[i].attempts == MAX_SEND_ATTEMPTS && a.BySender?
    && ((a.sender.Finish? && a.sender.outcome.InDoubt? && w.daemon.InFlight?)
        || (a.sender.SweepNext? && w.daemon.Sweeping? && w.daemon.stage == 2))
  }

  lemma OthersStickNothing(js: seq<Job>, js': seq<Job>, i: nat)
    requires QuietRows(js, js') || TurnsAppended(js, js')
    requires i < |js| && js[i].kind.Notice() && !Stuck(js[i])
    ensures i < |js'| && !Stuck(js'[i])
  {
    assert js'[i] == js[i] || QuietJob(js[i], js'[i]);
  }

  lemma SenderSticksIff(w: World, a: SenderAct, i: nat)
    requires QueueAt(w) && i < |w.t.jobs| && w.t.jobs[i].kind.Notice() && !Stuck(w.t.jobs[i])
    ensures i < |StepSender(w, a).t.jobs|
    ensures Stuck(StepSender(w, a).t.jobs[i]) <==> SecondAttemptLost(w, BySender(a), i)
  {
    hide Next, Run, StepIntake, StepWorker, StepCli, StepHook, StepListener;
    assert RowOk(w.t.jobs[i]);
  }

  /** A notice that is not stuck gets stuck by a step exactly if that step loses its second attempt; no step of anybody
      else does it, and no other answer of the network. */
  lemma NoticeGetsStuckIff(w: World, a: Act, i: nat)
    requires (hide Next, Run; QueueAt(w) && i < |w.t.jobs| && w.t.jobs[i].kind.Notice() && !Stuck(w.t.jobs[i]))
    ensures i < |Next(w, a).t.jobs|
    ensures Stuck(Next(w, a).t.jobs[i]) <==> SecondAttemptLost(w, a, i)
  {
    hide Run, StepSender, StepIntake, StepWorker, StepCli, StepHook, StepListener;
    if a.BySender? {
      SenderSticksIff(w, a.sender, i);
    } else {
      OthersLeaveQueue(w, a);
      OthersStickNothing(w.t.jobs, Next(w, a).t.jobs, i);
    }
  }

  // ---- Failed cards ----

  lemma RearmRevives(t: Tables, k: nat, now: int, j: nat)
    requires j < |t.jobs| && t.jobs[j].state.Failed? && !RearmCard(t, k, now).jobs[j].state.Failed?
    ensures k == j && CardAwaited(t, t.jobs[j]) && t.jobs[j].attempts < CARD_REARM_MAX_ATTEMPTS
    ensures BindingActive(t, t.jobs[j].binding)
    ensures RearmCard(t, k, now).jobs[j]
            == t.jobs[j].(state := Queued, next := Some(now + CardDelay(t.jobs[j].attempts)))
  {}

  /** A failed job only ever comes back by the recovery worker's re-arm, and only if it is the card of an approval that is
      still open and has no card yet, its binding is active and it was sent out fewer than five times; it is then queued
      again behind its back-off. */
  lemma OnlyRearmRevives(w: World, a: Act, j: nat)
    requires (hide Next, Run; QueueAt(w) && j < |w.t.jobs| && w.t.jobs[j].state.Failed?)
    ensures j < |Next(w, a).t.jobs|
    ensures !Next(w, a).t.jobs[j].state.Failed? ==>
              && a.ByWorker? && a.worker.Rearm? && a.worker.cardJob == j
              && CardAwaited(w.t, w.t.jobs[j]) && BindingActive(w.t, w.t.jobs[j].binding)
              && w.t.jobs[j].attempts < CARD_REARM_MAX_ATTEMPTS
              && Next(w, a).t.jobs[j]
                 == w.t.jobs[j].(state := Queued, next := Some(a.worker.rearmNow + CardDelay(w.t.jobs[j].attempts)))
  {
    hide Run, StepSender, StepIntake, StepHook, StepListener;
    match a
    case BySender(s) => SenderLeavesStuck(w, s);
    case ByIntake(x) => IntakeGrows(w, x);
    case ByWorker(r) =>
      WorkerSpares(w, r);
      if r.Rearm? && !Next(w, a).t.jobs[j].state.Failed? { RearmRevives(w.t, r.cardJob, r.rearmNow, j); }
    case ByCli(Bind(chat, inst, nonce, now)) => CreateBindingSpares(w.t, chat, inst, nonce, now);
    case ByCli(Unbind(b, now)) => TerminateSpares(w.t, b, UserUnbind, Closed, now);
    case ByHook(inst, h) => HookSpares(w, inst, h);
    case ByListener(c, l) => ListenerLeavesJobs(w, c, l);
  }
}
