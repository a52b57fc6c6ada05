/** What the end of a binding means for the queue: the one message already on its way is the last. */
module UnbindClaims {
  import opened Schema
  import opened World
  import opened Jobs
  import opened OutboundTx
  import opened LifecycleTx
  import opened Machine
  import opened QueueInvariant
  import opened QueueRun
  import opened ListenerInvariant
  import Advance
  import QueueClaims
  import QueueHistory
  import IntakeRun

  /** The jobs a binding guards: its turns and its approval cards. */
  predicate GuardedBy(job: Job, b: nat) {
    (job.kind.SessionTurn? || job.kind.ApprovalCard?) && job.binding == Some(b)
  }

  predicate StaysPut(a: Job, b: Job) {
    b.kind == a.kind && b.binding == a.binding && b.attempts == a.attempts && (b.state.Sending? ==> a.state.Sending?)
  }

  /** No job guarded by the binding was sent out between the two queues. */
  ghost predicate NoneSentOut(js: seq<Job>, js': seq<Job>, b: nat) {
    && |js| <= |js'|
    && (forall j :: 0 <= j < |js| ==> (GuardedBy(js[j], b) <==> GuardedBy(js'[j], b)))
    && (forall j :: 0 <= j < |js| && GuardedBy(js[j], b) ==> StaysPut(js[j], js'[j]))
    && (forall j :: |js| <= j < |js'| && GuardedBy(js'[j], b) ==> js'[j].attempts == 0 && !js'[j].state.Sending?)
  }

  lemma NoneSentOutTwice(js: seq<Job>, js1: seq<Job>, js2: seq<Job>, b: nat)
    requires NoneSentOut(js, js1, b) && NoneSentOut(js1, js2, b)
    ensures NoneSentOut(js, js2, b)
  {}

  lemma OthersSendNothing(js: seq<Job>, js': seq<Job>, b: nat)
    requires QuietRows(js, js') || TurnsAppended(js, js')
    ensures NoneSentOut(js, js', b)
  {}

  // ---- The commit ----

  lemma {:induction false} WaitingNoticesAreNotices(js: seq<Job>, inbox: seq<Inbox>, b: nat, target: InboxState,
                                                    from: nat, now: int)
    requires from <= |inbox|
    ensures var r := WaitingNotices(js, inbox, b, target, from, now);
            |js| <= |r| && (forall j :: 0 <= j < |js| ==> r[j] == js[j])
            && (forall j :: |js| <= j < |r| ==> r[j].kind.InboundNotice?)
    decreases |inbox| - from
  {
    if from < |inbox| {
      if inbox[from].binding == Some(b) && inbox[from].state.WaitingBinding? {
        WaitingNoticesAreNotices(AddInboundNotice(js, inbox[from].chat, from, target, Some(b), now), inbox, b, target,
                                 from + 1, now);
      } else {
        WaitingNoticesAreNotices(js, inbox, b, target, from + 1, now);
      }
    }
  }

  /** The cascade leaves no turn and no card of the binding that could still be sent. */
  lemma TerminateLeavesNothingToSend(t: Tables, b: nat, reason: Reason, status: Status, now: int)
    requires LiveBinding(t, b) && !status.Live()
    ensures var t' := Terminate(t, b, reason, status, now);
            forall j :: 0 <= j < |t'.jobs| && GuardedBy(t'.jobs[j], b) ==>
              !t'.jobs[j].state.Retryable() && j < |t.jobs| && (t'.jobs[j].state.Sending? ==> t.jobs[j].state.Sending?)
  {
    var row := t.bindings[b].(status := status, reason := Some(reason));
    var js := AddJob(CancelOf(t.jobs, b), CloseNotice(row, b, reason, status, now));
    WaitingNoticesAreNotices(js, t.inbox, b, MapTerminated(Some(row)), 0, now);
  }

  ghost predicate NothingToSend(js: seq<Job>, b: nat) {
    forall j :: 0 <= j < |js| && GuardedBy(js[j], b) ==> !js[j].state.Retryable()
  }

  predicate Ends(t: Tables, t': Tables, b: nat) {
    LiveBinding(t, b) && b < |t'.bindings| && !t'.bindings[b].status.Live()
  }

  lemma WorkerEndsClean(w: World, a: WorkerAct, b: nat)
    requires Ends(w.t, StepWorker(w, a).t, b)
    ensures NothingToSend(StepWorker(w, a).t.jobs, b)
  {
    match a
    case BindingTimeout(r, now) => TimeoutEndsClean(w.t, r, now, b);
    case CloseStray(_, now) => TerminateLeavesNothingToSend(w.t, b, BindTimeout, Closed, now);
    case ActivateOne(_, now) => TerminateLeavesNothingToSend(w.t, b, ListenerNeverReady, Closed, now);
    case JudgeNext(dead, inSuspectWindow, now) => JudgeEndsClean(w, dead, inSuspectWindow, now, b);
    case _ => OtherWorkEndsNothing(w, a, b);
  }

  lemma TimeoutEndsClean(t: Tables, r: nat, now: int, b: nat)
    requires Ends(t, ExpireBind(t, r, now), b)
    ensures NothingToSend(ExpireBind(t, r, now).jobs, b)
  {
    TerminateLeavesNothingToSend(t.(binds := t.binds[r := t.binds[r].(state := BExpired, latch := false)]), b,
                                 BindTimeout, Closed, now);
  }

  lemma JudgeEndsClean(w: World, dead: bool, inSuspectWindow: bool, now: int, b: nat)
    requires Ends(w.t, StepJudge(w, dead, inSuspectWindow, now).t, b)
    ensures NothingToSend(StepJudge(w, dead, inSuspectWindow, now).t.jobs, b)
  {
    TerminateLeavesNothingToSend(w.t, b, if dead then CcGone else ListenerGone, if dead then Closed else Dead, now);
  }

  lemma OtherWorkEndsNothing(w: World, a: WorkerAct, b: nat)
    requires !a.BindingTimeout? && !a.CloseStray? && !a.ActivateOne? && !a.JudgeNext?
    ensures !Ends(w.t, StepWorker(w, a).t, b)
  {}

  lemma HookEndsClean(w: World, inst: nat, a: HookAct, b: nat)
    requires Ends(w.t, StepHook(w, inst, a).t, b)
    ensures NothingToSend(StepHook(w, inst, a).t.jobs, b)
  {
    match a
    case StopFail =>
      var r := w.stops[inst].request;
      TerminateLeavesNothingToSend(w.t.(binds := w.t.binds[r := w.t.binds[r].(state := BFailed, latch := true)]), b,
                                   BindFailed, Closed, w.stops[inst].p.now);
    case EndBinding(_, now) => TerminateLeavesNothingToSend(w.t, b, SessionEnd, Closed, now);
    case EndRequest(r, now) =>
      TerminateLeavesNothingToSend(w.t.(binds := w.t.binds[r := w.t.binds[r].(state := BExpired, latch := false)]), b,
                                   SessionEnd, Closed, now);
    case _ =>
  }

  lemma CliEndsClean(w: World, a: CliAct, b: nat)
    requires Ends(w.t, StepCli(w, a).t, b)
    ensures NothingToSend(StepCli(w, a).t.jobs, b)
  {
    match a
    case Bind(chat, inst, nonce, now) =>
      var found := StartingOf(w.t.bindings, inst, 0);
      if found.Some? { TerminateLeavesNothingToSend(w.t, found.value, BindSuperseded, Closed, now); }
    case Unbind(_, now) => TerminateLeavesNothingToSend(w.t, b, UserUnbind, Closed, now);
  }

  /** Whichever transaction ends a binding, at its commit at most one job the binding guards is not over, and that one is
      in flight. */
  lemma EndingLeavesOneInFlight(w: World, a: Act, b: nat)
    requires QueueAt(w) && Ends(w.t, Next(w, a).t, b)
    ensures NothingToSend(Next(w, a).t.jobs, b)
    ensures OneSending(Next(w, a).t.jobs)
  {
    hide Run, StepSender, StepIntake, StepWorker, StepCli, StepHook, StepListener;
    QueueStep(w, a);
    AtMostOneSending(Next(w, a));
    match a
    case BySender(s) => SenderEndsNothing(w, s, b);
    case ByIntake(i) => IntakeEndsNothing(w, i, b);
    case ByWorker(r) => WorkerEndsClean(w, r, b);
    case ByCli(c) => CliEndsClean(w, c, b);
    case ByHook(inst, h) => HookEndsClean(w, inst, h, b);
    case ByListener(c, l) => ListenerEndsNothing(w, c, l, b);
  }

  lemma SenderEndsNothing(w: World, s: SenderAct, b: nat)
    ensures !Ends(w.t, StepSender(w, s).t, b)
  {}

  lemma IntakeEndsNothing(w: World, i: IntakeAct, b: nat)
    ensures !Ends(w.t, StepIntake(w, i).t, b)
  {}

  lemma ListenerEndsNothing(w: World, c: nat, l: ListenerAct, b: nat)
    ensures !Ends(w.t, StepListener(w, c, l).t, b)
  {}

  lemma AtMostOneSending(w: World)
    requires QueueAt(w)
    ensures OneSending(w.t.jobs)
  {}

  // ---- Afterwards ----

  lemma PrepareSendsNothing(t: Tables, cfg: Config, j: nat, now: int, at: int, b: nat)
    requires j < |t.jobs| && b < |t.bindings| && !t.bindings[b].status.Live()
    ensures NoneSentOut(t.jobs, PrepareTx(t, cfg, j, now, at).jobs, b)
  {}

  lemma ReconcileSendsNothing(js: seq<Job>, j: nat, now: int, b: nat)
    requires j < |js|
    ensures NoneSentOut(js, ReconcileRow(js, j, now), b)
  {}

  lemma SweepSendsNothing(js: seq<Job>, stage: nat, now: int, b: nat)
    ensures NoneSentOut(js, SweepAll(stage, js, now), b)
  {}

  lemma FinalizeSendsNothing(js: seq<Job>, j: nat, outcome: Outcome, now: int, b: nat)
    requires j < |js|
    ensures NoneSentOut(js, FinalizeJobs(js, j, outcome, now), b)
  {}

  lemma SenderSendsNothing(w: World, a: SenderAct, b: nat)
    requires QueueAt(w) && b < |w.t.bindings| && !w.t.bindings[b].status.Live()
    ensures NoneSentOut(w.t.jobs, StepSender(w, a).t.jobs, b)
  {
    hide Next, Run;
    match a
    case ReconcileNext => ReconcileStepSendsNothing(w, b);
    case SweepNext => if w.daemon.Sweeping? { SweepSendsNothing(w.t.jobs, w.daemon.stage, w.daemon.now, b); }
    case PrepareNext(now, at) => PrepareStepSendsNothing(w, now, at, b);
    case Finish(outcome, now) => FinishStepSendsNothing(w, outcome, now, b);
    case _ =>
  }

  lemma ReconcileStepSendsNothing(w: World, b: nat)
    requires QueueAt(w)
    ensures NoneSentOut(w.t.jobs, StepReconcile(w).t.jobs, b)
  {
    if w.daemon.Reconciling? && w.daemon.k < |w.daemon.rows| {
      ReconcileSendsNothing(w.t.jobs, w.daemon.rows[w.daemon.k], w.daemon.now, b);
    }
  }

  lemma PrepareStepSendsNothing(w: World, now: int, at: int, b: nat)
    requires QueueAt(w) && b < |w.t.bindings| && !w.t.bindings[b].status.Live()
    ensures NoneSentOut(w.t.jobs, StepPrepare(w, now, at).t.jobs, b)
  {
    if w.daemon.Ticking? && w.daemon.k < |w.daemon.rows| {
      PrepareSendsNothing(w.t, w.cfg, w.daemon.rows[w.daemon.k], now, at, b);
    }
  }

  lemma FinishStepSendsNothing(w: World, outcome: Outcome, now: int, b: nat)
    requires QueueAt(w)
    ensures NoneSentOut(w.t.jobs, StepFinish(w, outcome, now).t.jobs, b)
  {
    if w.daemon.InFlight? { FinalizeSendsNothing(w.t.jobs, w.daemon.rows[w.daemon.k], outcome, now, b); }
  }

  /** No step sends out a job of an ended binding. */
  lemma EndedSendsNothing(w: World, a: Act, b: nat)
    requires (hide Next, Run; QueueAt(w) && b < |w.t.bindings| && !w.t.bindings[b].status.Live())
    ensures NoneSentOut(w.t.jobs, Next(w, a).t.jobs, b)
  {
    hide Run, StepSender, StepIntake, StepWorker, StepCli, StepHook, StepListener;
    if a.BySender? {
      SenderSendsNothing(w, a.sender, b);
    } else {
      OthersLeaveQueue(w, a);
      OthersSendNothing(w.t.jobs, Next(w, a).t.jobs, b);
    }
  }

  lemma {:induction false} EndedRunSendsNothing(w: World, acts: seq<Act>, b: nat)
    requires (hide Next, Run; QueueAt(w) && Advance.Sound(w) && b < |w.t.bindings| && !w.t.bindings[b].status.Live())
    ensures NoneSentOut(w.t.jobs, Run(w, acts).t.jobs, b)
    ensures b < |Run(w, acts).t.bindings| && Run(w, acts).t.bindings[b].status == w.t.bindings[b].status
    decreases |acts|
  {
    hide Next;
    if acts != [] {
      var w1 := Next(w, acts[0]);
      EndedSendsNothing(w, acts[0], b);
      QueueStep(w, acts[0]);
      IntakeRun.IntakeStep(w, acts[0]);
      ListenStep(w, acts[0]);
      Advance.AdvanceStep(w, acts[0]);
      assert BindingMoves(w.t.bindings[b], w1.t.bindings[b]);
      EndedRunSendsNothing(w1, acts[1..], b);
      NoneSentOutTwice(w.t.jobs, w1.t.jobs, Run(w, acts).t.jobs, b);
    }
  }

  /** A visit to a job of an ended binding sends nothing; one in doubt that nothing holds back is cancelled. */
  lemma VisitAfterTheEnd(t: Tables, cfg: Config, spans: map<nat, Span>, acked: map<nat, string>, j: nat, b: nat,
                         now: int, at: int)
    requires QueueOk(t.jobs, spans, acked, t.nextId) && j < |t.jobs| && GuardedBy(t.jobs[j], b)
    requires b < |t.bindings| && !t.bindings[b].status.Live()
    ensures !PrepareVerdict(t, cfg, j, now).Send?
    ensures t.jobs[j].state.Unknown? && Due(t.jobs[j], now) && (IsTurn(t.jobs[j]) ==> QueueClaims.HeadOfLine(t.jobs, j))
            ==> PrepareJob(t, cfg, j, now, at).state.Cancelled?
  {
    assert RowOk(t.jobs[j]) && !GuardOk(t, t.jobs[j]);
    if IsTurn(t.jobs[j]) && QueueClaims.HeadOfLine(t.jobs, j) && Due(t.jobs[j], now) {
      QueueClaims.HeadOfLineProgresses(t, cfg, spans, acked, j, now, at, WasRefused, now);
    }
  }

  /** Once a binding has ended with one job in flight, a turn of it that is in doubt is the job that was in flight, and
      everything before it in the binding's line is over. */
  lemma DoubtIsHead(w: World, acts: seq<Act>, b: nat, j: nat)
    requires (hide Next, Run; QueueAt(w) && Advance.Sound(w) && b < |w.t.bindings| && !w.t.bindings[b].status.Live())
    requires NothingToSend(w.t.jobs, b) && OneSending(w.t.jobs)
    requires j < |Run(w, acts).t.jobs| && GuardedBy(Run(w, acts).t.jobs[j], b)
    requires Run(w, acts).t.jobs[j].state.Unknown? && IsTurn(Run(w, acts).t.jobs[j])
    ensures QueueClaims.HeadOfLine(Run(w, acts).t.jobs, j)
    ensures j < |w.t.jobs| && w.t.jobs[j].state.Sending?
  {
    hide Next, Run;
    var js, js' := w.t.jobs, Run(w, acts).t.jobs;
    EndedRunSendsNothing(w, acts, b);
    QueueRunKeeps(w, acts);
    QueueHistory.EvolveRun(w, acts);
    assert RowOk(js'[j]);
    assert QueueHistory.RowLater(js[j], js'[j]);
    forall p | 0 <= p < j && IsTurn(js'[p]) && js'[p].binding == js'[j].binding ensures js'[p].state.Terminal() {
      assert GuardedBy(js[p], b) && QueueHistory.RowLater(js[p], js'[p]);
    }
  }

  /** In any continuation a job left in doubt is never resent: the next visit at or after its retry time cancels it. */
  lemma DoubtAfterTheEnd(w: World, acts: seq<Act>, b: nat, j: nat, now: int, at: int)
    requires (hide Next, Run; QueueAt(w) && Advance.Sound(w) && b < |w.t.bindings| && !w.t.bindings[b].status.Live())
    requires NothingToSend(w.t.jobs, b) && OneSending(w.t.jobs)
    requires j < |Run(w, acts).t.jobs| && GuardedBy(Run(w, acts).t.jobs[j], b)
    ensures var w' := Run(w, acts);
            && !PrepareVerdict(w'.t, w'.cfg, j, now).Send?
            && (w'.t.jobs[j].state.Unknown? && Due(w'.t.jobs[j], now) ==>
                  PrepareJob(w'.t, w'.cfg, j, now, at).state.Cancelled?)
  {
    hide Next, Run;
    var w' := Run(w, acts);
    EndedRunSendsNothing(w, acts, b);
    QueueRunKeeps(w, acts);
    if w'.t.jobs[j].state.Unknown? && IsTurn(w'.t.jobs[j]) { DoubtIsHead(w, acts, b, j); }
    VisitAfterTheEnd(w'.t, w'.cfg, w'.hist.spans, w'.hist.acked, j, b, now, at);
  }
}
