/** What a whole fast or slow tick achieves, with other processes at work all the while. */
module Ticks {
  import opened Schema
  import opened World
  import opened Machine
  import opened Scripts
  import opened Occupancy
  import BindInvariant
  import ListenerInvariant

  // ---- The daemon comes back from everything it does ----

  /** Between two scripts: all invariants, and the daemon idle. */
  ghost predicate Ready(w: World) { Coupled(w) && w.daemon.Idle? }

  lemma ForeignReady(w: World, acts: seq<Act>)
    requires Ready(w) && AllForeign(acts)
    ensures Ready(Run(w, acts))
  {
    hide Next, Run;
    TimesRun(w, acts);
    ForeignLeavesDaemon(w, acts);
  }

  lemma DownloadEnds(w: World, download: Download, now: int)
    requires Coupled(w) && w.daemon.Materializing?
    ensures Ready(Next(w, DownloadAct(download, now)))
  {
    hide Run, StepSender, StepWorker, StepCli, StepHook, StepListener;
    CoupledStep(w, DownloadAct(download, now));
    MessageInRange(w);
  }

  lemma MessageInRange(w: World)
    requires Coupled(w) && w.daemon.Materializing?
    ensures w.daemon.msg < |w.t.inbox|
  {}

  lemma DownloadReady(w: World, e: Encounter)
    requires Coupled(w) && (w.daemon.Idle? || w.daemon.Materializing?) && ForeignEncounter(e)
    ensures Ready(Run(w, DownloadActs(w, e)))
  {
    hide Next;
    if w.daemon.Materializing? {
      TimesRun(w, e.downloading);
      ForeignLeavesDaemon(w, e.downloading);
      DownloadEnds(Run(w, e.downloading), e.download, e.now);
      RunAppend(w, e.downloading, [DownloadAct(e.download, e.now)]);
      RunIsNext(Run(w, e.downloading), DownloadAct(e.download, e.now));
    }
  }

  lemma DecideReady(w: World, m: nat, fetched: Snap, waiting: bool, e: Encounter)
    requires Ready(w) && ForeignEncounter(e)
    ensures Ready(Run(w, DecideActs(w, m, fetched, waiting, e)))
  {
    hide Run, StepSender, StepWorker, StepCli, StepHook, StepListener;
    var w1, a := Run(w, e.fetching), DecideAct(m, fetched, waiting, e);
    ForeignReady(w, e.fetching);
    RunAppend(w, e.fetching, [a]);
    RunIsNext(w1, a);
    CoupledStep(w1, a);
    DownloadReady(Next(w1, a), e);
    RunAppend(w, e.fetching + [a], DownloadActs(Next(w1, a), e));
  }

  lemma DownloadStarts(w: World, m: nat, fetched: Snap)
    requires w.daemon.Idle?
    ensures var d := Next(w, ByIntake(StartMaterializing(m, fetched))).daemon; d.Idle? || d.Materializing?
  {
    hide Run, StepSender, StepWorker, StepCli, StepHook, StepListener;
  }

  lemma MaterializeReady(w: World, m: nat, e: Encounter)
    requires (hide Next, Run; Ready(w) && ForeignEncounter(e) && m < |w.t.inbox|)
    ensures Ready(Run(w, MaterializeActs(w, m, e)))
  {
    hide Next;
    if ApprovedPendingOf(w.t, m).Some? && Readable(w.t, m, e) {
      var a := ByIntake(StartMaterializing(m, Fetched(w.t, m, e)));
      RunIsNext(w, a);
      CoupledStep(w, a);
      DownloadStarts(w, m, Fetched(w.t, m, e));
      DownloadReady(Next(w, a), e);
      OneThen(w, a, DownloadActs(Next(w, a), e));
    }
  }

  lemma {:induction false} DriveReady(w: World, m: nat, e: Encounter, readings: nat)
    requires Ready(w) && ForeignEncounter(e)
    ensures Ready(Run(w, DriveActs(w, m, e, readings)))
    decreases readings
  {
    if readings > 0 && m < |w.t.inbox| {
      match w.t.inbox[m].state
      case Received =>
        var a := ByIntake(StartResolving(m, e.now));
        CoupledStep(w, a);
        DriveReady(Next(w, a), m, e, readings - 1);
        OneThen(w, a, DriveActs(Next(w, a), m, e, readings - 1));
      case Resolving => if Readable(w.t, m, e) { DecideReady(w, m, Fetched(w.t, m, e), false, e); }
      case WaitingBinding => if Readable(w.t, m, e) { DecideReady(w, m, Fetched(w.t, m, e), true, e); }
      case ApprovedMaterializing => MaterializeReady(w, m, e);
      case _ =>
    }
  }

  lemma WorkReady(w: World, a: WorkerAct)
    requires Ready(w) && !a.ScanDeaths? && !a.JudgeNext?
    ensures Ready(Next(w, ByWorker(a)))
  {
    hide Run, StepSender, StepIntake, StepCli, StepHook, StepListener;
    CoupledStep(w, ByWorker(a));
  }

  lemma ClosersReady(w: World, m: nat, now: int)
    requires Ready(w)
    ensures Ready(Run(w, Closers(m, now)))
  {
    hide Next, Run;
    var c := Closers(m, now);
    var w1 := Next(w, c[0]);
    var w2 := Next(w1, c[1]);
    WorkReady(w, ResolveTimeout(m, now));
    WorkReady(w1, Orphaned(m, now));
    WorkReady(w2, MaterializeTimeout(m, now));
    ThreeSteps(w, c[0], c[1], c[2]);
  }

  lemma RowReady(w: World, m: nat, closing: bool, now: int, e: Encounter)
    requires Ready(w) && ForeignEncounter(e)
    ensures Ready(Run(w, RowActs(w, m, closing, now, e)))
  {
    hide Next, Run;
    var w1 := Run(w, e.before);
    ForeignReady(w, e.before);
    if closing {
      var w2 := Run(w1, Closers(m, now));
      ClosersReady(w1, m, now);
      DriveReady(w2, m, e, READINGS);
      RunAppend(w1, Closers(m, now), DriveActs(w2, m, e, READINGS));
      RunAppend(w, e.before, RedriveActs(w1, m, now, e));
    } else {
      DriveReady(w1, m, e, READINGS);
      RunAppend(w, e.before, DriveActs(w1, m, e, READINGS));
    }
  }

  lemma {:induction false} RowsReady(w: World, rows: seq<Inbox>, m: nat, states: set<InboxState>, closing: bool,
                                     encounters: seq<Encounter>, now: int)
    requires Ready(w) && ForeignEncounters(encounters)
    ensures Ready(Run(w, DriveRowsActs(w, rows, m, states, closing, encounters, now)))
    decreases |rows| - m
  {
    hide Next;
    if m < |rows| {
      if rows[m].state !in states {
        RowsReady(w, rows, m + 1, states, closing, encounters, now);
      } else {
        var one := RowActs(w, m, closing, now, EncounterAt(encounters, m, now));
        RowReady(w, m, closing, now, EncounterAt(encounters, m, now));
        RowsReady(Run(w, one), rows, m + 1, states, closing, encounters, now);
        RunAppend(w, one, DriveRowsActs(Run(w, one), rows, m + 1, states, closing, encounters, now));
      }
    }
  }

  // ---- Sweeps ----

  /** One visit of a sweep: others, then the row's transaction. */
  lemma VisitReady(w: World, c: Weather, sweep: RowSweep, k: nat)
    requires Ready(w) && ForeignWeather(c)
    ensures var w1 := Run(w, PauseAt(c, sweep, k).others);
            && Ready(w1) && Ready(Run(w, RowVisit(c, sweep, k)))
            && Run(w, RowVisit(c, sweep, k)) == Next(w1, ByWorker(RowAct(sweep, k, ClockAt(c, sweep, k))))
  {
    hide Next, Run;
    var p, a := PauseAt(c, sweep, k), RowAct(sweep, k, ClockAt(c, sweep, k));
    ForeignReady(w, p.others);
    RunAppend(w, p.others, [ByWorker(a)]);
    RunIsNext(Run(w, p.others), ByWorker(a));
    WorkReady(Run(w, p.others), a);
  }

  lemma {:induction false} SweepReady(w: World, c: Weather, sweep: RowSweep, k: nat, n: nat)
    requires Ready(w) && ForeignWeather(c)
    ensures Ready(Run(w, SweepActs(c, sweep, k, n)))
    decreases n - k
  {
    hide Next;
    if k < n {
      VisitReady(w, c, sweep, k);
      SweepReady(Run(w, RowVisit(c, sweep, k)), c, sweep, k + 1, n);
      RunAppend(w, RowVisit(c, sweep, k), SweepActs(c, sweep, k + 1, n));
    }
  }

  predicate ComesBack(stage: Stage) {
    !stage.Scan? && (stage.Bulk? ==> !stage.bulk.ScanDeaths? && !stage.bulk.JudgeNext?)
  }

  lemma StageReady(w: World, stage: Stage, c: Weather)
    requires Ready(w) && ForeignWeather(c) && ComesBack(stage)
    ensures Ready(Run(w, StageActs(w, stage, c)))
  {
    hide Next, Run;
    match stage
    case Rows(sweep) => SweepReady(w, c, sweep, 0, RowCount(w.t, sweep));
    case DriveWaiting => RowsReady(w, w.t.inbox, 0, {WaitingBinding}, false, c.waiting, c.now);
    case Redrive(states) => RowsReady(w, w.t.inbox, 0, states, true, c.others, c.now);
    case Bulk(act) => WorkReady(w, act); RunIsNext(w, ByWorker(act));
  }

  // ---- One binding over a run ----

  predicate Unconfirmed(row: Binding) { row.status.Starting? && !row.confirmed }

  /** What binding b keeps over any run. */
  lemma RowKept(w: World, acts: seq<Act>, b: nat)
    requires (hide Next, Run; Coupled(w) && b < |w.t.bindings|)
    ensures var t, t' := w.t, Run(w, acts).t;
            && b < |t'.bindings| && b < |t.binds| && b < |t'.binds|
            && (t.bindings[b].confirmed ==>
                  t'.bindings[b].confirmed && t'.bindings[b].confirmedAt == t.bindings[b].confirmedAt)
            && (!t.bindings[b].status.Starting? ==> !t'.bindings[b].status.Starting?)
            && (!Unconfirmed(t.bindings[b]) ==> !Unconfirmed(t'.bindings[b]))
            && t'.binds[b].expires == t.binds[b].expires
  {
    hide Next, Run;
    TimesRun(w, acts);
    assert ListenerInvariant.BindingMoves(w.t.bindings[b], Run(w, acts).t.bindings[b]);
  }

  // ---- A binding past its time ----

  predicate PastActivation(row: Binding, now: int) {
    row.confirmed && row.confirmedAt.Some? && now - row.confirmedAt.value > ACTIVATION_TIMEOUT_MS
  }

  /** The sweeps that end a wait: of a confirmed binding for its listener, of a request for its handshake. */
  predicate EndsWaits(sweep: RowSweep) { sweep.Activations? || sweep.Binds? }

  /** When the sweep gets to binding b it finds it past its time. */
  predicate Late(w: World, c: Weather, sweep: RowSweep, b: nat) {
    && b < |w.t.bindings| && b < |w.t.binds|
    && if sweep.Activations? then PastActivation(w.t.bindings[b], ClockAt(c, sweep, b))
       else w.t.binds[b].expires < ClockAt(c, sweep, b)
  }

  /** The wait is over. */
  predicate Ended(w: World, sweep: RowSweep, b: nat) {
    b < |w.t.bindings|
    && if sweep.Activations? then !w.t.bindings[b].status.Starting? else !Unconfirmed(w.t.bindings[b])
  }

  lemma LateStays(w: World, acts: seq<Act>, c: Weather, sweep: RowSweep, b: nat)
    requires Coupled(w) && Late(w, c, sweep, b)
    ensures Late(Run(w, acts), c, sweep, b)
  {
    hide Next, Run;
    RowKept(w, acts, b);
  }

  lemma EndedStays(w: World, acts: seq<Act>, sweep: RowSweep, b: nat)
    requires Coupled(w) && Ended(w, sweep, b)
    ensures Ended(Run(w, acts), sweep, b)
  {
    hide Next, Run;
    RowKept(w, acts, b);
  }

  /** The row's transaction ends the wait: a confirmed binding with a fresh heartbeat becomes active, any other closes. */
  lemma ActivationDecides(w: World, b: nat, now: int)
    requires (hide Next, Run; Ready(w) && b < |w.t.bindings| && PastActivation(w.t.bindings[b], now))
    ensures Ended(Next(w, ByWorker(ActivateOne(b, now))), Activations, b)
  {
    hide Run, StepSender, StepIntake, StepCli, StepHook, StepListener;
    assert BindInvariant.PairOk(w.t.bindings[b], w.t.binds[b], w.hist.bindTurn);
  }

  lemma ExpiryDecides(w: World, b: nat, now: int)
    requires (hide Next, Run; Ready(w) && b < |w.t.bindings| && b < |w.t.binds| && w.t.binds[b].expires < now)
    ensures Ended(Next(w, ByWorker(BindingTimeout(b, now))), Binds, b)
  {
    hide Run, StepSender, StepIntake, StepCli, StepHook, StepListener;
    assert BindInvariant.PairOk(w.t.bindings[b], w.t.binds[b], w.hist.bindTurn);
  }

  lemma VisitEnds(w: World, c: Weather, sweep: RowSweep, b: nat)
    requires Ready(w) && ForeignWeather(c) && EndsWaits(sweep) && Late(w, c, sweep, b)
    ensures Ended(Run(w, RowVisit(c, sweep, b)), sweep, b)
  {
    hide Next, Run;
    var w1 := Run(w, PauseAt(c, sweep, b).others);
    VisitReady(w, c, sweep, b);
    LateStays(w, PauseAt(c, sweep, b).others, c, sweep, b);
    if sweep.Activations? { ActivationDecides(w1, b, ClockAt(c, sweep, b)); }
    else { ExpiryDecides(w1, b, ClockAt(c, sweep, b)); }
  }

  /** A sweep is the visit to its first row and the rest. */
  lemma VisitFirst(w: World, c: Weather, sweep: RowSweep, k: nat, n: nat)
    requires (hide Next, Run; Ready(w) && ForeignWeather(c) && k < n)
    ensures var w1 := Run(w, RowVisit(c, sweep, k));
            Ready(w1) && Run(w, SweepActs(c, sweep, k, n)) == Run(w1, SweepActs(c, sweep, k + 1, n))
  {
    hide Next, Run;
    VisitReady(w, c, sweep, k);
    RunAppend(w, RowVisit(c, sweep, k), SweepActs(c, sweep, k + 1, n));
  }

  lemma SweepEndsHere(w: World, c: Weather, sweep: RowSweep, n: nat, b: nat)
    requires Ready(w) && ForeignWeather(c) && EndsWaits(sweep) && b < n && Late(w, c, sweep, b)
    ensures Ended(Run(w, SweepActs(c, sweep, b, n)), sweep, b)
  {
    hide Next, Run;
    VisitFirst(w, c, sweep, b, n);
    VisitEnds(w, c, sweep, b);
    EndedStays(Run(w, RowVisit(c, sweep, b)), SweepActs(c, sweep, b + 1, n), sweep, b);
  }

  /** A sweep in two parts. */
  lemma {:induction false} SweepSplit(c: Weather, sweep: RowSweep, k: nat, b: nat, n: nat)
    requires k <= b <= n
    ensures SweepActs(c, sweep, k, n) == SweepActs(c, sweep, k, b) + SweepActs(c, sweep, b, n)
    decreases b - k
  {
    if k < b { SweepSplit(c, sweep, k + 1, b, n); }
  }

  lemma SweepEnds(w: World, c: Weather, sweep: RowSweep, n: nat, b: nat)
    requires (hide Next, Run; Ready(w) && ForeignWeather(c) && EndsWaits(sweep) && b < n && Late(w, c, sweep, b))
    ensures Ended(Run(w, SweepActs(c, sweep, 0, n)), sweep, b)
  {
    hide Next, Run;
    var before := SweepActs(c, sweep, 0, b);
    SweepReady(w, c, sweep, 0, b);
    LateStays(w, before, c, sweep, b);
    SweepEndsHere(Run(w, before), c, sweep, n, b);
    SweepSplit(c, sweep, 0, b, n);
    RunAppend(w, before, SweepActs(c, sweep, b, n));
  }

  // ---- A binding past its time, over a whole tick ----

  /** The k-th stage of a tick: others, the stage itself, and the rest. */
  lemma StageByStage(w: World, stages: seq<Stage>, k: nat, c: Weather)
    requires (hide Next, Run; Ready(w) && ForeignWeather(c) && k < |stages|)
    ensures var w1 := Run(w, GapAt(c.between, k));
            var w2 := Run(w1, StageActs(w1, stages[k], c));
            && Ready(w1) && Coupled(w2)
            && Run(w, StagesActs(w, stages, k, c)) == Run(w2, StagesActs(w2, stages, k + 1, c))
  {
    hide Next, Run;
    var gap := GapAt(c.between, k);
    var w1 := Run(w, gap);
    var one := StageActs(w1, stages[k], c);
    ForeignReady(w, gap);
    TimesRun(w1, one);
    RunAppend(w, gap, one);
    RunAppend(w, gap + one, StagesActs(Run(w, gap + one), stages, k + 1, c));
  }

  lemma StageEnds(w: World, stages: seq<Stage>, k: nat, c: Weather, sweep: RowSweep, b: nat)
    requires (hide Next, Run; Ready(w) && ForeignWeather(c) && EndsWaits(sweep) && Late(w, c, sweep, b))
    requires k < |stages| && stages[k] == Rows(sweep)
    ensures Ended(Run(w, StagesActs(w, stages, k, c)), sweep, b)
  {
    hide Next, Run;
    var w1 := Run(w, GapAt(c.between, k));
    var w2 := Run(w1, StageActs(w1, stages[k], c));
    StageByStage(w, stages, k, c);
    LateStays(w, GapAt(c.between, k), c, sweep, b);
    SweepEnds(w1, c, sweep, RowCount(w1.t, sweep), b);
    EndedStays(w2, StagesActs(w2, stages, k + 1, c), sweep, b);
  }

  lemma StagePasses(w: World, stages: seq<Stage>, k: nat, c: Weather, sweep: RowSweep, b: nat) returns (w2: World)
    requires (hide Next, Run;
             Ready(w) && ForeignWeather(c) && Late(w, c, sweep, b) && k < |stages| && ComesBack(stages[k]))
    ensures Ready(w2) && Late(w2, c, sweep, b)
    ensures Run(w, StagesActs(w, stages, k, c)) == Run(w2, StagesActs(w2, stages, k + 1, c))
  {
    hide Next, Run;
    var w1 := Run(w, GapAt(c.between, k));
    w2 := Run(w1, StageActs(w1, stages[k], c));
    StageByStage(w, stages, k, c);
    LateStays(w, GapAt(c.between, k), c, sweep, b);
    LateStays(w1, StageActs(w1, stages[k], c), c, sweep, b);
    StageReady(w1, stages[k], c);
  }

  /** The stages before the sweep come back to it. */
  lemma {:induction false} StagesLead(w: World, stages: seq<Stage>, k: nat, target: nat, c: Weather, sweep: RowSweep,
                                      b: nat)
    returns (w2: World)
    requires (hide Next, Run; Ready(w) && ForeignWeather(c) && Late(w, c, sweep, b))
    requires k <= target < |stages| && forall i :: k <= i < target ==> ComesBack(stages[i])
    ensures Ready(w2) && Late(w2, c, sweep, b)
    ensures Run(w, StagesActs(w, stages, k, c)) == Run(w2, StagesActs(w2, stages, target, c))
    decreases target - k
  {
    hide *;
    w2 := w;
    if k < target {
      w2 := StagePasses(w, stages, k, c, sweep, b);
      w2 := StagesLead(w2, stages, k + 1, target, c, sweep, b);
    }
  }

  lemma StagesEnd(w: World, stages: seq<Stage>, target: nat, c: Weather, sweep: RowSweep, b: nat)
    requires (hide Next, Run; Ready(w) && ForeignWeather(c) && EndsWaits(sweep) && Late(w, c, sweep, b))
    requires target < |stages| && stages[target] == Rows(sweep)
    requires forall i :: 0 <= i < target ==> ComesBack(stages[i])
    ensures Ended(Run(w, StagesActs(w, stages, 0, c)), sweep, b)
  {
    hide *;
    var w2 := StagesLead(w, stages, 0, target, c, sweep, b);
    StageEnds(w2, stages, target, c, sweep, b);
  }

  /** After a fast tick no binding confirmed more than 30 s before its row's turn is still starting. */
  lemma FastTickEndsStarting(w: World, c: Weather, b: nat)
    requires (hide Next, Run; Ready(w) && ForeignWeather(c) && b < |w.t.bindings|)
    requires PastActivation(w.t.bindings[b], ClockAt(c, Activations, b))
    ensures b < |Run(w, FastTickActs(w, c)).t.bindings|
    ensures !Run(w, FastTickActs(w, c)).t.bindings[b].status.Starting?
  {
    hide Next, Run;
    StagesEnd(w, FAST, 0, c, Activations, b);
  }

  /** After a slow tick no binding whose request had run out before its row's turn is still starting and unconfirmed. */
  lemma SlowTickEndsWaiting(w: World, c: Weather, b: nat)
    requires (hide Next, Run; Ready(w) && ForeignWeather(c) && b < |w.t.bindings| && b < |w.t.binds|)
    requires w.t.binds[b].expires < ClockAt(c, Binds, b)
    ensures b < |Run(w, SlowTickActs(w, c)).t.bindings|
    ensures !Unconfirmed(Run(w, SlowTickActs(w, c)).t.bindings[b])
  {
    hide Next, Run;
    StagesEnd(w, Slow(c.now), 6, c, Binds, b);
  }
}
