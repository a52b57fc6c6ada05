/** Two concrete runs that show what the code does not promise: a notice held back for good, and a binding declared dead
    after little more than 15 s of silence. */
module Witnesses {
  import opened Schema
  import opened World
  import opened Jobs
  import opened OutboundTx
  import opened LifecycleTx
  import opened BindTx
  import opened Machine
  import opened RestingJobs
  import opened ListenerClaims
  import opened Safety
  import QueueHistory
  import SendClaims

  // ---- Running a list of steps ----

  lemma TwoSteps(w: World, a: Act, b: Act)
    ensures Run(w, [a, b]) == Next(Next(w, a), b)
  {
    hide Next;
    assert [a, b][1..] == [b];
    RunIsNext(Next(w, a), b);
  }

  lemma FourSteps(w: World, a: Act, b: Act, c: Act, d: Act)
    ensures Run(w, [a, b, c, d]) == Next(Next(Next(Next(w, a), b), c), d)
  {
    hide *;
    assert [a, b, c, d] == [a, b] + [c, d];
    RunAppend(w, [a, b], [c, d]);
    TwoSteps(w, a, b);
    TwoSteps(Next(Next(w, a), b), c, d);
  }

  // ---- The daemon starts on an empty database ----

  const NO_HISTORY := History(map[], map[], {}, {}, {}, {}, {}, {})

  function Booted(cfg: Config): World {
    World(EmptyTables, cfg.(allow := {}), Idle, map[], map[], NO_HISTORY)
  }

  function BootActs(now: int): seq<Act> {
    [BySender(Boot({}, now)), BySender(ReconcileNext)]
    + [BySender(SweepNext), BySender(SweepNext), BySender(SweepNext), BySender(SweepNext)]
  }

  lemma SweepNothing(w: World)
    requires (hide Next, Run; w.t.jobs == [] && w.daemon.Sweeping?)
    ensures Next(w, BySender(SweepNext))
            == w.(daemon := if w.daemon.stage < 5 then Sweeping(w.daemon.now, w.daemon.stage + 1) else Idle)
  {
    hide Run, StepIntake, StepWorker, StepCli, StepHook, StepListener;
    assert SweepAll(w.daemon.stage, [], w.daemon.now) == [];
  }

  lemma BootLeadsHere(cfg: Config, now: int)
    ensures Run(Initial(cfg), BootActs(now)) == Booted(cfg)
  {
    hide Run, StepIntake, StepWorker, StepCli, StepHook, StepListener;
    var s := BySender(SweepNext);
    var w2 := Booted(cfg).(daemon := Sweeping(now, 2));
    TwoSteps(Initial(cfg), BySender(Boot({}, now)), BySender(ReconcileNext));
    assert ReconcileRows([]) == [];
    RunAppend(Initial(cfg), [BySender(Boot({}, now)), BySender(ReconcileNext)], [s, s, s, s]);
    FourSteps(w2, s, s, s, s);
    SweepNothing(w2);
    SweepNothing(w2.(daemon := Sweeping(now, 3)));
    SweepNothing(w2.(daemon := Sweeping(now, 4)));
    SweepNothing(w2.(daemon := Sweeping(now, 5)));
  }

  // ---- A stuck notice ----

  function Notice(b: nat, now: int): Job {
    NewJob(LifecycleNotice, Some(b), 0, KLc(b, LcClosed(UserUnbind)), ExpectClosed(Closed, UserUnbind), now)
  }

  function Unbound(inst: nat): Binding {
    Binding(0, None, inst, Closed, false, None, None, 0, None, None, Some(UserUnbind))
  }

  function Over(now: int): PendingBind { PendingBind(0, 0, BExpired, false, now + PENDING_BIND_TTL_MS) }

  /** Instance 0 was bound to chat 0 and unbound twice. */
  function UnboundTables(bindings: seq<Binding>, binds: seq<PendingBind>, jobs: seq<Job>): Tables {
    Tables(bindings, binds, [], [], [], jobs, {}, 0)
  }

  lemma BindThenUnbind(w: World, bindings: seq<Binding>, binds: seq<PendingBind>, jobs: seq<Job>, b: nat,
                       now: int)
    requires (hide Next, Run; w.t == UnboundTables(bindings, binds, jobs) && |bindings| == |binds| == b)
    requires forall i :: 0 <= i < b ==> !bindings[i].status.Live() && binds[i].state.BExpired?
    requires forall j :: 0 <= j < |jobs| ==> jobs[j].binding != Some(b) && jobs[j].key != Notice(b, now).key
    ensures Next(Next(w, ByCli(Bind(0, 0, 0, now))), ByCli(Unbind(b, now)))
            == w.(t := UnboundTables(bindings + [Unbound(0)], binds + [Over(now)], jobs + [Notice(b, now)]))
  {
    hide Run, StepSender, StepIntake, StepWorker, StepHook, StepListener;
    var w1 := Next(w, ByCli(Bind(0, 0, 0, now)));
    var row := Binding(0, None, 0, Starting, false, None, None, 0, None, None, None);
    var request := PendingBind(0, 0, BPending, false, now + PENDING_BIND_TTL_MS);
    assert ExpireBindsOf(binds, 0) == binds;
    assert w1.t == UnboundTables(bindings + [row], binds + [request], jobs);
    var t := Terminate(w1.t, b, UserUnbind, Closed, now);
    assert t.bindings == bindings + [Unbound(0)];
    assert t.binds == binds + [Over(now)];
    assert CancelOf(jobs, b) == jobs;
    assert t.jobs == jobs + [Notice(b, now)];
    assert t.inbox == [] && t.pendings == [] && t.deliveries == [];
  }

  /** The first notice after an outcome in doubt. */
  function Doubted(t0: int, attempts: nat, next: Option<int>, at: int): Job {
    Notice(0, t0).(state := Unknown, attempts := attempts, sendingAt := Some(at), next := next, error := Uncertain)
  }

  function Queue(cfg: Config, t0: int, first: Job, daemon: Daemon): World {
    Booted(cfg).(t := UnboundTables([Unbound(0), Unbound(0)], [Over(t0), Over(t0)], [first, Notice(1, t0)]),
                 daemon := daemon)
  }

  /** The first notice is still to be sent, or one attempt at it ended in doubt and its retry time has come. */
  predicate ToTry(first: Job, t0: int, now: int) {
    || (first == Notice(0, t0) && now == t0)
    || (first == Doubted(t0, 1, Some(t0 + UNKNOWN_RETRY_DELAY_MS), t0) && now == t0 + UNKNOWN_RETRY_DELAY_MS)
  }

  function Tried(first: Job, t0: int, now: int): Job {
    if now == t0 then Doubted(t0, 1, Some(now + UNKNOWN_RETRY_DELAY_MS), now) else Doubted(t0, 2, None, now)
  }

  lemma SelectBoth(cfg: Config, t0: int, first: Job, now: int)
    requires (hide Next, Run; ToTry(first, t0, now))
    ensures Next(Queue(cfg, t0, first, Idle), BySender(Select(now, true)))
            == Queue(cfg, t0, first, Ticking(2, [0, 1], 0, 0))
  {
    hide Run, StepIntake, StepWorker, StepCli, StepHook, StepListener;
    var js := [first, Notice(1, t0)];
    assert SelectRows(js, 2, DueAt(now)) == [];
    assert SelectRows(js, 1, DueAt(now)) == [1];
    assert SelectRows(js, 0, DueAt(now)) == [0] + [1] == [0, 1];
  }

  /** The first notice is sent out and its outcome is in doubt. */
  lemma SendInDoubt(cfg: Config, t0: int, first: Job, now: int)
    requires (hide Next, Run; ToTry(first, t0, now))
    ensures var w := Queue(cfg, t0, first, Ticking(2, [0, 1], 0, 0));
            Next(Next(w, BySender(PrepareNext(now, now))), BySender(Finish(InDoubt(false), now)))
            == Queue(cfg, t0, Tried(first, t0, now), Ticking(2, [0, 1], 1, 1))
  {
    hide Run, StepIntake, StepWorker, StepCli, StepHook, StepListener;
    var w := Queue(cfg, t0, first, Ticking(2, [0, 1], 0, 0));
    assert !EarlierNoticeOpen(w.t.jobs, 0) && GuardOk(w.t, w.t.jobs[0]);
    var sending := first.(state := Sending, sendingAt := Some(now), attempts := first.attempts + 1);
    var w1 := Next(w, BySender(PrepareNext(now, now)));
    assert w1.t.jobs == [sending, Notice(1, t0)];
    assert w1 == Queue(cfg, t0, sending, InFlight(2, [0, 1], 0, 0));
    var last := FinalJob(sending, InDoubt(false), now);
    assert FinalizeJobs(w1.t.jobs, 0, InDoubt(false), now) == [last, Notice(1, t0)];
  }

  /** Behind it the second notice is skipped and the tick ends. */
  lemma SkipSecond(cfg: Config, t0: int, first: Job, now: int)
    requires (hide Next, Run; first.kind.Notice() && first.chat == 0 && first.state.Unknown?)
    ensures var w, a := Queue(cfg, t0, first, Ticking(2, [0, 1], 1, 1)), BySender(PrepareNext(now, now));
            Next(Next(w, a), a) == Queue(cfg, t0, first, Idle)
  {
    hide Run, StepIntake, StepWorker, StepCli, StepHook, StepListener;
    var w := Queue(cfg, t0, first, Ticking(2, [0, 1], 1, 1));
    assert w.t.jobs[0] == first && EarlierNoticeOpen(w.t.jobs, 1);
    assert w.t.jobs[1 := w.t.jobs[1]] == w.t.jobs;
  }

  function UnbindTwice(now: int): seq<Act> {
    [ByCli(Bind(0, 0, 0, now)), ByCli(Unbind(0, now)), ByCli(Bind(0, 0, 0, now)), ByCli(Unbind(1, now))]
  }

  function TickOnce(now: int): seq<Act> {
    [BySender(Select(now, true))] + [BySender(PrepareNext(now, now)), BySender(Finish(InDoubt(false), now))]
  }

  function Skips(now: int): seq<Act> { [BySender(PrepareNext(now, now)), BySender(PrepareNext(now, now))] }

  /** Chat 0 is unbound twice, and both attempts at the first notice end in doubt. */
  function StuckRun(t0: int): seq<Act> {
    BootActs(t0) + (UnbindTwice(t0) + (TickOnce(t0) + (Skips(t0) + TickOnce(t0 + UNKNOWN_RETRY_DELAY_MS))))
  }

  lemma TickOnceLeads(cfg: Config, t0: int, first: Job, now: int)
    requires (hide Next, Run; ToTry(first, t0, now))
    ensures Run(Queue(cfg, t0, first, Idle), TickOnce(now))
            == Queue(cfg, t0, Tried(first, t0, now), Ticking(2, [0, 1], 1, 1))
  {
    hide Next, Run;
    SelectBoth(cfg, t0, first, now);
    SendInDoubt(cfg, t0, first, now);
    RunAppend(Queue(cfg, t0, first, Idle), [BySender(Select(now, true))],
              [BySender(PrepareNext(now, now)), BySender(Finish(InDoubt(false), now))]);
    RunIsNext(Queue(cfg, t0, first, Idle), BySender(Select(now, true)));
    TwoSteps(Queue(cfg, t0, first, Ticking(2, [0, 1], 0, 0)), BySender(PrepareNext(now, now)),
             BySender(Finish(InDoubt(false), now)));
  }

  lemma UnbindTwiceSteps(cfg: Config, now: int)
    ensures (hide Next, Run;
            var w1 := Next(Next(Booted(cfg), ByCli(Bind(0, 0, 0, now))), ByCli(Unbind(0, now)));
            Next(Next(w1, ByCli(Bind(0, 0, 0, now))), ByCli(Unbind(1, now))) == Queue(cfg, now, Notice(0, now), Idle))
  {
    hide Next, Run;
    BindThenUnbind(Booted(cfg), [], [], [], 0, now);
    assert [] + [Unbound(0)] == [Unbound(0)] && [] + [Over(now)] == [Over(now)];
    assert [] + [Notice(0, now)] == [Notice(0, now)];
    var w1 := Booted(cfg).(t := UnboundTables([Unbound(0)], [Over(now)], [Notice(0, now)]));
    BindThenUnbind(w1, [Unbound(0)], [Over(now)], [Notice(0, now)], 1, now);
  }

  lemma UnbindTwiceLeads(cfg: Config, now: int)
    ensures (hide Next, Run; Run(Booted(cfg), UnbindTwice(now)) == Queue(cfg, now, Notice(0, now), Idle))
  {
    hide Next, Run;
    UnbindTwiceSteps(cfg, now);
    FourSteps(Booted(cfg), ByCli(Bind(0, 0, 0, now)), ByCli(Unbind(0, now)), ByCli(Bind(0, 0, 0, now)),
              ByCli(Unbind(1, now)));
  }

  lemma SkipsLead(cfg: Config, t0: int, first: Job, now: int)
    requires (hide Next, Run; first.kind.Notice() && first.chat == 0 && first.state.Unknown?)
    ensures Run(Queue(cfg, t0, first, Ticking(2, [0, 1], 1, 1)), Skips(now)) == Queue(cfg, t0, first, Idle)
  {
    hide Next, Run;
    SkipSecond(cfg, t0, first, now);
    TwoSteps(Queue(cfg, t0, first, Ticking(2, [0, 1], 1, 1)), Skips(now)[0], Skips(now)[1]);
  }

  lemma FiveRuns(w: World, a: seq<Act>, b: seq<Act>, c: seq<Act>, d: seq<Act>, e: seq<Act>)
    ensures Run(w, a + (b + (c + (d + e)))) == Run(Run(Run(Run(Run(w, a), b), c), d), e)
  {
    hide *;
    RunAppend(w, a, b + (c + (d + e)));
    RunAppend(Run(w, a), b, c + (d + e));
    RunAppend(Run(Run(w, a), b), c, d + e);
    RunAppend(Run(Run(Run(w, a), b), c), d, e);
  }

  lemma StuckRunLeads(cfg: Config, t0: int)
    ensures (hide Next, Run;
            var later := t0 + UNKNOWN_RETRY_DELAY_MS;
            After(cfg, StuckRun(t0)) == Queue(cfg, t0, Doubted(t0, 2, None, later), Ticking(2, [0, 1], 1, 1)))
  {
    hide Next, Run;
    var later := t0 + UNKNOWN_RETRY_DELAY_MS;
    FiveRuns(Initial(cfg), BootActs(t0), UnbindTwice(t0), TickOnce(t0), Skips(t0), TickOnce(later));
    BootLeadsHere(cfg, t0);
    UnbindTwiceLeads(cfg, t0);
    TickOnceLeads(cfg, t0, Notice(0, t0), t0);
    SkipsLead(cfg, t0, Doubted(t0, 1, Some(later), t0), t0);
    TickOnceLeads(cfg, t0, Doubted(t0, 1, Some(later), t0), later);
  }

  /** It happens, at any time: after that run the second notice is queued, due, allowed and still true, and is held back;
      and so it is in every continuation in which the chat stays allowed. */
  lemma NoticesGetStuck(cfg: Config, t0: int, more: seq<Act>, a: Act)
    requires (hide Next, Run; ChatStaysAllowed(cfg.(allow := {}), more, 0))
    ensures var w := After(cfg, StuckRun(t0));
            && |w.t.jobs| == 2 && Stuck(w.t.jobs[0])
            && w.t.jobs[1].kind.Notice() && w.t.jobs[1].state.Queued? && Due(w.t.jobs[1], t0) && GuardOk(w.t, w.t.jobs[1])
            && ChatAllowed(w.cfg, w.t.jobs[1].chat)
    ensures var w' := Run(After(cfg, StuckRun(t0)), more);
            && 2 <= |w'.t.jobs| && Stuck(w'.t.jobs[0])
            && !SendClaims.Launched(w', Next(w', a), 1)
  {
    hide Next, Run;
    StuckRunLeads(cfg, t0);
    ReachedIsSound(cfg, StuckRun(t0));
    var w := After(cfg, StuckRun(t0));
    assert Stuck(w.t.jobs[0]);
    QueueHistory.EvolveRun(w, more);
    assert QueueHistory.RowLater(w.t.jobs[1], Run(w, more).t.jobs[1]);
    StuckLasts(w, more, 0);
    StuckBlocks(w, more, 0, a, 1, 0);
  }

  // ---- A heartbeat in the middle of a scan ----

  const FRESH := Binding(0, None, 0, Starting, false, None, None, 0, None, None, None)

  function Held(t0: int): Binding { FRESH.(listener := Some(5), epoch := 1, beat := Some(t0)) }

  function Running(t0: int, beat: int, suspect: Option<int>): Binding {
    Binding(0, Some(1), 0, Active, true, Some(t0), Some(5), 1, Some(beat), suspect, None)
  }

  function Asked(t0: int): PendingBind { PendingBind(0, 0, BPending, false, t0 + PENDING_BIND_TTL_MS) }

  function ListenerOf(epoch: Option<nat>): map<nat, Core> { map[7 := Core(0, 5, epoch, Nothing)] }

  /** Chat 0 is bound and a listener has taken the binding over. */
  function Waiting(cfg: Config, t0: int): World {
    World(UnboundTables([Held(t0)], [Asked(t0)], []), cfg.(allow := {}), Idle, map[], ListenerOf(Some(1)),
          NO_HISTORY.(won := {(0, 1, 7)}, beaten := {0}))
  }

  lemma WaitingSteps(cfg: Config, t0: int)
    ensures (hide Next, Run;
            Next(Next(Next(Booted(cfg), ByCli(Bind(0, 0, 0, t0))), ByListener(7, CoreStart(0, 5))),
                 ByListener(7, Takeover(FRESH, t0, false)))
            == Waiting(cfg, t0))
  {
    hide Run, StepSender, StepIntake, StepWorker, StepHook;
    var w1 := Next(Booted(cfg), ByCli(Bind(0, 0, 0, t0)));
    assert ExpireBindsOf([], 0) == [];
    assert w1 == Booted(cfg).(t := UnboundTables([FRESH], [Asked(t0)], []));
    var w2 := Next(w1, ByListener(7, CoreStart(0, 5)));
    assert w2 == w1.(cores := ListenerOf(None));
    assert [FRESH][0 := Held(t0)] == [Held(t0)];
    assert NO_HISTORY.won + {(0, 1, 7)} == {(0, 1, 7)} && NO_HISTORY.beaten + {0} == {0};
  }

  function Said(t0: int): StopPayload { StopPayload(Some(1), "", {0}, false, "", false, t0) }

  /** The handshake has made the binding active. */
  function Talking(cfg: Config, t0: int, row: Binding, daemon: Daemon, beaten: set<nat>, silent: set<nat>): World {
    World(UnboundTables([row], [Asked(t0).(state := BConsumed, latch := true)],
                        [NewJob(LifecycleNotice, Some(0), 0, KLc(0, LcBound), ExpectActive, t0)]),
          cfg.(allow := {}), daemon, map[], ListenerOf(Some(1)),
          NO_HISTORY.(won := {(0, 1, 7)}, beaten := beaten, bindTurn := {0}, silent := silent))
  }

  lemma TalkingSteps(cfg: Config, t0: int)
    ensures (hide Next, Run;
            Next(Next(Next(Waiting(cfg, t0), ByHook(0, StopBegin(Said(t0)))), ByHook(0, StopFindBind)),
                 ByHook(0, StopHandshake))
            == Talking(cfg, t0, Running(t0, t0, None), Idle, {0}, {}))
  {
    hide Run, StepSender, StepIntake, StepWorker, StepCli, StepListener;
    var w0 := Waiting(cfg, t0);
    assert CloseLatches([Asked(t0)], 0) == [Asked(t0)];
    var w1 := Next(w0, ByHook(0, StopBegin(Said(t0))));
    assert w1 == w0.(stops := map[0 := AfterLatch(Said(t0))]);
    var w2 := Next(w1, ByHook(0, StopFindBind));
    assert PendingOf([Asked(t0)], 0, 1) == Some(0);
    assert w2 == w0.(stops := map[0 := ToHandshake(Said(t0), 0)]);
    assert HandshakeVerdict(w2.t, 0, 1, t0).HandshakeDone?;
    var t' := HandshakeTx(w2.t, 0, 1, t0);
    assert t'.bindings == [Running(t0, t0, None)];
    assert t'.jobs == [NewJob(LifecycleNotice, Some(0), 0, KLc(0, LcBound), ExpectActive, t0)];
    assert w2.stops - {0} == map[];
  }

  /** The scan reads the row, the listener beats, and only then does the scan mark the row. */
  lemma MarkSteps(cfg: Config, t0: int)
    ensures (hide Next, Run;
            var w := Talking(cfg, t0, Running(t0, t0, None), Idle, {0}, {});
            var judge := ByWorker(JudgeNext(false, false, t0 + 20001));
            Next(Next(Next(Next(w, ByWorker(ScanDeaths(t0 + 20000))), ByListener(7, Beat(t0 + 20001))), judge), judge)
            == Talking(cfg, t0, Running(t0, t0 + 20001, Some(t0 + 20000)), Idle, {}, {}))
  {
    hide Run, StepSender, StepIntake, StepCli, StepHook;
    var w := Talking(cfg, t0, Running(t0, t0, None), Idle, {0}, {});
    var seen := [Running(t0, t0, None)];
    assert Silent(seen, {0}) == {};
    var w1 := Next(w, ByWorker(ScanDeaths(t0 + 20000)));
    assert w1 == w.(daemon := Judging(t0 + 20000, seen, 0));
    var w2 := Next(w1, ByListener(7, Beat(t0 + 20001)));
    assert w2.t.bindings == [Running(t0, t0 + 20001, None)] && {0} + {0} == {0};
    var w3 := Next(w2, ByWorker(JudgeNext(false, false, t0 + 20001)));
    assert w3.t.bindings == [Running(t0, t0 + 20001, Some(t0 + 20000))] && {0} - {0} == {};
  }

  function SilenceRun(t0: int): seq<Act> {
    var judge := ByWorker(JudgeNext(false, false, t0 + 20001));
    BootActs(t0)
    + ([ByCli(Bind(0, 0, 0, t0)), ByListener(7, CoreStart(0, 5)), ByListener(7, Takeover(FRESH, t0, false))]
       + ([ByHook(0, StopBegin(Said(t0))), ByHook(0, StopFindBind), ByHook(0, StopHandshake)]
          + ([ByWorker(ScanDeaths(t0 + 20000)), ByListener(7, Beat(t0 + 20001)), judge, judge]
             + [ByWorker(ScanDeaths(t0 + 35002))])))
  }

  lemma SecondScan(cfg: Config, t0: int)
    ensures (hide Next, Run;
             var row := Running(t0, t0 + 20001, Some(t0 + 20000));
             Next(Talking(cfg, t0, row, Idle, {}, {}), ByWorker(ScanDeaths(t0 + 35002)))
             == Talking(cfg, t0, row, Judging(t0 + 35002, [row], 0), {}, {0}))
  {
    hide Run, StepSender, StepIntake, StepCli, StepHook, StepListener;
    assert Silent([Running(t0, t0 + 20001, Some(t0 + 20000))], {}) == {0};
  }

  lemma SilenceRunLeads(cfg: Config, t0: int)
    ensures (hide Next, Run;
             var row := Running(t0, t0 + 20001, Some(t0 + 20000));
             After(cfg, SilenceRun(t0)) == Talking(cfg, t0, row, Judging(t0 + 35002, [row], 0), {}, {0}))
  {
    hide Next, Run;
    var judge := ByWorker(JudgeNext(false, false, t0 + 20001));
    var bind := [ByCli(Bind(0, 0, 0, t0)), ByListener(7, CoreStart(0, 5)), ByListener(7, Takeover(FRESH, t0, false))];
    var stop := [ByHook(0, StopBegin(Said(t0))), ByHook(0, StopFindBind), ByHook(0, StopHandshake)];
    var mark := [ByWorker(ScanDeaths(t0 + 20000)), ByListener(7, Beat(t0 + 20001)), judge, judge];
    var scan := ByWorker(ScanDeaths(t0 + 35002));
    FiveRuns(Initial(cfg), BootActs(t0), bind, stop, mark, [scan]);
    BootLeadsHere(cfg, t0);
    ThreeSteps(Booted(cfg), bind[0], bind[1], bind[2]);
    WaitingSteps(cfg, t0);
    ThreeSteps(Waiting(cfg, t0), stop[0], stop[1], stop[2]);
    TalkingSteps(cfg, t0);
    var w := Talking(cfg, t0, Running(t0, t0, None), Idle, {0}, {});
    FourSteps(w, mark[0], mark[1], mark[2], mark[3]);
    MarkSteps(cfg, t0);
    SecondScan(cfg, t0);
    RunIsNext(Talking(cfg, t0, Running(t0, t0 + 20001, Some(t0 + 20000)), Idle, {}, {}), scan);
  }

  /** It happens that a binding is declared dead after 15.001 s of recorded silence: the heartbeat came after the first
      scan had read the row and before it marked it. */
  lemma SilenceCanBeShort(cfg: Config, t0: int)
    ensures (hide Next, Run;
            var w := After(cfg, SilenceRun(t0));
            var verdict := ByWorker(JudgeNext(false, false, t0 + 35002));
            && Declared(w, verdict, 0) && w.daemon.seen[0].beat.Some?
            && w.daemon.scanNow - w.daemon.seen[0].beat.value == HEARTBEAT_GRACE_MS + 1
            && 1 <= |Next(w, verdict).t.bindings| && Next(w, verdict).t.bindings[0].status.Dead?)
  {
    hide Run, StepSender, StepIntake, StepCli, StepHook, StepListener;
    SilenceRunLeads(cfg, t0);
  }
}
