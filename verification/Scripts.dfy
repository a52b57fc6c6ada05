/** What the daemon's longer procedures do as sequences of atomic steps: which steps, in which order, on which rows, with
    whatever other processes do in between. */
module Scripts {
  import opened Schema
  import opened World
  import opened OutboundTx
  import opened InboundTx
  import opened Machine
  import Frames

  ghost predicate AllForeign(acts: seq<Act>) { forall i :: 0 <= i < |acts| ==> acts[i].Foreign() }

  /** Other processes leave the daemon where it is. */
  lemma {:induction false} ForeignLeavesDaemon(w: World, acts: seq<Act>)
    requires AllForeign(acts)
    ensures Run(w, acts).daemon == w.daemon && Run(w, acts).cfg == w.cfg
    decreases |acts|
  {
    hide Next;
    if acts != [] {
      ForeignStep(w, acts[0]);
      ForeignLeavesDaemon(Next(w, acts[0]), acts[1..]);
    }
  }

  lemma ForeignStep(w: World, a: Act)
    requires a.Foreign()
    ensures Next(w, a).daemon == w.daemon && Next(w, a).cfg == w.cfg
  {
    hide Run, StepSender, StepIntake, StepWorker;
    match a
    case ByCli(c) => Frames.CliFrame(w, c);
    case ByHook(h, hook) => Frames.HookFrame(w, h, hook);
    case ByListener(c, l) => Frames.ListenerFrame(w, c, l);
  }

  function GapAt(gaps: seq<seq<Act>>, k: nat): seq<Act> { if k < |gaps| then gaps[k] else [] }

  ghost predicate ForeignGaps(gaps: seq<seq<Act>>) { forall k :: 0 <= k < |gaps| ==> AllForeign(gaps[k]) }

  // ---- lib/outbound.py: startup_scan ----

  /** Step 1 for the rows from k to n, others before each. */
  function ReconcileActs(gaps: seq<seq<Act>>, k: nat, n: nat): seq<Act>
    decreases n - k
  {
    if k >= n then [] else GapAt(gaps, k) + [BySender(ReconcileNext)] + ReconcileActs(gaps, k + 1, n)
  }

  /** Steps `stage` to 5. */
  function SweepingActs(gaps: seq<seq<Act>>, n: nat, stage: nat): seq<Act>
    decreases 6 - stage
  {
    if stage >= 6 then [] else GapAt(gaps, n + stage) + [BySender(SweepNext)] + SweepingActs(gaps, n, stage + 1)
  }

  /** A start of the daemon over n rows to reconcile. */
  function StartupActs(allow: set<nat>, now: int, gaps: seq<seq<Act>>, n: nat): seq<Act> {
    [BySender(Boot(allow, now))]
    + (ReconcileActs(gaps, 0, n) + ([BySender(ReconcileNext)] + SweepingActs(gaps, n, 2)))
  }

  // ---- lib/outbound.py: tick ----

  /** One row of the loop: what others do before it and while the network call runs, the clock, and the answer. */
  datatype Visit = Visit(before: seq<Act>, now: int, at: int, during: seq<Act>, outcome: Outcome, answeredAt: int)

  function VisitActs(v: Visit): seq<Act> {
    v.before + [BySender(PrepareNext(v.now, v.at))] + (v.during + [BySender(Finish(v.outcome, v.answeredAt))])
  }

  function TickActs(visits: seq<Visit>): seq<Act> {
    if visits == [] then [] else TickActs(visits[..|visits| - 1]) + VisitActs(visits[|visits| - 1])
  }

  ghost predicate ForeignVisit(v: Visit) { AllForeign(v.before) && AllForeign(v.during) }

  /** What one visit makes of the world. */
  function Visited(w: World, v: Visit): World {
    Next(Run(Next(Run(w, v.before), BySender(PrepareNext(v.now, v.at))), v.during), BySender(Finish(v.outcome, v.answeredAt)))
  }

  lemma VisitedIs(w: World, acts: seq<Act>, v: Visit)
    ensures Run(w, acts + VisitActs(v)) == Visited(Run(w, acts), v)
  {
    hide Next, Run;
    var prepare, finish := [BySender(PrepareNext(v.now, v.at))], [BySender(Finish(v.outcome, v.answeredAt))];
    RunAppend(w, acts, VisitActs(v));
    var w1 := Run(w, acts);
    RunAppend(w1, v.before + prepare, v.during + finish);
    RunAppend(w1, v.before, prepare);
    RunIsNext(Run(w1, v.before), prepare[0]);
    var w2 := Run(w1, v.before + prepare);
    RunAppend(w2, v.during, finish);
    RunIsNext(Run(w2, v.during), finish[0]);
  }

  // ---- lib/inbound.py: drive_row ----

  datatype Download = Broken | NotYet | Stored

  /** What one visit to a row meets: others at work before it, during the fetch and during the download, and the answers
      from outside. */
  datatype Encounter = Encounter(before: seq<Act>, fetching: seq<Act>, fetched: Option<Snap>, listed: bool, nonce: nat,
                                 downloading: seq<Act>, download: Download, now: int)

  ghost predicate ForeignEncounter(e: Encounter) {
    AllForeign(e.before) && AllForeign(e.fetching) && AllForeign(e.downloading)
  }

  function DownloadAct(download: Download, now: int): Act {
    ByIntake(match download
             case Broken => MediaFailed(now)
             case NotYet => MediaPutOff
             case Stored => MediaDone(now))
  }

  predicate WaitsForStart(t: Tables, m: nat)
    requires m < |t.inbox|
  {
    BindingOf(t, m).Some? && BindingOf(t, m).value.status.Starting?
  }

  /** The message can be read: it was fetched now, or its snapshot is in the row. */
  predicate Readable(t: Tables, m: nat, e: Encounter)
    requires m < |t.inbox|
  {
    e.fetched.Some? || t.inbox[m].snap.Some?
  }

  function Fetched(t: Tables, m: nat, e: Encounter): Snap
    requires m < |t.inbox| && Readable(t, m, e)
  {
    if e.fetched.Some? then e.fetched.value else t.inbox[m].snap.value
  }

  /** A download and what it leads to, if the step before asked for one. */
  function DownloadActs(w: World, e: Encounter): seq<Act> {
    if w.daemon.Materializing? then e.downloading + [DownloadAct(e.download, e.now)] else []
  }

  function DecideAct(m: nat, fetched: Snap, waiting: bool, e: Encounter): Act {
    ByIntake(if waiting then Redecide(m, fetched, e.listed, e.nonce, e.now) else Decide(m, fetched, e.listed, e.nonce, e.now))
  }

  function DecideActs(w: World, m: nat, fetched: Snap, waiting: bool, e: Encounter): seq<Act> {
    var decided := e.fetching + [DecideAct(m, fetched, waiting, e)];
    decided + DownloadActs(Run(w, decided), e)
  }

  function MaterializeActs(w: World, m: nat, e: Encounter): seq<Act>
    requires m < |w.t.inbox|
  {
    if ApprovedPendingOf(w.t, m).None? || !Readable(w.t, m, e) then []
    else
      var start := [ByIntake(StartMaterializing(m, Fetched(w.t, m, e)))];
      start + DownloadActs(Run(w, start), e)
  }

  /** drive_row: at most `readings` looks at the row. */
  function DriveActs(w: World, m: nat, e: Encounter, readings: nat): seq<Act>
    decreases readings
  {
    if readings == 0 || m >= |w.t.inbox| then []
    else
      match w.t.inbox[m].state
      case Received =>
        var start := ByIntake(StartResolving(m, e.now));
        [start] + DriveActs(Next(w, start), m, e, readings - 1)
      case Resolving => if Readable(w.t, m, e) then DecideActs(w, m, Fetched(w.t, m, e), false, e) else []
      case WaitingBinding =>
        if Readable(w.t, m, e) && !WaitsForStart(w.t, m) then DecideActs(w, m, Fetched(w.t, m, e), true, e) else []
      case ApprovedMaterializing => MaterializeActs(w, m, e)
      case _ => []
  }

  const READINGS: nat := 4

  // ---- lib/recovery.py: the sweeps ----

  /** Others at work before a row, and the clock when its turn comes. */
  datatype Pause = Pause(others: seq<Act>, now: int)

  datatype RowSweep = Cards | Rearming | Approvals | Binds | Strays | Activations

  /** How many rows a sweep's SELECT can return, and what its loop does for row k. */
  function RowCount(t: Tables, sweep: RowSweep): nat {
    match sweep
    case Cards => |t.pendings|
    case Rearming => |t.jobs|
    case Approvals => |t.pendings|
    case Binds => |t.binds|
    case Strays => |t.bindings|
    case Activations => |t.bindings|
  }

  function RowAct(sweep: RowSweep, k: nat, now: int): WorkerAct {
    match sweep
    case Cards => Replenish(k, now)
    case Rearming => Rearm(k, now)
    case Approvals => PendingTimeout(k, now)
    case Binds => BindingTimeout(k, now)
    case Strays => CloseStray(k, now)
    case Activations => ActivateOne(k, now)
  }

  /** What a tick meets from outside. */
  datatype Weather = Weather(now: int, between: seq<seq<Act>>, pauses: map<RowSweep, seq<Pause>>, waiting: seq<Encounter>,
                             others: seq<Encounter>, glances: seq<Glance>, inSuspectWindow: bool)

  function PauseAt(c: Weather, sweep: RowSweep, k: nat): Pause {
    if sweep in c.pauses && k < |c.pauses[sweep]| then c.pauses[sweep][k] else Pause([], c.now)
  }

  /** The lifecycle's own loops read the clock themselves, the others use the tick's. */
  function ClockAt(c: Weather, sweep: RowSweep, k: nat): int {
    if sweep.Binds? || sweep.Strays? || sweep.Activations? then PauseAt(c, sweep, k).now else c.now
  }

  function RowVisit(c: Weather, sweep: RowSweep, k: nat): seq<Act> {
    PauseAt(c, sweep, k).others + [ByWorker(RowAct(sweep, k, ClockAt(c, sweep, k)))]
  }

  /** A sweep over the rows from k to n. */
  function SweepActs(c: Weather, sweep: RowSweep, k: nat, n: nat): seq<Act>
    decreases n - k
  {
    if k >= n then [] else RowVisit(c, sweep, k) + SweepActs(c, sweep, k + 1, n)
  }

  function EncounterAt(encounters: seq<Encounter>, k: nat, now: int): Encounter {
    if k < |encounters| then encounters[k] else Encounter([], [], None, false, 0, [], NotYet, now)
  }

  /** _redrive_resolving and _redrive_materializing close a row before they would drive it. */
  function Closers(m: nat, now: int): seq<Act> {
    [ByWorker(ResolveTimeout(m, now)), ByWorker(Orphaned(m, now)), ByWorker(MaterializeTimeout(m, now))]
  }

  function RedriveActs(w: World, m: nat, now: int, e: Encounter): seq<Act> {
    Closers(m, now) + DriveActs(Run(w, Closers(m, now)), m, e, READINGS)
  }

  function RowActs(w: World, m: nat, closing: bool, now: int, e: Encounter): seq<Act> {
    e.before + (if closing then RedriveActs(Run(w, e.before), m, now, e)
                else DriveActs(Run(w, e.before), m, e, READINGS))
  }

  /** The rows from m on that were in one of `states` when the loop selected them. */
  function DriveRowsActs(w: World, rows: seq<Inbox>, m: nat, states: set<InboxState>, closing: bool,
                         encounters: seq<Encounter>, now: int): seq<Act>
    decreases |rows| - m
  {
    if m >= |rows| then []
    else if rows[m].state !in states then DriveRowsActs(w, rows, m + 1, states, closing, encounters, now)
    else
      var one := RowActs(w, m, closing, now, EncounterAt(encounters, m, now));
      one + DriveRowsActs(Run(w, one), rows, m + 1, states, closing, encounters, now)
  }

  // ---- lib/lifecycle.py: death_scan ----

  /** What happens before the scan looks at a row again, and what the process probe says about the row. */
  datatype Glance = Glance(others: seq<Act>, dead: bool, at: int)

  function ScanActs(glances: seq<Glance>, inSuspectWindow: bool): seq<Act> {
    if glances == [] then []
    else
      var last := glances[|glances| - 1];
      ScanActs(glances[..|glances| - 1], inSuspectWindow)
      + (last.others + [ByWorker(JudgeNext(last.dead, inSuspectWindow, last.at))])
  }

  function ScanRun(now: int, glances: seq<Glance>, inSuspectWindow: bool): seq<Act> {
    [ByWorker(ScanDeaths(now))] + (ScanActs(glances, inSuspectWindow)
                                   + [ByWorker(JudgeNext(false, inSuspectWindow, now))])
  }

  function Padded(glances: seq<Glance>, n: nat, now: int): (r: seq<Glance>)
    ensures |r| == n
  {
    seq(n, k => if 0 <= k < |glances| then glances[k] else Glance([], false, now))
  }

  // ---- The ticks ----

  datatype Stage = Rows(sweep: RowSweep) | DriveWaiting | Redrive(states: set<InboxState>) | Scan | Bulk(bulk: WorkerAct)

  /** fast_tick and slow_tick, statement by statement. */
  const FAST: seq<Stage> := [Rows(Activations), DriveWaiting, Scan]

  function Slow(now: int): seq<Stage> {
    [DriveWaiting, Redrive({Received, Resolving}), Rows(Cards), Rows(Rearming),
     Redrive({ApprovedMaterializing}), Rows(Approvals), Rows(Binds), Rows(Strays), Bulk(Reclaim(now)),
     Bulk(SweepDeliveries), Bulk(RescueSending(now)), Bulk(Retain(now))]
  }

  function StageActs(w: World, stage: Stage, c: Weather): seq<Act> {
    match stage
    case Rows(sweep) => SweepActs(c, sweep, 0, RowCount(w.t, sweep))
    case DriveWaiting => DriveRowsActs(w, w.t.inbox, 0, {WaitingBinding}, false, c.waiting, c.now)
    case Redrive(states) => DriveRowsActs(w, w.t.inbox, 0, states, true, c.others, c.now)
    case Scan => ScanRun(c.now, Padded(c.glances, |w.t.bindings|, c.now), c.inSuspectWindow)
    case Bulk(act) => [ByWorker(act)]
  }

  /** The stages from k on, others in between. */
  function StagesActs(w: World, stages: seq<Stage>, k: nat, c: Weather): seq<Act>
    decreases |stages| - k
  {
    if k >= |stages| then []
    else
      var gap := GapAt(c.between, k);
      var one := gap + StageActs(Run(w, gap), stages[k], c);
      one + StagesActs(Run(w, one), stages, k + 1, c)
  }

  function FastTickActs(w: World, c: Weather): seq<Act> { StagesActs(w, FAST, 0, c) }

  function SlowTickActs(w: World, c: Weather): seq<Act> { StagesActs(w, Slow(c.now), 0, c) }

  ghost predicate ForeignEncounters(encounters: seq<Encounter>) {
    forall k :: 0 <= k < |encounters| ==> ForeignEncounter(encounters[k])
  }

  ghost predicate ForeignWeather(c: Weather) {
    && ForeignGaps(c.between) && ForeignEncounters(c.waiting) && ForeignEncounters(c.others)
    && (forall sweep, k :: sweep in c.pauses && 0 <= k < |c.pauses[sweep]| ==> AllForeign(c.pauses[sweep][k].others))
    && forall k :: 0 <= k < |c.glances| ==> AllForeign(c.glances[k].others)
  }
}
