/** What one drive of a message leads to, whatever other processes do during the fetch and the download. */
module DriveLaws {
  import opened Schema
  import opened World
  import opened Machine
  import opened Scripts
  import opened IntakeLaws
  import opened Occupancy
  import opened Ticks
  import Drives

  /** The snapshot a message is decided on: the one in its row, else the one fetched. */
  function SnapFor(row: Inbox, e: Encounter): Snap
    requires e.fetched.Some? || row.snap.Some?
  {
    if row.snap.Some? then row.snap.value else e.fetched.value
  }

  /** The end of the drive: nothing more, or the download the step before asked for. */
  ghost predicate DownloadLed(w: World, w': World, e: Encounter) {
    if !w.daemon.Materializing? then w'.t == w.t
    else
      var w1 := Run(w, e.downloading);
      w.daemon.msg < |w1.t.inbox| && DownloadBefalls(w1.t, w'.t, w.daemon, w.cfg.owner, e.download, e.now)
  }

  /** The row is decided in the tables as they are after the fetch, unless the end of its binding has closed it by then. */
  ghost predicate DecisionLed(w: World, w': World, m: nat, waiting: bool, e: Encounter)
    requires m < |w.t.inbox| && Readable(w.t, m, e)
  {
    var w1 := Run(w, e.fetching);
    var w2 := Next(w1, DecideAct(m, Fetched(w.t, m, e), waiting, e));
    && m < |w1.t.inbox|
    && (if waiting && !w1.t.inbox[m].state.WaitingBinding? then w1.t.inbox[m].state.Final() && w'.t == w1.t
        else DecisionBefalls(w1, w2, m, SnapFor(w.t.inbox[m], e), waiting, e) && DownloadLed(w2, w', e))
  }

  /** The row as the next reading finds it. */
  function Started(w: World, m: nat, now: int): World
    requires m < |w.t.inbox|
  {
    w.(t := w.t.(inbox := w.t.inbox[m := w.t.inbox[m].(state := Resolving, ts := now)]))
  }

  /** The approval a download is for. */
  ghost predicate GrantedFor(t: Tables, p: nat, m: nat) {
    p < |t.pendings| && t.pendings[p].msg == m && t.pendings[p].state.PApproved?
  }

  /** Where a drive leads, by the state the row is in when it begins. */
  ghost predicate DriveLed(w: World, w': World, m: nat, e: Encounter)
    requires m < |w.t.inbox| && Readable(w.t, m, e)
  {
    var row := w.t.inbox[m];
    match row.state
    case Received => DecisionLed(Started(w, m, e.now), w', m, false, e)
    case Resolving => DecisionLed(w, w', m, false, e)
    case WaitingBinding => if WaitsForStart(w.t, m) then w'.t == w.t else DecisionLed(w, w', m, true, e)
    case ApprovedMaterializing =>
      exists p ::
        && GrantedFor(w.t, p, m)
        && DownloadLed(w.(daemon := Materializing(m, SnapFor(row, e), ApprovedMaterializing, Some(p))), w', e)
    case _ => w'.t == w.t
  }

  lemma DownloadsLead(w: World, e: Encounter)
    requires (hide Next, Run; Coupled(w) && (w.daemon.Idle? || w.daemon.Materializing?) && ForeignEncounter(e))
    ensures DownloadLed(w, Run(w, DownloadActs(w, e)), e)
  {
    hide Next;
    if w.daemon.Materializing? {
      TimesRun(w, e.downloading);
      ForeignLeavesDaemon(w, e.downloading);
      DownloadLeads(Run(w, e.downloading), e.download, e.now);
      RunAppend(w, e.downloading, [DownloadAct(e.download, e.now)]);
      RunIsNext(Run(w, e.downloading), DownloadAct(e.download, e.now));
    }
  }

  lemma DecisionsLead(w: World, m: nat, waiting: bool, e: Encounter)
    requires (hide Next, Run; Ready(w) && ForeignEncounter(e) && m < |w.t.inbox| && Readable(w.t, m, e))
    requires if waiting then w.t.inbox[m].state.WaitingBinding? && !WaitsForStart(w.t, m)
             else w.t.inbox[m].state.Resolving?
    ensures DecisionLed(w, Run(w, DecideActs(w, m, Fetched(w.t, m, e), waiting, e)), m, waiting, e)
  {
    hide Next, Run;
    var fetched := Fetched(w.t, m, e);
    var w1, a := Run(w, e.fetching), DecideAct(m, fetched, waiting, e);
    var w2 := Next(w1, a);
    ForeignReady(w, e.fetching);
    Drives.ForeignRows(w, e.fetching);
    assert Drives.RowForeign(w.t.inbox[m], w1.t.inbox[m]);
    RunAppend(w, e.fetching, [a]);
    RunIsNext(w1, a);
    RunAppend(w, e.fetching + [a], DownloadActs(w2, e));
    CoupledStep(w1, a);
    if waiting && !w1.t.inbox[m].state.WaitingBinding? {
      FinalIsLeft(w1, m, fetched, e);
      NoDownload(w2, e);
    } else {
      DecisionLeads(w1, m, fetched, waiting, e);
      DownloadsLead(w2, e);
    }
  }

  lemma NoDownload(w: World, e: Encounter)
    requires w.daemon.Idle?
    ensures Run(w, DownloadActs(w, e)) == w
  {
    hide Next;
  }

  lemma FinalIsLeft(w: World, m: nat, fetched: Snap, e: Encounter)
    requires (hide Next, Run; w.daemon.Idle? && m < |w.t.inbox| && !w.t.inbox[m].state.WaitingBinding?)
    ensures var w' := Next(w, DecideAct(m, fetched, true, e)); w'.t == w.t && w'.daemon.Idle?
  {
    hide Run, StepSender, StepWorker, StepCli, StepHook, StepListener;
  }

  lemma MaterializesLead(w: World, m: nat, e: Encounter)
    requires (hide Next, Run; Ready(w) && ForeignEncounter(e) && m < |w.t.inbox| && Readable(w.t, m, e))
    requires w.t.inbox[m].state.ApprovedMaterializing?
    ensures DriveLed(w, Run(w, MaterializeActs(w, m, e)), m, e)
  {
    hide Run, StepSender, StepWorker, StepCli, StepHook, StepListener;
    Drives.ApprovalIsThere(w, m);
    var a := ByIntake(StartMaterializing(m, Fetched(w.t, m, e)));
    var w1 := Next(w, a);
    var p := ApprovedPendingOf(w.t, m).value;
    RunIsNext(w, a);
    CoupledStep(w, a);
    RunAppend(w, [a], DownloadActs(w1, e));
    DownloadsLead(w1, e);
    assert GrantedFor(w.t, p, m);
    assert w1 == w.(daemon := Materializing(m, SnapFor(w.t.inbox[m], e), ApprovedMaterializing, Some(p)));
  }

  lemma StartIs(w: World, m: nat, now: int)
    requires (hide Next, Run; w.daemon.Idle? && m < |w.t.inbox| && w.t.inbox[m].state.Received?)
    ensures Next(w, ByIntake(StartResolving(m, now))) == Started(w, m, now)
  {
    hide Run, StepSender, StepWorker, StepCli, StepHook, StepListener;
  }

  /** One drive of a readable message. */
  lemma DriveLeads(w: World, m: nat, e: Encounter)
    requires (hide Next, Run; Ready(w) && ForeignEncounter(e) && m < |w.t.inbox| && Readable(w.t, m, e))
    ensures DriveLed(w, Run(w, DriveActs(w, m, e, READINGS)), m, e)
  {
    hide Next, Run;
    match w.t.inbox[m].state
    case Received =>
      var a := ByIntake(StartResolving(m, e.now));
      var w0 := Started(w, m, e.now);
      StartIs(w, m, e.now);
      CoupledStep(w, a);
      DecisionsLead(w0, m, false, e);
      OneThen(w, a, DriveActs(w0, m, e, READINGS - 1));
    case Resolving => DecisionsLead(w, m, false, e);
    case WaitingBinding => if WaitsForStart(w.t, m) { RunNothing(w); } else { DecisionsLead(w, m, true, e); }
    case ApprovedMaterializing => MaterializesLead(w, m, e);
    case _ => RunNothing(w);
  }

  lemma RunNothing(w: World)
    ensures Run(w, []) == w
  {
    hide Next;
  }
}
