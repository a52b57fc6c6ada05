/** What driving a message achieves, whatever other processes do during the fetch and the download. */
module Drives {
  import opened Schema
  import opened World
  import opened LifecycleTx
  import opened InboundTx
  import opened RecoveryTx
  import opened Machine
  import opened Scripts
  import opened Occupancy
  import opened Ticks
  import Frames
  import IntakeInvariant

  // ---- What others may do to a row ----

  /** The row is as it was, or the end of its binding has closed it. */
  predicate RowForeign(a: Inbox, b: Inbox) {
    || b == a
    || (a.state.WaitingBinding? && b.state.Final())
    || ((a.state.AwaitingApproval? || a.state.ApprovedMaterializing?) && b.state.Final())
    || (a.state.Final() && b.state == a.state)
  }

  ghost predicate RowsForeign(t: Tables, t': Tables) {
    |t'.inbox| == |t.inbox| && forall m :: 0 <= m < |t.inbox| ==> RowForeign(t.inbox[m], t'.inbox[m])
  }

  lemma TerminateForeign(t: Tables, b: nat, reason: Reason, status: Status, now: int)
    requires !status.Live()
    ensures RowsForeign(t, Terminate(t, b, reason, status, now))
  {}

  lemma CreateBindingForeign(t: Tables, chat: nat, inst: nat, nonce: nat, now: int)
    ensures RowsForeign(t, CreateBinding(t, chat, inst, nonce, now).0)
  {
    var found := StartingOf(t.bindings, inst, 0);
    if found.Some? { TerminateForeign(t, found.value, BindSuperseded, Closed, now); }
  }

  lemma SettledForeign(t: Tables, r: nat, row: PendingBind, reason: Reason, now: int)
    requires r < |t.binds|
    ensures RowsForeign(t, Terminate(t.(binds := t.binds[r := row]), r, reason, Closed, now))
  {
    TerminateForeign(t.(binds := t.binds[r := row]), r, reason, Closed, now);
  }

  lemma HookForeign(w: World, inst: nat, a: HookAct)
    ensures RowsForeign(w.t, StepHook(w, inst, a).t)
  {
    match a
    case StopFail =>
      if inst in w.stops && (w.stops[inst].ToMiss? || w.stops[inst].ToConflict?) {
        var r := w.stops[inst].request;
        if r < |w.t.binds| {
          SettledForeign(w.t, r, w.t.binds[r].(state := BFailed, latch := true), BindFailed, w.stops[inst].p.now);
        }
      }
    case EndBinding(b, now) => TerminateForeign(w.t, b, SessionEnd, Closed, now);
    case EndRequest(r, now) =>
      if r < |w.t.binds| {
        SettledForeign(w.t, r, w.t.binds[r].(state := BExpired, latch := false), SessionEnd, now);
      }
    case _ => OtherHooksLeaveInbox(w, inst, a);
  }

  lemma OtherHooksLeaveInbox(w: World, inst: nat, a: HookAct)
    requires !a.StopFail? && !a.EndBinding? && !a.EndRequest?
    ensures StepHook(w, inst, a).t.inbox == w.t.inbox
  {}

  lemma ForeignRowStep(w: World, a: Act)
    requires a.Foreign()
    ensures RowsForeign(w.t, Next(w, a).t)
  {
    hide Run, StepSender, StepIntake, StepWorker;
    match a
    case ByCli(Bind(chat, inst, nonce, now)) => CreateBindingForeign(w.t, chat, inst, nonce, now);
    case ByCli(Unbind(b, now)) => TerminateForeign(w.t, b, UserUnbind, Closed, now);
    case ByHook(inst, h) => HookForeign(w, inst, h);
    case ByListener(c, l) => Frames.ListenerFrame(w, c, l);
  }

  lemma {:induction false} ForeignRows(w: World, acts: seq<Act>)
    requires AllForeign(acts)
    ensures RowsForeign(w.t, Run(w, acts).t)
    decreases |acts|
  {
    hide Next;
    if acts != [] {
      ForeignRowStep(w, acts[0]);
      ForeignRows(Next(w, acts[0]), acts[1..]);
    }
  }

  // ---- The decision ----

  /** Decided, or waiting for an approval, or for a binding that is still starting. */
  predicate Settled(t: Tables, m: nat)
    requires m < |t.inbox|
  {
    || t.inbox[m].state.Final() || t.inbox[m].state.AwaitingApproval?
    || (t.inbox[m].state.WaitingBinding? && WaitsForStart(t, m))
  }

  lemma GateSettles(t: Tables, cfg: Config, m: nat, snap: Snap, b: nat, from: InboxState, listed: bool, nonce: nat,
                    now: int)
    requires m < |t.inbox| && t.inbox[m].state == from && b < |t.bindings| && t.bindings[b].status.Active?
    ensures var r := GateTx(t, cfg, m, snap, b, from, listed, nonce, now);
            m < |r.0.inbox| && if r.1 then r.0 == t else Settled(r.0, m)
  {}

  lemma DecideSettles(t: Tables, cfg: Config, m: nat, fetched: Snap, listed: bool, nonce: nat, now: int)
    requires m < |t.inbox| && t.inbox[m].state.Resolving?
    ensures var r := DecideTx(t, cfg, m, fetched, listed, nonce, now);
            m < |r.0.inbox| && if r.1 then r.0.inbox[m].state.Resolving? else Settled(r.0, m)
  {
    var snap := SnapOf(t, m, fetched);
    var t1 := t.(inbox := t.inbox[m := t.inbox[m].(snap := Some(snap), sender := snap.sender)]);
    var b := BindingOf(t1, m);
    if b.Some? && b.value.status.Active? {
      GateSettles(t1, cfg, m, snap, t1.inbox[m].binding.value, Resolving, listed, nonce, now);
    }
  }

  lemma RedecideSettles(t: Tables, cfg: Config, m: nat, fetched: Snap, listed: bool, nonce: nat, now: int)
    requires m < |t.inbox| && t.inbox[m].state.WaitingBinding? && !WaitsForStart(t, m)
    ensures var r := WaitingTx(t, cfg, m, fetched, listed, nonce, now);
            m < |r.0.inbox| && if r.1 then r.0.inbox[m].state.WaitingBinding? else Settled(r.0, m)
  {
    var b := BindingOf(t, m);
    if b.Some? && b.value.status.Active? {
      GateSettles(t, cfg, m, SnapOf(t, m, fetched), t.inbox[m].binding.value, WaitingBinding, listed, nonce, now);
    }
  }

  lemma StoredSettles(t: Tables, cfg: Config, d: Daemon, allowed: set<(nat, nat, Option<nat>)>, now: int)
    requires d.Materializing? && IntakeInvariant.MediaOk(t, d, allowed, cfg.owner)
    ensures var t' := MediaDoneTx(t, cfg, d.msg, d.snap, d.from, d.pending, now);
            d.msg < |t'.inbox| && t'.inbox[d.msg].state.Final()
  {
    var b := BindingOf(t, d.msg);
    if !b.value.status.Active? && d.pending.None? && t.inbox[d.msg].state == d.from {
      assert MediaDoneTx(t, cfg, d.msg, d.snap, d.from, d.pending, now) == TellTx(t, d.msg, d.from, b, now);
    }
  }

  lemma BrokenSettles(t: Tables, owner: nat, d: Daemon, allowed: set<(nat, nat, Option<nat>)>, now: int)
    requires d.Materializing? && IntakeInvariant.MediaOk(t, d, allowed, owner)
    ensures var t' := MediaFailedTx(t, d.msg, d.from, d.pending, now);
            d.msg < |t'.inbox| && t'.inbox[d.msg].state.Final()
  {}

  /** The transaction after a download, however it ended, settles its row. */
  lemma DownloadSettles(w: World, download: Download, now: int)
    requires (hide Next, Run; Coupled(w) && w.daemon.Materializing? && !download.NotYet?)
    ensures var w' := Next(w, DownloadAct(download, now));
            w.daemon.msg < |w'.t.inbox| && w'.t.inbox[w.daemon.msg].state.Final()
  {
    hide Run, StepSender, StepWorker, StepCli, StepHook, StepListener, MediaDoneTx, MediaFailedTx;
    MessageInRange(w);
    if download.Stored? { StoredSettles(w.t, w.cfg, w.daemon, w.hist.allowed, now); }
    else { BrokenSettles(w.t, w.cfg.owner, w.daemon, w.hist.allowed, now); }
  }

  lemma DownloadsSettle(w: World, e: Encounter, m: nat)
    requires (hide Next, Run; Coupled(w) && ForeignEncounter(e) && !e.download.NotYet? && m < |w.t.inbox|)
    requires (w.daemon.Idle? && Settled(w.t, m)) || (w.daemon.Materializing? && w.daemon.msg == m)
    ensures var t' := Run(w, DownloadActs(w, e)).t; m < |t'.inbox| && Settled(t', m)
  {
    hide Next;
    if w.daemon.Materializing? {
      TimesRun(w, e.downloading);
      ForeignLeavesDaemon(w, e.downloading);
      DownloadSettles(Run(w, e.downloading), e.download, e.now);
      RunAppend(w, e.downloading, [DownloadAct(e.download, e.now)]);
      RunIsNext(Run(w, e.downloading), DownloadAct(e.download, e.now));
    }
  }

  /** The decision step leaves the row settled or asks for its download. */
  lemma DecisionStep(w: World, m: nat, fetched: Snap, waiting: bool, e: Encounter)
    requires (hide Next, Run; Ready(w) && m < |w.t.inbox|)
    requires if waiting then w.t.inbox[m].state.Final() || (w.t.inbox[m].state.WaitingBinding? && !WaitsForStart(w.t, m))
             else w.t.inbox[m].state.Resolving?
    ensures var w' := Next(w, DecideAct(m, fetched, waiting, e));
            && m < |w'.t.inbox|
            && ((w'.daemon.Idle? && Settled(w'.t, m)) || (w'.daemon.Materializing? && w'.daemon.msg == m))
  {
    hide Run, StepSender, StepWorker, StepCli, StepHook, StepListener;
    if !waiting {
      DecideSettles(w.t, w.cfg, m, fetched, e.listed, e.nonce, e.now);
    } else if w.t.inbox[m].state.WaitingBinding? {
      RedecideSettles(w.t, w.cfg, m, fetched, e.listed, e.nonce, e.now);
    }
  }

  /** A binding that is past `starting` when the row is read is past it after the fetch. */
  lemma StillPast(w: World, acts: seq<Act>, m: nat)
    requires (hide Next, Run; Coupled(w) && AllForeign(acts) && m < |w.t.inbox| && w.t.inbox[m].state.WaitingBinding?)
    requires !WaitsForStart(w.t, m)
    ensures m < |Run(w, acts).t.inbox|
    ensures var row := Run(w, acts).t.inbox[m];
            row.state.Final() || (row.state.WaitingBinding? && !WaitsForStart(Run(w, acts).t, m))
  {
    hide Next, Run;
    ForeignRows(w, acts);
    TimesRun(w, acts);
    assert IntakeInvariant.RowFits(w.t.inbox[m], w.t.bindings);
    assert RowForeign(w.t.inbox[m], Run(w, acts).t.inbox[m]);
    RowKept(w, acts, w.t.inbox[m].binding.value);
  }

  lemma DecidesSettle(w: World, m: nat, fetched: Snap, waiting: bool, e: Encounter)
    requires (hide Next, Run; Ready(w) && ForeignEncounter(e) && !e.download.NotYet? && m < |w.t.inbox|)
    requires if waiting then w.t.inbox[m].state.WaitingBinding? && !WaitsForStart(w.t, m)
             else w.t.inbox[m].state.Resolving?
    ensures var t' := Run(w, DecideActs(w, m, fetched, waiting, e)).t; m < |t'.inbox| && Settled(t', m)
  {
    hide Next, Run;
    var w1, a := Run(w, e.fetching), DecideAct(m, fetched, waiting, e);
    ForeignReady(w, e.fetching);
    ForeignRows(w, e.fetching);
    if waiting { StillPast(w, e.fetching, m); } else { assert RowForeign(w.t.inbox[m], w1.t.inbox[m]); }
    DecisionStep(w1, m, fetched, waiting, e);
    CoupledStep(w1, a);
    RunAppend(w, e.fetching, [a]);
    RunIsNext(w1, a);
    DownloadsSettle(Next(w1, a), e, m);
    RunAppend(w, e.fetching + [a], DownloadActs(Next(w1, a), e));
  }

  lemma MaterializeSettles(w: World, m: nat, e: Encounter)
    requires (hide Next, Run; Ready(w) && ForeignEncounter(e) && !e.download.NotYet? && m < |w.t.inbox|)
    requires w.t.inbox[m].state.ApprovedMaterializing?
    ensures var t' := Run(w, MaterializeActs(w, m, e)).t; m < |t'.inbox| && Settled(t', m)
  {
    hide Run, StepSender, StepWorker, StepCli, StepHook, StepListener;
    ApprovalIsThere(w, m);
    var a := ByIntake(StartMaterializing(m, Fetched(w.t, m, e)));
    RunIsNext(w, a);
    CoupledStep(w, a);
    DownloadsSettle(Next(w, a), e, m);
    RunAppend(w, [a], DownloadActs(Next(w, a), e));
  }

  lemma ApprovalIsThere(w: World, m: nat)
    requires Coupled(w) && m < |w.t.inbox| && w.t.inbox[m].state.ApprovedMaterializing?
    ensures ApprovedPendingOf(w.t, m).Some? && w.t.inbox[m].snap.Some?
  {
    assert IntakeInvariant.RowFits(w.t.inbox[m], w.t.bindings);
    assert IntakeInvariant.HasPending(w.t.pendings, m);
    var p := PendingOfMsg(w.t.pendings, m, 0);
    assert IntakeInvariant.PendingFits(w.t.pendings[p.value], w.t.inbox, w.t.bindings);
  }

  /** One drive settles a message that can be read and whose download, if it needs one, is not put off. */
  lemma {:induction false} DriveSettles(w: World, m: nat, e: Encounter, readings: nat)
    requires (hide Next, Run;
             Ready(w) && ForeignEncounter(e) && !e.download.NotYet? && m < |w.t.inbox| && Readable(w.t, m, e))
    requires readings >= (if w.t.inbox[m].state.Received? then 2 else 1)
    ensures var t' := Run(w, DriveActs(w, m, e, readings)).t; m < |t'.inbox| && Settled(t', m)
    decreases readings
  {
    match w.t.inbox[m].state
    case Received =>
      var a := ByIntake(StartResolving(m, e.now));
      CoupledStep(w, a);
      DriveSettles(Next(w, a), m, e, readings - 1);
      RunIsNext(w, a);
      RunAppend(w, [a], DriveActs(Next(w, a), m, e, readings - 1));
    case Resolving => DecidesSettle(w, m, Fetched(w.t, m, e), false, e);
    case WaitingBinding => if !WaitsForStart(w.t, m) { DecidesSettle(w, m, Fetched(w.t, m, e), true, e); }
    case ApprovedMaterializing => MaterializeSettles(w, m, e);
    case _ =>
  }

  // ---- Past the deadline ----

  /** The row is past the deadline of its state, or waits for a download its binding can no longer use. */
  predicate PastDeadline(t: Tables, m: nat, now: int)
    requires m < |t.inbox|
  {
    || ((t.inbox[m].state.Received? || t.inbox[m].state.Resolving?) && now - t.inbox[m].ts > RESOLVE_DEADLINE_MS)
    || (t.inbox[m].state.ApprovedMaterializing?
        && (now - t.inbox[m].ts > MATERIALIZE_DEADLINE_MS
            || BindingOf(t, m).None? || !BindingOf(t, m).value.status.Active?))
  }

  /** Re-driving closes such a row and does not drive it. */
  lemma RedriveCloses(w: World, m: nat, now: int, e: Encounter)
    requires (hide Next, Run; Ready(w) && m < |w.t.inbox| && PastDeadline(w.t, m, now))
    ensures RedriveActs(w, m, now, e) == Closers(m, now)
    ensures var t' := Run(w, Closers(m, now)).t; m < |t'.inbox| && t'.inbox[m].state.Final()
  {
    hide Run, StepSender, StepIntake, StepCli, StepHook, StepListener;
    var c := Closers(m, now);
    ThreeSteps(w, c[0], c[1], c[2]);
  }

  /** Re-driving settles a readable row like driving does. */
  lemma RedriveSettles(w: World, m: nat, now: int, e: Encounter)
    requires (hide Next, Run;
             Ready(w) && ForeignEncounter(e) && !e.download.NotYet? && m < |w.t.inbox| && Readable(w.t, m, e))
    ensures var t' := Run(w, RedriveActs(w, m, now, e)).t; m < |t'.inbox| && Settled(t', m)
  {
    hide Run, StepSender, StepIntake, StepCli, StepHook, StepListener;
    var c := Closers(m, now);
    var w1 := Run(w, c);
    ThreeSteps(w, c[0], c[1], c[2]);
    ClosersReady(w, m, now);
    DriveSettles(w1, m, e, READINGS);
    RunAppend(w, c, DriveActs(w1, m, e, READINGS));
  }
}
