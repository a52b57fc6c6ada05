/** lib/recovery.py as it runs: the daemon's fast and slow ticks as loops over the rows each sweep selected, with other
    processes at work between any two rows. */
module RecoveryOps {
  import opened Schema
  import opened World
  import opened Jobs
  import opened OutboundTx
  import opened InboundTx
  import opened RecoveryTx
  import opened Machine
  import opened Scripts
  import opened System
  import opened LifecycleOps
  import opened InboundOps
  import opened Reach
  import Drives
  import Ticks

  // ---- One row of each sweep, one transaction each ----

  method ExpireOne(s: System, p: nat, now: int)
    requires (hide Next, Run; s.daemon.Idle?)
    modifies s
    ensures s.W() == Next(old(s.W()), ByWorker(PendingTimeout(p, now)))
  {
    hide Run, StepSender, StepIntake, StepCli, StepHook, StepListener;
    if p >= |s.pendings| || !s.pendings[p].state.PPending? || s.pendings[p].msg >= |s.inbox|
       || s.pendings[p].createdAt + PENDING_TTL_MS >= now
    {
      return;
    }
    var t0 := s.T();
    var m := s.pendings[p].msg;
    s.pendings := s.pendings[p := s.pendings[p].(state := PExpired)];
    var _ := Cas(s, m, AwaitingApproval, Expired, now);
    s.jobs := AddJob(s.jobs, DecisionJob(t0, m, p, ExpectPend(PExpired), now));
  }

  method RearmOne(s: System, j: nat, now: int)
    requires (hide Next, Run; s.daemon.Idle?)
    modifies s
    ensures s.W() == Next(old(s.W()), ByWorker(Rearm(j, now)))
  {
    hide Run, StepSender, StepIntake, StepCli, StepHook, StepListener;
    if j >= |s.jobs| || !CardAwaited(s.T(), s.jobs[j]) { return; }
    var job := s.jobs[j];
    if job.attempts >= CARD_REARM_MAX_ATTEMPTS {
      s.jobs := s.jobs[j := job.(error := GivenUp)];
    } else if BindingActive(s.T(), job.binding) {
      s.jobs := s.jobs[j := job.(state := Queued, next := Some(now + CardDelay(job.attempts)))];
    }
  }

  method ReplenishOne(s: System, p: nat, now: int)
    requires (hide Next, Run; s.daemon.Idle?)
    modifies s
    ensures s.W() == Next(old(s.W()), ByWorker(Replenish(p, now)))
  {
    hide Run, StepSender, StepIntake, StepCli, StepHook, StepListener;
    if p >= |s.pendings| || !s.pendings[p].state.PPending? || s.pendings[p].msg >= |s.inbox| { return; }
    var found := JobWithKey(s.jobs, KCard(p), 0);
    if found.None? {
      s.jobs := AddJob(s.jobs, CardJob(s.inbox[s.pendings[p].msg].chat, s.pendings[p].binding, p, now));
    } else if s.pendings[p].card.None? && s.jobs[found.value].state.Sent? && s.jobs[found.value].sentMsg.Some? {
      s.pendings := s.pendings[p := s.pendings[p].(card := s.jobs[found.value].sentMsg)];
    }
  }

  method GiveUpResolving(s: System, m: nat, now: int)
    requires (hide Next, Run; s.daemon.Idle?)
    modifies s
    ensures s.W() == Next(old(s.W()), ByWorker(ResolveTimeout(m, now)))
  {
    hide Run, StepSender, StepIntake, StepCli, StepHook, StepListener;
    if m < |s.inbox| && (s.inbox[m].state.Received? || s.inbox[m].state.Resolving?)
       && now - s.inbox[m].ts > RESOLVE_DEADLINE_MS
    {
      s.inbox := s.inbox[m := s.inbox[m].(state := FailedIn, ts := now)];
    }
  }

  method AbandonMaterializing(s: System, m: nat, now: int)
    requires (hide Next, Run; s.daemon.Idle?)
    modifies s
    ensures s.W() == Next(old(s.W()), ByWorker(Orphaned(m, now)))
  {
    hide Run, StepSender, StepIntake, StepCli, StepHook, StepListener;
    if m < |s.inbox| && s.inbox[m].state.ApprovedMaterializing? {
      var b := BindingOf(s.T(), m);
      if b.None? || !b.value.status.Active? {
        s.inbox := s.inbox[m := s.inbox[m].(state := Undeliverable, ts := now)];
      }
    }
  }

  method GiveUpMaterializing(s: System, m: nat, now: int)
    requires (hide Next, Run; s.daemon.Idle?)
    modifies s
    ensures s.W() == Next(old(s.W()), ByWorker(MaterializeTimeout(m, now)))
  {
    hide Run, StepSender, StepIntake, StepCli, StepHook, StepListener;
    if m < |s.inbox| && s.inbox[m].state.ApprovedMaterializing? && now - s.inbox[m].ts > MATERIALIZE_DEADLINE_MS {
      var t0 := s.T();
      s.inbox := s.inbox[m := s.inbox[m].(state := FailedIn, ts := now)];
      var p := PendingOfMsg(s.pendings, m, 0);
      if p.Some? { s.jobs := AddJob(s.jobs, DecisionJob(t0, m, p.value, ExpectInbox(FailedIn), now)); }
    }
  }

  method ExpireOneBind(s: System, r: nat, now: int)
    requires (hide Next, Run; s.daemon.Idle?)
    modifies s
    ensures s.W() == Next(old(s.W()), ByWorker(BindingTimeout(r, now)))
  {
    hide Run, StepSender, StepIntake, StepCli, StepHook, StepListener;
    if r < |s.binds| && s.binds[r].state.BPending? && s.binds[r].expires < now {
      s.binds := s.binds[r := s.binds[r].(state := BExpired, latch := false)];
      var _ := TerminateInTx(s, r, BindTimeout, Closed, now);
    }
  }

  method CloseOneOrphan(s: System, b: nat, now: int)
    requires (hide Next, Run; s.daemon.Idle?)
    modifies s
    ensures s.W() == Next(old(s.W()), ByWorker(CloseStray(b, now)))
  {
    hide Run, StepSender, StepIntake, StepCli, StepHook, StepListener;
    if OrphanStarting(s.T(), b) {
      var _ := TerminateInTx(s, b, BindTimeout, Closed, now);
    }
  }

  method ActivateOneBinding(s: System, b: nat, now: int)
    requires (hide Next, Run; s.daemon.Idle?)
    modifies s
    ensures s.W() == Next(old(s.W()), ByWorker(ActivateOne(b, now)))
  {
    hide Run, StepSender, StepIntake, StepCli, StepHook, StepListener;
    ActivateWhenReady(s, b, now);
  }

  // ---- The bulk updates ----

  /** _reclaim_leases looks at each binding as it writes. */
  method ReclaimExpiredLeases(s: System, now: int)
    requires (hide Next, Run; s.daemon.Idle?)
    modifies s
    ensures s.W() == Next(old(s.W()), ByWorker(Reclaim(now)))
  {
    hide Run, StepSender, StepIntake, StepCli, StepHook, StepListener;
    ghost var t0 := s.T();
    var d := 0;
    while d < |s.deliveries|
      invariant d <= |s.deliveries| == |t0.deliveries| && s.W() == old(s.W()).(t := t0.(deliveries := s.deliveries))
      invariant forall i :: 0 <= i < d ==> s.deliveries[i] == ReclaimRow(t0.deliveries[i], t0.bindings, now)
      invariant forall i :: d <= i < |s.deliveries| ==> s.deliveries[i] == t0.deliveries[i]
    {
      var row := s.deliveries[d];
      if row.state.DLeased? && row.leaseUntil.Some? && row.leaseUntil.value < now {
        var active := row.binding < |s.bindings| && s.bindings[row.binding].status.Active?;
        s.deliveries := s.deliveries[d := row.(state := if active then DEnqueued else DDropped, token := None,
                                               leaseEpoch := None, leaseUntil := None)];
      }
      d := d + 1;
    }
    assert s.deliveries == ReclaimLeases(t0, now).deliveries;
  }

  method SweepStrandedDeliveries(s: System)
    requires (hide Next, Run; s.daemon.Idle?)
    modifies s
    ensures s.W() == Next(old(s.W()), ByWorker(SweepDeliveries))
  {
    hide Run, StepSender, StepIntake, StepCli, StepHook, StepListener;
    ghost var t0 := s.T();
    var d := 0;
    while d < |s.deliveries|
      invariant d <= |s.deliveries| == |t0.deliveries| && s.W() == old(s.W()).(t := t0.(deliveries := s.deliveries))
      invariant forall i :: 0 <= i < d ==> s.deliveries[i] == SweepStranded(t0).deliveries[i]
      invariant forall i :: d <= i < |s.deliveries| ==> s.deliveries[i] == t0.deliveries[i]
    {
      var row := s.deliveries[d];
      if row.state.DEnqueued? && row.binding < |s.bindings| && !s.bindings[row.binding].status.Live() {
        s.deliveries := s.deliveries[d := row.(state := DDropped)];
      }
      d := d + 1;
    }
    assert s.deliveries == SweepStranded(t0).deliveries;
  }

  method RescueStaleSending(s: System, now: int)
    requires (hide Next, Run; s.daemon.Idle?)
    modifies s
    ensures s.W() == Next(old(s.W()), ByWorker(RescueSending(now)))
  {
    hide Run, StepSender, StepIntake, StepCli, StepHook, StepListener;
    ghost var t0 := s.T();
    var j := 0;
    while j < |s.jobs|
      invariant j <= |s.jobs| == |t0.jobs| && s.W() == old(s.W()).(t := t0.(jobs := s.jobs))
      invariant forall i :: 0 <= i < j ==> s.jobs[i] == LegacySending(t0.jobs, now)[i]
      invariant forall i :: j <= i < |s.jobs| ==> s.jobs[i] == t0.jobs[i]
    {
      var job := s.jobs[j];
      if job.state.Sending? && job.sendingAt.Some? && job.sendingAt.value < now - 2 * SEND_TIMEOUT_MS {
        s.jobs := s.jobs[j := job.(state := Unknown, error := StaleSending, next := Some(now))];
      }
      j := j + 1;
    }
    assert s.jobs == LegacySending(t0.jobs, now);
  }

  /** _retention: finished rows lose their bodies. */
  method TrimFinished(s: System, now: int)
    requires (hide Next, Run; s.daemon.Idle?)
    modifies s
    ensures s.W() == Next(old(s.W()), ByWorker(Retain(now)))
  {
    hide Run, StepSender, StepIntake, StepCli, StepHook, StepListener;
    ghost var t0 := s.T();
    var cutoff := now - RETENTION_MS;
    TrimInboxRows(s, cutoff);
    TrimDeliveryRows(s, cutoff);
    TrimJobRows(s, cutoff);
    assert s.inbox == Retention(t0, now).inbox;
    assert s.deliveries == Retention(t0, now).deliveries;
    assert s.jobs == Retention(t0, now).jobs;
  }

  method TrimInboxRows(s: System, cutoff: int)
    modifies s`inbox
    ensures |s.inbox| == |old(s.inbox)|
    ensures forall i :: 0 <= i < |s.inbox| ==> s.inbox[i] == TrimInbox(old(s.inbox)[i], cutoff)
  {
    var m := 0;
    while m < |s.inbox|
      invariant m <= |s.inbox| == |old(s.inbox)|
      invariant forall i :: 0 <= i < m ==> s.inbox[i] == TrimInbox(old(s.inbox)[i], cutoff)
      invariant forall i :: m <= i < |s.inbox| ==> s.inbox[i] == old(s.inbox)[i]
    {
      if s.inbox[m].state.Final() && s.inbox[m].ts < cutoff { s.inbox := s.inbox[m := s.inbox[m].(snap := None)]; }
      m := m + 1;
    }
  }

  method TrimDeliveryRows(s: System, cutoff: int)
    modifies s`deliveries
    ensures |s.deliveries| == |old(s.deliveries)|
    ensures forall i :: 0 <= i < |s.deliveries| ==> s.deliveries[i] == TrimDelivery(old(s.deliveries)[i], cutoff)
  {
    var d := 0;
    while d < |s.deliveries|
      invariant d <= |s.deliveries| == |old(s.deliveries)|
      invariant forall i :: 0 <= i < d ==> s.deliveries[i] == TrimDelivery(old(s.deliveries)[i], cutoff)
      invariant forall i :: d <= i < |s.deliveries| ==> s.deliveries[i] == old(s.deliveries)[i]
    {
      var row := s.deliveries[d];
      if (row.state.DEmitted? || row.state.DDropped?) && row.enqAt < cutoff {
        s.deliveries := s.deliveries[d := row.(payload := None)];
      }
      d := d + 1;
    }
  }

  method TrimJobRows(s: System, cutoff: int)
    modifies s`jobs
    ensures |s.jobs| == |old(s.jobs)|
    ensures forall i :: 0 <= i < |s.jobs| ==> s.jobs[i] == TrimJob(old(s.jobs)[i], cutoff)
  {
    var j := 0;
    while j < |s.jobs|
      invariant j <= |s.jobs| == |old(s.jobs)|
      invariant forall i :: 0 <= i < j ==> s.jobs[i] == TrimJob(old(s.jobs)[i], cutoff)
      invariant forall i :: j <= i < |s.jobs| ==> s.jobs[i] == old(s.jobs)[i]
    {
      if s.jobs[j].state.Terminal() && s.jobs[j].createdAt < cutoff { s.jobs := s.jobs[j := s.jobs[j].(body := None)]; }
      j := j + 1;
    }
  }

  // ---- The ticks ----

  method Meanwhile(s: System, acts: seq<Act>)
    requires (hide Next, Run; s.Valid() && s.daemon.Idle? && AllForeign(acts))
    modifies s
    ensures s.Valid() && s.daemon.Idle? && s.W() == Run(old(s.W()), acts)
  {
    hide Next, Run;
    ghost var w := s.W();
    s.Others(acts);
    ForeignLeavesDaemon(w, acts);
  }

  /** One transaction of the worker. */
  method Work(s: System, a: WorkerAct)
    requires (hide Next, Run; s.Valid() && s.daemon.Idle? && !a.ScanDeaths? && !a.JudgeNext?)
    modifies s
    ensures s.Valid() && s.daemon.Idle? && s.W() == Next(old(s.W()), ByWorker(a))
  {
    hide Next, Run;
    ghost var w := s.W();
    match a {
      case ResolveTimeout(m, now) => GiveUpResolving(s, m, now);
      case Replenish(p, now) => ReplenishOne(s, p, now);
      case Rearm(j, now) => RearmOne(s, j, now);
      case Orphaned(m, now) => AbandonMaterializing(s, m, now);
      case MaterializeTimeout(m, now) => GiveUpMaterializing(s, m, now);
      case PendingTimeout(p, now) => ExpireOne(s, p, now);
      case BindingTimeout(r, now) => ExpireOneBind(s, r, now);
      case CloseStray(b, now) => CloseOneOrphan(s, b, now);
      case Reclaim(now) => ReclaimExpiredLeases(s, now);
      case SweepDeliveries => SweepStrandedDeliveries(s);
      case RescueSending(now) => RescueStaleSending(s, now);
      case Retain(now) => TrimFinished(s, now);
      case ActivateOne(b, now) => ActivateOneBinding(s, b, now);
    }
    WorkEnds(w, a);
    ReachedNext(w, ByWorker(a));
  }

  lemma WorkEnds(w: World, a: WorkerAct)
    requires w.daemon.Idle? && !a.ScanDeaths? && !a.JudgeNext?
    ensures Next(w, ByWorker(a)).daemon.Idle?
  {
    hide Run, StepSender, StepIntake, StepCli, StepHook, StepListener;
  }

  /** One row of a sweep: others first, then the row's transaction. */
  method Visit(s: System, c: Weather, sweep: RowSweep, k: nat)
    requires (hide Next, Run; s.Valid() && s.daemon.Idle? && ForeignWeather(c))
    modifies s
    ensures s.Valid() && s.daemon.Idle? && s.W() == Run(old(s.W()), RowVisit(c, sweep, k))
  {
    hide Next, Run;
    ghost var w0 := s.W();
    var others, a := PauseAt(c, sweep, k).others, RowAct(sweep, k, ClockAt(c, sweep, k));
    Meanwhile(s, others);
    RunAppend(w0, others, [ByWorker(a)]);
    RunIsNext(s.W(), ByWorker(a));
    Work(s, a);
  }

  /** One turn of that loop. */
  method SweepTurn(s: System, c: Weather, sweep: RowSweep, k: nat, n: nat, ghost end: World)
    requires (hide Next, Run; s.Valid() && s.daemon.Idle? && ForeignWeather(c) && k < n)
    requires Run(s.W(), SweepActs(c, sweep, k, n)) == end
    modifies s
    ensures s.Valid() && s.daemon.Idle? && Run(s.W(), SweepActs(c, sweep, k + 1, n)) == end
  {
    hide Next, Run;
    RunAppend(s.W(), RowVisit(c, sweep, k), SweepActs(c, sweep, k + 1, n));
    Visit(s, c, sweep, k);
  }

  /** The loop of a sweep over the rows there were when it looked, each visited once and in order. */
  method SweepRows(s: System, c: Weather, sweep: RowSweep)
    requires (hide Next, Run; s.Valid() && s.daemon.Idle? && ForeignWeather(c))
    modifies s
    ensures s.Valid() && s.daemon.Idle?
    ensures s.W() == Run(old(s.W()), SweepActs(c, sweep, 0, RowCount(old(s.T()), sweep)))
  {
    hide Next;
    var n := RowCount(s.T(), sweep);
    ghost var end := Run(s.W(), SweepActs(c, sweep, 0, n));
    var k := 0;
    while k < n
      invariant k <= n && s.Valid() && s.daemon.Idle?
      invariant Run(s.W(), SweepActs(c, sweep, k, n)) == end
    {
      SweepTurn(s, c, sweep, k, n, end);
      k := k + 1;
    }
  }

  /** _redrive_resolving and _redrive_materializing on one row: past its deadline or orphaned it is closed, and a closed
      row is not driven. */
  method RedriveOne(s: System, m: nat, now: int, e: Encounter)
    requires (hide Next, Run; s.Valid() && s.daemon.Idle? && ForeignEncounter(e))
    modifies s
    ensures s.Valid() && s.daemon.Idle? && s.W() == Run(old(s.W()), RedriveActs(old(s.W()), m, now, e))
    ensures old(m < |s.inbox| && Drives.PastDeadline(s.T(), m, now)) ==>
              m < |s.inbox| && s.inbox[m].state.Final() && s.W() == Run(old(s.W()), Closers(m, now))
    ensures old(m < |s.inbox| && Readable(s.T(), m, e)) && !e.download.NotYet? ==>
              m < |s.inbox| && Drives.Settled(s.T(), m)
  {
    hide Next, Run;
    ghost var w0 := s.W();
    RedriveDoes(w0, m, now, e);
    Work(s, ResolveTimeout(m, now));
    Work(s, Orphaned(m, now));
    Work(s, MaterializeTimeout(m, now));
    ThreeSteps(w0, Closers(m, now)[0], Closers(m, now)[1], Closers(m, now)[2]);
    RunAppend(w0, Closers(m, now), DriveActs(s.W(), m, e, READINGS));
    DriveRow(s, m, e);
  }

  lemma RedriveDoes(w: World, m: nat, now: int, e: Encounter)
    requires (hide Next, Run; Reached(w) && w.daemon.Idle? && ForeignEncounter(e))
    ensures m < |w.t.inbox| && Drives.PastDeadline(w.t, m, now) ==>
              RedriveActs(w, m, now, e) == Closers(m, now)
              && m < |Run(w, Closers(m, now)).t.inbox| && Run(w, Closers(m, now)).t.inbox[m].state.Final()
    ensures m < |w.t.inbox| && Readable(w.t, m, e) && !e.download.NotYet? ==>
              var t' := Run(w, RedriveActs(w, m, now, e)).t; m < |t'.inbox| && Drives.Settled(t', m)
  {
    hide *;
    ReadyWhenReached(w);
    if m < |w.t.inbox| && Drives.PastDeadline(w.t, m, now) { Drives.RedriveCloses(w, m, now, e); }
    if m < |w.t.inbox| && Readable(w.t, m, e) && !e.download.NotYet? { Drives.RedriveSettles(w, m, now, e); }
  }

  /** One selected row, after others. */
  method DriveOne(s: System, m: nat, closing: bool, now: int, e: Encounter)
    requires (hide Next, Run; s.Valid() && s.daemon.Idle? && ForeignEncounter(e))
    modifies s
    ensures s.Valid() && s.daemon.Idle? && s.W() == Run(old(s.W()), RowActs(old(s.W()), m, closing, now, e))
  {
    hide Next, Run;
    ghost var w0 := s.W();
    Meanwhile(s, e.before);
    ghost var w1 := s.W();
    if closing {
      RedriveOne(s, m, now, e);
      RunAppend(w0, e.before, RedriveActs(w1, m, now, e));
    } else {
      DriveRow(s, m, e);
      RunAppend(w0, e.before, DriveActs(w1, m, e, READINGS));
    }
  }

  /** One row read, driven if it was selected. */
  method DriveTurn(s: System, rows: seq<Inbox>, m: nat, states: set<InboxState>, closing: bool,
                   encounters: seq<Encounter>, now: int, ghost end: World)
    requires (hide Next, Run; s.Valid() && s.daemon.Idle? && ForeignEncounters(encounters) && m < |rows|)
    requires Run(s.W(), DriveRowsActs(s.W(), rows, m, states, closing, encounters, now)) == end
    modifies s
    ensures s.Valid() && s.daemon.Idle?
    ensures Run(s.W(), DriveRowsActs(s.W(), rows, m + 1, states, closing, encounters, now)) == end
  {
    hide Next, Run;
    if rows[m].state in states {
      var e := EncounterAt(encounters, m, now);
      ghost var w := s.W();
      DriveOne(s, m, closing, now, e);
      RunAppend(w, RowActs(w, m, closing, now, e),
                DriveRowsActs(s.W(), rows, m + 1, states, closing, encounters, now));
    }
  }

  /** drive_waiting_rows, and the re-driving of rows in other states: each selected row has its turn once, in order. */
  method DriveRows(s: System, states: set<InboxState>, closing: bool, encounters: seq<Encounter>, now: int)
    requires (hide Next, Run; s.Valid() && s.daemon.Idle? && ForeignEncounters(encounters))
    modifies s
    ensures s.Valid() && s.daemon.Idle?
    ensures s.W() == Run(old(s.W()), DriveRowsActs(old(s.W()), old(s.inbox), 0, states, closing, encounters, now))
  {
    hide Next;
    var rows := s.inbox;
    ghost var end := Run(s.W(), DriveRowsActs(s.W(), rows, 0, states, closing, encounters, now));
    var m := 0;
    while m < |rows|
      invariant m <= |rows| && s.Valid() && s.daemon.Idle?
      invariant Run(s.W(), DriveRowsActs(s.W(), rows, m, states, closing, encounters, now)) == end
    {
      DriveTurn(s, rows, m, states, closing, encounters, now, end);
      m := m + 1;
    }
  }

  method ScanForDeaths(s: System, c: Weather)
    requires (hide Next, Run; s.Valid() && s.daemon.Idle? && ForeignWeather(c))
    modifies s
    ensures s.Valid() && s.daemon.Idle?
    ensures s.W() == Run(old(s.W()), ScanRun(c.now, Padded(c.glances, |old(s.bindings)|, c.now), c.inSuspectWindow))
  {
    hide Next, Run;
    var glances := Padded(c.glances, |s.bindings|, c.now);
    ReachedRun(s.W(), ScanRun(c.now, glances, c.inSuspectWindow));
    var _ := DeathScan(s, c.now, glances, c.inSuspectWindow);
  }

  method Perform(s: System, stage: Stage, c: Weather)
    requires (hide Next, Run; s.Valid() && s.daemon.Idle? && ForeignWeather(c))
    requires stage.Bulk? ==> !stage.bulk.ScanDeaths? && !stage.bulk.JudgeNext?
    modifies s
    ensures s.Valid() && s.daemon.Idle? && s.W() == Run(old(s.W()), StageActs(old(s.W()), stage, c))
  {
    hide Next, Run;
    match stage {
      case Rows(sweep) => SweepRows(s, c, sweep);
      case DriveWaiting => DriveRows(s, {WaitingBinding}, false, c.waiting, c.now);
      case Redrive(states) => DriveRows(s, states, true, c.others, c.now);
      case Scan => ScanForDeaths(s, c);
      case Bulk(act) => RunIsNext(s.W(), ByWorker(act)); Work(s, act);
    }
  }

  /** One statement of a tick, after others. */
  method PerformAfter(s: System, stage: Stage, c: Weather, gap: seq<Act>)
    requires (hide Next, Run; s.Valid() && s.daemon.Idle? && ForeignWeather(c) && AllForeign(gap))
    requires stage.Bulk? ==> !stage.bulk.ScanDeaths? && !stage.bulk.JudgeNext?
    modifies s
    ensures s.Valid() && s.daemon.Idle?
    ensures s.W() == Run(old(s.W()), gap + StageActs(Run(old(s.W()), gap), stage, c))
  {
    hide *;
    ghost var w := s.W();
    Meanwhile(s, gap);
    RunAppend(w, gap, StageActs(s.W(), stage, c));
    Perform(s, stage, c);
  }

  method StageTurn(s: System, stages: seq<Stage>, k: nat, c: Weather, ghost end: World)
    requires (hide Next, Run; s.Valid() && s.daemon.Idle? && ForeignWeather(c) && k < |stages|)
    requires stages[k].Bulk? ==> !stages[k].bulk.ScanDeaths? && !stages[k].bulk.JudgeNext?
    requires Run(s.W(), StagesActs(s.W(), stages, k, c)) == end
    modifies s
    ensures s.Valid() && s.daemon.Idle? && Run(s.W(), StagesActs(s.W(), stages, k + 1, c)) == end
  {
    hide Next, Run;
    StagesUnfold(s.W(), stages, k, c);
    PerformAfter(s, stages[k], c, GapAt(c.between, k));
  }

  /** The statements of a tick one after another, others in between. */
  method PerformAll(s: System, stages: seq<Stage>, c: Weather)
    requires (hide Next, Run; s.Valid() && s.daemon.Idle? && ForeignWeather(c))
    requires forall k :: 0 <= k < |stages| && stages[k].Bulk? ==> !stages[k].bulk.ScanDeaths? && !stages[k].bulk.JudgeNext?
    modifies s
    ensures s.Valid() && s.daemon.Idle? && s.W() == Run(old(s.W()), StagesActs(old(s.W()), stages, 0, c))
  {
    hide Next;
    ghost var end := Run(s.W(), StagesActs(s.W(), stages, 0, c));
    var k := 0;
    while k < |stages|
      invariant k <= |stages| && s.Valid() && s.daemon.Idle?
      invariant Run(s.W(), StagesActs(s.W(), stages, k, c)) == end
    {
      StageTurn(s, stages, k, c, end);
      k := k + 1;
    }
  }

  lemma StagesUnfold(w: World, stages: seq<Stage>, k: nat, c: Weather)
    requires (hide Next, Run; k < |stages|)
    ensures var gap := GapAt(c.between, k);
            var w1 := Run(w, gap + StageActs(Run(w, gap), stages[k], c));
            Run(w, StagesActs(w, stages, k, c)) == Run(w1, StagesActs(w1, stages, k + 1, c))
  {
    hide Next, Run;
    var gap := GapAt(c.between, k);
    var one := gap + StageActs(Run(w, gap), stages[k], c);
    RunAppend(w, one, StagesActs(Run(w, one), stages, k + 1, c));
  }

  /** fast_tick: activate confirmed bindings, drive waiting messages, scan for deaths. No binding confirmed more than 30 s
      before its row's turn is starting afterwards. */
  method FastTick(s: System, c: Weather)
    requires (hide Next, Run; s.Valid() && s.daemon.Idle? && ForeignWeather(c))
    modifies s
    ensures s.Valid() && s.daemon.Idle? && s.W() == Run(old(s.W()), FastTickActs(old(s.W()), c))
    ensures forall b :: 0 <= b < |old(s.bindings)|
                        && Ticks.PastActivation(old(s.bindings)[b], ClockAt(c, Activations, b)) ==>
              b < |s.bindings| && !s.bindings[b].status.Starting?
  {
    hide Next, Run;
    ghost var w0 := s.W();
    PerformAll(s, FAST, c);
    ReadyWhenReached(w0);
    forall b | 0 <= b < |w0.t.bindings| && Ticks.PastActivation(w0.t.bindings[b], ClockAt(c, Activations, b))
      ensures b < |s.bindings| && !s.bindings[b].status.Starting?
    {
      Ticks.FastTickEndsStarting(w0, c, b);
    }
  }

  /** slow_tick: waiting messages first, the sweeps, the leases, the two safety nets and the retention. No binding whose
      request had run out before its row's turn is starting and unconfirmed afterwards. */
  method SlowTick(s: System, c: Weather)
    requires (hide Next, Run; s.Valid() && s.daemon.Idle? && ForeignWeather(c))
    modifies s
    ensures s.Valid() && s.daemon.Idle? && s.W() == Run(old(s.W()), SlowTickActs(old(s.W()), c))
    ensures forall b :: 0 <= b < |old(s.bindings)| && b < |old(s.binds)|
                        && old(s.binds)[b].expires < ClockAt(c, Binds, b) ==>
              b < |s.bindings| && !Ticks.Unconfirmed(s.bindings[b])
  {
    hide Next, Run;
    ghost var w0 := s.W();
    PerformAll(s, Slow(c.now), c);
    ReadyWhenReached(w0);
    forall b | 0 <= b < |w0.t.bindings| && b < |w0.t.binds| && w0.t.binds[b].expires < ClockAt(c, Binds, b)
      ensures b < |s.bindings| && !Ticks.Unconfirmed(s.bindings[b])
    {
      Ticks.SlowTickEndsWaiting(w0, c, b);
    }
  }
}
