/** lib/outbound.py as it runs: the sender's loops over the queue, with the other processes at work in between. */
module OutboundOps {
  import opened Schema
  import opened World
  import opened Jobs
  import opened OutboundTx
  import opened Machine
  import opened Scripts
  import opened System
  import opened Reach
  import QueueClaims
  import QueueInvariant
  import Progress
  import SendLaws

  // ---- startup_scan ----

  method SelectOverCap(js: seq<Job>) returns (rows: seq<nat>)
    ensures rows == ReconcileRows(js)
  {
    rows := [];
    var j: nat := |js|;
    while j > 0
      invariant j <= |js|
      invariant rows == SelectRows(js, j, NeedsReconcile)
    {
      j := j - 1;
      if NeedsReconcile(js[j]) { rows := [j] + rows; }
    }
  }

  /** One UPDATE of steps 2 to 5. */
  method SweepStage(s: System, stage: nat, now: int)
    requires 2 <= stage <= 5
    modifies s`jobs
    ensures s.jobs == SweepAll(stage, old(s.jobs), now)
  {
    var j := 0;
    while j < |s.jobs|
      invariant j <= |s.jobs| == |old(s.jobs)|
      invariant forall i :: 0 <= i < j ==> s.jobs[i] == Sweep(stage, old(s.jobs)[i], now)
      invariant forall i :: j <= i < |s.jobs| ==> s.jobs[i] == old(s.jobs)[i]
    {
      var job := s.jobs[j];
      if stage == 2 {
        if job.state.Sending? && !job.kind.SessionTurn? && job.attempts >= MAX_SEND_ATTEMPTS {
          s.jobs := s.jobs[j := job.(state := Unknown, error := CrashedMidSend, next := None)];
        }
      } else if stage == 3 {
        if job.state.Sending? {
          s.jobs := s.jobs[j := job.(state := Unknown, error := CrashedMidSend, next := Some(now))];
        }
      } else if stage == 4 {
        if job.state.Unknown? && job.kind.SessionTurn? && job.next.None? && 0 <= job.attempts < TURN_MAX_ATTEMPTS {
          s.jobs := s.jobs[j := job.(next := Some(now))];
        }
      } else {
        if job.state.Unknown? && !job.kind.SessionTurn? && job.attempts >= MAX_SEND_ATTEMPTS {
          s.jobs := s.jobs[j := job.(next := None)];
        }
      }
      j := j + 1;
    }
  }

  method ReconcileOne(s: System, j: nat, now: int)
    requires j < |s.jobs|
    modifies s`jobs
    ensures s.jobs == ReconcileRow(old(s.jobs), j, now)
  {
    var job := s.jobs[j];
    if job.state.Sending? || job.state.Unknown? {
      s.jobs := s.jobs[j := job.(state := Failed, error := Exhausted)];
      if !IsAlertTurn(job) {
        s.jobs := AddJob(s.jobs, AlertFor(s.jobs, j, now));
      }
    }
  }

  /** The scan with nobody else at work, as its specification has it. */
  method ScanAtStartup(s: System, now: int)
    modifies s`jobs
    ensures s.jobs == StartupScan(old(s.jobs), now)
  {
    var rows := SelectOverCap(s.jobs);
    var k := 0;
    while k < |rows|
      invariant k <= |rows| && |old(s.jobs)| <= |s.jobs|
      invariant forall a :: 0 <= a < |rows| ==> rows[a] < |old(s.jobs)|
      invariant ReconcileAll(s.jobs, rows, k, now) == ReconcileAll(old(s.jobs), rows, 0, now)
    {
      ReconcileOne(s, rows[k], now);
      k := k + 1;
    }
    SweepStage(s, 2, now);
    SweepStage(s, 3, now);
    SweepStage(s, 4, now);
    SweepStage(s, 5, now);
  }

  lemma ReconcilingInRange(w: World)
    requires (hide Next, Run; Reached(w) && w.daemon.Reconciling? && w.daemon.k < |w.daemon.rows|)
    ensures w.daemon.rows[w.daemon.k] < |w.t.jobs|
  {
    hide Next, Run;
    SoundWhenReached(w);
  }

  lemma ReconciledOnce(w: World, gaps: seq<seq<Act>>, k: nat, n: nat)
    requires (hide Next, Run; k < n)
    ensures var w1 := Next(Run(w, GapAt(gaps, k)), BySender(ReconcileNext));
            Run(w1, ReconcileActs(gaps, k + 1, n)) == Run(w, ReconcileActs(gaps, k, n))
  {
    hide Next, Run;
    RunAppend(w, GapAt(gaps, k), [BySender(ReconcileNext)]);
    RunIsNext(Run(w, GapAt(gaps, k)), BySender(ReconcileNext));
    RunAppend(w, GapAt(gaps, k) + [BySender(ReconcileNext)], ReconcileActs(gaps, k + 1, n));
  }

  lemma SweptOnce(w: World, gaps: seq<seq<Act>>, n: nat, stage: nat)
    requires (hide Next, Run; stage < 6)
    ensures var w1 := Next(Run(w, GapAt(gaps, n + stage)), BySender(SweepNext));
            Run(w1, SweepingActs(gaps, n, stage + 1)) == Run(w, SweepingActs(gaps, n, stage))
  {
    hide Next, Run;
    RunAppend(w, GapAt(gaps, n + stage), [BySender(SweepNext)]);
    RunIsNext(Run(w, GapAt(gaps, n + stage)), BySender(SweepNext));
    RunAppend(w, GapAt(gaps, n + stage) + [BySender(SweepNext)], SweepingActs(gaps, n, stage + 1));
  }

  lemma StartupRun(w: World, allow: set<nat>, now: int, gaps: seq<seq<Act>>, n: nat)
    ensures (hide Next, Run;
            var w1 := Next(w, BySender(Boot(allow, now)));
            var w2 := Next(Run(w1, ReconcileActs(gaps, 0, n)), BySender(ReconcileNext));
            Run(w, StartupActs(allow, now, gaps, n)) == Run(w2, SweepingActs(gaps, n, 2)))
  {
    hide Next, Run;
    var boot, last, rest := BySender(Boot(allow, now)), [BySender(ReconcileNext)], SweepingActs(gaps, n, 2);
    RunAppend(w, [boot], ReconcileActs(gaps, 0, n) + (last + rest));
    RunIsNext(w, boot);
    RunAppend(Next(w, boot), ReconcileActs(gaps, 0, n), last + rest);
    var w1 := Run(Next(w, boot), ReconcileActs(gaps, 0, n));
    RunAppend(w1, last, rest);
    RunIsNext(w1, last[0]);
  }

  /** One row of step 1, after others. */
  method ReconcileTurn(s: System, gaps: seq<seq<Act>>, k: nat, n: nat, ghost end: World)
    requires (hide Next, Run;
             s.Valid() && s.daemon.Reconciling? && s.daemon.k == k < n == |s.daemon.rows| && ForeignGaps(gaps))
    requires Run(s.W(), ReconcileActs(gaps, k, n)) == end
    modifies s
    ensures s.Valid() && Run(s.W(), ReconcileActs(gaps, k + 1, n)) == end
    ensures s.daemon == Reconciling(old(s.daemon.now), old(s.daemon.rows), k + 1)
  {
    hide Next, Run;
    ReconciledOnce(s.W(), gaps, k, n);
    ReconcileAfter(s, GapAt(gaps, k));
  }

  /** Step 1 over the rows read at the start. */
  method ReconcileRead(s: System, gaps: seq<seq<Act>>)
    requires (hide Next, Run; s.Valid() && s.daemon.Reconciling? && s.daemon.k == 0 && ForeignGaps(gaps))
    modifies s
    ensures s.Valid() && s.W() == Run(old(s.W()), ReconcileActs(gaps, 0, |old(s.daemon.rows)|))
    ensures s.daemon == Reconciling(old(s.daemon.now), old(s.daemon.rows), |old(s.daemon.rows)|)
  {
    hide Next;
    var now, rows := s.daemon.now, s.daemon.rows;
    var n := |rows|;
    ghost var end := Run(s.W(), ReconcileActs(gaps, 0, n));
    var k: nat := 0;
    while k < n
      invariant k <= n == |rows| && s.Valid() && s.daemon == Reconciling(now, rows, k)
      invariant Run(s.W(), ReconcileActs(gaps, k, n)) == end
    {
      ReconcileTurn(s, gaps, k, n, end);
      k := k + 1;
    }
  }

  /** One of steps 2 to 5, after others. */
  method SweepTurn(s: System, gaps: seq<seq<Act>>, n: nat, stage: nat, ghost end: World)
    requires (hide Next, Run;
             s.Valid() && s.daemon.Sweeping? && s.daemon.stage == stage && 2 <= stage <= 5 && ForeignGaps(gaps))
    requires Run(s.W(), SweepingActs(gaps, n, stage)) == end
    modifies s
    ensures s.Valid() && Run(s.W(), SweepingActs(gaps, n, stage + 1)) == end
    ensures s.daemon == if stage < 5 then Sweeping(old(s.daemon.now), stage + 1) else Idle
  {
    hide Next, Run;
    SweptOnce(s.W(), gaps, n, stage);
    SweepAfter(s, GapAt(gaps, n + stage));
  }

  /** Steps 2 to 5. */
  method SweepRead(s: System, gaps: seq<seq<Act>>, n: nat)
    requires (hide Next, Run; s.Valid() && s.daemon.Sweeping? && s.daemon.stage == 2 && ForeignGaps(gaps))
    modifies s
    ensures s.Valid() && s.daemon.Idle? && s.W() == Run(old(s.W()), SweepingActs(gaps, n, 2))
  {
    hide Next;
    ghost var end := Run(s.W(), SweepingActs(gaps, n, 2));
    var now, stage := s.daemon.now, 2;
    while stage <= 5
      invariant 2 <= stage <= 6 && s.Valid()
      invariant s.daemon == if stage <= 5 then Sweeping(now, stage) else Idle
      invariant Run(s.W(), SweepingActs(gaps, n, stage)) == end
    {
      SweepTurn(s, gaps, n, stage, end);
      stage := stage + 1;
    }
  }

  /** A start of the daemon: the scan, with the other processes at work between any two of its statements. It reconciles
      the rows it read first, then takes the four sweeps in order, and leaves the queue in its normal form. */
  method Startup(s: System, allow: set<nat>, now: int, gaps: seq<seq<Act>>)
    requires (hide Next, Run; s.Valid() && s.daemon.Down? && ForeignGaps(gaps))
    modifies s
    ensures s.Valid() && s.daemon.Idle? && QueueClaims.NormalForm(s.jobs)
    ensures s.W() == Run(old(s.W()), StartupActs(allow, now, gaps, |ReconcileRows(old(s.jobs))|))
  {
    hide Run, StepIntake, StepWorker, StepCli, StepHook, StepListener;
    ghost var w0 := s.W();
    s.cfg := s.cfg.(allow := allow);
    var rows := SelectOverCap(s.jobs);
    s.daemon := Reconciling(now, rows, 0);
    ReachedNext(w0, BySender(Boot(allow, now)));
    StartupRun(w0, allow, now, gaps, |rows|);
    ReconcileRead(s, gaps);
    ghost var w1 := s.W();
    s.daemon := Sweeping(now, 2);
    ReachedNext(w1, BySender(ReconcileNext));
    SweepRead(s, gaps, |rows|);
    NormalWhenIdle(s.W());
  }

  lemma NormalWhenIdle(w: World)
    requires Reached(w) && w.daemon.Idle?
    ensures QueueClaims.NormalForm(w.t.jobs)
  {
    hide Next, Run;
    SoundWhenReached(w);
    forall j | 0 <= j < |w.t.jobs| ensures QueueInvariant.RowOk(w.t.jobs[j]) {}
  }

  method ReconcileStep(s: System)
    requires (hide Next, Run; s.Valid() && s.daemon.Reconciling? && s.daemon.k < |s.daemon.rows|)
    modifies s
    ensures s.Valid() && s.W() == Next(old(s.W()), BySender(ReconcileNext))
    ensures var d := old(s.daemon); s.daemon == Reconciling(d.now, d.rows, d.k + 1)
  {
    hide Run, StepIntake, StepWorker, StepCli, StepHook, StepListener;
    ghost var w := s.W();
    ReconcilingInRange(w);
    var d := s.daemon;
    ReconcileOne(s, d.rows[d.k], d.now);
    s.daemon := Reconciling(d.now, d.rows, d.k + 1);
    ReachedNext(w, BySender(ReconcileNext));
  }

  method ReconcileAfter(s: System, before: seq<Act>)
    requires (hide Next, Run; s.Valid() && s.daemon.Reconciling? && s.daemon.k < |s.daemon.rows| && AllForeign(before))
    modifies s
    ensures s.Valid() && s.W() == Next(Run(old(s.W()), before), BySender(ReconcileNext))
    ensures var d := old(s.daemon); s.daemon == Reconciling(d.now, d.rows, d.k + 1)
  {
    hide Next, Run;
    ghost var w0 := s.W();
    s.Others(before);
    ForeignLeavesDaemon(w0, before);
    ReconcileStep(s);
  }

  method SweepAfter(s: System, before: seq<Act>)
    requires (hide Next, Run; s.Valid() && s.daemon.Sweeping? && 2 <= s.daemon.stage <= 5 && AllForeign(before))
    modifies s
    ensures s.Valid() && s.W() == Next(Run(old(s.W()), before), BySender(SweepNext))
    ensures var d := old(s.daemon); s.daemon == if d.stage < 5 then Sweeping(d.now, d.stage + 1) else Idle
  {
    hide Run, StepIntake, StepWorker, StepCli, StepHook, StepListener;
    ghost var w0 := s.W();
    s.Others(before);
    ForeignLeavesDaemon(w0, before);
    ghost var w1 := s.W();
    var d := s.daemon;
    SweepStage(s, d.stage, d.now);
    s.daemon := if d.stage < 5 then Sweeping(d.now, d.stage + 1) else Idle;
    ReachedNext(w1, BySender(SweepNext));
  }

  // ---- _prepare ----

  /** The job whose group and chunk number come just before. */
  method FindPrevious(s: System, j: nat) returns (prev: Option<nat>)
    requires j < |s.jobs|
    ensures prev == PrevChunk(s.jobs, j)
  {
    var i: nat := |s.jobs|;
    prev := None;
    while i > 0
      invariant i <= |s.jobs| && prev == FirstChunk(s.jobs, j, i)
    {
      i := i - 1;
      if s.jobs[i].group == s.jobs[j].group && s.jobs[i].chunk + 1 == s.jobs[j].chunk { prev := Some(i); }
    }
  }

  method FindBlocker(s: System, j: nat, notices: bool) returns (found: bool)
    requires j < |s.jobs|
    ensures found <==> if notices then EarlierNoticeOpen(s.jobs, j) else EarlierTurnInDoubt(s.jobs, j)
  {
    var job := s.jobs[j];
    var i := 0;
    while i < j
      invariant i <= j
      invariant forall k :: 0 <= k < i ==>
                  if notices
                  then !(s.jobs[k].kind.Notice() && s.jobs[k].chat == job.chat
                         && (s.jobs[k].state.Queued? || s.jobs[k].state.Sending? || s.jobs[k].state.Unknown?))
                  else !(s.jobs[k].kind.SessionTurn? && s.jobs[k].binding == job.binding && s.jobs[k].group.Some?
                         && s.jobs[k].group != job.group && (s.jobs[k].state.Unknown? || s.jobs[k].state.Sending?))
    {
      var other := s.jobs[i];
      if notices {
        if other.kind.Notice() && other.chat == job.chat
           && (other.state.Queued? || other.state.Sending? || other.state.Unknown?)
        {
          return true;
        }
      } else if other.kind.SessionTurn? && other.binding == job.binding && other.group.Some?
                && other.group != job.group && (other.state.Unknown? || other.state.Sending?)
      {
        return true;
      }
      i := i + 1;
    }
    return false;
  }

  method CheckOrder(s: System, j: nat) returns (gate: Gate)
    requires j < |s.jobs|
    ensures gate == OrderGate(s.jobs, j)
  {
    var job := s.jobs[j];
    if job.group.Some? && job.chunk > 0 {
      var prev := FindPrevious(s, j);
      if prev.None? { return Wait; }
      var before := s.jobs[prev.value];
      if before.state.Failed? || before.state.Cancelled? { return Abandon; }
      if !before.state.Sent? { return Wait; }
    }
    if job.kind.SessionTurn? {
      var blocked := FindBlocker(s, j, false);
      if blocked { return Wait; }
    }
    if job.kind.Notice() {
      var blocked := FindBlocker(s, j, true);
      if blocked { return Wait; }
    }
    return Pass;
  }

  /** The short transaction before the network: re-read the row, then allowlist, cap, retry time, order and guard. */
  method Prepare(s: System, j: nat, now: int, at: int) returns (verdict: Verdict)
    requires j < |s.jobs|
    modifies s`jobs
    ensures s.T() == PrepareTx(old(s.T()), s.cfg, j, now, at)
    ensures verdict == PrepareVerdict(old(s.T()), s.cfg, j, now)
  {
    var job := s.jobs[j];
    if !job.state.Retryable() { return Gone; }
    if !ChatAllowed(s.cfg, job.chat) {
      s.jobs := s.jobs[j := job.(state := Cancelled)];
      return Dropped;
    }
    if job.kind.SessionTurn? && (job.attempts < 0 || job.attempts >= TURN_MAX_ATTEMPTS) {
      s.jobs := s.jobs[j := job.(state := Failed, error := CapAtPrepare)];
      return Dropped;
    }
    if job.state.Unknown? {
      if job.next.None? || job.next.value > now { return Skip; }
    } else if job.next.Some? && job.next.value > now {
      return Skip;
    }
    var gate := CheckOrder(s, j);
    if gate.Wait? { return Skip; }
    if gate.Abandon? || !GuardOk(s.T(), job) {
      s.jobs := s.jobs[j := job.(state := Cancelled)];
      return Dropped;
    }
    s.jobs := s.jobs[j := job.(state := Sending, sendingAt := Some(at), attempts := job.attempts + 1)];
    return Send;
  }

  // ---- _send_and_finalize ----

  /** The row after an outcome in doubt, and the alert of a turn that ran out of attempts. */
  method FinalizeUnknown(s: System, j: nat, retryable: bool, now: int)
    requires j < |s.jobs|
    modifies s`jobs
    ensures s.jobs == FinalizeJobs(old(s.jobs), j, InDoubt(retryable), now)
  {
    var job := s.jobs[j];
    if !job.kind.SessionTurn? {
      var next := if job.attempts < MAX_SEND_ATTEMPTS then Some(now + UNKNOWN_RETRY_DELAY_MS) else None;
      s.jobs := s.jobs[j := job.(state := Unknown, error := Uncertain, next := next)];
      return;
    }
    var cap := if retryable then TURN_MAX_ATTEMPTS else MAX_SEND_ATTEMPTS;
    if job.attempts < cap {
      s.jobs := s.jobs[j := job.(state := Unknown, error := Uncertain,
                                 next := Some(now + TurnDelay(job.attempts, retryable)))];
      return;
    }
    s.jobs := s.jobs[j := job.(state := Failed, error := Exhausted)];
    if !IsAlertTurn(job) {
      s.jobs := AddJob(s.jobs, AlertFor(s.jobs, j, now));
    }
  }

  /** The transaction after the network call. */
  method Finalize(s: System, j: nat, outcome: Outcome, now: int)
    requires j < |s.jobs|
    modifies s`jobs, s`pendings
    ensures s.T() == FinalizeTx(old(s.T()), j, outcome, now)
  {
    var job := s.jobs[j];
    match outcome
    case WasSent(mid) =>
      s.jobs := s.jobs[j := job.(state := Sent, sentMsg := mid, error := NoError)];
      if job.kind.ApprovalCard? && job.refPending.Some? && job.refPending.value < |s.pendings| && mid.Some?
         && s.pendings[job.refPending.value].card.None?
      {
        var p := job.refPending.value;
        s.pendings := s.pendings[p := s.pendings[p].(card := mid)];
      }
    case WasRefused => s.jobs := s.jobs[j := job.(state := Failed, error := Permanent)];
    case InDoubt(retryable) => FinalizeUnknown(s, j, retryable, now);
  }

  // ---- tick ----

  method SelectDue(js: seq<Job>, now: int) returns (rows: seq<nat>)
    ensures rows == DueRows(js, now)
  {
    rows := [];
    var j: nat := |js|;
    while j > 0
      invariant j <= |js|
      invariant rows == SelectRows(js, j, DueAt(now))
    {
      j := j - 1;
      if Due(js[j], now) { rows := [j] + rows; }
    }
  }

  method CancelDisallowedJobs(s: System)
    modifies s`jobs
    ensures s.jobs == CancelDisallowed(old(s.jobs), s.cfg)
  {
    var j := 0;
    while j < |s.jobs|
      invariant j <= |s.jobs| == |old(s.jobs)|
      invariant forall i :: 0 <= i < j ==> s.jobs[i] == CancelDisallowed(old(s.jobs), s.cfg)[i]
      invariant forall i :: j <= i < |s.jobs| ==> s.jobs[i] == old(s.jobs)[i]
    {
      if s.jobs[j].state.Retryable() && !ChatAllowed(s.cfg, s.jobs[j].chat) {
        s.jobs := s.jobs[j := s.jobs[j].(state := Cancelled)];
      }
      j := j + 1;
    }
  }

  lemma TickingInRange(w: World)
    requires (hide Next, Run; Reached(w) && w.daemon.Ticking? && w.daemon.k < |w.daemon.rows|)
    ensures w.daemon.rows[w.daemon.k] < |w.t.jobs|
  {
    hide Next, Run;
    SoundWhenReached(w);
  }

  /** The row in flight is still the one that was prepared. */
  lemma SendingInRange(w: World)
    requires (hide Next, Run; Reached(w) && w.daemon.InFlight?)
    ensures w.daemon.k < |w.daemon.rows| && w.daemon.rows[w.daemon.k] < |w.t.jobs|
    ensures w.t.jobs[w.daemon.rows[w.daemon.k]].state.Sending?
  {
    hide Next, Run;
    SoundWhenReached(w);
  }

  /** _prepare for the row at which the loop stands. */
  method PrepareRow(s: System, now: int, at: int) returns (send: bool)
    requires (hide Next, Run;
             s.Valid() && s.daemon.Ticking? && s.daemon.k < |s.daemon.rows| && s.daemon.sends < OUTBOUND_BATCH)
    modifies s
    ensures s.W() == Next(old(s.W()), BySender(PrepareNext(now, at)))
    ensures var d := old(s.daemon);
            s.daemon == if send then InFlight(d.len, d.rows, d.k, d.sends) else Ticking(d.len, d.rows, d.k + 1, d.sends)
  {
    hide Run, StepIntake, StepWorker, StepCli, StepHook, StepListener;
    var d := s.daemon;
    TickingInRange(s.W());
    var verdict := Prepare(s, d.rows[d.k], now, at);
    send := verdict.Send?;
    s.daemon := if send then InFlight(d.len, d.rows, d.k, d.sends) else Ticking(d.len, d.rows, d.k + 1, d.sends);
  }

  /** _send_and_finalize once the network call has come back. */
  method FinishRow(s: System, outcome: Outcome, now: int)
    requires (hide Next, Run; s.Valid() && s.daemon.InFlight?)
    modifies s
    ensures s.W() == Next(old(s.W()), BySender(Finish(outcome, now)))
    ensures var d := old(s.daemon); s.daemon == Ticking(d.len, d.rows, d.k + 1, d.sends + 1)
  {
    hide Run, StepIntake, StepWorker, StepCli, StepHook, StepListener;
    var d := s.daemon;
    SendingInRange(s.W());
    s.hist := s.hist.(acked := Acknowledged(s.W(), d.rows[d.k], outcome));
    Finalize(s, d.rows[d.k], outcome, now);
    s.daemon := Ticking(d.len, d.rows, d.k + 1, d.sends + 1);
  }

  /** One turn of the loop: _prepare, the network call and _send_and_finalize. The job goes, falls or waits as the tables say
      before the call, and its answer settles it: a turn in doubt goes out again until its transmissions are used up. */
  method VisitRow(s: System, v: Visit) returns (sent: bool)
    requires (hide Next, Run; s.Valid() && ForeignVisit(v))
    requires s.daemon.Ticking? && s.daemon.k < |s.daemon.rows| && s.daemon.sends < OUTBOUND_BATCH
    modifies s
    ensures s.Valid()
    ensures s.W() == Visited(old(s.W()), v)
    ensures var d := old(s.daemon);
            s.daemon == Ticking(d.len, d.rows, d.k + 1, if sent then d.sends + 1 else d.sends)
    ensures SendLaws.VisitLed(old(s.W()), s.W(), v)
  {
    hide Next, Run;
    ghost var w0 := s.W();
    SoundWhenReached(w0);
    SendLaws.VisitLeads(w0, v);
    s.Others(v.before);
    ForeignLeavesDaemon(w0, v.before);
    ghost var w1 := s.W();
    sent := PrepareRow(s, v.now, v.at);
    ghost var w2 := s.W();
    ReachedNext(w1, BySender(PrepareNext(v.now, v.at)));
    s.Others(v.during);
    ForeignLeavesDaemon(w2, v.during);
    ghost var w3 := s.W();
    ReachedNext(w3, BySender(Finish(v.outcome, v.answeredAt)));
    if sent { FinishRow(s, v.outcome, v.answeredAt); }
    else { SendLaws.NoAnswer(w3, v.outcome, v.answeredAt); }
  }

  /** The start of a tick: disallowed jobs go, and if the gate is open the due rows are read. */
  method StartTick(s: System, now: int, gateOpen: bool)
    requires (hide Next, Run; s.Valid() && s.daemon.Idle?)
    modifies s
    ensures s.Valid()
    ensures s.W() == Next(Next(old(s.W()), BySender(DropDisallowed)), BySender(Select(now, gateOpen)))
    ensures s.jobs == CancelDisallowed(old(s.jobs), old(s.cfg))
    ensures s.daemon == if gateOpen then Ticking(|s.jobs|, DueRows(s.jobs, now), 0, 0) else Idle
  {
    hide Run, StepIntake, StepWorker, StepCli, StepHook, StepListener;
    ghost var w0 := s.W();
    ReachedNext(w0, BySender(DropDisallowed));
    CancelDisallowedJobs(s);
    ghost var w1 := s.W();
    assert w1 == Next(w0, BySender(DropDisallowed));
    ReachedNext(w1, BySender(Select(now, gateOpen)));
    if gateOpen {
      var rows := SelectDue(s.jobs, now);
      s.daemon := Ticking(|s.jobs|, rows, 0, 0);
    }
  }

  /** The rows a tick reads. */
  function TickRows(js: seq<Job>, now: int, gateOpen: bool): seq<nat> {
    if gateOpen then DueRows(js, now) else []
  }

  /** Each of the first `used` visits led where it had to. */
  ghost predicate EachVisitLed(start: World, visits: seq<Visit>, used: nat) {
    used <= |visits| && forall a :: 0 <= a < used ==> VisitLedAt(start, visits, a)
  }

  ghost predicate VisitLedAt(start: World, visits: seq<Visit>, a: nat)
    requires a < |visits|
  {
    var w := Run(start, TickActs(visits[..a]));
    && w.daemon.Ticking? && w.daemon.k < |w.daemon.rows|
    && SendLaws.VisitLed(w, Run(start, TickActs(visits[..a + 1])), visits[a])
  }

  /** One turn of the loop. */
  method VisitTurn(s: System, rows: seq<nat>, used: nat, sends: nat, visits: seq<Visit>, ghost start: World)
    returns (sends': nat)
    requires (hide Next, Run; s.Valid() && Reached(start) && used < |rows| <= |visits| && sends < OUTBOUND_BATCH)
    requires rows[used] < |start.t.jobs| && ForeignVisit(visits[used])
    requires start.daemon.Ticking? && s.daemon == Ticking(start.daemon.len, rows, used, sends)
    requires s.W() == Run(start, TickActs(visits[..used]))
    requires Progress.VisitedSoFar(start.t.jobs, s.jobs, rows, used, visits)
    modifies s
    ensures s.Valid() && sends <= sends' <= sends + 1 && s.daemon == Ticking(start.daemon.len, rows, used + 1, sends')
    ensures s.W() == Run(start, TickActs(visits[..used + 1]))
    ensures Progress.VisitedSoFar(start.t.jobs, s.jobs, rows, used + 1, visits)
    ensures EachVisitLed(start, visits, used) ==> EachVisitLed(start, visits, used + 1)
  {
    hide Next, Run, SendLaws.VisitLed;
    OneVisitOn(start, s.W(), rows, used, visits);
    var sent := VisitRow(s, visits[used]);
    sends' := if sent then sends + 1 else sends;
  }

  /** The loop of a tick over the rows it read. */
  method VisitRows(s: System, visits: seq<Visit>) returns (sends: nat, used: nat)
    requires (hide Next, Run; s.Valid() && s.daemon.Ticking? && s.daemon.k == 0 && s.daemon.sends == 0)
    requires |s.daemon.rows| <= |visits| && forall i :: 0 <= i < |visits| ==> ForeignVisit(visits[i])
    requires Sorted(s.daemon.rows) && forall a :: 0 <= a < |s.daemon.rows| ==> s.daemon.rows[a] < |s.jobs|
    modifies s
    ensures s.Valid() && used <= |visits| && sends <= used && sends <= OUTBOUND_BATCH
    ensures s.W() == Run(old(s.W()), TickActs(visits[..used]))
    ensures var d := old(s.daemon);
            && s.daemon == Ticking(d.len, d.rows, used, sends)
            && (used == |d.rows| || sends == OUTBOUND_BATCH)
            && Progress.VisitedSoFar(old(s.jobs), s.jobs, d.rows, used, visits)
    ensures EachVisitLed(old(s.W()), visits, used)
  {
    hide Next, VisitLedAt;
    ghost var start := s.W();
    var rows := s.daemon.rows;
    sends, used := 0, 0;
    Progress.NothingVisited(s.jobs, rows, visits);
    SoundWhenReached(start);
    while used < |rows| && sends < OUTBOUND_BATCH
      invariant s.Valid() && sends <= used <= |rows| <= |visits| && sends <= OUTBOUND_BATCH
      invariant s.daemon == Ticking(start.daemon.len, rows, used, sends)
      invariant s.W() == Run(start, TickActs(visits[..used]))
      invariant Progress.VisitedSoFar(start.t.jobs, s.jobs, rows, used, visits)
      invariant EachVisitLed(start, visits, used)
      decreases |rows| - used
    {
      sends := VisitTurn(s, rows, used, sends, visits, start);
      used := used + 1;
    }
  }

  lemma OneVisitOn(start: World, w: World, rows: seq<nat>, used: nat, visits: seq<Visit>)
    requires (hide Next, Run;
             used < |rows| && used < |visits| && ForeignVisit(visits[used]) && rows[used] < |start.t.jobs|)
    requires Reached(start) && Reached(w) && w == Run(start, TickActs(visits[..used]))
    requires Progress.VisitedSoFar(start.t.jobs, w.t.jobs, rows, used, visits)
    requires Progress.AtRow(w, rows[used])
    ensures Visited(w, visits[used]) == Run(start, TickActs(visits[..used + 1]))
    ensures Progress.VisitedSoFar(start.t.jobs, Visited(w, visits[used]).t.jobs, rows, used + 1, visits)
  {
    hide Next, Run;
    SoundWhenReached(start);
    SoundWhenReached(w);
    OneVisitLonger(start, used, visits);
    Progress.OneMoreVisited(start, w, rows, used, visits);
  }

  lemma OneVisitLonger(start: World, used: nat, visits: seq<Visit>)
    requires (hide Next, Run; used < |visits|)
    ensures Visited(Run(start, TickActs(visits[..used])), visits[used]) == Run(start, TickActs(visits[..used + 1]))
  {
    hide Next, Run;
    VisitedIs(start, TickActs(visits[..used]), visits[used]);
    assert visits[..used + 1][..used] == visits[..used];
  }

  /** One tick, with the other processes at work between any two of its steps. It visits the due rows in order until all
      are visited or a batch is sent, the database ends where that run of atomic steps leads, and every turn that stood
      at the head of its binding's line and was due at its visit has less budget left; each visit leads where the tables
      and the answer say. A shut gate visits nothing. */
  method Tick(s: System, now: int, gateOpen: bool, visits: seq<Visit>) returns (sends: nat, used: nat)
    requires (hide Next, Run; s.Valid() && s.daemon.Idle? && |s.jobs| <= |visits|)
    requires forall i :: 0 <= i < |visits| ==> ForeignVisit(visits[i])
    modifies s
    ensures s.Valid() && s.daemon.Idle?
    ensures var js := CancelDisallowed(old(s.jobs), old(s.cfg));
            var rows := TickRows(js, now, gateOpen);
            && sends <= used <= |rows| && used <= |visits| && sends <= OUTBOUND_BATCH
            && (used == |rows| || sends == OUTBOUND_BATCH)
            && forall a :: 0 <= a < used ==> Progress.Lowered(js, s.jobs, rows[a], visits[a].now)
    ensures var w1 := Next(Next(old(s.W()), BySender(DropDisallowed)), BySender(Select(now, gateOpen)));
            s.W() == Run(w1, TickActs(visits[..used])).(daemon := Idle) && EachVisitLed(w1, visits, used)
  {
    hide Next;
    StartTick(s, now, gateOpen);
    sends, used := 0, 0;
    if !gateOpen { return; }
    SelectRowsAre(s.jobs, 0, DueAt(now));
    SelectedAtMost(s.jobs, 0, now);
    sends, used := VisitRows(s, visits);
    EndTick(s, now);
  }

  method EndTick(s: System, now: int)
    requires (hide Next, Run;
             s.Valid() && s.daemon.Ticking? && (s.daemon.k >= |s.daemon.rows| || s.daemon.sends >= OUTBOUND_BATCH))
    modifies s`daemon
    ensures s.Valid() && s.W() == old(s.W()).(daemon := Idle)
  {
    hide Run, StepIntake, StepWorker, StepCli, StepHook, StepListener;
    ghost var w := s.W();
    s.daemon := Idle;
    ReachedNext(w, BySender(PrepareNext(now, now)));
  }

  lemma {:induction false} SelectedAtMost(js: seq<Job>, from: nat, now: int)
    requires from <= |js|
    ensures |SelectRows(js, from, DueAt(now))| <= |js| - from
    decreases |js| - from
  {
    if from < |js| { SelectedAtMost(js, from + 1, now); }
  }
}
