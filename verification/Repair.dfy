/** From any tables at all, with the daemon not running: whenever a start has come through, however often it was
    interrupted and whatever others did meanwhile, the queue is in its normal form, and it stays so. */
module Repair {
  import opened Schema
  import opened World
  import opened Jobs
  import opened TurnText
  import opened OutboundTx
  import opened Machine
  import opened QueueClaims
  import opened QueueRun
  import Frames

  /** One row of the normal form. */
  predicate RowNormal(job: Job) {
    && !job.state.Sending?
    && (job.state.Unknown? && IsTurn(job) ==> 0 <= job.attempts < TURN_MAX_ATTEMPTS && job.next.Some?)
    && (job.state.Unknown? && !IsTurn(job) && job.next.Some? ==> job.attempts < MAX_SEND_ATTEMPTS)
  }

  /** What the scan has achieved after its stages so far. */
  predicate RowSwept(job: Job, stage: nat) {
    && !NeedsReconcile(job)
    && (stage >= 3 && job.state.Sending? && !IsTurn(job) ==> job.attempts < MAX_SEND_ATTEMPTS)
    && (stage >= 4 ==> !job.state.Sending?)
    && (stage >= 5 && job.state.Unknown? && IsTurn(job) ==> job.next.Some?)
  }

  predicate RowInFlight(job: Job) {
    job.state.Sending? && (IsTurn(job) ==> 1 <= job.attempts <= TURN_MAX_ATTEMPTS)
  }

  /** Row j, seen from where the daemon stands. */
  predicate RowAt(js: seq<Job>, j: nat, d: Daemon)
    requires j < |js|
  {
    match d
    case Down => true
    case Reconciling(_, rows, k) => NeedsReconcile(js[j]) ==> k <= |rows| && j in rows[k..]
    case Sweeping(_, stage) => 2 <= stage <= 5 && RowSwept(js[j], stage)
    case InFlight(_, rows, k, _) =>
      if k < |rows| && j == rows[k] then RowInFlight(js[j]) || RowNormal(js[j]) else RowNormal(js[j])
    case _ => RowNormal(js[j])
  }

  ghost predicate RepairedAt(w: World) {
    && (forall j :: 0 <= j < |w.t.jobs| ==> RowAt(w.t.jobs, j, w.daemon))
    && (w.daemon.Reconciling? ==> forall a :: 0 <= a < |w.daemon.rows| ==> w.daemon.rows[a] < |w.t.jobs|)
  }

  // ---- The other actors ----

  predicate FreshRow(job: Job) { job.state.Queued? && job.attempts == 0 }

  /** Rows change quietly, and what is added is fresh. */
  ghost predicate Harmless(js: seq<Job>, js': seq<Job>) {
    && |js| <= |js'| && (forall j :: 0 <= j < |js| ==> QuietJob(js[j], js'[j]))
    && (forall j :: |js| <= j < |js'| ==> FreshRow(js'[j]))
  }

  lemma QuietIsHarmless(js: seq<Job>, js': seq<Job>)
    requires QuietRows(js, js')
    ensures Harmless(js, js')
  {
    forall j | |js| <= j < |js'| ensures FreshRow(js'[j]) { assert FreshNonTurn(js'[j]); }
  }

  lemma HarmlessRow(js: seq<Job>, js': seq<Job>, j: nat, d: Daemon)
    requires j < |js| <= |js'| && QuietJob(js[j], js'[j]) && RowAt(js, j, d)
    ensures RowAt(js', j, d)
  {}

  lemma FreshRowAt(js: seq<Job>, j: nat, d: Daemon)
    requires j < |js| && FreshRow(js[j]) && (d.Sweeping? ==> 2 <= d.stage <= 5)
    ensures RowAt(js, j, d)
  {}

  predicate StandsBy(d: Daemon, d': Daemon) { d' == d || (Between(d) && Between(d')) }

  lemma HarmlessStep(w: World, w': World)
    requires RepairedAt(w) && Harmless(w.t.jobs, w'.t.jobs) && StandsBy(w.daemon, w'.daemon)
    requires w.daemon.Sweeping? ==> 2 <= w.daemon.stage <= 5
    ensures RepairedAt(w')
  {
    forall j | 0 <= j < |w'.t.jobs| ensures RowAt(w'.t.jobs, j, w'.daemon) {
      if j < |w.t.jobs| { HarmlessRow(w.t.jobs, w'.t.jobs, j, w.daemon); }
      else { FreshRowAt(w'.t.jobs, j, w.daemon); }
    }
  }

  lemma {:induction false} EnqueueAddsFresh(js: seq<Job>, g: nat, binding: nat, chat: nat, chunks: seq<string>,
                                            from: nat, now: int)
    requires from <= |chunks|
    ensures var js' := EnqueueTurn(js, g, binding, chat, chunks, from, now);
            |js| <= |js'| && (forall j :: 0 <= j < |js| ==> js'[j] == js[j])
            && (forall j :: |js| <= j < |js'| ==> FreshRow(js'[j]))
    decreases |chunks| - from
  {
    if from < |chunks| {
      EnqueueAddsFresh(AddJob(js, TurnJob(TurnGroup(g), from, Some(binding), chat, chunks[from], now)), g, binding, chat,
                       chunks, from + 1, now);
    }
  }

  lemma InsertHarmless(w: World, inst: nat)
    ensures Harmless(w.t.jobs, StepStopInsert(w, inst).t.jobs)
  {
    hide Next, Run;
    if inst in w.stops && w.stops[inst].ToInsert? && w.stops[inst].binding < |w.t.bindings| {
      var pc := w.stops[inst];
      EnqueueAddsFresh(w.t.jobs, w.t.nextId, pc.binding, w.t.bindings[pc.binding].chat,
                       WithFooter(ChunkText(pc.p.text), pc.p.footer), 0, pc.p.now);
    }
  }

  // ---- The sender ----

  lemma BootRepairs(w: World, allow: set<nat>, now: int)
    requires RepairedAt(w)
    ensures RepairedAt(StepSender(w, Boot(allow, now)))
  {
    if w.daemon.Down? {
      SelectRowsAre(w.t.jobs, 0, NeedsReconcile);
      var rows := ReconcileRows(w.t.jobs);
      assert rows[0..] == rows;
    }
  }

  lemma ReconcileRepairs(w: World)
    requires RepairedAt(w)
    ensures RepairedAt(StepReconcile(w))
  {
    if w.daemon.Reconciling? {
      var rows, k := w.daemon.rows, w.daemon.k;
      if k < |rows| {
        ReconcileRowFacts(w.t.jobs, rows[k], w.daemon.now);
        var js' := ReconcileRow(w.t.jobs, rows[k], w.daemon.now);
        assert rows[k..] == [rows[k]] + rows[k + 1..];
        forall j | 0 <= j < |js'| ensures NeedsReconcile(js'[j]) ==> j in rows[k + 1..] {
          if j < |w.t.jobs| { assert RowAt(w.t.jobs, j, w.daemon); }
        }
      } else {
        forall j | 0 <= j < |w.t.jobs| ensures RowSwept(w.t.jobs[j], 2) { assert RowAt(w.t.jobs, j, w.daemon); }
      }
    }
  }

  lemma SweepRepairs(w: World)
    requires RepairedAt(w)
    ensures RepairedAt(StepSender(w, SweepNext))
  {
    if w.daemon.Sweeping? {
      var w' := StepSender(w, SweepNext);
      forall j | 0 <= j < |w'.t.jobs| ensures RowAt(w'.t.jobs, j, w'.daemon) {
        assert RowAt(w.t.jobs, j, w.daemon);
        SweptRow(w.t.jobs[j], w.daemon.stage, w.daemon.now);
      }
    }
  }

  lemma SweptRow(job: Job, stage: nat, now: int)
    requires 2 <= stage <= 5 && RowSwept(job, stage)
    ensures if stage < 5 then RowSwept(Sweep(stage, job, now), stage + 1) else RowNormal(Sweep(stage, job, now))
  {}

  lemma PrepareRepairs(w: World, now: int, at: int)
    requires RepairedAt(w)
    ensures RepairedAt(StepPrepare(w, now, at))
  {
    if w.daemon.Ticking? && w.daemon.k < |w.daemon.rows| && w.daemon.rows[w.daemon.k] < |w.t.jobs| {
      var i := w.daemon.rows[w.daemon.k];
      assert RowAt(w.t.jobs, i, w.daemon);
      PreparedRow(w.t, w.cfg, i, now, at);
      var w' := StepPrepare(w, now, at);
      forall j | 0 <= j < |w'.t.jobs| ensures RowAt(w'.t.jobs, j, w'.daemon) {
        assert RowAt(w.t.jobs, j, w.daemon);
      }
    } else if w.daemon.Ticking? {
      forall j | 0 <= j < |w.t.jobs| ensures RowNormal(w.t.jobs[j]) { assert RowAt(w.t.jobs, j, w.daemon); }
    }
  }

  lemma PreparedRow(t: Tables, cfg: Config, j: nat, now: int, at: int)
    requires j < |t.jobs| && RowNormal(t.jobs[j])
    ensures var job := PrepareJob(t, cfg, j, now, at);
            if PrepareVerdict(t, cfg, j, now).Send? then RowInFlight(job) else RowNormal(job)
  {}

  lemma FinishRepairs(w: World, outcome: Outcome, now: int)
    requires RepairedAt(w)
    ensures RepairedAt(StepFinish(w, outcome, now))
  {
    hide Next, Run;
    if w.daemon.InFlight? {
      var w' := StepFinish(w, outcome, now);
      var d := w.daemon;
      if d.k < |d.rows| && d.rows[d.k] < |w.t.jobs| { assert RowAt(w.t.jobs, d.rows[d.k], d); }
      forall j | 0 <= j < |w'.t.jobs| ensures RowNormal(w'.t.jobs[j]) {
        if j < |w.t.jobs| {
          assert RowAt(w.t.jobs, j, d);
          if d.k < |d.rows| && j == d.rows[d.k] && w.t.jobs[j].state.Sending? {
            FinishedRow(w.t.jobs[j], outcome, now);
          }
        }
      }
    }
  }

  lemma FinishedRow(job: Job, outcome: Outcome, now: int)
    requires RowInFlight(job)
    ensures RowNormal(FinalJob(job, outcome, now))
  {}

  lemma DropRepairs(w: World)
    requires RepairedAt(w)
    ensures RepairedAt(StepSender(w, DropDisallowed))
  {
    if w.daemon.Idle? {
      forall j | 0 <= j < |w.t.jobs| ensures RowNormal(CancelDisallowed(w.t.jobs, w.cfg)[j]) {
        assert RowAt(w.t.jobs, j, w.daemon);
      }
    }
  }

  lemma SenderRepairs(w: World, a: SenderAct)
    requires RepairedAt(w)
    ensures RepairedAt(StepSender(w, a))
  {
    match a
    case Boot(allow, now) => BootRepairs(w, allow, now);
    case ReconcileNext => ReconcileRepairs(w);
    case SweepNext => SweepRepairs(w);
    case DropDisallowed => DropRepairs(w);
    case PrepareNext(now, at) => PrepareRepairs(w, now, at);
    case Finish(outcome, now) => FinishRepairs(w, outcome, now);
    case Select(_, _) => SelectRepairs(w, a);
    case Crash =>
  }

  lemma SelectRepairs(w: World, a: SenderAct)
    requires RepairedAt(w) && a.Select?
    ensures RepairedAt(StepSender(w, a))
  {
    forall j | 0 <= j < |w.t.jobs| && w.daemon.Idle? ensures RowNormal(w.t.jobs[j]) {
      assert RowAt(w.t.jobs, j, w.daemon);
    }
  }

  // ---- Every step, every run ----

  lemma RescueRepairs(w: World, now: int)
    requires RepairedAt(w)
    ensures RepairedAt(StepWorker(w, RescueSending(now)))
  {
    if w.daemon.Idle? {
      forall j | 0 <= j < |w.t.jobs| ensures LegacySending(w.t.jobs, now)[j] == w.t.jobs[j] {
        assert RowAt(w.t.jobs, j, w.daemon);
      }
      assert LegacySending(w.t.jobs, now) == w.t.jobs;
    }
  }

  /** While the scan sweeps, its stage is one of its four. */
  ghost predicate StageOk(d: Daemon) { d.Sweeping? ==> 2 <= d.stage <= 5 }

  lemma StageStep(w: World, a: Act)
    requires StageOk(w.daemon)
    ensures StageOk(Next(w, a).daemon)
  {
    hide Run, StepIntake, StepWorker, StepHook, StepListener;
    match a
    case BySender(s) =>
    case ByIntake(i) => IntakeBystander(w, i);
    case ByWorker(r) => WorkerBystander(w, r);
    case ByCli(c) => Frames.CliFrame(w, c);
    case ByHook(inst, h) => Frames.HookFrame(w, inst, h);
    case ByListener(c, l) => Frames.ListenerFrame(w, c, l);
  }

  lemma OthersRepair(w: World, a: Act)
    requires (hide Next, Run;
             RepairedAt(w) && StageOk(w.daemon) && !a.BySender? && !(a.ByWorker? && a.worker.RescueSending?))
    ensures RepairedAt(Next(w, a))
  {
    hide Next, Run;
    OthersHarmless(w, a);
    OthersStandBy(w, a);
    HarmlessStep(w, Next(w, a));
  }

  lemma OthersStandBy(w: World, a: Act)
    requires !a.BySender?
    ensures StandsBy(w.daemon, Next(w, a).daemon)
  {
    hide Run, StepSender, StepIntake, StepWorker, StepCli, StepHook, StepListener;
    match a
    case ByIntake(i) => IntakeBystander(w, i);
    case ByWorker(r) => WorkerBystander(w, r);
    case ByCli(c) => Frames.CliFrame(w, c);
    case ByHook(inst, h) => Frames.HookFrame(w, inst, h);
    case ByListener(c, l) => Frames.ListenerFrame(w, c, l);
  }

  lemma OthersHarmless(w: World, a: Act)
    requires (hide Next, Run; !a.BySender? && !(a.ByWorker? && a.worker.RescueSending?))
    ensures Harmless(w.t.jobs, Next(w, a).t.jobs)
  {
    hide Run, StepIntake, StepCli, StepListener;
    if a.ByHook? && a.hook.StopInsert? {
      InsertHarmless(w, a.inst);
    } else {
      OthersQuiet(w, a);
      QuietIsHarmless(w.t.jobs, Next(w, a).t.jobs);
    }
  }

  lemma {:induction false} RepairRun(w: World, acts: seq<Act>)
    requires RepairedAt(w) && StageOk(w.daemon)
    ensures RepairedAt(Run(w, acts))
    decreases |acts|
  {
    if acts != [] {
      match acts[0] {
        case BySender(s) => SenderRepairs(w, s);
        case ByWorker(RescueSending(now)) => RescueRepairs(w, now);
        case _ => OthersRepair(w, acts[0]);
      }
      StageStep(w, acts[0]);
      RepairRun(Next(w, acts[0]), acts[1..]);
    }
  }

  predicate Started(d: Daemon) { !d.Down? && !d.Reconciling? && !d.Sweeping? && !d.InFlight? }

  /** Whatever tables the daemon finds, and however often it crashes: past its startup scan and between two sends, the
      queue is in normal form. */
  lemma StartupRepairs(w: World, acts: seq<Act>)
    requires w.daemon.Down?
    ensures Started(Run(w, acts).daemon) ==> NormalForm(Run(w, acts).t.jobs)
  {
    hide Next, Run;
    RepairRun(w, acts);
    var w' := Run(w, acts);
    forall j | 0 <= j < |w'.t.jobs| && Started(w'.daemon) ensures RowNormal(w'.t.jobs[j]) {
      assert RowAt(w'.t.jobs, j, w'.daemon);
    }
  }
}
