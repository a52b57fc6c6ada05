/** Progress of the sender: a tick leaves less budget to every head of a line it visits. */
module Progress {
  import opened Schema
  import opened World
  import opened Jobs
  import opened OutboundTx
  import opened Machine
  import opened Scripts
  import opened QueueInvariant
  import opened QueueSteps
  import opened QueueRun
  import opened QueueClaims
  import opened SendClaims

  // ---- Rows nobody visits ----

  /** A turn is as it was, or over. */
  predicate TurnLeft(a: Job, b: Job) {
    && (IsTurn(a) <==> IsTurn(b)) && b.binding == a.binding
    && (IsTurn(a) ==> b == a || b.state.Terminal())
    && (IsTurn(a) && a.state.Terminal() ==> b.state.Terminal())
  }

  ghost predicate TurnsLeft(js: seq<Job>, js': seq<Job>) {
    |js| <= |js'| && forall i :: 0 <= i < |js| ==> TurnLeft(js[i], js'[i])
  }

  lemma OthersLeaveTurns(js: seq<Job>, js': seq<Job>)
    requires QuietRows(js, js') || TurnsAppended(js, js')
    ensures TurnsLeft(js, js')
  {}

  lemma ForeignLeavesTurns(w: World, a: Act)
    requires QueueAt(w) && a.Foreign()
    ensures TurnsLeft(w.t.jobs, Next(w, a).t.jobs)
  {
    hide Next, Run;
    OthersLeaveQueue(w, a);
    OthersLeaveTurns(w.t.jobs, Next(w, a).t.jobs);
  }

  lemma LeftTwice(js: seq<Job>, js1: seq<Job>, js2: seq<Job>)
    requires TurnsLeft(js, js1) && TurnsLeft(js1, js2)
    ensures TurnsLeft(js, js2)
  {}

  lemma {:induction false} ForeignRunLeavesTurns(w: World, acts: seq<Act>)
    requires QueueAt(w) && AllForeign(acts)
    ensures QueueAt(Run(w, acts)) && TurnsLeft(w.t.jobs, Run(w, acts).t.jobs)
    decreases |acts|
  {
    hide Next;
    if acts != [] {
      ForeignLeavesTurns(w, acts[0]);
      QueueStep(w, acts[0]);
      ForeignRunLeavesTurns(Next(w, acts[0]), acts[1..]);
      LeftTwice(w.t.jobs, Next(w, acts[0]).t.jobs, Run(w, acts).t.jobs);
    }
  }

  // ---- One visit ----

  /** Every turn but that of row j is left, and also j if it is over. */
  ghost predicate LeftBut(js: seq<Job>, js': seq<Job>, j: nat) {
    && |js| <= |js'|
    && forall i :: 0 <= i < |js| ==>
         && (IsTurn(js[i]) <==> IsTurn(js'[i])) && js'[i].binding == js[i].binding
         && (i != j ==> TurnLeft(js[i], js'[i]))
         && (IsTurn(js[i]) && js[i].state.Terminal() ==> js'[i].state.Terminal())
  }

  lemma LeftButThenLeft(js: seq<Job>, js1: seq<Job>, js2: seq<Job>, j: nat)
    requires (LeftBut(js, js1, j) && TurnsLeft(js1, js2)) || (TurnsLeft(js, js1) && LeftBut(js1, js2, j))
             || (LeftBut(js, js1, j) && LeftBut(js1, js2, j))
    ensures LeftBut(js, js2, j)
  {}

  predicate AtRow(w: World, j: nat) {
    w.daemon.Ticking? && w.daemon.k < |w.daemon.rows| && w.daemon.sends < OUTBOUND_BATCH && w.daemon.rows[w.daemon.k] == j
  }

  predicate OverRow(w: World, j: nat) {
    (w.daemon.InFlight? && w.daemon.k < |w.daemon.rows| && w.daemon.rows[w.daemon.k] == j) || w.daemon.Ticking?
  }

  lemma PrepareLeaves(w: World, now: int, at: int, j: nat)
    requires (hide Next, Run; QueueAt(w) && AtRow(w, j))
    ensures var w' := Next(w, BySender(PrepareNext(now, at)));
            LeftBut(w.t.jobs, w'.t.jobs, j) && OverRow(w', j) && j < |w.t.jobs|
            && w'.t.jobs[j] == PrepareJob(w.t, w.cfg, j, now, at)
            && (w'.t.jobs[j].state.Sending? && !w.t.jobs[j].state.Sending? ==> w'.daemon.InFlight?)
  {
    hide Run, StepIntake, StepWorker, StepCli, StepHook, StepListener;
  }

  lemma FinalizeLeaves(js: seq<Job>, j: nat, outcome: Outcome, now: int)
    requires j < |js| && js[j].state.Sending?
    ensures LeftBut(js, FinalizeJobs(js, j, outcome, now), j)
  {}

  lemma FinishLeaves(w: World, outcome: Outcome, now: int, j: nat)
    requires QueueAt(w) && OverRow(w, j)
    ensures LeftBut(w.t.jobs, Next(w, BySender(Finish(outcome, now))).t.jobs, j)
  {
    hide Run, StepIntake, StepWorker, StepCli, StepHook, StepListener;
    if w.daemon.InFlight? { FinalizeLeaves(w.t.jobs, j, outcome, now); }
  }

  lemma FinishSettles(w: World, outcome: Outcome, now: int, j: nat)
    requires (hide Next, Run;
             QueueAt(w) && OverRow(w, j) && j < |w.t.jobs| && w.daemon.InFlight? && w.t.jobs[j].state.Sending?)
    ensures j < |Next(w, BySender(Finish(outcome, now))).t.jobs|
    ensures Next(w, BySender(Finish(outcome, now))).t.jobs[j] == FinalJob(w.t.jobs[j], outcome, now)
  {
    hide Run, StepIntake, StepWorker, StepCli, StepHook, StepListener;
  }

  /** A visit to row j leaves every other turn, and j too if it is over. */
  lemma VisitLeaves(w: World, v: Visit, j: nat)
    requires QueueAt(w) && ForeignVisit(v) && AtRow(w, j)
    ensures QueueAt(Visited(w, v)) && LeftBut(w.t.jobs, Visited(w, v).t.jobs, j)
  {
    hide Next, Run;
    var w1 := Run(w, v.before);
    var w2 := Next(w1, BySender(PrepareNext(v.now, v.at)));
    var w3 := Run(w2, v.during);
    ForeignRunLeavesTurns(w, v.before);
    ForeignLeavesDaemon(w, v.before);
    PrepareLeaves(w1, v.now, v.at, j);
    LeftButThenLeft(w.t.jobs, w1.t.jobs, w2.t.jobs, j);
    QueueStep(w1, BySender(PrepareNext(v.now, v.at)));
    ForeignRunLeavesTurns(w2, v.during);
    ForeignLeavesDaemon(w2, v.during);
    LeftButThenLeft(w.t.jobs, w2.t.jobs, w3.t.jobs, j);
    FinishLeaves(w3, v.outcome, v.answeredAt, j);
    QueueStep(w3, BySender(Finish(v.outcome, v.answeredAt)));
    LeftButThenLeft(w.t.jobs, w3.t.jobs, Visited(w, v).t.jobs, j);
  }

  lemma StillHead(js: seq<Job>, js': seq<Job>, j: nat)
    requires HeadOfLine(js, j) && LeftBut(js, js', j) && js'[j] == js[j]
    ensures HeadOfLine(js', j)
  {}

  lemma LeftIsLeftBut(js: seq<Job>, js': seq<Job>, j: nat)
    requires TurnsLeft(js, js')
    ensures LeftBut(js, js', j)
  {}

  /** The visit to a head of a line at its retry time lowers its rank, whatever the network says and others do. */
  lemma VisitLowersRank(w: World, v: Visit, j: nat)
    requires (hide Next, Run;
             QueueAt(w) && ForeignVisit(v) && AtRow(w, j) && HeadOfLine(w.t.jobs, j) && Due(w.t.jobs[j], v.now))
    ensures j < |Visited(w, v).t.jobs| && Rank(Visited(w, v).t.jobs[j]) < Rank(w.t.jobs[j])
  {
    hide Next, Run;
    var w1 := Run(w, v.before);
    var w2 := Next(w1, BySender(PrepareNext(v.now, v.at)));
    var w3 := Run(w2, v.during);
    ForeignRunLeavesTurns(w, v.before);
    ForeignLeavesDaemon(w, v.before);
    LeftIsLeftBut(w.t.jobs, w1.t.jobs, j);
    RankIsPositive(w, j);
    PrepareLeaves(w1, v.now, v.at, j);
    QueueStep(w1, BySender(PrepareNext(v.now, v.at)));
    ForeignRunLeavesTurns(w2, v.during);
    ForeignLeavesDaemon(w2, v.during);
    FinishLeaves(w3, v.outcome, v.answeredAt, j);
    if w3.daemon.InFlight? && w3.t.jobs[j].state.Sending? { FinishSettles(w3, v.outcome, v.answeredAt, j); }
    if w1.t.jobs[j] == w.t.jobs[j] {
      StillHead(w.t.jobs, w1.t.jobs, j);
      HeadOfLineProgresses(w1.t, w1.cfg, w1.hist.spans, w1.hist.acked, j, v.now, v.at, v.outcome, v.answeredAt);
    }
  }

  lemma RankIsPositive(w: World, j: nat)
    requires QueueAt(w) && HeadOfLine(w.t.jobs, j)
    ensures Rank(w.t.jobs[j]) > 0
  {
    assert RowOk(w.t.jobs[j]);
  }

  // ---- When a turn goes ----

  /** Every job of an earlier turn of the binding is over, and the chunk before was sent. */
  ghost predicate InTurn(js: seq<Job>, j: nat)
    requires j < |js|
  {
    && (forall p :: 0 <= p < j && SameBindingOtherTurn(js[p], js[j]) ==> js[p].state.Terminal())
    && (js[j].chunk > 0 ==> 0 < j && js[j - 1].group == js[j].group && js[j - 1].state.Sent?)
  }

  lemma PassMeansInTurn(w: World, j: nat)
    requires QueueAt(w) && AtRow(w, j) && j < |w.t.jobs| && IsTurn(w.t.jobs[j]) && OrderGate(w.t.jobs, j).Pass?
    ensures InTurn(w.t.jobs, j)
  {
    var js, d := w.t.jobs, w.daemon;
    assert RowOk(js[j]);
    if js[j].chunk > 0 { PrevChunkIsBefore(js, w.hist.spans, w.hist.acked, w.t.nextId, j); }
    forall p | 0 <= p < j && SameBindingOtherTurn(js[p], js[j]) ensures js[p].state.Terminal() {
      GateMeansEarlierTurnsOver(js, w.hist.spans, w.hist.acked, w.t.nextId, d.len, d.rows, d.k, p);
    }
  }

  lemma InTurnPasses(w: World, j: nat)
    requires QueueAt(w) && j < |w.t.jobs| && IsTurn(w.t.jobs[j]) && InTurn(w.t.jobs, j)
    ensures OrderGate(w.t.jobs, j).Pass?
  {
    var js := w.t.jobs;
    assert RowOk(js[j]);
    if js[j].chunk > 0 { PrevChunkIsBefore(js, w.hist.spans, w.hist.acked, w.t.nextId, j); }
    forall i | 0 <= i < j && js[i].kind.SessionTurn? && js[i].binding == js[j].binding && js[i].group != js[j].group
      ensures !js[i].state.Unknown? && !js[i].state.Sending?
    {
      assert SameBindingOtherTurn(js[i], js[j]);
    }
  }

  lemma LaunchedIff(w: World, j: nat, now: int, at: int)
    requires (hide Next, Run; AtRow(w, j) && j < |w.t.jobs| && RowOk(w.t.jobs[j]) && IsTurn(w.t.jobs[j]))
    requires Due(w.t.jobs[j], now) && ChatAllowed(w.cfg, w.t.jobs[j].chat)
    ensures Launched(w, Next(w, BySender(PrepareNext(now, at))), j)
            <==> OrderGate(w.t.jobs, j).Pass? && BindingActive(w.t, w.t.jobs[j].binding)
  {
    hide Run, StepIntake, StepWorker, StepCli, StepHook, StepListener;
  }

  /** Where the loop stands, a due turn of an allowed chat is launched exactly when it is its turn and its binding is
      active, although the gate asks only for turns in doubt or in flight. */
  lemma TurnGoesIff(w: World, j: nat, now: int, at: int)
    requires (hide Next, Run; QueueAt(w) && AtRow(w, j) && j < |w.t.jobs| && IsTurn(w.t.jobs[j]))
    requires Due(w.t.jobs[j], now) && ChatAllowed(w.cfg, w.t.jobs[j].chat)
    ensures Launched(w, Next(w, BySender(PrepareNext(now, at))), j)
            <==> InTurn(w.t.jobs, j) && BindingActive(w.t, w.t.jobs[j].binding)
  {
    hide Next, Run;
    assert RowOk(w.t.jobs[j]);
    LaunchedIff(w, j, now, at);
    if OrderGate(w.t.jobs, j).Pass? { PassMeansInTurn(w, j); }
    if InTurn(w.t.jobs, j) { InTurnPasses(w, j); }
  }

  // ---- The loop ----

  /** After the visits to `past` every other turn is left, and the visited ones too if they were over. */
  ghost predicate RowsSoFar(js0: seq<Job>, js: seq<Job>, past: seq<nat>) {
    && |js0| <= |js|
    && forall i :: 0 <= i < |js0| ==>
         && (IsTurn(js0[i]) <==> IsTurn(js[i])) && js[i].binding == js0[i].binding
         && (i !in past ==> TurnLeft(js0[i], js[i]))
         && (IsTurn(js0[i]) && js0[i].state.Terminal() ==> js[i].state.Terminal())
  }

  /** Row j, if it was a due head of a line when the tick began, has less budget left. */
  ghost predicate Lowered(js0: seq<Job>, js: seq<Job>, j: nat, now: int) {
    HeadOfLine(js0, j) && Due(js0[j], now) ==> j < |js| && Rank(js[j]) < Rank(js0[j])
  }

  /** The tick has visited the first `used` rows it selected. */
  ghost predicate VisitedSoFar(js0: seq<Job>, js: seq<Job>, rows: seq<nat>, used: nat, visits: seq<Visit>) {
    && used <= |rows| && used <= |visits| && Sorted(rows) && RowsSoFar(js0, js, rows[..used])
    && forall a :: 0 <= a < used ==> Lowered(js0, js, rows[a], visits[a].now)
  }

  lemma NothingVisited(js: seq<Job>, rows: seq<nat>, visits: seq<Visit>)
    requires Sorted(rows)
    ensures VisitedSoFar(js, js, rows, 0, visits)
  {}

  /** The row the loop stands at is as it was selected, or over. */
  lemma HeadAhead(js0: seq<Job>, js: seq<Job>, past: seq<nat>, j: nat)
    requires RowsSoFar(js0, js, past) && j !in past && j < |js0|
    ensures TurnLeft(js0[j], js[j])
    ensures HeadOfLine(js0, j) && js[j] == js0[j] ==> HeadOfLine(js, j)
  {}

  lemma OneMoreRow(js0: seq<Job>, js: seq<Job>, js': seq<Job>, past: seq<nat>, j: nat)
    requires RowsSoFar(js0, js, past) && LeftBut(js, js', j)
    ensures RowsSoFar(js0, js', past + [j])
  {
    forall i | 0 <= i < |js0|
      ensures i !in past + [j] ==> TurnLeft(js0[i], js'[i])
    {
      if i !in past + [j] { assert i !in past && i != j; }
    }
  }

  lemma LoweredStays(w0: World, js: seq<Job>, js': seq<Job>, i: nat, j: nat, now: int)
    requires QueueAt(w0) && Lowered(w0.t.jobs, js, i, now) && i != j && LeftBut(js, js', j)
    requires |w0.t.jobs| <= |js| && (i < |w0.t.jobs| ==> (IsTurn(w0.t.jobs[i]) <==> IsTurn(js[i])))
    ensures Lowered(w0.t.jobs, js', i, now)
  {
    if HeadOfLine(w0.t.jobs, i) { RankIsPositive(w0, i); }
  }

  lemma VisitedIsLowered(w0: World, w: World, past: seq<nat>, j: nat, v: Visit)
    requires QueueAt(w0) && QueueAt(w) && RowsSoFar(w0.t.jobs, w.t.jobs, past) && j !in past && j < |w0.t.jobs|
    requires ForeignVisit(v) && AtRow(w, j)
    ensures Lowered(w0.t.jobs, Visited(w, v).t.jobs, j, v.now)
  {
    if HeadOfLine(w0.t.jobs, j) && Due(w0.t.jobs[j], v.now) {
      HeadAhead(w0.t.jobs, w.t.jobs, past, j);
      RankIsPositive(w0, j);
      VisitLeaves(w, v, j);
      if w.t.jobs[j] == w0.t.jobs[j] { VisitLowersRank(w, v, j); }
    }
  }

  lemma LoweredSoFar(w0: World, js: seq<Job>, js': seq<Job>, rows: seq<nat>, used: nat, visits: seq<Visit>)
    requires QueueAt(w0) && VisitedSoFar(w0.t.jobs, js, rows, used, visits)
    requires used < |rows| && LeftBut(js, js', rows[used])
    ensures forall a :: 0 <= a < used ==> Lowered(w0.t.jobs, js', rows[a], visits[a].now)
  {
    forall a | 0 <= a < used ensures Lowered(w0.t.jobs, js', rows[a], visits[a].now) {
      LoweredStays(w0, js, js', rows[a], rows[used], visits[a].now);
    }
  }

  lemma VisitedOneMore(js0: seq<Job>, js': seq<Job>, rows: seq<nat>, used: nat, visits: seq<Visit>)
    requires used < |rows| && used < |visits| && Sorted(rows)
    requires RowsSoFar(js0, js', rows[..used] + [rows[used]])
    requires forall a :: 0 <= a < used ==> Lowered(js0, js', rows[a], visits[a].now)
    requires Lowered(js0, js', rows[used], visits[used].now)
    ensures VisitedSoFar(js0, js', rows, used + 1, visits)
  {
    assert rows[..used + 1] == rows[..used] + [rows[used]];
  }

  lemma OneMoreVisited(w0: World, w: World, rows: seq<nat>, used: nat, visits: seq<Visit>)
    requires (hide Next, Run; QueueAt(w0) && QueueAt(w) && VisitedSoFar(w0.t.jobs, w.t.jobs, rows, used, visits))
    requires used < |rows| && used < |visits| && ForeignVisit(visits[used]) && rows[used] < |w0.t.jobs|
    requires AtRow(w, rows[used])
    ensures VisitedSoFar(w0.t.jobs, Visited(w, visits[used]).t.jobs, rows, used + 1, visits)
  {
    var js, js' := w.t.jobs, Visited(w, visits[used]).t.jobs;
    assert rows[used] !in rows[..used];
    VisitLeaves(w, visits[used], rows[used]);
    OneMoreRow(w0.t.jobs, js, js', rows[..used], rows[used]);
    VisitedIsLowered(w0, w, rows[..used], rows[used], visits[used]);
    LoweredSoFar(w0, js, js', rows, used, visits);
    VisitedOneMore(w0.t.jobs, js', rows, used, visits);
  }
}
