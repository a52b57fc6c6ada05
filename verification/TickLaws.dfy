/** In a fast and a slow tick every row gets its turn of everything the tick is for, whatever others do in between. */
module TickLaws {
  import opened Schema
  import opened World
  import opened Machine
  import opened Scripts
  import opened Occupancy
  import Advance
  import QueueRun
  import QueueHistory

  // ---- What a tick is made of ----

  /** The steps before stage `target`, from stage k on, with what others do just before it. */
  function Before(w: World, stages: seq<Stage>, k: nat, target: nat, c: Weather): seq<Act>
    requires k <= target < |stages|
    decreases target - k
  {
    var gap := GapAt(c.between, k);
    if k == target then gap
    else
      var one := gap + StageActs(Run(w, gap), stages[k], c);
      one + Before(Run(w, one), stages, k + 1, target, c)
  }

  /** The stage's own steps stand behind them. */
  lemma {:induction false} StagePart(w: World, stages: seq<Stage>, k: nat, target: nat, c: Weather) returns (rest: seq<Act>)
    requires (hide Next, Run; k <= target < |stages|)
    ensures var before := Before(w, stages, k, target, c);
            StagesActs(w, stages, k, c) == before + StageActs(Run(w, before), stages[target], c) + rest
    decreases target - k
  {
    hide Next, Run, StageActs;
    var gap := GapAt(c.between, k);
    var one := gap + StageActs(Run(w, gap), stages[k], c);
    if k == target {
      rest := StagesActs(Run(w, one), stages, k + 1, c);
    } else {
      rest := StagePart(Run(w, one), stages, k + 1, target, c);
      RunAppend(w, one, Before(Run(w, one), stages, k + 1, target, c));
    }
  }

  /** A sweep visits each of its rows. */
  lemma {:induction false} SweepVisits(c: Weather, sweep: RowSweep, k: nat, n: nat, row: nat)
    requires k <= row < n
    ensures ByWorker(RowAct(sweep, row, ClockAt(c, sweep, row))) in SweepActs(c, sweep, k, n)
    decreases n - k
  {
    if k < row { SweepVisits(c, sweep, k + 1, n, row); }
  }

  /** The steps up to a row's turn, and its turn: one drive, with the closing first where the sweep closes rows. */
  lemma {:induction false} RowsVisit(w: World, rows: seq<Inbox>, k: nat, states: set<InboxState>, closing: bool,
                                     encounters: seq<Encounter>, now: int, m: nat)
    returns (before: seq<Act>, rest: seq<Act>)
    requires (hide Next, Run; k <= m < |rows| && rows[m].state in states)
    ensures DriveRowsActs(w, rows, k, states, closing, encounters, now)
            == before + RowActs(Run(w, before), m, closing, now, EncounterAt(encounters, m, now)) + rest
    decreases m - k
  {
    hide Next, RowActs;
    var one := RowActs(w, k, closing, now, EncounterAt(encounters, k, now));
    if k == m {
      before, rest := [], DriveRowsActs(Run(w, one), rows, k + 1, states, closing, encounters, now);
    } else if rows[k].state !in states {
      before, rest := RowsVisit(w, rows, k + 1, states, closing, encounters, now, m);
    } else {
      var b, r := RowsVisit(Run(w, one), rows, k + 1, states, closing, encounters, now, m);
      before, rest := one + b, r;
      RunAppend(w, one, b);
    }
  }

  // ---- No row goes away ----

  ghost predicate Standing(w: World) { Coupled(w) && QueueRun.QueueAt(w) }

  lemma RowsStay(w: World, acts: seq<Act>, sweep: RowSweep)
    requires Standing(w)
    ensures RowCount(w.t, sweep) <= RowCount(Run(w, acts).t, sweep)
  {
    hide Next, Run;
    TimesRun(w, acts);
    Advance.AdvanceRun(w, acts);
    QueueHistory.EvolveRun(w, acts);
  }

  /** The turn of row `row` in a sweep that is a tick's stage k. */
  lemma SweepStage(w: World, stages: seq<Stage>, k: nat, sweep: RowSweep, row: nat, c: Weather)
    requires (hide Next, Run; Standing(w) && row < RowCount(w.t, sweep))
    requires k < |stages| && stages[k] == Rows(sweep)
    ensures ByWorker(RowAct(sweep, row, ClockAt(c, sweep, row))) in StagesActs(w, stages, 0, c)
  {
    hide Next, Run, Standing;
    var before := Before(w, stages, 0, k, c);
    var rest := StagePart(w, stages, 0, k, c);
    RowsStay(w, before, sweep);
    SweepVisits(c, sweep, 0, RowCount(Run(w, before).t, sweep), row);
  }

  lemma BulkStage(w: World, stages: seq<Stage>, k: nat, c: Weather)
    requires (hide Next, Run; k < |stages| && stages[k].Bulk?)
    ensures ByWorker(stages[k].bulk) in StagesActs(w, stages, 0, c)
  {
    hide Next, Run;
    var rest := StagePart(w, stages, 0, k, c);
  }

  /** A slow tick looks after every approval's card and expiry, every job that may be a failed card, every bind request and
      every stray binding there was when it began, takes back leases, and ends with the safety nets and the retention. */
  lemma SlowTickVisits(w: World, c: Weather)
    requires (hide Next, Run; Standing(w))
    ensures var acts := SlowTickActs(w, c);
            && (forall p: nat :: p < |w.t.pendings| ==>
                  ByWorker(Replenish(p, c.now)) in acts && ByWorker(PendingTimeout(p, c.now)) in acts)
            && (forall j: nat :: j < |w.t.jobs| ==> ByWorker(Rearm(j, c.now)) in acts)
            && (forall r: nat :: r < |w.t.binds| ==> ByWorker(BindingTimeout(r, ClockAt(c, Binds, r))) in acts)
            && (forall b: nat :: b < |w.t.bindings| ==> ByWorker(CloseStray(b, ClockAt(c, Strays, b))) in acts)
            && ByWorker(Reclaim(c.now)) in acts && ByWorker(SweepDeliveries) in acts
            && ByWorker(RescueSending(c.now)) in acts && ByWorker(Retain(c.now)) in acts
  {
    hide Next, Run, Standing, StagesActs;
    var slow := Slow(c.now);
    forall p: nat | p < |w.t.pendings|
      ensures ByWorker(Replenish(p, c.now)) in SlowTickActs(w, c)
      ensures ByWorker(PendingTimeout(p, c.now)) in SlowTickActs(w, c)
    {
      SweepStage(w, slow, 2, Cards, p, c);
      SweepStage(w, slow, 5, Approvals, p, c);
    }
    forall j: nat | j < |w.t.jobs| ensures ByWorker(Rearm(j, c.now)) in SlowTickActs(w, c) {
      SweepStage(w, slow, 3, Rearming, j, c);
    }
    forall r: nat | r < |w.t.binds| ensures ByWorker(BindingTimeout(r, ClockAt(c, Binds, r))) in SlowTickActs(w, c) {
      SweepStage(w, slow, 6, Binds, r, c);
    }
    forall b: nat | b < |w.t.bindings| ensures ByWorker(CloseStray(b, ClockAt(c, Strays, b))) in SlowTickActs(w, c) {
      SweepStage(w, slow, 7, Strays, b, c);
    }
    BulkStage(w, slow, 8, c);
    BulkStage(w, slow, 9, c);
    BulkStage(w, slow, 10, c);
    BulkStage(w, slow, 11, c);
  }

  /** A fast tick tries to activate every binding there was and scans for deaths. */
  lemma FastTickVisits(w: World, c: Weather)
    requires (hide Next, Run; Standing(w))
    ensures var acts := FastTickActs(w, c);
            && (forall b: nat :: b < |w.t.bindings| ==> ByWorker(ActivateOne(b, ClockAt(c, Activations, b))) in acts)
            && ByWorker(ScanDeaths(c.now)) in acts
  {
    hide Next, Run, Standing, StagesActs;
    forall b: nat | b < |w.t.bindings| ensures ByWorker(ActivateOne(b, ClockAt(c, Activations, b))) in FastTickActs(w, c) {
      SweepStage(w, FAST, 0, Activations, b, c);
    }
    var rest := StagePart(w, FAST, 0, 2, c);
  }

  // ---- Messages ----

  /** Row m is driven, with the readings a drive may need. */
  ghost predicate DrivenIn(w: World, acts: seq<Act>, m: nat, e: Encounter) {
    exists before, rest :: acts == before + DriveActs(Run(w, before), m, e, READINGS) + rest
  }

  /** Row m is first closed if its time is up, then driven. */
  ghost predicate ClosedOrDriven(w: World, acts: seq<Act>, m: nat, c: Weather) {
    && DrivenIn(w, acts, m, EncounterAt(c.others, m, c.now))
    && ByWorker(ResolveTimeout(m, c.now)) in acts && ByWorker(Orphaned(m, c.now)) in acts
    && ByWorker(MaterializeTimeout(m, c.now)) in acts
  }

  lemma DrivenHere(w: World, acts: seq<Act>, before: seq<Act>, m: nat, e: Encounter, rest: seq<Act>)
    requires acts == before + DriveActs(Run(w, before), m, e, READINGS) + rest
    ensures DrivenIn(w, acts, m, e)
  {}

  lemma WaitingAreDriven(w: World, stages: seq<Stage>, k: nat, c: Weather, m: nat)
    requires (hide Next, Run; k < |stages| && stages[k].DriveWaiting?)
    requires var row := Run(w, Before(w, stages, 0, k, c)).t.inbox; m < |row| && row[m].state.WaitingBinding?
    ensures DrivenIn(w, StagesActs(w, stages, 0, c), m, EncounterAt(c.waiting, m, c.now))
  {
    hide Next, Run, DriveActs, StagesActs, Before;
    var e := EncounterAt(c.waiting, m, c.now);
    var s := Before(w, stages, 0, k, c);
    var after := StagePart(w, stages, 0, k, c);
    var w1 := Run(w, s);
    var before, rest := RowsVisit(w1, w1.t.inbox, 0, {WaitingBinding}, false, c.waiting, c.now, m);
    RunAppend(w, s, before);
    RunAppend(w, s + before, e.before);
    DrivenHere(w, StagesActs(w, stages, 0, c), s + before + e.before, m, e, rest + after);
  }

  lemma OthersAreDriven(w: World, stages: seq<Stage>, k: nat, c: Weather, m: nat)
    requires (hide Next, Run; k < |stages| && stages[k].Redrive?)
    requires var rows := Run(w, Before(w, stages, 0, k, c)).t.inbox; m < |rows| && rows[m].state in stages[k].states
    ensures ClosedOrDriven(w, StagesActs(w, stages, 0, c), m, c)
  {
    hide Next, Run, DriveActs, StagesActs, Before;
    var e := EncounterAt(c.others, m, c.now);
    var s := Before(w, stages, 0, k, c);
    var after := StagePart(w, stages, 0, k, c);
    var w1 := Run(w, s);
    var before, rest := RowsVisit(w1, w1.t.inbox, 0, stages[k].states, true, c.others, c.now, m);
    var head := s + before + e.before;
    RunAppend(w, s, before);
    RunAppend(w, s + before, e.before);
    RunAppend(w, head, Closers(m, c.now));
    assert ByWorker(ResolveTimeout(m, c.now)) == Closers(m, c.now)[0];
    DrivenHere(w, StagesActs(w, stages, 0, c), head + Closers(m, c.now), m, e, rest + after);
  }

  /** What the two ticks drive: each message waiting when they get to the waiting ones; in a slow tick also each message
      still being read, and each approved for download, when it gets to those. */
  lemma TicksDrive(w: World, c: Weather, m: nat)
    ensures (hide Next, Run; var t := Run(w, Before(w, FAST, 0, 1, c)).t;
            m < |t.inbox| && t.inbox[m].state.WaitingBinding? ==>
              DrivenIn(w, FastTickActs(w, c), m, EncounterAt(c.waiting, m, c.now)))
    ensures var t := Run(w, Before(w, Slow(c.now), 0, 0, c)).t;
            m < |t.inbox| && t.inbox[m].state.WaitingBinding? ==>
              DrivenIn(w, SlowTickActs(w, c), m, EncounterAt(c.waiting, m, c.now))
    ensures var t := Run(w, Before(w, Slow(c.now), 0, 1, c)).t;
            m < |t.inbox| && (t.inbox[m].state.Received? || t.inbox[m].state.Resolving?) ==>
              ClosedOrDriven(w, SlowTickActs(w, c), m, c)
    ensures var t := Run(w, Before(w, Slow(c.now), 0, 4, c)).t;
            m < |t.inbox| && t.inbox[m].state.ApprovedMaterializing? ==> ClosedOrDriven(w, SlowTickActs(w, c), m, c)
  {
    hide Next, Run, StagesActs, Before, ClosedOrDriven, DrivenIn;
    var slow := Slow(c.now);
    var fast0 := Run(w, Before(w, FAST, 0, 1, c)).t.inbox;
    if m < |fast0| && fast0[m].state.WaitingBinding? { WaitingAreDriven(w, FAST, 1, c, m); }
    var slow0 := Run(w, Before(w, slow, 0, 0, c)).t.inbox;
    if m < |slow0| && slow0[m].state.WaitingBinding? { WaitingAreDriven(w, slow, 0, c, m); }
    var slow1 := Run(w, Before(w, slow, 0, 1, c)).t.inbox;
    if m < |slow1| && (slow1[m].state.Received? || slow1[m].state.Resolving?) { OthersAreDriven(w, slow, 1, c, m); }
    var slow4 := Run(w, Before(w, slow, 0, 4, c)).t.inbox;
    if m < |slow4| && slow4[m].state.ApprovedMaterializing? { OthersAreDriven(w, slow, 4, c, m); }
  }
}
