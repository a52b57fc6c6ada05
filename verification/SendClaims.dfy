/** The linearization point of sending. */
module SendClaims {
  import opened Schema
  import opened World
  import opened Jobs
  import opened OutboundTx
  import opened Machine
  import opened QueueInvariant
  import opened QueueRun

  /** Job j goes into flight. */
  predicate Launched(w: World, w': World, j: nat) {
    j < |w'.t.jobs| && w'.t.jobs[j].state.Sending? && (j < |w.t.jobs| ==> !w.t.jobs[j].state.Sending?)
  }

  /** Everything that is checked before a job may go. */
  predicate Cleared(w: World, j: nat, now: int) {
    && j < |w.t.jobs| && w.t.jobs[j].state.Retryable() && ChatAllowed(w.cfg, w.t.jobs[j].chat)
    && !OverCap(w.t.jobs[j]) && !NotYetDue(w.t.jobs[j], now) && OrderGate(w.t.jobs, j).Pass?
    && GuardOk(w.t, w.t.jobs[j])
  }

  /** Quiet steps launch nothing. */
  lemma OthersLaunchNothing(w: World, w': World, j: nat)
    requires QueueAt(w) && (QuietRows(w.t.jobs, w'.t.jobs) || TurnsAppended(w.t.jobs, w'.t.jobs))
    ensures !Launched(w, w', j)
  {
    if QuietRows(w.t.jobs, w'.t.jobs) { QuietKeepsSending(w.t.jobs, w'.t.jobs); }
  }

  lemma PrepareLaunches(w: World, now: int, at: int, j: nat)
    requires Launched(w, StepPrepare(w, now, at), j)
    ensures Cleared(w, j, now)
  {}

  lemma FinishLaunchesNothing(w: World, outcome: Outcome, now: int, j: nat)
    ensures !Launched(w, StepFinish(w, outcome, now), j)
  {}

  lemma ScanLaunchesNothing(w: World, a: SenderAct, j: nat)
    requires a.ReconcileNext? || a.SweepNext? || a.DropDisallowed?
    ensures !Launched(w, StepSender(w, a), j)
  {}

  lemma SenderLaunches(w: World, a: SenderAct, j: nat)
    requires Launched(w, StepSender(w, a), j)
    ensures a.PrepareNext? && Cleared(w, j, a.prepareNow)
  {
    match a
    case PrepareNext(now, at) => PrepareLaunches(w, now, at, j);
    case Finish(outcome, now) => FinishLaunchesNothing(w, outcome, now, j);
    case ReconcileNext => ScanLaunchesNothing(w, a, j);
    case SweepNext => ScanLaunchesNothing(w, a, j);
    case DropDisallowed => ScanLaunchesNothing(w, a, j);
    case _ =>
  }

  lemma OnlyPrepareLaunches(w: World, a: Act, j: nat)
    requires (hide Next, Run; QueueAt(w) && Launched(w, Next(w, a), j))
    ensures a.BySender? && a.sender.PrepareNext? && Cleared(w, j, a.sender.prepareNow)
  {
    hide Run, StepSender, StepIntake, StepWorker, StepCli, StepHook, StepListener;
    if a.BySender? {
      SenderLaunches(w, a.sender, j);
    } else {
      OthersLeaveQueue(w, a);
      OthersLaunchNothing(w, Next(w, a), j);
    }
  }
}
