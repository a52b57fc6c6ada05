/** What the history beside the tables records, and when: the claims that rest on it are worth what it says. */
module HistoryLaws {
  import opened Schema
  import opened World
  import opened Machine
  import Frames

  /** The allowlist was asked about message m of this sender, for an active binding, and said yes. */
  predicate SaidYes(w: World, a: Act, m: nat, sender: Option<nat>) {
    && a.ByIntake? && m < |w.t.inbox| && w.daemon.Idle? && sender.Some? && sender != Some(w.cfg.owner)
    && w.t.inbox[m].binding.Some? && w.t.inbox[m].binding.value < |w.t.bindings|
    && w.t.bindings[w.t.inbox[m].binding.value].status.Active?
    && ((a.intake.Decide? && a.intake.decideMsg == m && a.intake.decideListed && w.t.inbox[m].state.Resolving?
         && sender == (if w.t.inbox[m].snap.Some? then w.t.inbox[m].snap.value else a.intake.decideSnap).sender)
        || (a.intake.Redecide? && a.intake.waitMsg == m && a.intake.waitListed && w.t.inbox[m].state.WaitingBinding?
            && sender == (if w.t.inbox[m].snap.Some? then w.t.inbox[m].snap.value else a.intake.waitSnap).sender))
  }

  lemma IntakeAllows(w: World, a: IntakeAct, m: nat, chat: nat, sender: Option<nat>)
    requires (m, chat, sender) in StepIntake(w, a).hist.allowed && (m, chat, sender) !in w.hist.allowed
    ensures SaidYes(w, ByIntake(a), m, sender) && w.t.inbox[m].chat == chat
  {}

  /** A member is on record as let through only once the allowlist said so for that very message. */
  lemma AllowedMeansAsked(w: World, a: Act, m: nat, chat: nat, sender: Option<nat>)
    requires (hide Next, Run; (m, chat, sender) in Next(w, a).hist.allowed && (m, chat, sender) !in w.hist.allowed)
    ensures SaidYes(w, a, m, sender) && w.t.inbox[m].chat == chat
  {
    hide Run, StepSender, StepIntake, StepWorker, StepCli, StepHook, StepListener;
    match a
    case BySender(s) => Frames.SenderFrame(w, s);
    case ByIntake(i) => IntakeAllows(w, i, m, chat, sender);
    case ByWorker(r) => Frames.WorkerFrame(w, r);
    case ByCli(c) => Frames.CliFrame(w, c);
    case ByHook(inst, h) => Frames.HookFrame(w, inst, h);
    case ByListener(c, l) => Frames.ListenerFrame(w, c, l);
  }

  /** The daemon records job j as sent with its body: the answer to its call is in. */
  predicate Acknowledges(w: World, a: Act, j: nat) {
    && a.BySender? && a.sender.Finish? && a.sender.outcome.WasSent? && w.daemon.InFlight?
    && w.daemon.k < |w.daemon.rows| && w.daemon.rows[w.daemon.k] == j < |w.t.jobs| && w.t.jobs[j].state.Sending?
  }

  lemma SenderAcknowledges(w: World, a: SenderAct, j: nat)
    requires j in StepSender(w, a).hist.acked
    ensures (j in w.hist.acked && StepSender(w, a).hist.acked[j] == w.hist.acked[j])
            || (Acknowledges(w, BySender(a), j)
                && (w.t.jobs[j].body.Some? ==> StepSender(w, a).hist.acked[j] == w.t.jobs[j].body.value))
  {}

  /** A chunk is on record as acknowledged only by the answer to its own call, and with the body that was sent. */
  lemma AckedMeansAnswered(w: World, a: Act, j: nat)
    requires (hide Next, Run; j in Next(w, a).hist.acked)
    ensures (j in w.hist.acked && Next(w, a).hist.acked[j] == w.hist.acked[j])
            || (Acknowledges(w, a, j) && (w.t.jobs[j].body.Some? ==> Next(w, a).hist.acked[j] == w.t.jobs[j].body.value))
  {
    hide Run, StepSender, StepIntake, StepWorker, StepCli, StepHook, StepListener;
    match a
    case BySender(s) => SenderAcknowledges(w, s, j);
    case ByIntake(i) => Frames.IntakeFrame(w, i);
    case ByWorker(r) => Frames.WorkerFrame(w, r);
    case ByCli(c) => Frames.CliFrame(w, c);
    case ByHook(inst, h) => Frames.HookFrame(w, inst, h);
    case ByListener(c, l) => Frames.ListenerFrame(w, c, l);
  }

  /** A listener of b writes a heartbeat: on its row while that shows its epoch, or by a takeover it wins. */
  predicate WritesBeat(w: World, a: Act, b: nat) {
    && a.ByListener? && a.core in w.cores && w.cores[a.core].binding == b < |w.t.bindings|
    && ((a.listener.Beat? && w.cores[a.core].epoch == Some(w.t.bindings[b].epoch))
        || (a.listener.Takeover? && w.t.bindings[b].epoch == a.listener.seen.epoch
            && Next(w, a).t.bindings[b].epoch == a.listener.seen.epoch + 1))
  }

  /** A binding counts as heard from exactly from a heartbeat to the next mark; and a scan's silent rows are those not heard
      from when it read them. */
  ghost predicate SilenceTold(w: World, w': World, a: Act, b: nat) {
    && (WritesBeat(w, a, b) ==> b in w'.hist.beaten)
    && (b in w'.hist.beaten && b !in w.hist.beaten ==> WritesBeat(w, a, b))
    && (b in w.hist.beaten && b !in w'.hist.beaten ==>
          && a.ByWorker? && a.worker.JudgeNext? && w.daemon.Judging? && w.daemon.at == b < |w.daemon.seen|
          && w.daemon.seen[b].suspect.None?)
    && (w'.hist.silent != w.hist.silent ==> a.ByWorker? && a.worker.ScanDeaths? && w.daemon.Idle?)
    && (a.ByWorker? && a.worker.ScanDeaths? && w.daemon.Idle? ==>
          (b in w'.hist.silent <==> b < |w.t.bindings| && b !in w.hist.beaten) && w'.daemon.Judging?
          && w'.daemon.seen == w.t.bindings && w'.daemon.at == 0 && w'.daemon.scanNow == a.worker.scanNow)
  }

  lemma WorkerSilence(w: World, r: WorkerAct, b: nat)
    ensures SilenceTold(w, Next(w, ByWorker(r)), ByWorker(r), b)
  {
    hide Run, StepSender, StepIntake, StepCli, StepHook, StepListener;
  }

  lemma ListenerSilence(w: World, c: nat, l: ListenerAct, b: nat)
    ensures SilenceTold(w, Next(w, ByListener(c, l)), ByListener(c, l), b)
  {
    hide Run, StepSender, StepIntake, StepWorker, StepCli, StepHook;
  }

  lemma SilenceMeansNoBeat(w: World, a: Act, b: nat)
    ensures SilenceTold(w, Next(w, a), a, b)
  {
    match a
    case BySender(s) => Frames.SenderFrame(w, s);
    case ByIntake(i) => Frames.IntakeFrame(w, i);
    case ByWorker(r) => WorkerSilence(w, r, b);
    case ByCli(c) => Frames.CliFrame(w, c);
    case ByHook(inst, h) => Frames.HookFrame(w, inst, h);
    case ByListener(c, l) => ListenerSilence(w, c, l, b);
  }

  /** A line is on record as printed only by the listener that had claimed its delivery under that token, and an epoch as
      won only by a takeover of the listener that has it then. */
  lemma PrintedAndWon(w: World, a: Act)
    ensures (hide Next, Run; var w' := Next(w, a);
            forall d: nat, token: nat :: (d, token) in w'.hist.printed && (d, token) !in w.hist.printed ==>
              a.ByListener? && a.listener.Print? && a.core in w.cores && w.cores[a.core].holding == Claimed(d, token))
    ensures var w' := Next(w, a);
            forall b: nat, e: nat, c: nat :: (b, e, c) in w'.hist.won && (b, e, c) !in w.hist.won ==>
              && a.ByListener? && a.listener.Takeover? && a.core == c && c in w'.cores
              && w'.cores[c].binding == b && w'.cores[c].epoch == Some(e)
  {
    hide Run, StepSender, StepIntake, StepWorker, StepCli, StepHook;
    match a
    case BySender(s) => Frames.SenderFrame(w, s);
    case ByIntake(i) => Frames.IntakeFrame(w, i);
    case ByWorker(r) => Frames.WorkerFrame(w, r);
    case ByCli(c) => Frames.CliFrame(w, c);
    case ByHook(inst, h) => Frames.HookFrame(w, inst, h);
    case ByListener(c, l) =>
  }
}
