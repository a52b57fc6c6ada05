/** Listeners: exclusivity, leases and silence, over whole runs. */
module ListenerClaims {
  import opened Schema
  import opened World
  import opened LifecycleTx
  import opened RecoveryTx
  import opened ListenerTx
  import opened Machine
  import opened IntakeInvariant
  import opened ListenerInvariant

  // ---- One listener at a time ----

  /** Two listeners of one binding never hold the same epoch, so at most one of them may beat, claim or lease. */
  lemma OneListenerMatches(w: World, c: nat, c': nat)
    requires ListenAt(w) && c in w.cores && c' in w.cores && c != c' && w.cores[c].binding == w.cores[c'].binding
    ensures w.cores[c].epoch.Some? ==> w.cores[c].epoch != w.cores[c'].epoch
    ensures !(BeatWins(w.t, w.cores[c]) && BeatWins(w.t, w.cores[c']))
    ensures ClaimTarget(w.t, w.cores[c]).None? || ClaimTarget(w.t, w.cores[c']).None?
  {}

  /** A binding's epoch only ever rises by one, by a takeover, and to a value nobody had won. */
  lemma EpochsAreWonOnce(w: World, a: Act, b: nat)
    requires (hide Next, Run; ListenAt(w) && b < |w.t.bindings|)
    ensures b < |Next(w, a).t.bindings|
    ensures var e, e' := w.t.bindings[b].epoch, Next(w, a).t.bindings[b].epoch;
            e' != e ==>
              && a.ByListener? && a.listener.Takeover? && e' == e + 1
              && (forall c :: (b, e', c) !in w.hist.won)
              && (forall c :: (b, e', c) in Next(w, a).hist.won <==> c == a.core)
  {
    hide Run, StepSender, StepIntake, StepWorker, StepHook;
    match a
    case BySender(s) => SenderAside(w, s);
    case ByIntake(i) => IntakeAppends(w, i);
    case ByWorker(r) => WorkerKeepsEpochs(w, r, b);
    case ByCli(Bind(chat, inst, nonce, now)) => CreateBindingAside(w.t, chat, inst, nonce, now);
    case ByCli(Unbind(ended, now)) => TerminateAside(w.t, ended, UserUnbind, Closed, now);
    case ByHook(inst, h) => HookAside(w, inst, h);
    case ByListener(c, l) =>
  }

  lemma JudgeKeepsEpochs(w: World, dead: bool, inSuspectWindow: bool, now: int, b: nat)
    requires b < |w.t.bindings|
    ensures var bs := StepJudge(w, dead, inSuspectWindow, now).t.bindings;
            b < |bs| && bs[b].epoch == w.t.bindings[b].epoch
  {}

  lemma WorkerKeepsEpochs(w: World, r: WorkerAct, b: nat)
    requires b < |w.t.bindings|
    ensures b < |StepWorker(w, r).t.bindings| && StepWorker(w, r).t.bindings[b].epoch == w.t.bindings[b].epoch
  {
    if r.JudgeNext? {
      JudgeKeepsEpochs(w, r.dead, r.inSuspectWindow, r.judgeNow, b);
    } else {
      WorkerAside(w.t, r);
      assert RowAside(w.t.bindings[b], WorkerTables(w.t, r).bindings[b]);
    }
  }

  /** A step that leases a delivery is the claim of the one listener that matches the row's epoch, and the delivery is
      the first queued one. */
  lemma OnlyTheMatchingListenerLeases(w: World, a: Act, d: nat)
    requires (hide Next, Run; ListenAt(w) && d < |w.t.deliveries| <= |Next(w, a).t.deliveries|)
    requires !w.t.deliveries[d].state.DLeased? && Next(w, a).t.deliveries[d].state.DLeased?
    ensures a.ByListener? && a.listener.Claim? && a.core in w.cores && BeatWins(w.t, w.cores[a.core])
    ensures ClaimTarget(w.t, w.cores[a.core]) == Some(d) && w.t.bindings[w.t.deliveries[d].binding].status.Active?
    ensures forall i :: 0 <= i < d && w.t.deliveries[i].binding == w.t.deliveries[d].binding ==>
              !w.t.deliveries[i].state.DEnqueued?
  {
    hide Run, StepSender, StepIntake, StepWorker, StepHook;
    match a
    case BySender(s) => SenderAside(w, s);
    case ByIntake(i) => IntakeAppends(w, i); AppendsAside(w.t, StepIntake(w, i).t);
    case ByWorker(r) => WorkerLeasesNothing(w, r, d);
    case ByCli(Bind(chat, inst, nonce, now)) => CreateBindingAside(w.t, chat, inst, nonce, now);
    case ByCli(Unbind(b, now)) => TerminateAside(w.t, b, UserUnbind, Closed, now);
    case ByHook(inst, h) => HookAside(w, inst, h);
    case ByListener(c, l) =>
  }

  lemma WorkerLeasesNothing(w: World, a: WorkerAct, d: nat)
    requires d < |w.t.deliveries| && !w.t.deliveries[d].state.DLeased?
    ensures d < |StepWorker(w, a).t.deliveries| && !StepWorker(w, a).t.deliveries[d].state.DLeased?
  {
    if a.JudgeNext? {
      if w.daemon.Judging? && w.daemon.at < |w.daemon.seen| {
        TerminateAside(w.t, w.daemon.at, CcGone, Closed, a.judgeNow);
        TerminateAside(w.t, w.daemon.at, ListenerGone, Dead, a.judgeNow);
      }
    } else {
      WorkerAside(w.t, a);
      assert DeliveryAside(w.t.deliveries[d], WorkerTables(w.t, a).deliveries[d]);
    }
  }

  // ---- Nothing is lost ----

  /** While the binding is active its delivery is queued, leased or emitted; a lease that runs out puts it back. */
  lemma NothingIsLost(w: World, d: nat, now: int)
    requires ListenAt(w) && IntakeOk(w.t, w.hist.allowed, w.cfg.owner) && d < |w.t.deliveries|
    requires w.t.bindings[w.t.deliveries[d].binding].status.Active?
    ensures w.t.deliveries[d].state.DEnqueued? || w.t.deliveries[d].state.DLeased? || w.t.deliveries[d].state.DEmitted?
    ensures w.t.deliveries[d].state.DLeased? ==>
              w.t.deliveries[d].leaseUntil.Some?
              && (w.t.deliveries[d].leaseUntil.value < now ==> ReclaimLeases(w.t, now).deliveries[d].state.DEnqueued?)
    ensures w.t.deliveries[d].state.DEmitted? ==>
              w.t.deliveries[d].token.Some? && (d, w.t.deliveries[d].token.value) in w.hist.printed
    ensures w.t.deliveries[d].state.DEnqueued? ==>
              forall c :: c in w.cores && BeatWins(w.t, w.cores[c])
                          && w.cores[c].binding == w.t.deliveries[d].binding ==>
                ClaimTarget(w.t, w.cores[c]).Some? && ClaimTarget(w.t, w.cores[c]).value <= d
  {}

  // ---- Evidence before listener_gone ----

  /** Whatever else happened in between: when the scan gives a listener up, the row it read had been marked for 15 s, had
      no heartbeat within 15 s, and none nor a takeover had come in since the mark. */
  lemma EvidenceBeforeGone(w: World, dead: bool, inSuspectWindow: bool)
    requires ListenAt(w) && w.daemon.Judging? && w.daemon.at < |w.daemon.seen|
    requires Judge(w.daemon.seen[w.daemon.at], w.daemon.scanNow, dead, inSuspectWindow).ConfirmedGone?
    ensures var row, now := w.daemon.seen[w.daemon.at], w.daemon.scanNow;
            && row.suspect.Some? && now - row.suspect.value >= SUSPECT_CONFIRM_MS
            && (row.beat.Some? ==> now - row.beat.value > HEARTBEAT_GRACE_MS)
            && w.daemon.at in w.hist.silent
  {}

  predicate Declared(w: World, a: Act, b: nat) {
    && a.ByWorker? && a.worker.JudgeNext? && w.daemon.Judging? && w.daemon.at == b && b < |w.daemon.seen|
    && Judge(w.daemon.seen[b], w.daemon.scanNow, a.worker.dead, a.worker.inSuspectWindow).ConfirmedGone?
  }

  /** Nothing else ever declares a binding dead. */
  lemma OnlyTheScanDeclaresDead(w: World, a: Act, b: nat)
    requires (hide Next, Run; b < |w.t.bindings| && !w.t.bindings[b].status.Dead?)
    ensures b < |Next(w, a).t.bindings|
    ensures Next(w, a).t.bindings[b].status.Dead? ==> Declared(w, a, b)
  {
    hide Run, StepSender, StepIntake, StepWorker, StepHook;
    match a
    case BySender(s) => SenderAside(w, s);
    case ByIntake(i) => IntakeAppends(w, i);
    case ByWorker(r) => WorkerDeclares(w, r, b);
    case ByCli(c) => CliDeclaresNothing(w, c, b);
    case ByHook(inst, h) => HookDeclaresNothing(w, inst, h, b);
    case ByListener(c, l) =>
  }

  lemma WorkerDeclares(w: World, r: WorkerAct, b: nat)
    requires b < |w.t.bindings| && !w.t.bindings[b].status.Dead?
    ensures b < |StepWorker(w, r).t.bindings|
    ensures StepWorker(w, r).t.bindings[b].status.Dead? ==> Declared(w, ByWorker(r), b)
  {
    hide Run, JudgeRow, Judge, WorkerTables;
    if r.JudgeNext? && w.daemon.Judging? && w.daemon.at < |w.daemon.seen| {
      RowDeclares(w.t, w.daemon.at, w.daemon.seen[w.daemon.at], w.daemon.scanNow, r.dead, r.inSuspectWindow, r.judgeNow, b);
    } else if !r.ScanDeaths? {
      RecoveryDeclaresNothing(w.t, r, b);
    }
  }

  lemma RecoveryDeclaresNothing(t: Tables, r: WorkerAct, b: nat)
    requires b < |t.bindings| && !t.bindings[b].status.Dead?
    ensures b < |WorkerTables(t, r).bindings| && !WorkerTables(t, r).bindings[b].status.Dead?
  {}

  lemma RowDeclares(t: Tables, at: nat, seen: Binding, scanNow: int, dead: bool, inSuspectWindow: bool, now: int, b: nat)
    requires b < |t.bindings| && !t.bindings[b].status.Dead?
    ensures var t' := JudgeRow(t, at, seen, scanNow, dead, inSuspectWindow, now);
            && b < |t'.bindings|
            && (t'.bindings[b].status.Dead? ==> b == at && Judge(seen, scanNow, dead, inSuspectWindow).ConfirmedGone?)
  {}

  lemma CliDeclaresNothing(w: World, c: CliAct, b: nat)
    requires b < |w.t.bindings| && !w.t.bindings[b].status.Dead?
    ensures b < |StepCli(w, c).t.bindings| && !StepCli(w, c).t.bindings[b].status.Dead?
  {}

  lemma HookDeclaresNothing(w: World, inst: nat, h: HookAct, b: nat)
    requires b < |w.t.bindings| && !w.t.bindings[b].status.Dead?
    ensures b < |StepHook(w, inst, h).t.bindings| && !StepHook(w, inst, h).t.bindings[b].status.Dead?
  {
    hide Run, StepIntake, StepCli, StepListener;
  }

  // ---- Thirty seconds of silence ----

  predicate MarkedSilent(row: Binding) {
    row.suspect.Some? && row.beat.Some? ==> row.suspect.value - row.beat.value > HEARTBEAT_GRACE_MS
  }

  /** The scan has read b and not yet judged it. */
  predicate Awaits(w: World, b: nat) { w.daemon.Judging? && w.daemon.at <= b < |w.daemon.seen| }

  /** A listener of b writes a heartbeat, on its own row or by taking over. */
  predicate Beats(w: World, a: Act, b: nat) {
    && a.ByListener? && (a.listener.Beat? || a.listener.Takeover?)
    && a.core in w.cores && w.cores[a.core].binding == b
  }

  /** No heartbeat of b falls between a scan's reading of b without a mark and its judging of b. */
  ghost predicate MarksUndisturbed(w: World, acts: seq<Act>, b: nat)
    decreases |acts|
  {
    acts != [] ==>
      && !(Beats(w, acts[0], b) && Awaits(w, b) && w.daemon.seen[b].suspect.None?)
      && MarksUndisturbed(Next(w, acts[0]), acts[1..], b)
  }

  ghost predicate SilenceOk(w: World, b: nat) {
    && (b < |w.t.bindings| ==> MarkedSilent(w.t.bindings[b]))
    && (Awaits(w, b) ==>
          && b < |w.t.bindings| && MarkedSilent(w.daemon.seen[b])
          && (w.daemon.seen[b].suspect.None? ==> w.t.bindings[b].beat == w.daemon.seen[b].beat))
  }

  /** Steps that beat for nobody and mark nobody: the row of b keeps its heartbeat and gets no mark. */
  ghost predicate LeavesBeat(w: World, w': World, b: nat) {
    && |w.t.bindings| <= |w'.t.bindings|
    && (b < |w.t.bindings| ==> RowAside(w.t.bindings[b], w'.t.bindings[b]))
    && (|w.t.bindings| <= b < |w'.t.bindings| ==> w'.t.bindings[b].suspect.None?)
    && (w'.daemon.Judging? ==> w'.daemon == w.daemon)
  }

  lemma OthersLeaveBeat(w: World, a: Act, b: nat)
    requires (hide Next, Run; !a.ByListener? && !(a.ByWorker? && (a.worker.JudgeNext? || a.worker.ScanDeaths?)))
    ensures LeavesBeat(w, Next(w, a), b)
  {
    hide Run, StepSender, StepIntake, StepHook, StepListener;
    match a
    case BySender(s) => SenderAside(w, s);
    case ByIntake(i) => IntakeAppends(w, i); IntakeLeavesListeners(w, i);
    case ByWorker(r) => WorkerAside(w.t, r);
    case ByCli(Bind(chat, inst, nonce, now)) => CreateBindingAside(w.t, chat, inst, nonce, now);
    case ByCli(Unbind(ended, now)) => TerminateAside(w.t, ended, UserUnbind, Closed, now);
    case ByHook(inst, h) => HookAside(w, inst, h);
  }

  /** What judging one row does to the row of b. */
  lemma JudgeLeavesBeat(w: World, dead: bool, inSuspectWindow: bool, now: int, b: nat)
    requires w.daemon.Judging? && w.daemon.at < |w.daemon.seen| && b < |w.t.bindings|
    ensures var bs := StepJudge(w, dead, inSuspectWindow, now).t.bindings;
            && |bs| == |w.t.bindings| && bs[b].beat == w.t.bindings[b].beat
            && (bs[b].suspect == w.t.bindings[b].suspect || bs[b].suspect == None
                || (bs[b].suspect == Some(w.daemon.scanNow) && w.daemon.at == b
                    && Judge(w.daemon.seen[b], w.daemon.scanNow, dead, inSuspectWindow).Suspected?))
  {
    hide Next, Run, Terminate;
    var d := w.daemon;
    TerminateAside(w.t, d.at, CcGone, Closed, now);
    TerminateAside(w.t, d.at, ListenerGone, Dead, now);
  }

  lemma JudgeSilence(w: World, dead: bool, inSuspectWindow: bool, now: int, b: nat)
    requires SilenceOk(w, b)
    ensures SilenceOk(StepJudge(w, dead, inSuspectWindow, now), b)
  {
    hide Next, Run;
    if w.daemon.Judging? && w.daemon.at < |w.daemon.seen| {
      if b < |w.t.bindings| {
        JudgeLeavesBeat(w, dead, inSuspectWindow, now, b);
      } else {
        TerminateAside(w.t, w.daemon.at, CcGone, Closed, now);
        TerminateAside(w.t, w.daemon.at, ListenerGone, Dead, now);
      }
    }
  }

  lemma ListenerSilence(w: World, c: nat, l: ListenerAct, b: nat)
    requires SilenceOk(w, b)
    requires !(Beats(w, ByListener(c, l), b) && Awaits(w, b) && w.daemon.seen[b].suspect.None?)
    ensures SilenceOk(StepListener(w, c, l), b)
  {
    hide Run, StepSender, StepIntake, StepWorker, StepCli, StepHook;
  }

  lemma SilenceStep(w: World, a: Act, b: nat)
    requires (hide Next, Run; SilenceOk(w, b))
    requires !(Beats(w, a, b) && Awaits(w, b) && w.daemon.seen[b].suspect.None?)
    ensures SilenceOk(Next(w, a), b)
  {
    hide Run, StepSender, StepIntake, StepHook, StepListener;
    if a.ByListener? {
      ListenerSilence(w, a.core, a.listener, b);
    } else if a.ByWorker? && a.worker.JudgeNext? {
      JudgeSilence(w, a.worker.dead, a.worker.inSuspectWindow, a.worker.judgeNow, b);
    } else if !(a.ByWorker? && a.worker.ScanDeaths?) {
      OthersLeaveBeat(w, a, b);
    }
  }

  lemma {:induction false} SilenceRunKeeps(w: World, acts: seq<Act>, b: nat)
    requires SilenceOk(w, b) && MarksUndisturbed(w, acts, b)
    ensures SilenceOk(Run(w, acts), b)
    decreases |acts|
  {
    hide Next;
    if acts != [] {
      SilenceStep(w, acts[0], b);
      SilenceRunKeeps(Next(w, acts[0]), acts[1..], b);
    }
  }

  /** If no heartbeat of b ever fell between a scan's reading and its marking of b, the listener of b is given up only
      after more than 30 s without a recorded heartbeat. */
  lemma ThirtySecondsOfSilence(cfg: Config, acts: seq<Act>, a: Act, b: nat)
    requires (hide Next, Run; MarksUndisturbed(Initial(cfg), acts, b))
    requires Declared(Run(Initial(cfg), acts), a, b)
    ensures var w := Run(Initial(cfg), acts);
            w.daemon.seen[b].beat.Some? ==>
              w.daemon.scanNow - w.daemon.seen[b].beat.value > HEARTBEAT_GRACE_MS + SUSPECT_CONFIRM_MS
  {
    hide Next, Run;
    SilenceRunKeeps(Initial(cfg), acts, b);
  }

  // ---- When a mark is honest ----

  /** The clock does not run backwards: a heartbeat written while a scan is under way is not older than the scan. */
  ghost predicate BeatsAfterScan(w: World, acts: seq<Act>, b: nat)
    decreases |acts|
  {
    acts != [] ==>
      && (Beats(w, acts[0], b) && w.daemon.Judging? ==>
            w.daemon.scanNow <= if acts[0].listener.Beat? then acts[0].listener.beatNow else acts[0].listener.takeoverNow)
      && BeatsAfterScan(Next(w, acts[0]), acts[1..], b)
  }

  /** A row still to be judged has the heartbeat it was read with, or one from after the read. */
  ghost predicate BeatOk(w: World, b: nat) {
    Awaits(w, b) ==>
      && b < |w.t.bindings|
      && (w.t.bindings[b].beat == w.daemon.seen[b].beat
          || (w.t.bindings[b].beat.Some? && w.t.bindings[b].beat.value >= w.daemon.scanNow))
  }

  lemma BeatStep(w: World, a: Act, b: nat)
    requires BeatOk(w, b) && BeatsAfterScan(w, [a], b)
    ensures BeatOk(Next(w, a), b)
  {
    hide Run, StepSender, StepIntake, StepHook, StepListener;
    assert [a][0] == a;
    if a.ByListener? {
      ListenerBeat(w, a.core, a.listener, b);
    } else if a.ByWorker? && a.worker.JudgeNext? {
      if w.daemon.Judging? && w.daemon.at < |w.daemon.seen| && b < |w.t.bindings| {
        JudgeLeavesBeat(w, a.worker.dead, a.worker.inSuspectWindow, a.worker.judgeNow, b);
      }
    } else if !(a.ByWorker? && a.worker.ScanDeaths?) {
      OthersLeaveBeat(w, a, b);
    }
  }

  lemma ListenerBeat(w: World, c: nat, l: ListenerAct, b: nat)
    requires BeatOk(w, b)
    requires Beats(w, ByListener(c, l), b) && w.daemon.Judging? ==>
               w.daemon.scanNow <= if l.Beat? then l.beatNow else l.takeoverNow
    ensures BeatOk(StepListener(w, c, l), b)
  {
    hide Run, StepSender, StepIntake, StepWorker, StepCli, StepHook;
  }

  lemma {:induction false} BeatRunKeeps(w: World, acts: seq<Act>, b: nat)
    requires BeatOk(w, b) && BeatsAfterScan(w, acts, b)
    ensures BeatOk(Run(w, acts), b)
    decreases |acts|
  {
    hide Next;
    if acts != [] {
      BeatStep(w, acts[0], b);
      BeatRunKeeps(Next(w, acts[0]), acts[1..], b);
    }
  }

  /** With a clock that does not run backwards, a mark is set on a heartbeat over 15 s old exactly if no heartbeat of the
      binding fell between the scan's read and the mark. */
  lemma MarkIsHonestIff(cfg: Config, acts: seq<Act>, a: Act, b: nat)
    requires (hide Next, Run; BeatsAfterScan(Initial(cfg), acts, b))
    requires var w := Run(Initial(cfg), acts);
             && a.ByWorker? && a.worker.JudgeNext? && w.daemon.Judging? && w.daemon.at == b < |w.daemon.seen|
             && Judge(w.daemon.seen[b], w.daemon.scanNow, a.worker.dead, a.worker.inSuspectWindow).Suspected?
             && b < |w.t.bindings| && w.t.bindings[b].status.Active?
    ensures var w := Run(Initial(cfg), acts);
            var w' := Next(w, a);
            && b < |w'.t.bindings| && w'.t.bindings[b].suspect == Some(w.daemon.scanNow)
            && (MarkedSilent(w'.t.bindings[b]) <==> w.t.bindings[b].beat == w.daemon.seen[b].beat)
  {
    hide Run, StepSender, StepIntake, StepCli, StepHook, StepListener;
    BeatRunKeeps(Initial(cfg), acts, b);
  }
}
