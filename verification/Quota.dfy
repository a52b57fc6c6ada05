/** The member quota over whole runs: never more than five undecided approvals in a chat. */
module Quota {
  import opened Schema
  import opened World
  import opened InboundTx
  import opened Machine
  import opened IntakeInvariant
  import opened Advance
  import Frames
  import IntakeRun
  import ListenerInvariant

  ghost predicate QuotaOk(t: Tables) {
    forall chat :: CountUndecided(t, chat, 0) <= MAX_UNDECIDED_PER_CHAT
  }

  ghost predicate Referring(t: Tables) {
    forall p :: 0 <= p < |t.pendings| ==> t.pendings[p].msg < |t.inbox|
  }

  /** Approvals are only ever decided, so the count only falls. */
  lemma {:induction false} CountFalls(t: Tables, t': Tables, chat: nat, from: nat)
    requires Referring(t) && InboxMoves(t, t') && PendingsMove(t, t') && |t'.pendings| == |t.pendings|
    requires from <= |t.pendings|
    ensures CountUndecided(t', chat, from) <= CountUndecided(t, chat, from)
    decreases |t.pendings| - from
  {
    if from < |t.pendings| {
      assert PendingMoves(t.pendings[from], t'.pendings[from]);
      assert RowMovesOn(t.inbox[t.pendings[from].msg], t'.inbox[t.pendings[from].msg]);
      CountFalls(t, t', chat, from + 1);
    }
  }

  /** One more approval counts at most one more, in its message's chat only. */
  lemma {:induction false} CountGrows(t: Tables, t': Tables, chat: nat, from: nat)
    requires Referring(t) && InboxMoves(t, t') && from <= |t.pendings| && |t'.pendings| == |t.pendings| + 1
    requires t'.pendings[..|t.pendings|] == t.pendings && t'.pendings[|t.pendings|].msg < |t'.inbox|
    ensures CountUndecided(t', chat, from)
            <= CountUndecided(t, chat, from) + (if t'.inbox[t'.pendings[|t.pendings|].msg].chat == chat then 1 else 0)
    decreases |t.pendings| - from
  {
    if from < |t.pendings| {
      assert t'.pendings[from] == t'.pendings[..|t.pendings|][from];
      assert RowMovesOn(t.inbox[t.pendings[from].msg], t'.inbox[t.pendings[from].msg]);
      CountGrows(t, t', chat, from + 1);
    } else {
      assert CountUndecided(t', chat, from + 1) == 0;
    }
  }

  lemma FallsKeeps(t: Tables, t': Tables)
    requires QuotaOk(t) && Referring(t) && InboxMoves(t, t') && PendingsMove(t, t') && |t'.pendings| == |t.pendings|
    ensures QuotaOk(t')
  {
    forall chat ensures CountUndecided(t', chat, 0) <= MAX_UNDECIDED_PER_CHAT {
      CountFalls(t, t', chat, 0);
    }
  }

  /** The gate opens an approval only below the quota. */
  lemma GateKeepsQuota(t: Tables, cfg: Config, m: nat, snap: Snap, b: nat, from: InboxState, listed: bool, nonce: nat,
                       now: int)
    requires QuotaOk(t) && Referring(t) && m < |t.inbox| && !from.Final()
    ensures QuotaOk(GateTx(t, cfg, m, snap, b, from, listed, nonce, now).0)
  {
    var t' := GateTx(t, cfg, m, snap, b, from, listed, nonce, now).0;
    GateRow(t, cfg, m, snap, b, from, listed, nonce, now);
    OneRowMoves(t, t', m);
    if |t'.pendings| == |t.pendings| {
      FallsKeeps(t, t');
    } else {
      var chat := t.inbox[m].chat;
      assert !OverQuota(t, chat, snap.sender, now) && t' == OpenApproval(t, m, b, from, nonce, now);
      forall c ensures CountUndecided(t', c, 0) <= MAX_UNDECIDED_PER_CHAT {
        CountGrows(t, t', c, 0);
      }
    }
  }

  lemma DecideKeepsQuota(t: Tables, cfg: Config, m: nat, fetched: Snap, listed: bool, nonce: nat, now: int)
    requires QuotaOk(t) && Referring(t) && m < |t.inbox|
    ensures QuotaOk(DecideTx(t, cfg, m, fetched, listed, nonce, now).0)
  {
    var t' := DecideTx(t, cfg, m, fetched, listed, nonce, now).0;
    DecideRow(t, cfg, m, fetched, listed, nonce, now);
    OneRowMoves(t, t', m);
    if |t'.pendings| == |t.pendings| {
      FallsKeeps(t, t');
    } else {
      var snap := SnapOf(t, m, fetched);
      var t1 := t.(inbox := t.inbox[m := t.inbox[m].(snap := Some(snap), sender := snap.sender)]);
      FallsKeeps(t, t1);
      GateKeepsQuota(t1, cfg, m, snap, t1.inbox[m].binding.value, Resolving, listed, nonce, now);
    }
  }

  lemma WaitingKeepsQuota(t: Tables, cfg: Config, m: nat, fetched: Snap, listed: bool, nonce: nat, now: int)
    requires QuotaOk(t) && Referring(t) && m < |t.inbox|
    ensures QuotaOk(WaitingTx(t, cfg, m, fetched, listed, nonce, now).0)
  {
    var t' := WaitingTx(t, cfg, m, fetched, listed, nonce, now).0;
    WaitingRow(t, cfg, m, fetched, listed, nonce, now);
    OneRowMoves(t, t', m);
    if |t'.pendings| == |t.pendings| {
      FallsKeeps(t, t');
    } else {
      GateKeepsQuota(t, cfg, m, SnapOf(t, m, fetched), t.inbox[m].binding.value, WaitingBinding, listed, nonce, now);
    }
  }

  // ---- Nobody else opens approvals ----

  predicate Opens(a: Act) { a.ByIntake? && (a.intake.Decide? || a.intake.Redecide?) }

  lemma IntakeOpensNothing(w: World, a: IntakeAct)
    requires !a.Decide? && !a.Redecide?
    ensures |StepIntake(w, a).t.pendings| == |w.t.pendings|
  {}

  lemma HookOpensNothing(w: World, inst: nat, a: HookAct)
    ensures |StepHook(w, inst, a).t.pendings| == |w.t.pendings|
  {}

  lemma WorkerOpensNothing(w: World, a: WorkerAct)
    ensures |StepWorker(w, a).t.pendings| == |w.t.pendings|
  {}

  lemma CliOpensNothing(w: World, a: CliAct)
    ensures |StepCli(w, a).t.pendings| == |w.t.pendings|
  {}

  lemma OthersOpenNothing(w: World, a: Act)
    requires !Opens(a)
    ensures |Next(w, a).t.pendings| == |w.t.pendings|
  {
    hide Run, StepSender, StepIntake, StepWorker, StepCli, StepHook, StepListener;
    match a
    case BySender(s) => IntakeRun.SenderTables(w, s);
    case ByIntake(i) => IntakeOpensNothing(w, i);
    case ByWorker(r) => WorkerOpensNothing(w, r);
    case ByCli(c) => CliOpensNothing(w, c);
    case ByHook(inst, h) => HookOpensNothing(w, inst, h);
    case ByListener(c, l) => Frames.ListenerFrame(w, c, l);
  }

  lemma OpeningStep(w: World, a: IntakeAct)
    requires QuotaOk(w.t) && Referring(w.t) && (a.Decide? || a.Redecide?)
    ensures QuotaOk(StepIntake(w, a).t)
  {
    match a
    case Decide(m, fetched, listed, nonce, now) =>
      if m < |w.t.inbox| { DecideKeepsQuota(w.t, w.cfg, m, fetched, listed, nonce, now); }
    case Redecide(m, fetched, listed, nonce, now) =>
      if m < |w.t.inbox| { WaitingKeepsQuota(w.t, w.cfg, m, fetched, listed, nonce, now); }
  }

  lemma IntakeRefers(w: World)
    requires IntakeRun.IntakeAt(w)
    ensures Referring(w.t)
  {
    forall p | 0 <= p < |w.t.pendings| ensures w.t.pendings[p].msg < |w.t.inbox| {
      assert PendingFits(w.t.pendings[p], w.t.inbox, w.t.bindings);
    }
  }

  lemma QuotaStep(w: World, a: Act)
    requires QuotaOk(w.t) && Advance.Sound(w)
    ensures QuotaOk(Next(w, a).t)
  {
    hide Run, StepSender, StepIntake, StepWorker, StepCli, StepHook, StepListener;
    IntakeRefers(w);
    if Opens(a) {
      OpeningStep(w, a.intake);
    } else {
      OthersOpenNothing(w, a);
      AdvanceStep(w, a);
      FallsKeeps(w.t, Next(w, a).t);
    }
  }

  lemma {:induction false} QuotaRun(w: World, acts: seq<Act>)
    requires QuotaOk(w.t) && Advance.Sound(w)
    ensures QuotaOk(Run(w, acts).t)
    decreases |acts|
  {
    hide Next;
    if acts != [] {
      QuotaStep(w, acts[0]);
      IntakeRun.IntakeStep(w, acts[0]);
      ListenerInvariant.ListenStep(w, acts[0]);
      QuotaRun(Next(w, acts[0]), acts[1..]);
    }
  }
}
