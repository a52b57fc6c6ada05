/** How long a binding may stay `starting`: what happens to its row and its request over any run, and what a fast and a
    slow tick do to it. */
module Occupancy {
  import opened Schema
  import opened World
  import opened LifecycleTx
  import opened BindTx
  import opened Machine
  import Frames
  import BindInvariant
  import ListenerInvariant
  import IntakeRun
  import Advance

  ghost predicate Coupled(w: World) { BindInvariant.BindAt(w) && Advance.Sound(w) }

  lemma CoupledStep(w: World, a: Act)
    requires Coupled(w)
    ensures Coupled(Next(w, a))
  {
    hide Next, Run;
    BindInvariant.BindStep(w, a);
    IntakeRun.IntakeStep(w, a);
    ListenerInvariant.ListenStep(w, a);
  }

  // ---- Times a binding's row and request keep ----

  /** The confirmation time of a confirmed binding and the expiry of its request never change. */
  ghost predicate TimesKept(t: Tables, t': Tables) {
    && |t.bindings| <= |t'.bindings| && |t.binds| <= |t'.binds|
    && (forall b :: 0 <= b < |t.bindings| && t.bindings[b].confirmed ==>
          t'.bindings[b].confirmedAt == t.bindings[b].confirmedAt)
    && (forall r :: 0 <= r < |t.binds| ==> t'.binds[r].expires == t.binds[r].expires)
  }

  lemma TerminateTimes(t: Tables, b: nat, reason: Reason, status: Status, now: int)
    requires !status.Live()
    ensures TimesKept(t, Terminate(t, b, reason, status, now))
    ensures |Terminate(t, b, reason, status, now).bindings| == |t.bindings|
  {}

  lemma CreateBindingTimes(t: Tables, chat: nat, inst: nat, nonce: nat, now: int)
    ensures TimesKept(t, CreateBinding(t, chat, inst, nonce, now).0)
  {
    var found := StartingOf(t.bindings, inst, 0);
    if found.Some? { TerminateTimes(t, found.value, BindSuperseded, Closed, now); }
  }

  /** The one transaction that writes a confirmation time finds the binding unconfirmed. */
  lemma HandshakeTimes(t: Tables, stops: map<nat, StopPc>, bindTurn: set<nat>, r: nat, session: nat, now: int)
    requires BindInvariant.BindOk(t.bindings, t.binds, stops, bindTurn)
    ensures TimesKept(t, HandshakeTx(t, r, session, now))
  {
    if r < |t.binds| { assert BindInvariant.PairOk(t.bindings[r], t.binds[r], bindTurn); }
  }

  lemma SettledTimes(t: Tables, r: nat, row: PendingBind, reason: Reason, now: int)
    requires r < |t.binds| && row.expires == t.binds[r].expires
    ensures TimesKept(t, Terminate(t.(binds := t.binds[r := row]), r, reason, Closed, now))
  {
    TerminateTimes(t.(binds := t.binds[r := row]), r, reason, Closed, now);
  }

  lemma TimeoutTimes(t: Tables, r: nat, now: int)
    ensures TimesKept(t, ExpireBind(t, r, now))
  {
    if BindExpired(t, r, now) {
      SettledTimes(t, r, t.binds[r].(state := BExpired, latch := false), BindTimeout, now);
    }
  }

  lemma ActivateTimes(t: Tables, b: nat, now: int)
    ensures TimesKept(t, ActivateIfReady(t, b, now))
  {
    TerminateTimes(t, b, ListenerNeverReady, Closed, now);
  }

  lemma JudgeTimes(w: World, dead: bool, inSuspectWindow: bool, now: int)
    ensures TimesKept(w.t, StepJudge(w, dead, inSuspectWindow, now).t)
  {
    hide Next, Run;
    if w.daemon.Judging? {
      TerminateTimes(w.t, w.daemon.at, CcGone, Closed, now);
      TerminateTimes(w.t, w.daemon.at, ListenerGone, Dead, now);
    }
  }

  lemma OtherWorkTimes(t: Tables, a: WorkerAct)
    requires !a.BindingTimeout? && !a.CloseStray? && !a.ActivateOne?
    ensures WorkerTables(t, a).bindings == t.bindings && WorkerTables(t, a).binds == t.binds
  {}

  lemma WorkerTimes(w: World, a: WorkerAct)
    ensures TimesKept(w.t, StepWorker(w, a).t)
  {
    hide Next, Run;
    if a.JudgeNext? {
      JudgeTimes(w, a.dead, a.inSuspectWindow, a.judgeNow);
    } else if !a.ScanDeaths? && w.daemon.Idle? {
      match a
      case BindingTimeout(r, now) => TimeoutTimes(w.t, r, now);
      case CloseStray(b, now) => TerminateTimes(w.t, b, BindTimeout, Closed, now);
      case ActivateOne(b, now) => ActivateTimes(w.t, b, now);
      case _ => OtherWorkTimes(w.t, a);
    }
  }

  lemma HookTimes(w: World, inst: nat, a: HookAct)
    requires BindInvariant.BindAt(w)
    ensures TimesKept(w.t, StepHook(w, inst, a).t)
  {
    hide Run, StepSender, StepIntake, StepWorker, StepListener;
    match a
    case StopHandshake =>
      if inst in w.stops && w.stops[inst].ToHandshake? && w.stops[inst].p.session.Some? {
        HandshakeTimes(w.t, w.stops, w.hist.bindTurn, w.stops[inst].request, w.stops[inst].p.session.value,
                       w.stops[inst].p.now);
      }
    case StopFail =>
      if inst in w.stops && (w.stops[inst].ToMiss? || w.stops[inst].ToConflict?) {
        var r := w.stops[inst].request;
        if r < |w.t.binds| {
          SettledTimes(w.t, r, w.t.binds[r].(state := BFailed, latch := true), BindFailed, w.stops[inst].p.now);
        }
      }
    case EndBinding(b, now) => TerminateTimes(w.t, b, SessionEnd, Closed, now);
    case EndRequest(r, now) =>
      if r < |w.t.binds| {
        SettledTimes(w.t, r, w.t.binds[r].(state := BExpired, latch := false), SessionEnd, now);
      }
    case _ =>
  }

  lemma TimesStep(w: World, a: Act)
    requires BindInvariant.BindAt(w)
    ensures TimesKept(w.t, Next(w, a).t)
  {
    hide Run, StepSender, StepIntake, StepWorker, StepHook;
    match a
    case BySender(s) => Frames.SenderFrame(w, s);
    case ByIntake(i) => Frames.IntakeFrame(w, i);
    case ByWorker(r) => WorkerTimes(w, r);
    case ByCli(Bind(chat, inst, nonce, now)) => CreateBindingTimes(w.t, chat, inst, nonce, now);
    case ByCli(Unbind(b, now)) => TerminateTimes(w.t, b, UserUnbind, Closed, now);
    case ByHook(inst, h) => HookTimes(w, inst, h);
    case ByListener(c, l) =>
  }

  /** Over any run: bindings only move on, and the two times stay. */
  lemma {:induction false} TimesRun(w: World, acts: seq<Act>)
    requires Coupled(w)
    ensures Coupled(Run(w, acts)) && TimesKept(w.t, Run(w, acts).t) && Advance.BindingsMove(w.t, Run(w, acts).t)
    decreases |acts|
  {
    hide Next;
    if acts != [] {
      TimesStep(w, acts[0]);
      CoupledStep(w, acts[0]);
      Advance.AdvanceStep(w, acts[0]);
      TimesRun(Next(w, acts[0]), acts[1..]);
      Advance.AdvanceRun(w, acts);
    } else {
      Advance.AdvanceRun(w, acts);
    }
  }
}
