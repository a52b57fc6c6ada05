/** Bindings, bind requests and Stop hooks: the handshake's bookkeeping and the suppression of bind turns. */
module BindInvariant {
  import opened Schema
  import opened World
  import opened LifecycleTx
  import opened BindTx
  import opened RecoveryTx
  import opened Machine

  // ---- The invariant ----

  predicate Bound1(b: Binding) { b.status.Live() && b.confirmed }

  /** A binding and its request. */
  predicate PairOk(b: Binding, pb: PendingBind, bindTurn: set<nat>) {
    && pb.inst == b.inst
    && (pb.state.BPending? <==> b.status.Starting? && !b.confirmed)
    && (b.status.Active? ==> b.confirmed)
    && (Bound1(b) ==> pb.state.BConsumed? && b.session.Some? && b.confirmedAt.Some?)
    && (!b.confirmed ==> b.session.None?)
    && (Bound1(b) && b.inst in bindTurn ==> pb.latch)
  }

  ghost predicate PairsOk(bs: seq<Binding>, binds: seq<PendingBind>, bindTurn: set<nat>) {
    |binds| == |bs| && forall r :: 0 <= r < |bs| ==> PairOk(bs[r], binds[r], bindTurn)
  }

  predicate Apart(a: Binding, b: Binding) {
    a.status.Live() && b.status.Live() ==>
      a.chat != b.chat && a.inst != b.inst && (a.session.Some? ==> a.session != b.session)
  }

  /** The partial unique indexes b_chat, b_inst and b_sess. */
  ghost predicate OneToOne(bs: seq<Binding>) {
    forall i, j :: 0 <= i < j < |bs| ==> Apart(bs[i], bs[j])
  }

  ghost predicate NoneBound(bs: seq<Binding>, inst: nat) {
    forall r :: 0 <= r < |bs| ==> !(Bound1(bs[r]) && bs[r].inst == inst)
  }

  /** The Stop's message carries the nonce of the bind request, and the Stop its session. */
  predicate Answers(p: StopPayload, nonce: nat) { nonce in p.markers && p.session.Some? }

  /** A Stop past its latch check: inside a bind turn its instance has no confirmed binding, and what it is about to
      touch is its own; it is on its way to the handshake with the request's nonce, and to the failure without it. */
  ghost predicate StopOk(inst: nat, pc: StopPc, bs: seq<Binding>, binds: seq<PendingBind>, bindTurn: set<nat>) {
    && (inst in bindTurn ==> NoneBound(bs, inst))
    && (match pc
        case ToHandshake(p, r) =>
          r < |binds| && binds[r].inst == inst && binds[r].expires > p.now && Answers(p, binds[r].nonce)
        case ToMiss(p, r) =>
          r < |binds| && binds[r].inst == inst && binds[r].expires > p.now && !Answers(p, binds[r].nonce)
        case ToConflict(_, r) => r < |binds| && binds[r].inst == inst
        case ToInsert(p, b) =>
          b < |bs| && bs[b].inst == inst && bs[b].confirmed && p.session.Some? && bs[b].session == p.session
        case _ => true)
  }

  ghost predicate BindOk(bs: seq<Binding>, binds: seq<PendingBind>, stops: map<nat, StopPc>, bindTurn: set<nat>) {
    && PairsOk(bs, binds, bindTurn)
    && OneToOne(bs)
    && forall inst :: inst in stops ==> StopOk(inst, stops[inst], bs, binds, bindTurn)
  }

  ghost predicate BindAt(w: World) { BindOk(w.t.bindings, w.t.binds, w.stops, w.hist.bindTurn) }

  // ---- Rows changing in place, nobody newly confirmed ----

  predicate BindingKept(a: Binding, b: Binding) {
    && b.inst == a.inst && b.chat == a.chat && b.session == a.session && b.confirmed == a.confirmed
    && b.confirmedAt == a.confirmedAt
    && (b.status.Live() ==> a.status.Live())
  }

  /** One binding changes beside its request. */
  lemma OneBindingKept(bs: seq<Binding>, binds: seq<PendingBind>, stops: map<nat, StopPc>, bindTurn: set<nat>, b: nat,
                       row: Binding)
    requires BindOk(bs, binds, stops, bindTurn) && b < |bs| && BindingKept(bs[b], row)
    requires PairOk(row, binds[b], bindTurn)
    ensures BindOk(bs[b := row], binds, stops, bindTurn)
  {}

  /** What a request never changes. */
  predicate SameRequest(a: PendingBind, b: PendingBind) {
    a.inst == b.inst && a.nonce == b.nonce && a.expires == b.expires
  }

  // ---- Termination ----

  /** The cascade from a state where the ending binding's request is already settled or still pending. */
  lemma TerminateKeepsBind(t: Tables, stops: map<nat, StopPc>, bindTurn: set<nat>, b: nat, reason: Reason,
                           status: Status, now: int, binds0: seq<PendingBind>)
    requires BindOk(t.bindings, binds0, stops, bindTurn) && !status.Live()
    requires |t.binds| == |binds0| && LiveBinding(t, b)
    requires forall r :: 0 <= r < |binds0| && r != b ==> t.binds[r] == binds0[r]
    requires SameRequest(t.binds[b], binds0[b])
    ensures BindOk(Terminate(t, b, reason, status, now).bindings, Terminate(t, b, reason, status, now).binds, stops,
                   bindTurn)
  {}

  lemma TerminateKeeps(t: Tables, stops: map<nat, StopPc>, bindTurn: set<nat>, b: nat, reason: Reason,
                       status: Status, now: int)
    requires BindOk(t.bindings, t.binds, stops, bindTurn) && !status.Live()
    ensures BindOk(Terminate(t, b, reason, status, now).bindings, Terminate(t, b, reason, status, now).binds, stops,
                   bindTurn)
  {
    if LiveBinding(t, b) { TerminateKeepsBind(t, stops, bindTurn, b, reason, status, now, t.binds); }
  }

  /** A pending request ends one way or another, and its binding with it. */
  lemma SettleAndTerminate(t: Tables, stops: map<nat, StopPc>, bindTurn: set<nat>, r: nat, row: PendingBind,
                           reason: Reason, now: int)
    requires BindOk(t.bindings, t.binds, stops, bindTurn) && r < |t.binds| && t.binds[r].state.BPending?
    requires SameRequest(row, t.binds[r])
    ensures var t' := Terminate(t.(binds := t.binds[r := row]), r, reason, Closed, now);
            BindOk(t'.bindings, t'.binds, stops, bindTurn)
  {}

  // ---- create_binding ----

  lemma NoStrayRequests(t: Tables, inst: nat, stops: map<nat, StopPc>, bindTurn: set<nat>)
    requires BindOk(t.bindings, t.binds, stops, bindTurn)
    requires forall i :: 0 <= i < |t.bindings| ==> !(t.bindings[i].inst == inst && t.bindings[i].status.Starting?)
    ensures ExpireBindsOf(t.binds, inst) == t.binds
  {}

  lemma SupersededKeeps(t: Tables, stops: map<nat, StopPc>, bindTurn: set<nat>, inst: nat, now: int)
    requires BindOk(t.bindings, t.binds, stops, bindTurn)
    ensures var t1 := Superseded(t, inst, now); BindOk(t1.bindings, t1.binds, stops, bindTurn)
  {
    var found := StartingOf(t.bindings, inst, 0);
    if found.Some? {
      var b := found.value;
      var t1 := Terminate(t, b, BindSuperseded, Closed, now);
      TerminateKeeps(t, stops, bindTurn, b, BindSuperseded, Closed, now);
      forall i | 0 <= i < |t1.bindings|
        ensures !(t1.bindings[i].inst == inst && t1.bindings[i].status.Starting?)
      {
        if i < b { assert Apart(t.bindings[i], t.bindings[b]); }
        else if i > b { assert Apart(t.bindings[b], t.bindings[i]); }
      }
      NoStrayRequests(t1, inst, stops, bindTurn);
    } else {
      NoStrayRequests(t, inst, stops, bindTurn);
    }
  }

  lemma CreateBindingKeeps(t: Tables, stops: map<nat, StopPc>, bindTurn: set<nat>, chat: nat, inst: nat, nonce: nat,
                           now: int)
    requires BindOk(t.bindings, t.binds, stops, bindTurn)
    ensures var t' := CreateBinding(t, chat, inst, nonce, now).0; BindOk(t'.bindings, t'.binds, stops, bindTurn)
  {
    SupersededKeeps(t, stops, bindTurn, inst, now);
    var t1 := Superseded(t, inst, now);
    if !(ChatTaken(t1.bindings, chat) || InstTaken(t1.bindings, inst)) {
      AppendKeeps(t1.bindings, t1.binds, stops, bindTurn,
                  Binding(chat, None, inst, Starting, false, None, None, 0, None, None, None),
                  PendingBind(inst, nonce, BPending, false, now + PENDING_BIND_TTL_MS));
    }
  }

  /** The chat and the instance are free but for the instance's own unfinished bind. */
  ghost predicate FreeFor(bs: seq<Binding>, chat: nat, inst: nat) {
    forall i :: 0 <= i < |bs| && bs[i].status.Live() && (bs[i].chat == chat || bs[i].inst == inst) ==>
      bs[i].status.Starting? && bs[i].inst == inst
  }

  /** A bind succeeds exactly then; otherwise it says which of the two is taken and changes nothing. */
  lemma BindSucceedsIff(t: Tables, stops: map<nat, StopPc>, bindTurn: set<nat>, chat: nat, inst: nat, nonce: nat,
                        now: int)
    requires BindOk(t.bindings, t.binds, stops, bindTurn)
    ensures var r := CreateBinding(t, chat, inst, nonce, now);
            && (r.1.Bound? <==> FreeFor(t.bindings, chat, inst))
            && (r.1.ChatBusy? ==> ChatTaken(t.bindings, chat)) && (!r.1.Bound? ==> r.0 == t)
            && (r.1.InstanceBusy? ==> InstTaken(t.bindings, inst) && !ChatTaken(t.bindings, chat))
  {
    var t1 := Superseded(t, inst, now);
    var found := StartingOf(t.bindings, inst, 0);
    assert |t1.bindings| == |t.bindings|;
    forall i | 0 <= i < |t.bindings|
      ensures t1.bindings[i].chat == t.bindings[i].chat && t1.bindings[i].inst == t.bindings[i].inst
      ensures t1.bindings[i].status.Live() <==>
                t.bindings[i].status.Live() && !(t.bindings[i].status.Starting? && t.bindings[i].inst == inst)
    {
      if found.Some? {
        if i < found.value { assert Apart(t.bindings[i], t.bindings[found.value]); }
        else if i > found.value { assert Apart(t.bindings[found.value], t.bindings[i]); }
      }
    }
    TakenAfter(t.bindings, t1.bindings, chat, inst);
  }

  lemma TakenAfter(bs: seq<Binding>, bs': seq<Binding>, chat: nat, inst: nat)
    requires |bs'| == |bs|
    requires forall i :: 0 <= i < |bs| ==>
               && bs'[i].chat == bs[i].chat && bs'[i].inst == bs[i].inst
               && (bs'[i].status.Live() <==> bs[i].status.Live() && !(bs[i].status.Starting? && bs[i].inst == inst))
    ensures ChatTaken(bs', chat) || InstTaken(bs', inst) <==> !FreeFor(bs, chat, inst)
    ensures ChatTaken(bs', chat) ==> ChatTaken(bs, chat)
    ensures InstTaken(bs', inst) ==> InstTaken(bs, inst)
  {}

  lemma AppendKeeps(bs: seq<Binding>, binds: seq<PendingBind>, stops: map<nat, StopPc>, bindTurn: set<nat>,
                    b: Binding, pb: PendingBind)
    requires BindOk(bs, binds, stops, bindTurn) && PairOk(b, pb, bindTurn) && !b.confirmed && b.session.None?
    requires !ChatTaken(bs, b.chat) && !InstTaken(bs, b.inst)
    ensures BindOk(bs + [b], binds + [pb], stops, bindTurn)
  {}

  // ---- The handshake ----

  lemma HandshakeKeeps(t: Tables, stops: map<nat, StopPc>, bindTurn: set<nat>, inst: nat, now: int)
    requires BindOk(t.bindings, t.binds, stops, bindTurn)
    requires inst in stops && stops[inst].ToHandshake? && stops[inst].p.session.Some?
    ensures var pc := stops[inst];
            var t' := HandshakeTx(t, pc.request, pc.p.session.value, now);
            var v := HandshakeVerdict(t, pc.request, pc.p.session.value, now);
            && !v.BindingGone?
            && (v.HandshakeDone? ==> BindOk(t'.bindings, t'.binds, stops - {inst}, bindTurn + {inst}))
            && (!v.HandshakeDone? ==> t' == t)
  {
    var pc := stops[inst];
    var r, session := pc.request, pc.p.session.value;
    assert StopOk(inst, pc, t.bindings, t.binds, bindTurn);
    assert PairOk(t.bindings[r], t.binds[r], bindTurn);
    if HandshakeVerdict(t, r, session, now).HandshakeDone? {
      var t' := HandshakeTx(t, r, session, now);
      ConfirmKeeps(t.bindings, t'.bindings, t.binds, t'.binds, stops, bindTurn, inst, r, session);
    }
  }

  lemma ConfirmKeeps(bs: seq<Binding>, bs': seq<Binding>, binds: seq<PendingBind>, binds': seq<PendingBind>,
                     stops: map<nat, StopPc>, bindTurn: set<nat>, inst: nat, r: nat, session: nat)
    requires BindOk(bs, binds, stops, bindTurn) && r < |bs| && binds[r].inst == inst
    requires bs[r].status.Starting? && !bs[r].confirmed && !SessionTaken(bs, session, r)
    requires |bs'| == |bs| && |binds'| == |binds|
    requires forall i :: 0 <= i < |bs| && i != r ==> bs'[i] == bs[i] && binds'[i] == binds[i]
    requires bs'[r].inst == bs[r].inst && bs'[r].chat == bs[r].chat && bs'[r].session == Some(session)
    requires Bound1(bs'[r]) && bs'[r].confirmedAt.Some?
    requires binds'[r] == binds[r].(state := BConsumed, latch := true)
    ensures BindOk(bs', binds', stops - {inst}, bindTurn + {inst})
  {}

  // ---- Latches ----

  /** A fresh Stop or a SessionEnd ends the bind turn of its instance. */
  lemma CloseLatchesKeeps(bs: seq<Binding>, binds: seq<PendingBind>, stops: map<nat, StopPc>, bindTurn: set<nat>,
                          inst: nat)
    requires BindOk(bs, binds, stops, bindTurn)
    ensures BindOk(bs, CloseLatches(binds, inst), stops, bindTurn - {inst})
  {}

  /** A continuation that finds no open latch belongs to an instance that has nothing confirmed. */
  lemma NoLatchMeansNoneBound(bs: seq<Binding>, binds: seq<PendingBind>, stops: map<nat, StopPc>, bindTurn: set<nat>,
                              inst: nat)
    requires BindOk(bs, binds, stops, bindTurn) && !LatchedInst(binds, inst) && inst in bindTurn
    ensures NoneBound(bs, inst)
  {}

  // ---- Every step ----

  lemma HookStep(w: World, inst: nat, a: HookAct)
    requires BindAt(w)
    ensures BindAt(StepHook(w, inst, a))
  {
    hide Next, Run;
    var bs, binds, stops, bindTurn := w.t.bindings, w.t.binds, w.stops, w.hist.bindTurn;
    if inst in stops { assert StopOk(inst, stops[inst], bs, binds, bindTurn); }
    match a
    case StopBegin(p) =>
      if inst !in stops {
        if p.continuation {
          if !LatchedInst(binds, inst) && inst in bindTurn {
            NoLatchMeansNoneBound(bs, binds, stops, bindTurn, inst);
          }
        } else {
          CloseLatchesKeeps(bs, binds, stops, bindTurn, inst);
        }
      }
    case StopHandshake =>
      if inst in stops && stops[inst].ToHandshake? && stops[inst].p.session.Some? {
        HandshakeKeeps(w.t, stops, bindTurn, inst, stops[inst].p.now);
      }
    case StopFail => FailStep(w, inst);
    case StopLookup => LookupStep(w, inst);
    case EndBinding(b, now) => TerminateKeeps(w.t, stops, bindTurn, b, SessionEnd, Closed, now);
    case EndRequest(r, now) =>
      if r < |binds| && binds[r].state.BPending? {
        SettleAndTerminate(w.t, stops, bindTurn, r, binds[r].(state := BExpired, latch := false), SessionEnd, now);
      }
    case EndLatches => CloseLatchesKeeps(bs, binds, stops, bindTurn, inst);
    case _ =>
  }

  lemma FailStep(w: World, inst: nat)
    requires BindAt(w)
    ensures BindAt(StepHook(w, inst, StopFail))
  {
    if inst in w.stops && (w.stops[inst].ToMiss? || w.stops[inst].ToConflict?) {
      var r := w.stops[inst].request;
      if r < |w.t.binds| && w.t.binds[r].state.BPending? {
        SettleAndTerminate(w.t, w.stops, w.hist.bindTurn, r, w.t.binds[r].(state := BFailed, latch := true),
                           BindFailed, w.stops[inst].p.now);
      }
    }
  }

  lemma LookupStep(w: World, inst: nat)
    requires BindAt(w)
    ensures BindAt(StepStopLookup(w, inst))
  {}

  lemma ActivateKeeps(t: Tables, stops: map<nat, StopPc>, bindTurn: set<nat>, b: nat, now: int)
    requires BindOk(t.bindings, t.binds, stops, bindTurn)
    requires b < |t.bindings| && t.bindings[b].status.Starting? && t.bindings[b].confirmed
    ensures BindOk(Activate(t, b, now).bindings, t.binds, stops, bindTurn)
  {}

  lemma SetSuspectKeeps(t: Tables, stops: map<nat, StopPc>, bindTurn: set<nat>, b: nat, s: Option<int>)
    requires BindOk(t.bindings, t.binds, stops, bindTurn)
    ensures BindOk(SetSuspect(t, b, s).bindings, SetSuspect(t, b, s).binds, stops, bindTurn)
  {}

  /** The safety net for stray requests never catches anything. */
  lemma NoOrphanStarting(t: Tables, stops: map<nat, StopPc>, bindTurn: set<nat>, b: nat)
    requires BindOk(t.bindings, t.binds, stops, bindTurn)
    ensures !OrphanStarting(t, b)
  {}

  lemma WorkerStep(w: World, a: WorkerAct)
    requires BindAt(w)
    ensures BindAt(StepWorker(w, a))
  {
    hide Run, StepSender, StepIntake, StepHook, StepListener;
    var t, stops, bindTurn := w.t, w.stops, w.hist.bindTurn;
    match a
    case BindingTimeout(r, now) =>
      if BindExpired(t, r, now) {
        SettleAndTerminate(t, stops, bindTurn, r, t.binds[r].(state := BExpired, latch := false), BindTimeout, now);
      }
    case CloseStray(b, now) => NoOrphanStarting(t, stops, bindTurn, b);
    case ActivateOne(b, now) =>
      if b < |t.bindings| && t.bindings[b].status.Starting? && t.bindings[b].confirmed {
        ActivateKeeps(t, stops, bindTurn, b, now);
      }
      TerminateKeeps(t, stops, bindTurn, b, ListenerNeverReady, Closed, now);
    case JudgeNext(dead, inWindow, now) => JudgeStep(w, dead, inWindow, now);
    case _ => WorkerLeavesBindings(t, a);
  }

  lemma WorkerLeavesBindings(t: Tables, a: WorkerAct)
    requires !a.BindingTimeout? && !a.CloseStray? && !a.ActivateOne?
    ensures WorkerTables(t, a).bindings == t.bindings && WorkerTables(t, a).binds == t.binds
  {}

  lemma JudgeStep(w: World, dead: bool, inSuspectWindow: bool, now: int)
    requires BindAt(w)
    ensures BindAt(StepJudge(w, dead, inSuspectWindow, now))
  {
    hide Next, Run;
    if w.daemon.Judging? && w.daemon.at < |w.daemon.seen| {
      var d := w.daemon;
      JudgeKeeps(w.t, w.stops, w.hist.bindTurn, d.at, d.seen[d.at], d.scanNow, dead, inSuspectWindow, now);
    }
  }

  lemma JudgeKeeps(t: Tables, stops: map<nat, StopPc>, bindTurn: set<nat>, b: nat, seen: Binding, scanNow: int,
                   dead: bool, inSuspectWindow: bool, now: int)
    requires BindOk(t.bindings, t.binds, stops, bindTurn)
    ensures var t' := JudgeRow(t, b, seen, scanNow, dead, inSuspectWindow, now);
            BindOk(t'.bindings, t'.binds, stops, bindTurn)
  {
    match Judge(seen, scanNow, dead, inSuspectWindow)
    case CcDead => TerminateKeeps(t, stops, bindTurn, b, CcGone, Closed, now);
    case Alive => SetSuspectKeeps(t, stops, bindTurn, b, None);
    case Suspected => SetSuspectKeeps(t, stops, bindTurn, b, Some(scanNow));
    case ConfirmedGone => TerminateKeeps(t, stops, bindTurn, b, ListenerGone, Dead, now);
    case _ =>
  }

  lemma ListenerStep(w: World, c: nat, a: ListenerAct)
    requires BindAt(w)
    ensures BindAt(StepListener(w, c, a))
  {
    var t, stops, bindTurn := w.t, w.stops, w.hist.bindTurn;
    if c in w.cores && w.cores[c].binding < |t.bindings| {
      var b := w.cores[c].binding;
      assert PairOk(t.bindings[b], t.binds[b], bindTurn);
      if a.Takeover? {
        OneBindingKept(t.bindings, t.binds, stops, bindTurn, b,
                       t.bindings[b].(listener := Some(w.cores[c].process), epoch := a.seen.epoch + 1,
                                      beat := Some(a.takeoverNow), suspect := None));
      } else if a.Beat? {
        OneBindingKept(t.bindings, t.binds, stops, bindTurn, b,
                       t.bindings[b].(beat := Some(a.beatNow), suspect := None));
      }
    }
  }

  lemma SenderLeavesBindings(w: World, a: SenderAct)
    ensures var w' := StepSender(w, a);
            w'.t.bindings == w.t.bindings && w'.t.binds == w.t.binds && w'.stops == w.stops
            && w'.hist.bindTurn == w.hist.bindTurn
  {}

  lemma BindStep(w: World, a: Act)
    requires BindAt(w)
    ensures BindAt(Next(w, a))
  {
    hide Run, StepSender, StepWorker, StepHook, StepListener;
    match a
    case BySender(s) => SenderLeavesBindings(w, s);
    case ByIntake(i) =>
    case ByWorker(r) => WorkerStep(w, r);
    case ByCli(Bind(chat, inst, nonce, now)) =>
      CreateBindingKeeps(w.t, w.stops, w.hist.bindTurn, chat, inst, nonce, now);
    case ByCli(Unbind(b, now)) => TerminateKeeps(w.t, w.stops, w.hist.bindTurn, b, UserUnbind, Closed, now);
    case ByHook(inst, h) => HookStep(w, inst, h);
    case ByListener(c, l) => ListenerStep(w, c, l);
  }

  lemma {:induction false} BindRunKeeps(w: World, acts: seq<Act>)
    requires BindAt(w)
    ensures BindAt(Run(w, acts))
    decreases |acts|
  {
    hide Next;
    if acts != [] {
      BindStep(w, acts[0]);
      BindRunKeeps(Next(w, acts[0]), acts[1..]);
    }
  }
}
