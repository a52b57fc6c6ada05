/** Listeners: epochs, leases and the evidence of death_scan. */
module ListenerInvariant {
  import opened Schema
  import opened World
  import opened LifecycleTx
  import opened BindTx
  import opened InboundTx
  import opened ApprovalTx
  import opened ListenerTx
  import opened Machine

  // ---- The invariant ----

  /** Every epoch up to the row's was won by one core only. */
  ghost predicate WonOk(bs: seq<Binding>, won: set<(nat, nat, nat)>) {
    && (forall b, e, c :: (b, e, c) in won ==> b < |bs| && 0 < e <= bs[b].epoch)
    && (forall b, e, c, c' :: (b, e, c) in won && (b, e, c') in won ==> c == c')
  }

  /** A lease names an epoch somebody won and carries a token; what was emitted was printed under its token. */
  ghost predicate LeaseOk(d: Delivery, i: nat, won: set<(nat, nat, nat)>, printed: set<(nat, nat)>, nextId: nat) {
    && (d.token.Some? ==> d.token.value < nextId)
    && (d.state.DLeased? ==>
          d.token.Some? && d.leaseUntil.Some? && d.leaseEpoch.Some?
          && exists c :: (d.binding, d.leaseEpoch.value, c) in won)
    && (d.state.DEmitted? ==> d.token.Some? && (i, d.token.value) in printed)
    && (d.state.DEnqueued? || d.state.DDropped? ==> d.token.None?)
  }

  ghost predicate TokensDistinct(ds: seq<Delivery>) {
    forall i, j :: 0 <= i < j < |ds| && ds[i].token.Some? ==> ds[i].token != ds[j].token
  }

  ghost predicate CoreOk(c: nat, core: Core, ds: seq<Delivery>, won: set<(nat, nat, nat)>, printed: set<(nat, nat)>,
                         nextId: nat)
  {
    && (core.epoch.Some? ==> (core.binding, core.epoch.value, c) in won)
    && (match core.holding
        case Nothing => true
        case Claimed(d, token) => d < |ds| && ds[d].binding == core.binding && token < nextId
        case Printed(d, token) =>
          d < |ds| && ds[d].binding == core.binding && token < nextId && (d, token) in printed)
  }

  ghost predicate SuspectsOk(bs: seq<Binding>, beaten: set<nat>) {
    forall b :: 0 <= b < |bs| && bs[b].suspect.Some? ==> b !in beaten
  }

  ghost predicate ScanOk(d: Daemon, silent: set<nat>) {
    d.Judging? ==> forall b :: 0 <= b < |d.seen| && d.seen[b].suspect.Some? ==> b in silent
  }

  ghost predicate ListenOk(t: Tables, cores: map<nat, Core>, h: History) {
    && WonOk(t.bindings, h.won)
    && (forall i :: 0 <= i < |t.deliveries| ==> LeaseOk(t.deliveries[i], i, h.won, h.printed, t.nextId))
    && TokensDistinct(t.deliveries)
    && (forall c :: c in cores ==> CoreOk(c, cores[c], t.deliveries, h.won, h.printed, t.nextId))
    && SuspectsOk(t.bindings, h.beaten)
  }

  ghost predicate ListenAt(w: World) { ListenOk(w.t, w.cores, w.hist) && ScanOk(w.daemon, w.hist.silent) }

  // ---- Everybody but a listener ----

  /** A binding only ever moves up: it keeps its chat and instance, and once it has ended it stays ended that way. */
  predicate BindingMoves(a: Binding, b: Binding) {
    && b.chat == a.chat && b.inst == a.inst && a.epoch <= b.epoch
    && (a.confirmed ==> b.confirmed)
    && (b.status.Starting? ==> a.status.Starting?)
    && (!a.status.Live() ==> b.status == a.status && b.reason == a.reason)
  }

  /** A delivery keeps its message and binding, and once printed or dropped it stays so. */
  predicate DeliveryMoves(a: Delivery, b: Delivery) {
    && b.binding == a.binding && b.msg == a.msg
    && (a.state.DEmitted? || a.state.DDropped? ==> b.state == a.state && b.token == a.token)
  }

  predicate RowAside(a: Binding, b: Binding) {
    BindingMoves(a, b) && b.epoch == a.epoch && b.beat == a.beat && (b.suspect.None? || b.suspect == a.suspect)
  }

  predicate DeliveryAside(a: Delivery, b: Delivery) {
    && b.binding == a.binding && b.msg == a.msg
    && (|| (b.state == a.state && b.token == a.token && b.leaseEpoch == a.leaseEpoch && b.leaseUntil == a.leaseUntil)
        || (a.state.DEnqueued? && b.state.DDropped? && b.token == a.token)
        || (a.state.DLeased? && b.token.None? && (b.state.DEnqueued? || b.state.DDropped?)))
  }

  ghost predicate BindingsAside(bs: seq<Binding>, bs': seq<Binding>) {
    && |bs| <= |bs'| && (forall b :: 0 <= b < |bs| ==> RowAside(bs[b], bs'[b]))
    && (forall b :: |bs| <= b < |bs'| ==> bs'[b].suspect.None?)
  }

  ghost predicate DeliveriesAside(ds: seq<Delivery>, ds': seq<Delivery>) {
    && |ds| <= |ds'| && (forall i :: 0 <= i < |ds| ==> DeliveryAside(ds[i], ds'[i]))
    && (forall i :: |ds| <= i < |ds'| ==> ds'[i].state.DEnqueued? && ds'[i].token.None?)
  }

  /** Nobody leases, prints or takes over. */
  ghost predicate Aside(t: Tables, t': Tables) {
    BindingsAside(t.bindings, t'.bindings) && DeliveriesAside(t.deliveries, t'.deliveries) && t.nextId <= t'.nextId
  }

  lemma AsideKeeps(t: Tables, t': Tables, cores: map<nat, Core>, h: History)
    requires ListenOk(t, cores, h) && Aside(t, t')
    ensures ListenOk(t', cores, h)
  {}

  lemma SameAside(t: Tables, t': Tables)
    requires t'.bindings == t.bindings && t'.deliveries == t.deliveries && t.nextId <= t'.nextId
    ensures Aside(t, t')
  {}

  lemma TerminateAside(t: Tables, b: nat, reason: Reason, status: Status, now: int)
    requires !status.Live()
    ensures Aside(t, Terminate(t, b, reason, status, now))
    ensures |Terminate(t, b, reason, status, now).bindings| == |t.bindings|
  {}

  lemma ActivateAside(t: Tables, b: nat, now: int)
    ensures Aside(t, ActivateIfReady(t, b, now))
  {
    TerminateAside(t, b, ListenerNeverReady, Closed, now);
  }

  lemma CreateBindingAside(t: Tables, chat: nat, inst: nat, nonce: nat, now: int)
    ensures Aside(t, CreateBinding(t, chat, inst, nonce, now).0)
  {
    var found := StartingOf(t.bindings, inst, 0);
    if found.Some? { TerminateAside(t, found.value, BindSuperseded, Closed, now); }
  }

  /** A transaction of the pipeline at most appends one fresh delivery. */
  ghost predicate Appends(t: Tables, t': Tables) {
    && LeavesBindings(t, t')
    && (t'.deliveries == t.deliveries
        || (|t'.deliveries| == |t.deliveries| + 1 && t'.deliveries[..|t.deliveries|] == t.deliveries
            && t'.deliveries[|t.deliveries|].state.DEnqueued? && t'.deliveries[|t.deliveries|].token.None?))
  }

  lemma AppendsAside(t: Tables, t': Tables)
    requires Appends(t, t')
    ensures Aside(t, t')
  {}

  lemma EnqueueAppends(t: Tables, m: nat, b: nat, snap: Snap, from: InboxState, approver: ApprovedBy, receipt: bool,
                       now: int)
    requires m < |t.inbox|
    ensures Appends(t, EnqueueTx(t, m, b, snap, from, approver, receipt, now).0)
  {}

  lemma OpenApprovalAppends(t: Tables, m: nat, b: nat, from: InboxState, nonce: nat, now: int)
    requires m < |t.inbox|
    ensures Appends(t, OpenApproval(t, m, b, from, nonce, now))
  {}

  lemma GateAppends(t: Tables, cfg: Config, m: nat, snap: Snap, b: nat, from: InboxState, listed: bool, nonce: nat,
                    now: int)
    requires m < |t.inbox|
    ensures Appends(t, GateTx(t, cfg, m, snap, b, from, listed, nonce, now).0)
  {
    EnqueueAppends(t, m, b, snap, from, NoApprover, true, now);
    EnqueueAppends(t, m, b, snap, from, ByAllowlist, true, now);
    OpenApprovalAppends(t, m, b, from, nonce, now);
  }

  lemma DecideAppends(t: Tables, cfg: Config, m: nat, fetched: Snap, listed: bool, nonce: nat, now: int)
    requires m < |t.inbox|
    ensures Appends(t, DecideTx(t, cfg, m, fetched, listed, nonce, now).0)
  {
    var snap := SnapOf(t, m, fetched);
    var t1 := t.(inbox := t.inbox[m := t.inbox[m].(snap := Some(snap), sender := snap.sender)]);
    if t.inbox[m].binding.Some? {
      GateAppends(t1, cfg, m, snap, t1.inbox[m].binding.value, Resolving, listed, nonce, now);
    }
  }

  lemma WaitingAppends(t: Tables, cfg: Config, m: nat, fetched: Snap, listed: bool, nonce: nat, now: int)
    requires m < |t.inbox|
    ensures Appends(t, WaitingTx(t, cfg, m, fetched, listed, nonce, now).0)
  {
    if t.inbox[m].binding.Some? {
      GateAppends(t, cfg, m, SnapOf(t, m, fetched), t.inbox[m].binding.value, WaitingBinding, listed, nonce, now);
    }
  }

  lemma MediaAppends(t: Tables, cfg: Config, m: nat, snap: Snap, from: InboxState, pending: Option<nat>, now: int)
    requires m < |t.inbox|
    ensures Appends(t, MediaDoneTx(t, cfg, m, snap, from, pending, now))
    ensures Appends(t, MediaFailedTx(t, m, from, pending, now))
  {
    hide EnqueueTx;
    if t.inbox[m].binding.Some? {
      EnqueueAppends(t, m, t.inbox[m].binding.value, snap, from, MediaApprover(t, cfg, snap, pending), pending.None?,
                     now);
    }
  }

  lemma CallbackAppends(t: Tables, cfg: Config, c: Callback, now: int)
    ensures Appends(t, CallbackTx(t, cfg, c, now).0)
  {}

  lemma IntakeAppends(w: World, a: IntakeAct)
    ensures Appends(w.t, StepIntake(w, a).t)
  {
    hide Next, Run;
    match a
    case Decide(m, fetched, listed, nonce, now) =>
      if m < |w.t.inbox| { DecideAppends(w.t, w.cfg, m, fetched, listed, nonce, now); }
    case Redecide(m, fetched, listed, nonce, now) =>
      if m < |w.t.inbox| { WaitingAppends(w.t, w.cfg, m, fetched, listed, nonce, now); }
    case MediaFailed(now) =>
      if w.daemon.Materializing? && w.daemon.msg < |w.t.inbox| {
        MediaAppends(w.t, w.cfg, w.daemon.msg, w.daemon.snap, w.daemon.from, w.daemon.pending, now);
      }
    case MediaDone(now) =>
      if w.daemon.Materializing? && w.daemon.msg < |w.t.inbox| {
        MediaAppends(w.t, w.cfg, w.daemon.msg, w.daemon.snap, w.daemon.from, w.daemon.pending, now);
      }
    case Click(c, now) => CallbackAppends(w.t, w.cfg, c, now);
    case _ =>
  }

  lemma IntakeLeavesListeners(w: World, a: IntakeAct)
    ensures var w' := StepIntake(w, a);
            w'.cores == w.cores && w'.hist == w.hist.(allowed := w'.hist.allowed)
            && (w'.daemon.Judging? ==> w'.daemon == w.daemon)
  {}

  lemma WorkerAside(t: Tables, a: WorkerAct)
    ensures Aside(t, WorkerTables(t, a))
  {
    match a
    case BindingTimeout(r, now) =>
      if BindExpired(t, r, now) {
        TerminateAside(t.(binds := t.binds[r := t.binds[r].(state := BExpired, latch := false)]), r, BindTimeout,
                       Closed, now);
      }
    case CloseStray(b, now) => TerminateAside(t, b, BindTimeout, Closed, now);
    case ActivateOne(b, now) => ActivateAside(t, b, now);
    case _ =>
  }

  lemma HandshakeAside(t: Tables, r: nat, session: nat, now: int)
    ensures Aside(t, HandshakeTx(t, r, session, now))
  {}

  lemma FailBindAside(t: Tables, r: nat, now: int)
    ensures Aside(t, FailBind(t, r, now)) && Aside(t, EndPending(t, r, now))
  {
    if r < |t.binds| {
      TerminateAside(t.(binds := t.binds[r := t.binds[r].(state := BFailed, latch := true)]), r, BindFailed, Closed,
                     now);
      TerminateAside(t.(binds := t.binds[r := t.binds[r].(state := BExpired, latch := false)]), r, SessionEnd, Closed,
                     now);
    }
  }

  lemma HookTablesAside(w: World, inst: nat, a: HookAct)
    ensures Aside(w.t, StepHook(w, inst, a).t)
  {
    hide Run, StepSender, StepIntake, StepWorker, StepListener;
    match a
    case StopHandshake =>
      if inst in w.stops && w.stops[inst].ToHandshake? && w.stops[inst].p.session.Some? {
        HandshakeAside(w.t, w.stops[inst].request, w.stops[inst].p.session.value, w.stops[inst].p.now);
      }
    case StopFail =>
      if inst in w.stops && (w.stops[inst].ToMiss? || w.stops[inst].ToConflict?) {
        FailBindAside(w.t, w.stops[inst].request, w.stops[inst].p.now);
      }
    case EndBinding(b, now) => TerminateAside(w.t, b, SessionEnd, Closed, now);
    case EndRequest(r, now) => FailBindAside(w.t, r, now);
    case _ =>
  }

  lemma HookAside(w: World, inst: nat, a: HookAct)
    ensures var w' := StepHook(w, inst, a);
            Aside(w.t, w'.t) && w'.cores == w.cores && w'.daemon == w.daemon
            && w'.hist == w.hist.(bindTurn := w'.hist.bindTurn, spans := w'.hist.spans)
  {
    HookTablesAside(w, inst, a);
  }

  // ---- death_scan ----

  /** Marking a silent binding: it has not been heard of since. */
  lemma MarkKeeps(t: Tables, cores: map<nat, Core>, h: History, b: nat, at: int)
    requires ListenOk(t, cores, h)
    ensures ListenOk(SetSuspect(t, b, Some(at)), cores, h.(beaten := h.beaten - {b}))
  {}

  lemma JudgeStep(w: World, dead: bool, inSuspectWindow: bool, now: int)
    requires ListenAt(w)
    ensures ListenAt(StepJudge(w, dead, inSuspectWindow, now))
  {
    if w.daemon.Judging? && w.daemon.at < |w.daemon.seen| && w.daemon.seen[w.daemon.at].status.Live() {
      var d := w.daemon;
      var t' := JudgeRow(w.t, d.at, d.seen[d.at], d.scanNow, dead, inSuspectWindow, now);
      if Judge(d.seen[d.at], d.scanNow, dead, inSuspectWindow).Suspected? {
        MarkKeeps(w.t, w.cores, w.hist, d.at, d.scanNow);
      } else {
        JudgeAside(w.t, d.at, d.seen[d.at], d.scanNow, dead, inSuspectWindow, now);
        AsideKeeps(w.t, t', w.cores, w.hist);
      }
    }
  }

  lemma JudgeAside(t: Tables, b: nat, seen: Binding, scanNow: int, dead: bool, inSuspectWindow: bool, now: int)
    requires !Judge(seen, scanNow, dead, inSuspectWindow).Suspected?
    ensures Aside(t, JudgeRow(t, b, seen, scanNow, dead, inSuspectWindow, now))
  {
    match Judge(seen, scanNow, dead, inSuspectWindow)
    case CcDead => TerminateAside(t, b, CcGone, Closed, now);
    case ConfirmedGone => TerminateAside(t, b, ListenerGone, Dead, now);
    case _ =>
  }

  lemma WorkerStep(w: World, a: WorkerAct)
    requires ListenAt(w)
    ensures ListenAt(StepWorker(w, a))
  {
    if a.JudgeNext? {
      JudgeStep(w, a.dead, a.inSuspectWindow, a.judgeNow);
    } else if !a.ScanDeaths? {
      WorkerAside(w.t, a);
      AsideKeeps(w.t, WorkerTables(w.t, a), w.cores, w.hist);
    }
  }

  // ---- Listeners ----

  /** A takeover wins an epoch nobody won before. */
  lemma TakeoverKeeps(t: Tables, cores: map<nat, Core>, h: History, c: nat, seen: Binding, now: int)
    requires ListenOk(t, cores, h) && c in cores && TakeoverWins(t, cores[c].binding, seen)
    ensures forall k :: k in h.won ==> !(k.0 == cores[c].binding && k.1 == seen.epoch + 1)
    ensures var b := cores[c].binding;
            ListenOk(TakeoverTx(t, b, seen, cores[c].process, now),
                     cores[c := cores[c].(epoch := Some(seen.epoch + 1))],
                     h.(won := h.won + {(b, seen.epoch + 1, c)}, beaten := h.beaten + {b}))
  {}

  lemma ClaimKeeps(t: Tables, cores: map<nat, Core>, h: History, c: nat, now: int)
    requires ListenOk(t, cores, h) && c in cores && ClaimTarget(t, cores[c]).Some?
    ensures ListenOk(ClaimTx(t, cores[c], now),
                     cores[c := cores[c].(holding := Claimed(ClaimTarget(t, cores[c]).value, t.nextId))], h)
  {}

  lemma EmitKeeps(t: Tables, cores: map<nat, Core>, h: History, c: nat)
    requires ListenOk(t, cores, h) && c in cores && cores[c].holding.Printed?
    ensures ListenOk(EmitTx(t, cores[c].holding.delivery, cores[c].holding.token),
                     cores[c := cores[c].(holding := Nothing)], h)
  {}

  lemma ListenerStep(w: World, c: nat, a: ListenerAct)
    requires ListenAt(w)
    ensures ListenAt(StepListener(w, c, a))
  {
    if c in w.cores {
      HeldStep(w, c, a);
    } else if a.CoreStart? {
      var w' := StepListener(w, c, a);
      forall k | k in w'.cores ensures CoreOk(k, w'.cores[k], w.t.deliveries, w.hist.won, w.hist.printed, w.t.nextId) {
        assert k != c ==> CoreOk(k, w.cores[k], w.t.deliveries, w.hist.won, w.hist.printed, w.t.nextId);
      }
    }
  }

  lemma TakeoverStep(w: World, c: nat, seen: Binding, now: int, dead: bool)
    requires ListenAt(w) && c in w.cores
    ensures ListenAt(StepListener(w, c, Takeover(seen, now, dead)))
  {}

  lemma BeatStep(w: World, c: nat, now: int)
    requires ListenAt(w) && c in w.cores
    ensures ListenAt(StepListener(w, c, Beat(now)))
  {}

  lemma ClaimStep(w: World, c: nat, now: int)
    requires ListenAt(w) && c in w.cores
    ensures ListenAt(StepListener(w, c, Claim(now)))
  {
    if ClaimTarget(w.t, w.cores[c]).Some? { ClaimKeeps(w.t, w.cores, w.hist, c, now); }
  }

  lemma PrintStep(w: World, c: nat)
    requires ListenAt(w) && c in w.cores
    ensures ListenAt(StepListener(w, c, Print))
  {}

  lemma EmitStep(w: World, c: nat)
    requires ListenAt(w) && c in w.cores
    ensures ListenAt(StepListener(w, c, Emit))
  {}

  lemma HeldStep(w: World, c: nat, a: ListenerAct)
    requires ListenAt(w) && c in w.cores
    ensures ListenAt(StepListener(w, c, a))
  {
    match a
    case Takeover(seen, now, dead) => TakeoverStep(w, c, seen, now, dead);
    case Beat(now) => BeatStep(w, c, now);
    case Claim(now) => ClaimStep(w, c, now);
    case Print => PrintStep(w, c);
    case Emit => EmitStep(w, c);
    case CoreGone => LeaveKeeps(w, c);
    case CoreStart(_, _) =>
  }

  lemma LeaveKeeps(w: World, c: nat)
    requires ListenAt(w)
    ensures ListenAt(w.(cores := w.cores - {c}))
  {}

  // ---- Every step, every run ----

  lemma SenderAside(w: World, a: SenderAct)
    ensures var w' := StepSender(w, a);
            w'.t.bindings == w.t.bindings && w'.t.deliveries == w.t.deliveries && w'.t.nextId == w.t.nextId
            && w'.cores == w.cores && w'.hist == w.hist.(acked := w'.hist.acked) && (w'.daemon == w.daemon || !w'.daemon.Judging?)
  {}

  lemma ListenStep(w: World, a: Act)
    requires ListenAt(w)
    ensures ListenAt(Next(w, a))
  {
    hide Run, StepSender, StepIntake, StepWorker, StepHook, StepListener;
    match a
    case BySender(s) =>
      SenderAside(w, s);
      SameAside(w.t, StepSender(w, s).t);
      AsideKeeps(w.t, StepSender(w, s).t, w.cores, w.hist);
    case ByIntake(i) =>
      IntakeAppends(w, i);
      IntakeLeavesListeners(w, i);
      AppendsAside(w.t, StepIntake(w, i).t);
      AsideKeeps(w.t, StepIntake(w, i).t, w.cores, w.hist);
    case ByWorker(r) => WorkerStep(w, r);
    case ByCli(Bind(chat, inst, nonce, now)) =>
      CreateBindingAside(w.t, chat, inst, nonce, now);
      AsideKeeps(w.t, StepCli(w, a.cli).t, w.cores, w.hist);
    case ByCli(Unbind(b, now)) =>
      TerminateAside(w.t, b, UserUnbind, Closed, now);
      AsideKeeps(w.t, StepCli(w, a.cli).t, w.cores, w.hist);
    case ByHook(inst, h) =>
      HookAside(w, inst, h);
      AsideKeeps(w.t, StepHook(w, inst, h).t, w.cores, w.hist);
    case ByListener(c, l) => ListenerStep(w, c, l);
  }

  lemma {:induction false} ListenRunKeeps(w: World, acts: seq<Act>)
    requires ListenAt(w)
    ensures ListenAt(Run(w, acts))
    decreases |acts|
  {
    hide Next;
    if acts != [] {
      ListenStep(w, acts[0]);
      ListenRunKeeps(Next(w, acts[0]), acts[1..]);
    }
  }
}
