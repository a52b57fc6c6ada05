/** All actors over one database: every transaction is one step, in any order and with any inputs, and the daemon or a
    hook may stop between any two. A step that its actor cannot take changes nothing. */
module Machine {
  import opened Schema
  import opened World
  import opened TurnText
  import opened OutboundTx
  import opened LifecycleTx
  import opened BindTx
  import opened InboundTx
  import opened ApprovalTx
  import opened RecoveryTx
  import opened ListenerTx

  // ---- lib/outbound.py and bin/daemon.py: the sender ----

  datatype SenderAct =
    | Boot(allow: set<nat>, bootNow: int)
    | ReconcileNext
    | SweepNext
    | DropDisallowed
    | Select(selectNow: int, gateOpen: bool)
    | PrepareNext(prepareNow: int, at: int)
    | Finish(outcome: Outcome, finishNow: int)
    | Crash

  function StepSender(w: World, a: SenderAct): World {
    match a
    case Boot(allow, now) =>
      if w.daemon.Down? then
        w.(cfg := w.cfg.(allow := allow), daemon := Reconciling(now, ReconcileRows(w.t.jobs), 0))
      else w
    case ReconcileNext => StepReconcile(w)
    case SweepNext =>
      if w.daemon.Sweeping? then
        w.(t := w.t.(jobs := SweepAll(w.daemon.stage, w.t.jobs, w.daemon.now)),
           daemon := if w.daemon.stage < 5 then Sweeping(w.daemon.now, w.daemon.stage + 1) else Idle)
      else w
    case DropDisallowed =>
      if w.daemon.Idle? then w.(t := w.t.(jobs := CancelDisallowed(w.t.jobs, w.cfg))) else w
    case Select(now, gateOpen) =>
      if w.daemon.Idle? && gateOpen then w.(daemon := Ticking(|w.t.jobs|, DueRows(w.t.jobs, now), 0, 0)) else w
    case PrepareNext(now, at) => StepPrepare(w, now, at)
    case Finish(outcome, now) => StepFinish(w, outcome, now)
    case Crash => w.(daemon := Down)
  }

  function StepReconcile(w: World): World {
    if !w.daemon.Reconciling? then w
    else if w.daemon.k < |w.daemon.rows| && w.daemon.rows[w.daemon.k] < |w.t.jobs| then
      w.(t := w.t.(jobs := ReconcileRow(w.t.jobs, w.daemon.rows[w.daemon.k], w.daemon.now)),
         daemon := Reconciling(w.daemon.now, w.daemon.rows, w.daemon.k + 1))
    else w.(daemon := Sweeping(w.daemon.now, 2))
  }

  /** One turn of tick's loop up to the network call. */
  function StepPrepare(w: World, now: int, at: int): World {
    if !w.daemon.Ticking? then w
    else
      var d := w.daemon;
      if d.k >= |d.rows| || d.sends >= OUTBOUND_BATCH || d.rows[d.k] >= |w.t.jobs| then w.(daemon := Idle)
      else
        w.(t := PrepareTx(w.t, w.cfg, d.rows[d.k], now, at),
           daemon := if PrepareVerdict(w.t, w.cfg, d.rows[d.k], now).Send?
                     then InFlight(d.len, d.rows, d.k, d.sends)
                     else Ticking(d.len, d.rows, d.k + 1, d.sends))
  }

  function Acknowledged(w: World, j: nat, outcome: Outcome): map<nat, string>
    requires j < |w.t.jobs|
  {
    if outcome.WasSent? && w.t.jobs[j].kind.SessionTurn?
    then w.hist.acked[j := if w.t.jobs[j].body.Some? then w.t.jobs[j].body.value else ""]
    else w.hist.acked
  }

  function StepFinish(w: World, outcome: Outcome, now: int): World {
    if !w.daemon.InFlight? then w
    else
      var d := w.daemon;
      if d.k < |d.rows| && d.rows[d.k] < |w.t.jobs| && w.t.jobs[d.rows[d.k]].state.Sending? then
        w.(t := FinalizeTx(w.t, d.rows[d.k], outcome, now),
           hist := w.hist.(acked := Acknowledged(w, d.rows[d.k], outcome)),
           daemon := Ticking(d.len, d.rows, d.k + 1, d.sends + 1))
      else w.(daemon := Ticking(d.len, d.rows, d.k + 1, d.sends + 1))
  }

  // ---- lib/inbound.py and lib/approval.py ----

  datatype IntakeAct =
    | Receive(event: nat, message: nat, chat: nat, sender: Option<nat>, receiveNow: int)
    | StartResolving(startMsg: nat, startNow: int)
    | Decide(decideMsg: nat, decideSnap: Snap, decideListed: bool, decideNonce: nat, decideNow: int)
    | Redecide(waitMsg: nat, waitSnap: Snap, waitListed: bool, waitNonce: nat, waitNow: int)
    | StartMaterializing(matMsg: nat, matSnap: Snap)
    | MediaFailed(failNow: int)
    | MediaPutOff
    | MediaDone(doneNow: int)
    | Click(callback: Callback, clickNow: int)

  function NoteListed(h: History, t: Tables, cfg: Config, m: nat, snap: Snap, from: InboxState, listed: bool): History
    requires m < |t.inbox|
  {
    if listed && Consults(t, cfg, m, snap, from) then h.(allowed := h.allowed + {(m, t.inbox[m].chat, snap.sender)}) else h
  }

  function Gated(w: World, r: (Tables, bool), m: nat, snap: Snap, from: InboxState, listed: bool): World
    requires m < |w.t.inbox|
  {
    w.(t := r.0, hist := NoteListed(w.hist, w.t, w.cfg, m, snap, from, listed),
       daemon := if r.1 then Materializing(m, snap, from, None) else w.daemon)
  }

  function ApprovedPendingOf(t: Tables, m: nat): Option<nat> {
    match PendingOfMsg(t.pendings, m, 0)
    case Some(p) => if t.pendings[p].state.PApproved? then Some(p) else None
    case None => None
  }

  function StepIntake(w: World, a: IntakeAct): World {
    match a
    case Receive(event, message, chat, sender, now) =>
      if w.daemon.Idle? then w.(t := InsertTx(w.t, event, message, chat, sender, now)) else w
    case StartResolving(m, now) =>
      if w.daemon.Idle? && m < |w.t.inbox| then w.(t := CasState(w.t, m, Received, Resolving, now)) else w
    case Decide(m, fetched, listed, nonce, now) =>
      if w.daemon.Idle? && m < |w.t.inbox| then
        Gated(w, DecideTx(w.t, w.cfg, m, fetched, listed, nonce, now), m, SnapOf(w.t, m, fetched), Resolving, listed)
      else w
    case Redecide(m, fetched, listed, nonce, now) =>
      if w.daemon.Idle? && m < |w.t.inbox| then
        Gated(w, WaitingTx(w.t, w.cfg, m, fetched, listed, nonce, now), m, SnapOf(w.t, m, fetched), WaitingBinding,
              listed)
      else w
    case StartMaterializing(m, fetched) =>
      if w.daemon.Idle? && m < |w.t.inbox| && w.t.inbox[m].state.ApprovedMaterializing?
         && ApprovedPendingOf(w.t, m).Some?
      then w.(daemon := Materializing(m, SnapOf(w.t, m, fetched), ApprovedMaterializing, ApprovedPendingOf(w.t, m)))
      else w
    case MediaFailed(now) =>
      if w.daemon.Materializing? && w.daemon.msg < |w.t.inbox| then
        w.(t := MediaFailedTx(w.t, w.daemon.msg, w.daemon.from, w.daemon.pending, now), daemon := Idle)
      else w
    case MediaPutOff => if w.daemon.Materializing? then w.(daemon := Idle) else w
    case MediaDone(now) =>
      if w.daemon.Materializing? && w.daemon.msg < |w.t.inbox| then
        w.(t := MediaDoneTx(w.t, w.cfg, w.daemon.msg, w.daemon.snap, w.daemon.from, w.daemon.pending, now),
           daemon := Idle)
      else w
    case Click(c, now) => if w.daemon.Idle? then w.(t := CallbackTx(w.t, w.cfg, c, now).0) else w
  }

  // ---- lib/recovery.py and the daemon's part of lib/lifecycle.py ----

  datatype WorkerAct =
    | ResolveTimeout(lateMsg: nat, lateNow: int)
    | Replenish(cardPending: nat, cardNow: int)
    | Rearm(cardJob: nat, rearmNow: int)
    | Orphaned(orphanMsg: nat, orphanNow: int)
    | MaterializeTimeout(slowMsg: nat, slowNow: int)
    | PendingTimeout(oldPending: nat, oldNow: int)
    | BindingTimeout(request: nat, timeoutNow: int)
    | CloseStray(stray: nat, strayNow: int)
    | Reclaim(reclaimNow: int)
    | SweepDeliveries
    | RescueSending(rescueNow: int)
    | Retain(retainNow: int)
    | ActivateOne(starting: nat, activateNow: int)
    | ScanDeaths(scanNow: int)
    | JudgeNext(dead: bool, inSuspectWindow: bool, judgeNow: int)

  function WorkerTables(t: Tables, a: WorkerAct): Tables {
    match a
    case ResolveTimeout(m, now) => ResolveDeadline(t, m, now)
    case Replenish(p, now) => ReplenishCard(t, p, now)
    case Rearm(j, now) => RearmCard(t, j, now)
    case Orphaned(m, now) => MaterializeOrphan(t, m, now)
    case MaterializeTimeout(m, now) => MaterializeDeadline(t, m, now)
    case PendingTimeout(p, now) => ExpirePending(t, p, now)
    case BindingTimeout(r, now) => ExpireBind(t, r, now)
    case CloseStray(b, now) => CloseOrphan(t, b, now)
    case Reclaim(now) => ReclaimLeases(t, now)
    case SweepDeliveries => SweepStranded(t)
    case RescueSending(now) => t.(jobs := LegacySending(t.jobs, now))
    case Retain(now) => Retention(t, now)
    case ActivateOne(b, now) => ActivateIfReady(t, b, now)
    case ScanDeaths(_) => t
    case JudgeNext(_, _, _) => t
  }

  function StepWorker(w: World, a: WorkerAct): World {
    if a.ScanDeaths? then
      if w.daemon.Idle? then
        w.(daemon := Judging(a.scanNow, w.t.bindings, 0), hist := w.hist.(silent := Silent(w.t.bindings, w.hist.beaten)))
      else w
    else if a.JudgeNext? then StepJudge(w, a.dead, a.inSuspectWindow, a.judgeNow)
    else if w.daemon.Idle? then w.(t := WorkerTables(w.t, a))
    else w
  }

  function Silent(bs: seq<Binding>, beaten: set<nat>): set<nat> {
    set b: nat | b < |bs| && b !in beaten
  }

  function StepJudge(w: World, dead: bool, inSuspectWindow: bool, now: int): World {
    if !w.daemon.Judging? then w
    else
      var d := w.daemon;
      if d.at >= |d.seen| then w.(daemon := Idle)
      else if !d.seen[d.at].status.Live() then w.(daemon := Judging(d.scanNow, d.seen, d.at + 1))
      else
        var t' := JudgeRow(w.t, d.at, d.seen[d.at], d.scanNow, dead, inSuspectWindow, now);
        w.(t := t', daemon := Judging(d.scanNow, d.seen, d.at + 1),
           hist := if Judge(d.seen[d.at], d.scanNow, dead, inSuspectWindow).Suspected?
                   then w.hist.(beaten := w.hist.beaten - {d.at}) else w.hist)
  }

  // ---- bin/bridgectl.py ----

  datatype CliAct = Bind(bindChat: nat, bindInst: nat, bindNonce: nat, bindNow: int) | Unbind(unbound: nat, unbindNow: int)

  function StepCli(w: World, a: CliAct): World {
    match a
    case Bind(chat, inst, nonce, now) => w.(t := CreateBinding(w.t, chat, inst, nonce, now).0)
    case Unbind(b, now) => w.(t := Terminate(w.t, b, UserUnbind, Closed, now))
  }

  // ---- lib/hooklib.py: one Stop hook per instance at a time ----

  datatype HookAct =
    | StopBegin(payload: StopPayload)
    | StopFindBind
    | StopHandshake
    | StopFail
    | StopMarkers
    | StopLookup
    | StopInsert
    | StopKilled
    | EndBinding(ended: nat, endNow: int)
    | EndRequest(endedRequest: nat, endRequestNow: int)
    | EndLatches
  {
    predicate OfSessionEnd() { EndBinding? || EndRequest? || EndLatches? }
  }

  function Goto(w: World, inst: nat, pc: StopPc): World { w.(stops := w.stops[inst := pc]) }

  function Done(w: World, inst: nat): World { w.(stops := w.stops - {inst}) }

  /** The latch: a continuation inside a bind turn is suppressed, a fresh Stop shuts the instance's latches. */
  function StepStopBegin(w: World, inst: nat, p: StopPayload): World {
    if inst in w.stops then w
    else if p.continuation then
      if LatchedInst(w.t.binds, inst) then w else Goto(w, inst, AfterLatch(p))
    else
      Goto(w.(t := w.t.(binds := CloseLatches(w.t.binds, inst)), hist := w.hist.(bindTurn := w.hist.bindTurn - {inst})),
           inst, AfterLatch(p))
  }

  function StepStopFindBind(w: World, inst: nat): World {
    if inst in w.stops && w.stops[inst].AfterLatch? then
      var p := w.stops[inst].p;
      match PendingOf(w.t.binds, inst, |w.t.binds|)
      case Some(r) =>
        if w.t.binds[r].expires > p.now then
          if w.t.binds[r].nonce in p.markers && p.session.Some? then Goto(w, inst, ToHandshake(p, r))
          else Goto(w, inst, ToMiss(p, r))
        else Goto(w, inst, AfterBind(p))
      case None => Goto(w, inst, AfterBind(p))
    else w
  }

  function StepStopHandshake(w: World, inst: nat): World {
    if inst in w.stops && w.stops[inst].ToHandshake? && w.stops[inst].p.session.Some? then
      var pc := w.stops[inst];
      var v := HandshakeVerdict(w.t, pc.request, pc.p.session.value, pc.p.now);
      var w1 := w.(t := HandshakeTx(w.t, pc.request, pc.p.session.value, pc.p.now));
      if v.SessionConflict? then Goto(w1, inst, ToConflict(pc.p, pc.request))
      else if v.HandshakeDone? then Done(w1.(hist := w1.hist.(bindTurn := w1.hist.bindTurn + {inst})), inst)
      else Done(w1, inst)
    else w
  }

  function StepStopLookup(w: World, inst: nat): World {
    if inst in w.stops && w.stops[inst].AfterMarker? then
      var p := w.stops[inst].p;
      if p.session.None? then Done(w, inst)
      else
        match ActiveOf(w.t.bindings, p.session.value, 0)
        case None => Done(w, inst)
        case Some(b) =>
          if w.t.bindings[b].inst != inst || Blank(p.text) then Done(w, inst)
          else Goto(w, inst, ToInsert(p, b))
    else w
  }

  function StepStopInsert(w: World, inst: nat): World {
    if inst in w.stops && w.stops[inst].ToInsert? then
      var pc := w.stops[inst];
      var b := pc.binding;
      if b < |w.t.bindings| && w.t.bindings[b].status.Active? then
        Done(w.(t := InsertTurn(w.t, b, pc.p),
                hist := w.hist.(spans := w.hist.spans[w.t.nextId :=
                                  Span(|w.t.jobs|, b, WithFooter(ChunkText(pc.p.text), pc.p.footer))])), inst)
      else Done(w, inst)
    else w
  }

  function StepHook(w: World, inst: nat, a: HookAct): World {
    match a
    case StopBegin(p) => StepStopBegin(w, inst, p)
    case StopFindBind => StepStopFindBind(w, inst)
    case StopHandshake => StepStopHandshake(w, inst)
    case StopFail =>
      if inst in w.stops && (w.stops[inst].ToMiss? || w.stops[inst].ToConflict?) then
        Done(w.(t := FailBind(w.t, w.stops[inst].request, w.stops[inst].p.now)), inst)
      else w
    case StopMarkers =>
      if inst in w.stops && w.stops[inst].AfterBind? then
        if MarkerOf(w.t.binds, inst, w.stops[inst].p.markers) || w.stops[inst].p.prefix then Done(w, inst)
        else Goto(w, inst, AfterMarker(w.stops[inst].p))
      else w
    case StopLookup => StepStopLookup(w, inst)
    case StopInsert => StepStopInsert(w, inst)
    case StopKilled => Done(w, inst)
    case EndBinding(b, now) => w.(t := Terminate(w.t, b, SessionEnd, Closed, now))
    case EndRequest(r, now) => w.(t := EndPending(w.t, r, now))
    case EndLatches =>
      w.(t := w.t.(binds := CloseLatches(w.t.binds, inst)), hist := w.hist.(bindTurn := w.hist.bindTurn - {inst}))
  }

  // ---- lib/listener_core.py ----

  datatype ListenerAct =
    | CoreStart(forBinding: nat, process: nat)
    | Takeover(seen: Binding, takeoverNow: int, holderDead: bool) // `seen` is the row as read, however long ago
    | Beat(beatNow: int)
    | Claim(claimNow: int)
    | Print
    | Emit
    | CoreGone

  function StepListener(w: World, c: nat, a: ListenerAct): World {
    if a.CoreStart? then
      if c in w.cores then w else w.(cores := w.cores[c := Core(a.forBinding, a.process, None, Nothing)])
    else if c !in w.cores then w
    else
      var core := w.cores[c];
      match a
      case CoreStart(_, _) => w
      case Takeover(seen, now, dead) =>
        if !IdentityIsMe(seen, core) && PlanTakeover(seen, core, now, dead).Try?
           && TakeoverWins(w.t, core.binding, seen)
        then
          w.(t := TakeoverTx(w.t, core.binding, seen, core.process, now),
             cores := w.cores[c := core.(epoch := Some(seen.epoch + 1))],
             hist := w.hist.(won := w.hist.won + {(core.binding, seen.epoch + 1, c)},
                             beaten := w.hist.beaten + {core.binding}))
        else w
      case Beat(now) =>
        if BeatWins(w.t, core) then
          w.(t := BeatTx(w.t, core, now), hist := w.hist.(beaten := w.hist.beaten + {core.binding}))
        else w.(cores := w.cores - {c})
      case Claim(now) =>
        if core.holding.Nothing? && ClaimTarget(w.t, core).Some? then
          w.(t := ClaimTx(w.t, core, now),
             cores := w.cores[c := core.(holding := Claimed(ClaimTarget(w.t, core).value, w.t.nextId))])
        else w
      case Print =>
        if core.holding.Claimed? then
          w.(cores := w.cores[c := core.(holding := Printed(core.holding.delivery, core.holding.token))],
             hist := w.hist.(printed := w.hist.printed + {(core.holding.delivery, core.holding.token)}))
        else w
      case Emit =>
        if core.holding.Printed? then
          w.(t := EmitTx(w.t, core.holding.delivery, core.holding.token),
             cores := w.cores[c := core.(holding := Nothing)])
        else w
      case CoreGone => w.(cores := w.cores - {c})
  }

  // ---- Runs ----

  datatype Act =
    | BySender(sender: SenderAct)
    | ByIntake(intake: IntakeAct)
    | ByWorker(worker: WorkerAct)
    | ByCli(cli: CliAct)
    | ByHook(inst: nat, hook: HookAct)
    | ByListener(core: nat, listener: ListenerAct)
  {
    /** Steps of processes other than the daemon. */
    predicate Foreign() { ByCli? || ByHook? || ByListener? }
  }

  function Next(w: World, a: Act): World {
    match a
    case BySender(s) => StepSender(w, s)
    case ByIntake(i) => StepIntake(w, i)
    case ByWorker(r) => StepWorker(w, r)
    case ByCli(c) => StepCli(w, c)
    case ByHook(inst, h) => StepHook(w, inst, h)
    case ByListener(c, l) => StepListener(w, c, l)
  }

  function Run(w: World, acts: seq<Act>): World
    decreases |acts|
  {
    if acts == [] then w else Run(Next(w, acts[0]), acts[1..])
  }

  function Initial(cfg: Config): World {
    World(EmptyTables, cfg, Down, map[], map[], History(map[], map[], {}, {}, {}, {}, {}, {}))
  }

  lemma {:induction false} RunAppend(w: World, a: seq<Act>, b: seq<Act>)
    ensures Run(w, a + b) == Run(Run(w, a), b)
    decreases |a|
  {
    hide Next;
    if a == [] {
      assert a + b == b;
    } else {
      assert (a + b)[1..] == a[1..] + b;
      RunAppend(Next(w, a[0]), a[1..], b);
    }
  }

  lemma RunOneMore(w: World, acts: seq<Act>, others: seq<Act>, a: Act)
    ensures Run(w, acts + (others + [a])) == Next(Run(Run(w, acts), others), a)
  {
    hide Next, Run;
    RunAppend(w, acts, others + [a]);
    RunAppend(Run(w, acts), others, [a]);
    RunIsNext(Run(Run(w, acts), others), a);
  }

  lemma RunIsNext(w: World, a: Act)
    ensures Run(w, [a]) == Next(w, a)
  {
    hide Next;
    assert [a][1..] == [];
  }

  /** Others, then one step. */
  lemma StepAfter(w: World, others: seq<Act>, a: Act)
    ensures Run(w, others + [a]) == Next(Run(w, others), a)
  {
    hide Next, Run;
    RunAppend(w, others, [a]);
    RunIsNext(Run(w, others), a);
  }

  /** One step, then the rest. */
  lemma OneThen(w: World, a: Act, rest: seq<Act>)
    ensures Run(w, [a] + rest) == Run(Next(w, a), rest)
  {
    hide Next, Run;
    RunIsNext(w, a);
    RunAppend(w, [a], rest);
  }

  lemma ThreeSteps(w: World, a: Act, b: Act, c: Act)
    ensures Run(w, [a, b, c]) == Next(Next(Next(w, a), b), c)
  {
    hide Next;
    assert [a, b, c][1..] == [b, c] && [b, c][1..] == [c];
    RunIsNext(Next(Next(w, a), b), c);
  }
}
