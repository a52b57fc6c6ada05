/** lib/hooklib.py as it runs: the Stop and SessionEnd hooks, with other processes at work between their database
    accesses. */
module HookOps {
  import opened Schema
  import opened World
  import opened Jobs
  import opened TurnText
  import opened LifecycleTx
  import opened BindTx
  import opened Machine
  import opened Scripts
  import opened HookScripts
  import opened System
  import opened LifecycleOps
  import opened Reach
  import BindInvariant
  import BindLaws
  import HookLaws
  import QueueSteps

  method Meanwhile(s: System, acts: seq<Act>, inst: nat)
    requires (hide Next, Run; s.Valid() && NotThisStop(acts, inst))
    modifies s
    ensures s.Valid() && s.W() == Run(old(s.W()), acts)
    ensures inst in s.stops <==> inst in old(s.stops)
    ensures inst in s.stops ==> s.stops[inst] == old(s.stops)[inst]
  {
    hide Next, Run;
    ghost var w := s.W();
    s.Others(acts);
    OthersLeaveStop(w, acts, inst);
  }

  // ---- The latch ----

  method HasLatch(s: System, inst: nat) returns (open: bool)
    ensures open == LatchedInst(s.binds, inst)
  {
    var i := 0;
    while i < |s.binds|
      invariant i <= |s.binds| && forall k :: 0 <= k < i ==> !(s.binds[k].inst == inst && s.binds[k].latch)
    {
      if s.binds[i].inst == inst && s.binds[i].latch { return true; }
      i := i + 1;
    }
    return false;
  }

  method ShutLatches(s: System, inst: nat)
    modifies s`binds
    ensures s.binds == CloseLatches(old(s.binds), inst)
  {
    var i := 0;
    while i < |s.binds|
      invariant i <= |s.binds| == |old(s.binds)|
      invariant forall k :: 0 <= k < i ==> s.binds[k] == CloseLatches(old(s.binds), inst)[k]
      invariant forall k :: i <= k < |s.binds| ==> s.binds[k] == old(s.binds)[k]
    {
      if s.binds[i].inst == inst { s.binds := s.binds[i := s.binds[i].(latch := false)]; }
      i := i + 1;
    }
  }

  /** Step 1: a continuation inside a bind turn ends here; a fresh Stop shuts the latches. */
  method Begin(s: System, inst: nat, p: StopPayload) returns (on: bool)
    requires (hide Next, Run; s.Valid() && inst !in s.stops)
    modifies s
    ensures s.W() == Next(old(s.W()), ByHook(inst, StopBegin(p)))
    ensures if on then inst in s.stops && s.stops[inst] == AfterLatch(p) else inst !in s.stops
    ensures !on <==> p.continuation && LatchedInst(old(s.binds), inst)
  {
    hide Run, StepSender, StepIntake, StepWorker, StepCli, StepListener;
    var open := HasLatch(s, inst);
    if p.continuation {
      if open { return false; }
    } else {
      ShutLatches(s, inst);
      s.hist := s.hist.(bindTurn := s.hist.bindTurn - {inst});
    }
    s.stops := s.stops[inst := AfterLatch(p)];
    return true;
  }

  // ---- The handshake ----

  /** The confirming transaction of _handshake. */
  method Confirm(s: System, r: nat, session: nat, now: int) returns (verdict: Handshake)
    modifies s
    ensures s.W() == old(s.W()).(t := HandshakeTx(old(s.T()), r, session, now))
    ensures verdict == HandshakeVerdict(old(s.T()), r, session, now)
  {
    var t0 := s.T();
    if r >= |s.binds| || !s.binds[r].state.BPending? || s.binds[r].expires <= now { return HandshakeRace; }
    s.binds := s.binds[r := s.binds[r].(state := BConsumed, latch := true)];
    if r >= |s.bindings| || !s.bindings[r].status.Starting? {
      s.binds := s.binds[r := s.binds[r].(state := BFailed)];
      return BindingGone;
    }
    if SessionTaken(s.bindings, session, r) {
      s.Restore(t0);
      return SessionConflict;
    }
    s.bindings := s.bindings[r := s.bindings[r].(confirmed := true, confirmedAt := Some(now), session := Some(session))];
    if HeartbeatFresh(s.bindings[r], now) {
      s.jobs := AddJob(s.jobs, BoundNotice(s.bindings[r], r, now));
      s.bindings := s.bindings[r := s.bindings[r].(status := Active)];
    }
    return HandshakeDone;
  }

  /** A bind turn whose handshake cannot be completed. */
  method Fail(s: System, r: nat, now: int)
    modifies s
    ensures s.W() == old(s.W()).(t := FailBind(old(s.T()), r, now))
  {
    if r < |s.binds| && s.binds[r].state.BPending? {
      s.binds := s.binds[r := s.binds[r].(state := BFailed, latch := true)];
      var _ := TerminateInTx(s, r, BindFailed, Closed, now);
    }
  }

  method FindRequest(s: System, inst: nat) returns (r: Option<nat>)
    ensures r == PendingOf(s.binds, inst, |s.binds|)
  {
    var i: nat := |s.binds|;
    while i > 0
      invariant i <= |s.binds| && PendingOf(s.binds, inst, i) == PendingOf(s.binds, inst, |s.binds|)
    {
      i := i - 1;
      if s.binds[i].inst == inst && s.binds[i].state.BPending? { return Some(i); }
    }
    return None;
  }

  /** Step 2: the instance's own bind request decides what this Stop is for. */
  method FindBind(s: System, inst: nat) returns (pc: StopPc)
    requires (hide Next, Run; inst in s.stops && s.stops[inst].AfterLatch?)
    modifies s`stops
    ensures s.W() == Next(old(s.W()), ByHook(inst, StopFindBind))
    ensures inst in s.stops && s.stops[inst] == pc && pc.p == old(s.stops)[inst].p
    ensures pc.AfterBind? || pc.ToMiss? || (pc.ToHandshake? && pc.p.session.Some?)
  {
    hide Run, StepSender, StepIntake, StepWorker, StepCli, StepListener;
    var p := s.stops[inst].p;
    var r := FindRequest(s, inst);
    pc := AfterBind(p);
    if r.Some? && s.binds[r.value].expires > p.now {
      pc := if s.binds[r.value].nonce in p.markers && p.session.Some? then ToHandshake(p, r.value)
            else ToMiss(p, r.value);
    }
    s.stops := s.stops[inst := pc];
  }

  /** The handshake up to its commit or rollback. */
  method Shake(s: System, inst: nat) returns (conflict: bool)
    requires (hide Next, Run;
             s.Valid() && inst in s.stops && s.stops[inst].ToHandshake? && s.stops[inst].p.session.Some?)
    modifies s
    ensures s.Valid() && s.W() == Next(old(s.W()), ByHook(inst, StopHandshake))
    ensures conflict <==> inst in s.stops
    ensures conflict ==> s.stops[inst] == ToConflict(old(s.stops)[inst].p, old(s.stops)[inst].request)
  {
    hide Run, StepSender, StepIntake, StepWorker, StepCli, StepListener;
    ghost var w0 := s.W();
    ReachedNext(w0, ByHook(inst, StopHandshake));
    var pc := s.stops[inst];
    var verdict := Confirm(s, pc.request, pc.p.session.value, pc.p.now);
    if verdict.SessionConflict? {
      s.stops := s.stops[inst := ToConflict(pc.p, pc.request)];
      return true;
    }
    if verdict.HandshakeDone? { s.hist := s.hist.(bindTurn := s.hist.bindTurn + {inst}); }
    s.stops := s.stops - {inst};
    return false;
  }

  /** Others, then the failure. */
  method FailAfter(s: System, inst: nat, conflict: seq<Act>)
    requires (hide Next, Run; s.Valid() && inst in s.stops && (s.stops[inst].ToMiss? || s.stops[inst].ToConflict?))
    requires NotThisStop(conflict, inst)
    modifies s
    ensures s.Valid() && inst !in s.stops && s.W() == Run(old(s.W()), conflict + [ByHook(inst, StopFail)])
  {
    hide Run, StepSender, StepIntake, StepWorker, StepCli, StepListener;
    ghost var w0 := s.W();
    var pc := s.stops[inst];
    Meanwhile(s, conflict, inst);
    ReachedNext(s.W(), ByHook(inst, StopFail));
    RunAppend(w0, conflict, [ByHook(inst, StopFail)]);
    RunIsNext(s.W(), ByHook(inst, StopFail));
    Fail(s, pc.request, pc.p.now);
    s.stops := s.stops - {inst};
  }

  /** Either way the Stop forwards nothing. */
  method FinishBind(s: System, inst: nat, conflict: seq<Act>)
    requires (hide Next, Run; s.Valid() && inst in s.stops && NotThisStop(conflict, inst))
    requires s.stops[inst].ToMiss? || (s.stops[inst].ToHandshake? && s.stops[inst].p.session.Some?)
    modifies s
    ensures s.Valid() && inst !in s.stops && s.W() == Run(old(s.W()), FinishActs(old(s.W()), inst, conflict))
  {
    hide Next;
    ghost var w0 := s.W();
    if s.stops[inst].ToHandshake? {
      var again := Shake(s, inst);
      ghost var w1 := s.W();
      RunIsNext(w0, ByHook(inst, StopHandshake));
      RunAppend(w0, [ByHook(inst, StopHandshake)],
                if again then conflict + [ByHook(inst, StopFail)] else []);
      if !again { return; }
    }
    FailAfter(s, inst, conflict);
  }

  // ---- The turn ----

  /** Steps 3 and 4: anything that looks like a bind marker is not forwarded. */
  method CheckMarkers(s: System, inst: nat) returns (on: bool)
    requires (hide Next, Run; inst in s.stops && s.stops[inst].AfterBind?)
    modifies s`stops
    ensures s.W() == Next(old(s.W()), ByHook(inst, StopMarkers))
    ensures on <==> !MarkerOf(s.binds, inst, old(s.stops)[inst].p.markers) && !old(s.stops)[inst].p.prefix
    ensures if on then inst in s.stops && s.stops[inst] == AfterMarker(old(s.stops)[inst].p) else inst !in s.stops
  {
    hide Run, StepSender, StepIntake, StepWorker, StepCli, StepListener;
    var p := s.stops[inst].p;
    on := !p.prefix;
    var i := 0;
    while i < |s.binds|
      invariant i <= |s.binds|
      invariant on <==> !p.prefix && forall k :: 0 <= k < i ==> !(s.binds[k].inst == inst && s.binds[k].nonce in p.markers)
    {
      if s.binds[i].inst == inst && s.binds[i].nonce in p.markers { on := false; }
      i := i + 1;
    }
    s.stops := if on then s.stops[inst := AfterMarker(p)] else s.stops - {inst};
  }

  /** Step 5: the active binding of the session, if it is this instance's and there is something to say. */
  method Lookup(s: System, inst: nat) returns (b: Option<nat>, mismatch: bool)
    requires (hide Next, Run; inst in s.stops && s.stops[inst].AfterMarker?)
    modifies s`stops
    ensures s.W() == Next(old(s.W()), ByHook(inst, StopLookup))
    ensures if b.Some? then inst in s.stops && s.stops[inst] == ToInsert(old(s.stops)[inst].p, b.value)
            else inst !in s.stops
    ensures mismatch <==> Mismatched(old(s.T()), old(s.stops)[inst].p, inst)
  {
    hide Run, StepSender, StepIntake, StepWorker, StepCli, StepListener;
    var p := s.stops[inst].p;
    b := if p.session.Some? then ActiveOf(s.bindings, p.session.value, 0) else None;
    mismatch := b.Some? && s.bindings[b.value].inst != inst;
    if mismatch || Blank(p.text) { b := None; }
    s.stops := if b.Some? then s.stops[inst := ToInsert(p, b.value)] else s.stops - {inst};
  }

  method CutText(text: string) returns (chunks: seq<string>)
    ensures chunks == ChunkText(text)
  {
    chunks := [];
    var rest := text;
    while rest != ""
      invariant chunks + ChunkText(rest) == ChunkText(text)
      decreases |rest|
    {
      ghost var was := rest;
      var piece := if |rest| <= CHUNK_LIMIT then rest else rest[..CHUNK_LIMIT];
      rest := rest[|piece|..];
      chunks := chunks + [piece];
      assert ChunkText(was) == [piece] + ChunkText(rest);
    }
  }

  method QueueChunks(s: System, group: nat, b: nat, chat: nat, chunks: seq<string>, now: int)
    modifies s`jobs
    ensures s.jobs == EnqueueTurn(old(s.jobs), group, b, chat, chunks, 0, now)
  {
    var i := 0;
    while i < |chunks|
      invariant i <= |chunks|
      invariant EnqueueTurn(s.jobs, group, b, chat, chunks, i, now)
                == EnqueueTurn(old(s.jobs), group, b, chat, chunks, 0, now)
    {
      s.jobs := AddJob(s.jobs, TurnJob(TurnGroup(group), i, Some(b), chat, chunks[i], now));
      i := i + 1;
    }
  }

  /** The inserting transaction: the chunks of the message, the footer behind the last, if the binding is still active. */
  method Insert(s: System, inst: nat) returns (result: Result)
    requires (hide Next, Run; inst in s.stops && s.stops[inst].ToInsert?)
    modifies s
    ensures s.W() == Next(old(s.W()), ByHook(inst, StopInsert)) && inst !in s.stops
    ensures !result.Suppressed? && (result.Forwarded? <==> StillActive(old(s.W()), inst))
    ensures result.Forwarded? ==>
              result.group == old(s.nextId) && result.chunks == |ChunkText(old(s.stops)[inst].p.text)|
  {
    hide Run, StepSender, StepIntake, StepWorker, StepCli, StepListener;
    var p, b := s.stops[inst].p, s.stops[inst].binding;
    if b >= |s.bindings| || !s.bindings[b].status.Active? {
      s.stops := s.stops - {inst};
      return NotForwarded;
    }
    var cut := CutText(p.text);
    var chunks := if cut == [] then [] else cut[..|cut| - 1] + [cut[|cut| - 1] + p.footer];
    var base := |s.jobs|;
    var group := InsertChunks(s, b, p, chunks);
    s.hist := s.hist.(spans := s.hist.spans[group := Span(base, b, chunks)]);
    s.stops := s.stops - {inst};
    return Forwarded(group, |chunks|);
  }

  method InsertChunks(s: System, b: nat, p: StopPayload, chunks: seq<string>) returns (group: nat)
    requires b < |s.bindings| && s.bindings[b].status.Active? && chunks == WithFooter(ChunkText(p.text), p.footer)
    modifies s`jobs, s`nextId
    ensures s.T() == InsertTurn(old(s.T()), b, p) && group == old(s.nextId)
  {
    group := s.nextId;
    s.nextId := group + 1;
    QueueChunks(s, group, b, s.bindings[b].chat, chunks, p.now);
  }

  /** The turn stands whole at the end of the queue: the message's chunks with the footer behind the last, in order, for
      the active binding of the Stop's session and instance. */
  ghost predicate WholeTurnQueued(w: World, inst: nat, p: StopPayload, group: nat) {
    && group in w.hist.spans
    && (var span := w.hist.spans[group];
        && span.chunks == WithFooter(ChunkText(p.text), p.footer) && span.base + |span.chunks| == |w.t.jobs|
        && span.binding < |w.t.bindings|
        && (var b := w.t.bindings[span.binding];
            && b.status.Active? && b.inst == inst && b.session == p.session && p.session.Some?
            && w.t.jobs[span.base..] == TurnJobs(group, span.binding, b.chat, span.chunks, p.now)))
  }

  lemma InsertQueuesWholeTurn(w: World, inst: nat)
    requires (hide Next, Run; Reached(w) && inst in w.stops && w.stops[inst].ToInsert? && StillActive(w, inst))
    ensures WholeTurnQueued(Next(w, ByHook(inst, StopInsert)), inst, w.stops[inst].p, w.t.nextId)
  {
    hide Run, StepSender, StepIntake, StepWorker, StepCli, StepListener;
    SoundWhenReached(w);
    var pc := w.stops[inst];
    var b := pc.binding;
    assert BindInvariant.StopOk(inst, pc, w.t.bindings, w.t.binds, w.hist.bindTurn);
    QueueSteps.EnqueueIsAppend(w.t.jobs, w.hist.spans, w.hist.acked, w.t.nextId, b, w.t.bindings[b].chat,
                               WithFooter(ChunkText(pc.p.text), pc.p.footer), pc.p.now);
  }

  /** The insert, after others. */
  method InsertAfter(s: System, inst: nat, p: StopPayload, g: Pauses) returns (result: Result)
    requires (hide Next, Run;
             s.Valid() && inst in s.stops && s.stops[inst].ToInsert? && s.stops[inst].p == p && Foreign(g, inst))
    modifies s
    ensures s.Valid() && inst !in s.stops
    ensures var trace := InsertTrace(old(s.W()), inst, p, g); s.W() == Run(old(s.W()), trace.0) && result == trace.1
    ensures result.Forwarded? ==> WholeTurnQueued(s.W(), inst, p, result.group)
  {
    hide Next, Run;
    ghost var w0 := s.W();
    Meanwhile(s, g.beforeInsert, inst);
    ghost var w1 := s.W();
    StepAfter(w0, g.beforeInsert, ByHook(inst, StopInsert));
    ReachedNext(w1, ByHook(inst, StopInsert));
    if StillActive(w1, inst) { InsertQueuesWholeTurn(w1, inst); }
    result := Insert(s, inst);
  }

  /** Step 5 and the insert. */
  method FindAndInsert(s: System, inst: nat, p: StopPayload, g: Pauses) returns (result: Result)
    requires (hide Next, Run; s.Valid() && inst in s.stops && s.stops[inst] == AfterMarker(p) && Foreign(g, inst))
    modifies s
    ensures s.Valid() && inst !in s.stops
    ensures var trace := FindTrace(old(s.W()), inst, p, g); s.W() == Run(old(s.W()), trace.0) && result == trace.1
    ensures result.Forwarded? ==> WholeTurnQueued(s.W(), inst, p, result.group)
  {
    hide Next, Run;
    ghost var w0 := s.W();
    Meanwhile(s, g.beforeLookup, inst);
    StepAfter(w0, g.beforeLookup, ByHook(inst, StopLookup));
    ReachedNext(s.W(), ByHook(inst, StopLookup));
    var b, mismatch := Lookup(s, inst);
    ghost var w1 := s.W();
    if b.None? { return if mismatch then Suppressed else NotForwarded; }
    result := InsertAfter(s, inst, p, g);
    RunAppend(w0, g.beforeLookup + [ByHook(inst, StopLookup)], InsertTrace(w1, inst, p, g).0);
  }

  /** Steps 3 to 5 and the insert. */
  method Forward(s: System, inst: nat, p: StopPayload, g: Pauses) returns (result: Result)
    requires (hide Next, Run; s.Valid() && inst in s.stops && s.stops[inst] == AfterBind(p) && Foreign(g, inst))
    modifies s
    ensures s.Valid() && inst !in s.stops
    ensures var trace := ForwardTrace(old(s.W()), inst, p, g); s.W() == Run(old(s.W()), trace.0) && result == trace.1
    ensures result.Forwarded? ==> WholeTurnQueued(s.W(), inst, p, result.group)
  {
    hide Next, Run;
    ghost var w0 := s.W();
    Meanwhile(s, g.beforeMarkers, inst);
    StepAfter(w0, g.beforeMarkers, ByHook(inst, StopMarkers));
    ReachedNext(s.W(), ByHook(inst, StopMarkers));
    var on := CheckMarkers(s, inst);
    if !on { return Suppressed; }
    ghost var w1 := s.W();
    result := FindAndInsert(s, inst, p, g);
    RunAppend(w0, g.beforeMarkers + [ByHook(inst, StopMarkers)], FindTrace(w1, inst, p, g).0);
  }

  /** The Stop gets past the latch and finds this open request of its instance. */
  ghost predicate MeetsRequest(w: World, inst: nat, p: StopPayload, g: Pauses, r: nat) {
    !HookLaws.Suppresses(w.t.binds, inst, p)
    && BindLaws.OpenRequest(HookLaws.AtFind(w, inst, p, g).t.binds, inst, p.now, r)
  }

  /** The whole Stop hook, with others between any two of its accesses. What it reports forwarded stands whole in the
      queue; otherwise it queued nothing; it forwards exactly the Stops it should, and confirms or fails exactly the bind
      requests it should; and a continuation that meets an open latch touches no table. */
  method RunStopHook(s: System, inst: nat, p: StopPayload, g: Pauses) returns (result: Result)
    requires (hide Next, Run; s.Valid() && inst !in s.stops && Foreign(g, inst))
    modifies s
    ensures s.Valid() && inst !in s.stops
    ensures var trace := StopTrace(old(s.W()), inst, p, g); s.W() == Run(old(s.W()), trace.0) && result == trace.1
    ensures result.Forwarded? ==> WholeTurnQueued(s.W(), inst, p, result.group)
    ensures !result.Forwarded? ==> QueuesNothing(old(s.W()), StopTrace(old(s.W()), inst, p, g).0, inst)
    ensures p.continuation && LatchedInst(old(s.binds), inst) ==> result.Suppressed? && s.T() == old(s.T())
    ensures result.Forwarded? <==> HookLaws.Forwards(old(s.W()), inst, p, g)
    ensures forall r: nat :: MeetsRequest(old(s.W()), inst, p, g, r) ==>
              result.Suppressed? && HookLaws.BindTurnLed(old(s.W()), s.W(), inst, p, g, r)
  {
    hide Run, StepSender, StepIntake, StepWorker, StepCli, StepListener;
    ghost var w0 := s.W();
    UnforwardedQueuesNothing(w0, inst, p, g);
    HookLaws.StopForwardsIff(w0, inst, p, g);
    forall r: nat | MeetsRequest(w0, inst, p, g, r)
      ensures StopTrace(w0, inst, p, g).1.Suppressed?
      ensures HookLaws.BindTurnLed(w0, Run(w0, StopTrace(w0, inst, p, g).0), inst, p, g, r)
    {
      HookLaws.BindTurnLeads(w0, inst, p, g, r);
    }
    var on := Begin(s, inst, p);
    ReachedNext(w0, ByHook(inst, StopBegin(p)));
    RunIsNext(w0, ByHook(inst, StopBegin(p)));
    if !on { return Suppressed; }
    ghost var w1 := s.W();
    Meanwhile(s, g.beforeBind, inst);
    StepAfter(w1, g.beforeBind, ByHook(inst, StopFindBind));
    ReachedNext(s.W(), ByHook(inst, StopFindBind));
    RunAppend(w0, [ByHook(inst, StopBegin(p))], g.beforeBind + [ByHook(inst, StopFindBind)]);
    var pc := FindBind(s, inst);
    ghost var looked := [ByHook(inst, StopBegin(p))] + (g.beforeBind + [ByHook(inst, StopFindBind)]);
    ghost var w2 := s.W();
    if pc.AfterBind? {
      result := Forward(s, inst, p, g);
      RunAppend(w0, looked, ForwardTrace(w2, inst, p, g).0);
    } else {
      Meanwhile(s, g.beforeFinish, inst);
      ghost var w3 := s.W();
      FinishBind(s, inst, g.onConflict);
      RunAppend(w2, g.beforeFinish, FinishActs(w3, inst, g.onConflict));
      RunAppend(w0, looked, g.beforeFinish + FinishActs(w3, inst, g.onConflict));
      result := Suppressed;
    }
  }

  // ---- SessionEnd ----

  method EndOneBinding(s: System, inst: nat, b: nat, now: int)
    requires (hide Next, Run; s.Valid())
    modifies s
    ensures s.Valid() && s.W() == Next(old(s.W()), ByHook(inst, EndBinding(b, now)))
  {
    hide Run, StepSender, StepIntake, StepWorker, StepCli, StepListener;
    ghost var w := s.W();
    ReachedNext(w, ByHook(inst, EndBinding(b, now)));
    var _ := TerminateInTx(s, b, SessionEnd, Closed, now);
  }

  method EndOneRequest(s: System, inst: nat, r: nat, now: int)
    requires (hide Next, Run; s.Valid())
    modifies s
    ensures s.Valid() && s.W() == Next(old(s.W()), ByHook(inst, EndRequest(r, now)))
  {
    hide Run, StepSender, StepIntake, StepWorker, StepCli, StepListener;
    ghost var w := s.W();
    ReachedNext(w, ByHook(inst, EndRequest(r, now)));
    if r < |s.binds| && s.binds[r].state.BPending? {
      s.binds := s.binds[r := s.binds[r].(state := BExpired, latch := false)];
      var _ := TerminateInTx(s, r, SessionEnd, Closed, now);
    }
  }

  method EndOneLatch(s: System, inst: nat)
    requires (hide Next, Run; s.Valid())
    modifies s
    ensures s.Valid() && s.W() == Next(old(s.W()), ByHook(inst, EndLatches)) && !LatchedInst(s.binds, inst)
  {
    hide Run, StepSender, StepIntake, StepWorker, StepCli, StepListener;
    ghost var w := s.W();
    ReachedNext(w, ByHook(inst, EndLatches));
    ShutLatches(s, inst);
    s.hist := s.hist.(bindTurn := s.hist.bindTurn - {inst});
  }

  /** Others, then the end of one binding; whatever had ended before stays ended. */
  method EndBindingAfter(s: System, inst: nat, b: nat, now: int, others: seq<Act>)
    requires (hide Next, Run; s.Valid() && b < |s.bindings|)
    modifies s
    ensures s.Valid() && s.W() == Run(old(s.W()), others + [ByHook(inst, EndBinding(b, now))])
    ensures |old(s.bindings)| <= |s.bindings| && !s.bindings[b].status.Live()
    ensures forall i :: 0 <= i < |old(s.bindings)| && !old(s.bindings)[i].status.Live() ==> !s.bindings[i].status.Live()
  {
    hide Run, StepSender, StepIntake, StepWorker, StepCli, StepListener;
    ghost var w := s.W();
    StepAfter(w, others, ByHook(inst, EndBinding(b, now)));
    BindingsStay(w, others + [ByHook(inst, EndBinding(b, now))]);
    s.Others(others);
    BindingsStay(w, others);
    EndOneBinding(s, inst, b, now);
  }

  /** Others, then the end of one request; whatever was closed before stays closed. */
  method EndRequestAfter(s: System, inst: nat, r: nat, now: int, others: seq<Act>)
    requires (hide Next, Run; s.Valid() && r < |s.binds|)
    modifies s
    ensures s.Valid() && s.W() == Run(old(s.W()), others + [ByHook(inst, EndRequest(r, now))])
    ensures |old(s.binds)| <= |s.binds| && !s.binds[r].state.BPending?
    ensures forall i :: 0 <= i < |old(s.binds)| && !old(s.binds)[i].state.BPending? ==> !s.binds[i].state.BPending?
  {
    hide Run, StepSender, StepIntake, StepWorker, StepCli, StepListener;
    ghost var w := s.W();
    StepAfter(w, others, ByHook(inst, EndRequest(r, now)));
    RequestsStay(w, others + [ByHook(inst, EndRequest(r, now))]);
    s.Others(others);
    RequestsStay(w, others);
    EndOneRequest(s, inst, r, now);
  }

  /** One turn of the loop over the bindings read. */
  method BindingTurn(s: System, rows: seq<Binding>, b: nat, inst: nat, session: Option<nat>, now: int,
                     gaps: seq<seq<Act>>, ghost end: World)
    requires (hide Next, Run; s.Valid() && b < |rows| <= |s.bindings|)
    requires Run(s.W(), EndBindingsActs(rows, b, inst, session, now, gaps)) == end
    modifies s
    ensures s.Valid() && |old(s.bindings)| <= |s.bindings|
    ensures Run(s.W(), EndBindingsActs(rows, b + 1, inst, session, now, gaps)) == end
    ensures OfSession(rows[b], session) ==> !s.bindings[b].status.Live()
    ensures forall i :: 0 <= i < |old(s.bindings)| && !old(s.bindings)[i].status.Live() ==> !s.bindings[i].status.Live()
  {
    hide *;
    NextBinding(s.W(), rows, b, inst, session, now, gaps);
    if OfSession(rows[b], session) { EndBindingAfter(s, inst, b, now, GapAt(gaps, b)); }
  }

  /** The bindings of the session among the first b rows read are ended. */
  ghost predicate EndedBelow(rows: seq<Binding>, bindings: seq<Binding>, b: nat, session: Option<nat>) {
    b <= |rows| <= |bindings| && forall i :: 0 <= i < b && OfSession(rows[i], session) ==> !bindings[i].status.Live()
  }

  method EndBindings(s: System, inst: nat, session: Option<nat>, now: int, gaps: seq<seq<Act>>)
    requires (hide Next, Run; s.Valid())
    modifies s
    ensures s.Valid()
    ensures s.W() == Run(old(s.W()), EndBindingsActs(old(s.bindings), 0, inst, session, now, gaps))
    ensures EndedBelow(old(s.bindings), s.bindings, |old(s.bindings)|, session)
  {
    hide Next;
    var rows := s.bindings;
    ghost var end := Run(s.W(), EndBindingsActs(rows, 0, inst, session, now, gaps));
    var b := 0;
    while b < |rows|
      invariant s.Valid() && EndedBelow(rows, s.bindings, b, session)
      invariant Run(s.W(), EndBindingsActs(rows, b, inst, session, now, gaps)) == end
    {
      BindingTurn(s, rows, b, inst, session, now, gaps, end);
      b := b + 1;
    }
  }

  /** One turn of the loop over the requests read. */
  method RequestTurn(s: System, rows: seq<PendingBind>, r: nat, inst: nat, now: int, gaps: seq<seq<Act>>,
                     ghost end: World)
    requires (hide Next, Run; s.Valid() && r < |rows| <= |s.binds|)
    requires Run(s.W(), EndRequestsActs(rows, r, inst, now, gaps)) == end
    modifies s
    ensures s.Valid() && |old(s.binds)| <= |s.binds|
    ensures Run(s.W(), EndRequestsActs(rows, r + 1, inst, now, gaps)) == end
    ensures OpenFor(rows[r], inst) ==> !s.binds[r].state.BPending?
    ensures forall i :: 0 <= i < |old(s.binds)| && !old(s.binds)[i].state.BPending? ==> !s.binds[i].state.BPending?
  {
    hide *;
    NextRequest(s.W(), rows, r, inst, now, gaps);
    if OpenFor(rows[r], inst) { EndRequestAfter(s, inst, r, now, GapAt(gaps, r)); }
  }

  /** The open requests among the first r rows read are closed. */
  ghost predicate ClosedBelow(rows: seq<PendingBind>, binds: seq<PendingBind>, r: nat, inst: nat) {
    r <= |rows| <= |binds| && forall i :: 0 <= i < r && OpenFor(rows[i], inst) ==> !binds[i].state.BPending?
  }

  method EndRequests(s: System, inst: nat, now: int, gaps: seq<seq<Act>>)
    requires (hide Next, Run; s.Valid())
    modifies s
    ensures s.Valid() && s.W() == Run(old(s.W()), EndRequestsActs(old(s.binds), 0, inst, now, gaps))
    ensures ClosedBelow(old(s.binds), s.binds, |old(s.binds)|, inst)
  {
    hide Next;
    var rows := s.binds;
    ghost var end := Run(s.W(), EndRequestsActs(rows, 0, inst, now, gaps));
    var r := 0;
    while r < |rows|
      invariant s.Valid() && ClosedBelow(rows, s.binds, r, inst)
      invariant Run(s.W(), EndRequestsActs(rows, r, inst, now, gaps)) == end
    {
      RequestTurn(s, rows, r, inst, now, gaps, end);
      r := r + 1;
    }
  }

  /** The live bindings of the session, the open requests of the instance, then its latches, whatever others do in
      between: none of them is live, open or latched afterwards. */
  method RunSessionEnd(s: System, inst: nat, session: Option<nat>, now: int, g: EndPauses)
    requires (hide Next, Run; s.Valid())
    modifies s
    ensures s.Valid() && s.W() == Run(old(s.W()), EndActs(old(s.W()), inst, session, now, g))
    ensures forall b :: 0 <= b < |old(s.bindings)| && OfSession(old(s.bindings)[b], session) ==>
              b < |s.bindings| && !s.bindings[b].status.Live()
    ensures forall r :: 0 <= r < |old(s.binds)| && OpenFor(old(s.binds)[r], inst) ==>
              r < |s.binds| && !s.binds[r].state.BPending?
    ensures !LatchedInst(s.binds, inst)
  {
    hide Next, Run;
    ghost var w0 := s.W();
    ghost var ending := EndBindingsActs(s.bindings, 0, inst, session, now, g.bindings);
    EndBindings(s, inst, session, now, g.bindings);
    ghost var w1 := s.W();
    RequestsStay(w0, ending + g.middle);
    RunAppend(w0, ending, g.middle);
    s.Others(g.middle);
    ghost var w2 := s.W();
    ghost var requests := EndRequestsActs(s.binds, 0, inst, now, g.requests);
    RequestsStay(w2, requests);
    EndRequests(s, inst, now, g.requests);
    ghost var w3 := s.W();
    ghost var last := g.last + [ByHook(inst, EndLatches)];
    RequestsStay(w3, last);
    s.Others(g.last);
    StepAfter(w3, g.last, ByHook(inst, EndLatches));
    EndOneLatch(s, inst);
    RunAppend(w2, requests, last);
    RunAppend(w1, g.middle, requests + last);
    BindingsStay(w1, g.middle + (requests + last));
    RunAppend(w0, ending + g.middle, requests + last);
  }
}
