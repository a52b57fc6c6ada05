/** The Stop and SessionEnd hooks (lib/hooklib.py) as sequences of atomic steps, and what follows from them. */
module HookScripts {
  import opened Schema
  import opened World
  import opened TurnText
  import opened BindTx
  import opened Machine
  import opened Scripts
  import Frames
  import opened Reach
  import Advance
  import BindInvariant
  import ListenerInvariant
  import Occupancy
  import Ticks

  datatype Result = Suppressed | NotForwarded | Forwarded(group: nat, chunks: nat)

  /** A step of this instance's Stop hook. */
  predicate OfThisStop(a: Act, inst: nat) { a.ByHook? && a.inst == inst && !a.hook.OfSessionEnd() }

  /** Steps of anybody else, this instance's SessionEnd included. */
  ghost predicate NotThisStop(acts: seq<Act>, inst: nat) {
    forall i :: 0 <= i < |acts| ==> !OfThisStop(acts[i], inst)
  }

  lemma {:induction false} OthersLeaveStop(w: World, acts: seq<Act>, inst: nat)
    requires (hide Next, Run; NotThisStop(acts, inst))
    ensures inst in Run(w, acts).stops <==> inst in w.stops
    ensures inst in w.stops ==> Run(w, acts).stops[inst] == w.stops[inst]
    decreases |acts|
  {
    hide Next;
    if acts != [] {
      OtherLeavesStop(w, acts[0], inst);
      OthersLeaveStop(Next(w, acts[0]), acts[1..], inst);
    }
  }

  lemma OtherLeavesStop(w: World, a: Act, inst: nat)
    requires (hide Next, Run; !OfThisStop(a, inst))
    ensures inst in Next(w, a).stops <==> inst in w.stops
    ensures inst in w.stops ==> Next(w, a).stops[inst] == w.stops[inst]
  {
    hide Run, StepSender, StepIntake, StepWorker, StepCli, StepHook, StepListener;
    match a
    case BySender(s) => Frames.SenderFrame(w, s);
    case ByIntake(i) => Frames.IntakeFrame(w, i);
    case ByWorker(r) => Frames.WorkerFrame(w, r);
    case ByCli(c) => Frames.CliFrame(w, c);
    case ByHook(h, hook) => Frames.HookFrame(w, h, hook);
    case ByListener(c, l) => Frames.ListenerFrame(w, c, l);
  }

  // ---- Stop ----

  /** The session's active binding belongs to another instance. */
  predicate Mismatched(t: Tables, p: StopPayload, inst: nat) {
    p.session.Some? && ActiveOf(t.bindings, p.session.value, 0).Some?
    && t.bindings[ActiveOf(t.bindings, p.session.value, 0).value].inst != inst
  }

  predicate StillActive(w: World, inst: nat)
    requires inst in w.stops && w.stops[inst].ToInsert?
  {
    w.stops[inst].binding < |w.t.bindings| && w.t.bindings[w.stops[inst].binding].status.Active?
  }

  /** The handshake, and the failure of a bind turn that missed it. */
  function FinishActs(w: World, inst: nat, conflict: seq<Act>): seq<Act> {
    var fail := conflict + [ByHook(inst, StopFail)];
    if !(inst in w.stops && w.stops[inst].ToHandshake?) then fail
    else
      var shake := ByHook(inst, StopHandshake);
      [shake] + (if inst in Next(w, shake).stops then fail else [])
  }

  /** What others do between the hook's accesses. */
  datatype Pauses = Pauses(beforeBind: seq<Act>, beforeFinish: seq<Act>, onConflict: seq<Act>, beforeMarkers: seq<Act>,
                           beforeLookup: seq<Act>, beforeInsert: seq<Act>)

  ghost predicate Foreign(g: Pauses, inst: nat) {
    && NotThisStop(g.beforeBind, inst) && NotThisStop(g.beforeFinish, inst) && NotThisStop(g.onConflict, inst)
    && NotThisStop(g.beforeMarkers, inst) && NotThisStop(g.beforeLookup, inst) && NotThisStop(g.beforeInsert, inst)
  }

  /** The insert, after others. */
  function InsertTrace(w: World, inst: nat, p: StopPayload, g: Pauses): (seq<Act>, Result) {
    var w1 := Run(w, g.beforeInsert);
    (g.beforeInsert + [ByHook(inst, StopInsert)],
     if inst in w1.stops && w1.stops[inst].ToInsert? && StillActive(w1, inst)
     then Forwarded(w1.t.nextId, |ChunkText(p.text)|) else NotForwarded)
  }

  /** Step 5 and the insert. */
  function FindTrace(w: World, inst: nat, p: StopPayload, g: Pauses): (seq<Act>, Result) {
    var found := g.beforeLookup + [ByHook(inst, StopLookup)];
    var w1 := Run(w, found);
    if inst !in w1.stops then
      (found, if Mismatched(Run(w, g.beforeLookup).t, p, inst) then Suppressed else NotForwarded)
    else
      var rest := InsertTrace(w1, inst, p, g);
      (found + rest.0, rest.1)
  }

  /** Steps 3 to 5 and the insert: which of them are taken, and what becomes of the message. */
  function ForwardTrace(w: World, inst: nat, p: StopPayload, g: Pauses): (seq<Act>, Result) {
    var marked := g.beforeMarkers + [ByHook(inst, StopMarkers)];
    var w1 := Run(w, marked);
    if inst !in w1.stops then (marked, Suppressed)
    else
      var rest := FindTrace(w1, inst, p, g);
      (marked + rest.0, rest.1)
  }

  /** The whole of run_stop_hook. */
  function StopTrace(w: World, inst: nat, p: StopPayload, g: Pauses): (seq<Act>, Result) {
    var w1 := Next(w, ByHook(inst, StopBegin(p)));
    if inst !in w1.stops then ([ByHook(inst, StopBegin(p))], Suppressed)
    else
      var looked := [ByHook(inst, StopBegin(p))] + (g.beforeBind + [ByHook(inst, StopFindBind)]);
      var w2 := Run(w, looked);
      if inst in w2.stops && w2.stops[inst].AfterBind? then
        var rest := ForwardTrace(w2, inst, p, g);
        (looked + rest.0, rest.1)
      else
        (looked + (g.beforeFinish + FinishActs(Run(w2, g.beforeFinish), inst, g.onConflict)), Suppressed)
  }

  /** The steps of this instance's hook among `acts` queue no turn. */
  ghost predicate QueuesNothing(w: World, acts: seq<Act>, inst: nat)
    decreases |acts|
  {
    acts != [] ==>
      && (acts[0].ByHook? && acts[0].inst == inst ==> Next(w, acts[0]).hist.spans == w.hist.spans)
      && QueuesNothing(Next(w, acts[0]), acts[1..], inst)
  }

  lemma {:induction false} QueuesNothingTwice(w: World, a: seq<Act>, b: seq<Act>, inst: nat)
    requires QueuesNothing(w, a, inst) && QueuesNothing(Run(w, a), b, inst)
    ensures QueuesNothing(w, a + b, inst)
    decreases |a|
  {
    hide Next;
    if a == [] {
      assert a + b == b;
    } else {
      assert (a + b)[1..] == a[1..] + b;
      QueuesNothingTwice(Next(w, a[0]), a[1..], b, inst);
    }
  }

  lemma {:induction false} OthersQueueNothing(w: World, acts: seq<Act>, inst: nat)
    requires NotThisStop(acts, inst)
    ensures QueuesNothing(w, acts, inst)
    decreases |acts|
  {
    hide Run, StepSender, StepIntake, StepWorker, StepCli, StepHook, StepListener;
    if acts != [] {
      if acts[0].ByHook? { Frames.HookFrame(w, acts[0].inst, acts[0].hook); }
      OthersQueueNothing(Next(w, acts[0]), acts[1..], inst);
    }
  }

  /** Others, then a step of the hook other than the insert, or an insert that finds its binding ended. */
  lemma StepQueuesNothing(w: World, others: seq<Act>, inst: nat, a: HookAct)
    requires NotThisStop(others, inst)
    requires a.StopInsert? ==> Next(Run(w, others), ByHook(inst, a)).hist.spans == Run(w, others).hist.spans
    ensures QueuesNothing(w, others + [ByHook(inst, a)], inst)
  {
    hide Run, StepSender, StepIntake, StepWorker, StepCli, StepHook, StepListener;
    OthersQueueNothing(w, others, inst);
    Frames.HookFrame(Run(w, others), inst, a);
    assert [ByHook(inst, a)][1..] == [];
    QueuesNothingTwice(w, others, [ByHook(inst, a)], inst);
  }

  lemma FinishQueuesNothing(w: World, inst: nat, conflict: seq<Act>)
    requires NotThisStop(conflict, inst)
    ensures QueuesNothing(w, FinishActs(w, inst, conflict), inst)
  {
    hide Next, Run;
    var shake := ByHook(inst, StopHandshake);
    StepQueuesNothing(w, conflict, inst, StopFail);
    StepQueuesNothing(w, [], inst, StopHandshake);
    assert [] + [shake] == [shake];
    RunIsNext(w, shake);
    StepQueuesNothing(Next(w, shake), conflict, inst, StopFail);
    if inst in w.stops && w.stops[inst].ToHandshake? {
      QueuesNothingTwice(w, [shake],
                         if inst in Next(w, shake).stops then conflict + [ByHook(inst, StopFail)] else [], inst);
    }
  }

  lemma FindQueues(w: World, inst: nat, p: StopPayload, g: Pauses)
    requires Foreign(g, inst)
    ensures !FindTrace(w, inst, p, g).1.Forwarded? ==> QueuesNothing(w, FindTrace(w, inst, p, g).0, inst)
  {
    hide Next, Run;
    var found := g.beforeLookup + [ByHook(inst, StopLookup)];
    var w1 := Run(w, found);
    StepQueuesNothing(w, g.beforeLookup, inst, StopLookup);
    if inst in w1.stops && !InsertTrace(w1, inst, p, g).1.Forwarded? {
      InsertFindsNothing(Run(w1, g.beforeInsert), inst);
      StepQueuesNothing(w1, g.beforeInsert, inst, StopInsert);
      QueuesNothingTwice(w, found, g.beforeInsert + [ByHook(inst, StopInsert)], inst);
    }
  }

  lemma InsertFindsNothing(w: World, inst: nat)
    requires (hide Next, Run; !(inst in w.stops && w.stops[inst].ToInsert? && StillActive(w, inst)))
    ensures Next(w, ByHook(inst, StopInsert)).hist.spans == w.hist.spans
  {
    hide Run, StepSender, StepIntake, StepWorker, StepCli, StepListener;
  }

  lemma ForwardQueues(w: World, inst: nat, p: StopPayload, g: Pauses)
    requires Foreign(g, inst)
    ensures !ForwardTrace(w, inst, p, g).1.Forwarded? ==> QueuesNothing(w, ForwardTrace(w, inst, p, g).0, inst)
  {
    hide Next, Run;
    var marked := g.beforeMarkers + [ByHook(inst, StopMarkers)];
    var w1 := Run(w, marked);
    StepQueuesNothing(w, g.beforeMarkers, inst, StopMarkers);
    if inst in w1.stops && !FindTrace(w1, inst, p, g).1.Forwarded? {
      FindQueues(w1, inst, p, g);
      QueuesNothingTwice(w, marked, FindTrace(w1, inst, p, g).0, inst);
    }
  }

  /** A Stop that does not report a forwarded turn has queued none, whatever others did meanwhile. */
  lemma UnforwardedQueuesNothing(w: World, inst: nat, p: StopPayload, g: Pauses)
    requires Foreign(g, inst)
    ensures !StopTrace(w, inst, p, g).1.Forwarded? ==> QueuesNothing(w, StopTrace(w, inst, p, g).0, inst)
  {
    hide Next, Run;
    var begin, find := ByHook(inst, StopBegin(p)), g.beforeBind + [ByHook(inst, StopFindBind)];
    StepQueuesNothing(w, [], inst, StopBegin(p));
    assert [] + [begin] == [begin];
    var w1 := Next(w, begin);
    RunIsNext(w, begin);
    if inst in w1.stops {
      var w2 := Run(w, [begin] + find);
      RunAppend(w, [begin], find);
      StepQueuesNothing(w1, g.beforeBind, inst, StopFindBind);
      QueuesNothingTwice(w, [begin], find, inst);
      if inst in w2.stops && w2.stops[inst].AfterBind? {
        ForwardQueues(w2, inst, p, g);
        if !StopTrace(w, inst, p, g).1.Forwarded? {
          QueuesNothingTwice(w, [begin] + find, ForwardTrace(w2, inst, p, g).0, inst);
        }
      } else {
        var w3 := Run(w2, g.beforeFinish);
        OthersQueueNothing(w2, g.beforeFinish, inst);
        FinishQueuesNothing(w3, inst, g.onConflict);
        QueuesNothingTwice(w2, g.beforeFinish, FinishActs(w3, inst, g.onConflict), inst);
        QueuesNothingTwice(w, [begin] + find, g.beforeFinish + FinishActs(w3, inst, g.onConflict), inst);
      }
    }
  }

  // ---- SessionEnd ----

  /** The live bindings of the session among the rows read, in order, others before each. */
  function EndBindingsActs(rows: seq<Binding>, b: nat, inst: nat, session: Option<nat>, now: int, gaps: seq<seq<Act>>)
    : seq<Act>
    decreases |rows| - b
  {
    if b >= |rows| then []
    else if !OfSession(rows[b], session) then EndBindingsActs(rows, b + 1, inst, session, now, gaps)
    else GapAt(gaps, b) + [ByHook(inst, EndBinding(b, now))] + EndBindingsActs(rows, b + 1, inst, session, now, gaps)
  }

  predicate OfSession(row: Binding, session: Option<nat>) {
    session.Some? && row.session == session && row.status.Live()
  }

  predicate OpenFor(row: PendingBind, inst: nat) { row.inst == inst && row.state.BPending? }

  /** The open requests of the instance among the rows read, in order, others before each. */
  function EndRequestsActs(rows: seq<PendingBind>, r: nat, inst: nat, now: int, gaps: seq<seq<Act>>): seq<Act>
    decreases |rows| - r
  {
    if r >= |rows| then []
    else if !OpenFor(rows[r], inst) then EndRequestsActs(rows, r + 1, inst, now, gaps)
    else GapAt(gaps, r) + [ByHook(inst, EndRequest(r, now))] + EndRequestsActs(rows, r + 1, inst, now, gaps)
  }

  /** What others do before each binding, between the two lists, before each request and before the latches. */
  datatype EndPauses = EndPauses(bindings: seq<seq<Act>>, middle: seq<Act>, requests: seq<seq<Act>>, last: seq<Act>)

  function EndActs(w: World, inst: nat, session: Option<nat>, now: int, g: EndPauses): seq<Act> {
    var first := EndBindingsActs(w.t.bindings, 0, inst, session, now, g.bindings) + g.middle;
    first + (EndRequestsActs(Run(w, first).t.binds, 0, inst, now, g.requests) + (g.last + [ByHook(inst, EndLatches)]))
  }

  lemma NextBinding(w: World, rows: seq<Binding>, b: nat, inst: nat, session: Option<nat>, now: int,
                    gaps: seq<seq<Act>>)
    requires (hide Next, Run; b < |rows|)
    ensures var w1 := if OfSession(rows[b], session)
                      then Run(w, GapAt(gaps, b) + [ByHook(inst, EndBinding(b, now))]) else w;
            Run(w, EndBindingsActs(rows, b, inst, session, now, gaps))
            == Run(w1, EndBindingsActs(rows, b + 1, inst, session, now, gaps))
  {
    hide Next, Run;
    RunAppend(w, GapAt(gaps, b) + [ByHook(inst, EndBinding(b, now))],
              EndBindingsActs(rows, b + 1, inst, session, now, gaps));
  }

  lemma NextRequest(w: World, rows: seq<PendingBind>, r: nat, inst: nat, now: int, gaps: seq<seq<Act>>)
    requires (hide Next, Run; r < |rows|)
    ensures var w1 := if OpenFor(rows[r], inst) then Run(w, GapAt(gaps, r) + [ByHook(inst, EndRequest(r, now))]) else w;
            Run(w, EndRequestsActs(rows, r, inst, now, gaps)) == Run(w1, EndRequestsActs(rows, r + 1, inst, now, gaps))
  {
    hide Next, Run;
    RunAppend(w, GapAt(gaps, r) + [ByHook(inst, EndRequest(r, now))], EndRequestsActs(rows, r + 1, inst, now, gaps));
  }

  lemma BindingsStay(w: World, acts: seq<Act>)
    requires Reached(w)
    ensures Advance.BindingsMove(w.t, Run(w, acts).t)
  {
    hide Next, Run;
    SoundWhenReached(w);
    Advance.AdvanceRun(w, acts);
  }

  /** A request that is not open never opens again. */
  lemma RequestsStay(w: World, acts: seq<Act>)
    requires (hide Next, Run; Reached(w))
    ensures |w.t.binds| <= |Run(w, acts).t.binds|
    ensures forall r :: 0 <= r < |w.t.binds| ==>
              && Run(w, acts).t.binds[r].inst == w.t.binds[r].inst
              && (!w.t.binds[r].state.BPending? ==> !Run(w, acts).t.binds[r].state.BPending?)
  {
    hide Next, Run;
    SoundWhenReached(w);
    Occupancy.TimesRun(w, acts);
    var w' := Run(w, acts);
    forall r | 0 <= r < |w.t.binds|
      ensures w'.t.binds[r].inst == w.t.binds[r].inst
      ensures !w.t.binds[r].state.BPending? ==> !w'.t.binds[r].state.BPending?
    {
      assert ListenerInvariant.BindingMoves(w.t.bindings[r], w'.t.bindings[r]);
      Ticks.RowKept(w, acts, r);
      assert BindInvariant.PairOk(w.t.bindings[r], w.t.binds[r], w.hist.bindTurn);
      assert BindInvariant.PairOk(w'.t.bindings[r], w'.t.binds[r], w'.hist.bindTurn);
    }
  }
}
