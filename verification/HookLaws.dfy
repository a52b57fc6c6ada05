/** What a whole Stop hook leads to, with other processes at work between any two of its accesses. */
module HookLaws {
  import opened Schema
  import opened World
  import opened BindTx
  import opened Machine
  import opened HookScripts
  import opened Reach
  import opened BindLaws
  import BindInvariant

  // ---- Where the hook stands ----

  /** What the hook meets: its bind request when it looks for one, the markers when it compares them, the binding when it
      looks for it, and the same binding when it inserts. */
  function AtFind(w: World, inst: nat, p: StopPayload, g: Pauses): World {
    Run(Next(w, ByHook(inst, StopBegin(p))), g.beforeBind)
  }

  function AtMarkers(w: World, inst: nat, p: StopPayload, g: Pauses): World {
    Run(Next(AtFind(w, inst, p, g), ByHook(inst, StopFindBind)), g.beforeMarkers)
  }

  function AtLookup(w: World, inst: nat, p: StopPayload, g: Pauses): World {
    Run(Next(AtMarkers(w, inst, p, g), ByHook(inst, StopMarkers)), g.beforeLookup)
  }

  function AtInsert(w: World, inst: nat, p: StopPayload, g: Pauses): World {
    Run(Next(AtLookup(w, inst, p, g), ByHook(inst, StopLookup)), g.beforeInsert)
  }

  // ---- Which Stops forward ----

  /** A continuation of a bind turn. */
  predicate Suppresses(binds: seq<PendingBind>, inst: nat, p: StopPayload) {
    p.continuation && exists i :: 0 <= i < |binds| && binds[i].inst == inst && binds[i].latch
  }

  /** The message carries a marker, of the instance's or any. */
  predicate Marked(binds: seq<PendingBind>, inst: nat, p: StopPayload) {
    p.prefix || exists i :: 0 <= i < |binds| && binds[i].inst == inst && binds[i].nonce in p.markers
  }

  /** The active binding of the Stop's session is the instance's, and there is something to say. */
  predicate SpeaksFor(bs: seq<Binding>, inst: nat, p: StopPayload, b: nat) {
    && p.session.Some? && b < |bs| && bs[b].status.Active? && bs[b].session == p.session && bs[b].inst == inst
    && exists i :: 0 <= i < |p.text| && p.text[i] !in {' ', '\t', '\n', '\r'}
  }

  ghost predicate Forwards(w: World, inst: nat, p: StopPayload, g: Pauses) {
    && !Suppresses(w.t.binds, inst, p)
    && (forall r: nat :: !OpenRequest(AtFind(w, inst, p, g).t.binds, inst, p.now, r))
    && !Marked(AtMarkers(w, inst, p, g).t.binds, inst, p)
    && exists b: nat ::
         && SpeaksFor(AtLookup(w, inst, p, g).t.bindings, inst, p, b)
         && b < |AtInsert(w, inst, p, g).t.bindings| && AtInsert(w, inst, p, g).t.bindings[b].status.Active?
  }

  /** The instance's latches are shut and nothing else is touched. */
  predicate LatchesShut(binds: seq<PendingBind>, binds': seq<PendingBind>, inst: nat) {
    && |binds'| == |binds|
    && forall r :: 0 <= r < |binds| ==>
         binds'[r] == if binds[r].inst == inst then binds[r].(latch := false) else binds[r]
  }

  /** At its end a session's latches are shut, and its bind turn is over. */
  lemma LatchesLead(w: World, inst: nat)
    ensures var w' := Next(w, ByHook(inst, EndLatches));
            && w'.t == w.t.(binds := w'.t.binds) && LatchesShut(w.t.binds, w'.t.binds, inst)
            && inst !in w'.hist.bindTurn
  {
    hide Run, StepSender, StepIntake, StepWorker, StepCli, StepListener;
  }

  /** A continuation of a bind turn ends here; a fresh Stop shuts the latches. */
  lemma BeginLeads(w: World, inst: nat, p: StopPayload)
    requires (hide Next, Run; inst !in w.stops)
    ensures var w' := Next(w, ByHook(inst, StopBegin(p)));
            if Suppresses(w.t.binds, inst, p) then w' == w
            else
              && inst in w'.stops && w'.stops[inst] == AfterLatch(p)
              && w'.t == w.t.(binds := if p.continuation then w.t.binds else w'.t.binds)
              && (!p.continuation ==> LatchesShut(w.t.binds, w'.t.binds, inst) && inst !in w'.hist.bindTurn)
  {
    hide Run, StepSender, StepIntake, StepWorker, StepCli, StepListener;
  }

  lemma MarkersLead(w: World, inst: nat, p: StopPayload)
    requires (hide Next, Run; inst in w.stops && w.stops[inst] == AfterBind(p))
    ensures var w' := Next(w, ByHook(inst, StopMarkers));
            if Marked(w.t.binds, inst, p) then inst !in w'.stops
            else inst in w'.stops && w'.stops[inst] == AfterMarker(p)
  {
    hide Run, StepSender, StepIntake, StepWorker, StepCli, StepListener;
  }

  lemma LookupLeads(w: World, inst: nat, p: StopPayload)
    requires (hide Next, Run; BindInvariant.BindAt(w) && inst in w.stops && w.stops[inst] == AfterMarker(p))
    ensures var w' := Next(w, ByHook(inst, StopLookup));
            && (inst in w'.stops ==>
                  w'.stops[inst].ToInsert? && w'.stops[inst].p == p
                  && SpeaksFor(w.t.bindings, inst, p, w'.stops[inst].binding))
            && (forall b: nat :: SpeaksFor(w.t.bindings, inst, p, b) ==>
                  inst in w'.stops && w'.stops[inst] == ToInsert(p, b))
  {
    hide Run, StepSender, StepIntake, StepWorker, StepCli, StepListener;
    forall b: nat | SpeaksFor(w.t.bindings, inst, p, b) ensures ActiveOf(w.t.bindings, p.session.value, 0) == Some(b) {
      TheActiveOne(w.t.bindings, w, p.session.value, 0, b);
    }
  }

  lemma {:induction false} TheActiveOne(bs: seq<Binding>, w: World, session: nat, from: nat, b: nat)
    requires BindInvariant.BindAt(w) && bs == w.t.bindings && from <= b < |bs|
    requires bs[b].status.Active? && bs[b].session == Some(session)
    ensures ActiveOf(bs, session, from) == Some(b)
    decreases b - from
  {
    if from < b {
      assert BindInvariant.Apart(bs[from], bs[b]);
      TheActiveOne(bs, w, session, from + 1, b);
    }
  }

  lemma Stands(w: World, acts: seq<Act>, inst: nat)
    requires (hide Next, Run; Reached(w) && NotThisStop(acts, inst))
    ensures Reached(Run(w, acts)) && BindInvariant.BindAt(Run(w, acts))
    ensures inst in Run(w, acts).stops <==> inst in w.stops
    ensures inst in w.stops ==> Run(w, acts).stops[inst] == w.stops[inst]
  {
    hide Next, Run;
    ReachedRun(w, acts);
    SoundWhenReached(Run(w, acts));
    OthersLeaveStop(w, acts, inst);
  }

  lemma InsertForwards(w: World, inst: nat, p: StopPayload, g: Pauses)
    requires (hide Next, Run; Reached(w) && Foreign(g, inst) && inst in w.stops && w.stops[inst].ToInsert?)
    ensures var b, w1 := w.stops[inst].binding, Run(w, g.beforeInsert);
            InsertTrace(w, inst, p, g).1.Forwarded? <==> b < |w1.t.bindings| && w1.t.bindings[b].status.Active?
  {
    hide Next, Run;
    Stands(w, g.beforeInsert, inst);
  }

  lemma FindForwards(w: World, inst: nat, p: StopPayload, g: Pauses)
    requires (hide Next, Run; Reached(w) && Foreign(g, inst) && inst in w.stops && w.stops[inst] == AfterMarker(p))
    ensures var wl := Run(w, g.beforeLookup);
            var wi := Run(Next(wl, ByHook(inst, StopLookup)), g.beforeInsert);
            FindTrace(w, inst, p, g).1.Forwarded? <==>
              exists b: nat :: SpeaksFor(wl.t.bindings, inst, p, b)
                               && b < |wi.t.bindings| && wi.t.bindings[b].status.Active?
  {
    hide Next, Run;
    var wl, a := Run(w, g.beforeLookup), ByHook(inst, StopLookup);
    var w1 := Next(wl, a);
    Stands(w, g.beforeLookup, inst);
    StepAfter(w, g.beforeLookup, a);
    LookupLeads(wl, inst, p);
    ReachedNext(wl, a);
    if inst in w1.stops { InsertForwards(w1, inst, p, g); }
  }

  lemma MarkersForward(w: World, inst: nat, p: StopPayload, g: Pauses)
    requires (hide Next, Run; Reached(w) && Foreign(g, inst) && inst in w.stops && w.stops[inst] == AfterBind(p))
    ensures var wm := Run(w, g.beforeMarkers);
            var wl := Run(Next(wm, ByHook(inst, StopMarkers)), g.beforeLookup);
            var wi := Run(Next(wl, ByHook(inst, StopLookup)), g.beforeInsert);
            ForwardTrace(w, inst, p, g).1.Forwarded? <==>
              && !Marked(wm.t.binds, inst, p)
              && exists b: nat :: SpeaksFor(wl.t.bindings, inst, p, b)
                                  && b < |wi.t.bindings| && wi.t.bindings[b].status.Active?
  {
    hide Next, Run;
    var wm, a := Run(w, g.beforeMarkers), ByHook(inst, StopMarkers);
    Stands(w, g.beforeMarkers, inst);
    StepAfter(w, g.beforeMarkers, a);
    MarkersLead(wm, inst, p);
    ReachedNext(wm, a);
    if inst in Next(wm, a).stops { FindForwards(Next(wm, a), inst, p, g); }
  }

  /** A Stop is forwarded exactly if it is no continuation of a bind turn, finds no open bind request of its instance,
      carries no marker, has something to say, and the active binding of its session is its instance's and still active
      when the turn is queued. */
  lemma StopForwardsIff(w: World, inst: nat, p: StopPayload, g: Pauses)
    requires (hide Next, Run; Reached(w) && inst !in w.stops && Foreign(g, inst))
    ensures StopTrace(w, inst, p, g).1.Forwarded? <==> Forwards(w, inst, p, g)
  {
    hide Next, Run;
    var begin, find := ByHook(inst, StopBegin(p)), ByHook(inst, StopFindBind);
    var w1 := Next(w, begin);
    BeginLeads(w, inst, p);
    ReachedNext(w, begin);
    if inst in w1.stops {
      var wf := AtFind(w, inst, p, g);
      Stands(w1, g.beforeBind, inst);
      FindLeads(wf, inst);
      ReachedNext(wf, find);
      Looked(w, begin, g.beforeBind, find);
      var w2 := Next(wf, find);
      if w2.stops[inst].AfterBind? {
        MarkersForward(w2, inst, p, g);
        assert forall r: nat :: !OpenRequest(wf.t.binds, inst, p.now, r);
        var wl, wi := AtLookup(w, inst, p, g), AtInsert(w, inst, p, g);
        assert ForwardTrace(w2, inst, p, g).1.Forwarded? <==>
            && !Marked(AtMarkers(w, inst, p, g).t.binds, inst, p)
            && exists b: nat :: SpeaksFor(wl.t.bindings, inst, p, b)
                                && b < |wi.t.bindings| && wi.t.bindings[b].status.Active?;
      }
    }
  }

  lemma Looked(w: World, begin: Act, others: seq<Act>, find: Act)
    ensures Run(w, [begin] + (others + [find])) == Next(Run(Next(w, begin), others), find)
  {
    hide Next, Run;
    OneThen(w, begin, others + [find]);
    StepAfter(Next(w, begin), others, find);
  }

  // ---- The Stop of a bind turn ----

  /** What the hook meets when it finishes a bind turn, and when it records its failure. */
  function AtFinish(w: World, inst: nat, p: StopPayload, g: Pauses): World {
    Run(Next(AtFind(w, inst, p, g), ByHook(inst, StopFindBind)), g.beforeFinish)
  }

  /** The request, if still open, has failed with its latch open, and its binding with it. */
  ghost predicate BindFails(w: World, w': World, inst: nat, r: nat, now: int) {
    && inst !in w'.stops && r < |w.t.binds| && r < |w.t.bindings|
    && (if w.t.binds[r].state.BPending? then
          Ended(w.t.(binds := w.t.binds[r := w.t.binds[r].(state := BFailed, latch := true)]), w'.t, r, BindFailed, Closed,
                now)
        else w'.t == w.t)
  }

  /** A Stop that finds its instance's open request never forwards. With the request's nonce and a session it confirms the
      binding, if the request is still open then and the session is free; in every other case it leaves no request open:
      one that is open when the failure is recorded fails with its latch open and its binding closes. */
  ghost predicate BindTurnLed(w: World, w': World, inst: nat, p: StopPayload, g: Pauses, r: nat) {
    var wh := AtFinish(w, inst, p, g);
    && r < |AtFind(w, inst, p, g).t.binds| && r < |wh.t.binds| == |wh.t.bindings|
    && (if !(AtFind(w, inst, p, g).t.binds[r].nonce in p.markers && p.session.Some?) then
          BindFails(Run(wh, g.onConflict), w', inst, r, p.now)
        else if !wh.t.binds[r].state.BPending? then w'.t == wh.t && inst !in w'.stops
        else if !SessionInUse(wh.t.bindings, p.session, r) then
          Confirmed(wh.t, w'.t, r, p) && inst !in w'.stops && inst in w'.hist.bindTurn
        else BindFails(Run(Next(wh, ByHook(inst, StopHandshake)), g.onConflict), w', inst, r, p.now))
  }

  lemma FailureAfter(w: World, inst: nat, conflict: seq<Act>)
    requires (hide Next, Run; Reached(w) && NotThisStop(conflict, inst) && inst in w.stops)
    requires w.stops[inst].ToMiss? || w.stops[inst].ToConflict?
    ensures BindFails(Run(w, conflict), Run(w, conflict + [ByHook(inst, StopFail)]), inst, w.stops[inst].request,
                      w.stops[inst].p.now)
  {
    hide Next, Run;
    Stands(w, conflict, inst);
    SoundWhenReached(Run(w, conflict));
    StepAfter(w, conflict, ByHook(inst, StopFail));
    FailureLeads(Run(w, conflict), inst);
  }

  /** Whatever others do meanwhile. */
  lemma BindTurnLeads(w: World, inst: nat, p: StopPayload, g: Pauses, r: nat)
    requires (hide Next, Run; Reached(w) && inst !in w.stops && Foreign(g, inst) && !Suppresses(w.t.binds, inst, p))
    requires OpenRequest(AtFind(w, inst, p, g).t.binds, inst, p.now, r)
    ensures StopTrace(w, inst, p, g).1.Suppressed?
    ensures BindTurnLed(w, Run(w, StopTrace(w, inst, p, g).0), inst, p, g, r)
  {
    hide Next, Run;
    var begin, find, shake := ByHook(inst, StopBegin(p)), ByHook(inst, StopFindBind), ByHook(inst, StopHandshake);
    var w1, wf := Next(w, begin), AtFind(w, inst, p, g);
    BeginLeads(w, inst, p);
    ReachedNext(w, begin);
    Stands(w1, g.beforeBind, inst);
    FindLeads(wf, inst);
    ReachedNext(wf, find);
    Looked(w, begin, g.beforeBind, find);
    var w2 := Next(wf, find);
    var wh := Run(w2, g.beforeFinish);
    Stands(w2, g.beforeFinish, inst);
    var looked := [begin] + (g.beforeBind + [find]);
    RunAppend(w2, g.beforeFinish, FinishActs(wh, inst, g.onConflict));
    RunAppend(w, looked, g.beforeFinish + FinishActs(wh, inst, g.onConflict));
    if wh.stops[inst].ToMiss? {
      FailureAfter(wh, inst, g.onConflict);
    } else {
      HandshakeLeads(wh, inst);
      ReachedNext(wh, shake);
      RunIsNext(wh, shake);
      var w3 := Next(wh, shake);
      assert [shake] + [] == [shake];
      if inst in w3.stops {
        FailureAfter(w3, inst, g.onConflict);
        OneThen(wh, shake, g.onConflict + [ByHook(inst, StopFail)]);
      }
    }
  }
}
