/** lib/listener_core.py as it runs. */
module ListenerOps {
  import opened Schema
  import opened World
  import opened ListenerTx
  import opened Machine
  import opened ListenerScripts
  import Frames
  import opened System
  import opened Reach
  import ListenerInvariant

  /** The queued deliveries of a binding, in delivery order. */
  function EnqueuedRows(ds: seq<Delivery>, b: nat, from: nat): seq<nat>
    requires from <= |ds|
    decreases |ds| - from
  {
    if from == |ds| then []
    else if ds[from].binding == b && ds[from].state.DEnqueued? then [from] + EnqueuedRows(ds, b, from + 1)
    else EnqueuedRows(ds, b, from + 1)
  }

  ghost predicate ExactlyQueued(ds: seq<Delivery>, b: nat, from: nat, r: seq<nat>) {
    && (forall i :: 0 <= i < |r| ==> from <= r[i] < |ds| && ds[r[i]].binding == b && ds[r[i]].state.DEnqueued?)
    && (forall i, j :: 0 <= i < j < |r| ==> r[i] < r[j])
    && (forall d: nat :: from <= d < |ds| && ds[d].binding == b && ds[d].state.DEnqueued? ==> d in r)
  }

  /** They are exactly the queued ones, each once, in order. */
  lemma {:induction false} EnqueuedRowsAre(ds: seq<Delivery>, b: nat, from: nat)
    requires from <= |ds|
    ensures ExactlyQueued(ds, b, from, EnqueuedRows(ds, b, from))
    decreases |ds| - from
  {
    if from < |ds| {
      EnqueuedRowsAre(ds, b, from + 1);
      OneMoreQueued(ds, b, from, EnqueuedRows(ds, b, from + 1));
    }
  }

  lemma OneMoreQueued(ds: seq<Delivery>, b: nat, from: nat, rest: seq<nat>)
    requires from < |ds| && ExactlyQueued(ds, b, from + 1, rest)
    ensures ExactlyQueued(ds, b, from, if ds[from].binding == b && ds[from].state.DEnqueued? then [from] + rest else rest)
  {
    forall d: nat | from <= d < |ds| && ds[d].binding == b && ds[d].state.DEnqueued? ensures d in [from] + rest {
      assert d == from || d in rest;
    }
  }

  lemma NothingQueued(ds: seq<Delivery>, b: nat)
    ensures FirstEnqueued(ds, b, 0).None? ==> EnqueuedRows(ds, b, 0) == []
  {
    var rows := EnqueuedRows(ds, b, 0);
    EnqueuedRowsAre(ds, b, 0);
    assert rows != [] ==> ds[rows[0]].binding == b && ds[rows[0]].state.DEnqueued?;
  }

  /** Taking the first one out of the queue leaves the others. */
  lemma {:induction false} FirstLeaves(ds: seq<Delivery>, ds': seq<Delivery>, b: nat, from: nat, d: nat)
    requires from <= d < |ds| == |ds'| && FirstEnqueued(ds, b, from) == Some(d)
    requires forall i :: 0 <= i < |ds| && i != d ==> ds'[i] == ds[i]
    requires !ds'[d].state.DEnqueued?
    ensures EnqueuedRows(ds, b, from) == [d] + EnqueuedRows(ds', b, from)
    decreases |ds| - from
  {
    if from < d {
      FirstLeaves(ds, ds', b, from + 1, d);
    } else {
      SameTail(ds, ds', b, from + 1);
    }
  }

  lemma {:induction false} SameTail(ds: seq<Delivery>, ds': seq<Delivery>, b: nat, from: nat)
    requires from <= |ds| == |ds'| && forall i :: from <= i < |ds| ==> ds'[i] == ds[i]
    ensures EnqueuedRows(ds, b, from) == EnqueuedRows(ds', b, from)
    decreases |ds| - from
  {
    if from < |ds| { SameTail(ds, ds', b, from + 1); }
  }

  class ListenerCore {
    const id: nat
    const binding: nat
    const process: nat
    var myEpoch: Option<nat>

    constructor (s: System, id: nat, binding: nat, process: nat)
      requires (hide Next, Run; s.Valid() && id !in s.cores)
      modifies s
      ensures s.Valid() && Linked(s, Nothing) && this.id == id && this.binding == binding && this.process == process
      ensures s.W() == Next(old(s.W()), ByListener(id, CoreStart(binding, process)))
    {
      hide Run, StepSender, StepIntake, StepWorker, StepCli, StepHook;
      this.id, this.binding, this.process, myEpoch := id, binding, process, None;
      new;
      ghost var w0 := s.W();
      s.cores := s.cores[id := Core(binding, process, None, Nothing)];
      ReachedNext(w0, ByListener(id, CoreStart(binding, process)));
    }

    /** The system's record of this listener. */
    ghost predicate Linked(s: System, holding: Holding)
      reads this, s
    {
      id in s.cores && s.cores[id] == Core(binding, process, myEpoch, holding)
    }

    /** The row shows this listener's epoch and the binding is active. */
    predicate Serves(bs: seq<Binding>)
      reads this
    {
      myEpoch.Some? && binding < |bs| && bs[binding].epoch == myEpoch.value && bs[binding].status.Active?
    }

    method Meanwhile(s: System, acts: seq<Act>, ghost holding: Holding)
      requires (hide Next, Run; s.Valid() && Linked(s, holding) && Strange(acts, id))
      modifies s
      ensures s.Valid() && Linked(s, holding) && s.W() == Run(old(s.W()), acts)
    {
      hide Next, Run;
      ghost var w := s.W();
      s.Others(acts);
      StrangersLeaveCore(w, acts, id);
    }

    method FindQueued(s: System) returns (d: Option<nat>)
      ensures d == FirstEnqueued(s.deliveries, binding, 0)
    {
      var i := 0;
      while i < |s.deliveries|
        invariant i <= |s.deliveries| && FirstEnqueued(s.deliveries, binding, i) == FirstEnqueued(s.deliveries, binding, 0)
      {
        if s.deliveries[i].binding == binding && s.deliveries[i].state.DEnqueued? { return Some(i); }
        i := i + 1;
      }
      return None;
    }

    /** _claim_one: the first queued delivery, under a fresh token, if the row still shows this listener's epoch. */
    method ClaimOne(s: System, now: int) returns (item: Option<(nat, nat)>)
      requires (hide Next, Run; s.Valid() && Linked(s, Nothing))
      modifies s
      ensures s.Valid() && s.W() == Next(old(s.W()), ByListener(id, Claim(now)))
      ensures item.Some? <==> ClaimTarget(old(s.T()), old(s.cores[id])).Some?
      ensures item.Some? ==> item.value == (ClaimTarget(old(s.T()), old(s.cores[id])).value, old(s.nextId))
                             && Linked(s, Claimed(item.value.0, item.value.1))
      ensures item.None? ==> Linked(s, Nothing) && s.W() == old(s.W())
    {
      hide Run, StepSender, StepIntake, StepWorker, StepCli, StepHook;
      ghost var w0 := s.W();
      ReachedNext(w0, ByListener(id, Claim(now)));
      var found := FindQueued(s);
      if found.None? { return None; }
      var d := found.value;
      if myEpoch.None? || binding >= |s.bindings| || !s.bindings[binding].status.Active?
         || s.bindings[binding].epoch != myEpoch.value
      {
        return None;
      }
      var token := s.nextId;
      s.nextId := token + 1;
      s.deliveries := s.deliveries[d := s.deliveries[d].(state := DLeased, token := Some(token), leaseEpoch := myEpoch,
                                                         leaseUntil := Some(now + LEASE_MS),
                                                         attempts := s.deliveries[d].attempts + 1)];
      s.cores := s.cores[id := Core(binding, process, myEpoch, Claimed(d, token))];
      return Some((d, token));
    }

    method PrintLine(s: System, d: nat, token: nat)
      requires (hide Next, Run; s.Valid() && Linked(s, Claimed(d, token)))
      modifies s
      ensures s.Valid() && Linked(s, Printed(d, token)) && s.W() == Next(old(s.W()), ByListener(id, Print))
      ensures (d, token) in s.hist.printed
    {
      hide Run, StepSender, StepIntake, StepWorker, StepCli, StepHook;
      ghost var w0 := s.W();
      s.hist := s.hist.(printed := s.hist.printed + {(d, token)});
      s.cores := s.cores[id := Core(binding, process, myEpoch, Printed(d, token))];
      ReachedNext(w0, ByListener(id, Print));
    }

    method MarkEmitted(s: System, d: nat, token: nat)
      requires (hide Next, Run; s.Valid() && Linked(s, Printed(d, token)))
      modifies s
      ensures s.Valid() && Linked(s, Nothing) && s.W() == Next(old(s.W()), ByListener(id, Emit))
    {
      hide Run, StepSender, StepIntake, StepWorker, StepCli, StepHook;
      ghost var w0 := s.W();
      if d < |s.deliveries| && s.deliveries[d].state.DLeased? && s.deliveries[d].token == Some(token) {
        s.deliveries := s.deliveries[d := s.deliveries[d].(state := DEmitted)];
      }
      s.cores := s.cores[id := Core(binding, process, myEpoch, Nothing)];
      ReachedNext(w0, ByListener(id, Emit));
    }

    /** Print and mark a claimed delivery, with others at work in between. */
    method DeliverClaimed(s: System, d: nat, token: nat, g: Gap)
      requires (hide Next, Run; s.Valid() && Linked(s, Claimed(d, token)) && StrangeGap(g, id))
      modifies s
      ensures s.Valid() && Linked(s, Nothing) && s.W() == Run(old(s.W()), DeliverActs(id, g))
      ensures (d, token) in s.hist.printed
    {
      hide Run, StepSender, StepIntake, StepWorker, StepCli, StepHook;
      ghost var w0 := s.W();
      Meanwhile(s, g.beforePrint, Claimed(d, token));
      StepAfter(w0, g.beforePrint, ByListener(id, Print));
      PrintLine(s, d, token);
      ghost var w1 := s.W();
      Meanwhile(s, g.beforeEmit, Printed(d, token));
      PrintedStays(w1, g.beforeEmit, (d, token));
      StepAfter(w1, g.beforeEmit, ByListener(id, Emit));
      RunAppend(w0, g.beforePrint + [ByListener(id, Print)], g.beforeEmit + [ByListener(id, Emit)]);
      MarkEmitted(s, d, token);
    }

    /** A claim after others. */
    method ClaimAfter(s: System, now: int, before: seq<Act>) returns (item: Option<(nat, nat)>)
      requires (hide Next, Run; s.Valid() && Linked(s, Nothing) && Strange(before, id))
      modifies s
      ensures s.Valid() && s.W() == Run(old(s.W()), before + [ByListener(id, Claim(now))])
      ensures if item.Some? then Linked(s, Claimed(item.value.0, item.value.1))
              else Linked(s, Nothing) && ClaimTarget(s.T(), s.cores[id]).None?
    {
      hide Next, Run;
      ghost var w0 := s.W();
      Meanwhile(s, before, Nothing);
      StepAfter(w0, before, ByListener(id, Claim(now)));
      item := ClaimOne(s, now);
    }

    /** One round: claim, print and mark, or find nothing that this listener could claim. */
    method Round(s: System, now: int, g: Gap) returns (line: Option<nat>)
      requires (hide Next, Run; s.Valid() && Linked(s, Nothing) && StrangeGap(g, id))
      modifies s
      ensures s.Valid() && Linked(s, Nothing)
      ensures var w1 := Run(old(s.W()), g.beforeClaim + [ByListener(id, Claim(now))]);
              && id in w1.cores && (line.Some? <==> w1.cores[id].holding.Claimed?)
              && (if line.None? then s.W() == w1 && ClaimTarget(s.T(), s.cores[id]).None?
                  else line.value == w1.cores[id].holding.delivery && s.W() == Run(w1, DeliverActs(id, g))
                       && WasPrinted(s.hist.printed, line.value))
    {
      hide Next, Run;
      var item := ClaimAfter(s, now, g.beforeClaim);
      if item.None? { return None; }
      DeliverClaimed(s, item.value.0, item.value.1, g);
      return Some(item.value.0);
    }

    /** _drain among others: claim, print and mark one delivery after another until there is nothing left that this
        listener could claim, or the process is killed, which is `gaps` running out. */
    method Drain(s: System, now: int, gaps: seq<Gap>) returns (printed: seq<nat>)
      requires (hide Next, Run;
               s.Valid() && Linked(s, Nothing) && forall i :: 0 <= i < |gaps| ==> StrangeGap(gaps[i], id))
      modifies s
      ensures s.Valid() && Linked(s, Nothing)
      ensures var trace := DrainTrace(old(s.W()), id, now, gaps); s.W() == Run(old(s.W()), trace.0) && printed == trace.1
      ensures |printed| <= |gaps| && (|printed| < |gaps| ==> ClaimTarget(s.T(), s.cores[id]).None?)
      ensures forall i :: 0 <= i < |printed| ==> WasPrinted(s.hist.printed, printed[i])
    {
      hide Next;
      ghost var trace := DrainTrace(s.W(), id, now, gaps);
      ghost var end := Run(s.W(), trace.0);
      printed := [];
      assert gaps[0..] == gaps;
      var i := 0;
      while i < |gaps|
        invariant i <= |gaps| && |printed| == i && s.Valid() && Linked(s, Nothing)
        invariant DrainStands(s.W(), id, now, gaps[i..], printed, end, trace.1)
        invariant forall k :: 0 <= k < |printed| ==> WasPrinted(s.hist.printed, printed[k])
      {
        DrainGoesOn(s.W(), id, now, gaps[i..], printed, end, trace.1);
        assert gaps[i..][1..] == gaps[i + 1..];
        RoundKeepsPrinted(s.W(), id, now, gaps[i], printed);
        var line := Round(s, now, gaps[i]);
        if line.None? { return; }
        printed := printed + [line.value];
        i := i + 1;
      }
      assert gaps[i..] == [];
    }

    /** One round of the loop with nobody else at work. */
    method DeliverAlone(s: System, now: int) returns (printed: Option<nat>)
      requires (hide Next, Run; s.Valid() && Linked(s, Nothing))
      modifies s
      ensures s.Valid() && Linked(s, Nothing) && s.bindings == old(s.bindings)
      ensures printed == if Serves(old(s.bindings)) then FirstEnqueued(old(s.deliveries), binding, 0) else None
      ensures printed.None? ==> s.deliveries == old(s.deliveries)
      ensures printed.Some? ==>
                |s.deliveries| == |old(s.deliveries)| && s.deliveries[printed.value].state.DEmitted?
                && (printed.value, old(s.nextId)) in s.hist.printed
                && forall i :: 0 <= i < |s.deliveries| && i != printed.value ==> s.deliveries[i] == old(s.deliveries)[i]
    {
      hide Run, StepSender, StepIntake, StepWorker, StepHook;
      var item := ClaimOne(s, now);
      if item.None? { return None; }
      PrintLine(s, item.value.0, item.value.1);
      MarkEmitted(s, item.value.0, item.value.1);
      return Some(item.value.0);
    }

    /** _drain left alone: the listener that matches an active row prints exactly what was queued for the binding, in
        delivery order, and leaves all of it emitted; any other prints nothing. */
    method DrainAlone(s: System, now: int) returns (printed: seq<nat>)
      requires (hide Next, Run; s.Valid() && Linked(s, Nothing))
      modifies s
      ensures s.Valid() && Linked(s, Nothing)
      ensures printed == if Serves(old(s.bindings)) then EnqueuedRows(old(s.deliveries), binding, 0) else []
      ensures OnlyEmitted(old(s.deliveries), s.deliveries, printed)
    {
      hide Next, Run;
      printed := [];
      ghost var ds0 := s.deliveries;
      while true
        invariant s.Valid() && Linked(s, Nothing) && s.bindings == old(s.bindings)
        invariant printed != [] ==> Serves(s.bindings)
        invariant OnlyEmitted(ds0, s.deliveries, printed)
        invariant printed + EnqueuedRows(s.deliveries, binding, 0) == EnqueuedRows(ds0, binding, 0)
        decreases |EnqueuedRows(s.deliveries, binding, 0)|
      {
        ghost var ds := s.deliveries;
        var line := DeliverAlone(s, now);
        if line.None? {
          NothingQueued(ds, binding);
          return;
        }
        OneMoreEmitted(ds0, ds, s.deliveries, binding, printed, line.value);
        printed := printed + [line.value];
      }
    }

    /** The compare and swap of a takeover: the row still shows the epoch and the holder that were read. */
    method Swap(s: System, row: Binding, now: int, ghost holderDead: bool) returns (won: bool)
      requires (hide Next, Run;
               s.Valid() && Linked(s, Nothing) && !IdentityIsMe(row, Core(binding, process, myEpoch, Nothing)))
      requires PlanTakeover(row, Core(binding, process, myEpoch, Nothing), now, holderDead).Try?
      modifies this, s
      ensures s.Valid() && Linked(s, Nothing) && (won <==> TakeoverWins(old(s.T()), binding, row))
      ensures won ==> s.W() == Next(old(s.W()), ByListener(id, Takeover(row, now, holderDead)))
                      && myEpoch == Some(row.epoch + 1)
      ensures !won ==> s.W() == old(s.W()) && myEpoch == old(myEpoch)
    {
      hide Run, StepSender, StepIntake, StepWorker, StepCli, StepHook;
      ghost var w0 := s.W();
      if binding >= |s.bindings| || !s.bindings[binding].status.Live() || s.bindings[binding].epoch != row.epoch
         || s.bindings[binding].listener != row.listener
      {
        return false;
      }
      ReachedNext(w0, ByListener(id, Takeover(row, now, holderDead)));
      s.bindings := s.bindings[binding := s.bindings[binding].(listener := Some(process), epoch := row.epoch + 1,
                                                               beat := Some(now), suspect := None)];
      myEpoch := Some(row.epoch + 1);
      s.cores := s.cores[id := Core(binding, process, myEpoch, Nothing)];
      s.hist := s.hist.(won := s.hist.won + {(binding, row.epoch + 1, id)}, beaten := s.hist.beaten + {binding});
      return true;
    }

    /** _takeover on the row as read: leave to a fresh holder, wait for one not known dead, else compare and swap. */
    method TakeOver(s: System, row: Binding, now: int, holderDead: bool) returns (outcome: Outcome)
      requires (hide Next, Run;
               s.Valid() && Linked(s, Nothing) && !IdentityIsMe(row, Core(binding, process, myEpoch, Nothing)))
      modifies this, s
      ensures s.Valid() && Linked(s, Nothing)
      ensures outcome.Ok? <==> PlanTakeover(row, Core(binding, process, old(myEpoch), Nothing), now, holderDead).Try?
                               && TakeoverWins(old(s.T()), binding, row)
      ensures outcome.Exit? <==> PlanTakeover(row, Core(binding, process, old(myEpoch), Nothing), now, holderDead).Leave?
      ensures outcome.Ok? ==> s.W() == Next(old(s.W()), ByListener(id, Takeover(row, now, holderDead)))
                              && myEpoch == Some(row.epoch + 1)
      ensures !outcome.Ok? ==> s.W() == old(s.W()) && myEpoch == old(myEpoch)
    {
      hide Next, Run;
      if row.listener.Some? && row.listener != Some(process) {
        if row.beat.Some? && now - row.beat.value <= HEARTBEAT_FRESH_MS { return Exit; }
        if !holderDead { return Waiting; }
      }
      var won := Swap(s, row, now, holderDead);
      return if won then Ok else Waiting;
    }

    /** The heartbeat: compare and swap on the epoch; a listener that lost it leaves. */
    method Heartbeat(s: System, now: int) returns (mine: bool)
      requires (hide Next, Run; s.Valid() && Linked(s, Nothing) && myEpoch.Some?)
      modifies s
      ensures s.Valid() && s.W() == Next(old(s.W()), ByListener(id, Beat(now)))
      ensures mine <==> binding < |old(s.bindings)| && old(s.bindings)[binding].epoch == myEpoch.value
      ensures if mine then Linked(s, Nothing) else id !in s.cores
    {
      hide Run, StepSender, StepIntake, StepWorker, StepCli, StepHook;
      ghost var w0 := s.W();
      ReachedNext(w0, ByListener(id, Beat(now)));
      mine := binding < |s.bindings| && s.bindings[binding].epoch == myEpoch.value;
      if mine {
        s.bindings := s.bindings[binding := s.bindings[binding].(beat := Some(now), suspect := None)];
        s.hist := s.hist.(beaten := s.hist.beaten + {binding});
      } else {
        s.cores := s.cores - {id};
      }
    }

    method Leave(s: System)
      requires (hide Next, Run; s.Valid() && Linked(s, Nothing))
      modifies s
      ensures s.Valid() && id !in s.cores && s.W() == Next(old(s.W()), ByListener(id, CoreGone))
    {
      hide Run, StepSender, StepIntake, StepWorker, StepCli, StepHook;
      ghost var w0 := s.W();
      s.cores := s.cores - {id};
      ReachedNext(w0, ByListener(id, CoreGone));
    }

    /** Heartbeat or takeover, on the row as read, after others. */
    method HoldOn(s: System, row: Binding, now: int, between: seq<Act>, holderDead: bool) returns (outcome: Outcome)
      requires (hide Next, Run; s.Valid() && Linked(s, Nothing) && Strange(between, id))
      modifies this, s
      ensures s.Valid()
      ensures if outcome.Exit? then id !in s.cores else Linked(s, Nothing)
      ensures outcome.Ok? ==> myEpoch.Some?
      ensures var core, w1 := old(s.cores)[id], Run(old(s.W()), between);
              if IdentityIsMe(row, core) then
                outcome == (if BeatWins(w1.t, core) then Ok else Exit)
                && s.W() == Run(old(s.W()), between + [ByListener(id, Beat(now))])
              else
                match PlanTakeover(row, core, now, holderDead)
                case Leave => outcome.Exit? && s.W() == Run(old(s.W()), between + [ByListener(id, CoreGone)])
                case Hold => outcome.Waiting? && s.W() == w1
                case Try =>
                  if TakeoverWins(w1.t, core.binding, row) then
                    outcome.Ok? && s.W() == Run(old(s.W()), between + [ByListener(id, Takeover(row, now, holderDead))])
                  else outcome.Waiting? && s.W() == w1
    {
      hide Next, Run;
      ghost var w0 := s.W();
      Meanwhile(s, between, Nothing);
      if IdentityIsMe(row, Core(binding, process, myEpoch, Nothing)) {
        StepAfter(w0, between, ByListener(id, Beat(now)));
        var mine := Heartbeat(s, now);
        return if mine then Ok else Exit;
      }
      StepAfter(w0, between, ByListener(id, Takeover(row, now, holderDead)));
      StepAfter(w0, between, ByListener(id, CoreGone));
      outcome := TakeOver(s, row, now, holderDead);
      if outcome.Exit? { Leave(s); }
    }

    /** One step of the listener, with others at work between its reading of the row and its write, exactly as StepTrace
        has it. Only a listener that has won its epoch goes on to the deliveries; what it printed is on record, and while it
        holds an active row it stops only when nothing is queued any more. */
    method Step(s: System, now: int, instanceDead: bool, between: seq<Act>, holderDead: bool, gaps: seq<Gap>)
      returns (outcome: Outcome, printed: seq<nat>)
      requires (hide Next, Run; s.Valid() && Linked(s, Nothing) && Strange(between, id))
      requires forall i :: 0 <= i < |gaps| ==> StrangeGap(gaps[i], id)
      modifies this, s
      ensures s.Valid()
      ensures var r := StepTrace(old(s.W()), id, now, instanceDead, between, holderDead, gaps);
              s.W() == Run(old(s.W()), r.acts) && outcome == r.outcome && printed == r.printed
      ensures if outcome.Exit? then id !in s.cores else Linked(s, Nothing)
      ensures outcome.Ok? ==> myEpoch.Some? && (binding, myEpoch.value, id) in s.hist.won
      ensures outcome.Ok? && old(s.bindings)[binding].status.Active? && |printed| < |gaps| && Serves(s.bindings) ==>
                forall d :: 0 <= d < |s.deliveries| ==>
                  !(s.deliveries[d].binding == binding && s.deliveries[d].state.DEnqueued?)
      ensures forall i :: 0 <= i < |printed| ==> WasPrinted(s.hist.printed, printed[i])
    {
      hide Next, Run;
      ghost var w0 := s.W();
      printed := [];
      if binding >= |s.bindings| || !s.bindings[binding].status.Live() || instanceDead {
        Leave(s);
        RunIsNext(w0, ByListener(id, CoreGone));
        return Exit, [];
      }
      var row := s.bindings[binding];
      outcome := HoldOn(s, row, now, between, holderDead);
      if outcome.Ok? && row.status.Active? {
        ghost var w1 := s.W();
        printed := Drain(s, now, gaps);
        RunAppend(w0, OwnActs(w0, row, now, between, holderDead), DrainTrace(w1, id, now, gaps).0);
      }
      if outcome.Ok? { EpochWasWon(s.W(), id); }
    }

    /** The listener's own step of a round that goes on. */
    ghost function OwnActs(w: World, row: Binding, now: int, between: seq<Act>, holderDead: bool): seq<Act>
      requires id in w.cores
    {
      between + [ByListener(id, if IdentityIsMe(row, w.cores[id]) then Beat(now) else Takeover(row, now, holderDead))]
    }
  }

  lemma EpochWasWon(w: World, id: nat)
    requires (hide Next, Run; Reached(w) && id in w.cores)
    ensures w.cores[id].epoch.Some? ==> (w.cores[id].binding, w.cores[id].epoch.value, id) in w.hist.won
  {
    hide Next, Run;
    SoundWhenReached(w);
    assert ListenerInvariant.CoreOk(id, w.cores[id], w.t.deliveries, w.hist.won, w.hist.printed, w.t.nextId);
  }

  /** The resident listener of one Claude Code instance: at most one core, made for a live binding of that instance. */
  class InstanceFollower {
    const inst: nat
    const process: nat
    var core: ListenerCore?

    constructor (inst: nat, process: nat)
      ensures core == null && this.inst == inst && this.process == process
    {
      this.inst, this.process, core := inst, process, null;
    }

    /** Its core, if any, is alive in the system. */
    ghost predicate Attached(s: System)
      reads this, core, s
    {
      core != null ==> core.Linked(s, Nothing)
    }

    method FindLive(s: System) returns (b: Option<nat>)
      ensures b == LiveOf(s.bindings, inst, 0)
    {
      var i := 0;
      while i < |s.bindings|
        invariant i <= |s.bindings| && LiveOf(s.bindings, inst, i) == LiveOf(s.bindings, inst, 0)
      {
        if s.bindings[i].status.Live() && s.bindings[i].inst == inst { return Some(i); }
        i := i + 1;
      }
      return None;
    }

    /** Without a core: leave if the instance is certainly dead, idle without a live binding, else make a core for it,
        which probes the instance once more.
        With one: drive it, and when it exits wait for the next binding instead of leaving. */
    method Step(s: System, id: nat, now: int, instanceDead: bool, deadForCore: bool, between: seq<Act>, holderDead: bool,
                gaps: seq<Gap>)
      returns (outcome: Following)
      requires (hide Next, Run; s.Valid() && Attached(s) && id !in s.cores)
      requires core == null ==> Strange(between, id) && forall i :: 0 <= i < |gaps| ==> StrangeGap(gaps[i], id)
      requires core != null ==>
                 Strange(between, core.id) && forall i :: 0 <= i < |gaps| ==> StrangeGap(gaps[i], core.id)
      modifies this, s, if core == null then {} else {core}
      ensures s.Valid() && Attached(s) && (outcome.Following? <==> core != null)
      ensures if old(core) == null then
                var r := FollowTrace(old(s.W()), inst, process, id, now, instanceDead, deadForCore, between, holderDead,
                                     gaps);
                s.W() == Run(old(s.W()), r.0) && outcome == r.1
              else
                var r := StepTrace(old(s.W()), old(core).id, now, deadForCore, between, holderDead, gaps);
                s.W() == Run(old(s.W()), r.acts) && outcome == Followed(r)
    {
      hide Next;
      ghost var w0 := s.W();
      if core == null {
        if instanceDead { return Left; }
        var b := FindLive(s);
        if b.None? { return Idling; }
        core := new ListenerCore(s, id, b.value, process);
        ghost var w1 := s.W();
        RunIsNext(w0, ByListener(id, CoreStart(b.value, process)));
        RunAppend(w0, [ByListener(id, CoreStart(b.value, process))],
                  StepTrace(w1, id, now, deadForCore, between, holderDead, gaps).acts);
      }
      var stepped, _ := core.Step(s, now, deadForCore, between, holderDead, gaps);
      if stepped.Exit? {
        core := null;
        return Idling;
      }
      return Following.Following;
    }
  }

  /** The delivery was written to a Monitor, under some token. */
  ghost predicate WasPrinted(printed: set<(nat, nat)>, d: nat) { exists token :: (d, token) in printed }

  /** The printed rows are emitted, the others as they were. */
  ghost predicate OnlyEmitted(ds: seq<Delivery>, ds': seq<Delivery>, printed: seq<nat>) {
    |ds'| == |ds| && forall d :: 0 <= d < |ds| ==> if d in printed then ds'[d].state.DEmitted? else ds'[d] == ds[d]
  }

  lemma OneMoreEmitted(ds0: seq<Delivery>, ds: seq<Delivery>, ds': seq<Delivery>, b: nat, printed: seq<nat>, d: nat)
    requires OnlyEmitted(ds0, ds, printed) && d < |ds| == |ds'| && FirstEnqueued(ds, b, 0) == Some(d)
    requires ds'[d].state.DEmitted? && forall i :: 0 <= i < |ds| && i != d ==> ds'[i] == ds[i]
    requires printed + EnqueuedRows(ds, b, 0) == EnqueuedRows(ds0, b, 0)
    ensures OnlyEmitted(ds0, ds', printed + [d])
    ensures printed + [d] + EnqueuedRows(ds', b, 0) == EnqueuedRows(ds0, b, 0)
    ensures |EnqueuedRows(ds', b, 0)| < |EnqueuedRows(ds, b, 0)|
  {
    FirstLeaves(ds, ds', b, 0, d);
    assert printed + [d] + EnqueuedRows(ds', b, 0) == printed + ([d] + EnqueuedRows(ds', b, 0));
    EmittedToo(ds0, ds, ds', printed, d);
  }

  lemma EmittedToo(ds0: seq<Delivery>, ds: seq<Delivery>, ds': seq<Delivery>, printed: seq<nat>, d: nat)
    requires OnlyEmitted(ds0, ds, printed) && d < |ds| == |ds'|
    requires ds'[d].state.DEmitted? && forall i :: 0 <= i < |ds| && i != d ==> ds'[i] == ds[i]
    ensures OnlyEmitted(ds0, ds', printed + [d])
  {}

  lemma {:induction false} PrintedStays(w: World, acts: seq<Act>, line: (nat, nat))
    requires line in w.hist.printed
    ensures line in Run(w, acts).hist.printed
    decreases |acts|
  {
    hide Next;
    if acts != [] {
      PrintedStaysStep(w, acts[0], line);
      PrintedStays(Next(w, acts[0]), acts[1..], line);
    }
  }

  lemma PrintedAllStay(w: World, acts: seq<Act>, lines: seq<nat>)
    requires (hide Next, Run; forall k :: 0 <= k < |lines| ==> WasPrinted(w.hist.printed, lines[k]))
    ensures forall k :: 0 <= k < |lines| ==> WasPrinted(Run(w, acts).hist.printed, lines[k])
  {
    hide Next, Run;
    forall k | 0 <= k < |lines| ensures WasPrinted(Run(w, acts).hist.printed, lines[k]) {
      var token :| (lines[k], token) in w.hist.printed;
      PrintedStays(w, acts, (lines[k], token));
    }
  }

  /** A drain is one round and a drain. */
  lemma DrainUnfolds(w: World, id: nat, now: int, gaps: seq<Gap>)
    requires (hide Next, Run; gaps != [])
    ensures var w1 := Run(w, gaps[0].beforeClaim + [ByListener(id, Claim(now))]);
            var trace := DrainTrace(w, id, now, gaps);
            if !(id in w1.cores && w1.cores[id].holding.Claimed?) then Run(w, trace.0) == w1 && trace.1 == []
            else
              var w2 := Run(w1, DeliverActs(id, gaps[0]));
              var rest := DrainTrace(w2, id, now, gaps[1..]);
              Run(w, trace.0) == Run(w2, rest.0) && trace.1 == [w1.cores[id].holding.delivery] + rest.1
  {
    hide Next, Run;
    var claim := gaps[0].beforeClaim + [ByListener(id, Claim(now))];
    var w1 := Run(w, claim);
    if id in w1.cores && w1.cores[id].holding.Claimed? {
      var rest := DrainTrace(Run(w1, DeliverActs(id, gaps[0])), id, now, gaps[1..]);
      RunAppend(w, claim, DeliverActs(id, gaps[0]) + rest.0);
      RunAppend(w1, DeliverActs(id, gaps[0]), rest.0);
    }
  }

  /** The drain so far, with what is left of it, is the whole drain. */
  predicate DrainStands(w: World, id: nat, now: int, left: seq<Gap>, printed: seq<nat>, end: World, all: seq<nat>) {
    var trace := DrainTrace(w, id, now, left);
    Run(w, trace.0) == end && printed + trace.1 == all
  }

  lemma DrainGoesOn(w: World, id: nat, now: int, left: seq<Gap>, printed: seq<nat>, end: World, all: seq<nat>)
    requires (hide Next, Run; left != [] && DrainStands(w, id, now, left, printed, end, all))
    ensures var w1 := Run(w, left[0].beforeClaim + [ByListener(id, Claim(now))]);
            if !(id in w1.cores && w1.cores[id].holding.Claimed?) then w1 == end && printed == all
            else DrainStands(Run(w1, DeliverActs(id, left[0])), id, now, left[1..],
                             printed + [w1.cores[id].holding.delivery], end, all)
  {
    hide Next, Run;
    DrainUnfolds(w, id, now, left);
    var w1 := Run(w, left[0].beforeClaim + [ByListener(id, Claim(now))]);
    if id in w1.cores && w1.cores[id].holding.Claimed? {
      var rest := DrainTrace(Run(w1, DeliverActs(id, left[0])), id, now, left[1..]);
      assert printed + ([w1.cores[id].holding.delivery] + rest.1) == printed + [w1.cores[id].holding.delivery] + rest.1;
    }
  }

  lemma RoundKeepsPrinted(w: World, id: nat, now: int, g: Gap, lines: seq<nat>)
    requires (hide Next, Run; forall k :: 0 <= k < |lines| ==> WasPrinted(w.hist.printed, lines[k]))
    ensures var w1 := Run(w, g.beforeClaim + [ByListener(id, Claim(now))]);
            forall k :: 0 <= k < |lines| ==>
              WasPrinted(w1.hist.printed, lines[k]) && WasPrinted(Run(w1, DeliverActs(id, g)).hist.printed, lines[k])
  {
    hide *;
    var claim := g.beforeClaim + [ByListener(id, Claim(now))];
    PrintedAllStay(w, claim, lines);
    PrintedAllStay(Run(w, claim), DeliverActs(id, g), lines);
  }

  lemma PrintedStaysStep(w: World, a: Act, line: (nat, nat))
    requires line in w.hist.printed
    ensures line in Next(w, a).hist.printed
  {
    hide Run, StepSender, StepIntake, StepWorker, StepCli, StepHook, StepListener;
    match a
    case BySender(s) => Frames.SenderFrame(w, s);
    case ByIntake(i) => Frames.IntakeFrame(w, i);
    case ByWorker(r) => Frames.WorkerFrame(w, r);
    case ByCli(c) => Frames.CliFrame(w, c);
    case ByHook(h, hook) => Frames.HookFrame(w, h, hook);
    case ByListener(c, l) => Frames.ListenerFrame(w, c, l);
  }
}
