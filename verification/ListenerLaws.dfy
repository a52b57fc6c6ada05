/** What a listener's step leads to, told from the row as it was read and as it is written. */
module ListenerLaws {
  import opened Schema
  import opened World
  import opened Machine
  import opened ListenerScripts

  /** The row names this very listener. */
  predicate Holds(row: Binding, core: Core) {
    core.epoch.Some? && row.listener == Some(core.process) && row.epoch == core.epoch.value
  }

  /** Nobody else is on the row. */
  predicate Unheld(row: Binding, core: Core) { row.listener.None? || row.listener == Some(core.process) }

  /** The holder wrote a heartbeat at most 6 s ago. */
  predicate HolderFresh(row: Binding, now: int) { row.beat.Some? && now - row.beat.value <= 6_000 }

  /** The row is still as it was read: live, with the same holder and epoch. */
  predicate Unchanged(bs: seq<Binding>, b: nat, row: Binding) {
    b < |bs| && bs[b].status.Live() && bs[b].epoch == row.epoch && bs[b].listener == row.listener
  }

  /** How a step goes that read `row` and writes into `bs`: the holder goes on while the row shows its epoch and leaves when
      it does not; anybody else leaves a fresh holder alone, waits for one that is stale but not certainly dead, and takes
      over a free or abandoned row, unless it has changed meanwhile. */
  function OutcomeOf(row: Binding, core: Core, bs: seq<Binding>, now: int, holderDead: bool): Outcome {
    if Holds(row, core) then
      if core.binding < |bs| && bs[core.binding].epoch == row.epoch then Ok else Exit
    else if !Unheld(row, core) && HolderFresh(row, now) then Exit
    else if !Unheld(row, core) && !holderDead then Waiting
    else if Unchanged(bs, core.binding, row) then Ok
    else Waiting
  }

  /** A listener leaves a binding that is not live and a dead instance; otherwise its step goes as the row read and the row
      written decide. */
  lemma StepGoes(w: World, id: nat, now: int, instanceDead: bool, between: seq<Act>, holderDead: bool, gaps: seq<Gap>)
    requires (hide Next, Run; id in w.cores)
    ensures var core := w.cores[id];
            StepTrace(w, id, now, instanceDead, between, holderDead, gaps).outcome
            == if core.binding >= |w.t.bindings| || !w.t.bindings[core.binding].status.Live() || instanceDead then Exit
               else OutcomeOf(w.t.bindings[core.binding], core, Run(w, between).t.bindings, now, holderDead)
  {
    hide Next, Run;
  }

  predicate LiveFor(bs: seq<Binding>, inst: nat, b: nat) { b < |bs| && bs[b].status.Live() && bs[b].inst == inst }

  /** A follower leaves a dead instance and idles without a live binding; for a live one it makes a listener without an
      epoch, and idles again if that leaves at once. */
  lemma FollowGoes(w: World, inst: nat, process: nat, id: nat, now: int, instanceDead: bool, deadForCore: bool,
                   between: seq<Act>, holderDead: bool, gaps: seq<Gap>)
    requires (hide Next, Run; id !in w.cores)
    ensures var (acts, outcome) :=
              FollowTrace(w, inst, process, id, now, instanceDead, deadForCore, between, holderDead, gaps);
            if instanceDead then acts == [] && outcome.Left?
            else if forall b: nat :: !LiveFor(w.t.bindings, inst, b) then acts == [] && outcome.Idling?
            else
              exists b: nat :: LiveFor(w.t.bindings, inst, b) && Follows(w, b, process, id, now, deadForCore, between,
                                                                       holderDead, acts, outcome)
  {
    hide Run, StepSender, StepIntake, StepWorker, StepCli, StepHook;
    var found := LiveOf(w.t.bindings, inst, 0);
    if !instanceDead && found.Some? {
      var b := found.value;
      var w1 := Next(w, ByListener(id, CoreStart(b, process)));
      StepGoes(w1, id, now, deadForCore, between, holderDead, gaps);
      assert LiveFor(w.t.bindings, inst, b);
    }
  }

  /** It starts a listener for b and lets it step. */
  ghost predicate Follows(w: World, b: nat, process: nat, id: nat, now: int, dead: bool, between: seq<Act>,
                          holderDead: bool, acts: seq<Act>, outcome: Following)
    requires b < |w.t.bindings|
  {
    var start := ByListener(id, CoreStart(b, process));
    var stepped := OutcomeOf(w.t.bindings[b], Core(b, process, None, Nothing), Run(Next(w, start), between).t.bindings, now,
                             holderDead);
    acts != [] && acts[0] == start && outcome == if dead || stepped.Exit? then Idling else Following.Following
  }

  /** A won takeover writes process, next epoch and heartbeat and clears the mark, and the listener has that epoch; a lost
      one, and one that was not to be tried, change nothing. */
  lemma TakeoverLeads(w: World, id: nat, seen: Binding, now: int, holderDead: bool)
    requires (hide Next, Run; id in w.cores)
    ensures var core, w' := w.cores[id], Next(w, ByListener(id, Takeover(seen, now, holderDead)));
            var b := core.binding;
            if !Holds(seen, core) && OutcomeOf(seen, core, w.t.bindings, now, holderDead).Ok? then
              && b < |w.t.bindings|
              && w'.t == w.t.(bindings := w.t.bindings[b := w.t.bindings[b].(listener := Some(core.process),
                                                                            epoch := seen.epoch + 1,
                                                                            beat := Some(now), suspect := None)])
              && id in w'.cores && w'.cores[id] == core.(epoch := Some(seen.epoch + 1))
            else w' == w
  {
    hide Run, StepSender, StepIntake, StepWorker, StepCli, StepHook;
  }

  /** A heartbeat is written, and clears the mark, while the row shows the listener's epoch; else the listener leaves. */
  lemma BeatLeads(w: World, id: nat, now: int)
    requires (hide Next, Run; id in w.cores)
    ensures var core, w' := w.cores[id], Next(w, ByListener(id, Beat(now)));
            var b := core.binding;
            if core.epoch.Some? && b < |w.t.bindings| && w.t.bindings[b].epoch == core.epoch.value then
              && w'.t == w.t.(bindings := w.t.bindings[b := w.t.bindings[b].(beat := Some(now), suspect := None)])
              && w'.cores == w.cores
            else w'.t == w.t && id !in w'.cores
  {
    hide Run, StepSender, StepIntake, StepWorker, StepCli, StepHook;
  }

  /** The first queued delivery of the binding. */
  predicate FirstQueued(ds: seq<Delivery>, b: nat, d: nat) {
    && d < |ds| && ds[d].binding == b && ds[d].state.DEnqueued?
    && forall i :: 0 <= i < d ==> !(ds[i].binding == b && ds[i].state.DEnqueued?)
  }

  /** A free-handed listener whose epoch an active row shows leases its first queued delivery for 30 s, under a token nobody
      has; otherwise it leases nothing. */
  lemma ClaimLeads(w: World, id: nat, now: int)
    requires (hide Next, Run; id in w.cores && w.cores[id].holding.Nothing?)
    ensures var core, w' := w.cores[id], Next(w, ByListener(id, Claim(now)));
            var b := core.binding;
            var may := core.epoch.Some? && b < |w.t.bindings| && w.t.bindings[b].epoch == core.epoch.value
                       && w.t.bindings[b].status.Active?;
            && (may ==> forall d: nat :: FirstQueued(w.t.deliveries, b, d) ==>
                  && w'.cores == w.cores[id := core.(holding := Claimed(d, w.t.nextId))]
                  && w'.t == w.t.(nextId := w.t.nextId + 1,
                                  deliveries := w.t.deliveries[d := w.t.deliveries[d].(
                                      state := DLeased, token := Some(w.t.nextId), leaseEpoch := core.epoch,
                                      leaseUntil := Some(now + 30_000), attempts := w.t.deliveries[d].attempts + 1)]))
            && (!may || (forall d: nat :: !FirstQueued(w.t.deliveries, b, d)) ==> w' == w)
  {
    hide Run, StepSender, StepIntake, StepWorker, StepCli, StepHook;
    var found := ListenerTx.FirstEnqueued(w.t.deliveries, w.cores[id].binding, 0);
    assert found.Some? ==> FirstQueued(w.t.deliveries, w.cores[id].binding, found.value);
  }

  /** The line is written to the Monitor once, under the claim's token; then its delivery, if it is still leased under that
      token, is marked as emitted, and the listener's hands are free. */
  lemma DeliveryLeads(w: World, id: nat)
    requires (hide Next, Run; id in w.cores)
    ensures var core, w' := w.cores[id], Next(w, ByListener(id, Print));
            && w'.t == w.t
            && (core.holding.Claimed? ==>
                  && w'.hist.printed == w.hist.printed + {(core.holding.delivery, core.holding.token)}
                  && w'.cores == w.cores[id := core.(holding := Printed(core.holding.delivery, core.holding.token))])
            && (!core.holding.Claimed? ==> w' == w)
    ensures var core, w' := w.cores[id], Next(w, ByListener(id, Emit));
            if core.holding.Printed? then
              var d := core.holding.delivery;
              && w'.cores == w.cores[id := core.(holding := Nothing)]
              && w'.t == w.t.(deliveries := if d < |w.t.deliveries| && w.t.deliveries[d].state.DLeased?
                                               && w.t.deliveries[d].token == Some(core.holding.token)
                                            then w.t.deliveries[d := w.t.deliveries[d].(state := DEmitted)]
                                            else w.t.deliveries)
            else w' == w
  {
    hide Run, StepSender, StepIntake, StepWorker, StepCli, StepHook;
  }
}
