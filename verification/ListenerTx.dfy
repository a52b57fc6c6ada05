/** lib/listener_core.py: each statement or transaction of a listener as a function of the tables. */
module ListenerTx {
  import opened Schema
  import opened World

  /** _identity_is_me, on a row as read */
  predicate IdentityIsMe(row: Binding, c: Core) {
    c.epoch.Some? && row.listener == Some(c.process) && row.epoch == c.epoch.value
  }

  datatype TakeoverPlan = Leave | Hold | Try

  /** The part of _takeover before its CAS, on the row as read; `dead` is the probe of the holder's process. */
  function PlanTakeover(row: Binding, c: Core, now: int, dead: bool): TakeoverPlan {
    if row.listener.None? || row.listener == Some(c.process) then Try
    else if row.beat.Some? && now - row.beat.value <= HEARTBEAT_FRESH_MS then Leave
    else if !dead then Hold
    else Try
  }

  /** The CAS: the row still shows the epoch and holder that were read. */
  predicate TakeoverWins(t: Tables, b: nat, seen: Binding) {
    b < |t.bindings| && t.bindings[b].status.Live() && t.bindings[b].epoch == seen.epoch
    && t.bindings[b].listener == seen.listener
  }

  function TakeoverTx(t: Tables, b: nat, seen: Binding, process: nat, now: int): Tables {
    if TakeoverWins(t, b, seen) then
      t.(bindings := t.bindings[b := t.bindings[b].(listener := Some(process), epoch := seen.epoch + 1,
                                                    beat := Some(now), suspect := None)])
    else t
  }

  predicate BeatWins(t: Tables, c: Core) {
    c.epoch.Some? && c.binding < |t.bindings| && t.bindings[c.binding].epoch == c.epoch.value
  }

  function BeatTx(t: Tables, c: Core, now: int): Tables {
    if BeatWins(t, c) then
      t.(bindings := t.bindings[c.binding := t.bindings[c.binding].(beat := Some(now), suspect := None)])
    else t
  }

  function FirstEnqueued(ds: seq<Delivery>, b: nat, from: nat): (r: Option<nat>)
    requires from <= |ds|
    ensures r.Some? ==> from <= r.value < |ds| && ds[r.value].binding == b && ds[r.value].state.DEnqueued?
    ensures r.Some? ==> forall i :: from <= i < r.value ==> !(ds[i].binding == b && ds[i].state.DEnqueued?)
    ensures r.None? ==> forall i :: from <= i < |ds| ==> !(ds[i].binding == b && ds[i].state.DEnqueued?)
    decreases |ds| - from
  {
    if from == |ds| then None
    else if ds[from].binding == b && ds[from].state.DEnqueued? then Some(from)
    else FirstEnqueued(ds, b, from + 1)
  }

  /** _claim_one picks this delivery. */
  function ClaimTarget(t: Tables, c: Core): Option<nat> {
    if BeatWins(t, c) && t.bindings[c.binding].status.Active? then FirstEnqueued(t.deliveries, c.binding, 0) else None
  }

  function ClaimTx(t: Tables, c: Core, now: int): Tables {
    match ClaimTarget(t, c)
    case None => t
    case Some(d) =>
      t.(deliveries := t.deliveries[d := t.deliveries[d].(state := DLeased, token := Some(t.nextId),
                                                          leaseEpoch := c.epoch, leaseUntil := Some(now + LEASE_MS),
                                                          attempts := t.deliveries[d].attempts + 1)],
         nextId := t.nextId + 1)
  }

  function EmitTx(t: Tables, d: nat, token: nat): Tables {
    if d < |t.deliveries| && t.deliveries[d].state.DLeased? && t.deliveries[d].token == Some(token)
    then t.(deliveries := t.deliveries[d := t.deliveries[d].(state := DEmitted)]) else t
  }
}
