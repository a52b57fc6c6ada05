/** A listener (lib/listener_core.py) as a sequence of atomic steps. */
module ListenerScripts {
  import opened Schema
  import opened World
  import opened ListenerTx
  import opened Machine
  import Frames

  /** What others do before a claim, before the print and before the delivery is marked as emitted. */
  datatype Gap = Gap(beforeClaim: seq<Act>, beforePrint: seq<Act>, beforeEmit: seq<Act>)

  datatype Outcome = Exit | Ok | Waiting

  /** Steps of anybody but this listener. */
  ghost predicate Strange(acts: seq<Act>, id: nat) {
    forall i :: 0 <= i < |acts| ==> !(acts[i].ByListener? && acts[i].core == id)
  }

  ghost predicate StrangeGap(g: Gap, id: nat) {
    Strange(g.beforeClaim, id) && Strange(g.beforePrint, id) && Strange(g.beforeEmit, id)
  }

  lemma {:induction false} StrangersLeaveCore(w: World, acts: seq<Act>, id: nat)
    requires (hide Next, Run; Strange(acts, id) && id in w.cores)
    ensures id in Run(w, acts).cores && Run(w, acts).cores[id] == w.cores[id]
    decreases |acts|
  {
    hide Next;
    if acts != [] {
      StrangerLeavesCore(w, acts[0], id);
      StrangersLeaveCore(Next(w, acts[0]), acts[1..], id);
    }
  }

  lemma StrangerLeavesCore(w: World, a: Act, id: nat)
    requires (hide Next, Run; !(a.ByListener? && a.core == id) && id in w.cores)
    ensures id in Next(w, a).cores && Next(w, a).cores[id] == w.cores[id]
  {
    hide Run, StepSender, StepIntake, StepWorker, StepCli, StepHook, StepListener;
    match a
    case BySender(s) => Frames.SenderFrame(w, s);
    case ByIntake(i) => Frames.IntakeFrame(w, i);
    case ByWorker(r) => Frames.WorkerFrame(w, r);
    case ByCli(c) => Frames.CliFrame(w, c);
    case ByHook(h, hook) => Frames.HookFrame(w, h, hook);
    case ByListener(c, l) => Frames.ListenerFrame(w, c, l);
  }

  /** One round of _drain that claimed something: print and mark it. */
  function DeliverActs(id: nat, g: Gap): seq<Act> {
    g.beforePrint + [ByListener(id, Print)] + (g.beforeEmit + [ByListener(id, Emit)])
  }

  /** _drain: its steps, and the deliveries it prints, in order. It goes on until it finds nothing to claim, or the
      process is killed, which is `gaps` running out. */
  function DrainTrace(w: World, id: nat, now: int, gaps: seq<Gap>): (seq<Act>, seq<nat>)
    decreases |gaps|
  {
    if gaps == [] then ([], [])
    else
      var claim := gaps[0].beforeClaim + [ByListener(id, Claim(now))];
      var w1 := Run(w, claim);
      if !(id in w1.cores && w1.cores[id].holding.Claimed?) then (claim, [])
      else
        var rest := DrainTrace(Run(w1, DeliverActs(id, gaps[0])), id, now, gaps[1..]);
        (claim + (DeliverActs(id, gaps[0]) + rest.0), [w1.cores[id].holding.delivery] + rest.1)
  }

  datatype Stepped = Stepped(acts: seq<Act>, outcome: Outcome, printed: seq<nat>)

  /** After its heartbeat or takeover the listener of an active row drains. */
  function GoOn(w: World, first: seq<Act>, active: bool, id: nat, now: int, gaps: seq<Gap>): Stepped {
    if active then
      var drained := DrainTrace(Run(w, first), id, now, gaps);
      Stepped(first + drained.0, Ok, drained.1)
    else Stepped(first, Ok, [])
  }

  /** step: leave, beat, take over or wait, by the row as read; only a beat or a takeover that wins goes on. */
  function StepTrace(w: World, id: nat, now: int, instanceDead: bool, between: seq<Act>, holderDead: bool,
                     gaps: seq<Gap>): Stepped
    requires id in w.cores
  {
    var core := w.cores[id];
    if core.binding >= |w.t.bindings| || !w.t.bindings[core.binding].status.Live() || instanceDead then
      Stepped([ByListener(id, CoreGone)], Exit, [])
    else
      var row, w1 := w.t.bindings[core.binding], Run(w, between);
      if IdentityIsMe(row, core) then
        if BeatWins(w1.t, core) then GoOn(w, between + [ByListener(id, Beat(now))], row.status.Active?, id, now, gaps)
        else Stepped(between + [ByListener(id, Beat(now))], Exit, [])
      else
        match PlanTakeover(row, core, now, holderDead)
        case Leave => Stepped(between + [ByListener(id, CoreGone)], Exit, [])
        case Hold => Stepped(between, Waiting, [])
        case Try =>
          if TakeoverWins(w1.t, core.binding, row) then
            GoOn(w, between + [ByListener(id, Takeover(row, now, holderDead))], row.status.Active?, id, now, gaps)
          else Stepped(between, Waiting, [])
  }

  datatype Following = Left | Idling | Following

  function LiveOf(bs: seq<Binding>, inst: nat, from: nat): (r: Option<nat>)
    requires from <= |bs|
    ensures r.Some? ==> r.value < |bs| && bs[r.value].status.Live() && bs[r.value].inst == inst
    ensures r.None? ==> forall i :: from <= i < |bs| ==> !(bs[i].status.Live() && bs[i].inst == inst)
    decreases |bs| - from
  {
    if from == |bs| then None
    else if bs[from].status.Live() && bs[from].inst == inst then Some(from)
    else LiveOf(bs, inst, from + 1)
  }

  function Followed(r: Stepped): Following { if r.outcome.Exit? then Idling else Following.Following }

  /** InstanceFollower.step without a core: leave, idle, or make one and drive it. The follower and its new core each probe
      the instance. */
  function FollowTrace(w: World, inst: nat, process: nat, id: nat, now: int, instanceDead: bool, deadForCore: bool,
                       between: seq<Act>, holderDead: bool, gaps: seq<Gap>): (seq<Act>, Following)
    requires id !in w.cores
  {
    var b := LiveOf(w.t.bindings, inst, 0);
    if instanceDead then ([], Left)
    else if b.None? then ([], Idling)
    else
      var start := ByListener(id, CoreStart(b.value, process));
      var r := StepTrace(Next(w, start), id, now, deadForCore, between, holderDead, gaps);
      ([start] + r.acts, Followed(r))
  }
}
