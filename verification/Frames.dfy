/** What each actor's steps leave alone. */
module Frames {
  import opened World
  import opened InboundTx
  import opened Machine

  lemma SenderFrame(w: World, a: SenderAct)
    ensures var w' := StepSender(w, a);
            && w'.t == w.t.(jobs := w'.t.jobs, pendings := w'.t.pendings)
            && w'.stops == w.stops && w'.cores == w.cores && w'.hist == w.hist.(acked := w'.hist.acked)
            && w'.cfg.owner == w.cfg.owner
  {}

  lemma IntakeFrame(w: World, a: IntakeAct)
    ensures var w' := StepIntake(w, a);
            && LeavesBindings(w.t, w'.t) && w'.stops == w.stops && w'.cores == w.cores && w'.cfg == w.cfg
            && w'.hist == w.hist.(allowed := w'.hist.allowed)
  {}

  lemma WorkerFrame(w: World, a: WorkerAct)
    ensures var w' := StepWorker(w, a);
            && w'.stops == w.stops && w'.cores == w.cores && w'.cfg == w.cfg
            && w'.hist == w.hist.(beaten := w'.hist.beaten, silent := w'.hist.silent)
  {}

  lemma CliFrame(w: World, a: CliAct)
    ensures StepCli(w, a) == w.(t := StepCli(w, a).t)
  {}

  lemma HookFrame(w: World, inst: nat, a: HookAct)
    ensures var w' := StepHook(w, inst, a);
            && w'.cores == w.cores && w'.cfg == w.cfg && w'.daemon == w.daemon
            && w'.hist == w.hist.(bindTurn := w'.hist.bindTurn, spans := w'.hist.spans)
            && (forall i :: i != inst ==> (i in w'.stops <==> i in w.stops))
            && (forall i :: i != inst && i in w.stops ==> w'.stops[i] == w.stops[i])
            && (a.OfSessionEnd() ==> w'.stops == w.stops)
            && (!a.StopInsert? ==> w'.hist.spans == w.hist.spans)
            && (inst in w.hist.bindTurn && !(a.StopBegin? && !a.payload.continuation) && !a.EndLatches? ==>
                  inst in w'.hist.bindTurn)
            && w'.hist.bindTurn - {inst} == w.hist.bindTurn - {inst}
  {}

  lemma ListenerFrame(w: World, c: nat, a: ListenerAct)
    ensures var w' := StepListener(w, c, a);
            && w'.t == w.t.(bindings := w'.t.bindings, deliveries := w'.t.deliveries, nextId := w'.t.nextId)
            && w'.stops == w.stops && w'.cfg == w.cfg && w'.daemon == w.daemon
            && w'.hist == w.hist.(won := w'.hist.won, beaten := w'.hist.beaten, printed := w'.hist.printed)
            && w.hist.printed <= w'.hist.printed
            && (forall i :: i != c ==> (i in w'.cores <==> i in w.cores))
            && (forall i :: i != c && i in w.cores ==> w'.cores[i] == w.cores[i])
  {}
}
