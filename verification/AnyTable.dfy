/** The hard cap of six transmissions, from any tables at all: whatever counts a damaged or older database holds. */
module AnyTable {
  import opened Schema
  import opened World
  import opened Jobs
  import opened TurnText
  import opened OutboundTx
  import opened Machine
  import opened QueueRun

  /** One step sends a turn out at most once, and only with a count from 0 to 5. */
  predicate CountStep(a: Job, b: Job) {
    && b.kind == a.kind
    && (IsTurn(a) && b.attempts != a.attempts ==>
          b.attempts == a.attempts + 1 && 0 <= a.attempts < TURN_MAX_ATTEMPTS && b.state.Sending?)
  }

  /** Many steps: the count never falls, and where it rose it started at 0 or more and ended at 6 or less. */
  predicate CountRun(a: Job, b: Job) {
    && b.kind == a.kind
    && (IsTurn(a) && b.attempts != a.attempts ==> 0 <= a.attempts < b.attempts <= TURN_MAX_ATTEMPTS)
  }

  ghost predicate CountsStep(js: seq<Job>, js': seq<Job>) {
    |js| <= |js'| && forall j :: 0 <= j < |js| ==> CountStep(js[j], js'[j])
  }

  ghost predicate CountsRun(js: seq<Job>, js': seq<Job>) {
    |js| <= |js'| && forall j :: 0 <= j < |js| ==> CountRun(js[j], js'[j])
  }

  lemma QuietCounts(js: seq<Job>, js': seq<Job>)
    requires QuietRows(js, js')
    ensures CountsStep(js, js')
  {}

  lemma {:induction false} EnqueueKeepsRows(js: seq<Job>, g: nat, binding: nat, chat: nat, chunks: seq<string>, from: nat,
                                            now: int)
    requires from <= |chunks|
    ensures js <= EnqueueTurn(js, g, binding, chat, chunks, from, now)
    decreases |chunks| - from
  {
    if from < |chunks| {
      EnqueueKeepsRows(AddJob(js, TurnJob(TurnGroup(g), from, Some(binding), chat, chunks[from], now)), g, binding, chat,
                       chunks, from + 1, now);
    }
  }

  lemma PrepareCounts(w: World, now: int, at: int)
    ensures CountsStep(w.t.jobs, StepPrepare(w, now, at).t.jobs)
  {}

  lemma FinishCounts(w: World, outcome: Outcome, now: int)
    ensures CountsStep(w.t.jobs, StepFinish(w, outcome, now).t.jobs)
  {}

  lemma SenderCounts(w: World, a: SenderAct)
    ensures CountsStep(w.t.jobs, StepSender(w, a).t.jobs)
  {
    match a
    case PrepareNext(now, at) => PrepareCounts(w, now, at);
    case Finish(outcome, now) => FinishCounts(w, outcome, now);
    case ReconcileNext => ReconcileCounts(w);
    case _ =>
  }

  lemma ReconcileCounts(w: World)
    ensures CountsStep(w.t.jobs, StepReconcile(w).t.jobs)
  {}

  lemma InsertCounts(w: World, inst: nat)
    ensures CountsStep(w.t.jobs, StepStopInsert(w, inst).t.jobs)
  {
    if inst in w.stops && w.stops[inst].ToInsert? && w.stops[inst].binding < |w.t.bindings| {
      var pc := w.stops[inst];
      EnqueueKeepsRows(w.t.jobs, w.t.nextId, pc.binding, w.t.bindings[pc.binding].chat,
                       WithFooter(ChunkText(pc.p.text), pc.p.footer), 0, pc.p.now);
    }
  }

  lemma CountsOneStep(w: World, a: Act)
    ensures CountsStep(w.t.jobs, Next(w, a).t.jobs)
  {
    match a
    case BySender(s) => SenderCounts(w, s);
    case ByWorker(RescueSending(now)) =>
    case ByHook(inst, StopInsert) => InsertCounts(w, inst);
    case _ => OthersQuiet(w, a); QuietCounts(w.t.jobs, Next(w, a).t.jobs);
  }

  lemma CountsChain(js: seq<Job>, js1: seq<Job>, js2: seq<Job>)
    requires CountsStep(js, js1) && CountsRun(js1, js2)
    ensures CountsRun(js, js2)
  {}

  /** In every run, from every state whatsoever, a turn with count c is transmitted at most 6 - c times more, and not at
      all if c is negative or above. */
  lemma {:induction false} SixTransmissions(w: World, acts: seq<Act>)
    ensures CountsRun(w.t.jobs, Run(w, acts).t.jobs)
    decreases |acts|
  {
    hide Next;
    if acts != [] {
      CountsOneStep(w, acts[0]);
      SixTransmissions(Next(w, acts[0]), acts[1..]);
      CountsChain(w.t.jobs, Next(w, acts[0]).t.jobs, Run(w, acts).t.jobs);
    }
  }
}
