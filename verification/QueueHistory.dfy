/** The outbound queue over time: what a turn delivered, and how many alerts there are. */
module QueueHistory {
  import opened Schema
  import opened World
  import opened Jobs
  import opened TurnText
  import opened OutboundTx
  import opened Machine
  import Frames
  import opened QueueInvariant
  import opened QueueSteps
  import opened QueueRun

  // ---- Rows evolve ----

  /** A job keeps what it is; a body is only ever trimmed, and a turn's job that is over stays as it ended. */
  predicate RowLater(a: Job, b: Job) {
    && b.kind == a.kind && b.binding == a.binding && b.group == a.group && b.chunk == a.chunk && b.key == a.key
    && b.chat == a.chat
    && (b.body == a.body || b.body == None)
    && (IsTurn(a) && a.state.Terminal() ==> b.state == a.state && b.error == a.error && b.attempts == a.attempts)
  }

  ghost predicate Later(js: seq<Job>, js': seq<Job>) {
    |js| <= |js'| && forall i :: 0 <= i < |js| ==> RowLater(js[i], js'[i])
  }

  lemma LaterStill(js: seq<Job>, js1: seq<Job>, js2: seq<Job>)
    requires Evolves(js, js1) && Later(js1, js2)
    ensures Later(js, js2)
  {}

  lemma OthersEvolve(js: seq<Job>, js': seq<Job>)
    requires forall i :: 0 <= i < |js| ==> RowOk(js[i])
    requires QuietRows(js, js') || TurnsAppended(js, js')
    ensures Evolves(js, js')
  {}

  lemma FinishEvolves(js: seq<Job>, j: nat, outcome: Outcome, now: int)
    requires j < |js| && RowOk(js[j]) && js[j].state.Sending?
    ensures Evolves(js, FinalizeJobs(js, j, outcome, now))
  {}

  lemma ReconcileEvolves(js: seq<Job>, j: nat, now: int)
    requires j < |js| && RowOk(js[j])
    ensures Evolves(js, ReconcileRow(js, j, now))
  {}

  lemma PrepareEvolves(t: Tables, cfg: Config, j: nat, now: int, at: int)
    requires j < |t.jobs| && RowOk(t.jobs[j])
    ensures Evolves(t.jobs, PrepareTx(t, cfg, j, now, at).jobs)
  {}

  lemma SweepEvolves(w: World)
    requires QueueAt(w) && w.daemon.Sweeping?
    ensures Evolves(w.t.jobs, SweepAll(w.daemon.stage, w.t.jobs, w.daemon.now))
  {
    forall i | 0 <= i < |w.t.jobs|
      ensures RowStep(w.t.jobs[i], SweepAll(w.daemon.stage, w.t.jobs, w.daemon.now)[i])
    {
      SweepRowFacts(w.daemon.stage, w.t.jobs[i], w.daemon.now);
    }
  }

  lemma SenderEvolves(w: World, a: SenderAct)
    requires QueueAt(w)
    ensures Evolves(w.t.jobs, StepSender(w, a).t.jobs)
  {
    hide Next, Run;
    match a
    case ReconcileNext => ReconcileStepEvolves(w);
    case SweepNext => if w.daemon.Sweeping? { SweepEvolves(w); }
    case PrepareNext(now, at) => PrepareStepEvolves(w, now, at);
    case Finish(outcome, now) => FinishStepEvolves(w, outcome, now);
    case _ =>
  }

  lemma ReconcileStepEvolves(w: World)
    requires QueueAt(w)
    ensures Evolves(w.t.jobs, StepReconcile(w).t.jobs)
  {
    if w.daemon.Reconciling? && w.daemon.k < |w.daemon.rows| {
      ReconcileEvolves(w.t.jobs, w.daemon.rows[w.daemon.k], w.daemon.now);
    }
  }

  lemma PrepareStepEvolves(w: World, now: int, at: int)
    requires QueueAt(w)
    ensures Evolves(w.t.jobs, StepPrepare(w, now, at).t.jobs)
  {
    hide Next, Run;
    if w.daemon.Ticking? && w.daemon.k < |w.daemon.rows| {
      PrepareEvolves(w.t, w.cfg, w.daemon.rows[w.daemon.k], now, at);
    }
  }

  lemma FinishStepEvolves(w: World, outcome: Outcome, now: int)
    requires QueueAt(w)
    ensures Evolves(w.t.jobs, StepFinish(w, outcome, now).t.jobs)
  {
    hide Next, Run;
    if w.daemon.InFlight? { FinishEvolves(w.t.jobs, w.daemon.rows[w.daemon.k], outcome, now); }
  }

  lemma EvolveStep(w: World, a: Act)
    requires QueueAt(w)
    ensures Evolves(w.t.jobs, Next(w, a).t.jobs)
  {
    hide Run, StepSender, StepIntake, StepWorker, StepCli, StepHook, StepListener;
    if a.BySender? {
      SenderEvolves(w, a.sender);
    } else {
      OthersLeaveQueue(w, a);
      OthersEvolve(w.t.jobs, Next(w, a).t.jobs);
    }
  }

  /** Once a turn's job is over it stays over, with the attempts it had. */
  lemma {:induction false} EvolveRun(w: World, acts: seq<Act>)
    requires QueueAt(w)
    ensures QueueAt(Run(w, acts)) && Later(w.t.jobs, Run(w, acts).t.jobs)
    decreases |acts|
  {
    hide Next;
    if acts != [] {
      EvolveStep(w, acts[0]);
      QueueStep(w, acts[0]);
      EvolveRun(Next(w, acts[0]), acts[1..]);
      LaterStill(w.t.jobs, Next(w, acts[0]).t.jobs, Run(w, acts).t.jobs);
    }
  }

  // ---- What a turn says ----

  predicate Says(chunks: seq<string>, text: string, footer: string) {
    text != "" && chunks == WithFooter(ChunkText(text), footer)
  }

  ghost predicate SpanSays(span: Span) {
    exists text, footer :: Says(span.chunks, text, footer)
  }

  ghost predicate SpansSay(spans: map<nat, Span>) {
    forall g :: g in spans ==> SpanSays(spans[g])
  }

  lemma SpansSayStep(w: World, a: Act)
    requires QueueAt(w) && SpansSay(w.hist.spans)
    ensures SpansSay(Next(w, a).hist.spans)
  {
    hide Run, StepSender, StepIntake, StepWorker, StepCli, StepListener;
    if a.ByHook? && a.hook.StopInsert? && a.inst in w.stops && w.stops[a.inst].ToInsert? {
      var p := w.stops[a.inst].p;
      assert Says(WithFooter(ChunkText(p.text), p.footer), p.text, p.footer);
    } else {
      SpansUntouched(w, a);
    }
  }

  lemma SpansUntouched(w: World, a: Act)
    requires (hide Next, Run; !(a.ByHook? && a.hook.StopInsert? && a.inst in w.stops && w.stops[a.inst].ToInsert?))
    ensures Next(w, a).hist.spans == w.hist.spans
  {
    hide Run, StepSender, StepIntake, StepWorker, StepListener;
    match a
    case BySender(s) => Frames.SenderFrame(w, s);
    case ByIntake(i) => Frames.IntakeFrame(w, i);
    case ByWorker(r) => Frames.WorkerFrame(w, r);
    case ByCli(c) => Frames.CliFrame(w, c);
    case ByHook(h, hook) => if !hook.StopInsert? { Frames.HookFrame(w, h, hook); }
    case ByListener(c, l) => Frames.ListenerFrame(w, c, l);
  }

  // ---- What a turn delivered ----

  /** The bodies recorded as sent for the first n chunks of a turn, in chunk order. */
  function Delivered(js: seq<Job>, acked: map<nat, string>, base: nat, n: nat): string
    requires base + n <= |js|
  {
    if n == 0 then ""
    else
      var j := base + n - 1;
      Delivered(js, acked, base, n - 1) + (if js[j].state.Sent? && j in acked then acked[j] else "")
  }

  predicate ChunkSent(js: seq<Job>, base: nat, i: nat)
    requires base + i < |js|
  {
    js[base + i].state.Sent?
  }

  /** The sent chunks are the first ones. */
  lemma {:induction false} SentAreFirst(js: seq<Job>, spans: map<nat, Span>, acked: map<nat, string>, nextId: nat,
                                        g: nat, i: nat, k: nat)
    requires QueueOk(js, spans, acked, nextId) && g in spans && i < k < |spans[g].chunks|
    requires js[spans[g].base + k].attempts > 0 || js[spans[g].base + k].state.Sent?
    ensures js[spans[g].base + i].state.Sent?
    decreases k
  {
    var j := spans[g].base + k;
    assert OfTurn(js[j], g) && OfTurn(js[j - 1], g) && RowOk(js[j]) && RowOk(js[j - 1]);
    assert InSpan(js, j, spans, acked) && InSpan(js, j - 1, spans, acked);
    SentWasSentOut(js[j]);
    if i < k - 1 { SentAreFirst(js, spans, acked, nextId, g, i, k - 1); }
  }

  lemma SentWasSentOut(job: Job)
    requires RowOk(job) && IsTurn(job) && (job.attempts > 0 || job.state.Sent?)
    ensures job.attempts > 0
  {}

  /** Behind a chunk that failed or was cancelled nothing was sent out, nor will be. */
  lemma NothingBehindAFailure(w: World, w': World, g: nat, i: nat, k: nat)
    requires QueueAt(w) && QueueAt(w') && Later(w.t.jobs, w'.t.jobs)
    requires g in w.hist.spans && i < k < |w.hist.spans[g].chunks|
    requires var job := w.t.jobs[w.hist.spans[g].base + i]; job.state.Failed? || job.state.Cancelled?
    ensures var j := w.hist.spans[g].base + k;
            j < |w'.t.jobs| && w'.t.jobs[j].attempts == 0 && !w'.t.jobs[j].state.Sent?
  {
    var j, j' := w.hist.spans[g].base + i, w.hist.spans[g].base + k;
    assert OfTurn(w.t.jobs[j], g) && OfTurn(w.t.jobs[j'], g) && RowOk(w.t.jobs[j]);
    FailureStays(w.t.jobs, w'.t.jobs, j, j');
    FailureStopsTheTurn(w'.t.jobs, w'.hist.spans, w'.hist.acked, w'.t.nextId, j, j');
  }

  predicate ChunkFailed(w: World, g: nat, i: nat) {
    && g in w.hist.spans && w.hist.spans[g].base + i < |w.t.jobs|
    && (var job := w.t.jobs[w.hist.spans[g].base + i]; job.state.Failed? || job.state.Cancelled?)
  }

  lemma FailureIsFinal(w: World, w': World, g: nat, i: nat, k: nat)
    requires QueueAt(w) && QueueAt(w') && Later(w.t.jobs, w'.t.jobs)
    requires ChunkFailed(w, g, i) && i < k < |w.hist.spans[g].chunks|
    ensures Unsent(w', w.hist.spans[g].base + k)
  {
    NothingBehindAFailure(w, w', g, i, k);
  }

  lemma FailureLasts(w: World, more: seq<Act>, g: nat, i: nat, k: nat)
    requires (hide Next, Run; QueueAt(w) && ChunkFailed(w, g, i) && i < k < |w.hist.spans[g].chunks|)
    ensures Unsent(Run(w, more), w.hist.spans[g].base + k)
  {
    hide *;
    EvolveRun(w, more);
    FailureIsFinal(w, Run(w, more), g, i, k);
  }

  predicate Unsent(w: World, j: nat) {
    j < |w.t.jobs| && w.t.jobs[j].attempts == 0 && !w.t.jobs[j].state.Sent?
  }

  lemma FailureStays(js: seq<Job>, js': seq<Job>, j: nat, j': nat)
    requires j < j' < |js| && Later(js, js') && IsTurn(js[j]) && (js[j].state.Failed? || js[j].state.Cancelled?)
    ensures j' < |js'| && js'[j].state == js[j].state && js'[j].group == js[j].group && js'[j'].group == js[j'].group
  {}

  lemma FailureStopsTheTurn(js: seq<Job>, spans: map<nat, Span>, acked: map<nat, string>, nextId: nat, j: nat, j': nat)
    requires QueueOk(js, spans, acked, nextId) && j < j' < |js| && js[j].group == js[j'].group
    requires js[j].group.Some? && js[j].group.value.TurnGroup? && (js[j].state.Failed? || js[j].state.Cancelled?)
    ensures js[j'].attempts == 0 && !js[j'].state.Sent?
  {
    assert RowOk(js[j']) && InSpan(js, j, spans, acked) && InSpan(js, j', spans, acked);
    if js[j'].attempts > 0 || js[j'].state.Sent? {
      SentAreFirst(js, spans, acked, nextId, js[j].group.value.id, js[j].chunk, js[j'].chunk);
    }
  }

  lemma SentSaysItsChunk(js: seq<Job>, spans: map<nat, Span>, acked: map<nat, string>, nextId: nat, g: nat, i: nat)
    requires SpansOk(js, spans, acked, nextId) && g in spans && i < |spans[g].chunks|
    requires ChunkSent(js, spans[g].base, i)
    ensures spans[g].base + i in acked && acked[spans[g].base + i] == spans[g].chunks[i]
  {
    assert OfTurn(js[spans[g].base + i], g) && InSpan(js, spans[g].base + i, spans, acked);
  }

  lemma {:induction false} DeliveredIs(js: seq<Job>, spans: map<nat, Span>, acked: map<nat, string>, nextId: nat, g: nat,
                                       n: nat, m: nat)
    requires SpansOk(js, spans, acked, nextId) && g in spans && n <= |spans[g].chunks| && m <= n
    requires forall i :: 0 <= i < n ==> (ChunkSent(js, spans[g].base, i) <==> i < m)
    ensures Delivered(js, acked, spans[g].base, n) == Concat(spans[g].chunks[..m])
    decreases n
  {
    var chunks, base := spans[g].chunks, spans[g].base;
    if n > 0 {
      assert ChunkSent(js, base, n - 1) <==> n - 1 < m;
      if m == n {
        SentSaysItsChunk(js, spans, acked, nextId, g, n - 1);
        DeliveredIs(js, spans, acked, nextId, g, n - 1, n - 1);
        assert chunks[..n] == chunks[..n - 1] + [chunks[n - 1]];
        ConcatAppend(chunks[..n - 1], [chunks[n - 1]]);
        assert [chunks[n - 1]][1..] == [];
      } else {
        DeliveredIs(js, spans, acked, nextId, g, n - 1, m);
      }
    }
  }

  /** The chunks sent so far, counted from the front. */
  lemma {:induction false} SentPrefix(js: seq<Job>, spans: map<nat, Span>, acked: map<nat, string>, nextId: nat, g: nat,
                                      n: nat) returns (m: nat)
    requires QueueOk(js, spans, acked, nextId) && g in spans && n <= |spans[g].chunks|
    ensures m <= n && forall i :: 0 <= i < n ==> (ChunkSent(js, spans[g].base, i) <==> i < m)
    decreases n
  {
    m := 0;
    if n > 0 {
      if ChunkSent(js, spans[g].base, n - 1) {
        m := n;
        forall i | 0 <= i < n ensures ChunkSent(js, spans[g].base, i) {
          if i < n - 1 { SentAreFirst(js, spans, acked, nextId, g, i, n - 1); }
        }
      } else {
        m := SentPrefix(js, spans, acked, nextId, g, n - 1);
      }
    }
  }

  // ---- Alerts ----

  function AlertRows(js: seq<Job>): set<nat> {
    set k: nat | k < |js| && IsAlertTurn(js[k])
  }

  function GivenUpRows(js: seq<Job>): set<nat> {
    set j: nat | j < |js| && GaveUp(js[j])
  }

  function RealTurnRows(js: seq<Job>): set<nat> {
    set j: nat | j < |js| && js[j].group.Some? && js[j].group.value.TurnGroup?
  }

  /** The job an alert is about. */
  function AlertedJob(job: Job): nat {
    if IsAlertTurn(job) then job.group.value.job else 0
  }

  function AlertedBy(js: seq<Job>, alerts: set<nat>): set<nat>
    requires forall k :: k in alerts ==> k < |js|
  {
    set k | k in alerts :: AlertedJob(js[k])
  }

  lemma {:induction false} AlertedByIsOneToOne(js: seq<Job>, alerts: set<nat>)
    requires forall k :: k in alerts ==> k < |js| && IsAlertTurn(js[k]) && RowOk(js[k])
    requires KeysUnique(js)
    ensures |AlertedBy(js, alerts)| == |alerts|
    decreases alerts
  {
    if alerts != {} {
      var k :| k in alerts;
      var rest := alerts - {k};
      AlertedByIsOneToOne(js, rest);
      var j := AlertedJob(js[k]);
      forall i | i in rest ensures AlertedJob(js[i]) != j {
        assert RowOk(js[i]) && RowOk(js[k]);
        if i < k { assert js[i].key != js[k].key; } else { assert js[k].key != js[i].key; }
      }
      assert AlertedBy(js, alerts) == AlertedBy(js, rest) + {j};
    }
  }

  lemma {:induction false} SubsetIsSmaller(a: set<nat>, b: set<nat>)
    requires a <= b
    ensures |a| <= |b|
    decreases a
  {
    if a != {} {
      var x :| x in a;
      SubsetIsSmaller(a - {x}, b - {x});
    }
  }

  /** There are exactly as many alerts as turn chunks that ran out of attempts, so alerts never add more jobs than the
      turns themselves. */
  lemma AlertsAreConserved(js: seq<Job>, spans: map<nat, Span>, acked: map<nat, string>, nextId: nat)
    requires QueueOk(js, spans, acked, nextId)
    ensures |AlertRows(js)| == |GivenUpRows(js)| <= |RealTurnRows(js)|
  {
    forall k | k in AlertRows(js) ensures RowOk(js[k]) {}
    AlertedByIsOneToOne(js, AlertRows(js));
    forall j | j in GivenUpRows(js) ensures j in AlertedBy(js, AlertRows(js)) {
      assert HasAlert(js, j);
      var k :| 0 <= k < |js| && js[k].group == Some(AlertGroup(j));
      assert k in AlertRows(js);
    }
    assert AlertedBy(js, AlertRows(js)) == GivenUpRows(js);
    SubsetIsSmaller(GivenUpRows(js), RealTurnRows(js));
  }
}
