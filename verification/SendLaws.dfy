/** What the sender's steps lead to in every state of the queue, told from the rows and the answers alone. */
module SendLaws {
  import opened Schema
  import opened World
  import opened Jobs
  import opened OutboundTx
  import opened Machine
  import opened Scripts
  import opened QueueInvariant
  import opened QueueSteps
  import opened QueueClaims
  import opened QueueRun
  import QueueHistory

  // ---- After the call ----

  /** A turn has this many transmissions when the network may recover, and this many when it may not. */
  function Transmissions(retryable: bool): int { if retryable then 6 else 2 }

  /** How long a turn in doubt rests before it goes out again. */
  function Rest(attempts: int, retryable: bool): int {
    if !retryable then 15_000
    else if attempts == 1 then 8_000
    else if attempts == 2 then 16_000
    else if attempts == 3 then 32_000
    else 45_000
  }

  /** The job in flight, before and after its answer. A turn in doubt is given up exactly when it has used up its
      transmissions and otherwise goes out again after its rest; anything else in doubt goes out once more at most. */
  predicate Answered(a: Job, b: Job, outcome: Outcome, now: int) {
    && b == a.(state := b.state, next := b.next, error := b.error, sentMsg := b.sentMsg)
    && (match outcome
        case WasSent(message) => b.state.Sent? && b.sentMsg == message && b.next == a.next
        case WasRefused => b.state.Failed? && b.error.Permanent? && b.sentMsg == a.sentMsg
        case InDoubt(retryable) =>
          && b.sentMsg == a.sentMsg
          && (if IsTurn(a) then
                && (b.state.Failed? <==> a.attempts >= Transmissions(retryable))
                && (b.state.Failed? ==> b.error.Exhausted?)
                && (!b.state.Failed? ==> b.state.Unknown? && b.next == Some(now + Rest(a.attempts, retryable)))
              else
                b.state.Unknown? && b.next == if a.attempts < 2 then Some(now + 15_000) else None))
  }

  /** The alert for a real turn's chunk that was given up. */
  predicate AlertOf(job: Job, a: Job, j: nat) {
    && IsTurn(job) && job.group == Some(AlertGroup(j)) && job.binding == a.binding && job.chat == a.chat
    && job.state.Queued? && job.attempts == 0 && job.next.None?
  }

  lemma FinalJobAnswers(a: Job, outcome: Outcome, now: int)
    requires RowOk(a) && a.state.Sending?
    ensures Answered(a, FinalJob(a, outcome, now), outcome, now)
    ensures FinalJob(a, outcome, now).error.Exhausted? && FinalJob(a, outcome, now).state.Failed? <==>
              outcome.InDoubt? && IsTurn(a) && a.attempts >= Transmissions(outcome.retryable)
  {
    assert Pow2(0) == 1 && Pow2(1) == 2 && Pow2(2) == 4 && Pow2(3) == 8 && Pow2(4) == 16;
  }

  /** The queue after the answer to the call of job j. */
  ghost predicate QueueAnswered(js: seq<Job>, js': seq<Job>, j: nat, outcome: Outcome, now: int)
    requires j < |js|
  {
    var gaveUp := outcome.InDoubt? && IsTurn(js[j]) && js[j].attempts >= Transmissions(outcome.retryable);
    && |js'| == |js| + (if gaveUp && !IsAlertTurn(js[j]) then 1 else 0)
    && Answered(js[j], js'[j], outcome, now)
    && (forall i :: 0 <= i < |js| && i != j ==> js'[i] == js[i])
    && (forall i :: |js| <= i < |js'| ==> AlertOf(js'[i], js[j], j))
  }

  /** A card that was sent is noted in its approval, unless the approval has one. */
  ghost predicate CardNoted(ps: seq<Pending>, ps': seq<Pending>, job: Job, outcome: Outcome) {
    && |ps'| == |ps|
    && forall p :: 0 <= p < |ps| ==>
         ps'[p] == if outcome.WasSent? && outcome.message.Some? && job.kind.ApprovalCard? && job.refPending == Some(p)
                      && ps[p].card.None?
                   then ps[p].(card := outcome.message) else ps[p]
  }

  lemma FinalizeAnswers(w: World, j: nat, outcome: Outcome, now: int)
    requires QueueAt(w) && j < |w.t.jobs| && w.t.jobs[j].state.Sending?
    ensures QueueAnswered(w.t.jobs, FinalizeJobs(w.t.jobs, j, outcome, now), j, outcome, now)
  {
    hide Next, Run;
    assert RowOk(w.t.jobs[j]);
    FinalJobAnswers(w.t.jobs[j], outcome, now);
    NoAlertBefore(w.t.jobs, w.hist.spans, w.hist.acked, w.t.nextId, j, FinalJob(w.t.jobs[j], outcome, now));
  }

  /** The call's answer settles exactly the job in flight, alerts exactly for a real turn given up, and notes a sent card
      in its approval. */
  lemma AnswerSettles(w: World, outcome: Outcome, now: int)
    requires (hide Next, Run; QueueAt(w) && w.daemon.InFlight?)
    ensures w.daemon.k < |w.daemon.rows| && w.daemon.rows[w.daemon.k] < |w.t.jobs|
    ensures var j, t' := w.daemon.rows[w.daemon.k], Next(w, BySender(Finish(outcome, now))).t;
            && w.t.jobs[j].state.Sending? && QueueAnswered(w.t.jobs, t'.jobs, j, outcome, now)
            && CardNoted(w.t.pendings, t'.pendings, w.t.jobs[j], outcome)
            && t' == w.t.(jobs := t'.jobs, pendings := t'.pendings)
  {
    hide Run, StepIntake, StepWorker, StepCli, StepHook, StepListener;
    hide FinalizeJobs;
    FinalizeAnswers(w, w.daemon.rows[w.daemon.k], outcome, now);
  }

  // ---- Before the call ----

  /** The chunk before this one will never be sent. */
  predicate CutOff(js: seq<Job>, j: nat)
    requires j < |js|
  {
    IsTurn(js[j]) && js[j].chunk > 0 && 0 < j && (js[j - 1].state.Failed? || js[j - 1].state.Cancelled?)
  }

  /** The job has to wait: for the chunk before it, for an earlier turn of its binding that is in doubt or in flight, or,
      as a notice, for an earlier one of its chat that is not over. */
  predicate HeldBack(js: seq<Job>, j: nat)
    requires j < |js|
  {
    || (IsTurn(js[j]) && js[j].chunk > 0 && 0 < j && !js[j - 1].state.Terminal())
    || (IsTurn(js[j]) && exists p :: 0 <= p < j && SameBindingOtherTurn(js[p], js[j])
                                     && (js[p].state.Unknown? || js[p].state.Sending?))
    || (js[j].kind.Notice() && exists p :: 0 <= p < j && js[p].kind.Notice() && js[p].chat == js[j].chat
                                           && !js[p].state.Terminal())
  }

  predicate StatusIs(t: Tables, b: Option<nat>, status: Status) {
    b.Some? && b.value < |t.bindings| && t.bindings[b.value].status == status
  }

  predicate MessageIs(t: Tables, m: Option<nat>, state: InboxState) {
    m.Some? && m.value < |t.inbox| && t.inbox[m.value].state == state
  }

  /** What the job would say is still so: a turn and a card have an active binding, a card an open approval without a card,
      a notice tells what the tables say, and the message a receipt is for was not dropped. */
  predicate StillTrue(t: Tables, job: Job) {
    match job.kind
    case SessionTurn => StatusIs(t, job.binding, Active)
    case ApprovalCard =>
      && StatusIs(t, job.binding, Active) && job.refPending.Some? && job.refPending.value < |t.pendings|
      && t.pendings[job.refPending.value].state.PPending? && t.pendings[job.refPending.value].card.None?
    case DecisionNotice =>
      if job.expected.ExpectPend? then
        && !job.expected.pend.PPending? && job.refPending.Some? && job.refPending.value < |t.pendings|
        && t.pendings[job.refPending.value].state == job.expected.pend
      else job.expected == ExpectInbox(FailedIn) && MessageIs(t, job.refMsg, FailedIn)
    case LifecycleNotice =>
      if job.expected.ExpectClosed? then
        && StatusIs(t, job.binding, job.expected.status)
        && t.bindings[job.binding.value].reason == Some(job.expected.reason)
      else job.expected.ExpectActive? && StatusIs(t, job.binding, Active)
    case UnsupportedNotice => MessageIs(t, job.refMsg, Unsupported)
    case InboundNotice => job.expected.ExpectInbox? && MessageIs(t, job.refMsg, job.expected.inbox)
    case ReceiptReaction =>
      job.refDelivery.Some? && job.refDelivery.value < |t.deliveries|
      && !t.deliveries[job.refDelivery.value].state.DDropped?
  }

  predicate ChatAllows(cfg: Config, chat: nat) { cfg.allow == {} || chat in cfg.allow }

  /** A queued job whose back-off is over, or one in doubt whose retry time has come. */
  predicate TimeHasCome(job: Job, now: int) {
    if job.state.Queued? then job.next.None? || job.next.value <= now
    else job.state.Unknown? && job.next.Some? && job.next.value <= now
  }

  /** The row before and after the loop's look at it. */
  predicate Looked(t: Tables, cfg: Config, j: nat, b: Job, now: int, at: int)
    requires j < |t.jobs|
  {
    var a := t.jobs[j];
    var open := a.state.Queued? || a.state.Unknown?;
    var allowed, due := ChatAllows(cfg, a.chat), TimeHasCome(a, now);
    var goes := open && allowed && due && !CutOff(t.jobs, j) && !HeldBack(t.jobs, j) && StillTrue(t, a);
    var falls := open && (!allowed || (due && (CutOff(t.jobs, j) || (!HeldBack(t.jobs, j) && !StillTrue(t, a)))));
    b == if goes then a.(state := Sending, sendingAt := Some(at), attempts := a.attempts + 1)
         else if falls then a.(state := Cancelled)
         else a
  }

  lemma GateIs(js: seq<Job>, spans: map<nat, Span>, acked: map<nat, string>, nextId: nat, j: nat)
    requires QueueOk(js, spans, acked, nextId) && j < |js| && js[j].state.Retryable()
    ensures OrderGate(js, j).Abandon? <==> CutOff(js, j)
    ensures OrderGate(js, j).Wait? <==> !CutOff(js, j) && HeldBack(js, j)
  {
    assert RowOk(js[j]);
    if IsTurn(js[j]) {
      if js[j].chunk > 0 { PrevChunkIsBefore(js, spans, acked, nextId, j); }
      InDoubtIs(js, j);
    }
  }

  lemma InDoubtIs(js: seq<Job>, j: nat)
    requires (forall i :: 0 <= i < |js| ==> RowOk(js[i])) && j < |js| && IsTurn(js[j])
    ensures EarlierTurnInDoubt(js, j)
            <==> exists p :: 0 <= p < j && SameBindingOtherTurn(js[p], js[j])
                             && (js[p].state.Unknown? || js[p].state.Sending?)
  {
    forall p | 0 <= p < j
      ensures js[p].kind.SessionTurn? && js[p].binding == js[j].binding && js[p].group.Some? && js[p].group != js[j].group
              <==> SameBindingOtherTurn(js[p], js[j])
    {
      assert RowOk(js[p]);
    }
  }

  lemma PrepareLooks(t: Tables, cfg: Config, spans: map<nat, Span>, acked: map<nat, string>, j: nat, now: int, at: int)
    requires QueueOk(t.jobs, spans, acked, t.nextId) && j < |t.jobs|
    ensures Looked(t, cfg, j, PrepareJob(t, cfg, j, now, at), now, at)
  {
    assert RowOk(t.jobs[j]);
    if t.jobs[j].state.Retryable() { GateIs(t.jobs, spans, acked, t.nextId, j); }
    hide OrderGate, QueueOk, CutOff, HeldBack;
  }

  /** The loop's look at a row decides exactly so, and touches nothing else. */
  lemma LookDecides(w: World, now: int, at: int)
    requires (hide Next, Run; QueueAt(w) && w.daemon.Ticking? && w.daemon.k < |w.daemon.rows|)
    requires w.daemon.sends < 20
    ensures w.daemon.rows[w.daemon.k] < |w.t.jobs|
    ensures var j, t' := w.daemon.rows[w.daemon.k], Next(w, BySender(PrepareNext(now, at))).t;
            && |t'.jobs| == |w.t.jobs| && Looked(w.t, w.cfg, j, t'.jobs[j], now, at)
            && t' == w.t.(jobs := w.t.jobs[j := t'.jobs[j]])
  {
    hide Run, StepIntake, StepWorker, StepCli, StepHook, StepListener;
    hide PrepareJob, Looked;
    PrepareLooks(w.t, w.cfg, w.hist.spans, w.hist.acked, w.daemon.rows[w.daemon.k], now, at);
  }

  /** Before the loop, the jobs of chats that are no longer allowed are cancelled if they could still be sent. */
  lemma DisallowedAreDropped(w: World)
    requires (hide Next, Run; w.daemon.Idle?)
    ensures var t' := Next(w, BySender(DropDisallowed)).t;
            && t' == w.t.(jobs := t'.jobs) && |t'.jobs| == |w.t.jobs|
            && forall j :: 0 <= j < |w.t.jobs| ==>
                 t'.jobs[j] == if (w.t.jobs[j].state.Queued? || w.t.jobs[j].state.Unknown?)
                                  && !ChatAllows(w.cfg, w.t.jobs[j].chat)
                               then w.t.jobs[j].(state := Cancelled) else w.t.jobs[j]
  {
    hide Run, StepIntake, StepWorker, StepCli, StepHook, StepListener;
  }

  /** A tick reads exactly the rows whose time has come, in order. */
  lemma SelectLeads(w: World, now: int)
    requires (hide Next, Run; w.daemon.Idle?)
    ensures var d := Next(w, BySender(Select(now, true))).daemon;
            && d.Ticking? && d.k == 0 && d.sends == 0 && Sorted(d.rows)
            && (forall a :: 0 <= a < |d.rows| ==> d.rows[a] < |w.t.jobs| && TimeHasCome(w.t.jobs[d.rows[a]], now))
            && forall j :: 0 <= j < |w.t.jobs| && TimeHasCome(w.t.jobs[j], now) ==> j in d.rows
  {
    hide Run, StepIntake, StepWorker, StepCli, StepHook, StepListener;
    SelectRowsAre(w.t.jobs, 0, DueAt(now));
  }

  // ---- A whole visit ----

  /** The row is looked at in the tables before the call, and if it goes, its answer settles it in the tables after. */
  ghost predicate VisitLed(w: World, w': World, v: Visit)
    requires w.daemon.Ticking? && w.daemon.k < |w.daemon.rows|
  {
    var j, w1 := w.daemon.rows[w.daemon.k], Run(w, v.before);
    var w2 := Next(w1, BySender(PrepareNext(v.now, v.at)));
    var w3 := Run(w2, v.during);
    && j < |w1.t.jobs| <= |w2.t.jobs| <= |w3.t.jobs| && Looked(w1.t, w1.cfg, j, w2.t.jobs[j], v.now, v.at)
    && (if w2.t.jobs[j].state.Sending? then
          w3.t.jobs[j] == w2.t.jobs[j] && QueueAnswered(w3.t.jobs, w'.t.jobs, j, v.outcome, v.answeredAt)
        else w'.t == w3.t)
  }

  /** Where the look leaves the daemon. */
  lemma LookMoves(w: World, now: int, at: int)
    requires (hide Next, Run; QueueAt(w) && w.daemon.Ticking? && w.daemon.k < |w.daemon.rows| && w.daemon.sends < 20)
    requires w.daemon.rows[w.daemon.k] < |w.t.jobs|
    ensures var d, w' := w.daemon, Next(w, BySender(PrepareNext(now, at)));
            && d.rows[d.k] < |w'.t.jobs|
            && w'.daemon == if w'.t.jobs[d.rows[d.k]].state.Sending? then InFlight(d.len, d.rows, d.k, d.sends)
                            else Ticking(d.len, d.rows, d.k + 1, d.sends)
  {
    hide Run, StepIntake, StepWorker, StepCli, StepHook, StepListener;
  }

  lemma {:induction false} SendingStays(w: World, acts: seq<Act>)
    requires (hide Next, Run; QueueAt(w) && AllForeign(acts) && w.daemon.InFlight?)
    ensures QueueAt(Run(w, acts)) && Run(w, acts).daemon == w.daemon
    ensures var j := w.daemon.rows[w.daemon.k];
            j < |w.t.jobs| <= |Run(w, acts).t.jobs| && Run(w, acts).t.jobs[j] == w.t.jobs[j]
    decreases |acts|
  {
    hide Next;
    if acts != [] {
      var w1, j := Next(w, acts[0]), w.daemon.rows[w.daemon.k];
      QueueStep(w, acts[0]);
      ForeignStep(w, acts[0]);
      OthersLeaveQueue(w, acts[0]);
      OneStays(w.t.jobs, w1.t.jobs, j);
      SendingStays(w1, acts[1..]);
    }
  }

  lemma OneStays(js: seq<Job>, js': seq<Job>, j: nat)
    requires QuietRows(js, js') || TurnsAppended(js, js')
    requires j < |js| && js[j].state.Sending?
    ensures |js| <= |js'| && js'[j] == js[j]
  {
    assert QuietRows(js, js') ==> QuietJob(js[j], js'[j]);
  }

  /** Whatever others do before the look and during the call. */
  lemma VisitLeads(w: World, v: Visit)
    requires (hide Next, Run; QueueAt(w) && ForeignVisit(v) && w.daemon.Ticking? && w.daemon.k < |w.daemon.rows|)
    requires w.daemon.sends < 20
    ensures VisitLed(w, Visited(w, v), v)
  {
    hide Next, Run;
    var j, w1 := w.daemon.rows[w.daemon.k], Run(w, v.before);
    var w2 := Next(w1, BySender(PrepareNext(v.now, v.at)));
    var w3 := Run(w2, v.during);
    QueueRunKeeps(w, v.before);
    ForeignLeavesDaemon(w, v.before);
    LookDecides(w1, v.now, v.at);
    LookMoves(w1, v.now, v.at);
    QueueStep(w1, BySender(PrepareNext(v.now, v.at)));
    if w2.t.jobs[j].state.Sending? {
      SendingStays(w2, v.during);
      AnswerSettles(w3, v.outcome, v.answeredAt);
    } else {
      ForeignLeavesDaemon(w2, v.during);
      JobsGrow(w2, v.during);
      NoAnswer(w3, v.outcome, v.answeredAt);
    }
  }

  lemma NoAnswer(w: World, outcome: Outcome, now: int)
    requires !w.daemon.InFlight?
    ensures Next(w, BySender(Finish(outcome, now))) == w
  {
    hide Run, StepIntake, StepWorker, StepCli, StepHook, StepListener;
  }

  lemma JobsGrow(w: World, acts: seq<Act>)
    requires QueueAt(w)
    ensures |w.t.jobs| <= |Run(w, acts).t.jobs|
  {
    hide Next, Run;
    QueueHistory.EvolveRun(w, acts);
  }

  // ---- The start of the daemon ----

  predicate InDoubtNow(job: Job) { job.state.Sending? || job.state.Unknown? }

  /** A turn whose transmissions are used up, by whatever count. */
  predicate UsedUp(job: Job) { IsTurn(job) && InDoubtNow(job) && !(0 <= job.attempts < 6) }

  /** What one scan makes of a row: a used-up turn fails; a job caught in flight goes out again at once, unless it is no turn
      and was on its second attempt; what rested in doubt keeps resting, a turn without a time getting one and anything else
      that had its two attempts losing its. */
  function Rescued(job: Job, now: int): Job {
    if UsedUp(job) then job.(state := Failed, error := Exhausted)
    else if job.state.Sending? then
      job.(state := Unknown, error := CrashedMidSend,
           next := if IsTurn(job) || job.attempts < 2 then Some(now) else None)
    else if job.state.Unknown? && IsTurn(job) && job.next.None? then job.(next := Some(now))
    else if job.state.Unknown? && !IsTurn(job) && job.attempts >= 2 then job.(next := None)
    else job
  }

  /** From any job table: every row is rescued exactly so, every real turn that fails is alerted, and nothing else is added
      but such alerts. */
  lemma ScanLeads(js: seq<Job>, now: int)
    ensures var r := StartupScan(js, now);
            && |js| <= |r| && (forall j :: 0 <= j < |js| ==> r[j] == Rescued(js[j], now))
            && (forall j :: 0 <= j < |js| && UsedUp(js[j]) && !IsAlertTurn(js[j]) ==>
                  KeyUsed(r, KTurn(AlertGroup(j), 0)))
            && (forall k :: |js| <= k < |r| ==> r[k].state.Queued? && IsTurn(r[k]) && IsAlertTurn(r[k]))
  {
    SelectRowsAre(js, 0, NeedsReconcile);
    var rows := ReconcileRows(js);
    assert rows[0..] == rows;
    var js1 := ReconcileAll(js, rows, 0, now);
    ReconcileAllFails(js, rows, 0, now);
    AlertsOnly(js, rows, 0, now);
    SweptRows(js1, StartupScan(js, now), now);
    forall j | 0 <= j < |js| && UsedUp(js[j]) && !IsAlertTurn(js[j])
      ensures KeyUsed(StartupScan(js, now), KTurn(AlertGroup(j), 0))
    {
      ScanAlerts(js, now, j);
    }
  }

  lemma SweptRows(js: seq<Job>, r: seq<Job>, now: int)
    requires r == SweepAll(5, SweepAll(4, SweepAll(3, SweepAll(2, js, now), now), now), now)
    ensures |r| == |js| && forall j :: 0 <= j < |js| && !UsedUp(js[j]) ==> r[j] == Rescued(js[j], now)
    ensures forall j :: 0 <= j < |js| && js[j].state.Queued? ==> r[j] == js[j]
  {}

  lemma {:induction false} AlertsOnly(js: seq<Job>, rows: seq<nat>, k: nat, now: int)
    requires k <= |rows| && (forall a :: 0 <= a < |rows| ==> rows[a] < |js|) && Sorted(rows)
    ensures var r := ReconcileAll(js, rows, k, now);
            |js| <= |r| && forall i :: |js| <= i < |r| ==> IsTurn(r[i]) && IsAlertTurn(r[i])
    decreases |rows| - k
  {
    if k < |rows| {
      var js1 := ReconcileRow(js, rows[k], now);
      ReconcileRowFacts(js, rows[k], now);
      AlertsOnly(js1, rows, k + 1, now);
      ReconcileAllFails(js1, rows, k + 1, now);
    }
  }

  /** A start reads the rows to give up, and the allowlist of chats; nothing else starts a daemon that is up. */
  lemma BootLeads(w: World, allow: set<nat>, now: int)
    ensures (hide Next, Run; var w' := Next(w, BySender(Boot(allow, now)));
            if !w.daemon.Down? then w' == w
            else
              && w'.t == w.t && w'.cfg == w.cfg.(allow := allow)
              && w'.daemon.Reconciling? && w'.daemon.now == now && w'.daemon.k == 0 && Sorted(w'.daemon.rows)
              && (forall a :: 0 <= a < |w'.daemon.rows| ==>
                    w'.daemon.rows[a] < |w.t.jobs| && UsedUp(w.t.jobs[w'.daemon.rows[a]]))
              && forall j :: 0 <= j < |w.t.jobs| && UsedUp(w.t.jobs[j]) ==> j in w'.daemon.rows)
  {
    hide Run, StepIntake, StepWorker, StepCli, StepHook, StepListener;
    SelectRowsAre(w.t.jobs, 0, NeedsReconcile);
  }

  /** One row of the scan's first step: given up if it is still in doubt, with its alert. */
  lemma GiveUpLeads(w: World)
    requires (hide Next, Run; QueueAt(w) && w.daemon.Reconciling?)
    ensures var w', d := Next(w, BySender(ReconcileNext)), w.daemon;
            if d.k < |d.rows| then
              && d.rows[d.k] < |w.t.jobs| && w'.daemon == Reconciling(d.now, d.rows, d.k + 1)
              && (var j, js, js' := d.rows[d.k], w.t.jobs, w'.t.jobs;
                  if InDoubtNow(js[j]) then
                    && |js'| == |js| + (if IsAlertTurn(js[j]) then 0 else 1)
                    && js'[..|js|] == js[j := js[j].(state := Failed, error := Exhausted)]
                    && forall i :: |js| <= i < |js'| ==> AlertOf(js'[i], js[j], j)
                  else js' == js)
            else w'.t == w.t && w'.daemon == Sweeping(d.now, 2)
  {
    hide Run, StepIntake, StepWorker, StepCli, StepHook, StepListener;
    if w.daemon.k < |w.daemon.rows| {
      var js, j := w.t.jobs, w.daemon.rows[w.daemon.k];
      assert RowOk(js[j]);
      if InDoubtNow(js[j]) {
        NoAlertBefore(js, w.hist.spans, w.hist.acked, w.t.nextId, j, js[j].(state := Failed, error := Exhausted));
      }
    }
  }

  lemma NoAlertBefore(js: seq<Job>, spans: map<nat, Span>, acked: map<nat, string>, nextId: nat, j: nat, b: Job)
    requires QueueOk(js, spans, acked, nextId) && j < |js| && InDoubtNow(js[j]) && b.key == js[j].key
    ensures !KeyUsed(js[j := b], KTurn(AlertGroup(j), 0))
  {
    forall i | 0 <= i < |js| ensures js[i].key != KTurn(AlertGroup(j), 0) { assert RowOk(js[i]); }
  }

  /** The scan's later steps, row by row; the last leaves the daemon idle. */
  lemma SweepLeads(w: World)
    requires (hide Next, Run; w.daemon.Sweeping? && 2 <= w.daemon.stage <= 5)
    ensures var w', stage, now := Next(w, BySender(SweepNext)), w.daemon.stage, w.daemon.now;
            && w'.t == w.t.(jobs := w'.t.jobs) && |w'.t.jobs| == |w.t.jobs|
            && w'.daemon == (if stage < 5 then Sweeping(now, stage + 1) else Idle)
            && forall j :: 0 <= j < |w.t.jobs| ==>
                 var a, b := w.t.jobs[j], w'.t.jobs[j];
                 if stage == 2 then
                   b == if a.state.Sending? && !IsTurn(a) && a.attempts >= 2
                        then a.(state := Unknown, error := CrashedMidSend, next := None) else a
                 else if stage == 3 then
                   b == if a.state.Sending? then a.(state := Unknown, error := CrashedMidSend, next := Some(now)) else a
                 else if stage == 4 then
                   b == if a.state.Unknown? && IsTurn(a) && a.next.None? && 0 <= a.attempts < 6
                        then a.(next := Some(now)) else a
                 else
                   b == if a.state.Unknown? && !IsTurn(a) && a.attempts >= 2 then a.(next := None) else a
  {
    hide Run, StepIntake, StepWorker, StepCli, StepHook, StepListener;
  }

  /** A crash loses the daemon's place and nothing that is written. */
  lemma CrashLeads(w: World)
    ensures Next(w, BySender(Crash)) == w.(daemon := Down)
  {
    hide Run, StepIntake, StepWorker, StepCli, StepHook, StepListener;
  }
}
