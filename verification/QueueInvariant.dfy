/** The outbound queue: what every step keeps. */
module QueueInvariant {
  import opened Schema
  import opened World
  import opened Jobs
  import opened OutboundTx

  // ---- The invariant ----

  /** Attempt budgets per kind: six for a turn, five for a card, two for anything else. */
  predicate AttemptsOk(job: Job) {
    match job.kind
    case SessionTurn =>
      && 0 <= job.attempts <= TURN_MAX_ATTEMPTS
      && (job.state.Queued? ==> job.attempts == 0 && job.next == None)
      && (job.state.Unknown? ==> 1 <= job.attempts < TURN_MAX_ATTEMPTS && job.next.Some?)
      && (job.state.Sending? || job.state.Sent? ==> 1 <= job.attempts)
    case ApprovalCard =>
      && 0 <= job.attempts <= CARD_REARM_MAX_ATTEMPTS
      && (job.state.Queued? ==> job.attempts < CARD_REARM_MAX_ATTEMPTS)
      && (job.state.Unknown? && job.next.Some? ==> job.attempts < MAX_SEND_ATTEMPTS)
    case _ =>
      && 0 <= job.attempts <= MAX_SEND_ATTEMPTS
      && (job.state.Queued? ==> job.attempts == 0)
      && (job.state.Unknown? && job.next.Some? ==> job.attempts < MAX_SEND_ATTEMPTS)
  }

  predicate RowOk(job: Job) {
    && AttemptsOk(job)
    && (IsTurn(job) <==> job.group.Some?)
    && (IsTurn(job) ==> job.binding.Some? && job.key == KTurn(job.group.value, job.chunk))
    && (job.key.KTurn? ==> IsTurn(job))
    && (IsAlertTurn(job) ==> job.chunk == 0)
  }

  predicate OfTurn(job: Job, g: nat) { job.group == Some(TurnGroup(g)) }

  /** A chunk of a real turn sits in its turn's span, says what the turn said there, and was sent saying so. */
  predicate InSpan(js: seq<Job>, j: nat, spans: map<nat, Span>, acked: map<nat, string>)
    requires j < |js|
  {
    var job := js[j];
    job.group.Some? && job.group.value.TurnGroup? ==>
      var g := job.group.value.id;
      && g in spans
      && spans[g].base <= j < spans[g].base + |spans[g].chunks|
      && job.chunk == j - spans[g].base
      && job.binding == Some(spans[g].binding)
      && (job.body.Some? ==> job.body.value == spans[g].chunks[job.chunk])
      && (!job.state.Terminal() ==> job.body.Some?)
      && (job.state.Sent? ==> j in acked && acked[j] == spans[g].chunks[job.chunk])
  }

  ghost predicate SpansOk(js: seq<Job>, spans: map<nat, Span>, acked: map<nat, string>, nextId: nat) {
    && (forall g :: g in spans ==> g < nextId && 0 < |spans[g].chunks| && spans[g].base + |spans[g].chunks| <= |js|)
    && (forall g, j :: g in spans && spans[g].base <= j < spans[g].base + |spans[g].chunks| ==> OfTurn(js[j], g))
    && (forall j :: 0 <= j < |js| ==> InSpan(js, j, spans, acked))
  }

  /** A chunk that was ever sent out follows a chunk that was sent. */
  ghost predicate ChunksInOrder(js: seq<Job>) {
    forall j :: 0 <= j < |js| && IsTurn(js[j]) && js[j].chunk > 0 && js[j].attempts > 0
      ==> 0 < j && js[j - 1].group == js[j].group && js[j - 1].state.Sent?
  }

  predicate SameBindingOtherTurn(a: Job, b: Job) {
    IsTurn(a) && IsTurn(b) && a.binding == b.binding && a.group != b.group
  }

  /** Once a turn's job was sent out, every job of every earlier turn of its binding is over. */
  ghost predicate NoOvertaking(js: seq<Job>) {
    forall p, j :: 0 <= p < j < |js| && SameBindingOtherTurn(js[p], js[j]) && js[j].attempts > 0
      ==> js[p].state.Terminal()
  }

  ghost predicate HasAlert(js: seq<Job>, j: nat) {
    exists k :: 0 <= k < |js| && js[k].group == Some(AlertGroup(j))
  }

  predicate GaveUp(job: Job) {
    job.group.Some? && job.group.value.TurnGroup? && job.state.Failed? && job.error.Exhausted?
  }

  /** A real turn chunk has an alert exactly when it ran out of attempts. */
  ghost predicate AlertsMatch(js: seq<Job>) {
    && (forall j :: 0 <= j < |js| && GaveUp(js[j]) ==> HasAlert(js, j))
    && (forall k :: 0 <= k < |js| && js[k].group.Some? && js[k].group.value.AlertGroup? ==>
          js[k].group.value.job < k && GaveUp(js[js[k].group.value.job])
          && js[js[k].group.value.job].binding == js[k].binding)
  }

  ghost predicate QueueOk(js: seq<Job>, spans: map<nat, Span>, acked: map<nat, string>, nextId: nat) {
    && (forall j :: 0 <= j < |js| ==> RowOk(js[j]))
    && KeysUnique(js)
    && SpansOk(js, spans, acked, nextId)
    && ChunksInOrder(js)
    && NoOvertaking(js)
    && AlertsMatch(js)
  }

  // ---- What holds at the daemon's positions ----

  ghost predicate OneSending(js: seq<Job>) {
    forall i, j :: 0 <= i < |js| && 0 <= j < |js| && js[i].state.Sending? && js[j].state.Sending? ==> i == j
  }

  ghost predicate NoneSending(js: seq<Job>) {
    forall i :: 0 <= i < |js| ==> !js[i].state.Sending?
  }

  ghost predicate Blocked(js: seq<Job>, p: nat)
    requires p < |js|
  {
    exists u :: 0 <= u < p && IsTurn(js[u]) && js[u].binding == js[p].binding && js[u].state.Unknown?
  }

  /** tick reached position k: every queued turn it read is still ahead, or waits behind a turn in doubt. */
  ghost predicate TickOk(js: seq<Job>, len: nat, rows: seq<nat>, k: nat) {
    && len <= |js| && k <= |rows| && Sorted(rows)
    && (forall a :: 0 <= a < |rows| ==> rows[a] < len)
    && (forall p :: 0 <= p < len && IsTurn(js[p]) && js[p].state.Queued? ==>
          p in rows && (p in rows[k..] || Blocked(js, p)))
  }

  ghost predicate AtPosition(js: seq<Job>, d: Daemon) {
    match d
    case Down => OneSending(js)
    case Reconciling(_, rows, k) =>
      && OneSending(js) && k <= |rows| && (forall a :: 0 <= a < |rows| ==> rows[a] < |js| && IsTurn(js[rows[a]]))
      && (forall j :: 0 <= j < |js| && NeedsReconcile(js[j]) ==> j in rows[k..])
    case Sweeping(_, stage) =>
      && OneSending(js) && 2 <= stage <= 5
      && (forall j :: 0 <= j < |js| ==> !NeedsReconcile(js[j]))
      && (stage >= 3 ==> forall j :: 0 <= j < |js| && js[j].state.Sending? && !IsTurn(js[j])
                           ==> js[j].attempts < MAX_SEND_ATTEMPTS)
      && (stage >= 4 ==> NoneSending(js))
    case Ticking(len, rows, k, _) => NoneSending(js) && TickOk(js, len, rows, k)
    case InFlight(len, rows, k, _) =>
      && k < |rows| && TickOk(js, len, rows, k + 1) && rows[k] < |js|
      && js[rows[k]].state.Sending? && OneSending(js)
    case _ => NoneSending(js)
  }

  // ---- Rows evolving in place ----

  /** Nothing but the sending state of a row changes; what is over for a turn stays over. */
  predicate RowStep(a: Job, b: Job) {
    && b.kind == a.kind && b.binding == a.binding && b.group == a.group && b.chunk == a.chunk && b.key == a.key
    && b.chat == a.chat
    && (b.body == a.body || (a.state.Terminal() && b.body == None))
    && (IsTurn(a) && a.state.Terminal() ==> b.state == a.state && b.error == a.error && b.attempts == a.attempts)
  }

  ghost predicate Evolves(js: seq<Job>, js': seq<Job>) {
    |js| <= |js'| && forall i :: 0 <= i < |js| ==> RowStep(js[i], js'[i])
  }

  predicate AttemptsKept(a: Job, b: Job) {
    IsTurn(a) ==> b.attempts == a.attempts
  }

  /** Rows kept in place, none newly sent, and no new chunk of a real turn. */
  lemma SpansKept(js: seq<Job>, js': seq<Job>, spans: map<nat, Span>, acked: map<nat, string>, nextId: nat)
    requires SpansOk(js, spans, acked, nextId) && Evolves(js, js')
    requires forall i :: 0 <= i < |js| && IsTurn(js[i]) && js'[i].state.Sent? ==> js[i].state.Sent?
    requires forall i :: 0 <= i < |js| && js[i].group.Some? ==> IsTurn(js[i])
    requires forall i :: |js| <= i < |js'| ==> !(js'[i].group.Some? && js'[i].group.value.TurnGroup?)
    ensures SpansOk(js', spans, acked, nextId)
  {
    forall g, j | g in spans && spans[g].base <= j < spans[g].base + |spans[g].chunks| ensures OfTurn(js'[j], g) {
      assert OfTurn(js[j], g);
      assert RowStep(js[j], js'[j]);
    }
    forall j | 0 <= j < |js'| ensures InSpan(js', j, spans, acked) {
      if j < |js| { assert InSpan(js, j, spans, acked) && RowStep(js[j], js'[j]); }
    }
  }

  /** With no turn newly sent out, the orders between chunks and between turns stay. */
  lemma OrdersKept(js: seq<Job>, js': seq<Job>)
    requires ChunksInOrder(js) && NoOvertaking(js) && Evolves(js, js')
    requires forall i :: 0 <= i < |js| ==> AttemptsKept(js[i], js'[i])
    requires forall i :: 0 <= i < |js| ==> (js[i].group.Some? <==> IsTurn(js[i]))
    requires forall i :: |js| <= i < |js'| ==> js'[i].attempts == 0
    ensures ChunksInOrder(js') && NoOvertaking(js')
  {}

  /** No turn newly gives up and no alert is added. */
  lemma AlertsKept(js: seq<Job>, js': seq<Job>)
    requires AlertsMatch(js) && Evolves(js, js')
    requires forall i :: 0 <= i < |js| && js[i].group.Some? ==> IsTurn(js[i])
    requires forall i :: 0 <= i < |js| && GaveUp(js'[i]) ==> GaveUp(js[i])
    requires forall i :: |js| <= i < |js'| ==> !IsAlertTurn(js'[i]) && !GaveUp(js'[i])
    ensures AlertsMatch(js')
  {}

  lemma KeysKept(js: seq<Job>, js': seq<Job>)
    requires KeysUnique(js) && Evolves(js, js') && |js| == |js'|
    ensures KeysUnique(js')
  {}

  /** The common case: rows change in place, no turn is newly sent out, acknowledged or given up. */
  lemma QueueKept(js: seq<Job>, js': seq<Job>, spans: map<nat, Span>, acked: map<nat, string>, nextId: nat)
    requires QueueOk(js, spans, acked, nextId) && Evolves(js, js') && KeysUnique(js')
    requires forall i :: 0 <= i < |js'| ==> RowOk(js'[i])
    requires forall i :: 0 <= i < |js| ==> AttemptsKept(js[i], js'[i])
    requires forall i :: 0 <= i < |js| && IsTurn(js[i]) && js'[i].state.Sent? ==> js[i].state.Sent?
    requires forall i :: 0 <= i < |js| && GaveUp(js'[i]) ==> GaveUp(js[i])
    requires forall i :: |js| <= i < |js'| ==> FreshNonTurn(js'[i])
    ensures QueueOk(js', spans, acked, nextId)
  {
    SpansKept(js, js', spans, acked, nextId);
    OrdersKept(js, js');
    AlertsKept(js, js');
  }

  // ---- The other actors ----

  lemma QuietRowFacts(a: Job, b: Job)
    requires QuietJob(a, b) && RowOk(a)
    ensures RowStep(a, b) && RowOk(b) && AttemptsKept(a, b)
    ensures b.state.Sending? <==> a.state.Sending?
    ensures IsTurn(a) && b.state.Sent? ==> a.state.Sent?
    ensures GaveUp(b) ==> GaveUp(a)
    ensures NeedsReconcile(b) ==> NeedsReconcile(a)
    ensures IsTurn(a) && b.state.Queued? ==> a.state.Queued?
    ensures b.state.Sending? ==> b == a
    ensures IsTurn(a) && a.state.Unknown? && !b.state.Unknown? ==> b.state.Cancelled?
  {}

  lemma QuietKeepsQueue(js: seq<Job>, js': seq<Job>, spans: map<nat, Span>, acked: map<nat, string>, nextId: nat)
    requires QueueOk(js, spans, acked, nextId) && QuietRows(js, js')
    ensures QueueOk(js', spans, acked, nextId)
  {
    forall i | 0 <= i < |js|
      ensures RowStep(js[i], js'[i]) && RowOk(js'[i]) && AttemptsKept(js[i], js'[i])
              && (IsTurn(js[i]) && js'[i].state.Sent? ==> js[i].state.Sent?) && (GaveUp(js'[i]) ==> GaveUp(js[i]))
    {
      QuietRowFacts(js[i], js'[i]);
    }
    forall i | |js| <= i < |js'| ensures RowOk(js'[i]) { assert FreshNonTurn(js'[i]); }
    QueueKept(js, js', spans, acked, nextId);
  }

  lemma QuietKeepsTick(js: seq<Job>, js': seq<Job>, len: nat, rows: seq<nat>, k: nat)
    requires forall i :: 0 <= i < |js| ==> RowOk(js[i])
    requires Quiet(js, js') && TickOk(js, len, rows, k)
    ensures TickOk(js', len, rows, k)
  {}

  lemma QuietKeepsSending(js: seq<Job>, js': seq<Job>)
    requires (forall i :: 0 <= i < |js| ==> RowOk(js[i])) && QuietRows(js, js')
    ensures OneSending(js) ==> OneSending(js')
    ensures NoneSending(js) ==> NoneSending(js')
    ensures forall i :: 0 <= i < |js'| && js'[i].state.Sending? ==> i < |js| && js'[i] == js[i]
    ensures forall i :: 0 <= i < |js| && js[i].state.Sending? ==> js'[i] == js[i]
  {
    forall i | 0 <= i < |js'|
      ensures js'[i].state.Sending? ==> i < |js| && js'[i] == js[i]
      ensures i < |js| && js[i].state.Sending? ==> js'[i] == js[i]
    {
      if i < |js| { QuietRowFacts(js[i], js'[i]); } else { assert FreshNonTurn(js'[i]); }
    }
  }

  /** Whatever the other actors do, wherever the daemon stands, the queue's invariant survives. */
  lemma QuietKeepsPosition(js: seq<Job>, js': seq<Job>, d: Daemon)
    requires (forall i :: 0 <= i < |js| ==> RowOk(js[i])) && Quiet(js, js') && AtPosition(js, d)
    ensures AtPosition(js', d)
  {
    QuietKeepsSending(js, js');
    forall j | 0 <= j < |js'| ensures NeedsReconcile(js'[j]) ==> j < |js| && NeedsReconcile(js[j]) {
      if j < |js| { QuietRowFacts(js[j], js'[j]); } else { assert FreshNonTurn(js'[j]); }
    }
    assert forall i :: 0 <= i < |js| ==> js'[i].kind == js[i].kind;
    match d
    case Ticking(len, rows, k, _) => QuietKeepsTick(js, js', len, rows, k);
    case InFlight(len, rows, k, _) => QuietKeepsTick(js, js', len, rows, k + 1);
    case _ =>
  }
}
