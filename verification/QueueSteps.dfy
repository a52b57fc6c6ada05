/** The outbound queue: every step of the sender, and the queueing of a turn, keeps the invariant. */
module QueueSteps {
  import opened Schema
  import opened World
  import opened Jobs
  import opened OutboundTx
  import opened QueueInvariant
  import opened TurnText

  // ---- A Stop hook queues a turn ----

  lemma EnqueueIsAppend(js: seq<Job>, spans: map<nat, Span>, acked: map<nat, string>, nextId: nat, binding: nat,
                        chat: nat, chunks: seq<string>, now: int)
    requires QueueOk(js, spans, acked, nextId)
    ensures EnqueueTurn(js, nextId, binding, chat, chunks, 0, now) == js + TurnJobs(nextId, binding, chat, chunks, now)
    ensures forall i, c :: 0 <= i < |js| ==> js[i].key != KTurn(TurnGroup(nextId), c)
  {
    forall i, c | 0 <= i < |js| ensures js[i].key != KTurn(TurnGroup(nextId), c) {
      assert RowOk(js[i]) && InSpan(js, i, spans, acked);
    }
    EnqueueTurnAppends(js, nextId, binding, chat, chunks, 0, now);
    var added := TurnJobs(nextId, binding, chat, chunks, now);
    assert added[0..] == added;
  }

  lemma EnqueueKeepsQueue(js: seq<Job>, spans: map<nat, Span>, acked: map<nat, string>, nextId: nat, binding: nat,
                          chat: nat, chunks: seq<string>, now: int)
    requires QueueOk(js, spans, acked, nextId) && chunks != []
    ensures QueueOk(EnqueueTurn(js, nextId, binding, chat, chunks, 0, now),
                    spans[nextId := Span(|js|, binding, chunks)], acked, nextId + 1)
  {
    EnqueueIsAppend(js, spans, acked, nextId, binding, chat, chunks, now);
    var js' := js + TurnJobs(nextId, binding, chat, chunks, now);
    assert forall j :: 0 <= j < |js| ==> js'[j] == js[j];
    assert forall j :: |js| <= j < |js'| ==>
      js'[j] == TurnJob(TurnGroup(nextId), j - |js|, Some(binding), chat, chunks[j - |js|], now);
    AppendedKeepsQueue(js, js', spans, acked, nextId, binding, chat, chunks, now);
  }

  lemma AppendedKeepsQueue(js: seq<Job>, js': seq<Job>, spans: map<nat, Span>, acked: map<nat, string>, nextId: nat,
                           binding: nat, chat: nat, chunks: seq<string>, now: int)
    requires QueueOk(js, spans, acked, nextId) && chunks != [] && |js'| == |js| + |chunks|
    requires forall i, c :: 0 <= i < |js| ==> js[i].key != KTurn(TurnGroup(nextId), c)
    requires forall j :: 0 <= j < |js| ==> js'[j] == js[j]
    requires forall j :: |js| <= j < |js'| ==>
      js'[j] == TurnJob(TurnGroup(nextId), j - |js|, Some(binding), chat, chunks[j - |js|], now)
    ensures QueueOk(js', spans[nextId := Span(|js|, binding, chunks)], acked, nextId + 1)
  {
    AppendedSpan(js, js', spans, acked, nextId, binding, chat, chunks, now);
    AppendedKeys(js, js', nextId);
    forall j | 0 <= j < |js'| ensures RowOk(js'[j]) && (j >= |js| ==> js'[j].attempts == 0 && !GaveUp(js'[j])) {
      if j < |js| { assert RowOk(js[j]); }
    }
    assert forall j :: 0 <= j < |js| && js[j].group.Some? ==> RowOk(js[j]);
    OrdersKept(js, js');
    AlertsKept(js, js');
  }

  lemma AppendedKeys(js: seq<Job>, js': seq<Job>, g: nat)
    requires KeysUnique(js) && |js| <= |js'|
    requires forall i, c :: 0 <= i < |js| ==> js[i].key != KTurn(TurnGroup(g), c)
    requires forall j :: 0 <= j < |js| ==> js'[j] == js[j]
    requires forall j :: |js| <= j < |js'| ==> js'[j].key == KTurn(TurnGroup(g), j - |js|)
    ensures KeysUnique(js')
  {}

  lemma AppendedSpan(js: seq<Job>, js': seq<Job>, spans: map<nat, Span>, acked: map<nat, string>, nextId: nat,
                     binding: nat, chat: nat, chunks: seq<string>, now: int)
    requires SpansOk(js, spans, acked, nextId) && chunks != [] && |js'| == |js| + |chunks|
    requires forall j :: 0 <= j < |js| ==> js'[j] == js[j]
    requires forall j :: |js| <= j < |js'| ==>
      js'[j] == TurnJob(TurnGroup(nextId), j - |js|, Some(binding), chat, chunks[j - |js|], now)
    ensures SpansOk(js', spans[nextId := Span(|js|, binding, chunks)], acked, nextId + 1)
  {
    var spans' := spans[nextId := Span(|js|, binding, chunks)];
    forall j | 0 <= j < |js'| ensures InSpan(js', j, spans', acked) {
      if j < |js| { assert InSpan(js, j, spans, acked); }
    }
    forall g, j | g in spans' && spans'[g].base <= j < spans'[g].base + |spans'[g].chunks| ensures OfTurn(js'[j], g) {
      if g != nextId { assert OfTurn(js[j], g); }
    }
  }

  lemma EnqueueKeepsPosition(js: seq<Job>, added: seq<Job>, d: Daemon)
    requires AtPosition(js, d)
    requires forall i :: 0 <= i < |added| ==> added[i].state.Queued?
    ensures AtPosition(js + added, d)
  {
    var js' := js + added;
    assert forall i :: 0 <= i < |js| ==> js'[i] == js[i];
    assert forall i :: |js| <= i < |js'| ==> js'[i].state.Queued?;
    match d
    case Ticking(len, rows, k, _) => GrowKeepsTick(js, js', len, rows, k);
    case InFlight(len, rows, k, _) => GrowKeepsTick(js, js', len, rows, k + 1);
    case _ =>
  }

  lemma GrowKeepsTick(js: seq<Job>, js': seq<Job>, len: nat, rows: seq<nat>, k: nat)
    requires TickOk(js, len, rows, k) && |js| <= |js'|
    requires forall i :: 0 <= i < len ==> js'[i] == js[i]
    ensures TickOk(js', len, rows, k)
  {}

  // ---- tick: the selection ----

  /** Every queued turn of the table is among the rows tick reads. */
  lemma SelectStartsTick(js: seq<Job>, now: int)
    requires (forall i :: 0 <= i < |js| ==> RowOk(js[i])) && NoneSending(js)
    ensures AtPosition(js, Ticking(|js|, DueRows(js, now), 0, 0))
  {
    SelectRowsAre(js, 0, DueAt(now));
    var rows := DueRows(js, now);
    assert rows[0..] == rows;
    forall p | 0 <= p < |js| && IsTurn(js[p]) && js[p].state.Queued? ensures p in rows {
      assert RowOk(js[p]);
    }
  }

  lemma CancelDisallowedKeeps(js: seq<Job>, cfg: Config, spans: map<nat, Span>, acked: map<nat, string>, nextId: nat)
    requires QueueOk(js, spans, acked, nextId) && NoneSending(js)
    ensures QueueOk(CancelDisallowed(js, cfg), spans, acked, nextId) && NoneSending(CancelDisallowed(js, cfg))
  {
    var r := CancelDisallowed(js, cfg);
    assert QuietRows(js, r) by {
      forall i | 0 <= i < |js| ensures QuietJob(js[i], r[i]) && r[i].key == js[i].key {}
    }
    QuietKeepsQueue(js, r, spans, acked, nextId);
    QuietKeepsSending(js, r);
  }

  // ---- tick: _prepare on one row ----

  lemma InRest(rows: seq<nat>, k: nat, p: nat)
    requires Sorted(rows) && k < |rows| && p in rows[k..]
    ensures p == rows[k] || (p > rows[k] && p in rows[k + 1..])
  {}

  lemma PassedIsBefore(rows: seq<nat>, k: nat, p: nat)
    requires Sorted(rows) && k < |rows| && p in rows && p !in rows[k..]
    ensures p < rows[k]
  {}

  /** A queued turn the loop has passed is waiting behind a turn in doubt. */
  lemma PassedIsBlocked(js: seq<Job>, len: nat, rows: seq<nat>, k: nat, p: nat)
    requires TickOk(js, len, rows, k) && k < |rows| && p < rows[k]
    requires IsTurn(js[p]) && js[p].state.Queued?
    ensures Blocked(js, p)
  {}

  /** The heart of the matter: a turn that passes the gate finds every job of every earlier turn over. */
  lemma GateMeansEarlierTurnsOver(js: seq<Job>, spans: map<nat, Span>, acked: map<nat, string>, nextId: nat,
                                  len: nat, rows: seq<nat>, k: nat, p: nat)
    requires QueueOk(js, spans, acked, nextId) && NoneSending(js) && TickOk(js, len, rows, k) && k < |rows|
    requires p < rows[k] && SameBindingOtherTurn(js[p], js[rows[k]])
    requires !EarlierTurnInDoubt(js, rows[k])
    ensures js[p].state.Terminal()
  {
    var j := rows[k];
    assert RowOk(js[p]) && RowOk(js[j]);
    if js[p].state.Queued? {
      PassedIsBlocked(js, len, rows, k, p);
      var u :| 0 <= u < p && IsTurn(js[u]) && js[u].binding == js[p].binding && js[u].state.Unknown?;
      assert RowOk(js[u]);
      SameGroupBetween(js, spans, acked, nextId, u, p, j);
    }
  }

  /** Turns lie side by side: between two jobs of one turn there is no job of another. */
  lemma SameGroupBetween(js: seq<Job>, spans: map<nat, Span>, acked: map<nat, string>, nextId: nat,
                         u: nat, p: nat, j: nat)
    requires QueueOk(js, spans, acked, nextId) && u < p < j < |js|
    requires IsTurn(js[u]) && IsTurn(js[j]) && js[u].group == js[j].group
    ensures js[p].group == js[j].group
  {
    assert RowOk(js[u]) && RowOk(js[j]);
    assert InSpan(js, u, spans, acked) && InSpan(js, j, spans, acked);
    if js[u].group.value.TurnGroup? {
      assert OfTurn(js[p], js[u].group.value.id);
    } else {
      assert false;
    }
  }

  /** The chunk rule looks at the row just before. */
  lemma PrevChunkIsBefore(js: seq<Job>, spans: map<nat, Span>, acked: map<nat, string>, nextId: nat, j: nat)
    requires QueueOk(js, spans, acked, nextId) && j < |js| && IsTurn(js[j]) && js[j].chunk > 0
    ensures 0 < j && js[j - 1].group == js[j].group && PrevChunk(js, j) == Some(j - 1)
  {
    assert RowOk(js[j]) && InSpan(js, j, spans, acked);
    var g := js[j].group.value.id;
    assert OfTurn(js[j - 1], g) && InSpan(js, j - 1, spans, acked);
    assert js[j - 1].group == js[j].group && js[j - 1].chunk + 1 == js[j].chunk;
    var r := PrevChunk(js, j);
    assert InSpan(js, r.value, spans, acked);
  }

  /** Row j is decided: what PrepareJob does to it. */
  lemma PrepareRowFacts(t: Tables, cfg: Config, j: nat, now: int, at: int)
    requires j < |t.jobs| && RowOk(t.jobs[j])
    ensures var a, b, v := t.jobs[j], PrepareJob(t, cfg, j, now, at), PrepareVerdict(t, cfg, j, now);
            && RowStep(a, b) && RowOk(b) && !b.state.Sent? == !a.state.Sent? && (GaveUp(b) ==> GaveUp(a))
            && (v.Send? <==> b.state.Sending? && !a.state.Sending?)
            && (v.Send? ==> b.attempts == a.attempts + 1 && a.state.Retryable() && OrderGate(t.jobs, j).Pass?
                            && GuardOk(t, a))
            && (!v.Send? ==> b.attempts == a.attempts)
            && (a.state.Queued? && b.state.Queued? && IsTurn(a) ==> OrderGate(t.jobs, j).Wait?)
            && (b.state.Queued? ==> a.state.Queued?) && (b.state.Unknown? <==> a.state.Unknown? && v.Skip?)
  {}

  /** A turn the gate holds back waits behind a turn in doubt. */
  lemma WaitMeansBlocked(js: seq<Job>, spans: map<nat, Span>, acked: map<nat, string>, nextId: nat,
                         len: nat, rows: seq<nat>, k: nat)
    requires QueueOk(js, spans, acked, nextId) && NoneSending(js) && TickOk(js, len, rows, k) && k < |rows|
    requires IsTurn(js[rows[k]]) && OrderGate(js, rows[k]).Wait?
    ensures Blocked(js, rows[k])
  {
    var j := rows[k];
    assert RowOk(js[j]);
    if ChunkGate(js, j).Wait? {
      PrevChunkIsBefore(js, spans, acked, nextId, j);
      assert RowOk(js[j - 1]);
      assert InSpan(js, j, spans, acked) && InSpan(js, j - 1, spans, acked);
      if js[j - 1].state.Queued? {
        PassedIsBlocked(js, len, rows, k, j - 1);
      }
    }
  }

  lemma PrepareKeepsQueue(t: Tables, cfg: Config, spans: map<nat, Span>, acked: map<nat, string>,
                          len: nat, rows: seq<nat>, k: nat, now: int, at: int)
    requires QueueOk(t.jobs, spans, acked, t.nextId) && NoneSending(t.jobs) && TickOk(t.jobs, len, rows, k)
    requires k < |rows|
    ensures QueueOk(PrepareTx(t, cfg, rows[k], now, at).jobs, spans, acked, t.nextId)
  {
    var j := rows[k];
    var js, js' := t.jobs, PrepareTx(t, cfg, j, now, at).jobs;
    assert RowOk(js[j]);
    PrepareRowFacts(t, cfg, j, now, at);
    KeysKept(js, js');
    SpansKept(js, js', spans, acked, t.nextId);
    AlertsKept(js, js');
    if PrepareVerdict(t, cfg, j, now).Send? {
      PrepareKeepsOrders(t, cfg, spans, acked, len, rows, k, now, at);
    } else {
      OrdersKept(js, js');
    }
  }

  lemma PrepareKeepsOrders(t: Tables, cfg: Config, spans: map<nat, Span>, acked: map<nat, string>,
                           len: nat, rows: seq<nat>, k: nat, now: int, at: int)
    requires QueueOk(t.jobs, spans, acked, t.nextId) && NoneSending(t.jobs) && TickOk(t.jobs, len, rows, k)
    requires k < |rows| && PrepareVerdict(t, cfg, rows[k], now).Send?
    ensures ChunksInOrder(PrepareTx(t, cfg, rows[k], now, at).jobs)
    ensures NoOvertaking(PrepareTx(t, cfg, rows[k], now, at).jobs)
  {
    var j := rows[k];
    var js, js' := t.jobs, PrepareTx(t, cfg, j, now, at).jobs;
    assert RowOk(js[j]);
    PrepareRowFacts(t, cfg, j, now, at);
    forall i | 0 <= i < |js'| && IsTurn(js'[i]) && js'[i].chunk > 0 && js'[i].attempts > 0
      ensures 0 < i && js'[i - 1].group == js'[i].group && js'[i - 1].state.Sent?
    {
      if i == j { PrevChunkIsBefore(js, spans, acked, t.nextId, j); }
    }
    forall p, i | 0 <= p < i < |js'| && SameBindingOtherTurn(js'[p], js'[i]) && js'[i].attempts > 0
      ensures js'[p].state.Terminal()
    {
      if i == j { GateMeansEarlierTurnsOver(js, spans, acked, t.nextId, len, rows, k, p); }
    }
  }

  /** The loop goes on: to the next row, or to the network with row rows[k]. */
  lemma PrepareKeepsPosition(t: Tables, cfg: Config, spans: map<nat, Span>, acked: map<nat, string>,
                             len: nat, rows: seq<nat>, k: nat, sends: nat, now: int, at: int)
    requires QueueOk(t.jobs, spans, acked, t.nextId) && NoneSending(t.jobs) && TickOk(t.jobs, len, rows, k)
    requires k < |rows|
    ensures var js', v := PrepareTx(t, cfg, rows[k], now, at).jobs, PrepareVerdict(t, cfg, rows[k], now);
            AtPosition(js', if v.Send? then InFlight(len, rows, k, sends) else Ticking(len, rows, k + 1, sends))
  {
    var j := rows[k];
    var js, js' := t.jobs, PrepareTx(t, cfg, j, now, at).jobs;
    assert RowOk(js[j]);
    PrepareRowFacts(t, cfg, j, now, at);
    forall p | 0 <= p < len && IsTurn(js'[p]) && js'[p].state.Queued?
      ensures p in rows && (p in rows[k + 1..] || Blocked(js', p))
    {
      if p == j {
        WaitMeansBlocked(js, spans, acked, t.nextId, len, rows, k);
        BlockedElsewhere(js, js', j, p);
      } else if p in rows[k..] {
        InRest(rows, k, p);
      } else {
        PassedIsBefore(rows, k, p);
        BlockedElsewhere(js, js', j, p);
      }
    }
  }

  /** Row j being decided does not unblock an earlier row. */
  lemma BlockedElsewhere(js: seq<Job>, js': seq<Job>, j: nat, p: nat)
    requires p <= j < |js| == |js'| && Blocked(js, p)
    requires forall i :: 0 <= i < |js| && i != j ==> js'[i] == js[i]
    requires js'[j].binding == js[j].binding
    ensures Blocked(js', p)
  {}

  // ---- One row ends or is put back: _send_and_finalize and startup_scan ----

  /** Row j changes in place without being sent, sent out or given up. */
  lemma UpdateKeepsQueue(js: seq<Job>, j: nat, b: Job, spans: map<nat, Span>, acked: map<nat, string>, nextId: nat)
    requires QueueOk(js, spans, acked, nextId) && j < |js|
    requires RowStep(js[j], b) && RowOk(b) && AttemptsKept(js[j], b)
    requires IsTurn(b) && b.state.Sent? ==> js[j].state.Sent?
    requires GaveUp(b) ==> GaveUp(js[j])
    ensures QueueOk(js[j := b], spans, acked, nextId)
  {
    var js' := js[j := b];
    assert Evolves(js, js');
    KeysKept(js, js');
    QueueKept(js, js', spans, acked, nextId);
  }

  /** A turn is acknowledged: its body is what the turn said there. */
  lemma SentKeepsQueue(js: seq<Job>, j: nat, b: Job, spans: map<nat, Span>, acked: map<nat, string>, nextId: nat)
    requires QueueOk(js, spans, acked, nextId) && j < |js| && IsTurn(js[j])
    requires RowStep(js[j], b) && RowOk(b) && AttemptsKept(js[j], b) && b.state.Sent? && b.body == js[j].body
    requires js[j].state.Sending?
    ensures js[j].group.value.TurnGroup? ==> js[j].body.Some?
    ensures QueueOk(js[j := b], spans, acked[j := if js[j].body.Some? then js[j].body.value else ""], nextId)
  {
    var js' := js[j := b];
    assert Evolves(js, js');
    KeysKept(js, js');
    assert forall i :: 0 <= i < |js| ==> RowOk(js[i]);
    OrdersKept(js, js');
    AlertsKept(js, js');
    SentKeepsSpans(js, j, b, spans, acked, nextId);
  }

  lemma SentKeepsSpans(js: seq<Job>, j: nat, b: Job, spans: map<nat, Span>, acked: map<nat, string>, nextId: nat)
    requires SpansOk(js, spans, acked, nextId) && j < |js| && js[j].group.Some?
    requires RowStep(js[j], b) && b.state.Sent? && b.body == js[j].body && js[j].state.Sending?
    ensures js[j].group.value.TurnGroup? ==> js[j].body.Some?
    ensures SpansOk(js[j := b], spans, acked[j := if js[j].body.Some? then js[j].body.value else ""], nextId)
  {
    var js' := js[j := b];
    var acked' := acked[j := if js[j].body.Some? then js[j].body.value else ""];
    assert InSpan(js, j, spans, acked);
    forall i | 0 <= i < |js'| ensures InSpan(js', i, spans, acked') {
      assert InSpan(js, i, spans, acked);
    }
    forall g, i | g in spans && spans[g].base <= i < spans[g].base + |spans[g].chunks| ensures OfTurn(js'[i], g) {
      assert OfTurn(js[i], g);
    }
  }

  lemma NoAlertYet(js: seq<Job>, j: nat, spans: map<nat, Span>, acked: map<nat, string>, nextId: nat)
    requires QueueOk(js, spans, acked, nextId) && j < |js| && !js[j].state.Terminal()
    ensures !KeyUsed(js, KTurn(AlertGroup(j), 0))
  {}

  /** A real turn chunk runs out of attempts: it fails and its one alert is queued behind everything. */
  lemma GiveUpKeepsQueue(js: seq<Job>, j: nat, b: Job, now: int, spans: map<nat, Span>, acked: map<nat, string>,
                         nextId: nat)
    requires QueueOk(js, spans, acked, nextId) && j < |js| && !js[j].state.Terminal()
    requires RowStep(js[j], b) && RowOk(b) && AttemptsKept(js[j], b) && GaveUp(b) && b.chat == js[j].chat
    ensures AddJob(js[j := b], AlertFor(js[j := b], j, now)) == js[j := b] + [AlertFor(js[j := b], j, now)]
    ensures QueueOk(js[j := b] + [AlertFor(js[j := b], j, now)], spans, acked, nextId)
  {
    var js1 := js[j := b];
    var alert := AlertFor(js1, j, now);
    NoAlertYet(js, j, spans, acked, nextId);
    assert forall i :: 0 <= i < |js| ==> js1[i].key == js[i].key;
    assert !KeyUsed(js1, alert.key);
    AlertedKeepsQueue(js, js1 + [alert], j, b, spans, acked, nextId);
  }

  lemma AlertedKeepsQueue(js: seq<Job>, js': seq<Job>, j: nat, b: Job, spans: map<nat, Span>,
                          acked: map<nat, string>, nextId: nat)
    requires QueueOk(js, spans, acked, nextId) && j < |js| && |js'| == |js| + 1
    requires RowStep(js[j], b) && RowOk(b) && AttemptsKept(js[j], b) && GaveUp(b)
    requires js'[j] == b && forall i :: 0 <= i < |js| && i != j ==> js'[i] == js[i]
    requires RowOk(js'[|js|]) && js'[|js|].group == Some(AlertGroup(j)) && js'[|js|].binding == b.binding
    requires js'[|js|].attempts == 0
    requires !KeyUsed(js, js'[|js|].key)
    ensures QueueOk(js', spans, acked, nextId)
  {
    forall i | 0 <= i < |js| ensures RowStep(js[i], js'[i]) && RowOk(js'[i]) && AttemptsKept(js[i], js'[i]) {
      assert RowOk(js[i]);
    }
    assert forall i :: 0 <= i < |js| && js[i].group.Some? ==> RowOk(js[i]);
    assert forall i :: 0 <= i < |js| && IsTurn(js[i]) ==> RowOk(js[i]);
    AlertedKeys(js, js');
    SpansKept(js, js', spans, acked, nextId);
    OrdersKept(js, js');
    GiveUpMatches(js, js', j);
  }

  lemma AlertedKeys(js: seq<Job>, js': seq<Job>)
    requires KeysUnique(js) && |js'| == |js| + 1 && Evolves(js, js') && !KeyUsed(js, js'[|js|].key)
    ensures KeysUnique(js')
  {}

  lemma GiveUpMatches(js: seq<Job>, js': seq<Job>, j: nat)
    requires AlertsMatch(js) && Evolves(js, js') && j < |js| && |js'| == |js| + 1
    requires forall i :: 0 <= i < |js| && i != j ==> js'[i] == js[i]
    requires GaveUp(js'[j]) && js'[|js|].group == Some(AlertGroup(j)) && js'[|js|].binding == js'[j].binding
    requires js'[j].group == js[j].group && js'[j].binding == js[j].binding
    ensures AlertsMatch(js')
  {}

  function Acknowledge(acked: map<nat, string>, js: seq<Job>, j: nat, outcome: Outcome): map<nat, string>
    requires j < |js|
  {
    if outcome.WasSent? && IsTurn(js[j]) then acked[j := if js[j].body.Some? then js[j].body.value else ""]
    else acked
  }

  lemma FinalRowFacts(job: Job, outcome: Outcome, now: int)
    requires RowOk(job) && job.state.Sending?
    ensures var b := FinalJob(job, outcome, now);
            RowStep(job, b) && RowOk(b) && AttemptsKept(job, b) && !b.state.Sending? && !b.state.Queued?
            && b.body == job.body && b.chat == job.chat
            && (b.state.Sent? <==> outcome.WasSent?)
            && (GaveUp(b) <==> b.state.Failed? && b.error.Exhausted? && IsTurn(b) && !IsAlertTurn(b))
  {}

  lemma FinalizeKeepsQueue(js: seq<Job>, j: nat, outcome: Outcome, now: int, spans: map<nat, Span>,
                           acked: map<nat, string>, nextId: nat)
    requires QueueOk(js, spans, acked, nextId) && j < |js| && js[j].state.Sending?
    ensures QueueOk(FinalizeJobs(js, j, outcome, now), spans, Acknowledge(acked, js, j, outcome), nextId)
    ensures var js', b := FinalizeJobs(js, j, outcome, now), FinalJob(js[j], outcome, now);
            js' == js[j := b] || js' == js[j := b] + [AlertFor(js[j := b], j, now)]
  {
    assert RowOk(js[j]);
    FinalRowFacts(js[j], outcome, now);
    var b := FinalJob(js[j], outcome, now);
    if GaveUp(b) {
      GiveUpKeepsQueue(js, j, b, now, spans, acked, nextId);
    } else if b.state.Sent? && IsTurn(b) {
      SentKeepsQueue(js, j, b, spans, acked, nextId);
    } else {
      UpdateKeepsQueue(js, j, b, spans, acked, nextId);
    }
  }

  /** The one row in flight is settled: nothing is `sending` any more. */
  lemma FinalizeKeepsPosition(js: seq<Job>, outcome: Outcome, now: int, spans: map<nat, Span>,
                              acked: map<nat, string>, nextId: nat, len: nat, rows: seq<nat>, k: nat, sends: nat)
    requires QueueOk(js, spans, acked, nextId) && AtPosition(js, InFlight(len, rows, k, sends))
    ensures AtPosition(FinalizeJobs(js, rows[k], outcome, now), Ticking(len, rows, k + 1, sends + 1))
  {
    var j := rows[k];
    FinalizeKeepsQueue(js, j, outcome, now, spans, acked, nextId);
    assert RowOk(js[j]);
    FinalRowFacts(js[j], outcome, now);
    SettledPosition(js, FinalizeJobs(js, j, outcome, now), len, rows, k, sends);
  }

  lemma SettledPosition(js: seq<Job>, js': seq<Job>, len: nat, rows: seq<nat>, k: nat, sends: nat)
    requires AtPosition(js, InFlight(len, rows, k, sends)) && |js| <= |js'|
    requires forall i :: 0 <= i < |js| && i != rows[k] ==> js'[i] == js[i]
    requires !js'[rows[k]].state.Sending? && !js'[rows[k]].state.Queued? && js'[rows[k]].binding == js[rows[k]].binding
    requires forall i :: |js| <= i < |js'| ==> js'[i].state.Queued?
    ensures AtPosition(js', Ticking(len, rows, k + 1, sends + 1))
  {}

  // ---- startup_scan ----

  lemma StartKeepsPosition(js: seq<Job>, now: int)
    requires OneSending(js)
    ensures AtPosition(js, Reconciling(now, ReconcileRows(js), 0))
  {
    SelectRowsAre(js, 0, NeedsReconcile);
    assert ReconcileRows(js)[0..] == ReconcileRows(js);
  }

  lemma ReconcileKeepsQueue(js: seq<Job>, j: nat, now: int, spans: map<nat, Span>, acked: map<nat, string>,
                            nextId: nat)
    requires QueueOk(js, spans, acked, nextId) && j < |js| && (IsTurn(js[j]) || !NeedsReconcile(js[j]))
    requires js[j].state.Sending? || js[j].state.Unknown? ==> IsTurn(js[j])
    ensures var js' := ReconcileRow(js, j, now);
            QueueOk(js', spans, acked, nextId) && |js| <= |js'|
            && (forall i :: 0 <= i < |js| && i != j ==> js'[i] == js[i])
            && (js'[j] == js[j] || js'[j].state.Failed?) && !NeedsReconcile(js'[j]) && js'[j].kind == js[j].kind
            && (js'[j].state.Sending? ==> js'[j] == js[j])
            && (forall i :: |js| <= i < |js'| ==> js'[i].state.Queued?)
  {
    assert RowOk(js[j]);
    if js[j].state.Sending? || js[j].state.Unknown? {
      var b := js[j].(state := Failed, error := Exhausted);
      if IsAlertTurn(js[j]) { UpdateKeepsQueue(js, j, b, spans, acked, nextId); }
      else { GiveUpKeepsQueue(js, j, b, now, spans, acked, nextId); }
    }
  }

  lemma ReconcileKeepsPosition(js: seq<Job>, now: int, rows: seq<nat>, k: nat, spans: map<nat, Span>,
                               acked: map<nat, string>, nextId: nat)
    requires QueueOk(js, spans, acked, nextId) && AtPosition(js, Reconciling(now, rows, k)) && k < |rows|
    ensures QueueOk(ReconcileRow(js, rows[k], now), spans, acked, nextId)
    ensures AtPosition(ReconcileRow(js, rows[k], now), Reconciling(now, rows, k + 1))
  {
    var j := rows[k];
    ReconcileKeepsQueue(js, j, now, spans, acked, nextId);
    ReconciledPosition(js, ReconcileRow(js, j, now), now, rows, k);
  }

  lemma ReconciledPosition(js: seq<Job>, js': seq<Job>, now: int, rows: seq<nat>, k: nat)
    requires AtPosition(js, Reconciling(now, rows, k)) && k < |rows| && |js| <= |js'|
    requires forall i :: 0 <= i < |js| && i != rows[k] ==> js'[i] == js[i]
    requires js'[rows[k]].kind == js[rows[k]].kind && !NeedsReconcile(js'[rows[k]])
    requires js'[rows[k]].state.Sending? ==> js'[rows[k]] == js[rows[k]]
    requires forall i :: |js| <= i < |js'| ==> js'[i].state.Queued?
    ensures AtPosition(js', Reconciling(now, rows, k + 1))
  {}

  lemma SweepRowFacts(stage: nat, job: Job, now: int)
    requires RowOk(job) && 2 <= stage <= 5 && !NeedsReconcile(job)
    requires stage >= 3 && job.state.Sending? && !IsTurn(job) ==> job.attempts < MAX_SEND_ATTEMPTS
    ensures var b := Sweep(stage, job, now);
            RowStep(job, b) && RowOk(b) && AttemptsKept(job, b) && !NeedsReconcile(b)
            && (b.state.Sending? ==> b == job) && (b.state.Sent? ==> job.state.Sent?) && (GaveUp(b) ==> GaveUp(job))
            && (stage == 2 && b.state.Sending? && !IsTurn(b) ==> b.attempts < MAX_SEND_ATTEMPTS)
            && (stage == 3 ==> !b.state.Sending?)
  {}

  lemma SweepKeepsQueue(js: seq<Job>, now: int, stage: nat, spans: map<nat, Span>, acked: map<nat, string>,
                        nextId: nat)
    requires QueueOk(js, spans, acked, nextId) && AtPosition(js, Sweeping(now, stage))
    ensures QueueOk(SweepAll(stage, js, now), spans, acked, nextId)
    ensures AtPosition(SweepAll(stage, js, now), if stage < 5 then Sweeping(now, stage + 1) else Idle)
  {
    var js' := SweepAll(stage, js, now);
    forall i | 0 <= i < |js|
      ensures RowStep(js[i], js'[i]) && RowOk(js'[i]) && AttemptsKept(js[i], js'[i]) && !NeedsReconcile(js'[i])
      ensures js'[i].state.Sending? ==> js'[i] == js[i]
      ensures js'[i].state.Sent? ==> js[i].state.Sent?
      ensures GaveUp(js'[i]) ==> GaveUp(js[i])
      ensures stage == 2 && js'[i].state.Sending? && !IsTurn(js'[i]) ==> js'[i].attempts < MAX_SEND_ATTEMPTS
      ensures stage == 3 ==> !js'[i].state.Sending?
    {
      SweepRowFacts(stage, js[i], now);
    }
    KeysKept(js, js');
    QueueKept(js, js', spans, acked, nextId);
  }

  /** slow_tick's rescue of stale `sending` rows never finds one: it runs while nothing is in flight. */
  lemma LegacySendingIsIdle(js: seq<Job>, now: int)
    requires NoneSending(js)
    ensures LegacySending(js, now) == js
  {}

  /** A crash leaves at most the one row that was in flight. */
  lemma CrashKeepsPosition(js: seq<Job>, d: Daemon)
    requires AtPosition(js, d)
    ensures AtPosition(js, Down)
  {}
}
