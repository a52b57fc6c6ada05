/** The outbound queue: claims about one call that need no history. */
module QueueClaims {
  import opened Schema
  import opened World
  import opened Jobs
  import opened OutboundTx
  import RecoveryTx
  import opened QueueInvariant
  import opened QueueSteps

  // ---- startup_scan, from any table at all ----

  /** No row is in flight, every turn in doubt has a retry time and budget left, nothing else is retried a third time. */
  ghost predicate NormalForm(js: seq<Job>) {
    forall j :: 0 <= j < |js| ==>
      && !js[j].state.Sending?
      && (js[j].state.Unknown? && IsTurn(js[j]) ==> 0 <= js[j].attempts < TURN_MAX_ATTEMPTS && js[j].next.Some?)
      && (js[j].state.Unknown? && !IsTurn(js[j]) && js[j].next.Some? ==> js[j].attempts < MAX_SEND_ATTEMPTS)
  }

  /** Step 1 fails exactly the rows it read and touches no other. */
  lemma {:induction false} ReconcileAllFails(js: seq<Job>, rows: seq<nat>, k: nat, now: int)
    requires k <= |rows| && forall a :: 0 <= a < |rows| ==> rows[a] < |js|
    requires Sorted(rows)
    ensures var r := ReconcileAll(js, rows, k, now);
            && (forall j :: 0 <= j < |js| && j !in rows[k..] ==> r[j] == js[j])
            && (forall j :: j in rows[k..] ==> r[j] == if js[j].state.Sending? || js[j].state.Unknown?
                                                    then js[j].(state := Failed, error := Exhausted) else js[j])
            && (forall j :: |js| <= j < |r| ==> r[j].state.Queued?)
    decreases |rows| - k
  {
    if k < |rows| {
      ReconcileRowFacts(js, rows[k], now);
      ReconcileAllFails(ReconcileRow(js, rows[k], now), rows, k + 1, now);
      assert rows[k..] == [rows[k]] + rows[k + 1..];
      assert rows[k] !in rows[k + 1..];
    } else {
      assert rows[k..] == [];
    }
  }

  lemma {:induction false} KeysStay(js: seq<Job>, rows: seq<nat>, k: nat, now: int, key: Key)
    requires k <= |rows| && (forall a :: 0 <= a < |rows| ==> rows[a] < |js|) && KeyUsed(js, key)
    ensures KeyUsed(ReconcileAll(js, rows, k, now), key)
    decreases |rows| - k
  {
    if k < |rows| {
      ReconcileRowFacts(js, rows[k], now);
      KeysStay(ReconcileRow(js, rows[k], now), rows, k + 1, now, key);
    }
  }

  /** And every real turn it fails has its alert. */
  lemma {:induction false} ReconcileAllAlerts(js: seq<Job>, rows: seq<nat>, k: nat, now: int, a: nat)
    requires k <= a < |rows| && (forall i :: 0 <= i < |rows| ==> rows[i] < |js|) && Sorted(rows)
    requires (js[rows[a]].state.Sending? || js[rows[a]].state.Unknown?) && !IsAlertTurn(js[rows[a]])
    ensures KeyUsed(ReconcileAll(js, rows, k, now), KTurn(AlertGroup(rows[a]), 0))
    decreases |rows| - k
  {
    var js1 := ReconcileRow(js, rows[k], now);
    ReconcileRowFacts(js, rows[k], now);
    if k == a { KeysStay(js1, rows, k + 1, now, KTurn(AlertGroup(rows[a]), 0)); }
    else { ReconcileAllAlerts(js1, rows, k + 1, now, a); }
  }

  lemma ReconcileRowFacts(js: seq<Job>, j: nat, now: int)
    requires j < |js|
    ensures var r := ReconcileRow(js, j, now);
            && |js| <= |r|
            && (forall i :: 0 <= i < |js| && i != j ==> r[i] == js[i])
            && (r[j] == if js[j].state.Sending? || js[j].state.Unknown?
                        then js[j].(state := Failed, error := Exhausted) else js[j])
            && ((js[j].state.Sending? || js[j].state.Unknown?) && !IsAlertTurn(js[j]) ==>
                  KeyUsed(r, KTurn(AlertGroup(j), 0)))
            && (forall i :: |js| <= i < |r| ==> r[i].state.Queued?)
            && (forall key :: KeyUsed(js, key) ==> KeyUsed(r, key))
  {
    var r := ReconcileRow(js, j, now);
    assert forall i :: 0 <= i < |js| ==> r[i].key == js[i].key;
    if (js[j].state.Sending? || js[j].state.Unknown?) && !IsAlertTurn(js[j]) {
      var js1 := js[j := js[j].(state := Failed, error := Exhausted)];
      if !KeyUsed(js1, KTurn(AlertGroup(j), 0)) { assert r[|js|].key == KTurn(AlertGroup(j), 0); }
    }
  }

  /** Whatever attempt counts and retry times the table holds, one scan brings it to the normal form; a turn out of
      budget is failed and has its alert. */
  lemma StartupScanNormalizes(js: seq<Job>, now: int)
    ensures NormalForm(StartupScan(js, now)) && |js| <= |StartupScan(js, now)|
    ensures forall j :: 0 <= j < |js| && NeedsReconcile(js[j]) ==>
              StartupScan(js, now)[j].state.Failed?
              && (!IsAlertTurn(js[j]) ==> KeyUsed(StartupScan(js, now), KTurn(AlertGroup(j), 0)))
    ensures forall j :: 0 <= j < |js| && (js[j].state.Queued? || js[j].state.Terminal())
              ==> StartupScan(js, now)[j] == js[j]
  {
    SelectRowsAre(js, 0, NeedsReconcile);
    var rows := ReconcileRows(js);
    assert rows[0..] == rows;
    var js1 := ReconcileAll(js, rows, 0, now);
    ReconcileAllFails(js, rows, 0, now);
    assert forall j :: 0 <= j < |js1| ==> !NeedsReconcile(js1[j]);
    SweepsNormalize(js1, StartupScan(js, now), now);
    forall j | 0 <= j < |js| && NeedsReconcile(js[j]) && !IsAlertTurn(js[j])
      ensures KeyUsed(StartupScan(js, now), KTurn(AlertGroup(j), 0))
    {
      ScanAlerts(js, now, j);
    }
  }

  lemma ScanAlerts(js: seq<Job>, now: int, j: nat)
    requires j < |js| && NeedsReconcile(js[j]) && !IsAlertTurn(js[j])
    ensures KeyUsed(StartupScan(js, now), KTurn(AlertGroup(j), 0))
  {
    SelectRowsAre(js, 0, NeedsReconcile);
    var rows := ReconcileRows(js);
    var a :| 0 <= a < |rows| && rows[a] == j;
    ReconcileAllAlerts(js, rows, 0, now, a);
    SweepsKeepKeys(ReconcileAll(js, rows, 0, now), StartupScan(js, now), now);
  }

  lemma SweepsNormalize(js: seq<Job>, r: seq<Job>, now: int)
    requires r == SweepAll(5, SweepAll(4, SweepAll(3, SweepAll(2, js, now), now), now), now)
    requires forall j :: 0 <= j < |js| ==> !NeedsReconcile(js[j])
    ensures |r| == |js| && NormalForm(r)
    ensures forall j :: 0 <= j < |js| && (js[j].state.Queued? || js[j].state.Terminal()) ==> r[j] == js[j]
  {}

  lemma SweepsKeepKeys(js: seq<Job>, r: seq<Job>, now: int)
    requires r == SweepAll(5, SweepAll(4, SweepAll(3, SweepAll(2, js, now), now), now), now)
    ensures forall key :: KeyUsed(js, key) ==> KeyUsed(r, key)
  {
    forall key | KeyUsed(js, key) ensures KeyUsed(r, key) {
      var i :| 0 <= i < |js| && js[i].key == key;
      assert r[i].key == key;
    }
  }

  // ---- Progress of the head of the line ----

  /** What is left of a turn's budget: 0 once it is over. */
  function Rank(job: Job): int {
    if job.state.Terminal() then 0 else 1 + TURN_MAX_ATTEMPTS - job.attempts
  }

  ghost predicate HeadOfLine(js: seq<Job>, j: nat) {
    && j < |js| && IsTurn(js[j]) && js[j].state.Retryable()
    && forall p :: 0 <= p < j && IsTurn(js[p]) && js[p].binding == js[j].binding ==> js[p].state.Terminal()
  }

  /** Nothing holds back the head of the line: the previous chunk of its turn, if any, is over. */
  lemma HeadIsNotHeldBack(js: seq<Job>, spans: map<nat, Span>, acked: map<nat, string>, nextId: nat, j: nat)
    requires QueueOk(js, spans, acked, nextId) && HeadOfLine(js, j)
    ensures !OrderGate(js, j).Wait? && RowOk(js[j])
  {
    assert RowOk(js[j]);
    if js[j].chunk > 0 {
      PrevChunkIsBefore(js, spans, acked, nextId, j);
      assert RowOk(js[j - 1]) && InSpan(js, j, spans, acked) && InSpan(js, j - 1, spans, acked);
    }
    assert !EarlierTurnInDoubt(js, j);
  }

  /** When tick reaches the head of a binding's line at its retry time, it does not skip it: the turn is over at once,
      or it is sent out and any outcome leaves less budget. So a turn holds up its successors for at most seven visits. */
  lemma HeadOfLineProgresses(t: Tables, cfg: Config, spans: map<nat, Span>, acked: map<nat, string>, j: nat, now: int,
                             at: int, outcome: Outcome, then': int)
    requires QueueOk(t.jobs, spans, acked, t.nextId) && HeadOfLine(t.jobs, j) && Due(t.jobs[j], now)
    ensures var job1 := PrepareJob(t, cfg, j, now, at);
            && 0 < Rank(t.jobs[j]) <= 1 + TURN_MAX_ATTEMPTS
            && (job1.state.Terminal()
                || (job1.state.Sending? && Rank(FinalJob(job1, outcome, then')) < Rank(t.jobs[j])))
            && (!job1.state.Terminal() ==> PrepareVerdict(t, cfg, j, now).Send?)
  {
    HeadIsNotHeldBack(t.jobs, spans, acked, t.nextId, j);
    HeadVisited(t, cfg, j, now, at, outcome, then');
  }

  lemma HeadVisited(t: Tables, cfg: Config, j: nat, now: int, at: int, outcome: Outcome, then': int)
    requires j < |t.jobs| && RowOk(t.jobs[j]) && IsTurn(t.jobs[j]) && t.jobs[j].state.Retryable()
    requires !OrderGate(t.jobs, j).Wait? && Due(t.jobs[j], now)
    ensures var job1 := PrepareJob(t, cfg, j, now, at);
            && 0 < Rank(t.jobs[j]) <= 1 + TURN_MAX_ATTEMPTS
            && (job1.state.Terminal()
                || (job1.state.Sending? && Rank(FinalJob(job1, outcome, then')) < Rank(t.jobs[j])))
            && (!job1.state.Terminal() ==> PrepareVerdict(t, cfg, j, now).Send?)
  {}

  // ---- Retry times ----

  lemma {:induction false} Pow2Grows(n: nat)
    ensures 1 <= Pow2(n) < Pow2(n + 1)
  {
    if n > 0 { Pow2Grows(n - 1); }
  }

  /** The waits between the attempts of a turn and of a card: they start at the base, never shrink and stop at the cap. */
  lemma BackoffsGrowToTheirCaps(attempts: nat)
    requires attempts >= 1
    ensures TurnDelay(1, true) == TURN_RETRY_BACKOFF_MS && RecoveryTx.CardDelay(1) == CARD_REARM_BACKOFF_MS
    ensures TURN_RETRY_BACKOFF_MS <= TurnDelay(attempts, true) <= TurnDelay(attempts + 1, true) <= TURN_RETRY_BACKOFF_MAX_MS
    ensures CARD_REARM_BACKOFF_MS <= RecoveryTx.CardDelay(attempts) <= RecoveryTx.CardDelay(attempts + 1)
            <= CARD_REARM_BACKOFF_MAX_MS
  {
    Pow2Grows(attempts - 1);
    assert Pow2(0) == 1;
  }
}
