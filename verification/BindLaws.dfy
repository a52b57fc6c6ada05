/** What the steps of binding, confirming, activating and ending lead to, told from the rows alone. */
module BindLaws {
  import opened Schema
  import opened World
  import opened Jobs
  import opened LifecycleTx
  import opened BindTx
  import opened Machine
  import opened IntakeInvariant
  import opened BindInvariant
  import opened IntakeLaws
  import IntakeRun
  import ListenerInvariant

  // ---- The end of a binding ----

  /** Every open job of the binding is cancelled; its closing notice and notices to those who waited come at the end. */
  ghost predicate QueueEnded(t: Tables, t': Tables, b: nat, reason: Reason, status: Status)
    requires b < |t.bindings|
  {
    && |t.jobs| <= |t'.jobs|
    && (forall j :: 0 <= j < |t.jobs| ==>
          t'.jobs[j] == if t.jobs[j].binding == Some(b) && (t.jobs[j].state.Queued? || t.jobs[j].state.Unknown?)
                        then t.jobs[j].(state := Cancelled) else t.jobs[j])
    && (KeyUsed(t.jobs, KLc(b, LcClosed(reason)))
        || (|t.jobs| < |t'.jobs|
            && (var job := t'.jobs[|t.jobs|];
                && job.key == KLc(b, LcClosed(reason)) && Tells(job) && job.expected == ExpectClosed(status, reason)
                && job.binding == Some(b) && job.chat == t.bindings[b].chat && job.state.Queued? && job.attempts == 0)))
    && (forall j :: |t.jobs| <= j < |t'.jobs| ==>
          t'.jobs[j].key != KLc(b, LcClosed(reason)) ==> t'.jobs[j].kind.InboundNotice?)
  }

  /** A request whose binding ends unbound expires with it; a supersede also shuts the latches of what was bound before. */
  function RequestEnded(row: PendingBind, own: bool, inst: nat, reason: Reason): PendingBind {
    if own && row.state.BPending? then row.(state := BExpired, latch := false)
    else if reason.BindSuperseded? && row.inst == inst && row.state.BConsumed? then row.(latch := false)
    else row
  }

  /** The chat of message m had a notice within the last minute, or one about this very end. */
  ghost predicate Heard(js: seq<Job>, m: nat, chat: nat, code: InboxState, now: int) {
    exists j :: 0 <= j < |js| && (js[j].key == KNotice(m, code)
                                  || (js[j].kind.InboundNotice? && js[j].chat == chat && now - js[j].createdAt < 60_000))
  }

  predicate WaitsFor(row: Inbox, b: nat) { row.binding == Some(b) && row.state.WaitingBinding? }

  /** The whole effect of an end. */
  ghost predicate Ended(t: Tables, t': Tables, b: nat, reason: Reason, status: Status, now: int)
    requires b < |t.bindings|
  {
    var row := t.bindings[b].(status := status, reason := Some(reason));
    && t'.bindings == t.bindings[b := row] && t'.nextId == t.nextId
    && Cascaded(t, t', b, EndFate(row), now)
    && |t'.binds| == |t.binds|
    && (forall r :: 0 <= r < |t.binds| ==> t'.binds[r] == RequestEnded(t.binds[r], r == b, row.inst, reason))
    && QueueEnded(t, t', b, reason, status)
    && forall m :: 0 <= m < |t.inbox| && WaitsFor(t.inbox[m], b) ==>
         Heard(t'.jobs, m, t.inbox[m].chat, EndFate(row), now)
  }

  lemma {:induction false} NoticesAtTheEnd(js: seq<Job>, inbox: seq<Inbox>, b: nat, target: InboxState, from: nat,
                                           now: int)
    requires from <= |inbox|
    ensures var js' := WaitingNotices(js, inbox, b, target, from, now);
            && js <= js' && (forall j :: |js| <= j < |js'| ==> js'[j].kind.InboundNotice? && js'[j].key.KNotice?)
            && forall m :: from <= m < |inbox| && WaitsFor(inbox[m], b) ==> Heard(js', m, inbox[m].chat, target, now)
    decreases |inbox| - from
  {
    if from < |inbox| {
      if WaitsFor(inbox[from], b) {
        var js1 := AddInboundNotice(js, inbox[from].chat, from, target, Some(b), now);
        NoticesAtTheEnd(js1, inbox, b, target, from + 1, now);
        NoticeIsHeard(js, inbox[from].chat, from, target, Some(b), now);
        HeardStays(js1, WaitingNotices(js, inbox, b, target, from, now), from, inbox[from].chat, target, now);
      } else {
        NoticesAtTheEnd(js, inbox, b, target, from + 1, now);
      }
    }
  }

  lemma NoticeIsHeard(js: seq<Job>, chat: nat, m: nat, code: InboxState, b: Option<nat>, now: int)
    ensures Heard(AddInboundNotice(js, chat, m, code, b, now), m, chat, code, now)
  {
    var js' := AddInboundNotice(js, chat, m, code, b, now);
    if RecentNotice(js, chat, now) {
      var i :| 0 <= i < |js| && js[i].kind.InboundNotice? && js[i].chat == chat
              && js[i].createdAt > now - NOTICE_COOLDOWN_MS;
      assert js'[i] == js[i];
    } else if KeyUsed(js, KNotice(m, code)) {
      var i :| 0 <= i < |js| && js[i].key == KNotice(m, code);
      assert js'[i] == js[i];
    } else {
      assert js'[|js|].key == KNotice(m, code);
    }
  }

  lemma HeardStays(js: seq<Job>, js': seq<Job>, m: nat, chat: nat, code: InboxState, now: int)
    requires js <= js' && Heard(js, m, chat, code, now)
    ensures Heard(js', m, chat, code, now)
  {
    var j :| 0 <= j < |js| && (js[j].key == KNotice(m, code)
                               || (js[j].kind.InboundNotice? && js[j].chat == chat && now - js[j].createdAt < 60_000));
    assert js'[j] == js[j];
  }

  lemma QueueEnds(t: Tables, b: nat, reason: Reason, status: Status, now: int)
    requires LiveBinding(t, b) && !status.Live()
    ensures var t' := Terminate(t, b, reason, status, now);
            && QueueEnded(t, t', b, reason, status)
            && forall m :: 0 <= m < |t.inbox| && WaitsFor(t.inbox[m], b) ==>
                 Heard(t'.jobs, m, t.inbox[m].chat,
                       MapTerminated(Some(t.bindings[b].(status := status, reason := Some(reason)))), now)
  {
    var row := t.bindings[b].(status := status, reason := Some(reason));
    var js := AddJob(CancelOf(t.jobs, b), CloseNotice(row, b, reason, status, now));
    NoticesAtTheEnd(js, t.inbox, b, MapTerminated(Some(row)), 0, now);
    assert KeyUsed(CancelOf(t.jobs, b), KLc(b, LcClosed(reason))) <==> KeyUsed(t.jobs, KLc(b, LcClosed(reason))) by {
      assert forall j :: 0 <= j < |t.jobs| ==> CancelOf(t.jobs, b)[j].key == t.jobs[j].key;
    }
  }

  lemma TerminateEnds(t: Tables, allowed: set<(nat, nat, Option<nat>)>, owner: nat, b: nat, reason: Reason,
                      status: Status, now: int)
    requires IntakeOk(t, allowed, owner) && !status.Live()
    ensures var t' := Terminate(t, b, reason, status, now);
            if LiveBinding(t, b) then Ended(t, t', b, reason, status, now) else t' == t
  {
    if LiveBinding(t, b) {
      TerminateCascades(t, allowed, owner, b, reason, status, now);
      QueueEnds(t, b, reason, status, now);
    }
  }

  /** Unbinding ends exactly a live binding. */
  lemma UnbindLeads(w: World, b: nat, now: int)
    requires (hide Next, Run; IntakeRun.IntakeAt(w))
    ensures var t' := Next(w, ByCli(Unbind(b, now))).t;
            if LiveBinding(w.t, b) then Ended(w.t, t', b, UserUnbind, Closed, now) else t' == w.t
  {
    hide Run, StepSender, StepIntake, StepWorker, StepHook, StepListener, Terminate;
    TerminateEnds(w.t, w.hist.allowed, w.cfg.owner, b, UserUnbind, Closed, now);
  }

  /** A SessionEnd ends the bindings and the open requests it found. */
  lemma SessionEndLeads(w: World, inst: nat, b: nat, now: int)
    requires (hide Next, Run; IntakeRun.IntakeAt(w) && BindAt(w))
    ensures var t' := Next(w, ByHook(inst, EndBinding(b, now))).t;
            if LiveBinding(w.t, b) then Ended(w.t, t', b, SessionEnd, Closed, now) else t' == w.t
    ensures var t' := Next(w, ByHook(inst, EndRequest(b, now))).t;
            if b < |w.t.binds| && w.t.binds[b].state.BPending? then
              b < |w.t.bindings| && Ended(w.t, t', b, SessionEnd, Closed, now)
            else t' == w.t
  {
    hide Run, StepSender, StepIntake, StepWorker, StepCli, StepListener, Terminate;
    TerminateEnds(w.t, w.hist.allowed, w.cfg.owner, b, SessionEnd, Closed, now);
    if b < |w.t.binds| && w.t.binds[b].state.BPending? {
      RequestEnds(w, b, w.t.binds[b].(state := BExpired, latch := false), SessionEnd, now);
    }
  }

  /** An open request settled first, and its binding with it. */
  lemma RequestEnds(w: World, r: nat, row: PendingBind, reason: Reason, now: int)
    requires IntakeRun.IntakeAt(w) && BindAt(w) && r < |w.t.binds| && w.t.binds[r].state.BPending?
    requires !row.state.BPending?
    ensures r < |w.t.bindings| && Unconfirmed(w.t.bindings[r])
    ensures var t1 := w.t.(binds := w.t.binds[r := row]);
            var t' := Terminate(t1, r, reason, Closed, now);
            && Ended(t1, t', r, reason, Closed, now)
            && (row == w.t.binds[r].(state := BExpired, latch := false) ==> Ended(w.t, t', r, reason, Closed, now))
  {
    hide Next, Run, Terminate;
    var t1 := w.t.(binds := w.t.binds[r := row]);
    assert PairOk(w.t.bindings[r], w.t.binds[r], w.hist.bindTurn);
    IntakeRun.BindsDoNotMatter(w.t, t1, Idle, w.hist.allowed, w.cfg.owner);
    TerminateEnds(t1, w.hist.allowed, w.cfg.owner, r, reason, Closed, now);
  }

  predicate Unconfirmed(b: Binding) { b.status.Starting? && !b.confirmed }

  /** A request past its expiry ends with its binding, and no other. */
  lemma TimeoutLeads(w: World, r: nat, now: int)
    requires (hide Next, Run; IntakeRun.IntakeAt(w) && BindAt(w) && w.daemon.Idle?)
    ensures var t' := Next(w, ByWorker(BindingTimeout(r, now))).t;
            if r < |w.t.binds| && w.t.binds[r].state.BPending? && w.t.binds[r].expires < now then
              r < |w.t.bindings| && Ended(w.t, t', r, BindTimeout, Closed, now)
            else t' == w.t
  {
    hide Run, StepSender, StepIntake, StepCli, StepHook, StepListener, Terminate;
    if r < |w.t.binds| && w.t.binds[r].state.BPending? && w.t.binds[r].expires < now {
      RequestEnds(w, r, w.t.binds[r].(state := BExpired, latch := false), BindTimeout, now);
    }
  }

  // ---- Activation ----

  /** Somebody listens: a listener holds the row and wrote a heartbeat at most 6 s ago. */
  predicate Listened(b: Binding, now: int) {
    b.listener.Some? && b.epoch > 0 && b.beat.Some? && now - b.beat.value <= 6_000
  }

  /** The binding becomes active and its chat is told. */
  ghost predicate Activated(t: Tables, t': Tables, b: nat)
    requires b < |t.bindings|
  {
    && t' == t.(bindings := t.bindings[b := t.bindings[b].(status := Active)], jobs := t'.jobs)
    && Announced(t.jobs, t'.jobs, KLc(b, LcBound), Some(b), t.bindings[b].chat, None)
  }

  /** A confirmed starting binding becomes active exactly when somebody listens, and ends exactly when nobody does and its
      confirmation is over 30 s old. */
  lemma ActivationLeads(w: World, b: nat, now: int)
    requires (hide Next, Run; IntakeRun.IntakeAt(w) && BindAt(w) && w.daemon.Idle?)
    ensures var t' := Next(w, ByWorker(ActivateOne(b, now))).t;
            if b < |w.t.bindings| && w.t.bindings[b].status.Starting? && w.t.bindings[b].confirmed then
              && w.t.bindings[b].confirmedAt.Some?
              && (if Listened(w.t.bindings[b], now) then Activated(w.t, t', b)
                  else if now - w.t.bindings[b].confirmedAt.value > 30_000 then
                    Ended(w.t, t', b, ListenerNeverReady, Closed, now)
                  else t' == w.t)
            else t' == w.t
  {
    hide Run, StepSender, StepIntake, StepCli, StepHook, StepListener, Terminate;
    TerminateEnds(w.t, w.hist.allowed, w.cfg.owner, b, ListenerNeverReady, Closed, now);
    if b < |w.t.bindings| { assert PairOk(w.t.bindings[b], w.t.binds[b], w.hist.bindTurn); }
  }

  // ---- death_scan ----

  /** What the scan makes of a live row: a dead instance closes its binding; an active row with a heartbeat at most 15 s
      old loses its mark; otherwise, outside the grace after a sleep, it is marked, or declared dead if it was read with a
      mark 15 s old. */
  ghost predicate Judged(t: Tables, t': Tables, b: nat, seen: Binding, scan: int, dead: bool, inSuspectWindow: bool,
                         now: int)
  {
    var alive := seen.beat.Some? && scan - seen.beat.value <= 15_000;
    var active := b < |t.bindings| && t.bindings[b].status.Active?;
    if dead then if LiveBinding(t, b) then Ended(t, t', b, CcGone, Closed, now) else t' == t
    else if seen.status.Starting? then t' == t
    else if alive then
      t' == if active && seen.suspect.Some?
            then t.(bindings := t.bindings[b := t.bindings[b].(suspect := None)]) else t
    else if inSuspectWindow then t' == t
    else if seen.suspect.None? then
      t' == if active then t.(bindings := t.bindings[b := t.bindings[b].(suspect := Some(scan))]) else t
    else if scan - seen.suspect.value >= 15_000 then
      if LiveBinding(t, b) then Ended(t, t', b, ListenerGone, Dead, now) else t' == t
    else t' == t
  }

  lemma RowJudged(t: Tables, allowed: set<(nat, nat, Option<nat>)>, owner: nat, b: nat, seen: Binding, scan: int, dead: bool,
                  inSuspectWindow: bool, now: int)
    requires IntakeOk(t, allowed, owner) && seen.status.Live()
    ensures Judged(t, JudgeRow(t, b, seen, scan, dead, inSuspectWindow, now), b, seen, scan, dead, inSuspectWindow, now)
  {
    hide IntakeOk, Ended, Terminate;
    TerminateEnds(t, allowed, owner, b, CcGone, Closed, now);
    TerminateEnds(t, allowed, owner, b, ListenerGone, Dead, now);
  }

  lemma JudgementLeads(w: World, dead: bool, inSuspectWindow: bool, now: int)
    requires (hide Next, Run; IntakeRun.IntakeAt(w) && w.daemon.Judging? && w.daemon.at < |w.daemon.seen|)
    ensures var t, t', seen := w.t, Next(w, ByWorker(JudgeNext(dead, inSuspectWindow, now))).t, w.daemon.seen[w.daemon.at];
            if seen.status.Live() then Judged(t, t', w.daemon.at, seen, w.daemon.scanNow, dead, inSuspectWindow, now)
            else t' == t
  {
    hide Run, StepSender, StepIntake, StepCli, StepHook, StepListener, JudgeRow, Judged, Judge, IntakeOk;
    var seen := w.daemon.seen[w.daemon.at];
    if seen.status.Live() {
      RowJudged(w.t, w.hist.allowed, w.cfg.owner, w.daemon.at, seen, w.daemon.scanNow, dead, inSuspectWindow, now);
    }
  }

  // ---- create_binding ----

  /** A bind to a free chat by a free instance adds one starting binding and its open request, both new; the instance's
      own unfinished bind, if any, is superseded. Any other bind changes nothing. */
  lemma BindLeads(w: World, chat: nat, inst: nat, nonce: nat, now: int)
    requires (hide Next, Run; IntakeRun.IntakeAt(w) && BindAt(w))
    ensures var t, t' := w.t, Next(w, ByCli(Bind(chat, inst, nonce, now))).t;
            if FreeFor(t.bindings, chat, inst) then
              exists t1 :: BindBegun(t, t1, inst, now) && t'.(bindings := t1.bindings, binds := t1.binds) == t1
                && t'.bindings
                   == t1.bindings + [Binding(chat, None, inst, Starting, false, None, None, 0, None, None, None)]
                && t'.binds == t1.binds + [PendingBind(inst, nonce, BPending, false, now + 600_000)]
            else t' == t
  {
    hide Run, StepSender, StepIntake, StepWorker, StepHook, StepListener, Terminate;
    var t := w.t;
    BindSucceedsIff(t, w.stops, w.hist.bindTurn, chat, inst, nonce, now);
    SupersededIs(w, inst, now);
    assert BindBegun(t, Superseded(t, inst, now), inst, now);
  }

  /** The instance's unfinished bind has given way. */
  ghost predicate BindBegun(t: Tables, t1: Tables, inst: nat, now: int) {
    if exists b :: 0 <= b < |t.bindings| && t.bindings[b].inst == inst && t.bindings[b].status.Starting? then
      exists b :: 0 <= b < |t.bindings| && t.bindings[b].inst == inst && t.bindings[b].status.Starting?
                  && Ended(t, t1, b, BindSuperseded, Closed, now)
    else t1 == t
  }

  lemma SupersededIs(w: World, inst: nat, now: int)
    requires IntakeRun.IntakeAt(w) && BindAt(w)
    ensures BindBegun(w.t, Superseded(w.t, inst, now), inst, now)
  {
    hide Next, Run, Terminate;
    var t := w.t;
    var found := StartingOf(t.bindings, inst, 0);
    if found.Some? {
      var b := found.value;
      var t1 := Terminate(t, b, BindSuperseded, Closed, now);
      TerminateEnds(t, w.hist.allowed, w.cfg.owner, b, BindSuperseded, Closed, now);
      BindInvariant.TerminateKeeps(t, w.stops, w.hist.bindTurn, b, BindSuperseded, Closed, now);
      forall i | 0 <= i < |t1.bindings| ensures !(t1.bindings[i].inst == inst && t1.bindings[i].status.Starting?) {
        if i < b { assert Apart(t.bindings[i], t.bindings[b]); }
        else if i > b { assert Apart(t.bindings[b], t.bindings[i]); }
      }
      NoStrayRequests(t1, inst, w.stops, w.hist.bindTurn);
    } else {
      NoStrayRequests(t, inst, w.stops, w.hist.bindTurn);
    }
  }

  // ---- The Stop of a bind turn ----

  /** The instance's open request, if the Stop comes before its expiry. */
  predicate OpenRequest(binds: seq<PendingBind>, inst: nat, now: int, r: nat) {
    r < |binds| && binds[r].inst == inst && binds[r].state.BPending? && binds[r].expires > now
  }

  /** There is at most one. */
  lemma OneOpenRequest(w: World, inst: nat, now: int, r: nat)
    requires BindAt(w) && OpenRequest(w.t.binds, inst, now, r)
    ensures PendingOf(w.t.binds, inst, |w.t.binds|) == Some(r)
  {
    var q := PendingOf(w.t.binds, inst, |w.t.binds|).value;
    assert PairOk(w.t.bindings[q], w.t.binds[q], w.hist.bindTurn);
    assert PairOk(w.t.bindings[r], w.t.binds[r], w.hist.bindTurn);
    assert (r < q ==> Apart(w.t.bindings[r], w.t.bindings[q])) && (q < r ==> Apart(w.t.bindings[q], w.t.bindings[r]));
  }

  /** A Stop that finds its instance's open request goes on to the handshake exactly if its message carries the request's
      nonce and it has a session, and else to the failure; without one it goes on as a turn. Nothing is written. */
  lemma FindLeads(w: World, inst: nat)
    requires (hide Next, Run; BindAt(w) && inst in w.stops && w.stops[inst].AfterLatch?)
    ensures var p, w' := w.stops[inst].p, Next(w, ByHook(inst, StopFindBind));
            && w'.t == w.t && inst in w'.stops
            && (forall r: nat :: OpenRequest(w.t.binds, inst, p.now, r) ==>
                  w'.stops[inst] == if w.t.binds[r].nonce in p.markers && p.session.Some? then ToHandshake(p, r)
                                    else ToMiss(p, r))
            && ((forall r: nat :: !OpenRequest(w.t.binds, inst, p.now, r)) ==> w'.stops[inst] == AfterBind(p))
  {
    hide Run, StepSender, StepIntake, StepWorker, StepCli, StepListener;
    var p := w.stops[inst].p;
    forall r: nat | OpenRequest(w.t.binds, inst, p.now, r) ensures PendingOf(w.t.binds, inst, |w.t.binds|) == Some(r) {
      OneOpenRequest(w, inst, p.now, r);
    }
    var found := PendingOf(w.t.binds, inst, |w.t.binds|);
    if found.Some? && w.t.binds[found.value].expires > p.now {
      assert OpenRequest(w.t.binds, inst, p.now, found.value);
    }
  }

  /** Another live binding has the session. */
  predicate SessionInUse(bs: seq<Binding>, session: Option<nat>, r: nat) {
    exists i :: 0 <= i < |bs| && i != r && bs[i].status.Live() && bs[i].session == session
  }

  /** The confirmation: the request is consumed with its latch open, the binding has the Stop's session, and it is active
      at once if somebody listens. */
  ghost predicate Confirmed(t: Tables, t': Tables, r: nat, p: StopPayload)
    requires r < |t.binds| && r < |t.bindings|
  {
    var row := t.bindings[r].(confirmed := true, confirmedAt := Some(p.now), session := p.session);
    && t' == t.(bindings := t.bindings[r := if Listened(row, p.now) then row.(status := Active) else row],
                binds := t.binds[r := t.binds[r].(state := BConsumed, latch := true)], jobs := t'.jobs)
    && (if Listened(row, p.now) then Announced(t.jobs, t'.jobs, KLc(r, LcBound), Some(r), row.chat, None)
        else t'.jobs == t.jobs)
  }

  /** At the handshake the binding is confirmed exactly if its request is still open and its session is free; a session in
      use leads to the failure, a request settled meanwhile ends the Stop. */
  lemma HandshakeLeads(w: World, inst: nat)
    requires (hide Next, Run; BindAt(w) && inst in w.stops && w.stops[inst].ToHandshake?)
    ensures w.stops[inst].request < |w.t.binds| == |w.t.bindings|
    ensures var p, r, w' := w.stops[inst].p, w.stops[inst].request, Next(w, ByHook(inst, StopHandshake));
            && w.t.binds[r].inst == inst && w.t.binds[r].nonce in p.markers && p.session.Some?
            && (if !w.t.binds[r].state.BPending? then w'.t == w.t && inst !in w'.stops
                else if SessionInUse(w.t.bindings, p.session, r) then
                  w'.t == w.t && inst in w'.stops && w'.stops[inst] == ToConflict(p, r)
                else Confirmed(w.t, w'.t, r, p) && inst !in w'.stops && inst in w'.hist.bindTurn)
  {
    hide Run, StepSender, StepIntake, StepWorker, StepCli, StepListener;
    var r := w.stops[inst].request;
    assert StopOk(inst, w.stops[inst], w.t.bindings, w.t.binds, w.hist.bindTurn);
    assert PairOk(w.t.bindings[r], w.t.binds[r], w.hist.bindTurn);
  }

  /** The failure: a request that is still open fails with its latch open, and its binding ends. */
  lemma FailureLeads(w: World, inst: nat)
    requires (hide Next, Run;
             IntakeRun.IntakeAt(w) && BindAt(w) && inst in w.stops && (w.stops[inst].ToMiss? || w.stops[inst].ToConflict?))
    ensures w.stops[inst].request < |w.t.binds| == |w.t.bindings|
    ensures var p, r, w' := w.stops[inst].p, w.stops[inst].request, Next(w, ByHook(inst, StopFail));
            && inst !in w'.stops
            && (if w.t.binds[r].state.BPending? then
                  Ended(w.t.(binds := w.t.binds[r := w.t.binds[r].(state := BFailed, latch := true)]), w'.t, r, BindFailed,
                        Closed, p.now)
                else w'.t == w.t)
  {
    hide Run, StepSender, StepIntake, StepWorker, StepCli, StepListener, Terminate;
    var r := w.stops[inst].request;
    assert StopOk(inst, w.stops[inst], w.t.bindings, w.t.binds, w.hist.bindTurn);
    if w.t.binds[r].state.BPending? {
      RequestEnds(w, r, w.t.binds[r].(state := BFailed, latch := true), BindFailed, w.stops[inst].p.now);
    }
  }

  // ---- Only the nonce confirms ----

  /** The instance's Stop completes the handshake of the request: it carries the nonce and a session, in time. */
  predicate Handshakes(w: World, a: Act, b: nat) {
    && a.ByHook? && a.hook.StopHandshake? && a.inst in w.stops && w.stops[a.inst].ToHandshake?
    && w.stops[a.inst].request == b < |w.t.binds| && w.t.binds[b].inst == a.inst && w.t.binds[b].state.BPending?
    && (var p := w.stops[a.inst].p;
        w.t.binds[b].nonce in p.markers && p.session.Some? && p.now < w.t.binds[b].expires)
  }

  lemma OthersConfirmNothing(w: World, a: Act, b: nat)
    requires (hide Next, Run; b < |w.t.bindings| && !w.t.bindings[b].confirmed && !(a.ByHook? && a.hook.StopHandshake?))
    ensures b < |Next(w, a).t.bindings| && !Next(w, a).t.bindings[b].confirmed
  {
    hide Run, StepSender, StepIntake, StepWorker, StepCli, StepHook, StepListener;
    match a
    case BySender(s) => ListenerInvariant.SenderAside(w, s);
    case ByIntake(i) => ListenerInvariant.IntakeAppends(w, i);
    case ByWorker(r) => WorkerConfirmsNothing(w, r, b);
    case ByCli(c) => CliConfirmsNothing(w, c, b);
    case ByHook(inst, h) => HookConfirmsNothing(w, inst, h, b);
    case ByListener(c, l) => ListenerConfirmsNothing(w, c, l, b);
  }

  lemma WorkerConfirmsNothing(w: World, a: WorkerAct, b: nat)
    requires b < |w.t.bindings| && !w.t.bindings[b].confirmed
    ensures b < |StepWorker(w, a).t.bindings| && !StepWorker(w, a).t.bindings[b].confirmed
  {}

  lemma CliConfirmsNothing(w: World, a: CliAct, b: nat)
    requires b < |w.t.bindings| && !w.t.bindings[b].confirmed
    ensures b < |StepCli(w, a).t.bindings| && !StepCli(w, a).t.bindings[b].confirmed
  {}

  lemma HookConfirmsNothing(w: World, inst: nat, a: HookAct, b: nat)
    requires b < |w.t.bindings| && !w.t.bindings[b].confirmed && !a.StopHandshake?
    ensures b < |StepHook(w, inst, a).t.bindings| && !StepHook(w, inst, a).t.bindings[b].confirmed
  {}

  lemma ListenerConfirmsNothing(w: World, c: nat, a: ListenerAct, b: nat)
    requires b < |w.t.bindings| && !w.t.bindings[b].confirmed
    ensures b < |StepListener(w, c, a).t.bindings| && !StepListener(w, c, a).t.bindings[b].confirmed
  {}

  /** Whatever step confirms a binding is its instance's Stop, which carried the request's nonce in its message and gave
      the binding its session before the request ran out. */
  lemma OnlyTheNonceConfirms(w: World, a: Act, b: nat)
    requires (hide Next, Run; BindAt(w) && b < |w.t.bindings| && !w.t.bindings[b].confirmed)
    ensures b < |Next(w, a).t.bindings|
    ensures Next(w, a).t.bindings[b].confirmed ==>
              Handshakes(w, a, b) && Next(w, a).t.bindings[b].session == w.stops[a.inst].p.session
  {
    hide Run, StepSender, StepIntake, StepWorker, StepCli, StepHook, StepListener;
    if a.ByHook? && a.hook.StopHandshake? {
      HandshakeConfirmsOne(w, a.inst, b);
    } else {
      OthersConfirmNothing(w, a, b);
    }
  }

  lemma HandshakeConfirmsOne(w: World, inst: nat, b: nat)
    requires BindAt(w) && b < |w.t.bindings| && !w.t.bindings[b].confirmed
    ensures var t' := StepHook(w, inst, StopHandshake).t;
            && b < |t'.bindings|
            && (t'.bindings[b].confirmed ==>
                  Handshakes(w, ByHook(inst, StopHandshake), b) && t'.bindings[b].session == w.stops[inst].p.session)
  {
    if inst in w.stops { assert StopOk(inst, w.stops[inst], w.t.bindings, w.t.binds, w.hist.bindTurn); }
  }
}
