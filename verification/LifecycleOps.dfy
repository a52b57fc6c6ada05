/** lib/lifecycle.py as it runs: each transaction changes the tables step by step. */
module LifecycleOps {
  import opened Schema
  import opened World
  import opened Jobs
  import opened LifecycleTx
  import opened Machine
  import opened Scripts
  import opened System

  // ---- _terminate_in_tx ----

  /** The messages whose approval is open for the binding. */
  method OpenMessages(s: System, b: nat) returns (open: set<nat>)
    ensures forall m: nat :: m in open <==> HasOpenPending(s.pendings, b, m)
  {
    open := {};
    var p := 0;
    while p < |s.pendings|
      invariant p <= |s.pendings|
      invariant forall m: nat :: m in open <==> HasOpenPending(s.pendings[..p], b, m)
    {
      if s.pendings[p].binding == b && s.pendings[p].state.PPending? {
        open := open + {s.pendings[p].msg};
      }
      OneMorePending(s.pendings, p, b);
      p := p + 1;
    }
    assert s.pendings[..p] == s.pendings;
  }

  lemma OneMorePending(ps: seq<Pending>, p: nat, b: nat)
    requires p < |ps|
    ensures forall m: nat :: HasOpenPending(ps[..p + 1], b, m) <==>
              HasOpenPending(ps[..p], b, m) || (ps[p].binding == b && ps[p].msg == m && ps[p].state.PPending?)
  {}

  method ExpirePendings(s: System, b: nat)
    modifies s`pendings
    ensures s.pendings == ExpirePendingsOf(old(s.pendings), b)
  {
    var p := 0;
    while p < |s.pendings|
      invariant p <= |s.pendings| == |old(s.pendings)|
      invariant forall i :: 0 <= i < p ==> s.pendings[i] == ExpirePendingsOf(old(s.pendings), b)[i]
      invariant forall i :: p <= i < |s.pendings| ==> s.pendings[i] == old(s.pendings)[i]
    {
      if s.pendings[p].binding == b && s.pendings[p].state.PPending? {
        s.pendings := s.pendings[p := s.pendings[p].(state := PExpired)];
      }
      p := p + 1;
    }
  }

  method ExpireMessages(s: System, open: set<nat>, now: int)
    modifies s`inbox
    ensures |s.inbox| == |old(s.inbox)|
    ensures forall m :: 0 <= m < |s.inbox| ==>
              s.inbox[m] == if m in open && (old(s.inbox)[m].state.AwaitingApproval?
                                             || old(s.inbox)[m].state.ApprovedMaterializing?)
                            then old(s.inbox)[m].(state := Expired, ts := now) else old(s.inbox)[m]
  {
    var left := open;
    while left != {}
      invariant left <= open && |s.inbox| == |old(s.inbox)|
      invariant forall m :: 0 <= m < |s.inbox| ==>
                  s.inbox[m] == if m in open - left && (old(s.inbox)[m].state.AwaitingApproval?
                                                        || old(s.inbox)[m].state.ApprovedMaterializing?)
                                then old(s.inbox)[m].(state := Expired, ts := now) else old(s.inbox)[m]
      decreases left
    {
      var m :| m in left;
      if m < |s.inbox| && (s.inbox[m].state.AwaitingApproval? || s.inbox[m].state.ApprovedMaterializing?) {
        s.inbox := s.inbox[m := s.inbox[m].(state := Expired, ts := now)];
      }
      left := left - {m};
    }
  }

  method DropDeliveries(s: System, b: nat)
    modifies s`deliveries
    ensures s.deliveries == DropDeliveriesOf(old(s.deliveries), b)
  {
    var d := 0;
    while d < |s.deliveries|
      invariant d <= |s.deliveries| == |old(s.deliveries)|
      invariant forall i :: 0 <= i < d ==> s.deliveries[i] == DropDeliveriesOf(old(s.deliveries), b)[i]
      invariant forall i :: d <= i < |s.deliveries| ==> s.deliveries[i] == old(s.deliveries)[i]
    {
      if s.deliveries[d].binding == b && s.deliveries[d].state.DEnqueued? {
        s.deliveries := s.deliveries[d := s.deliveries[d].(state := DDropped)];
      }
      d := d + 1;
    }
  }

  method CancelJobs(s: System, b: nat)
    modifies s`jobs
    ensures s.jobs == CancelOf(old(s.jobs), b)
  {
    var j := 0;
    while j < |s.jobs|
      invariant j <= |s.jobs| == |old(s.jobs)|
      invariant forall i :: 0 <= i < j ==> s.jobs[i] == CancelOf(old(s.jobs), b)[i]
      invariant forall i :: j <= i < |s.jobs| ==> s.jobs[i] == old(s.jobs)[i]
    {
      if s.jobs[j].binding == Some(b) && s.jobs[j].state.Retryable() {
        s.jobs := s.jobs[j := s.jobs[j].(state := Cancelled)];
      }
      j := j + 1;
    }
  }

  method SettleBinds(s: System, b: nat, inst: nat, reason: Reason)
    modifies s`binds
    ensures s.binds == CascadeBinds(old(s.binds), b, inst, reason)
  {
    if b < |s.binds| && s.binds[b].state.BPending? {
      s.binds := s.binds[b := s.binds[b].(state := BExpired, latch := false)];
    }
    if reason.BindSuperseded? {
      var i := 0;
      while i < |s.binds|
        invariant i <= |s.binds| == |old(s.binds)|
        invariant forall k :: 0 <= k < i ==> s.binds[k] == CascadeBinds(old(s.binds), b, inst, reason)[k]
        invariant forall k :: i <= k < |s.binds| ==>
                    s.binds[k] == if k == b && old(s.binds)[k].state.BPending?
                                  then old(s.binds)[k].(state := BExpired, latch := false) else old(s.binds)[k]
      {
        if s.binds[i].inst == inst && s.binds[i].latch && s.binds[i].state.BConsumed? {
          s.binds := s.binds[i := s.binds[i].(latch := false)];
        }
        i := i + 1;
      }
    }
  }

  /** The rows that waited for the binding are closed and told, in inbox order. */
  method TellWaiting(s: System, b: nat, target: InboxState, now: int)
    requires target.Unbound? || target.SessionClosed?
    modifies s`inbox, s`jobs
    ensures |s.inbox| == |old(s.inbox)|
    ensures forall m :: 0 <= m < |s.inbox| ==>
              s.inbox[m] == if old(s.inbox)[m].binding == Some(b) && old(s.inbox)[m].state.WaitingBinding?
                            then old(s.inbox)[m].(state := target, ts := now) else old(s.inbox)[m]
    ensures s.jobs == WaitingNotices(old(s.jobs), old(s.inbox), b, target, 0, now)
  {
    var m := 0;
    while m < |s.inbox|
      invariant m <= |s.inbox| == |old(s.inbox)|
      invariant forall i :: 0 <= i < m ==>
                  s.inbox[i] == if old(s.inbox)[i].binding == Some(b) && old(s.inbox)[i].state.WaitingBinding?
                                then old(s.inbox)[i].(state := target, ts := now) else old(s.inbox)[i]
      invariant forall i :: m <= i < |s.inbox| ==> s.inbox[i] == old(s.inbox)[i]
      invariant WaitingNotices(s.jobs, old(s.inbox), b, target, m, now)
                == WaitingNotices(old(s.jobs), old(s.inbox), b, target, 0, now)
    {
      if s.inbox[m].binding == Some(b) && s.inbox[m].state.WaitingBinding? {
        s.inbox := s.inbox[m := s.inbox[m].(state := target, ts := now)];
        s.jobs := AddInboundNotice(s.jobs, s.inbox[m].chat, m, target, Some(b), now);
      }
      m := m + 1;
    }
  }

  lemma WaitingUnaffected(js: seq<Job>, inbox: seq<Inbox>, inbox': seq<Inbox>, b: nat, target: InboxState, from: nat,
                          now: int)
    requires |inbox'| == |inbox| && from <= |inbox|
    requires forall m :: 0 <= m < |inbox| ==>
               inbox'[m].binding == inbox[m].binding && inbox'[m].chat == inbox[m].chat
               && (inbox'[m].state.WaitingBinding? <==> inbox[m].state.WaitingBinding?)
    ensures WaitingNotices(js, inbox', b, target, from, now) == WaitingNotices(js, inbox, b, target, from, now)
    decreases |inbox| - from
  {
    if from < |inbox| {
      WaitingUnaffected(if inbox[from].binding == Some(b) && inbox[from].state.WaitingBinding?
                        then AddInboundNotice(js, inbox[from].chat, from, target, Some(b), now) else js,
                        inbox, inbox', b, target, from + 1, now);
    }
  }

  lemma CascadeInTwoPasses(inbox: seq<Inbox>, mid: seq<Inbox>, last: seq<Inbox>, ps: seq<Pending>, open: set<nat>,
                           b: nat, target: InboxState, now: int)
    requires |mid| == |inbox| == |last| && (forall m: nat :: m in open <==> HasOpenPending(ps, b, m))
    requires forall m :: 0 <= m < |inbox| ==>
               mid[m] == if m in open && (inbox[m].state.AwaitingApproval? || inbox[m].state.ApprovedMaterializing?)
                         then inbox[m].(state := Expired, ts := now) else inbox[m]
    requires forall m :: 0 <= m < |inbox| ==>
               last[m] == if mid[m].binding == Some(b) && mid[m].state.WaitingBinding?
                          then mid[m].(state := target, ts := now) else mid[m]
    ensures last == CascadeInbox(inbox, ps, b, target, now)
  {}

  /** The conditional update decides who ends the binding; the winner settles everything that hangs on it. */
  method TerminateInTx(s: System, b: nat, reason: Reason, status: Status, now: int) returns (won: bool)
    requires !status.Live()
    modifies s
    ensures s.W() == old(s.W()).(t := Terminate(old(s.T()), b, reason, status, now))
    ensures won <==> LiveBinding(old(s.T()), b)
  {
    if b >= |s.bindings| || !s.bindings[b].status.Live() {
      return false;
    }
    s.bindings := s.bindings[b := s.bindings[b].(status := status, reason := Some(reason))];
    var row := s.bindings[b];
    EndAttached(s, b, row, reason, status, now);
    return true;
  }

  /** The winner's cascade. */
  method EndAttached(s: System, b: nat, row: Binding, reason: Reason, status: Status, now: int)
    requires !row.status.Live()
    modifies s`pendings, s`inbox, s`deliveries, s`jobs, s`binds
    ensures s.pendings == ExpirePendingsOf(old(s.pendings), b)
    ensures s.inbox == CascadeInbox(old(s.inbox), old(s.pendings), b, MapTerminated(Some(row)), now)
    ensures s.deliveries == DropDeliveriesOf(old(s.deliveries), b)
    ensures s.binds == CascadeBinds(old(s.binds), b, row.inst, reason)
    ensures s.jobs == WaitingNotices(AddJob(CancelOf(old(s.jobs), b), CloseNotice(row, b, reason, status, now)),
                                     old(s.inbox), b, MapTerminated(Some(row)), 0, now)
  {
    ghost var inbox0, ps0 := s.inbox, s.pendings;
    var open := OpenMessages(s, b);
    ExpirePendings(s, b);
    ExpireMessages(s, open, now);
    ghost var mid := s.inbox;
    DropDeliveries(s, b);
    CancelJobs(s, b);
    SettleBinds(s, b, row.inst, reason);
    s.jobs := AddJob(s.jobs, CloseNotice(row, b, reason, status, now));
    var target := MapTerminated(Some(row));
    WaitingUnaffected(s.jobs, inbox0, mid, b, target, 0, now);
    TellWaiting(s, b, target, now);
    CascadeInTwoPasses(inbox0, mid, s.inbox, ps0, open, b, target, now);
  }

  // ---- create_binding ----

  method ExpireRequests(s: System, inst: nat)
    modifies s`binds
    ensures s.binds == ExpireBindsOf(old(s.binds), inst)
  {
    var i := 0;
    while i < |s.binds|
      invariant i <= |s.binds| == |old(s.binds)|
      invariant forall k :: 0 <= k < i ==> s.binds[k] == ExpireBindsOf(old(s.binds), inst)[k]
      invariant forall k :: i <= k < |s.binds| ==> s.binds[k] == old(s.binds)[k]
    {
      if s.binds[i].inst == inst && s.binds[i].state.BPending? {
        s.binds := s.binds[i := s.binds[i].(state := BExpired, latch := false)];
      }
      i := i + 1;
    }
  }

  /** A live binding of the chat (or, with `byInst`, of the instance), as the partial unique indexes see it. */
  method Taken(s: System, byInst: bool, key: nat) returns (taken: bool)
    ensures taken <==> if byInst then InstTaken(s.bindings, key) else ChatTaken(s.bindings, key)
  {
    var i := 0;
    while i < |s.bindings|
      invariant i <= |s.bindings|
      invariant forall k :: 0 <= k < i && s.bindings[k].status.Live() ==>
                  if byInst then s.bindings[k].inst != key else s.bindings[k].chat != key
    {
      if s.bindings[i].status.Live() && (if byInst then s.bindings[i].inst == key else s.bindings[i].chat == key) {
        return true;
      }
      i := i + 1;
    }
    return false;
  }

  /** The binding and its request, or the reason for the conflict and an untouched database. */
  method BindInTx(s: System, chat: nat, inst: nat, nonce: nat, now: int) returns (outcome: BindOutcome)
    modifies s
    ensures s.W() == old(s.W()).(t := CreateBinding(old(s.T()), chat, inst, nonce, now).0)
    ensures outcome == CreateBinding(old(s.T()), chat, inst, nonce, now).1
  {
    var t0 := s.T();
    var stale := StartingOf(s.bindings, inst, 0);
    if stale.Some? {
      var _ := TerminateInTx(s, stale.value, BindSuperseded, Closed, now);
    }
    ExpireRequests(s, inst);
    assert s.T() == Superseded(t0, inst, now);
    var chatBusy := Taken(s, false, chat);
    var instBusy := Taken(s, true, inst);
    if chatBusy || instBusy {
      s.Restore(t0);
      chatBusy := Taken(s, false, chat);
      return if chatBusy then ChatBusy else InstanceBusy;
    }
    s.binds := s.binds + [PendingBind(inst, nonce, BPending, false, now + PENDING_BIND_TTL_MS)];
    s.bindings := s.bindings + [Binding(chat, None, inst, Starting, false, None, None, 0, None, None, None)];
    return Bound(|s.bindings| - 1);
  }

  // ---- expire_stale_pending_binds ----

  /** The requests that were overdue when the sweep looked, each in its own transaction. */
  function ExpireAll(t: Tables, r: nat, now: int): Tables
    decreases |t.binds| - r
  {
    if r >= |t.binds| then t
    else ExpireAll(ExpireBind(t, r, now), r + 1, now)
  }

  /** After the sweep no request is overdue. */
  lemma {:induction false} NoneOverdue(t: Tables, r: nat, now: int)
    requires r <= |t.binds| && forall i: nat :: i < r ==> !BindExpired(t, i, now)
    ensures |ExpireAll(t, r, now).binds| == |t.binds|
    ensures forall i: nat :: i < |t.binds| ==> !BindExpired(ExpireAll(t, r, now), i, now)
    decreases |t.binds| - r
  {
    if r < |t.binds| {
      var t1 := ExpireBind(t, r, now);
      forall i: nat | i <= r ensures !BindExpired(t1, i, now) {
        assert i < r ==> !BindExpired(t, i, now) && t1.binds[i] == t.binds[i];
      }
      NoneOverdue(t1, r + 1, now);
    }
  }

  method ExpireStalePendingBinds(s: System, now: int)
    modifies s
    ensures s.W() == old(s.W()).(t := ExpireAll(old(s.T()), 0, now))
  {
    var r := 0;
    while r < |s.binds|
      invariant |s.binds| == |old(s.binds)|
      invariant s.W() == old(s.W()).(t := s.T())
      invariant ExpireAll(s.T(), r, now) == ExpireAll(old(s.T()), 0, now)
      decreases |s.binds| - r
    {
      if s.binds[r].state.BPending? && s.binds[r].expires < now {
        s.binds := s.binds[r := s.binds[r].(state := BExpired, latch := false)];
        var _ := TerminateInTx(s, r, BindTimeout, Closed, now);
      }
      r := r + 1;
    }
  }

  // ---- activate_if_ready ----

  method ActivateWhenReady(s: System, b: nat, now: int)
    modifies s
    ensures s.W() == old(s.W()).(t := ActivateIfReady(old(s.T()), b, now))
  {
    if b >= |s.bindings| || !s.bindings[b].status.Starting? || !s.bindings[b].confirmed {
      return;
    }
    if HeartbeatFresh(s.bindings[b], now) {
      if s.bindings[b].session.Some? {
        s.jobs := AddJob(s.jobs, BoundNotice(s.bindings[b], b, now));
        s.bindings := s.bindings[b := s.bindings[b].(status := Active)];
      }
      return;
    }
    if s.bindings[b].confirmedAt.Some? && now - s.bindings[b].confirmedAt.value > ACTIVATION_TIMEOUT_MS {
      var _ := TerminateInTx(s, b, ListenerNeverReady, Closed, now);
    }
  }

  // ---- death_scan ----

  lemma ScanRunIs(w: World, now: int, glances: seq<Glance>, inSuspectWindow: bool)
    ensures Run(w, ScanRun(now, glances, inSuspectWindow))
            == Next(Run(Next(w, ByWorker(ScanDeaths(now))), ScanActs(glances, inSuspectWindow)),
                    ByWorker(JudgeNext(false, inSuspectWindow, now)))
  {
    hide Next, Run;
    var acts, last := ScanActs(glances, inSuspectWindow), [ByWorker(JudgeNext(false, inSuspectWindow, now))];
    RunAppend(w, [ByWorker(ScanDeaths(now))], acts + last);
    RunIsNext(w, ByWorker(ScanDeaths(now)));
    RunAppend(Next(w, ByWorker(ScanDeaths(now))), acts, last);
    RunIsNext(Run(Next(w, ByWorker(ScanDeaths(now))), acts), last[0]);
  }

  /** One row as read: close it, clear or set its mark, or declare it dead. */
  method JudgeOne(s: System, dead: bool, inSuspectWindow: bool, at: int) returns (closed: bool)
    requires s.daemon.Judging? && s.daemon.at < |s.daemon.seen|
    modifies s
    ensures s.W() == StepJudge(old(s.W()), dead, inSuspectWindow, at)
    ensures s.daemon == Judging(old(s.daemon.scanNow), old(s.daemon.seen), old(s.daemon.at) + 1)
    ensures closed ==> old(s.daemon.at) < |old(s.bindings)| && old(s.bindings)[old(s.daemon.at)].status.Live()
  {
    var b, seen, now := s.daemon.at, s.daemon.seen[s.daemon.at], s.daemon.scanNow;
    closed := false;
    if seen.status.Live() {
      if dead {
        closed := TerminateInTx(s, b, CcGone, Closed, at);
      } else if seen.status.Active? {
        var stale := seen.beat.None? || now - seen.beat.value > HEARTBEAT_GRACE_MS;
        if !stale {
          if seen.suspect.Some? { Mark(s, b, None); }
        } else if !inSuspectWindow {
          if seen.suspect.None? {
            Mark(s, b, Some(now));
            s.hist := s.hist.(beaten := s.hist.beaten - {b});
          } else if now - seen.suspect.value >= SUSPECT_CONFIRM_MS {
            closed := TerminateInTx(s, b, ListenerGone, Dead, at);
          }
        }
      }
    }
    s.daemon := Judging(now, s.daemon.seen, b + 1);
  }

  method Mark(s: System, b: nat, at: Option<int>)
    modifies s`bindings
    ensures s.T() == SetSuspect(old(s.T()), b, at)
  {
    if b < |s.bindings| && s.bindings[b].status.Active? {
      s.bindings := s.bindings[b := s.bindings[b].(suspect := at)];
    }
  }

  /** Others first, then the next row. */
  method JudgeAfter(s: System, g: Glance, inSuspectWindow: bool) returns (closed: bool)
    requires (hide Next, Run; s.daemon.Judging? && s.daemon.at < |s.daemon.seen| && AllForeign(g.others))
    modifies s
    ensures s.W() == Next(Run(old(s.W()), g.others), ByWorker(JudgeNext(g.dead, inSuspectWindow, g.at)))
    ensures var d := old(s.daemon); s.daemon == Judging(d.scanNow, d.seen, d.at + 1)
  {
    hide Run, StepSender, StepIntake, StepCli, StepHook, StepListener;
    ghost var w := s.W();
    s.Others(g.others);
    ForeignLeavesDaemon(w, g.others);
    closed := JudgeOne(s, g.dead, inSuspectWindow, g.at);
  }

  lemma ScanBeginsAndEnds(w: World, now: int, dead: bool, inSuspectWindow: bool, at: int)
    ensures (hide Next, Run;
             w.daemon.Idle? ==>
               Next(w, ByWorker(ScanDeaths(now)))
               == w.(daemon := Judging(now, w.t.bindings, 0),
                     hist := w.hist.(silent := Silent(w.t.bindings, w.hist.beaten))))
    ensures w.daemon.Judging? && w.daemon.at >= |w.daemon.seen| ==>
              Next(w, ByWorker(JudgeNext(dead, inSuspectWindow, at))) == w.(daemon := Idle)
  {
    hide Run, StepSender, StepIntake, StepCli, StepHook, StepListener;
  }

  /** The whole scan is the run in which it reads the rows once and then judges each, with anything in between; it
      closes no more bindings than it read. */
  method DeathScan(s: System, now: int, glances: seq<Glance>, inSuspectWindow: bool) returns (closed: nat)
    requires (hide Next, Run; s.daemon.Idle? && |glances| == |s.bindings|)
    requires forall k :: 0 <= k < |glances| ==> AllForeign(glances[k].others)
    modifies s
    ensures s.W() == Run(old(s.W()), ScanRun(now, glances, inSuspectWindow)) && s.daemon.Idle?
    ensures closed <= |old(s.bindings)|
  {
    hide Next;
    ghost var start := Next(s.W(), ByWorker(ScanDeaths(now)));
    ScanBeginsAndEnds(s.W(), now, false, inSuspectWindow, now);
    var seen := s.bindings;
    s.hist := s.hist.(silent := Silent(s.bindings, s.hist.beaten));
    s.daemon := Judging(now, seen, 0);
    closed := 0;
    var k := 0;
    while k < |seen|
      invariant k <= |seen| && closed <= k
      invariant s.daemon == Judging(now, seen, k)
      invariant s.W() == Run(start, ScanActs(glances[..k], inSuspectWindow))
    {
      var ended := JudgeAfter(s, glances[k], inSuspectWindow);
      if ended { closed := closed + 1; }
      assert glances[..k + 1][..k] == glances[..k];
      RunOneMore(start, ScanActs(glances[..k], inSuspectWindow), glances[k].others,
                 ByWorker(JudgeNext(glances[k].dead, inSuspectWindow, glances[k].at)));
      k := k + 1;
    }
    assert glances[..|seen|] == glances;
    ScanBeginsAndEnds(s.W(), now, false, inSuspectWindow, now);
    s.daemon := Idle;
    ScanRunIs(old(s.W()), now, glances, inSuspectWindow);
  }
}
