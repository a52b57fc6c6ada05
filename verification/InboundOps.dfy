/** lib/inbound.py as it runs: a message is inserted, resolved, decided and delivered step by step. */
module InboundOps {
  import opened Schema
  import opened World
  import opened Jobs
  import opened LifecycleTx
  import opened InboundTx
  import opened Machine
  import opened Scripts
  import opened System
  import opened Reach
  import Advance
  import DriveLaws
  import Drives
  import Ticks

  // ---- _insert_or_resume ----

  method FindRow(s: System, byEvent: bool, key: nat) returns (row: Option<nat>)
    ensures row.Some? ==> row.value < |s.inbox|
    ensures row.Some? ==> (if byEvent then s.inbox[row.value].event else s.inbox[row.value].message) == key
    ensures row.None? ==> forall m :: 0 <= m < |s.inbox| ==>
              (if byEvent then s.inbox[m].event else s.inbox[m].message) != key
  {
    var m := 0;
    while m < |s.inbox|
      invariant m <= |s.inbox|
      invariant forall i :: 0 <= i < m ==> (if byEvent then s.inbox[i].event else s.inbox[i].message) != key
    {
      if (if byEvent then s.inbox[m].event else s.inbox[m].message) == key { return Some(m); }
      m := m + 1;
    }
    return None;
  }

  /** A new row pinned to the chat's newest binding, the row both identifiers already name, or nothing. */
  method InsertOrResume(s: System, event: nat, message: nat, chat: nat, sender: Option<nat>, now: int)
    returns (row: Option<nat>)
    modifies s`inbox
    ensures s.T() == InsertTx(old(s.T()), event, message, chat, sender, now)
    ensures row.Some? ==> row.value < |s.inbox| && s.inbox[row.value].event == event
                          && s.inbox[row.value].message == message
    ensures row.None? ==> s.inbox == old(s.inbox)
                          && forall m :: 0 <= m < |s.inbox| && s.inbox[m].event == event ==>
                               exists i :: 0 <= i < |s.inbox| && (s.inbox[i].event == event || s.inbox[i].message == message)
  {
    var byEvent := FindRow(s, true, event);
    var byMessage := FindRow(s, false, message);
    if byEvent.None? && byMessage.None? {
      s.inbox := s.inbox + [Inbox(event, message, chat, NewestOf(s.bindings, chat, |s.bindings|), sender, None,
                                  Received, now)];
      return Some(|s.inbox| - 1);
    }
    return if byEvent == byMessage then byEvent else None;
  }

  // ---- Row states ----

  method Cas(s: System, m: nat, from: InboxState, to: InboxState, now: int) returns (moved: bool)
    requires m < |s.inbox|
    modifies s`inbox
    ensures s.T() == CasState(old(s.T()), m, from, to, now)
    ensures moved <==> old(s.inbox)[m].state == from
  {
    if s.inbox[m].state != from { return false; }
    s.inbox := s.inbox[m := s.inbox[m].(state := to, ts := now)];
    return true;
  }

  // ---- _enqueue_in_tx ----

  method EnqueueInTx(s: System, m: nat, b: nat, snap: Snap, from: InboxState, approver: ApprovedBy, receipt: bool,
                     now: int) returns (done: bool)
    requires m < |s.inbox|
    modifies s`deliveries, s`inbox, s`jobs
    ensures s.T() == EnqueueTx(old(s.T()), m, b, snap, from, approver, receipt, now).0
    ensures done == EnqueueTx(old(s.T()), m, b, snap, from, approver, receipt, now).1
  {
    if b >= |s.bindings| || !s.bindings[b].status.Active? { return false; }
    var known := DeliveryOf(s.deliveries, b, m, 0);
    var seqno := if known.Some? then known.value else |s.deliveries|;
    if known.None? {
      s.deliveries := s.deliveries + [Delivery(b, m, Some(Payload(snap.sender, approver)), DEnqueued, None, None, None,
                                               0, now)];
    }
    MarkEnqueued(s, m, b, from, seqno, receipt, now);
    return true;
  }

  method MarkEnqueued(s: System, m: nat, b: nat, from: InboxState, seqno: nat, receipt: bool, now: int)
    requires m < |s.inbox|
    modifies s`inbox, s`jobs
    ensures var t := CasState(old(s.T()), m, from, Enqueued, now);
            s.T() == if receipt then t.(jobs := AddJob(t.jobs, ReceiptJob(old(s.inbox)[m].chat, b, m, seqno, now))) else t
  {
    var _ := Cas(s, m, from, Enqueued, now);
    if receipt { s.jobs := AddJob(s.jobs, ReceiptJob(s.inbox[m].chat, b, m, seqno, now)); }
  }

  // ---- _gate_active_in_tx ----

  method CheckQuota(s: System, chat: nat, sender: Option<nat>, now: int) returns (over: bool)
    ensures over == OverQuota(s.T(), chat, sender, now)
  {
    var undecided, last, p: nat := 0, None, |s.pendings|;
    while p > 0
      invariant p <= |s.pendings|
      invariant undecided == CountUndecided(s.T(), chat, p) && last == LastPending(s.T(), sender, p)
    {
      p := p - 1;
      var row := s.pendings[p];
      if row.msg < |s.inbox| {
        if s.inbox[row.msg].chat == chat && row.state.PPending? { undecided := undecided + 1; }
        if sender.Some? && s.inbox[row.msg].sender == sender && (last.None? || last.value < row.createdAt) {
          last := Some(row.createdAt);
        }
      }
    }
    return undecided >= MAX_UNDECIDED_PER_CHAT || (last.Some? && 0 <= now - last.value < SENDER_COOLDOWN_MS);
  }

  /** Unsupported, the owner, an allowlisted member, over quota, or an approval card. */
  method GateInTx(s: System, m: nat, snap: Snap, b: nat, from: InboxState, listed: bool, nonce: nat, now: int)
    returns (media: bool)
    requires m < |s.inbox|
    modifies s`deliveries, s`inbox, s`jobs, s`pendings
    ensures s.T() == GateTx(old(s.T()), s.cfg, m, snap, b, from, listed, nonce, now).0
    ensures media == GateTx(old(s.T()), s.cfg, m, snap, b, from, listed, nonce, now).1
  {
    if !snap.msgType.Supported() {
      RefuseInTx(s, m, b, from, now);
      return false;
    }
    if snap.sender == Some(s.cfg.owner) {
      if snap.msgType.Media() { return true; }
      var _ := EnqueueInTx(s, m, b, snap, from, NoApprover, true, now);
      return false;
    }
    if snap.sender.Some? && listed {
      if snap.msgType.Media() { return true; }
      var _ := EnqueueInTx(s, m, b, snap, from, ByAllowlist, true, now);
      return false;
    }
    var over := CheckQuota(s, s.inbox[m].chat, snap.sender, now);
    if over {
      var _ := Cas(s, m, from, FailedIn, now);
      return false;
    }
    OpenApprovalInTx(s, m, b, from, nonce, now);
    return false;
  }

  method RefuseInTx(s: System, m: nat, b: nat, from: InboxState, now: int)
    requires m < |s.inbox|
    modifies s`inbox, s`jobs
    ensures var t1 := CasState(old(s.T()), m, from, Unsupported, now);
            s.T() == t1.(jobs := AddJob(t1.jobs, UnsupportedJob(old(s.inbox)[m].chat, b, m, now)))
  {
    var _ := Cas(s, m, from, Unsupported, now);
    s.jobs := AddJob(s.jobs, UnsupportedJob(s.inbox[m].chat, b, m, now));
  }

  method OpenApprovalInTx(s: System, m: nat, b: nat, from: InboxState, nonce: nat, now: int)
    requires m < |s.inbox|
    modifies s`inbox, s`jobs, s`pendings
    ensures s.T() == OpenApproval(old(s.T()), m, b, from, nonce, now)
  {
    var p := |s.pendings|;
    s.pendings := s.pendings + [Pending(m, b, nonce, None, PPending, None, None, now)];
    var _ := Cas(s, m, from, AwaitingApproval, now);
    s.jobs := AddJob(s.jobs, CardJob(s.inbox[m].chat, b, p, now));
  }

  /** Close the row of an ended binding and tell the chat. */
  method Tell(s: System, m: nat, from: InboxState, b: Option<Binding>, now: int)
    requires m < |s.inbox| && (b.Some? ==> !b.value.status.Live())
    modifies s`inbox, s`jobs
    ensures s.T() == TellTx(old(s.T()), m, from, b, now)
  {
    var target := MapTerminated(b);
    var _ := Cas(s, m, from, target, now);
    s.jobs := AddInboundNotice(s.jobs, s.inbox[m].chat, m, target, if b.Some? then s.inbox[m].binding else None, now);
  }

  // ---- _drive_resolving, _decide_in_tx, _drive_waiting ----

  method DecideInTx(s: System, m: nat, fetched: Snap, listed: bool, nonce: nat, now: int) returns (media: bool)
    requires m < |s.inbox|
    modifies s`deliveries, s`inbox, s`jobs, s`pendings
    ensures s.T() == DecideTx(old(s.T()), s.cfg, m, fetched, listed, nonce, now).0
    ensures media == DecideTx(old(s.T()), s.cfg, m, fetched, listed, nonce, now).1
  {
    if !s.inbox[m].state.Resolving? { return false; }
    var snap := SnapOf(s.T(), m, fetched);
    s.inbox := s.inbox[m := s.inbox[m].(snap := Some(snap), sender := snap.sender)];
    if !snap.mentioned {
      s.inbox := s.inbox[m := s.inbox[m].(state := IgnoredNotMentioned, snap := None, ts := now)];
      return false;
    }
    var b := BindingOf(s.T(), m);
    if b.None? || !b.value.status.Live() {
      Tell(s, m, Resolving, b, now);
      return false;
    }
    if b.value.status.Starting? {
      var _ := Cas(s, m, Resolving, WaitingBinding, now);
      return false;
    }
    media := GateInTx(s, m, snap, s.inbox[m].binding.value, Resolving, listed, nonce, now);
  }

  method WaitingInTx(s: System, m: nat, fetched: Snap, listed: bool, nonce: nat, now: int) returns (media: bool)
    requires m < |s.inbox|
    modifies s`deliveries, s`inbox, s`jobs, s`pendings
    ensures s.T() == WaitingTx(old(s.T()), s.cfg, m, fetched, listed, nonce, now).0
    ensures media == WaitingTx(old(s.T()), s.cfg, m, fetched, listed, nonce, now).1
  {
    if !s.inbox[m].state.WaitingBinding? { return false; }
    var b := BindingOf(s.T(), m);
    if b.Some? && b.value.status.Active? {
      media := GateInTx(s, m, SnapOf(s.T(), m, fetched), s.inbox[m].binding.value, WaitingBinding, listed, nonce, now);
      return;
    }
    if b.None? || !b.value.status.Live() { Tell(s, m, WaitingBinding, b, now); }
    return false;
  }

  // ---- _materialize_then_finalize ----

  /** The transaction after a download, which does not look at the row's state again. */
  method FinalizeMedia(s: System, m: nat, snap: Snap, from: InboxState, pending: Option<nat>, now: int)
    requires m < |s.inbox|
    modifies s`deliveries, s`inbox, s`jobs
    ensures s.T() == MediaDoneTx(old(s.T()), s.cfg, m, snap, from, pending, now)
  {
    var t0 := s.T();
    var b := BindingOf(t0, m);
    if b.Some? && b.value.status.Active? {
      var approver := MediaApprover(t0, s.cfg, snap, pending);
      var _ := EnqueueInTx(s, m, s.inbox[m].binding.value, snap, from, approver, pending.None?, now);
      if pending.Some? {
        s.jobs := AddJob(s.jobs, DecisionJob(t0, m, pending.value, ExpectPend(PApproved), now));
      }
    } else if pending.Some? {
      var _ := Cas(s, m, from, Undeliverable, now);
    } else if !(b.Some? && b.value.status.Live()) && s.inbox[m].state == from {
      Tell(s, m, from, b, now);
    }
  }

  method MarkBroken(s: System, m: nat, from: InboxState, pending: Option<nat>, now: int)
    requires m < |s.inbox|
    modifies s`inbox, s`jobs
    ensures s.T() == MediaFailedTx(old(s.T()), m, from, pending, now)
  {
    var t0 := s.T();
    var _ := Cas(s, m, from, FailedIn, now);
    if pending.Some? {
      s.jobs := AddJob(s.jobs, DecisionJob(t0, m, pending.value, ExpectInbox(FailedIn), now));
    }
  }

  lemma DownloadInRange(w: World)
    requires (hide Next, Run; Reached(w) && w.daemon.Materializing?)
    ensures w.daemon.msg < |w.t.inbox|
  {
    hide Next, Run;
    SoundWhenReached(w);
  }

  /** The download, with other processes at work while it runs, and what it leads to. */
  method MaterializeThenFinalize(s: System, downloading: seq<Act>, download: Download, now: int)
    requires (hide Next, Run; s.Valid() && s.daemon.Materializing? && AllForeign(downloading))
    modifies s
    ensures s.Valid() && s.daemon.Idle?
    ensures s.W() == Run(old(s.W()), downloading + [DownloadAct(download, now)])
  {
    hide Run, StepSender, StepWorker, StepCli, StepHook, StepListener;
    ghost var w0 := s.W();
    s.Others(downloading);
    ForeignLeavesDaemon(w0, downloading);
    ghost var w1 := s.W();
    DownloadInRange(w1);
    var d := s.daemon;
    match download {
      case Broken => MarkBroken(s, d.msg, d.from, d.pending, now);
      case NotYet =>
      case Stored => FinalizeMedia(s, d.msg, d.snap, d.from, d.pending, now);
    }
    s.daemon := Idle;
    assert s.W() == Next(w1, DownloadAct(download, now));
    RunAppend(w0, downloading, [DownloadAct(download, now)]);
    RunIsNext(w1, DownloadAct(download, now));
    ReachedNext(w1, DownloadAct(download, now));
  }

  // ---- drive_row ----

  lemma InboxStays(w: World, acts: seq<Act>)
    requires Reached(w)
    ensures |w.t.inbox| <= |Run(w, acts).t.inbox|
  {
    hide Next, Run;
    SoundWhenReached(w);
    Advance.AdvanceRun(w, acts);
  }

  /** The download a decision asked for, if it did. */
  method DownloadIfAsked(s: System, e: Encounter)
    requires (hide Next, Run; s.Valid() && (s.daemon.Idle? || s.daemon.Materializing?) && ForeignEncounter(e))
    modifies s
    ensures s.Valid() && s.daemon.Idle? && s.W() == Run(old(s.W()), DownloadActs(old(s.W()), e))
  {
    hide Next;
    if s.daemon.Materializing? { MaterializeThenFinalize(s, e.downloading, e.download, e.now); }
  }

  /** The decision on a row that is resolving or waiting, after the fetch. */
  method DecideNow(s: System, m: nat, fetched: Snap, waiting: bool, e: Encounter)
    requires (hide Next, Run; s.Valid() && s.daemon.Idle? && m < |s.inbox|)
    modifies s
    ensures s.Valid() && (s.daemon.Idle? || s.daemon.Materializing?)
    ensures s.W() == Next(old(s.W()), DecideAct(m, fetched, waiting, e))
  {
    hide Run, StepSender, StepWorker, StepCli, StepHook, StepListener;
    ghost var w := s.W();
    var from := if waiting then WaitingBinding else Resolving;
    var snap := SnapOf(s.T(), m, fetched);
    var noted := NoteListed(s.hist, s.T(), s.cfg, m, snap, from, e.listed);
    var media: bool;
    if waiting {
      media := WaitingInTx(s, m, fetched, e.listed, e.nonce, e.now);
    } else {
      media := DecideInTx(s, m, fetched, e.listed, e.nonce, e.now);
    }
    s.hist := noted;
    if media { s.daemon := Materializing(m, snap, from, None); }
    ReachedNext(w, DecideAct(m, fetched, waiting, e));
  }

  method DecideRow(s: System, m: nat, fetched: Snap, waiting: bool, e: Encounter)
    requires (hide Next, Run; s.Valid() && s.daemon.Idle? && m < |s.inbox| && ForeignEncounter(e))
    modifies s
    ensures s.Valid() && s.daemon.Idle? && s.W() == Run(old(s.W()), DecideActs(old(s.W()), m, fetched, waiting, e))
  {
    hide Next, Run;
    ghost var w0 := s.W();
    s.Others(e.fetching);
    ForeignLeavesDaemon(w0, e.fetching);
    InboxStays(w0, e.fetching);
    ghost var w1, a := s.W(), DecideAct(m, fetched, waiting, e);
    DecideNow(s, m, fetched, waiting, e);
    RunAppend(w0, e.fetching, [a]);
    RunIsNext(w1, a);
    ghost var w2 := s.W();
    DownloadIfAsked(s, e);
    RunAppend(w0, e.fetching + [a], DownloadActs(w2, e));
  }

  /** A message whose approval was granted: download again. */
  method DriveMaterializing(s: System, m: nat, e: Encounter)
    requires (hide Next, Run; s.Valid() && s.daemon.Idle? && m < |s.inbox| && s.inbox[m].state.ApprovedMaterializing?)
    requires ForeignEncounter(e)
    modifies s
    ensures s.Valid() && s.daemon.Idle? && s.W() == Run(old(s.W()), MaterializeActs(old(s.W()), m, e))
  {
    var pending := ApprovedPendingOf(s.T(), m);
    if pending.None? || !Readable(s.T(), m, e) { return; }
    ghost var w0 := s.W();
    var fetched := Fetched(s.T(), m, e);
    s.daemon := Materializing(m, SnapOf(s.T(), m, fetched), ApprovedMaterializing, pending);
    ghost var a := ByIntake(StartMaterializing(m, fetched));
    assert s.W() == Next(w0, a);
    ReachedNext(w0, a);
    RunIsNext(w0, a);
    ghost var w1 := s.W();
    DownloadIfAsked(s, e);
    RunAppend(w0, [a], DownloadActs(w1, e));
  }

  lemma ReadyWhenReached(w: World)
    requires Reached(w) && w.daemon.Idle?
    ensures Ticks.Ready(w)
  {
    hide Next, Run;
    SoundWhenReached(w);
  }

  method StartRow(s: System, m: nat, now: int)
    requires (hide Next, Run; s.Valid() && s.daemon.Idle? && m < |s.inbox|)
    modifies s
    ensures s.Valid() && s.daemon.Idle? && s.W() == Next(old(s.W()), ByIntake(StartResolving(m, now)))
  {
    hide Run, StepSender, StepWorker, StepCli, StepHook, StepListener;
    ghost var w := s.W();
    var _ := Cas(s, m, Received, Resolving, now);
    ReachedNext(w, ByIntake(StartResolving(m, now)));
  }

  /** A reading that finds the row past `received` is the last. */
  method DriveOn(s: System, m: nat, e: Encounter, ghost left: nat)
    requires (hide Next, Run; s.Valid() && s.daemon.Idle? && ForeignEncounter(e) && left > 0 && m < |s.inbox|)
    requires !s.inbox[m].state.Received?
    modifies s
    ensures s.Valid() && s.daemon.Idle? && s.W() == Run(old(s.W()), DriveActs(old(s.W()), m, e, left))
  {
    hide Next;
    match s.inbox[m].state {
      case Resolving => if Readable(s.T(), m, e) { DecideRow(s, m, Fetched(s.T(), m, e), false, e); }
      case WaitingBinding =>
        if Readable(s.T(), m, e) && !WaitsForStart(s.T(), m) { DecideRow(s, m, Fetched(s.T(), m, e), true, e); }
      case ApprovedMaterializing => DriveMaterializing(s, m, e);
      case _ =>
    }
  }

  lemma OneReadingOn(w: World, m: nat, e: Encounter, left: nat)
    requires (hide Next, Run; left > 0 && m < |w.t.inbox| && w.t.inbox[m].state.Received?)
    ensures var w1 := Next(w, ByIntake(StartResolving(m, e.now)));
            Run(w1, DriveActs(w1, m, e, left - 1)) == Run(w, DriveActs(w, m, e, left))
  {
    hide Next, Run;
    var a := ByIntake(StartResolving(m, e.now));
    RunIsNext(w, a);
    RunAppend(w, [a], DriveActs(Next(w, a), m, e, left - 1));
  }

  /** The row is re-read up to four times: received becomes resolving, and the next reading drives it on. A message that
      can be read ends where its sender, its type, its binding and the answers take it, and unless its download is put
      off it is settled then. */
  method DriveRow(s: System, m: nat, e: Encounter)
    requires (hide Next, Run; s.Valid() && s.daemon.Idle? && ForeignEncounter(e))
    modifies s
    ensures s.Valid() && s.daemon.Idle? && s.W() == Run(old(s.W()), DriveActs(old(s.W()), m, e, READINGS))
    ensures old(m < |s.inbox| && Readable(s.T(), m, e)) && !e.download.NotYet? ==>
              m < |s.inbox| && Drives.Settled(s.T(), m)
    ensures old(m < |s.inbox| && Readable(s.T(), m, e)) ==> DriveLaws.DriveLed(old(s.W()), s.W(), m, e)
  {
    hide Next;
    ghost var w0 := s.W();
    var readings := 0;
    while readings < READINGS && m < |s.inbox|
      invariant readings <= READINGS && s.Valid() && s.daemon.Idle?
      invariant Run(s.W(), DriveActs(s.W(), m, e, READINGS - readings)) == Run(w0, DriveActs(w0, m, e, READINGS))
    {
      if !s.inbox[m].state.Received? {
        DriveOn(s, m, e, READINGS - readings);
        break;
      }
      OneReadingOn(s.W(), m, e, READINGS - readings);
      StartRow(s, m, e.now);
      readings := readings + 1;
    }
    assert s.W() == Run(w0, DriveActs(w0, m, e, READINGS));
    DriveHasSettled(w0, m, e);
  }

  lemma DriveHasSettled(w: World, m: nat, e: Encounter)
    requires (hide Next, Run; Reached(w) && w.daemon.Idle? && ForeignEncounter(e))
    ensures var t' := Run(w, DriveActs(w, m, e, READINGS)).t;
            m < |w.t.inbox| && Readable(w.t, m, e) && !e.download.NotYet? ==> m < |t'.inbox| && Drives.Settled(t', m)
    ensures m < |w.t.inbox| && Readable(w.t, m, e) ==>
              DriveLaws.DriveLed(w, Run(w, DriveActs(w, m, e, READINGS)), m, e)
  {
    hide Next, Run;
    ReadyWhenReached(w);
    if m < |w.t.inbox| && Readable(w.t, m, e) { DriveLaws.DriveLeads(w, m, e); }
    if m < |w.t.inbox| && Readable(w.t, m, e) && !e.download.NotYet? { Drives.DriveSettles(w, m, e, READINGS); }
  }
}
