/** The main claims: what holds in every state of every run from an empty database, whatever the processes, the network,
    the clocks and the users do, and wherever a process dies. */
module Safety {
  import opened Schema
  import opened World
  import opened TurnText
  import opened OutboundTx
  import opened LifecycleTx
  import opened BindTx
  import opened InboundTx
  import opened ApprovalTx
  import opened RecoveryTx
  import opened ListenerTx
  import opened Machine
  import opened Scripts
  import Frames
  import opened QueueInvariant
  import opened QueueRun
  import opened QueueHistory
  import opened IntakeInvariant
  import opened BindInvariant
  import opened ListenerInvariant
  import QueueSteps
  import IntakeRun
  import IntakeSteps
  import Advance
  import UnbindClaims
  import SendClaims
  import Quota
  import ListenerClaims
  import Ticks
  import SendLaws
  import IntakeLaws
  import Drives
  import DriveLaws
  import BindLaws

  ghost predicate Sound(w: World) {
    QueueAt(w) && IntakeRun.IntakeAt(w) && BindAt(w) && ListenAt(w) && SpansSay(w.hist.spans)
  }

  lemma SoundStep(w: World, a: Act)
    requires Sound(w)
    ensures Sound(Next(w, a))
  {
    hide Next, Run;
    QueueStep(w, a);
    IntakeRun.IntakeStep(w, a);
    BindStep(w, a);
    ListenStep(w, a);
    SpansSayStep(w, a);
  }

  lemma {:induction false} SoundRun(w: World, acts: seq<Act>)
    requires Sound(w)
    ensures Sound(Run(w, acts))
    decreases |acts|
  {
    hide Next;
    if acts != [] {
      SoundStep(w, acts[0]);
      SoundRun(Next(w, acts[0]), acts[1..]);
    }
  }

  function After(cfg: Config, acts: seq<Act>): World { Run(Initial(cfg), acts) }

  lemma InitiallySound(cfg: Config)
    ensures Sound(Initial(cfg))
  {}

  /** Every reachable state is sound. */
  lemma ReachedIsSound(cfg: Config, acts: seq<Act>)
    ensures Sound(After(cfg, acts))
  {
    hide Next, Run, Sound;
    InitiallySound(cfg);
    SoundRun(Initial(cfg), acts);
  }

  lemma QueueReached(cfg: Config, acts: seq<Act>)
    ensures QueueAt(After(cfg, acts))
  {
    hide Next, Run;
    ReachedIsSound(cfg, acts);
  }

  // ---- The outbound queue ----

  /** A turn's job that is in flight, or ever was, has overtaken nothing: every job of every earlier turn of its binding
      is sent, failed or cancelled. */
  lemma NoTurnOvertakes(cfg: Config, acts: seq<Act>, p: nat, j: nat)
    requires (hide Next, Run; p < j < |After(cfg, acts).t.jobs|)
    requires SameBindingOtherTurn(After(cfg, acts).t.jobs[p], After(cfg, acts).t.jobs[j])
    requires After(cfg, acts).t.jobs[j].state.Sending? || After(cfg, acts).t.jobs[j].state.Sent?
             || After(cfg, acts).t.jobs[j].attempts > 0
    ensures After(cfg, acts).t.jobs[p].state.Terminal()
  {
    hide Next, Run;
    ReachedIsSound(cfg, acts);
    assert RowOk(After(cfg, acts).t.jobs[j]);
  }

  /** Nothing is transmitted more often than its budget: six times a turn, five a card, twice anything else; and at most
      one job is in flight. */
  lemma BudgetsHold(cfg: Config, acts: seq<Act>, j: nat)
    requires (hide Next, Run; j < |After(cfg, acts).t.jobs|)
    ensures var job := After(cfg, acts).t.jobs[j];
            0 <= job.attempts <= (if job.kind.SessionTurn? then TURN_MAX_ATTEMPTS
                                  else if job.kind.ApprovalCard? then CARD_REARM_MAX_ATTEMPTS else MAX_SEND_ATTEMPTS)
    ensures OneSending(After(cfg, acts).t.jobs)
  {
    hide Next, Run;
    ReachedIsSound(cfg, acts);
    assert RowOk(After(cfg, acts).t.jobs[j]);
  }

  /** The one point where anything is sent: whatever step brings a job into flight is the sender's transaction for that
      row, and in the tables it saw the job's chat was allowed, its turn in order, its guard true and its attempts below
      the cap. */
  lemma SendingIsGuarded(cfg: Config, acts: seq<Act>, a: Act, j: nat)
    requires (hide Next, Run; SendClaims.Launched(After(cfg, acts), Next(After(cfg, acts), a), j))
    ensures a.BySender? && a.sender.PrepareNext? && SendClaims.Cleared(After(cfg, acts), j, a.sender.prepareNow)
  {
    hide *;
    QueueReached(cfg, acts);
    SendClaims.OnlyPrepareLaunches(After(cfg, acts), a, j);
  }

  /** What has been recorded as sent of a turn is, in order, a prefix of its message with the footer, and all of it once
      every chunk is sent. */
  lemma PrefixDelivery(cfg: Config, acts: seq<Act>, g: nat) returns (text: string, footer: string, m: nat)
    requires (hide Next, Run; g in After(cfg, acts).hist.spans)
    ensures var w := After(cfg, acts);
            var span := w.hist.spans[g];
            && Says(span.chunks, text, footer) && m <= |span.chunks| && span.base + |span.chunks| <= |w.t.jobs|
            && (forall j :: span.base <= j < span.base + |span.chunks| ==> OfTurn(w.t.jobs[j], g))
            && (forall i :: 0 <= i < |span.chunks| ==> (ChunkSent(w.t.jobs, span.base, i) <==> i < m))
            && Delivered(w.t.jobs, w.hist.acked, span.base, |span.chunks|) <= text + footer
            && (m == |span.chunks| ==>
                  Delivered(w.t.jobs, w.hist.acked, span.base, |span.chunks|) == text + footer)
  {
    hide Next, Run;
    ReachedIsSound(cfg, acts);
    var w := After(cfg, acts);
    var span := w.hist.spans[g];
    assert SpanSays(span);
    text, footer :| Says(span.chunks, text, footer);
    m := SentPrefix(w.t.jobs, w.hist.spans, w.hist.acked, w.t.nextId, g, |span.chunks|);
    DeliveredIs(w.t.jobs, w.hist.spans, w.hist.acked, w.t.nextId, g, |span.chunks|, m);
    TurnTextWhole(text, footer);
    ConcatPrefix(span.chunks, m);
    assert span.chunks[..|span.chunks|] == span.chunks;
  }

  /** After a chunk failed or was cancelled, no later chunk of the turn is ever sent out, in any continuation. */
  lemma NothingAfterAFailedChunk(cfg: Config, acts: seq<Act>, more: seq<Act>, g: nat, i: nat, k: nat)
    requires (hide Next, Run; ChunkFailed(After(cfg, acts), g, i) && i < k < |After(cfg, acts).hist.spans[g].chunks|)
    ensures Unsent(Run(After(cfg, acts), more), After(cfg, acts).hist.spans[g].base + k)
  {
    hide *;
    QueueReached(cfg, acts);
    FailureLasts(After(cfg, acts), more, g, i, k);
  }

  /** Whoever is in doubt gets its remaining attempts: a turn whose call ends in doubt is given up exactly after its sixth
      transmission, or its second if nothing speaks for a retry, and else goes out again later; anything else in doubt goes
      out once more at most. A turn is alerted exactly when it is given up. */
  lemma DoubtIsRetried(cfg: Config, acts: seq<Act>, retryable: bool, now: int)
    requires (hide Next, Run; After(cfg, acts).daemon.InFlight?)
    ensures var w := After(cfg, acts);
            var w', k := Next(w, BySender(Finish(InDoubt(retryable), now))), w.daemon.k;
            && k < |w.daemon.rows| && w.daemon.rows[k] < |w.t.jobs| <= |w'.t.jobs|
            && (var a, b := w.t.jobs[w.daemon.rows[k]], w'.t.jobs[w.daemon.rows[k]];
                && a.state.Sending? && b.attempts == a.attempts && b.body == a.body
                && (if a.kind.SessionTurn? then
                      && (b.state.Failed? <==> a.attempts >= if retryable then 6 else 2)
                      && (!b.state.Failed? ==> b.state.Unknown? && b.next.Some? && now < b.next.value <= now + 45_000)
                      && (|w'.t.jobs| > |w.t.jobs| <==> b.state.Failed? && a.group.Some? && a.group.value.TurnGroup?)
                    else
                      b.state.Unknown? && (b.next.Some? <==> a.attempts < 2) && |w'.t.jobs| == |w.t.jobs|))
  {
    hide Next, Run;
    QueueReached(cfg, acts);
    var w := After(cfg, acts);
    SendLaws.AnswerSettles(w, InDoubt(retryable), now);
    assert RowOk(w.t.jobs[w.daemon.rows[w.daemon.k]]);
  }

  /** Alerts neither get lost nor multiply. */
  lemma AlertsMatchGiveUps(cfg: Config, acts: seq<Act>)
    ensures (hide Next, Run;
            var js := After(cfg, acts).t.jobs;
            |AlertRows(js)| == |GivenUpRows(js)| <= |RealTurnRows(js)|
            && (forall k :: k in AlertRows(js) ==> js[k].group.value.job in GivenUpRows(js)))
  {
    hide Next, Run;
    ReachedIsSound(cfg, acts);
    var w := After(cfg, acts);
    AlertsAreConserved(w.t.jobs, w.hist.spans, w.hist.acked, w.t.nextId);
    forall k | k in AlertRows(w.t.jobs) ensures w.t.jobs[k].group.value.job in GivenUpRows(w.t.jobs) {}
  }

  /** The three safety nets of slow_tick have nothing to catch: no stale `sending`, no delivery queued for an ended
      binding, no binding waiting for a bind request that is over. */
  lemma SafetyNetsAreEmpty(cfg: Config, acts: seq<Act>, b: nat, now: int)
    requires After(cfg, acts).daemon.Idle?
    ensures var t := After(cfg, acts).t;
            LegacySending(t.jobs, now) == t.jobs && SweepStranded(t) == t && CloseOrphan(t, b, now) == t
  {
    hide Next, Run;
    ReachedIsSound(cfg, acts);
    var w := After(cfg, acts);
    QueueSteps.LegacySendingIsIdle(w.t.jobs, now);
    IntakeRun.SweepFindsNothing(w.t, w.hist.allowed, w.cfg.owner);
    NoOrphanStarting(w.t, w.stops, w.hist.bindTurn, b);
  }

  // ---- Approvals and deliveries ----

  /** An approval is open exactly while its message awaits it, and then its binding is active; a decided one agrees with
      where its message went; and a message awaits an approval only if it has one. */
  lemma ApprovalsAgreeWithInbox(cfg: Config, acts: seq<Act>)
    ensures (hide Next, Run;
            var t := After(cfg, acts).t;
            && (forall p :: 0 <= p < |t.pendings| ==>
                  PendingFits(t.pendings[p], t.inbox, t.bindings)
                  && (t.pendings[p].state.PPending? <==> t.inbox[t.pendings[p].msg].state.AwaitingApproval?))
            && (forall m :: 0 <= m < |t.inbox| && t.inbox[m].state.AwaitingApproval? ==>
                  exists p :: 0 <= p < |t.pendings| && t.pendings[p].msg == m && t.pendings[p].state.PPending?)
            && (forall p, q :: 0 <= p < q < |t.pendings| ==> t.pendings[p].msg != t.pendings[q].msg))
  {
    hide Next, Run;
    ReachedIsSound(cfg, acts);
    var t := After(cfg, acts).t;
    forall p | 0 <= p < |t.pendings|
      ensures t.pendings[p].state.PPending? <==> t.inbox[t.pendings[p].msg].state.AwaitingApproval?
    {
      assert PendingFits(t.pendings[p], t.inbox, t.bindings);
    }
    forall m | 0 <= m < |t.inbox| && t.inbox[m].state.AwaitingApproval?
      ensures exists p :: 0 <= p < |t.pendings| && t.pendings[p].msg == m && t.pendings[p].state.PPending?
    {
      assert HasPending(t.pendings, m);
      var p :| 0 <= p < |t.pendings| && t.pendings[p].msg == m;
      assert PendingFits(t.pendings[p], t.inbox, t.bindings);
    }
    assert PendingsDistinct(t.pendings);
  }

  /** A click is applied, late, invalid or a duplicate, but never torn: no exception, and a valid one is late exactly when
      the approval was decided before, so the abort after a failed enqueue cannot happen. */
  lemma ClicksAreDecided(cfg: Config, acts: seq<Act>, c: Callback, now: int)
    ensures (hide Next, Run;
            var w := After(cfg, acts);
            var r := CallbackTx(w.t, w.cfg, c, now).1;
            !r.Raised?
            && (c.event !in w.t.callbacks && ValidCallback(w.t, w.cfg, c) ==>
                  (r.Late? <==> !w.t.pendings[c.pending.value].state.PPending?)))
  {
    hide Next, Run;
    ReachedIsSound(cfg, acts);
    var w := After(cfg, acts);
    IntakeSteps.CallbackDecides(w.t, w.cfg, w.hist.allowed, c, now);
  }

  /** The button decides: the owner's new click on an open approval grants it or refuses it as it says, and its message
      with it; any other click changes nothing but the list of seen events. */
  lemma ClicksDoWhatTheySay(cfg: Config, acts: seq<Act>, c: Callback, now: int)
    requires (hide Next, Run; After(cfg, acts).daemon.Idle?)
    ensures var w := After(cfg, acts);
            var t' := Next(w, ByIntake(Click(c, now))).t;
            if IntakeLaws.Opens(w.t, w.cfg, c) then IntakeLaws.Decides(w.t, t', w.cfg, c, now)
            else t' == w.t.(callbacks := w.t.callbacks + {c.event})
  {
    hide Next, Run;
    ReachedIsSound(cfg, acts);
    IntakeLaws.ClickLeads(After(cfg, acts), c, now);
  }

  /** The message, read and mentioned, is the owner's or a listed member's and no media, and the binding it was pinned to is
      active when it is decided. */
  predicate GoesStraight(w: World, m: nat, snap: Snap, e: Encounter) {
    && m < |w.t.inbox| && snap.mentioned && (snap.msgType.Text? || snap.msgType.Post?)
    && (snap.sender == Some(w.cfg.owner) || (snap.sender.Some? && e.listed))
    && w.t.inbox[m].binding.Some? && w.t.inbox[m].binding.value < |w.t.bindings|
    && w.t.bindings[w.t.inbox[m].binding.value].status.Active?
  }

  /** The world in which a new message is decided: after the fetch, with others at work meanwhile. */
  function AtDecision(w: World, m: nat, e: Encounter): World
    requires m < |w.t.inbox|
  {
    Run(if w.t.inbox[m].state.Received? then DriveLaws.Started(w, m, e.now) else w, e.fetching)
  }

  /** Such a message gets there: after one drive it is queued for its binding exactly once, under its sender's name, and
      marked as let through by the allowlist if it is not the owner's. */
  lemma MessagesGetThere(cfg: Config, acts: seq<Act>, m: nat, e: Encounter)
    requires (hide Next, Run; After(cfg, acts).daemon.Idle? && m < |After(cfg, acts).t.inbox| && ForeignEncounter(e))
    requires After(cfg, acts).t.inbox[m].state.Received? || After(cfg, acts).t.inbox[m].state.Resolving?
    requires Readable(After(cfg, acts).t, m, e)
    requires GoesStraight(AtDecision(After(cfg, acts), m, e), m, DriveLaws.SnapFor(After(cfg, acts).t.inbox[m], e), e)
    ensures var w, w1 := After(cfg, acts), AtDecision(After(cfg, acts), m, e);
            var t', snap := Run(w, DriveActs(w, m, e, READINGS)).t, DriveLaws.SnapFor(w.t.inbox[m], e);
            && m < |t'.inbox| && t'.inbox[m].state.Enqueued?
            && t'.deliveries == w1.t.deliveries + [Delivery(
                 w1.t.inbox[m].binding.value, m,
                 Some(Payload(snap.sender, if snap.sender == Some(w1.cfg.owner) then NoApprover else ByAllowlist)),
                 DEnqueued, None, None, None, 0, e.now)]
  {
    hide Next, Run, DriveActs, BindAt, ListenAt, QueueAt, IntakeRun.IntakeAt;
    ReachedIsSound(cfg, acts);
    var w := After(cfg, acts);
    var w0 := if w.t.inbox[m].state.Received? then DriveLaws.Started(w, m, e.now) else w;
    DriveLaws.DriveLeads(w, m, e);
    Drives.ForeignRows(w0, e.fetching);
    assert Drives.RowForeign(w0.t.inbox[m], Run(w0, e.fetching).t.inbox[m]);
  }

  /** What is decided, finished, printed or ended stays so in every continuation. */
  lemma NothingIsTakenBack(cfg: Config, acts: seq<Act>, more: seq<Act>)
    ensures Advance.Advances(After(cfg, acts).t, Run(After(cfg, acts), more).t)
  {
    hide Next, Run;
    ReachedIsSound(cfg, acts);
    Advance.AdvanceRun(After(cfg, acts), more);
  }

  /** There is a delivery for a message exactly when the message is enqueued, only one, and it goes to the message's
      binding. */
  lemma DeliveriesAreConserved(cfg: Config, acts: seq<Act>, m: nat)
    requires (hide Next, Run; m < |After(cfg, acts).t.inbox|)
    ensures var t := After(cfg, acts).t;
            && (t.inbox[m].state.Enqueued? <==> exists d :: 0 <= d < |t.deliveries| && t.deliveries[d].msg == m)
            && (forall d :: 0 <= d < |t.deliveries| && t.deliveries[d].msg == m ==>
                  t.inbox[m].binding == Some(t.deliveries[d].binding))
            && (forall d, e :: 0 <= d < e < |t.deliveries| ==> t.deliveries[d].msg != t.deliveries[e].msg)
  {
    hide Next, Run;
    ReachedIsSound(cfg, acts);
    var t := After(cfg, acts).t;
    if t.inbox[m].state.Enqueued? { assert HasDelivery(t.deliveries, m); }
    forall d | 0 <= d < |t.deliveries| && t.deliveries[d].msg == m
      ensures t.inbox[m].state.Enqueued? && t.inbox[m].binding == Some(t.deliveries[d].binding)
    {
      assert DeliveryFits(t.deliveries[d], t.inbox, t.bindings);
    }
    assert DeliveriesDistinct(t.deliveries);
  }

  /** That binding is the one that was the chat's newest when the message came in. */
  lemma PinnedAtArrival(cfg: Config, acts: seq<Act>, event: nat, message: nat, chat: nat, sender: Option<nat>, now: int,
                        more: seq<Act>)
    requires (hide Next, Run; After(cfg, acts).daemon.Idle? && !EventKnown(After(cfg, acts).t.inbox, event, message))
    ensures var w := After(cfg, acts);
            var w' := Run(Next(w, ByIntake(Receive(event, message, chat, sender, now))), more);
            var m := |w.t.inbox|;
            m < |w'.t.inbox| && w'.t.inbox[m].chat == chat
            && w'.t.inbox[m].binding == NewestOf(w.t.bindings, chat, |w.t.bindings|)
            && forall d :: 0 <= d < |w'.t.deliveries| && w'.t.deliveries[d].msg == m ==>
                 Some(w'.t.deliveries[d].binding) == NewestOf(w.t.bindings, chat, |w.t.bindings|)
  {
    hide Run, StepSender, StepWorker, StepCli, StepHook, StepListener;
    ReachedIsSound(cfg, acts);
    var w := After(cfg, acts);
    var w1 := Next(w, ByIntake(Receive(event, message, chat, sender, now)));
    SoundStep(w, ByIntake(Receive(event, message, chat, sender, now)));
    Advance.AdvanceRun(w1, more);
    var w' := Run(w1, more);
    var m := |w.t.inbox|;
    assert Advance.RowMovesOn(w1.t.inbox[m], w'.t.inbox[m]);
    forall d | 0 <= d < |w'.t.deliveries| && w'.t.deliveries[d].msg == m
      ensures Some(w'.t.deliveries[d].binding) == NewestOf(w.t.bindings, chat, |w.t.bindings|)
    {
      assert DeliveryFits(w'.t.deliveries[d], w'.t.inbox, w'.t.bindings);
    }
  }

  /** Who a delivery comes from: nobody vouched for it only if the owner wrote it, the allowlist only if it had let that
      member through in that chat for that message, a person only if that is the owner and the message's approval was
      granted. */
  lemma DeliveriesHaveProvenance(cfg: Config, acts: seq<Act>, d: nat)
    requires (hide Next, Run; d < |After(cfg, acts).t.deliveries| && After(cfg, acts).t.deliveries[d].payload.Some?)
    ensures After(cfg, acts).cfg.owner == cfg.owner
    ensures var w := After(cfg, acts);
            var del := w.t.deliveries[d];
            del.msg < |w.t.inbox| &&
            match del.payload.value.approvedBy
            case NoApprover => del.payload.value.sender == Some(cfg.owner)
            case ByAllowlist => (del.msg, w.t.inbox[del.msg].chat, del.payload.value.sender) in w.hist.allowed
            case ByUser(u) => u == cfg.owner && HasApproved(w.t.pendings, del.msg)
  {
    hide Next, Run;
    ReachedIsSound(cfg, acts);
    OwnerStays(Initial(cfg), acts);
    var w := After(cfg, acts);
    assert DeliveryFits(w.t.deliveries[d], w.t.inbox, w.t.bindings);
    assert Provenance(w.t.deliveries[d], w.t.inbox, w.t.pendings, w.hist.allowed, w.cfg.owner);
  }

  lemma {:induction false} OwnerStays(w: World, acts: seq<Act>)
    ensures Run(w, acts).cfg.owner == w.cfg.owner
    decreases |acts|
  {
    hide Next;
    if acts != [] {
      OwnerStaysStep(w, acts[0]);
      OwnerStays(Next(w, acts[0]), acts[1..]);
    }
  }

  lemma OwnerStaysStep(w: World, a: Act)
    ensures Next(w, a).cfg.owner == w.cfg.owner
  {
    hide Run, StepSender, StepIntake, StepWorker, StepCli, StepHook, StepListener;
    match a
    case BySender(s) => Frames.SenderFrame(w, s);
    case ByIntake(i) => Frames.IntakeFrame(w, i);
    case ByWorker(r) => Frames.WorkerFrame(w, r);
    case ByCli(c) => Frames.CliFrame(w, c);
    case ByHook(h, hook) => Frames.HookFrame(w, h, hook);
    case ByListener(c, l) => Frames.ListenerFrame(w, c, l);
  }

  /** What the cascade leaves behind is consistent: a queued delivery means an active binding, a dropped one an ended
      binding, a waiting message a live one. */
  lemma TablesAgreeWithBindings(cfg: Config, acts: seq<Act>)
    ensures (hide Next, Run;
            var t := After(cfg, acts).t;
            && (forall d :: 0 <= d < |t.deliveries| ==> DeliveryFits(t.deliveries[d], t.inbox, t.bindings))
            && (forall m :: 0 <= m < |t.inbox| && t.inbox[m].state.WaitingBinding? ==>
                  t.inbox[m].binding.Some? && LiveBinding(t, t.inbox[m].binding.value)))
  {
    hide Next, Run;
    ReachedIsSound(cfg, acts);
    var t := After(cfg, acts).t;
    forall m | 0 <= m < |t.inbox| && t.inbox[m].state.WaitingBinding?
      ensures t.inbox[m].binding.Some? && LiveBinding(t, t.inbox[m].binding.value)
    {
      assert RowFits(t.inbox[m], t.bindings);
    }
  }

  /** No chat ever has more than five undecided approvals. */
  lemma QuotaHolds(cfg: Config, acts: seq<Act>, chat: nat)
    ensures (hide Next, Run; CountUndecided(After(cfg, acts).t, chat, 0) <= MAX_UNDECIDED_PER_CHAT)
  {
    hide Next, Run;
    var w := Initial(cfg);
    assert forall c :: CountUndecided(w.t, c, 0) == 0;
    Quota.QuotaRun(w, acts);
  }

  // ---- Binding ----

  /** The Stop events and SessionEnds that end a bind turn. */
  predicate EndsBindTurn(a: Act, inst: nat) {
    a.ByHook? && a.inst == inst && ((a.hook.StopBegin? && !a.hook.payload.continuation) || a.hook.EndLatches?)
  }

  lemma {:induction false} BindTurnLasts(w: World, acts: seq<Act>, inst: nat)
    requires (hide Next, Run; inst in w.hist.bindTurn && forall i :: 0 <= i < |acts| ==> !EndsBindTurn(acts[i], inst))
    ensures inst in Run(w, acts).hist.bindTurn
    decreases |acts|
  {
    hide Next;
    if acts != [] {
      BindTurnLastsStep(w, acts[0], inst);
      BindTurnLasts(Next(w, acts[0]), acts[1..], inst);
    }
  }

  lemma BindTurnLastsStep(w: World, a: Act, inst: nat)
    requires inst in w.hist.bindTurn && !EndsBindTurn(a, inst)
    ensures inst in Next(w, a).hist.bindTurn
  {
    hide Run, StepSender, StepIntake, StepWorker, StepListener;
    match a
    case BySender(s) => Frames.SenderFrame(w, s);
    case ByIntake(i) => Frames.IntakeFrame(w, i);
    case ByWorker(r) => Frames.WorkerFrame(w, r);
    case ByCli(c) => Frames.CliFrame(w, c);
    case ByHook(h, hook) => Frames.HookFrame(w, h, hook);
    case ByListener(c, l) => Frames.ListenerFrame(w, c, l);
  }

  lemma InsertInBindTurnDoesNothing(w: World, inst: nat)
    requires BindAt(w) && inst in w.hist.bindTurn
    ensures Next(w, ByHook(inst, StopInsert)).t.jobs == w.t.jobs
  {
    hide Run, StepSender, StepIntake, StepWorker, StepCli, StepListener;
    if inst in w.stops && w.stops[inst].ToInsert? {
      assert StopOk(inst, w.stops[inst], w.t.bindings, w.t.binds, w.hist.bindTurn);
      assert !Bound1(w.t.bindings[w.stops[inst].binding]);
    }
  }

  /** Whatever step confirms a binding is a Stop of its instance whose message carried the bind request's nonce, before the
      request ran out, and the binding gets that Stop's session. */
  lemma OnlyTheNonceConfirms(cfg: Config, acts: seq<Act>, a: Act, b: nat)
    requires (hide Next, Run; b < |After(cfg, acts).t.bindings| && !After(cfg, acts).t.bindings[b].confirmed)
    ensures var w, w' := After(cfg, acts), Next(After(cfg, acts), a);
            && b < |w'.t.bindings| && b < |w.t.binds|
            && (w'.t.bindings[b].confirmed ==>
                  && a.ByHook? && a.hook.StopHandshake? && a.inst == w.t.bindings[b].inst && a.inst in w.stops
                  && (var p := w.stops[a.inst].p;
                      && w.t.binds[b].nonce in p.markers && p.now < w.t.binds[b].expires
                      && p.session.Some? && w'.t.bindings[b].session == p.session))
  {
    hide Next, Run;
    ReachedIsSound(cfg, acts);
    var w := After(cfg, acts);
    assert PairOk(w.t.bindings[b], w.t.binds[b], w.hist.bindTurn);
    BindLaws.OnlyTheNonceConfirms(w, a, b);
  }

  /** The instance's Stop is about to complete its handshake. */
  predicate Completes(w: World, inst: nat) {
    && inst in w.stops && w.stops[inst].ToHandshake? && w.stops[inst].p.session.Some?
    && HandshakeVerdict(w.t, w.stops[inst].request, w.stops[inst].p.session.value, w.stops[inst].p.now).HandshakeDone?
  }

  lemma CompletionOpensBindTurn(w: World, inst: nat)
    requires Completes(w, inst)
    ensures inst in Next(w, ByHook(inst, StopHandshake)).hist.bindTurn
  {
    hide Run, StepSender, StepIntake, StepWorker, StepCli, StepListener;
  }

  /** From a successful handshake to the next fresh Stop or SessionEnd of the instance, no Stop of that instance queues a
      turn, whatever is superseded, unbound or rebound meanwhile. */
  lemma BindTurnIsSuppressed(cfg: Config, acts: seq<Act>, inst: nat, more: seq<Act>)
    requires (hide Next, Run; Completes(After(cfg, acts), inst))
    requires forall i :: 0 <= i < |more| ==> !EndsBindTurn(more[i], inst)
    ensures var w' := Run(Next(After(cfg, acts), ByHook(inst, StopHandshake)), more);
            Next(w', ByHook(inst, StopInsert)).t.jobs == w'.t.jobs
  {
    hide Next, Run;
    var w1 := Next(After(cfg, acts), ByHook(inst, StopHandshake));
    ReachedIsSound(cfg, acts);
    SoundStep(After(cfg, acts), ByHook(inst, StopHandshake));
    SoundRun(w1, more);
    CompletionOpensBindTurn(After(cfg, acts), inst);
    BindTurnLasts(w1, more, inst);
    InsertInBindTurnDoesNothing(Run(w1, more), inst);
  }

  /** A turn a Stop queues goes to a binding that is active then and has the Stop's session and instance. */
  lemma TurnsAreQueuedForTheirBinding(cfg: Config, acts: seq<Act>, inst: nat)
    requires (hide Next, Run; var w := After(cfg, acts); Next(w, ByHook(inst, StopInsert)).t.jobs != w.t.jobs)
    ensures var w := After(cfg, acts);
            && inst in w.stops && w.stops[inst].ToInsert? && w.stops[inst].binding < |w.t.bindings|
            && (var b := w.t.bindings[w.stops[inst].binding];
                b.status.Active? && b.inst == inst && b.session == w.stops[inst].p.session && b.session.Some?)
  {
    hide Run, StepSender, StepIntake, StepWorker, StepCli, StepListener;
    ReachedIsSound(cfg, acts);
    var w := After(cfg, acts);
    assert StopOk(inst, w.stops[inst], w.t.bindings, w.t.binds, w.hist.bindTurn);
  }

  /** A bind request is open exactly while its binding waits unconfirmed, and a starting binding does not outstay its
      deadline: whatever others do meanwhile, after a slow tick past the request's expiry it is no longer starting and
      unconfirmed, and after a fast tick more than 30 s past its confirmation it is no longer starting. */
  lemma StartingIsBounded(cfg: Config, acts: seq<Act>, b: nat, c: Weather)
    requires (hide Next, Run; b < |After(cfg, acts).t.bindings| && After(cfg, acts).daemon.Idle? && ForeignWeather(c))
    ensures var t := After(cfg, acts).t;
            && |t.binds| == |t.bindings|
            && (t.binds[b].state.BPending? <==> Ticks.Unconfirmed(t.bindings[b]))
            && (t.bindings[b].status.Starting? && t.bindings[b].confirmed ==> t.bindings[b].confirmedAt.Some?)
    ensures var w := After(cfg, acts);
            var slow, fast := Run(w, SlowTickActs(w, c)).t.bindings, Run(w, FastTickActs(w, c)).t.bindings;
            && b < |slow| && b < |fast|
            && (ClockAt(c, Binds, b) > w.t.binds[b].expires ==> !Ticks.Unconfirmed(slow[b]))
            && (w.t.bindings[b].confirmed && w.t.bindings[b].confirmedAt.Some?
                && ClockAt(c, Activations, b) > w.t.bindings[b].confirmedAt.value + ACTIVATION_TIMEOUT_MS ==>
                  !fast[b].status.Starting?)
  {
    hide Next, Run;
    ReachedIsSound(cfg, acts);
    var w := After(cfg, acts);
    assert PairOk(w.t.bindings[b], w.t.binds[b], w.hist.bindTurn);
    Ticks.RowKept(w, SlowTickActs(w, c), b);
    Ticks.RowKept(w, FastTickActs(w, c), b);
    if ClockAt(c, Binds, b) > w.t.binds[b].expires { Ticks.SlowTickEndsWaiting(w, c, b); }
    if Ticks.PastActivation(w.t.bindings[b], ClockAt(c, Activations, b)) { Ticks.FastTickEndsStarting(w, c, b); }
  }

  // ---- Unbinding ----

  /** Whatever ends a binding, its commit is the last word: at most one job the binding guards is then not over, it is in
      flight, and in no continuation is any such job sent out again; if its outcome stays in doubt, its next visit at or
      after its retry time cancels it. */
  lemma UnbindLinearizes(cfg: Config, acts: seq<Act>, a: Act, b: nat, more: seq<Act>)
    requires (hide Next, Run; UnbindClaims.Ends(After(cfg, acts).t, Next(After(cfg, acts), a).t, b))
    ensures var w := Next(After(cfg, acts), a);
            && UnbindClaims.NothingToSend(w.t.jobs, b) && OneSending(w.t.jobs)
            && UnbindClaims.NoneSentOut(w.t.jobs, Run(w, more).t.jobs, b)
            && b < |Run(w, more).t.bindings| && Run(w, more).t.bindings[b].status == w.t.bindings[b].status
    ensures var w' := Run(Next(After(cfg, acts), a), more);
            forall j, now, at {:trigger PrepareJob(w'.t, w'.cfg, j, now, at)} ::
              0 <= j < |w'.t.jobs| && UnbindClaims.GuardedBy(w'.t.jobs[j], b) && w'.t.jobs[j].state.Unknown?
              && Due(w'.t.jobs[j], now) ==>
                PrepareJob(w'.t, w'.cfg, j, now, at).state.Cancelled?
  {
    hide Next, Run;
    ReachedIsSound(cfg, acts);
    UnbindClaims.EndingLeavesOneInFlight(After(cfg, acts), a, b);
    SoundStep(After(cfg, acts), a);
    var w := Next(After(cfg, acts), a);
    var w' := Run(w, more);
    UnbindClaims.EndedRunSendsNothing(w, more, b);
    forall j: nat, now: int, at: int | j < |w'.t.jobs| && UnbindClaims.GuardedBy(w'.t.jobs[j], b)
                                      && w'.t.jobs[j].state.Unknown? && Due(w'.t.jobs[j], now)
      ensures PrepareJob(w'.t, w'.cfg, j, now, at).state.Cancelled?
    {
      UnbindClaims.DoubtAfterTheEnd(w, more, b, j, now, at);
    }
  }

  // ---- Listeners ----

  /** Each epoch of a binding is won by one takeover at most; two listeners of one binding never match its row at once;
      and an emitted delivery was printed under the token it carries. */
  lemma ListenersExclude(cfg: Config, acts: seq<Act>, c: nat, c': nat, d: nat)
    requires (hide Next, Run;
             var w := After(cfg, acts);
             c in w.cores && c' in w.cores && c != c' && w.cores[c].binding == w.cores[c'].binding
             && d < |w.t.deliveries|)
    ensures var w := After(cfg, acts);
            && (forall b, e, x, y :: (b, e, x) in w.hist.won && (b, e, y) in w.hist.won ==> x == y)
            && (w.cores[c].epoch.Some? ==> (w.cores[c].binding, w.cores[c].epoch.value, c) in w.hist.won)
            && !(BeatWins(w.t, w.cores[c]) && BeatWins(w.t, w.cores[c']))
            && (w.t.deliveries[d].state.DEmitted? ==>
                  w.t.deliveries[d].token.Some? && (d, w.t.deliveries[d].token.value) in w.hist.printed)
  {
    hide Next, Run;
    ReachedIsSound(cfg, acts);
    var w := After(cfg, acts);
    ListenerClaims.OneListenerMatches(w, c, c');
    assert CoreOk(c, w.cores[c], w.t.deliveries, w.hist.won, w.hist.printed, w.t.nextId);
    assert LeaseOk(w.t.deliveries[d], d, w.hist.won, w.hist.printed, w.t.nextId);
  }

  /** Each epoch of a binding is won by exactly one takeover: whatever step changes a row's epoch is a takeover, it raises
      the epoch by one, nobody had won that epoch before, and afterwards exactly that listener has. */
  lemma EpochsAreWonOnce(cfg: Config, acts: seq<Act>, a: Act, b: nat)
    requires (hide Next, Run; b < |After(cfg, acts).t.bindings|)
    ensures b < |Next(After(cfg, acts), a).t.bindings|
    ensures var w, w' := After(cfg, acts), Next(After(cfg, acts), a);
            var e, e' := w.t.bindings[b].epoch, w'.t.bindings[b].epoch;
            e' != e ==>
              && a.ByListener? && a.listener.Takeover? && e' == e + 1
              && (forall c :: (b, e', c) !in w.hist.won) && (forall c :: (b, e', c) in w'.hist.won <==> c == a.core)
  {
    hide Next, Run;
    ReachedIsSound(cfg, acts);
    ListenerClaims.EpochsAreWonOnce(After(cfg, acts), a, b);
  }

  /** While its binding is active no delivery is lost: it is queued, printed, or leased until a time after which the
      reclaim queues it again. */
  lemma DeliveriesAreNeverLost(cfg: Config, acts: seq<Act>, d: nat, now: int)
    requires (hide Next, Run; d < |After(cfg, acts).t.deliveries|)
    requires var t := After(cfg, acts).t;
             t.deliveries[d].binding < |t.bindings| && t.bindings[t.deliveries[d].binding].status.Active?
    ensures var del := After(cfg, acts).t.deliveries[d];
            && !del.state.DDropped?
            && (del.state.DLeased? ==>
                  del.leaseUntil.Some?
                  && (del.leaseUntil.value < now ==>
                        ReclaimLeases(After(cfg, acts).t, now).deliveries[d].state.DEnqueued?))
  {
    hide Next, Run;
    ReachedIsSound(cfg, acts);
    ListenerClaims.NothingIsLost(After(cfg, acts), d, now);
  }

  /** No binding is declared dead but on evidence: marked at least 15 s before the scan, its last heartbeat more than 15 s
      old, and neither heartbeat nor takeover between the mark and the read. */
  lemma DeathNeedsEvidence(cfg: Config, acts: seq<Act>, a: Act, b: nat)
    requires (hide Next, Run; b < |After(cfg, acts).t.bindings| && !After(cfg, acts).t.bindings[b].status.Dead?)
    ensures b < |Next(After(cfg, acts), a).t.bindings|
    ensures Next(After(cfg, acts), a).t.bindings[b].status.Dead? ==>
              var w := After(cfg, acts);
              && w.daemon.Judging? && b < |w.daemon.seen| && b in w.hist.silent
              && (var row := w.daemon.seen[b];
                  && row.suspect.Some? && w.daemon.scanNow - row.suspect.value >= SUSPECT_CONFIRM_MS
                  && (row.beat.Some? ==> w.daemon.scanNow - row.beat.value > HEARTBEAT_GRACE_MS))
  {
    hide Next, Run;
    ReachedIsSound(cfg, acts);
    var w := After(cfg, acts);
    ListenerClaims.OnlyTheScanDeclaresDead(w, a, b);
    if Next(w, a).t.bindings[b].status.Dead? {
      ListenerClaims.EvidenceBeforeGone(w, a.worker.dead, a.worker.inSuspectWindow);
    }
  }
}
