/** What becomes of a message, told from its row, its binding and who wrote it: the click on a card, the decision, the
    download and the whole drive. */
module IntakeLaws {
  import opened Schema
  import opened World
  import opened Jobs
  import opened InboundTx
  import opened ApprovalTx
  import opened Machine
  import opened Scripts
  import opened IntakeInvariant
  import opened IntakeSteps
  import opened IntakeRun

  // ---- A row moves ----

  /** Of the inbox only row m changes, to `row`; bindings, requests and identifiers stay. */
  predicate RowBecomes(t: Tables, t': Tables, m: nat, row: Inbox)
    requires m < |t.inbox|
  {
    t'.inbox == t.inbox[m := row] && t'.bindings == t.bindings && t'.binds == t.binds && t'.nextId == t.nextId
  }

  /** Exactly one new delivery of message m, queued for the row's binding. */
  predicate OneDelivery(t: Tables, t': Tables, m: nat, sender: Option<nat>, via: ApprovedBy, now: int)
    requires m < |t.inbox|
  {
    && t.inbox[m].binding.Some?
    && (forall d :: 0 <= d < |t.deliveries| ==> t.deliveries[d].msg != m)
    && t'.deliveries == t.deliveries + [Delivery(t.inbox[m].binding.value, m, Some(Payload(sender, via)), DEnqueued, None,
                                                 None, None, 0, now)]
  }

  // ---- Arrival ----

  /** The chat's newest binding, ended or not, if it ever had one. */
  predicate NewestBinding(bs: seq<Binding>, chat: nat, b: Option<nat>) {
    if b.Some? then b.value < |bs| && bs[b.value].chat == chat && forall i :: b.value < i < |bs| ==> bs[i].chat != chat
    else forall i :: 0 <= i < |bs| ==> bs[i].chat != chat
  }

  /** A message of which neither identifier is known gets a row, pinned to its chat's newest binding; any other gets none. */
  lemma ArrivalLeads(w: World, event: nat, message: nat, chat: nat, sender: Option<nat>, now: int)
    requires (hide Next, Run; w.daemon.Idle?)
    ensures var t, t' := w.t, Next(w, ByIntake(Receive(event, message, chat, sender, now))).t;
            if exists m :: 0 <= m < |t.inbox| && (t.inbox[m].event == event || t.inbox[m].message == message) then t' == t
            else
              exists b :: NewestBinding(t.bindings, chat, b)
                          && t' == t.(inbox := t.inbox + [Inbox(event, message, chat, b, sender, None, Received, now)])
  {
    hide Run, StepSender, StepWorker, StepCli, StepHook, StepListener;
    assert NewestBinding(w.t.bindings, chat, NewestOf(w.t.bindings, chat, |w.t.bindings|));
  }

  // ---- The button ----

  /** The owner's click on the card of an approval, in its chat, with its nonce and, if the card's message is known, from
      that message. */
  predicate OwnersClick(t: Tables, cfg: Config, c: Callback) {
    && c.act.Some? && c.pending.Some? && c.pending.value < |t.pendings| && c.operator == Some(cfg.owner)
    && (var p := t.pendings[c.pending.value];
        && c.nonce == Some(p.nonce) && (p.card.None? || c.card == p.card)
        && p.msg < |t.inbox| && c.chat == Some(t.inbox[p.msg].chat)
        && (cfg.allow == {} || t.inbox[p.msg].chat in cfg.allow))
  }

  /** The approval takes the button's side, and its message with it. */
  ghost predicate Decides(t: Tables, t': Tables, cfg: Config, c: Callback, now: int)
    requires OwnersClick(t, cfg, c)
  {
    var pid := c.pending.value;
    var p := t.pendings[pid];
    var m := p.msg;
    var row := t.inbox[m];
    var granted := c.act == Some(Approve);
    && row.snap.Some?
    && t'.pendings == t.pendings[pid := p.(state := if granted then PApproved else PRejected,
                                           decidedBy := Some(cfg.owner), decidedEvent := Some(c.event))]
    && (if granted && row.snap.value.msgType.Media() then
          && RowBecomes(t, t', m, row.(state := ApprovedMaterializing, ts := now))
          && t'.deliveries == t.deliveries && t'.jobs == t.jobs
        else if granted then
          && RowBecomes(t, t', m, row.(state := Enqueued, ts := now))
          && OneDelivery(t, t', m, row.snap.value.sender, ByUser(cfg.owner), now)
          && Announced(t.jobs, t'.jobs, KDec(pid, ExpectPend(PApproved)), Some(p.binding), row.chat, Some(m))
        else
          && RowBecomes(t, t', m, row.(state := Rejected, ts := now)) && t'.deliveries == t.deliveries
          && Announced(t.jobs, t'.jobs, KDec(pid, ExpectPend(PRejected)), Some(p.binding), row.chat, Some(m)))
  }

  lemma ClickIsValid(t: Tables, allowed: set<(nat, nat, Option<nat>)>, cfg: Config, c: Callback)
    requires IntakeOk(t, allowed, cfg.owner)
    ensures ValidCallback(t, cfg, c) <==> OwnersClick(t, cfg, c)
  {
    if c.pending.Some? && c.pending.value < |t.pendings| {
      var p := t.pendings[c.pending.value];
      assert PendingFits(p, t.inbox, t.bindings) && RowFits(t.inbox[p.msg], t.bindings);
    }
  }

  /** What a new click on an open approval finds. */
  lemma OpenApprovalIs(t: Tables, allowed: set<(nat, nat, Option<nat>)>, owner: nat, pid: nat, event: nat)
    requires IntakeOk(t, allowed, owner) && pid < |t.pendings| && t.pendings[pid].state.PPending? && event !in t.callbacks
    ensures var p := t.pendings[pid];
            && p.msg < |t.inbox| && t.inbox[p.msg].state.AwaitingApproval? && t.inbox[p.msg].snap.Some?
            && t.inbox[p.msg].binding == Some(p.binding)
            && p.binding < |t.bindings| && t.bindings[p.binding].status.Active?
            && !EventUsed(t.pendings, event) && DeliveryOf(t.deliveries, p.binding, p.msg, 0).None?
            && forall d :: 0 <= d < |t.deliveries| ==> t.deliveries[d].msg != p.msg
  {
    var p := t.pendings[pid];
    assert PendingFits(p, t.inbox, t.bindings) && RowFits(t.inbox[p.msg], t.bindings);
    forall i | 0 <= i < |t.pendings| ensures t.pendings[i].decidedEvent != Some(event) {
      assert DecisionFits(t.pendings[i], t.callbacks, owner);
    }
    NoDeliveryYet(t, allowed, owner, p.msg, p.binding);
  }

  lemma OpenClickDecides(t: Tables, allowed: set<(nat, nat, Option<nat>)>, cfg: Config, c: Callback, now: int)
    requires IntakeOk(t, allowed, cfg.owner) && OwnersClick(t, cfg, c) && ValidCallback(t, cfg, c)
    requires c.event !in t.callbacks && t.pendings[c.pending.value].state.PPending?
    ensures var t' := CallbackTx(t, cfg, c, now).0;
            Decides(t, t', cfg, c, now) && t'.callbacks == t.callbacks + {c.event}
    ensures CallbackTx(t, cfg, c, now).1 == ReplyTo(t, cfg, c)
  {
    hide IntakeOk, EventUsed, DeliveryOf;
    OpenApprovalIs(t, allowed, cfg.owner, c.pending.value, c.event);
  }

  /** The owner's click, not seen before, on an approval that is still open. */
  predicate Opens(t: Tables, cfg: Config, c: Callback) {
    c.event !in t.callbacks && OwnersClick(t, cfg, c) && t.pendings[c.pending.value].state.PPending?
  }

  /** What the click is answered with. */
  function ReplyTo(t: Tables, cfg: Config, c: Callback): Reply {
    if c.event in t.callbacks then Dup
    else if !OwnersClick(t, cfg, c) then Invalid
    else if !t.pendings[c.pending.value].state.PPending? then Late
    else
      var m := t.pendings[c.pending.value].msg;
      if c.act == Some(Approve) && t.inbox[m].snap.Some? && t.inbox[m].snap.value.msgType.Media() then AppliedMedia
      else Applied
  }

  /** A click decides exactly if it is the owner's, new, and finds the approval open; then it does what the button says.
      Any other click changes nothing but the list of seen events. */
  lemma ClickLeads(w: World, c: Callback, now: int)
    requires (hide Next, Run; IntakeAt(w) && w.daemon.Idle?)
    ensures var t, t' := w.t, Next(w, ByIntake(Click(c, now))).t;
            if Opens(t, w.cfg, c) then Decides(t, t', w.cfg, c, now) && t'.callbacks == t.callbacks + {c.event}
            else t' == t.(callbacks := t.callbacks + {c.event})
    ensures CallbackTx(w.t, w.cfg, c, now).1 == ReplyTo(w.t, w.cfg, c)
  {
    hide Run, StepSender, StepWorker, StepCli, StepHook, StepListener;
    ClickIsValid(w.t, w.hist.allowed, w.cfg, c);
    if Opens(w.t, w.cfg, c) {
      OpenClickDecides(w.t, w.hist.allowed, w.cfg, c, now);
    } else if c.event in w.t.callbacks {
      assert w.t.callbacks + {c.event} == w.t.callbacks;
    }
  }

  // ---- The quota ----

  /** The chat's undecided approvals. */
  function Undecided(inbox: seq<Inbox>, ps: seq<Pending>, chat: nat): set<nat> {
    set p: nat | p < |ps| && ps[p].msg < |inbox| && inbox[ps[p].msg].chat == chat && ps[p].state.PPending?
  }

  /** The approval was asked for by a message of this sender. */
  predicate AskedBy(inbox: seq<Inbox>, p: Pending, sender: Option<nat>) {
    p.msg < |inbox| && sender.Some? && inbox[p.msg].sender == sender
  }

  /** The sender's latest approval is not 30 s old. */
  ghost predicate JustAsked(inbox: seq<Inbox>, ps: seq<Pending>, sender: Option<nat>, now: int) {
    exists p :: 0 <= p < |ps| && AskedBy(inbox, ps[p], sender) && 0 <= now - ps[p].createdAt < 30_000
                && forall q :: 0 <= q < |ps| && AskedBy(inbox, ps[q], sender) ==> ps[q].createdAt <= ps[p].createdAt
  }

  ghost predicate MayNotAsk(inbox: seq<Inbox>, ps: seq<Pending>, chat: nat, sender: Option<nat>, now: int) {
    |Undecided(inbox, ps, chat)| >= 5 || JustAsked(inbox, ps, sender, now)
  }

  function UndecidedFrom(t: Tables, chat: nat, from: nat): set<nat> {
    set p | p in Undecided(t.inbox, t.pendings, chat) && from <= p
  }

  lemma {:induction false} CountIs(t: Tables, chat: nat, from: nat)
    requires from <= |t.pendings|
    ensures CountUndecided(t, chat, from) == |UndecidedFrom(t, chat, from)|
    decreases |t.pendings| - from
  {
    if from == |t.pendings| {
      assert UndecidedFrom(t, chat, from) == {};
    } else {
      CountIs(t, chat, from + 1);
      var rest := UndecidedFrom(t, chat, from + 1);
      if from in Undecided(t.inbox, t.pendings, chat) {
        assert UndecidedFrom(t, chat, from) == rest + {from} && from !in rest;
      } else {
        assert UndecidedFrom(t, chat, from) == rest;
      }
    }
  }

  lemma {:induction false} LatestIs(t: Tables, sender: Option<nat>, from: nat)
    requires from <= |t.pendings|
    ensures var last := LastPending(t, sender, from);
            && (last.Some? <==> exists p :: from <= p < |t.pendings| && AskedBy(t.inbox, t.pendings[p], sender))
            && (last.Some? ==>
                  && (exists p :: from <= p < |t.pendings| && AskedBy(t.inbox, t.pendings[p], sender)
                                  && t.pendings[p].createdAt == last.value)
                  && forall q :: from <= q < |t.pendings| && AskedBy(t.inbox, t.pendings[q], sender) ==>
                       t.pendings[q].createdAt <= last.value)
    decreases |t.pendings| - from
  {
    if from < |t.pendings| { LatestIs(t, sender, from + 1); }
  }

  lemma QuotaIs(t: Tables, chat: nat, sender: Option<nat>, now: int)
    ensures OverQuota(t, chat, sender, now) <==> MayNotAsk(t.inbox, t.pendings, chat, sender, now)
  {
    CountIs(t, chat, 0);
    assert UndecidedFrom(t, chat, 0) == Undecided(t.inbox, t.pendings, chat);
    LatestIs(t, sender, 0);
  }

  // ---- The decision ----

  /** What can become of a message that is decided. */
  datatype Fate = Ignored | Told(end: InboxState) | Waits | Refused | Direct(via: ApprovedBy) | Download | TooMany | Asks

  /** How a message to an ended binding is answered: the user's own doing reads as unbound, the end of the session or of
      its listener as closed. */
  function EndFate(b: Binding): InboxState {
    if b.status.Closed? && (b.reason == Some(UserUnbind) || b.reason == Some(BindFailed) || b.reason == Some(BindTimeout)
                            || b.reason == Some(BindSuperseded))
    then Unbound else SessionClosed
  }

  /** By type, sender, the allowlist's answer and the quota. */
  ghost function ActiveFate(t: Tables, cfg: Config, chat: nat, snap: Snap, listed: bool, now: int): Fate {
    if snap.msgType.OtherType? then Refused
    else if snap.sender == Some(cfg.owner) || (snap.sender.Some? && listed) then
      if snap.msgType.Image? || snap.msgType.File? then Download
      else Direct(if snap.sender == Some(cfg.owner) then NoApprover else ByAllowlist)
    else if MayNotAsk(t.inbox, t.pendings, chat, snap.sender, now) then TooMany
    else Asks
  }

  ghost function FateOf(t: Tables, cfg: Config, m: nat, snap: Snap, listed: bool, now: int): Fate
    requires m < |t.inbox|
  {
    var b := t.inbox[m].binding;
    if t.inbox[m].state.Resolving? && !snap.mentioned then Ignored
    else if b.None? || b.value >= |t.bindings| then Told(Unbound)
    else
      match t.bindings[b.value].status
      case Starting => Waits
      case Active => ActiveFate(t, cfg, t.inbox[m].chat, snap, listed, now)
      case _ => Told(EndFate(t.bindings[b.value]))
  }

  /** One notice about the message to its chat, unless the chat had one within the last minute. */
  ghost predicate ChatTold(js: seq<Job>, js': seq<Job>, m: nat, code: InboxState, b: Option<nat>, chat: nat, now: int) {
    if exists i :: 0 <= i < |js| && js[i].kind.InboundNotice? && js[i].chat == chat && now - js[i].createdAt < 60_000
    then js' == js else Announced(js, js', KNotice(m, code), b, chat, Some(m))
  }

  /** The tables after the decision on row m; `noted` is the row with its snapshot. */
  ghost predicate Befalls(t: Tables, t': Tables, m: nat, noted: Inbox, fate: Fate, snap: Snap, nonce: nat, now: int)
    requires m < |t.inbox|
  {
    && t'.callbacks == t.callbacks
    && (!fate.Direct? ==> t'.deliveries == t.deliveries) && (!fate.Asks? ==> t'.pendings == t.pendings)
    && (match fate
        case Ignored =>
          RowBecomes(t, t', m, noted.(state := IgnoredNotMentioned, snap := None, ts := now)) && t'.jobs == t.jobs
        case Told(end) =>
          && RowBecomes(t, t', m, noted.(state := end, ts := now))
          && ChatTold(t.jobs, t'.jobs, m, end, noted.binding, noted.chat, now)
        case Waits => RowBecomes(t, t', m, noted.(state := WaitingBinding, ts := now)) && t'.jobs == t.jobs
        case Refused =>
          && RowBecomes(t, t', m, noted.(state := Unsupported, ts := now))
          && Announced(t.jobs, t'.jobs, KUn(m), noted.binding, noted.chat, Some(m))
        case Direct(via) =>
          && RowBecomes(t, t', m, noted.(state := Enqueued, ts := now))
          && OneDelivery(t, t', m, snap.sender, via, now)
          && Announced(t.jobs, t'.jobs, KRc(|t.deliveries|), noted.binding, noted.chat, Some(m))
        case Download => RowBecomes(t, t', m, noted) && t'.jobs == t.jobs
        case TooMany => RowBecomes(t, t', m, noted.(state := FailedIn, ts := now)) && t'.jobs == t.jobs
        case Asks =>
          && RowBecomes(t, t', m, noted.(state := AwaitingApproval, ts := now)) && noted.binding.Some?
          && t'.pendings == t.pendings + [Pending(m, noted.binding.value, nonce, None, PPending, None, None, now)]
          && Announced(t.jobs, t'.jobs, KCard(|t.pendings|), noted.binding, noted.chat, None))
  }

  lemma TellTells(t: Tables, m: nat, from: InboxState, b: Option<Binding>, now: int)
    requires m < |t.inbox| && t.inbox[m].state == from && (b.Some? ==> !b.value.status.Live())
    ensures var t' := TellTx(t, m, from, b, now);
            var end := if b.Some? then EndFate(b.value) else Unbound;
            && t' == t.(inbox := t'.inbox, jobs := t'.jobs)
            && RowBecomes(t, t', m, t.inbox[m].(state := end, ts := now))
            && ChatTold(t.jobs, t'.jobs, m, end, if b.Some? then t.inbox[m].binding else None, t.inbox[m].chat, now)
  {}

  lemma DirectLeads(t: Tables, allowed: set<(nat, nat, Option<nat>)>, cfg: Config, m: nat, snap: Snap, b: nat,
                    from: InboxState, via: ApprovedBy, nonce: nat, now: int)
    requires IntakeOk(t, allowed, cfg.owner) && m < |t.inbox| && t.inbox[m].state == from
    requires from.Resolving? || from.WaitingBinding?
    requires t.inbox[m].binding == Some(b) && b < |t.bindings| && t.bindings[b].status.Active?
    ensures Befalls(t, EnqueueTx(t, m, b, snap, from, via, true, now).0, m, t.inbox[m], Direct(via), snap, nonce, now)
  {
    NoDeliveryYet(t, allowed, cfg.owner, m, b);
  }

  lemma RefusedLeads(t: Tables, m: nat, snap: Snap, b: nat, nonce: nat, now: int)
    requires m < |t.inbox| && t.inbox[m].binding == Some(b)
    ensures var t1 := CasState(t, m, t.inbox[m].state, Unsupported, now);
            Befalls(t, t1.(jobs := AddJob(t1.jobs, UnsupportedJob(t.inbox[m].chat, b, m, now))), m, t.inbox[m], Refused,
                    snap, nonce, now)
  {}

  lemma AsksLeads(t: Tables, m: nat, snap: Snap, b: nat, nonce: nat, now: int)
    requires m < |t.inbox| && t.inbox[m].binding == Some(b)
    ensures Befalls(t, OpenApproval(t, m, b, t.inbox[m].state, nonce, now), m, t.inbox[m], Asks, snap, nonce, now)
  {}

  lemma GateLeads(t: Tables, allowed: set<(nat, nat, Option<nat>)>, cfg: Config, m: nat, snap: Snap, b: nat,
                  from: InboxState, listed: bool, nonce: nat, now: int)
    requires IntakeOk(t, allowed, cfg.owner) && m < |t.inbox| && t.inbox[m].state == from
    requires from.Resolving? || from.WaitingBinding?
    requires t.inbox[m].binding == Some(b) && b < |t.bindings| && t.bindings[b].status.Active?
    ensures var r := GateTx(t, cfg, m, snap, b, from, listed, nonce, now);
            var fate := ActiveFate(t, cfg, t.inbox[m].chat, snap, listed, now);
            Befalls(t, r.0, m, t.inbox[m], fate, snap, nonce, now) && (r.1 <==> fate.Download?)
  {
    hide IntakeOk, OverQuota, MayNotAsk, EnqueueTx, OpenApproval;
    QuotaIs(t, t.inbox[m].chat, snap.sender, now);
    if !snap.msgType.Supported() {
      RefusedLeads(t, m, snap, b, nonce, now);
    } else if snap.sender == Some(cfg.owner) || (snap.sender.Some? && listed) {
      DirectLeads(t, allowed, cfg, m, snap, b, from, if snap.sender == Some(cfg.owner) then NoApprover else ByAllowlist,
                  nonce, now);
    } else {
      AsksLeads(t, m, snap, b, nonce, now);
    }
  }

  /** The row with the snapshot it is decided on. */
  function Noted(row: Inbox, snap: Snap): Inbox { row.(snap := Some(snap), sender := snap.sender) }

  function WithNoted(t: Tables, m: nat, snap: Snap): Tables
    requires m < |t.inbox|
  {
    t.(inbox := t.inbox[m := Noted(t.inbox[m], snap)])
  }

  /** Noting the snapshot of a message without an approval does not change what becomes of it. */
  lemma NotedFate(t: Tables, allowed: set<(nat, nat, Option<nat>)>, cfg: Config, m: nat, snap: Snap, listed: bool,
                  now: int)
    requires IntakeOk(t, allowed, cfg.owner) && m < |t.inbox| && t.inbox[m].state.Resolving?
    ensures IntakeOk(WithNoted(t, m, snap), allowed, cfg.owner)
    ensures ActiveFate(WithNoted(t, m, snap), cfg, t.inbox[m].chat, snap, listed, now)
            == ActiveFate(t, cfg, t.inbox[m].chat, snap, listed, now)
  {
    var t1 := WithNoted(t, m, snap);
    NoPendingYet(t, allowed, cfg.owner, m);
    EarlyRowMoves(t, t1, allowed, cfg.owner, m, Noted(t.inbox[m], snap));
    assert Undecided(t1.inbox, t1.pendings, t.inbox[m].chat) == Undecided(t.inbox, t.pendings, t.inbox[m].chat);
    assert forall p :: 0 <= p < |t.pendings| ==>
                         (AskedBy(t1.inbox, t.pendings[p], snap.sender) <==> AskedBy(t.inbox, t.pendings[p], snap.sender));
  }

  lemma NotedBefalls(t: Tables, t': Tables, m: nat, noted: Inbox, fate: Fate, snap: Snap, nonce: nat, now: int)
    requires m < |t.inbox| && noted.binding == t.inbox[m].binding
    requires Befalls(t.(inbox := t.inbox[m := noted]), t', m, noted, fate, snap, nonce, now)
    ensures Befalls(t, t', m, noted, fate, snap, nonce, now)
  {}

  lemma DecideTxLeads(t: Tables, allowed: set<(nat, nat, Option<nat>)>, cfg: Config, m: nat, fetched: Snap, listed: bool,
                      nonce: nat, now: int)
    requires IntakeOk(t, allowed, cfg.owner) && m < |t.inbox| && t.inbox[m].state.Resolving?
    ensures var r, snap := DecideTx(t, cfg, m, fetched, listed, nonce, now), SnapOf(t, m, fetched);
            var fate := FateOf(t, cfg, m, snap, listed, now);
            Befalls(t, r.0, m, Noted(t.inbox[m], snap), fate, snap, nonce, now) && (r.1 <==> fate.Download?)
  {
    hide IntakeOk, GateTx, TellTx, ActiveFate;
    var snap := SnapOf(t, m, fetched);
    var t1 := WithNoted(t, m, snap);
    var b := BindingOf(t1, m);
    NotedFate(t, allowed, cfg, m, snap, listed, now);
    var t' := DecideTx(t, cfg, m, fetched, listed, nonce, now).0;
    if snap.mentioned {
      RowFitsHere(t, allowed, cfg.owner, m);
      if b.None? || !b.value.status.Live() {
        TellTells(t1, m, Resolving, b, now);
      } else if b.value.status.Active? {
        GateLeads(t1, allowed, cfg, m, snap, t.inbox[m].binding.value, Resolving, listed, nonce, now);
      }
      NotedBefalls(t, t', m, Noted(t.inbox[m], snap), FateOf(t, cfg, m, snap, listed, now), snap, nonce, now);
    }
  }

  lemma RowFitsHere(t: Tables, allowed: set<(nat, nat, Option<nat>)>, owner: nat, m: nat)
    requires IntakeOk(t, allowed, owner) && m < |t.inbox|
    ensures RowFits(t.inbox[m], t.bindings)
  {}

  lemma WaitingTxLeads(t: Tables, allowed: set<(nat, nat, Option<nat>)>, cfg: Config, m: nat, fetched: Snap,
                       listed: bool, nonce: nat, now: int)
    requires IntakeOk(t, allowed, cfg.owner) && m < |t.inbox| && t.inbox[m].state.WaitingBinding?
    ensures var r, snap := WaitingTx(t, cfg, m, fetched, listed, nonce, now), SnapOf(t, m, fetched);
            var fate := FateOf(t, cfg, m, snap, listed, now);
            if fate.Waits? then r == (t, false)
            else Befalls(t, r.0, m, t.inbox[m], fate, snap, nonce, now) && (r.1 <==> fate.Download?)
  {
    hide IntakeOk, GateTx, TellTx;
    var snap := SnapOf(t, m, fetched);
    var b := BindingOf(t, m);
    RowFitsHere(t, allowed, cfg.owner, m);
    if !b.value.status.Live() {
      TellTells(t, m, WaitingBinding, b, now);
    } else if b.value.status.Active? {
      GateLeads(t, allowed, cfg, m, snap, t.inbox[m].binding.value, WaitingBinding, listed, nonce, now);
    }
  }

  // ---- The decision as a step ----

  /** The decision on row m and where it leaves the daemon. */
  ghost predicate DecisionBefalls(w: World, w': World, m: nat, snap: Snap, waiting: bool, e: Encounter)
    requires m < |w.t.inbox|
  {
    var row := w.t.inbox[m];
    var fate := FateOf(w.t, w.cfg, m, snap, e.listed, e.now);
    && (if waiting && fate.Waits? then w'.t == w.t
        else Befalls(w.t, w'.t, m, if waiting then row else Noted(row, snap), fate, snap, e.nonce, e.now))
    && w'.daemon == if fate.Download? then Materializing(m, snap, row.state, None) else Idle
  }

  lemma DecisionLeads(w: World, m: nat, fetched: Snap, waiting: bool, e: Encounter)
    requires (hide Next, Run; IntakeAt(w) && w.daemon.Idle? && m < |w.t.inbox|)
    requires if waiting then w.t.inbox[m].state.WaitingBinding? else w.t.inbox[m].state.Resolving?
    ensures DecisionBefalls(w, Next(w, DecideAct(m, fetched, waiting, e)), m,
                            if w.t.inbox[m].snap.Some? then w.t.inbox[m].snap.value else fetched, waiting, e)
  {
    hide Run, StepSender, StepWorker, StepCli, StepHook, StepListener;
    hide DecideTx, WaitingTx, Befalls, IntakeOk;
    if waiting { WaitingTxLeads(w.t, w.hist.allowed, w.cfg, m, fetched, e.listed, e.nonce, e.now); }
    else { DecideTxLeads(w.t, w.hist.allowed, w.cfg, m, fetched, e.listed, e.nonce, e.now); }
  }

  // ---- The download ----

  /** Who let a downloaded message through: its approver, else the owner as its author, else the allowlist. */
  function Via(d: Daemon, owner: nat): ApprovedBy
    requires d.Materializing?
  {
    if d.pending.Some? then ByUser(owner) else if d.snap.sender == Some(owner) then NoApprover else ByAllowlist
  }

  /** A row that is no longer where its download found it has been closed meanwhile and stays so; a stored download is
      delivered if the binding is active now; otherwise, and if the download broke, the row is closed. */
  ghost predicate DownloadBefalls(t: Tables, t': Tables, d: Daemon, owner: nat, download: Download, now: int)
    requires d.Materializing? && d.msg < |t.inbox|
  {
    var m, row := d.msg, t.inbox[d.msg];
    var here := row.state == d.from;
    && row.binding.Some? && row.binding.value < |t.bindings|
    && (var b := t.bindings[row.binding.value];
        && t'.callbacks == t.callbacks && t'.pendings == t.pendings
        && (b.status.Active? ==> here) && (d.pending.Some? ==> here)
        && (if !here || download.NotYet? then t' == t
            else if download.Broken? then
              && RowBecomes(t, t', m, row.(state := FailedIn, ts := now)) && t'.deliveries == t.deliveries
              && (if d.pending.None? then t'.jobs == t.jobs
                  else Announced(t.jobs, t'.jobs, KDec(d.pending.value, ExpectInbox(FailedIn)), row.binding, row.chat,
                                 Some(m)))
            else if b.status.Active? then
              && RowBecomes(t, t', m, row.(state := Enqueued, ts := now))
              && OneDelivery(t, t', m, d.snap.sender, Via(d, owner), now)
              && Announced(t.jobs, t'.jobs, if d.pending.Some? then KDec(d.pending.value, ExpectPend(PApproved))
                                            else KRc(|t.deliveries|), row.binding, row.chat, Some(m))
            else if d.pending.Some? then
              && RowBecomes(t, t', m, row.(state := Undeliverable, ts := now))
              && t'.deliveries == t.deliveries && t'.jobs == t.jobs
            else
              && RowBecomes(t, t', m, row.(state := EndFate(b), ts := now)) && t'.deliveries == t.deliveries
              && ChatTold(t.jobs, t'.jobs, m, EndFate(b), row.binding, row.chat, now)))
  }

  lemma StoredLeads(t: Tables, allowed: set<(nat, nat, Option<nat>)>, cfg: Config, d: Daemon, now: int)
    requires IntakeOk(t, allowed, cfg.owner) && d.Materializing? && MediaOk(t, d, allowed, cfg.owner)
    ensures d.msg < |t.inbox|
    ensures DownloadBefalls(t, MediaDoneTx(t, cfg, d.msg, d.snap, d.from, d.pending, now), d, cfg.owner, Stored, now)
  {
    var m := d.msg;
    var b := t.inbox[m].binding.value;
    if t.bindings[b].status.Active? {
      NoDeliveryYet(t, allowed, cfg.owner, m, b);
      ApproverIs(t, allowed, cfg, d);
    } else if d.pending.None? && t.inbox[m].state == d.from {
      TellTells(t, m, d.from, Some(t.bindings[b]), now);
    }
  }

  lemma ApproverIs(t: Tables, allowed: set<(nat, nat, Option<nat>)>, cfg: Config, d: Daemon)
    requires IntakeOk(t, allowed, cfg.owner) && d.Materializing? && MediaOk(t, d, allowed, cfg.owner)
    ensures MediaApprover(t, cfg, d.snap, d.pending) == Via(d, cfg.owner)
  {
    if d.pending.Some? { assert DecisionFits(t.pendings[d.pending.value], t.callbacks, cfg.owner); }
  }

  lemma DownloadLeads(w: World, download: Download, now: int)
    requires (hide Next, Run; IntakeAt(w) && w.daemon.Materializing?)
    ensures w.daemon.msg < |w.t.inbox|
    ensures var w' := Next(w, DownloadAct(download, now));
            w'.daemon.Idle? && DownloadBefalls(w.t, w'.t, w.daemon, w.cfg.owner, download, now)
  {
    hide Run, StepSender, StepWorker, StepCli, StepHook, StepListener;
    hide MediaDoneTx;
    StoredLeads(w.t, w.hist.allowed, w.cfg, w.daemon, now);
  }
}
