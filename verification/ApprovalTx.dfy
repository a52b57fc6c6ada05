/** lib/approval.py: a card callback as one transaction. */
module ApprovalTx {
  import opened Schema
  import opened Jobs
  import opened InboundTx

  datatype Button = Approve | Reject

  /** A callback after normalize_callback; a field the envelope lacks is None. */
  datatype Callback = Callback(event: nat, act: Option<Button>, pending: Option<nat>, nonce: Option<nat>,
                               operator: Option<nat>, chat: Option<nat>, card: Option<nat>)

  datatype Reply = Dup | Invalid | Late | Applied | AppliedMedia | Raised

  /** _validate_in_tx */
  predicate ValidCallback(t: Tables, cfg: Config, c: Callback) {
    && c.act.Some? && c.pending.Some? && c.nonce.Some? && c.pending.value < |t.pendings|
    && (var p := t.pendings[c.pending.value];
        && (cfg.allow == {} || (p.binding < |t.bindings| && t.bindings[p.binding].chat in cfg.allow))
        && p.nonce == c.nonce.value
        && c.operator == Some(cfg.owner)
        && p.msg < |t.inbox|
        && c.chat == Some(t.inbox[p.msg].chat)
        && (p.card.Some? ==> c.card == p.card))
  }

  function Decided(p: Pending, s: PendState, c: Callback): Pending {
    p.(state := s, decidedBy := c.operator, decidedEvent := Some(c.event))
  }

  predicate EventUsed(ps: seq<Pending>, event: nat) {
    exists i :: 0 <= i < |ps| && ps[i].decidedEvent == Some(event)
  }

  /** The transaction's body after validation: what it would commit, or why it rolls back. */
  function ApplyTx(t: Tables, c: Callback, now: int): (r: (Tables, Reply))
    requires c.act.Some? && c.pending.Some? && c.pending.value < |t.pendings|
    requires t.pendings[c.pending.value].msg < |t.inbox|
    ensures LeavesBindings(t, r.0)
  {
    var pid := c.pending.value;
    var p := t.pendings[pid];
    var m := p.msg;
    if !p.state.PPending? then (t, Late)
    else if EventUsed(t.pendings, c.event) then (t, Raised)
    else if c.act.value.Approve? then
      var t1 := t.(pendings := t.pendings[pid := Decided(p, PApproved, c)]);
      if t.inbox[m].snap.None? then (t, Raised)
      else if t.inbox[m].snap.value.msgType.Media() then
        if !t.inbox[m].state.AwaitingApproval? then (t, Late)
        else (SetState(t1, m, ApprovedMaterializing, now), AppliedMedia)
      else
        var approver := if c.operator.Some? then ByUser(c.operator.value) else NoApprover;
        var done := EnqueueTx(t1, m, p.binding, t.inbox[m].snap.value, AwaitingApproval, approver, false, now);
        if !done.1 then (t, Late)
        else
          (done.0.(jobs := AddJob(done.0.jobs, DecisionJob(t, m, pid, ExpectPend(PApproved), now))), Applied)
    else
      var t1 := t.(pendings := t.pendings[pid := Decided(p, PRejected, c)]);
      var t2 := CasState(t1, m, AwaitingApproval, Rejected, now);
      (t2.(jobs := AddJob(t2.jobs, DecisionJob(t, m, pid, ExpectPend(PRejected), now))), Applied)
  }

  /** process_event: a duplicate or an exception leaves nothing behind, an invalid or late click only its event id. */
  function CallbackTx(t: Tables, cfg: Config, c: Callback, now: int): (r: (Tables, Reply))
    ensures LeavesBindings(t, r.0)
  {
    if c.event in t.callbacks then (t, Dup)
    else if !ValidCallback(t, cfg, c) then (t.(callbacks := t.callbacks + {c.event}), Invalid)
    else
      var done := ApplyTx(t, c, now);
      match done.1
      case Late => (t.(callbacks := t.callbacks + {c.event}), Late)
      case Raised => (t, Raised)
      case _ => (done.0.(callbacks := t.callbacks + {c.event}), done.1)
  }
}
