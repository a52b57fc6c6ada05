/** lib/approval.py as it runs: a click on a card is one transaction, rolled back unless it decides the approval. */
module ApprovalOps {
  import opened Schema
  import opened World
  import opened Jobs
  import opened InboundTx
  import opened ApprovalTx
  import opened Machine
  import opened Scripts
  import opened System
  import opened InboundOps
  import opened Reach
  import Safety
  import IntakeLaws
  import Drives

  method DecideInTx(s: System, c: Callback, now: int) returns (reply: Reply)
    requires c.act.Some? && c.pending.Some? && c.pending.value < |s.pendings|
    requires s.pendings[c.pending.value].msg < |s.inbox|
    modifies s`pendings, s`inbox, s`deliveries, s`jobs
    ensures reply == ApplyTx(old(s.T()), c, now).1
    ensures reply.Applied? || reply.AppliedMedia? ==> s.T() == ApplyTx(old(s.T()), c, now).0
  {
    var t0 := s.T();
    var pid := c.pending.value;
    var p := s.pendings[pid];
    var m := p.msg;
    if !p.state.PPending? { return Late; }
    if EventUsed(s.pendings, c.event) { return Raised; }
    s.pendings := s.pendings[pid := Decided(p, if c.act.value.Approve? then PApproved else PRejected, c)];
    if c.act.value.Reject? {
      var _ := Cas(s, m, AwaitingApproval, Rejected, now);
      s.jobs := AddJob(s.jobs, DecisionJob(t0, m, pid, ExpectPend(PRejected), now));
      return Applied;
    }
    if s.inbox[m].snap.None? { return Raised; }
    var snap := s.inbox[m].snap.value;
    if snap.msgType.Media() {
      var moved := Cas(s, m, AwaitingApproval, ApprovedMaterializing, now);
      return if moved then AppliedMedia else Late;
    }
    var approver := if c.operator.Some? then ByUser(c.operator.value) else NoApprover;
    var done := EnqueueInTx(s, m, p.binding, snap, AwaitingApproval, approver, false, now);
    if !done { return Late; }
    s.jobs := AddJob(s.jobs, DecisionJob(t0, m, pid, ExpectPend(PApproved), now));
    return Applied;
  }

  /** Duplicates and exceptions leave nothing behind, invalid and late clicks only their event. */
  method ProcessInTx(s: System, c: Callback, now: int) returns (reply: Reply)
    modifies s
    ensures s.W() == old(s.W()).(t := CallbackTx(old(s.T()), s.cfg, c, now).0)
    ensures reply == CallbackTx(old(s.T()), s.cfg, c, now).1
  {
    var t0 := s.T();
    if c.event in s.callbacks { return Dup; }
    s.callbacks := s.callbacks + {c.event};
    if !ValidCallback(t0, s.cfg, c) {
      s.Restore(t0);
      s.callbacks := s.callbacks + {c.event};
      return Invalid;
    }
    reply := DecideInTx(s, c, now);
    if reply.Raised? {
      s.Restore(t0);
    } else if reply.Late? {
      s.Restore(t0);
      s.callbacks := s.callbacks + {c.event};
    }
  }

  /** The approved media message, which is driven on at once. */
  function DrivenMessage(w: World, c: Callback, reply: Reply): Option<nat> {
    if reply.AppliedMedia? && c.pending.Some? && c.pending.value < |w.t.pendings|
    then Some(w.t.pendings[c.pending.value].msg) else None
  }

  /** The whole of process_event: one click, never an exception; exactly an approved media message is driven on, and once
      its download is not put off it is settled. */
  method ProcessEvent(s: System, c: Callback, now: int, e: Encounter) returns (reply: Reply)
    requires (hide Next, Run; s.Valid() && s.daemon.Idle? && ForeignEncounter(e))
    modifies s
    ensures s.Valid() && s.daemon.Idle? && !reply.Raised?
    ensures var t, t' := old(s.T()), Next(old(s.W()), ByIntake(Click(c, now))).t;
            if IntakeLaws.Opens(t, old(s.cfg), c) then IntakeLaws.Decides(t, t', old(s.cfg), c, now)
            else t' == t.(callbacks := t.callbacks + {c.event})
    ensures reply == IntakeLaws.ReplyTo(old(s.T()), old(s.cfg), c)
    ensures var w1 := Next(old(s.W()), ByIntake(Click(c, now)));
            var m := DrivenMessage(w1, c, reply);
            && s.W() == (if m.Some? then Run(w1, DriveActs(w1, m.value, e, READINGS)) else w1)
            && (m.Some? && m.value < |w1.t.inbox| && w1.t.inbox[m.value].snap.Some? && !e.download.NotYet? ==>
                  m.value < |s.inbox| && Drives.Settled(s.T(), m.value))
  {
    hide Run, StepSender, StepWorker, StepCli, StepHook, StepListener;
    ghost var w0 := s.W();
    NeverRaised(w0, c, now);
    SoundWhenReached(w0);
    IntakeLaws.ClickLeads(w0, c, now);
    reply := ProcessInTx(s, c, now);
    ghost var click := ByIntake(Click(c, now));
    assert s.W() == Next(w0, click);
    ReachedNext(w0, click);
    if reply.AppliedMedia? && c.pending.Some? && c.pending.value < |s.pendings| {
      DriveRow(s, s.pendings[c.pending.value].msg, e);
    }
  }

  lemma NeverRaised(w: World, c: Callback, now: int)
    requires Reached(w)
    ensures !CallbackTx(w.t, w.cfg, c, now).1.Raised?
  {
    hide Next, Run;
    var cfg, acts :| w == Safety.After(cfg, acts);
    Safety.ClicksAreDecided(cfg, acts, c, now);
  }
}
