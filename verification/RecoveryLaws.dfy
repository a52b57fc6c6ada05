/** What the recovery worker's steps lead to, told from the rows alone. */
module RecoveryLaws {
  import opened Schema
  import opened World
  import opened Jobs
  import opened RecoveryTx
  import opened Machine
  import opened IntakeInvariant
  import opened QueueInvariant
  import opened QueueRun
  import IntakeRun

  /** A message that could not be read for ten minutes fails; one approved for download whose binding is no longer active
      cannot be delivered. */
  lemma DeadlinesLead(w: World, m: nat, now: int)
    requires (hide Next, Run; w.daemon.Idle? && m < |w.t.inbox|)
    ensures var t, t', row := w.t, Next(w, ByWorker(ResolveTimeout(m, now))).t, w.t.inbox[m];
            t' == if (row.state.Received? || row.state.Resolving?) && now - row.ts > 600_000
                  then t.(inbox := t.inbox[m := row.(state := FailedIn, ts := now)]) else t
    ensures var t, t', row := w.t, Next(w, ByWorker(Orphaned(m, now))).t, w.t.inbox[m];
            t' == if row.state.ApprovedMaterializing? && !RowActive(t, m)
                  then t.(inbox := t.inbox[m := row.(state := Undeliverable, ts := now)]) else t
  {
    hide Run, StepSender, StepIntake, StepCli, StepHook, StepListener;
  }

  /** A download that took over ten minutes fails its message, and its chat is told. */
  lemma DownloadDeadlineLeads(w: World, m: nat, now: int)
    requires (hide Next, Run; IntakeRun.IntakeAt(w) && w.daemon.Idle? && m < |w.t.inbox|)
    ensures var t, t', row := w.t, Next(w, ByWorker(MaterializeTimeout(m, now))).t, w.t.inbox[m];
            if row.state.ApprovedMaterializing? && now - row.ts > 600_000 then
              && t' == t.(inbox := t.inbox[m := row.(state := FailedIn, ts := now)], jobs := t'.jobs)
              && exists p :: 0 <= p < |t.pendings| && t.pendings[p].msg == m
                             && Announced(t.jobs, t'.jobs, KDec(p, ExpectInbox(FailedIn)), row.binding, row.chat, Some(m))
            else t' == t
  {
    hide Run, StepSender, StepIntake, StepCli, StepHook, StepListener, IntakeOk;
    if w.t.inbox[m].state.ApprovedMaterializing? { ApprovalOf(w.t, w.hist.allowed, w.cfg.owner, m); }
  }

  lemma ApprovalOf(t: Tables, allowed: set<(nat, nat, Option<nat>)>, owner: nat, m: nat)
    requires IntakeOk(t, allowed, owner) && m < |t.inbox| && t.inbox[m].state.ApprovedMaterializing?
    ensures PendingOfMsg(t.pendings, m, 0).Some?
  {
    assert HasPending(t.pendings, m);
  }

  predicate RowActive(t: Tables, m: nat)
    requires m < |t.inbox|
  {
    var b := t.inbox[m].binding;
    b.Some? && b.value < |t.bindings| && t.bindings[b.value].status.Active?
  }

  /** An open approval over six hours old expires, its message with it, and its chat is told. */
  lemma ExpiryLeads(w: World, p: nat, now: int)
    requires (hide Next, Run; IntakeRun.IntakeAt(w) && w.daemon.Idle?)
    ensures var t, t' := w.t, Next(w, ByWorker(PendingTimeout(p, now))).t;
            if p < |t.pendings| && t.pendings[p].state.PPending? && t.pendings[p].createdAt + 21_600_000 < now then
              var m := t.pendings[p].msg;
              && m < |t.inbox|
              && t' == t.(pendings := t.pendings[p := t.pendings[p].(state := PExpired)],
                          inbox := t.inbox[m := t.inbox[m].(state := Expired, ts := now)], jobs := t'.jobs)
              && Announced(t.jobs, t'.jobs, KDec(p, ExpectPend(PExpired)), Some(t.pendings[p].binding), t.inbox[m].chat,
                           Some(m))
            else t' == t
  {
    hide Run, StepSender, StepIntake, StepCli, StepHook, StepListener;
    if p < |w.t.pendings| { assert PendingFits(w.t.pendings[p], w.t.inbox, w.t.bindings); }
  }

  /** An open approval without a card job gets one; one whose card was sent but not noted gets it noted. */
  ghost predicate CardTended(t: Tables, t': Tables, p: nat) {
    if p < |t.pendings| && t.pendings[p].state.PPending? then
      && t.pendings[p].msg < |t.inbox|
      && (if !KeyUsed(t.jobs, KCard(p)) then
            && t' == t.(jobs := t'.jobs)
            && Announced(t.jobs, t'.jobs, KCard(p), Some(t.pendings[p].binding), t.inbox[t.pendings[p].msg].chat, None)
          else
            forall j :: 0 <= j < |t.jobs| && t.jobs[j].key == KCard(p) ==>
              t' == if t.pendings[p].card.None? && t.jobs[j].state.Sent? && t.jobs[j].sentMsg.Some?
                    then t.(pendings := t.pendings[p := t.pendings[p].(card := t.jobs[j].sentMsg)]) else t)
    else t' == t
  }

  lemma ReplenishTends(t: Tables, p: nat, now: int)
    requires KeysUnique(t.jobs) && (p < |t.pendings| ==> t.pendings[p].msg < |t.inbox|)
    ensures CardTended(t, ReplenishCard(t, p, now), p)
  {
    KeyFound(t.jobs, KCard(p), 0);
  }

  lemma CardsLead(w: World, p: nat, now: int)
    requires (hide Next, Run; IntakeRun.IntakeAt(w) && QueueAt(w) && w.daemon.Idle?)
    ensures CardTended(w.t, Next(w, ByWorker(Replenish(p, now))).t, p)
  {
    hide Run, StepSender, StepIntake, StepCli, StepHook, StepListener;
    hide ReplenishCard, CardTended;
    if p < |w.t.pendings| { assert PendingFits(w.t.pendings[p], w.t.inbox, w.t.bindings); }
    ReplenishTends(w.t, p, now);
  }

  lemma {:induction false} KeyFound(js: seq<Job>, key: Key, from: nat)
    requires from <= |js|
    ensures JobWithKey(js, key, from).None? <==> forall j :: from <= j < |js| ==> js[j].key != key
    decreases |js| - from
  {
    if from < |js| { KeyFound(js, key, from + 1); }
  }

  /** How long a card rests before it is tried again. */
  function CardRest(attempts: int): int {
    if attempts <= 1 then 30_000 else if attempts == 2 then 60_000 else if attempts == 3 then 120_000 else 240_000
  }

  /** A failed card that its open approval still waits for is queued again behind its rest, if it was sent out fewer than
      five times and its binding is active; after five times it is given up. */
  lemma RearmLeads(w: World, j: nat, now: int)
    requires (hide Next, Run; QueueAt(w) && w.daemon.Idle? && j < |w.t.jobs|)
    ensures var t, t', job := w.t, Next(w, ByWorker(Rearm(j, now))).t, w.t.jobs[j];
            var awaited := job.kind.ApprovalCard? && job.state.Failed? && job.refPending.Some?
                           && job.refPending.value < |t.pendings| && t.pendings[job.refPending.value].state.PPending?
                           && t.pendings[job.refPending.value].card.None?;
            var active := job.binding.Some? && job.binding.value < |t.bindings|
                          && t.bindings[job.binding.value].status.Active?;
            t' == if !awaited then t
                  else if job.attempts >= 5 then t.(jobs := t.jobs[j := job.(error := GivenUp)])
                  else if active then
                    t.(jobs := t.jobs[j := job.(state := Queued, next := Some(now + CardRest(job.attempts)))])
                  else t
  {
    hide Run, StepSender, StepIntake, StepCli, StepHook, StepListener;
    assert RowOk(w.t.jobs[j]);
    assert OutboundTx.Pow2(0) == 1 && OutboundTx.Pow2(1) == 2 && OutboundTx.Pow2(2) == 4 && OutboundTx.Pow2(3) == 8;
  }

  /** Leases that have run out, and no others, go back to the queue of an active binding and are dropped with an ended one;
      the token is taken back either way. */
  lemma ReclaimLeads(w: World, now: int)
    requires (hide Next, Run; IntakeRun.IntakeAt(w) && w.daemon.Idle?)
    ensures var t, t' := w.t, Next(w, ByWorker(Reclaim(now))).t;
            && t' == t.(deliveries := t'.deliveries) && |t'.deliveries| == |t.deliveries|
            && forall d :: 0 <= d < |t.deliveries| ==>
                 && t.deliveries[d].binding < |t.bindings|
                 && t'.deliveries[d] == if t.deliveries[d].state.DLeased? && t.deliveries[d].leaseUntil.Some?
                                           && t.deliveries[d].leaseUntil.value < now
                                        then t.deliveries[d].(
                                          state := if t.bindings[t.deliveries[d].binding].status.Active? then DEnqueued
                                                   else DDropped,
                                          token := None, leaseEpoch := None, leaseUntil := None)
                                        else t.deliveries[d]
  {
    hide Run, StepSender, StepIntake, StepCli, StepHook, StepListener;
    assert forall d :: 0 <= d < |w.t.deliveries| ==> DeliveryFits(w.t.deliveries[d], w.t.inbox, w.t.bindings);
  }

  /** What is over for more than a week loses its contents, and nothing else changes. */
  lemma RetentionLeads(w: World, now: int)
    requires (hide Next, Run; w.daemon.Idle?)
    ensures var t, t' := w.t, Next(w, ByWorker(Retain(now))).t;
            && t' == t.(inbox := t'.inbox, deliveries := t'.deliveries, jobs := t'.jobs)
            && |t'.inbox| == |t.inbox| && |t'.deliveries| == |t.deliveries| && |t'.jobs| == |t.jobs|
            && (forall m :: 0 <= m < |t.inbox| ==>
                  var row := t.inbox[m];
                  var open := row.state.Received? || row.state.Resolving? || row.state.WaitingBinding?
                              || row.state.AwaitingApproval? || row.state.ApprovedMaterializing?;
                  t'.inbox[m] == if !open && now - row.ts > 604_800_000 then row.(snap := None) else row)
            && (forall d :: 0 <= d < |t.deliveries| ==>
                  t'.deliveries[d] == if (t.deliveries[d].state.DEmitted? || t.deliveries[d].state.DDropped?)
                                         && now - t.deliveries[d].enqAt > 604_800_000
                                      then t.deliveries[d].(payload := None) else t.deliveries[d])
            && (forall j :: 0 <= j < |t.jobs| ==>
                  t'.jobs[j] == if (t.jobs[j].state.Sent? || t.jobs[j].state.Failed? || t.jobs[j].state.Cancelled?)
                                   && now - t.jobs[j].createdAt > 604_800_000
                                then t.jobs[j].(body := None) else t.jobs[j])
  {
    hide Run, StepSender, StepIntake, StepCli, StepHook, StepListener;
  }
}
