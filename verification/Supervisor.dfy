/** lib/ctl.py: keeping one daemon running, against an environment that may answer anything. */
module Supervisor {
  import opened Schema

  const HUNG_THRESHOLD_MS := 180_000
  const POLL_STEP_MS: nat := 300

  datatype Phase = Probing | Running | Degraded | Refused | Stopping | NoPhase

  /** A row of daemon_state as read; generation 0 stands for the empty string. */
  datatype State = State(lastLoop: Option<int>, pid: Option<nat>, start: Option<nat>, phase: Phase, startupGen: nat,
                         gen: nat, codeId: Option<nat>)

  datatype Probe = ProbeAlive | ProbeDead | ProbeUnknown

  datatype Result = IsRunning | Started | Recovered | InProgress | NotReady {
    predicate Ready() { IsRunning? || Started? || Recovered? }
  }

  // ---- Pure judgements ----

  predicate HeartbeatFresh(st: Option<State>, now: int) {
    st.Some? && st.value.lastLoop.Some? && now - st.value.lastLoop.value <= HUNG_THRESHOLD_MS
  }

  /** state_ready: a fresh heartbeat, a conclusion of startup, and both from the same generation. */
  predicate StateReady(st: Option<State>, now: int) {
    HeartbeatFresh(st, now) && (st.value.phase.Running? || st.value.phase.Degraded?)
    && st.value.startupGen == st.value.gen
  }

  function GenOf(st: Option<State>): nat {
    if st.None? then 0 else if st.value.gen != 0 then st.value.gen else st.value.startupGen
  }

  predicate RefusedNow(st: Option<State>) { st.Some? && st.value.phase.Refused? }

  // ---- What was observed and done ----

  datatype Event = SawLock(held: bool) | SawState(state: Option<State>) | SawClock(now: int) | SawMono(mono: int)
                 | Probed(pid: nat, start: nat, answer: Probe) | Killed(victim: nat, delivered: bool) | Spawned
                 | Tried(acquired: bool) | Released | Slept

  datatype Reply = Reply(held: bool, state: Option<State>, now: int, mono: int, probe: Probe, killFails: bool,
                         acquired: bool)

  function Kills(t: seq<Event>): nat {
    if t == [] then 0 else (if t[0].Killed? then 1 else 0) + Kills(t[1..])
  }

  function Spawns(t: seq<Event>): nat {
    if t == [] then 0 else (if t[0].Spawned? then 1 else 0) + Spawns(t[1..])
  }

  lemma {:induction false} CountsAdd(a: seq<Event>, b: seq<Event>)
    ensures Kills(a + b) == Kills(a) + Kills(b) && Spawns(a + b) == Spawns(a) + Spawns(b)
    decreases |a|
  {
    if a == [] {
      assert a + b == b;
    } else {
      assert (a + b)[1..] == a[1..] + b;
      CountsAdd(a[1..], b);
    }
  }

  /** The trace ends with a reading of the state, the lock held, and a clock at which that state is ready. */
  predicate EndsReady(t: seq<Event>) {
    var n := |t|;
    n >= 3 && t[n - 3].SawState? && t[n - 2] == SawLock(true) && t[n - 1].SawClock?
    && StateReady(t[n - 3].state, t[n - 1].now)
  }

  /** A kill follows a reading of the state under a held lock that names the process and shows no heartbeat, or one
      stale by a clock read then, and comes right after a probe that found exactly that process alive. */
  predicate StaleReading(t: seq<Event>, j: nat, k: nat, l: nat, i: nat) {
    && j < k < i < |t| && t[i].Killed? && t[j].SawState? && t[k] == SawLock(true)
    && t[j].state.Some? && t[j].state.value.pid == Some(t[i].victim) && t[j].state.value.start.Some?
    && (t[j].state.value.lastLoop.None?
        || (k < l < i && t[l].SawClock? && !HeartbeatFresh(t[j].state, t[l].now)))
    && t[i - 1] == Probed(t[i].victim, t[j].state.value.start.value, ProbeAlive)
  }

  ghost predicate KillsJustified(t: seq<Event>) {
    forall i :: 0 <= i < |t| && t[i].Killed? ==> exists j, k, l :: StaleReading(t, j, k, l, i)
  }

  /** A spawn follows a reading of the state it is meant to replace. */
  ghost predicate SpawnedFrom(t: seq<Event>, baseline: nat) {
    exists s :: 0 < s < |t| && t[s].Spawned? && t[s - 1].SawState? && GenOf(t[s - 1].state) == baseline
  }

  /** What a ready answer rests on: the state was seen ready with the lock held, and after a spawn it is of another
      generation than the one read before the spawn. */
  ghost predicate ReadyRests(t: seq<Event>) {
    EndsReady(t) && (Spawns(t) > 0 ==> exists g :: SpawnedFrom(t, g) && GenOf(t[|t| - 3].state) != g)
  }

  lemma NoKills(t: seq<Event>)
    requires forall i :: 0 <= i < |t| ==> !t[i].Killed? && !t[i].Spawned?
    ensures Kills(t) == 0 && Spawns(t) == 0
    decreases |t|
  {}

  /** Only observations: nothing killed, nothing spawned. */
  ghost predicate Watching(t: seq<Event>) { forall i :: 0 <= i < |t| ==> !t[i].Killed? && !t[i].Spawned? }

  function Sleeps(t: seq<Event>): nat { multiset(t)[Slept] }

  /** A look at i: the state, the lock held, and a clock at which that state is ready. */
  predicate LookReady(t: seq<Event>, i: nat) {
    i + 2 < |t| && t[i].SawState? && t[i + 1] == SawLock(true) && t[i + 2].SawClock? && StateReady(t[i].state, t[i + 2].now)
  }

  /** Such a look at a generation other than the baseline. */
  predicate Succeeded(t: seq<Event>, baseline: nat, i: nat) { LookReady(t, i) && GenOf(t[i].state) != baseline }

  /** A look that ends the waiting for a conclusion: the lock is free, the daemon refused, or its heartbeat is stale. */
  predicate Hopeless(t: seq<Event>, i: nat) {
    && i + 1 < |t| && t[i].SawState? && t[i + 1].SawLock?
    && (t[i + 1].held ==>
          RefusedNow(t[i].state) || (i + 3 < |t| && t[i + 3].SawClock? && !HeartbeatFresh(t[i].state, t[i + 3].now)))
  }

  /** The new generation was seen to refuse. */
  predicate RefusedToo(t: seq<Event>, baseline: nat, i: nat) {
    i < |t| && t[i].SawState? && GenOf(t[i].state) != baseline && RefusedNow(t[i].state) && t[|t| - 1] == SawLock(true)
  }

  /** A look at a daemon that is alive but undecided, and what it says. */
  ghost predicate ConclusionLooked(t: seq<Event>, look: Look) {
    && Watching(t) && |t| >= 2 && t[0].SawState? && (forall k :: 0 < k < |t| ==> !t[k].SawState?)
    && (look.Took? ==> EndsReady(t) && |t| == 3) && (look.Took? <==> LookReady(t, 0))
    && (look.GaveUp? ==> Hopeless(t, 0))
    && (look.NotYet? ==> |t| == 5 && t[4].Slept? && Sleeps(t) == 1)
  }

  lemma LockGone(st: Option<State>)
    ensures ConclusionLooked([SawState(st), SawLock(false)], GaveUp)
  {}

  lemma FoundReady(st: Option<State>, now: int)
    requires StateReady(st, now)
    ensures ConclusionLooked([SawState(st), SawLock(true), SawClock(now)], Took)
  {}

  lemma FoundRefused(st: Option<State>, now: int, rest: seq<Event>)
    requires !StateReady(st, now) && RefusedNow(st) && Watching(rest)
    requires forall k :: 0 <= k < |rest| ==> rest[k].SawLock? || rest[k].Slept?
    ensures ConclusionLooked([SawState(st), SawLock(true), SawClock(now)] + rest, GaveUp)
  {
    var t := [SawState(st), SawLock(true), SawClock(now)] + rest;
    assert t[0] == SawState(st) && t[1] == SawLock(true) && t[2] == SawClock(now);
  }

  lemma FoundSilent(st: Option<State>, now: int, later: int)
    requires !StateReady(st, now) && !HeartbeatFresh(st, later)
    ensures ConclusionLooked([SawState(st), SawLock(true), SawClock(now), SawClock(later)], GaveUp)
  {}

  lemma FoundUndecided(st: Option<State>, now: int, later: int)
    requires !StateReady(st, now)
    ensures ConclusionLooked([SawState(st), SawLock(true), SawClock(now), SawClock(later), Slept], NotYet)
  {}

  /** A look at the new process, and what it says. */
  ghost predicate SuccessorLooked(t: seq<Event>, baseline: nat, look: Look) {
    && Watching(t) && 4 <= |t| <= 5 && Sleeps(t) == 1
    && t[0] == Slept && t[1].SawState? && t[2].SawLock? && (forall k :: 2 <= k < |t| ==> !t[k].SawState?)
    && (look.Took? ==> EndsReady(t) && GenOf(t[|t| - 3].state) != baseline)
    && (look.Took? <==> Succeeded(t, baseline, 1)) && (look.GaveUp? ==> RefusedToo(t, baseline, 1))
    && (!look.Took? ==> t[|t| - 1].SawLock?)
  }

  lemma SuccessorReady(st: Option<State>, now: int, baseline: nat)
    requires StateReady(st, now) && GenOf(st) != baseline
    ensures SuccessorLooked([Slept, SawState(st), SawLock(true), SawClock(now)], baseline, Took)
  {}

  function NextLook(st: Option<State>, held: bool, baseline: nat): Look {
    if held && GenOf(st) != baseline && RefusedNow(st) then GaveUp else NotYet
  }

  lemma SuccessorNotReady(st: Option<State>, now: int, held: bool, baseline: nat)
    requires !(StateReady(st, now) && GenOf(st) != baseline)
    ensures SuccessorLooked([Slept, SawState(st), SawLock(true), SawClock(now), SawLock(held)], baseline,
                            NextLook(st, held, baseline))
  {}

  lemma SuccessorAway(st: Option<State>, held: bool, baseline: nat)
    ensures SuccessorLooked([Slept, SawState(st), SawLock(false), SawLock(held)], baseline, NextLook(st, held, baseline))
  {}

  /** A look stays a look behind what was seen before. */
  lemma LookLater(head: seq<Event>, t: seq<Event>)
    ensures LookReady(t, 0) ==> LookReady(head + t, |head|)
    ensures Hopeless(t, 0) ==> Hopeless(head + t, |head|)
    ensures EndsReady(t) ==> EndsReady(head + t)
  {}

  /** Appending a look that is not ready brings no look that is. */
  lemma NoneReady(head: seq<Event>, t: seq<Event>)
    requires (forall k :: !LookReady(head, k)) && !LookReady(t, 0)
    requires (head != [] ==> !head[|head| - 1].SawState?)
    requires t != [] && t[0].SawState? && forall k :: 0 < k < |t| ==> !t[k].SawState?
    ensures forall k :: !LookReady(head + t, k)
  {
    forall k: nat ensures !LookReady(head + t, k) {
      if LookReady(head + t, k) {
        if k < |head| { assert LookReady(head, k); }
      }
    }
  }

  /** Waiting for the lock, `rounds` times at most. */
  ghost predicate AwaitedRelease(t: seq<Event>, free: bool, rounds: nat) {
    && (forall k :: 0 <= k < |t| ==> t[k].SawLock? || t[k].Slept?)
    && (forall k :: 0 <= k < |t| - 1 ==> t[k] != SawLock(false))
    && (if free then t != [] && t[|t| - 1] == SawLock(false) else |t| == 2 * rounds && SawLock(false) !in t)
  }

  /** Likewise after a spawn, where the look stands second in its round. */
  lemma NoneSucceeds(t: seq<Event>, baseline: nat, n: nat)
    requires 0 < n && n + 4 <= |t| && (forall k :: !Succeeded(t[..n], baseline, k)) && !Succeeded(t[n..], baseline, 1)
    requires !t[n - 1].SawState? && t[n].Slept? && forall k :: n + 2 <= k < |t| ==> !t[k].SawState?
    ensures forall k :: !Succeeded(t, baseline, k)
  {
    forall k: nat ensures !Succeeded(t, baseline, k) {
      if LookReady(t, k) {
        if k < n { assert !Succeeded(t[..n], baseline, k); }
      }
    }
  }

  /** One spawn right behind a reading of the state, then looks: started exactly if one of them finds another generation
      ready; otherwise that generation refused, or time is up. */
  ghost predicate StartedOne(t: seq<Event>, r: Result, rounds: nat) {
    && |t| >= 2 && t[0].SawState? && t[1].Spawned? && Kills(t) == 0 && Spawns(t) == 1
    && (r.Started? || r.NotReady?)
    && (r.Started? <==> exists i :: Succeeded(t, GenOf(t[0].state), i))
    && (r.NotReady? ==> Sleeps(t) == rounds || exists i :: RefusedToo(t, GenOf(t[0].state), i))
  }

  predicate Named(st: Option<State>) { st.Some? && st.value.pid.Some? && st.value.start.Some? }

  /** The recorded process is probed, terminated if it is certainly alive, and replaced once the lock is free. */
  ghost predicate TookOver(t: seq<Event>, st: Option<State>, r: Result, waits: nat, rounds: nat) {
    if !Named(st) then t == [] && r.NotReady?
    else
      && t != [] && t[0].Probed? && t[0].pid == st.value.pid.value && t[0].start == st.value.start.value
      && (if !t[0].answer.ProbeAlive? then |t| == 1 && r.NotReady?
          else
            && |t| >= 2 && t[1].Killed? && t[1].victim == st.value.pid.value
            && (if !t[1].delivered then |t| == 2 && r.NotReady?
                else exists n :: 2 <= n <= |t| && Replaced(t[2..n], t[n..], r, waits, rounds)))
  }

  ghost predicate Replaced(waited: seq<Event>, started: seq<Event>, r: Result, waits: nat, rounds: nat) {
    || (AwaitedRelease(waited, true, waits) && (r.Recovered? || r.NotReady?)
        && StartedOne(started, if r.Recovered? then Started else NotReady, rounds))
    || (AwaitedRelease(waited, false, waits) && started == [] && r.NotReady?)
  }

  /** What the first readings say: ready, the lock free, a fresh heartbeat (refused or undecided), or none. */
  ghost predicate Assessed(t: seq<Event>, st: Option<State>, found: Finding) {
    && |t| >= 3 && t[0] == SawState(st) && t[1].SawLock?
    && (if LookReady(t, 0) then |t| == 3 && found.Healthy?
        else
          var k := Deciding(t);
          && (t[1].held ==> t[2].SawClock?) && k < |t| && t[k].SawLock?
          && (if !t[k].held then |t| == k + 1 && found.Nobody?
              else if st.None? || st.value.lastLoop.None? then |t| == k + 1 && found.Hung?
              else
                && |t| == k + 2 && t[k + 1].SawClock?
                && found == if !HeartbeatFresh(st, t[k + 1].now) then Hung
                            else if RefusedNow(st) then Declined else Undecided))
  }

  /** Where the reading of the lock stands that decides, when the state was not ready. */
  function Deciding(t: seq<Event>): nat { if |t| > 1 && t[1] == SawLock(true) then 3 else 2 }

  /** A daemon that is alive but undecided: running exactly if a look finds it ready. */
  ghost predicate Concluded(t: seq<Event>, r: Result, rounds: nat) {
    && Watching(t) && (r.IsRunning? || r.NotReady?)
    && (r.IsRunning? <==> exists i :: LookReady(t, i))
    && (r.NotReady? ==> Sleeps(t) == rounds || exists i :: Hopeless(t, i))
  }

  /** What the owner does, by what it found. */
  ghost predicate OwnerActs(t: seq<Event>, found: Finding, st: Option<State>, r: Result, waits: nat, probes: nat,
                            rounds: nat)
  {
    match found
    case Healthy => t == [] && r.IsRunning?
    case Nobody => StartedOne(t, r, rounds)
    case Declined => (exists free :: AwaitedRelease(t, free, waits)) && r.NotReady?
    case Undecided => Concluded(t, r, probes)
    case Hung => TookOver(t, st, r, waits, rounds)
  }

  /** After the spawn and i looks, none of which found another generation ready. */
  ghost predicate Spawning(t: seq<Event>, base: Option<State>, i: nat) {
    && 2 <= |t| <= 2 + 5 * i && t[0] == SawState(base) && t[1].Spawned?
    && Kills(t) == 0 && Spawns(t) == 1 && Sleeps(t) == i
    && !t[|t| - 1].SawState? && forall k :: !Succeeded(t, GenOf(base), k)
  }

  lemma JustSpawned(base: Option<State>)
    ensures Spawning([SawState(base), Spawned], base, 0)
  {
    assert [SawState(base), Spawned] == [SawState(base)] + [Spawned];
    CountsAdd([SawState(base)], [Spawned]);
  }

  lemma OneMoreLook(t: seq<Event>, looked: seq<Event>, base: Option<State>, i: nat, look: Look, rounds: nat)
    requires Spawning(t, base, i) && SuccessorLooked(looked, GenOf(base), look) && i < rounds
    ensures var all := t + looked;
            && |all| <= 2 + 5 * rounds && Kills(all) == 0 && Spawns(all) == 1
            && (look.Took? ==> StartedOne(all, Started, rounds) && ReadyRests(all))
            && (look.GaveUp? ==> StartedOne(all, NotReady, rounds))
            && (look.NotYet? ==> Spawning(all, base, i + 1))
  {
    hide Sleeps, StateReady, GenOf, RefusedNow;
    CountsAdd(t, looked);
    NoKills(looked);
    if look.Took? { LookTook(t, looked, base, i, rounds); } else { LookOn(t, looked, base, i, look); }
    if look.GaveUp? { LookRefused(t, looked, base); }
    assert Sleeps(t + looked) == Sleeps(t) + Sleeps(looked) by { SleepsAdd(t, looked); }
  }

  lemma SleepsAdd(a: seq<Event>, b: seq<Event>)
    ensures Sleeps(a + b) == Sleeps(a) + Sleeps(b)
  {}

  lemma LookTook(t: seq<Event>, looked: seq<Event>, base: Option<State>, i: nat, rounds: nat)
    requires Spawning(t, base, i) && SuccessorLooked(looked, GenOf(base), Took)
    requires Kills(t + looked) == 0 && Spawns(t + looked) == 1
    ensures StartedOne(t + looked, Started, rounds) && ReadyRests(t + looked)
  {
    hide Sleeps, StateReady, GenOf;
    var all := t + looked;
    EndLater(t, looked);
    assert forall k :: 0 <= k < |looked| ==> all[|t| + k] == looked[k];
    assert all[0] == SawState(base) && all[1].Spawned?;
    assert SpawnedFrom(all, GenOf(base));
    assert Succeeded(all, GenOf(base), |t| + 1);
  }

  lemma LookOn(t: seq<Event>, looked: seq<Event>, base: Option<State>, i: nat, look: Look)
    requires Spawning(t, base, i) && SuccessorLooked(looked, GenOf(base), look) && !look.Took?
    ensures forall k :: !Succeeded(t + looked, GenOf(base), k)
  {
    hide Sleeps, StateReady, GenOf;
    var all := t + looked;
    assert all[..|t|] == t && all[|t|..] == looked;
    assert forall k :: 0 <= k < |looked| ==> all[|t| + k] == looked[k];
    NoneSucceeds(all, GenOf(base), |t|);
  }

  lemma LookRefused(t: seq<Event>, looked: seq<Event>, base: Option<State>)
    requires SuccessorLooked(looked, GenOf(base), GaveUp)
    ensures RefusedToo(t + looked, GenOf(base), |t| + 1)
  {
    hide Sleeps, StateReady, GenOf;
    var all := t + looked;
    assert all[|t| + 1] == looked[1] && all[|all| - 1] == looked[|looked| - 1];
  }

  lemma StillAway(t: seq<Event>, base: Option<State>, i: nat)
    requires Spawning(t, base, i)
    ensures |t| <= 2 + 5 * i && Kills(t) == 0 && Spawns(t) == 1 && StartedOne(t, NotReady, i)
  {}

  datatype Finding = Healthy | Nobody | Undecided | Declined | Hung

  /** The lock held at k and, unless there never was a heartbeat, a clock at l by which it is stale. */
  predicate HungAt(t: seq<Event>, st: Option<State>, k: nat, l: nat) {
    && 0 < k < |t| && t[k] == SawLock(true)
    && (st.Some? && st.value.lastLoop.Some? ==>
          k < l < |t| && t[l].SawClock? && !HeartbeatFresh(st, t[l].now))
  }

  lemma HungJustifies(head: seq<Event>, acted: seq<Event>, st: Option<State>)
    requires Watching(head) && head != [] && head[0] == SawState(st) && exists k, l :: HungAt(head, st, k, l)
    requires KillsRecorded(acted, st)
    ensures KillsJustified(head + acted)
  {
    var k, l :| HungAt(head, st, k, l);
    var t := head + acted;
    forall i | 0 <= i < |t| && t[i].Killed? ensures exists j, k, l :: StaleReading(t, j, k, l, i) {
      assert acted[i - |head|].Killed?;
      assert StaleReading(t, 0, k, l, i);
    }
  }

  function Steps(ms: nat): nat { ms / POLL_STEP_MS + 1 }

  class DaemonSupervisor {
    const env: nat -> Reply
    const waitMs: nat
    const probeMs: nat
    var asked: nat
    var trace: seq<Event>

    constructor (env: nat -> Reply, waitMs: nat, probeMs: nat)
      ensures trace == [] && this.waitMs == waitMs && this.probeMs == probeMs
    {
      this.env, this.waitMs, this.probeMs, asked, trace := env, waitMs, probeMs, 0, [];
    }

    // ---- Asking the environment ----

    method LockHeld() returns (held: bool)
      modifies this
      ensures trace == old(trace) + [SawLock(held)]
    {
      held := env(asked).held;
      asked, trace := asked + 1, trace + [SawLock(held)];
    }

    method ReadState() returns (st: Option<State>)
      modifies this
      ensures trace == old(trace) + [SawState(st)]
    {
      st := env(asked).state;
      asked, trace := asked + 1, trace + [SawState(st)];
    }

    method Now() returns (now: int)
      modifies this
      ensures trace == old(trace) + [SawClock(now)]
    {
      now := env(asked).now;
      asked, trace := asked + 1, trace + [SawClock(now)];
    }

    method Mono() returns (mono: int)
      modifies this
      ensures trace == old(trace) + [SawMono(mono)]
    {
      mono := env(asked).mono;
      asked, trace := asked + 1, trace + [SawMono(mono)];
    }

    method ProbeProcess(pid: nat, start: nat) returns (answer: Probe)
      modifies this
      ensures trace == old(trace) + [Probed(pid, start, answer)]
    {
      answer := env(asked).probe;
      asked, trace := asked + 1, trace + [Probed(pid, start, answer)];
    }

    /** A signal that cannot be delivered kills nobody, and still counts as the attempt. */
    method Kill(pid: nat) returns (delivered: bool)
      modifies this
      ensures trace == old(trace) + [Killed(pid, delivered)]
    {
      delivered := !env(asked).killFails;
      asked, trace := asked + 1, trace + [Killed(pid, delivered)];
    }

    method Spawn()
      modifies this
      ensures trace == old(trace) + [Spawned]
    {
      asked, trace := asked + 1, trace + [Spawned];
    }

    method TryAcquire() returns (acquired: bool)
      modifies this
      ensures trace == old(trace) + [Tried(acquired)]
    {
      acquired := env(asked).acquired;
      asked, trace := asked + 1, trace + [Tried(acquired)];
    }

    method Release()
      modifies this
      ensures trace == old(trace) + [Released]
    {
      trace := trace + [Released];
    }

    method Sleep()
      modifies this
      ensures trace == old(trace) + [Slept]
    {
      trace := trace + [Slept];
    }

    // ---- Waiting ----

    /** Polls until the lock is free, a bounded number of times. */
    method AwaitRelease() returns (free: bool, ghost seen: seq<Event>)
      modifies this
      ensures trace == old(trace) + seen && Watching(seen) && |seen| <= 2 * Steps(waitMs)
      ensures free ==> seen != [] && seen[|seen| - 1] == SawLock(false)
      ensures AwaitedRelease(seen, free, Steps(waitMs))
    {
      seen := [];
      var i := 0;
      while i < Steps(waitMs)
        invariant i <= Steps(waitMs) && trace == old(trace) + seen && Watching(seen) && |seen| == 2 * i
        invariant forall k :: 0 <= k < |seen| ==> seen[k] == SawLock(true) || seen[k].Slept?
      {
        var held := LockHeld();
        seen := seen + [SawLock(held)];
        if !held { return true, seen; }
        Sleep();
        seen := seen + [Slept];
        i := i + 1;
      }
      return false, seen;
    }

    /** One look at a daemon that is alive but undecided. */
    method LookForConclusion() returns (look: Look, ghost seen: seq<Event>)
      modifies this
      ensures trace == old(trace) + seen && |seen| <= 5 + 2 * Steps(waitMs)
      ensures ConclusionLooked(seen, look)
    {
      hide StateReady, HeartbeatFresh, RefusedNow, ConclusionLooked;
      var st := ReadState();
      var held := LockHeld();
      if !held {
        LockGone(st);
        return GaveUp, [SawState(st), SawLock(false)];
      }
      var now := Now();
      if StateReady(st, now) {
        FoundReady(st, now);
        return Took, [SawState(st), SawLock(true), SawClock(now)];
      }
      if RefusedNow(st) {
        var free, rest := AwaitRelease();
        FoundRefused(st, now, rest);
        return GaveUp, [SawState(st), SawLock(true), SawClock(now)] + rest;
      }
      var later := Now();
      if !HeartbeatFresh(st, later) {
        FoundSilent(st, now, later);
        return GaveUp, [SawState(st), SawLock(true), SawClock(now), SawClock(later)];
      }
      Sleep();
      FoundUndecided(st, now, later);
      return NotYet, [SawState(st), SawLock(true), SawClock(now), SawClock(later), Slept];
    }

    /** The daemon is alive but undecided: wait for its conclusion and never kill. It is running exactly if a look finds it
        ready; otherwise it let go of its lock, refused or fell silent, or time is up. */
    method AwaitProbingConclusion() returns (r: Result, ghost seen: seq<Event>)
      modifies this
      ensures trace == old(trace) + seen && Watching(seen)
      ensures |seen| <= 5 * Steps(probeMs) + 2 * Steps(waitMs)
      ensures r.IsRunning? || r.NotReady?
      ensures r.IsRunning? ==> EndsReady(seen)
      ensures Concluded(seen, r, Steps(probeMs))
    {
      seen := [];
      var i := 0;
      while i < Steps(probeMs)
        invariant i <= Steps(probeMs) && trace == old(trace) + seen && Watching(seen) && |seen| == 5 * i
        invariant Sleeps(seen) == i && (seen == [] || seen[|seen| - 1].Slept?)
        invariant forall k :: !LookReady(seen, k)
      {
        ghost var before := seen;
        var look, looked := LookForConclusion();
        assert Watching(looked) && looked != [];
        seen := before + looked;
        LookLater(before, looked);
        if look.Took? { return IsRunning, seen; }
        NoneReady(before, looked);
        if look.GaveUp? { return NotReady, seen; }
        i := i + 1;
      }
      return NotReady, seen;
    }

    /** One spawn, then wait for a generation other than the one read before it: it has started exactly if a look finds it
        ready; otherwise it refused, or time is up. */
    method SpawnAndWait() returns (r: Result, ghost seen: seq<Event>)
      modifies this
      ensures trace == old(trace) + seen
      ensures |seen| <= 2 + 5 * Steps(waitMs + probeMs)
      ensures Kills(seen) == 0 && Spawns(seen) == 1
      ensures r.Started? || r.NotReady?
      ensures r.Started? ==> ReadyRests(seen)
      ensures StartedOne(seen, r, Steps(waitMs + probeMs))
    {
      hide SuccessorLooked, Spawning, StartedOne, ReadyRests, GenOf;
      var base := ReadState();
      Spawn();
      seen := [SawState(base), Spawned];
      JustSpawned(base);
      var i := 0;
      while i < Steps(waitMs + probeMs)
        invariant i <= Steps(waitMs + probeMs) && trace == old(trace) + seen && Spawning(seen, base, i)
      {
        var look, looked := LookAtSuccessor(GenOf(base));
        OneMoreLook(seen, looked, base, i, look, Steps(waitMs + probeMs));
        seen := seen + looked;
        if look.Took? { return Started, seen; }
        if look.GaveUp? { return NotReady, seen; }
        i := i + 1;
      }
      StillAway(seen, base, i);
      return NotReady, seen;
    }

    /** One round of waiting for the new process. */
    method LookAtSuccessor(baseline: nat) returns (look: Look, ghost seen: seq<Event>)
      modifies this
      ensures trace == old(trace) + seen && SuccessorLooked(seen, baseline, look)
    {
      hide StateReady, GenOf, RefusedNow, SuccessorLooked;
      Sleep();
      var st := ReadState();
      var held := LockHeld();
      if held {
        var now := Now();
        if StateReady(st, now) && GenOf(st) != baseline {
          SuccessorReady(st, now, baseline);
          return Took, [Slept, SawState(st), SawLock(true), SawClock(now)];
        }
        held := LockHeld();
        SuccessorNotReady(st, now, held, baseline);
        return NextLook(st, held, baseline), [Slept, SawState(st), SawLock(true), SawClock(now), SawLock(held)];
      }
      held := LockHeld();
      SuccessorAway(st, held, baseline);
      return NextLook(st, held, baseline), [Slept, SawState(st), SawLock(false), SawLock(held)];
    }

    // ---- Acting ----

    /** Probe the recorded process; only if it is certainly alive, terminate it, wait for the lock and restart. */
    method TakeoverAndRestart(st: Option<State>) returns (r: Result, ghost seen: seq<Event>)
      modifies this
      ensures trace == old(trace) + seen
      ensures |seen| <= 4 + 2 * Steps(waitMs) + 5 * Steps(waitMs + probeMs)
      ensures Spawns(seen) <= 1
      ensures KillsRecorded(seen, st) && Kills(seen) <= 1
      ensures r.Recovered? || r.NotReady?
      ensures r.Recovered? ==> ReadyRests(seen)
      ensures TookOver(seen, st, r, Steps(waitMs), Steps(waitMs + probeMs))
    {
      hide StartedOne, AwaitedRelease;
      seen := [];
      if st.None? || st.value.pid.None? || st.value.start.None? { return NotReady, seen; }
      var pid, start := st.value.pid.value, st.value.start.value;
      var answer := ProbeProcess(pid, start);
      seen := [Probed(pid, start, answer)];
      NoKills(seen);
      if !answer.ProbeAlive? { return NotReady, seen; }
      var delivered := Kill(pid);
      CountsAdd(seen, [Killed(pid, delivered)]);
      seen := seen + [Killed(pid, delivered)];
      if !delivered { return NotReady, seen; }
      var free, waited := AwaitRelease();
      ghost var head := seen + waited;
      CountsAdd(seen, waited);
      NoKills(waited);
      if !free {
        assert head[2..|head|] == waited;
        return NotReady, head;
      }
      var started, spawned := SpawnAndWait();
      CountsAdd(head, spawned);
      KillFree(spawned);
      seen := head + spawned;
      assert seen[2..|head|] == waited && seen[|head|..] == spawned;
      if started.Started? { RestsLater(head, spawned); }
      return if started.Started? then Recovered else NotReady, seen;
    }

    /** Reading the state under the lock: healthy, nobody there, alive but undecided, refused, or hung. */
    method Assess() returns (found: Finding, st: Option<State>, ghost seen: seq<Event>)
      modifies this
      ensures trace == old(trace) + seen && Watching(seen) && 3 <= |seen| <= 5
      ensures seen[0] == SawState(st)
      ensures found.Healthy? ==> EndsReady(seen)
      ensures found.Hung? ==> exists k, l :: HungAt(seen, st, k, l)
      ensures Assessed(seen, st, found)
    {
      st := ReadState();
      var held := LockHeld();
      seen := [SawState(st), SawLock(held)];
      if held {
        var now := Now();
        seen := seen + [SawClock(now)];
        if StateReady(st, now) { return Healthy, st, seen; }
      }
      held := LockHeld();
      seen := seen + [SawLock(held)];
      if !held { return Nobody, st, seen; }
      ghost var k := |seen| - 1;
      if st.Some? && st.value.lastLoop.Some? {
        var now := Now();
        seen := seen + [SawClock(now)];
        if HeartbeatFresh(st, now) { return if RefusedNow(st) then Declined else Undecided, st, seen; }
      }
      assert HungAt(seen, st, k, |seen| - 1);
      return Hung, st, seen;
    }

    /** What the owner does about what it found. */
    method ActOn(found: Finding, st: Option<State>) returns (r: Result, ghost acted: seq<Event>)
      modifies this
      ensures trace == old(trace) + acted && |acted| <= 4 + OwnerSteps(waitMs, probeMs)
      ensures Kills(acted) <= 1 && Spawns(acted) <= 1 && !r.InProgress?
      ensures forall i :: 0 <= i < |acted| && acted[i].Killed? ==> found.Hung?
      ensures found.Hung? ==> KillsRecorded(acted, st)
      ensures if found.Healthy? then acted == [] && r.IsRunning? else r.Ready() ==> ReadyRests(acted)
      ensures OwnerActs(acted, found, st, r, Steps(waitMs), Steps(probeMs), Steps(waitMs + probeMs))
    {
      hide StartedOne, AwaitedRelease, Concluded, TookOver, ReadyRests, EndsReady;
      acted := [];
      match found {
        case Healthy => r := IsRunning;
        case Nobody =>
          r, acted := SpawnAndWait();
          KillFree(acted);
        case Declined =>
          var free, waited := AwaitRelease();
          acted := waited;
          NoKills(acted);
          r := NotReady;
        case Undecided =>
          r, acted := AwaitProbingConclusion();
          NoKills(acted);
          if r.Ready() { WatchedRests(acted); }
        case Hung => r, acted := TakeoverAndRestart(st);
      }
    }

    /** What the owner of the singleflight does. */
    method EnsureLocked() returns (r: Result, ghost seen: seq<Event>)
      modifies this
      ensures trace == old(trace) + seen
      ensures |seen| <= 9 + OwnerSteps(waitMs, probeMs)
      ensures Kills(seen) <= 1 && Spawns(seen) <= 1 && KillsJustified(seen)
      ensures !r.InProgress?
      ensures r.Ready() ==> ReadyRests(seen)
      ensures OwnerRan(seen, r, waitMs, probeMs)
      ensures Spawns(seen) == if DecidedFree(seen) || FreedByKill(seen) then 1 else 0
      ensures Kills(seen) == if DecidedHung(seen) && RecordedAlive(seen) then 1 else 0
      ensures Spawns(seen) == 1 ==> SpawnDecides(seen, r)
      ensures LookReady(seen, 0) ==> r.IsRunning? && |seen| == 3
      ensures (r.Started? ==> DecidedFree(seen)) && (r.Recovered? ==> FreedByKill(seen))
    {
      hide DecidedFree, DecidedHung, FreedByKill, RecordedAlive, SpawnDecides, LookReady;
      hide ReadyRests, EndsReady, OwnerActs, Assessed, KillsJustified, HungAt;
      var found, st, head := Assess();
      ghost var acted: seq<Event>;
      r, acted := ActOn(found, st);
      seen := head + acted;
      NoKills(head);
      CountsAdd(head, acted);
      assert seen[..|head|] == head && seen[|head|..] == acted;
      assert OwnerDid(seen, |head|, found, st, r, waitMs, probeMs);
      OwnerJustified(head, acted, found, st);
      OwnerActsIff(seen, r, waitMs, probeMs);
      if found.Healthy? {
        assert seen == head;
        WatchedRests(head);
      } else if r.Ready() {
        RestedLater(head, acted);
      }
    }

    /** Is there a new generation, ready? */
    method LookForHandoff(baseline: nat) returns (ready: bool, ghost seen: seq<Event>)
      modifies this
      ensures trace == old(trace) + seen && Watching(seen) && 2 <= |seen| <= 3 && Tried(true) !in seen
      ensures ready ==> EndsReady(seen) && GenOf(seen[|seen| - 3].state) !in {0, baseline}
      ensures seen[0].SawState? && (forall k :: 0 < k < |seen| ==> seen[k].SawLock? || seen[k].SawClock?)
      ensures ready <==> Succeeded(seen, baseline, 0) && GenOf(seen[0].state) != 0
    {
      var st := ReadState();
      var held := LockHeld();
      seen := [SawState(st), SawLock(held)];
      ready := false;
      if held && GenOf(st) != 0 && GenOf(st) != baseline {
        var now := Now();
        seen := seen + [SawClock(now)];
        ready := StateReady(st, now);
      }
    }

    /** Out of time: retry later if the daemon is alive and busy. */
    method LateVerdict() returns (r: Result, ghost seen: seq<Event>)
      modifies this
      ensures trace == old(trace) + seen && Watching(seen) && 2 <= |seen| <= 3 && Tried(true) !in seen
      ensures r.InProgress? || r.NotReady?
      ensures seen[0].SawState? && (forall k :: 0 < k < |seen| ==> seen[k].SawLock? || seen[k].SawClock?)
      ensures r.InProgress? <==> BusyAtEnd(seen)
    {
      var st := ReadState();
      var held := LockHeld();
      seen := [SawState(st), SawLock(held)];
      r := NotReady;
      if held && st.Some? && st.value.lastLoop.Some? {
        var now := Now();
        seen := seen + [SawClock(now)];
        r := if HeartbeatFresh(st, now) then InProgress else NotReady;
      }
    }

    /** One round of the wait. */
    method PollOnce(deadline: int, baseline: nat) returns (poll: Polled, ghost round: seq<Event>)
      modifies this
      ensures trace == old(trace) + round && RoundPolled(round, deadline, baseline, poll)
    {
      hide RoundPolled, EndsReady, Succeeded, GenOf;
      var mono := Mono();
      if mono >= deadline {
        PolledLate(mono, deadline, baseline);
        return Late, [SawMono(mono)];
      }
      var acquired := TryAcquire();
      if acquired {
        PolledLock(mono, deadline, baseline);
        return Acquired, [SawMono(mono), Tried(true)];
      }
      var ready, looked := LookForHandoff(baseline);
      PolledThere(mono, deadline, looked, baseline, ready);
      if ready { return SawNew, [SawMono(mono), Tried(false)] + looked; }
      Sleep();
      return Again, [SawMono(mono), Tried(false)] + looked + [Slept];
    }

    /** The polling loop of the wait: until the singleflight is free, a new generation is ready, or time is up. */
    method PollHandoff(baseline: nat) returns (poll: Poll, ghost seen: seq<Event>)
      modifies this
      ensures trace == old(trace) + seen && Watching(seen) && seen != [] && seen[0].SawMono?
      ensures |seen| <= 2 + 6 * HandoffSteps(waitMs, probeMs)
      ensures poll.GotReady? ==> EndsReady(seen) && NewGeneration(seen, baseline)
      ensures poll.GotLock? <==> Tried(true) in seen
      ensures poll.GotLock? ==> seen[|seen| - 1] == Tried(true)
      ensures poll.GotReady? <==> exists i :: PolledReady(seen, baseline, i)
      ensures poll.TimeUp? ==> OutOfTime(seen, 2 * waitMs + probeMs, HandoffSteps(waitMs, probeMs))
      ensures poll.TimeUp? ==> seen[|seen| - 1].SawMono? || seen[|seen| - 1].Slept?
    {
      hide EndsReady, NewGeneration, PolledReady, RoundPolled;
      var begun := Mono();
      seen := [SawMono(begun)];
      NoPollYet(begun, baseline);
      var steps := 0;
      while steps < HandoffSteps(waitMs, probeMs)
        invariant steps <= HandoffSteps(waitMs, probeMs)
        invariant trace == old(trace) + seen && Watching(seen) && 1 <= |seen| <= 1 + 6 * steps
        invariant Tried(true) !in seen && seen[0] == SawMono(begun) && Sleeps(seen) == steps
        invariant seen[|seen| - 1].SawMono? || seen[|seen| - 1].Slept?
        invariant forall i :: !PolledReady(seen, baseline, i)
      {
        var polled, round := PollOnce(begun + 2 * waitMs + probeMs, baseline);
        PolledFacts(round, begun + 2 * waitMs + probeMs, baseline, polled);
        PollsAdd(seen, round, baseline);
        EndLater(seen, round);
        seen := seen + round;
        match polled {
          case Late => return TimeUp, seen;
          case Acquired => return GotLock, seen;
          case SawNew => return GotReady, seen;
          case Again => steps := steps + 1;
        }
      }
      return TimeUp, seen;
    }

    /** Somebody else owns the singleflight: wait to take over from it, or for a generation other than the one there was;
        the old generation never counts, however healthy it looks. */
    method AwaitHandoff(baseline: nat) returns (r: Result, ghost seen: seq<Event>)
      modifies this
      ensures trace == old(trace) + seen && seen != [] && seen[0].SawMono?
      ensures Guaranteed(seen, r)
      ensures |seen| <= 15 + 6 * HandoffSteps(waitMs, probeMs) + OwnerSteps(waitMs, probeMs)
      ensures r.Ready() && Tried(true) !in seen ==> NewGeneration(seen, baseline)
      ensures HandoffLed(seen, baseline, r, waitMs, probeMs)
    {
      hide OwnerRan, OwnerPart, EndsReady, PolledReady, BusyAtEnd, OutOfTime, ReadyRests, NewGeneration, Watching;
      hide Guaranteed, HandoffSteps, OwnerSteps;
      hide DecidedFree, DecidedHung, FreedByKill, RecordedAlive, SpawnDecides, LookReady;
      var poll, polled := PollHandoff(baseline);
      seen := polled;
      match poll {
        case GotLock =>
          ghost var inner: seq<Event>;
          r, inner := EnsureLocked();
          Release();
          HandedOver(polled, inner, r);
          seen := polled + inner + [Released];
          OwnedFrom(polled, inner, r, waitMs, probeMs);
        case GotReady =>
          r := IsRunning;
          WatchedGuarantee(polled);
        case TimeUp =>
          ghost var last: seq<Event>;
          r, last := LateVerdict();
          seen := polled + last;
          BothWatching(polled, last);
          WatchedGuaranteed(seen, r);
          LateLed(polled, last, baseline, r, waitMs, probeMs);
      }
    }

    /** ensure: at most one kill and one spawn, whatever the environment answers; every kill is justified, every ready
        answer rests on evidence, a caller that never got the singleflight never accepts the generation it found, and
        every wait is bounded. Whoever gets the singleflight acts as its owner does; whoever does not is told of a new
        generation exactly if it saw one ready. */
    method Ensure() returns (r: Result, ghost seen: seq<Event>)
      modifies this
      ensures trace == old(trace) + seen
      ensures Guaranteed(seen, r)
      ensures |seen| <= 17 + 6 * HandoffSteps(waitMs, probeMs) + OwnerSteps(waitMs, probeMs)
      ensures r.Ready() && Tried(true) !in seen ==>
                |seen| >= 5 && seen[1].SawState? && NewGeneration(seen, GenOf(seen[1].state))
      ensures EnsureLed(seen, r, waitMs, probeMs)
    {
      hide OwnerRan, EndsReady, PolledReady, ReadyRests, KillsJustified, Guaranteed, NewGeneration, GenOf;
      hide DecidedFree, DecidedHung, FreedByKill, RecordedAlive, SpawnDecides, LookReady, HandoffSteps, OwnerSteps;
      var acquired := TryAcquire();
      if acquired {
        ghost var inner: seq<Event>;
        r, inner := EnsureLocked();
        Release();
        HandedOver([Tried(true)], inner, r);
        OwnedFrom([Tried(true)], inner, r, waitMs, probeMs);
        return r, [Tried(true)] + inner + [Released];
      }
      var st := ReadState();
      ghost var rest: seq<Event>;
      r, rest := AwaitHandoff(GenOf(st));
      seen := [Tried(false), SawState(st)] + rest;
      GuaranteedLater([Tried(false), SawState(st)], rest, r);
      HandoffLater(st, rest, r, waitMs, probeMs);
      NewLater(st, rest, r);
    }

    // ---- reconcile_code_identity ----

    /** Before a bind: only code of this version goes on. It passes if the running daemon has recorded this very
        identity, or if the lock was seen free and a daemon of this version was then ensured; in every other case it
        refuses, having started nothing. An older daemon is terminated only right after a probe found its recorded
        process alive. */
    method ReconcileCodeIdentity(mine: nat) returns (outcome: Reconciled, ghost seen: seq<Event>)
      modifies this
      ensures trace == old(trace) + seen
      ensures outcome.Matches? ==>
                |seen| == 2 && seen[0] == SawLock(true) && seen[1].SawState? && seen[1].state.Some?
                && seen[1].state.value.codeId == Some(mine)
      ensures outcome.Restarted? ==> exists before, ensured :: RestartedAfter(seen, before, ensured, outcome.result)
      ensures outcome.Refusal? ==> Spawns(seen) == 0 && Kills(seen) <= 1
      ensures ReconcileLed(seen, mine, outcome, Steps(waitMs))
    {
      hide Guaranteed, EnsureLed, NewGeneration, RetiredBy;
      var held := LockHeld();
      seen := [SawLock(held)];
      if !held {
        var r, ensured := Ensure();
        assert RestartedAfter(seen + ensured, [], ensured, r);
        return Restarted(r), seen + ensured;
      }
      var st := ReadState();
      ghost var read := [SawLock(true), SawState(st)];
      if st.Some? && st.value.codeId == Some(mine) { return Matches, read; }
      var gone, acted := RetireOld(st);
      seen := read + acted;
      ghost var before := Retired(read, acted, gone);
      assert seen[2..|seen|] == acted;
      if !gone { return Refusal, seen; }
      var r, ensured := Ensure();
      assert (seen + ensured)[2..|seen|] == acted;
      assert RestartedAfter(seen + ensured, before, ensured, r);
      return Restarted(r), seen + ensured;
    }

    /** Get rid of a daemon of another version: by a signal if its process is certainly alive, else only if it has gone
        by itself. */
    method RetireOld(st: Option<State>) returns (gone: bool, ghost seen: seq<Event>)
      modifies this
      ensures trace == old(trace) + seen && Kills(seen) <= 1 && Spawns(seen) == 0
      ensures gone ==> seen != [] && seen[|seen| - 1] == SawLock(false)
      ensures forall i :: 0 <= i < |seen| && seen[i].Killed? ==>
                i > 0 && seen[i - 1].Probed? && seen[i - 1].pid == seen[i].victim && seen[i - 1].answer.ProbeAlive?
      ensures RetiredBy(seen, st, gone, Steps(waitMs))
    {
      hide AwaitedRelease;
      var answer := ProbeUnknown;
      seen := [];
      if st.Some? && st.value.pid.Some? && st.value.start.Some? {
        answer := ProbeProcess(st.value.pid.value, st.value.start.value);
        seen := [Probed(st.value.pid.value, st.value.start.value, answer)];
      }
      NoKills(seen);
      if !answer.ProbeAlive? {
        var held := LockHeld();
        CountsAdd(seen, [SawLock(held)]);
        return !held, seen + [SawLock(held)];
      }
      var delivered := Kill(st.value.pid.value);
      CountsAdd(seen, [Killed(st.value.pid.value, delivered)]);
      seen := seen + [Killed(st.value.pid.value, delivered)];
      if !delivered { return false, seen; }
      var free, waited := AwaitRelease();
      NoKills(waited);
      CountsAdd(seen, waited);
      assert (seen + waited)[1..] == [Killed(st.value.pid.value, delivered)] + waited;
      assert (seen + waited)[1..][1..] == waited;
      return free, seen + waited;
    }
  }

  lemma Retired(read: seq<Event>, acted: seq<Event>, gone: bool) returns (before: seq<Event>)
    requires (forall i :: 0 <= i < |read| ==> !read[i].Killed? && !read[i].Spawned?)
    requires Kills(acted) <= 1 && Spawns(acted) == 0
    requires gone ==> acted != [] && acted[|acted| - 1] == SawLock(false)
    ensures Kills(read + acted) <= 1 && Spawns(read + acted) == 0
    ensures gone ==> read + acted == before + [SawLock(false)] && Kills(before) <= 1 && Spawns(before) == 0
  {
    NoKills(read);
    CountsAdd(read, acted);
    before := read;
    if gone {
      var all := read + acted;
      before := all[..|all| - 1];
      assert all == before + [SawLock(false)];
      CountsAdd(before, [SawLock(false)]);
    }
  }

  /** Nothing but at most one kill until the lock was seen free; then an ensure. */
  ghost predicate RestartedAfter(t: seq<Event>, before: seq<Event>, ensured: seq<Event>, r: Result) {
    t == before + [SawLock(false)] + ensured && Kills(before) <= 1 && Spawns(before) == 0 && Guaranteed(ensured, r)
  }

  lemma WatchedRests(t: seq<Event>)
    requires Watching(t) && EndsReady(t)
    ensures ReadyRests(t)
  {
    NoKills(t);
  }

  lemma RestedLater(head: seq<Event>, t: seq<Event>)
    requires Watching(head) && ReadyRests(t)
    ensures ReadyRests(head + t)
  {
    NoKills(head);
    RestsLater(head, t);
  }

  lemma OwnerJustified(head: seq<Event>, acted: seq<Event>, found: Finding, st: Option<State>)
    requires Watching(head) && head != [] && head[0] == SawState(st)
    requires forall i :: 0 <= i < |acted| && acted[i].Killed? ==> found.Hung?
    requires found.Hung? ==> KillsRecorded(acted, st) && exists k, l :: HungAt(head, st, k, l)
    ensures KillsJustified(head + acted)
  {
    if found.Hung? { HungJustifies(head, acted, st); }
    else { assert forall i :: 0 <= i < |head + acted| ==> !(head + acted)[i].Killed?; }
  }

  /** A kill of the recorded process, right behind the probe that found it alive. */
  ghost predicate KillsRecorded(acted: seq<Event>, st: Option<State>) {
    forall i :: 0 <= i < |acted| && acted[i].Killed? ==>
      && i == 1 && Named(st) && st.value.pid == Some(acted[1].victim)
      && acted[0] == Probed(acted[1].victim, st.value.start.value, ProbeAlive)
  }

  /** An owner's ensure. */
  ghost predicate OwnerRan(t: seq<Event>, r: Result, waitMs: nat, probeMs: nat) {
    exists n, found, st :: OwnerDid(t, n, found, st, r, waitMs, probeMs)
  }

  /** The first n events are the assessment, the rest what the owner does about it. */
  ghost predicate OwnerDid(t: seq<Event>, n: nat, found: Finding, st: Option<State>, r: Result, waitMs: nat, probeMs: nat) {
    && n <= |t| && Assessed(t[..n], st, found)
    && OwnerActs(t[n..], found, st, r, Steps(waitMs), Steps(probeMs), Steps(waitMs + probeMs))
  }

  // ---- When the owner starts a daemon and when it kills one ----

  /** The reading of the lock that decided found it free. */
  predicate DecidedFree(t: seq<Event>) {
    t != [] && t[0].SawState? && !LookReady(t, 0) && Deciding(t) < |t| && t[Deciding(t)] == SawLock(false)
  }

  /** It found the lock held, and no heartbeat, or one stale by the clock read next. */
  predicate DecidedHung(t: seq<Event>) {
    && t != [] && t[0].SawState? && !LookReady(t, 0) && Deciding(t) < |t| && t[Deciding(t)] == SawLock(true)
    && (t[0].state.Some? && t[0].state.value.lastLoop.Some? ==>
          Deciding(t) + 1 < |t| && t[Deciding(t) + 1].SawClock? && !HeartbeatFresh(t[0].state, t[Deciding(t) + 1].now))
  }

  /** The process it has on record was then certainly alive. */
  predicate RecordedAlive(t: seq<Event>) {
    && t != [] && t[0].SawState? && Named(t[0].state)
    && (var p := if t[0].state.value.lastLoop.Some? then Deciding(t) + 2 else Deciding(t) + 1;
        p < |t| && t[p] == Probed(t[0].state.value.pid.value, t[0].state.value.start.value, ProbeAlive))
  }

  /** A signal was delivered, and the lock was seen free afterwards. */
  predicate FreedByKill(t: seq<Event>) {
    exists i, j :: 0 <= i < j < |t| && t[i].Killed? && t[i].delivered && t[j] == SawLock(false)
  }

  /** After the spawn, the answer is good exactly if a look found another generation ready than the one before it. */
  ghost predicate SpawnDecides(t: seq<Event>, r: Result) {
    exists base :: SpawnedFrom(t, base) && (r.Ready() <==> exists i :: Succeeded(t, base, i))
  }

  lemma AssessedOnly(t: seq<Event>, n: nat, st: Option<State>, found: Finding)
    requires n <= |t| && Assessed(t[..n], st, found)
    ensures Watching(t[..n]) && n >= 3 && t[0] == SawState(st)
    ensures forall i :: 0 < i < n ==> t[i].SawLock? || t[i].SawClock?
    ensures found.Healthy? <==> LookReady(t, 0)
    ensures found.Nobody? <==> DecidedFree(t)
    ensures found.Hung? <==> DecidedHung(t)
    ensures found.Hung? ==> n == Deciding(t) + (if st.Some? && st.value.lastLoop.Some? then 2 else 1)
    ensures found.Healthy? <==> LookReady(t[..n], 0)
  {
    assert forall i :: 0 <= i < n ==> t[..n][i] == t[i];
  }

  lemma NoLookBefore(head: seq<Event>, t: seq<Event>)
    requires |head| >= 3 && !LookReady(head, 0)
    requires forall i :: 0 < i < |head| ==> !head[i].SawState?
    ensures forall i: nat :: LookReady(head + t, i) ==> i >= |head|
  {
    assert forall i :: 0 <= i < |head| ==> (head + t)[i] == head[i];
  }

  lemma SpawnedOnce(head: seq<Event>, t: seq<Event>, r: Result, rounds: nat, answer: Result)
    requires StartedOne(t, r, rounds) && (answer.Ready() <==> r.Started?)
    requires |head| >= 3 && !LookReady(head, 0)
    requires forall i :: 0 < i < |head| ==> !head[i].SawState?
    ensures SpawnDecides(head + t, answer)
  {
    var all, base := head + t, GenOf(t[0].state);
    assert all[|head| + 1].Spawned? && all[|head|] == t[0];
    assert SpawnedFrom(all, base);
    if r.Started? {
      var i :| Succeeded(t, base, i);
      assert Succeeded(all, base, |head| + i);
    }
    NoLookBefore(head, t);
    forall i: nat | Succeeded(all, base, i) ensures r.Started? {
      assert Succeeded(t, base, i - |head|);
    }
  }

  lemma NothingFreed(t: seq<Event>)
    requires Kills(t) == 0
    ensures !FreedByKill(t)
  {
    KillFree(t);
  }

  lemma WaitedOnly(t: seq<Event>, free: bool, rounds: nat)
    requires AwaitedRelease(t, free, rounds)
    ensures Watching(t) && (free <==> SawLock(false) in t) && forall k :: 0 <= k < |t| ==> !t[k].SawState?
  {}

  /** Taking over behind a head of readings. */
  lemma TakeoverIff(head: seq<Event>, acted: seq<Event>, st: Option<State>, r: Result, waits: nat, rounds: nat)
    requires Watching(head) && |head| >= 3 && !LookReady(head, 0) && TookOver(acted, st, r, waits, rounds)
    requires forall i :: 0 < i < |head| ==> !head[i].SawState?
    ensures var t := head + acted;
            && Spawns(t) == (if FreedByKill(t) then 1 else 0)
            && Kills(t) == (if Named(st) && acted != [] && acted[0] == Probed(st.value.pid.value, st.value.start.value,
                                                                             ProbeAlive) then 1 else 0)
            && (Spawns(t) == 1 ==> SpawnDecides(t, r)) && (r.Recovered? ==> FreedByKill(t)) && !r.Started?
            && !r.IsRunning?
  {
    hide StartedOne;
    var t := head + acted;
    NoKills(head);
    CountsAdd(head, acted);
    if |acted| < 2 {
      NoKills(acted);
      NothingFreed(t);
    } else {
      CountsAdd(acted[..2], acted[2..]);
      assert acted == acted[..2] + acted[2..] && acted[..2] == [acted[0]] + [acted[1]];
      CountsAdd([acted[0]], [acted[1]]);
      if !acted[1].delivered {
        assert acted[2..] == [];
        assert !FreedByKill(t);
      } else {
        var n :| 2 <= n <= |acted| && Replaced(acted[2..n], acted[n..], r, waits, rounds);
        ReplacedIff(head, acted, n, r, waits, rounds);
      }
    }
  }

  /** After a delivered kill. */
  lemma ReplacedIff(head: seq<Event>, acted: seq<Event>, n: nat, r: Result, waits: nat, rounds: nat)
    requires Watching(head) && |head| >= 3 && !LookReady(head, 0)
    requires forall i :: 0 < i < |head| ==> !head[i].SawState?
    requires 2 <= n <= |acted| && acted[0].Probed? && acted[1].Killed? && acted[1].delivered
    requires Replaced(acted[2..n], acted[n..], r, waits, rounds)
    ensures var t := head + acted;
            && Kills(acted[2..]) == 0 && Spawns(acted[2..]) == (if FreedByKill(t) then 1 else 0)
            && (FreedByKill(t) ==> SpawnDecides(t, r)) && (r.Recovered? ==> FreedByKill(t)) && !r.Started?
            && !r.IsRunning?
  {
    var t, waited, started := head + acted, acted[2..n], acted[n..];
    assert acted[2..] == waited + started;
    CountsAdd(waited, started);
    var free := started != [];
    WaitedOnly(waited, free, waits);
    NoKills(waited);
    if free {
      var before := head + acted[..n];
      assert t == before + started;
      assert t[|head| + 1] == acted[1] && t[|head| + n - 1] == waited[|waited| - 1];
      assert FreedByKill(t);
      forall i | 0 < i < |before| ensures !before[i].SawState? {
        if i >= |head| + 2 { assert before[i] == waited[i - |head| - 2]; }
      }
      assert before[0] == head[0] && before[1] == head[1] && before[2] == head[2];
      SpawnedOnce(before, started, if r.Recovered? then Started else NotReady, rounds, r);
    } else {
      assert forall k :: |head| + 2 <= k < |t| ==> t[k] == waited[k - |head| - 2];
      assert !FreedByKill(t);
    }
  }

  lemma ProbeIs(t: seq<Event>, n: nat, st: Option<State>)
    requires n <= |t| && Assessed(t[..n], st, Hung)
    ensures RecordedAlive(t) <==>
              Named(st) && t[n..] != [] && t[n..][0] == Probed(st.value.pid.value, st.value.start.value, ProbeAlive)
  {
    AssessedOnly(t, n, st, Hung);
    assert t[n..] != [] ==> t[n..][0] == t[n];
  }

  /** The owner spawns exactly if the lock was free when it decided, or freed by its own delivered kill; and it kills
      exactly if the daemon hung and the recorded process was certainly alive. A ready daemon is left alone. */
  lemma OwnerActsIff(t: seq<Event>, r: Result, waitMs: nat, probeMs: nat)
    requires OwnerRan(t, r, waitMs, probeMs)
    ensures Spawns(t) == if DecidedFree(t) || FreedByKill(t) then 1 else 0
    ensures Kills(t) == if DecidedHung(t) && RecordedAlive(t) then 1 else 0
    ensures Spawns(t) == 1 ==> SpawnDecides(t, r)
    ensures LookReady(t, 0) ==> r.IsRunning? && |t| == 3
    ensures (r.Started? ==> DecidedFree(t)) && (r.Recovered? ==> FreedByKill(t))
  {
    hide StartedOne, TookOver, AwaitedRelease, Concluded, Assessed, DecidedFree, DecidedHung, RecordedAlive, LookReady;
    hide FreedByKill;
    var n: nat, found, st :| OwnerDid(t, n, found, st, r, waitMs, probeMs);
    var head, acted := t[..n], t[n..];
    assert t == head + acted;
    CountsAdd(head, acted);
    AssessedOnly(t, n, st, found);
    NoKills(head);
    match found
    case Healthy => HealthyIs(t, n, st);
    case Nobody =>
      StartCounts(acted, r, Steps(waitMs + probeMs));
      SpawnedOnce(head, acted, r, Steps(waitMs + probeMs), r);
      NothingFreed(t);
    case Declined =>
      var free :| AwaitedRelease(acted, free, Steps(waitMs));
      WaitedOnly(acted, free, Steps(waitMs));
      NoKills(acted);
      NothingFreed(t);
    case Undecided =>
      ConcludedOnly(acted, r, Steps(probeMs));
      NoKills(acted);
      NothingFreed(t);
    case Hung =>
      TakeoverIff(head, acted, st, r, Steps(waitMs), Steps(waitMs + probeMs));
      ProbeIs(t, n, st);
  }

  lemma HealthyIs(t: seq<Event>, n: nat, st: Option<State>)
    requires n <= |t| && Assessed(t[..n], st, Healthy) && t[n..] == []
    ensures |t| == 3 && Kills(t) == 0 && Spawns(t) == 0 && !FreedByKill(t)
  {
    assert t == t[..n];
    NoKills(t);
    KillFree(t);
  }

  lemma StartCounts(t: seq<Event>, r: Result, rounds: nat)
    requires StartedOne(t, r, rounds)
    ensures Kills(t) == 0 && Spawns(t) == 1 && (r.Started? || r.NotReady?)
  {}

  lemma ConcludedOnly(t: seq<Event>, r: Result, rounds: nat)
    requires Concluded(t, r, rounds)
    ensures Watching(t) && (r.IsRunning? || r.NotReady?)
  {}

  // ---- The busy caller ----

  /** A look, right after a failed try for the singleflight, at a new generation that is ready. */
  predicate PolledReady(t: seq<Event>, baseline: nat, i: nat) {
    0 < i && i < |t| && t[i - 1] == Tried(false) && Succeeded(t, baseline, i) && GenOf(t[i].state) != 0
  }

  /** The monotonic clock has passed the deadline, or the rounds are used up. */
  predicate OutOfTime(t: seq<Event>, budget: nat, rounds: nat) {
    && t != [] && t[0].SawMono?
    && ((t[|t| - 1].SawMono? && t[|t| - 1].mono >= t[0].mono + budget) || Sleeps(t) == rounds)
  }

  /** The last reading shows a daemon alive under its lock. */
  predicate BusyAtEnd(t: seq<Event>) {
    var n := |t|;
    && n >= 3 && t[n - 3].SawState? && t[n - 2] == SawLock(true) && t[n - 1].SawClock?
    && HeartbeatFresh(t[n - 3].state, t[n - 1].now)
  }

  /** From the moment it has the singleflight, an owner's ensure, and the release. */
  ghost predicate OwnerPart(t: seq<Event>, r: Result, waitMs: nat, probeMs: nat) {
    exists k :: OwnerFrom(t, k, r, waitMs, probeMs)
  }

  ghost predicate OwnerFrom(t: seq<Event>, k: nat, r: Result, waitMs: nat, probeMs: nat) {
    k + 1 < |t| && t[k] == Tried(true) && t[|t| - 1].Released? && OwnerRan(t[k + 1..|t| - 1], r, waitMs, probeMs)
  }

  /** What a wait leads to: the singleflight makes an owner of the caller; otherwise it is running exactly if a new
      generation was seen ready, and else in progress exactly if a daemon is alive at the end. */
  ghost predicate HandoffLed(t: seq<Event>, baseline: nat, r: Result, waitMs: nat, probeMs: nat) {
    if Tried(true) in t then OwnerPart(t, r, waitMs, probeMs)
    else
      && (r.IsRunning? <==> exists i :: PolledReady(t, baseline, i))
      && (r.IsRunning? || (if BusyAtEnd(t) then r.InProgress? else r.NotReady?))
  }

  ghost predicate EnsureLed(t: seq<Event>, r: Result, waitMs: nat, probeMs: nat) {
    if t != [] && t[0] == Tried(true) then OwnerPart(t, r, waitMs, probeMs)
    else |t| >= 2 && t[0] == Tried(false) && t[1].SawState? && HandoffLed(t, GenOf(t[1].state), r, waitMs, probeMs)
  }

  lemma NoPollYet(mono: int, baseline: nat)
    ensures forall i :: !PolledReady([SawMono(mono)], baseline, i)
  {}

  /** One round of the wait and what it ends with. */
  ghost predicate RoundPolled(t: seq<Event>, deadline: int, baseline: nat, poll: Polled) {
    && Watching(t) && 1 <= |t| <= 6 && t[0].SawMono?
    && (poll.Late? ==> |t| == 1 && t[0].mono >= deadline)
    && (poll.Acquired? <==> Tried(true) in t) && (poll.Acquired? ==> |t| == 2 && t[1] == Tried(true))
    && (poll.SawNew? ==> EndsReady(t) && NewGeneration(t, baseline))
    && (poll.SawNew? <==> PolledReady(t, baseline, 2))
    && (forall k :: 0 <= k < |t| && k != 2 ==> !t[k].SawState?)
    && (if poll.Again? then t[|t| - 1].Slept? && Sleeps(t) == 1 else Sleeps(t) == 0)
  }

  lemma PolledFacts(t: seq<Event>, deadline: int, baseline: nat, poll: Polled)
    requires RoundPolled(t, deadline, baseline, poll)
    ensures Watching(t) && 1 <= |t| <= 6 && t[0].SawMono?
    ensures poll.Late? ==> |t| == 1 && t[0].mono >= deadline
    ensures poll.Acquired? <==> Tried(true) in t
    ensures poll.Acquired? ==> |t| == 2 && t[1] == Tried(true)
    ensures poll.SawNew? ==> EndsReady(t) && NewGeneration(t, baseline)
    ensures poll.SawNew? <==> PolledReady(t, baseline, 2)
    ensures forall k :: 0 <= k < |t| && k != 2 ==> !t[k].SawState?
    ensures poll.Again? ==> t[|t| - 1].Slept? && Sleeps(t) == 1
  {}

  lemma PolledLate(mono: int, deadline: int, baseline: nat)
    requires mono >= deadline
    ensures RoundPolled([SawMono(mono)], deadline, baseline, Late)
  {}

  lemma PolledLock(mono: int, deadline: int, baseline: nat)
    ensures RoundPolled([SawMono(mono), Tried(true)], deadline, baseline, Acquired)
  {}

  lemma PolledThere(mono: int, deadline: int, looked: seq<Event>, baseline: nat, ready: bool)
    requires 2 <= |looked| <= 3 && Watching(looked) && Tried(true) !in looked
    requires ready ==> EndsReady(looked) && GenOf(looked[|looked| - 3].state) !in {0, baseline}
    requires ready <==> Succeeded(looked, baseline, 0) && GenOf(looked[0].state) != 0
    requires looked[0].SawState? && forall k :: 0 < k < |looked| ==> looked[k].SawLock? || looked[k].SawClock?
    ensures var t := [SawMono(mono), Tried(false)] + looked;
            if ready then RoundPolled(t, deadline, baseline, SawNew)
            else RoundPolled(t + [Slept], deadline, baseline, Again)
  {
    var t := [SawMono(mono), Tried(false)] + looked;
    assert forall k :: 0 <= k < |looked| ==> t[k + 2] == looked[k];
    assert Sleeps(looked) == 0 by { assert Slept !in looked; }
  }

  lemma PollsAdd(head: seq<Event>, t: seq<Event>, baseline: nat)
    requires (forall i :: !PolledReady(head, baseline, i)) && head != [] && t != [] && t[0].SawMono?
    requires forall k :: 0 <= k < |t| && k != 2 ==> !t[k].SawState?
    ensures PolledReady(t, baseline, 2) ==> PolledReady(head + t, baseline, |head| + 2)
    ensures !PolledReady(t, baseline, 2) ==> forall i :: !PolledReady(head + t, baseline, i)
  {
    assert forall k :: 0 <= k < |t| ==> (head + t)[|head| + k] == t[k];
    if !PolledReady(t, baseline, 2) {
      forall i: nat ensures !PolledReady(head + t, baseline, i) {
        if i < |head| { assert !PolledReady(head, baseline, i); }
      }
    }
  }

  lemma OwnedFrom(head: seq<Event>, inner: seq<Event>, r: Result, waitMs: nat, probeMs: nat)
    requires head != [] && head[|head| - 1] == Tried(true) && OwnerRan(inner, r, waitMs, probeMs)
    ensures OwnerPart(head + inner + [Released], r, waitMs, probeMs) && Tried(true) in head + inner + [Released]
  {
    hide OwnerRan;
    var t := head + inner + [Released];
    assert t[|head| - 1] == Tried(true) && t[|head|..|t| - 1] == inner;
    assert OwnerFrom(t, |head| - 1, r, waitMs, probeMs);
  }

  lemma BothWatching(a: seq<Event>, b: seq<Event>)
    requires Watching(a) && Watching(b)
    ensures Watching(a + b)
  {}

  lemma WatchedGuaranteed(t: seq<Event>, r: Result)
    requires Watching(t) && !r.Ready()
    ensures Guaranteed(t, r)
  {
    NoKills(t);
  }

  lemma LateLed(polled: seq<Event>, last: seq<Event>, baseline: nat, r: Result, waitMs: nat, probeMs: nat)
    requires (forall i :: !PolledReady(polled, baseline, i)) && polled != []
    requires !polled[|polled| - 1].SawState? && !polled[|polled| - 1].Tried?
    requires last != [] && last[0].SawState? && forall k :: 0 < k < |last| ==> last[k].SawLock? || last[k].SawClock?
    requires 2 <= |last| <= 3 && Tried(true) !in polled && (if BusyAtEnd(last) then r.InProgress? else r.NotReady?)
    ensures HandoffLed(polled + last, baseline, r, waitMs, probeMs)
  {
    forall i: nat ensures !PolledReady(polled + last, baseline, i) {
      if i < |polled| { assert !PolledReady(polled, baseline, i); }
    }
  }

  lemma HandoffLater(st: Option<State>, rest: seq<Event>, r: Result, waitMs: nat, probeMs: nat)
    requires HandoffLed(rest, GenOf(st), r, waitMs, probeMs) && rest != [] && rest[0].SawMono?
    ensures EnsureLed([Tried(false), SawState(st)] + rest, r, waitMs, probeMs)
  {
    hide OwnerPart, PolledReady, BusyAtEnd, GenOf;
    var t, b := [Tried(false), SawState(st)] + rest, GenOf(st);
    assert Tried(true) in t <==> Tried(true) in rest;
    if Tried(true) in rest {
      OwnerPartLater([Tried(false), SawState(st)], rest, r, waitMs, probeMs);
    } else {
      PollsLater(st, rest, b);
      BusyLater(st, rest);
    }
  }

  lemma OwnerPartLater(head: seq<Event>, t: seq<Event>, r: Result, waitMs: nat, probeMs: nat)
    requires OwnerPart(t, r, waitMs, probeMs)
    ensures OwnerPart(head + t, r, waitMs, probeMs)
  {
    hide OwnerRan;
    var k: nat :| OwnerFrom(t, k, r, waitMs, probeMs);
    var all := head + t;
    assert all[|head| + k + 1..|all| - 1] == t[k + 1..|t| - 1] && all[|head| + k] == t[k];
    assert OwnerFrom(all, |head| + k, r, waitMs, probeMs);
  }

  lemma BusyLater(st: Option<State>, rest: seq<Event>)
    requires rest != [] && rest[0].SawMono?
    ensures BusyAtEnd([Tried(false), SawState(st)] + rest) <==> BusyAtEnd(rest)
  {}

  lemma PollsLater(st: Option<State>, rest: seq<Event>, b: nat)
    requires rest != [] && rest[0].SawMono?
    ensures var t := [Tried(false), SawState(st)] + rest;
            (exists i :: PolledReady(t, b, i)) <==> exists i :: PolledReady(rest, b, i)
  {
    var t := [Tried(false), SawState(st)] + rest;
    assert forall k :: 0 <= k < |rest| ==> t[k + 2] == rest[k];
    if i: nat :| PolledReady(rest, b, i) { assert PolledReady(t, b, i + 2); }
    if i: nat :| PolledReady(t, b, i) {
      assert i > 2;
      assert PolledReady(rest, b, i - 2);
    }
  }

  lemma NewLater(st: Option<State>, rest: seq<Event>, r: Result)
    requires rest != []
    ensures NewGeneration(rest, GenOf(st)) ==> NewGeneration([Tried(false), SawState(st)] + rest, GenOf(st))
  {
    EndLater([Tried(false), SawState(st)], rest);
  }

  // ---- Retiring a daemon of another version ----

  /** The recorded process is terminated if it is certainly alive and has then to let go of the lock; without such a process
      one look at the lock decides. */
  ghost predicate RetiredBy(t: seq<Event>, st: Option<State>, gone: bool, waits: nat) {
    if !Named(st) then t == [SawLock(!gone)]
    else
      && t != [] && t[0].Probed? && t[0].pid == st.value.pid.value && t[0].start == st.value.start.value
      && (if !t[0].answer.ProbeAlive? then t[1..] == [SawLock(!gone)]
          else
            && t[1..] != [] && t[1..][0].Killed? && t[1..][0].victim == st.value.pid.value
            && (if t[1..][0].delivered then AwaitedRelease(t[1..][1..], gone, waits) else t[1..][1..] == [] && !gone))
  }

  /** A free lock restarts; the recorded identity matches; an older daemon is restarted exactly if it could be retired. */
  ghost predicate ReconcileLed(t: seq<Event>, mine: nat, outcome: Reconciled, waits: nat) {
    && t != [] && t[0].SawLock?
    && (if !t[0].held then outcome.Restarted?
        else
          && |t| >= 2 && t[1].SawState?
          && (if t[1].state.Some? && t[1].state.value.codeId == Some(mine) then outcome.Matches? && |t| == 2
              else exists n, gone :: 2 <= n <= |t| && RetiredBy(t[2..n], t[1].state, gone, waits)
                                     && (if gone then outcome.Restarted? else outcome.Refusal? && n == |t|)))
  }

  datatype Reconciled = Matches | Restarted(result: Result) | Refusal

  datatype Polled = Late | Acquired | SawNew | Again

  datatype Poll = GotLock | GotReady | TimeUp

  datatype Look = Took | GaveUp | NotYet

  /** Most rounds a busy caller waits, and most events of one owner's ensure. */
  function HandoffSteps(waitMs: nat, probeMs: nat): nat { (2 * waitMs + probeMs) / POLL_STEP_MS + 2 }

  function OwnerSteps(waitMs: nat, probeMs: nat): nat {
    2 * Steps(waitMs) + 5 * Steps(waitMs + probeMs) + 5 * Steps(probeMs)
  }

  predicate NewGeneration(t: seq<Event>, baseline: nat) {
    |t| >= 3 && t[|t| - 3].SawState? && GenOf(t[|t| - 3].state) !in {0, baseline}
  }

  /** What every ensure keeps to. */
  ghost predicate Guaranteed(t: seq<Event>, r: Result) {
    Kills(t) <= 1 && Spawns(t) <= 1 && KillsJustified(t) && (r.Ready() ==> ReadyRests(Core(t)))
  }

  lemma EndLater(head: seq<Event>, t: seq<Event>)
    ensures EndsReady(t) ==> EndsReady(head + t)
    ensures forall g :: NewGeneration(t, g) ==> NewGeneration(head + t, g)
  {}

  lemma WatchedGuarantee(t: seq<Event>)
    requires Watching(t) && EndsReady(t)
    ensures Guaranteed(t, IsRunning)
  {
    NoKills(t);
  }

  lemma GuaranteedLater(head: seq<Event>, t: seq<Event>, r: Result)
    requires Watching(head) && t != [] && Guaranteed(t, r)
    ensures Guaranteed(head + t, r)
  {
    NoKills(head);
    CountsAdd(head, t);
    JustifiedLater(head, t);
    if r.Ready() {
      CoreLater(head, t);
      RestsLater(head, Core(t));
    }
  }

  /** A trace without the release that ends it. */
  function Core(t: seq<Event>): seq<Event> {
    if t != [] && t[|t| - 1].Released? then t[..|t| - 1] else t
  }

  lemma CoreLater(head: seq<Event>, t: seq<Event>)
    requires t != []
    ensures Core(head + t) == head + Core(t)
  {}

  lemma {:induction false} KillFree(t: seq<Event>)
    requires Kills(t) == 0
    ensures forall i :: 0 <= i < |t| ==> !t[i].Killed?
    decreases |t|
  {
    if t != [] {
      KillFree(t[1..]);
      assert forall i :: 1 <= i < |t| ==> t[i] == t[1..][i - 1];
    }
  }

  /** Evidence stays evidence behind observations that spawned nothing. */
  lemma RestsLater(head: seq<Event>, t: seq<Event>)
    requires Spawns(head) == 0 && EndsReady(t) && (Spawns(t) > 0 ==> ReadyRests(t))
    ensures ReadyRests(head + t)
  {
    CountsAdd(head, t);
    EndLater(head, t);
    assert (head + t)[|head + t| - 3] == t[|t| - 3];
    if Spawns(t) > 0 {
      var g :| SpawnedFrom(t, g) && GenOf(t[|t| - 3].state) != g;
      var s :| 0 < s < |t| && t[s].Spawned? && t[s - 1].SawState? && GenOf(t[s - 1].state) == g;
      assert (head + t)[|head| + s] == t[s] && (head + t)[|head| + s - 1] == t[s - 1];
      assert SpawnedFrom(head + t, g);
    }
  }

  lemma JustifiedLater(head: seq<Event>, t: seq<Event>)
    requires Watching(head) && KillsJustified(t)
    ensures KillsJustified(head + t)
  {
    forall i | 0 <= i < |head + t| && (head + t)[i].Killed?
      ensures exists j, k, l :: StaleReading(head + t, j, k, l, i)
    {
      assert t[i - |head|].Killed?;
      var j, k, l :| StaleReading(t, j, k, l, i - |head|);
      assert StaleReading(head + t, |head| + j, |head| + k, |head| + l, i);
    }
  }

  /** Owner at last: what EnsureLocked guarantees holds of the whole wait. */
  lemma HandedOver(head: seq<Event>, inner: seq<Event>, r: Result)
    requires Watching(head) && Kills(inner) <= 1 && Spawns(inner) <= 1 && KillsJustified(inner)
    requires r.Ready() ==> ReadyRests(inner)
    ensures Guaranteed(head + inner + [Released], r)
  {
    NoKills(head);
    CountsAdd(head, inner);
    CountsAdd(head + inner, [Released]);
    JustifiedLater(head, inner);
    var t := head + inner;
    forall i | 0 <= i < |t + [Released]| && (t + [Released])[i].Killed?
      ensures exists j, k, l :: StaleReading(t + [Released], j, k, l, i)
    {
      assert t[i].Killed?;
      var j, k, l :| StaleReading(t, j, k, l, i);
      assert StaleReading(t + [Released], j, k, l, i);
    }
    if r.Ready() { RestsLater(head, inner); }
    assert Core(t + [Released]) == t;
  }
}
