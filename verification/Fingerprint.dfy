/** lib/fingerprint.py and lib/selfcheck.py: the gate of the outbound side and its one attempt to heal itself. */
module Fingerprint {
  import opened Schema

  const PROBE_BACKOFF_START_MS := 30_000
  const PROBE_BACKOFF_MAX_MS := 600_000
  const REVERIFY_INTERVAL_MS := 600_000

  datatype Verdict = VerifiedOk | Mismatch | Unverifiable

  datatype Evaluation = Good | IdentityMismatch | IdentityUnverified | VersionMismatch | VersionUnverified

  /** The stored key; a missing one reads as open. */
  datatype Gate = Unset | Open | Degraded(why: Evaluation) | SelfChecking {
    predicate Lets() { Unset? || Open? }
  }

  /** How the one self-check of a version ends; an exception may come before or after the message went out. */
  datatype Check = Passed | Transient | Failed | RaisedUnsent | RaisedSent

  type Pair = (Option<nat>, nat)

  function CheckVersion(actual: Option<nat>, pinned: Option<nat>): Verdict {
    if actual.None? then Unverifiable else if pinned == actual then VerifiedOk else Mismatch
  }

  function Judge(ident: Verdict, actual: Option<nat>, pinned: Option<nat>): Evaluation {
    if ident.Mismatch? then IdentityMismatch
    else
      var version := CheckVersion(actual, pinned);
      if ident.VerifiedOk? && version.VerifiedOk? then Good
      else if !ident.VerifiedOk? then IdentityUnverified
      else if version.Mismatch? then VersionMismatch
      else VersionUnverified
  }

  /** What each evaluation says of the identity, the version found and the version pinned. */
  lemma JudgeMeans(ident: Verdict, actual: Option<nat>, pinned: Option<nat>)
    ensures var e := Judge(ident, actual, pinned);
            && (e.IdentityMismatch? <==> ident.Mismatch?) && (e.IdentityUnverified? <==> ident.Unverifiable?)
            && (e.Good? <==> ident.VerifiedOk? && actual.Some? && pinned == actual)
            && (e.VersionMismatch? <==> ident.VerifiedOk? && actual.Some? && pinned != actual)
            && (e.VersionUnverified? <==> ident.VerifiedOk? && actual.None?)
  {}

  /** A self-check runs for this pinned and found version: the version is off, it was found again, and not tried yet. */
  predicate Checks(e: Evaluation, pinned: Option<nat>, probed: Option<nat>, attempted: set<Pair>) {
    e.VersionMismatch? && probed.Some? && (pinned, probed.value) !in attempted
  }

  function Min(a: nat, b: nat): nat { if a <= b then a else b }

  /** What outlives a process: the stored keys and the configuration on disk; beside them, as history, every self-check
      sent, every transient failure, and the evaluation made last. */
  class Store {
    var gate: Gate
    var attempted: set<Pair>
    var pinned: Option<nat>
    ghost var sends: multiset<Pair>
    ghost var transients: multiset<Pair>
    ghost var sentUnder: set<Evaluation>
    ghost var lastEval: Option<Evaluation>

    constructor (pinned: Option<nat>)
      ensures Valid() && gate == Unset && sends == multiset{} && lastEval == None
    {
      gate, attempted, this.pinned := Unset, {}, pinned;
      sends, transients, sentUnder, lastEval := multiset{}, multiset{}, {}, None;
    }

    /** The budget of self-checks, at every moment a process may die: one per pinned and actual version, and one more per
        transient failure; and each was sent when the identity had just been verified and only the version was off. */
    ghost predicate Valid()
      reads this
    {
      && (forall p :: sends[p] <= transients[p] + (if p in attempted then 1 else 0))
      && sentUnder <= {VersionMismatch}
    }

    method SetGate(g: Gate)
      requires Valid()
      modifies this`gate
      ensures Valid() && gate == g
    {
      gate := g;
    }

    /** The mark goes to disk before the network is used. */
    method Mark(p: Pair)
      requires Valid() && p !in attempted
      modifies this`attempted
      ensures Valid() && attempted == old(attempted) + {p} && sends[p] <= transients[p]
    {
      assert sends[p] <= transients[p];
      attempted := attempted + {p};
    }

    /** The message of a self-check goes out. */
    ghost method NoteSend(p: Pair)
      requires Valid() && p in attempted && sends[p] <= transients[p] && lastEval == Some(VersionMismatch)
      modifies this`sends, this`sentUnder
      ensures Valid() && sends == old(sends)[p := old(sends)[p] + 1]
    {
      sends := sends[p := sends[p] + 1];
      sentUnder := sentUnder + {lastEval.value};
    }

    ghost method NoteTransient(p: Pair)
      requires Valid() && p in attempted
      modifies this`transients
      ensures Valid() && sends[p] <= transients[p]
    {
      assert sends[p] <= transients[p] + 1;
      transients := transients[p := transients[p] + 1];
    }

    method Unmark(p: Pair)
      requires Valid() && p in attempted && sends[p] <= transients[p]
      modifies this`attempted
      ensures Valid() && attempted == old(attempted) - {p}
    {
      attempted := attempted - {p};
    }
  }

  /** The gate of one daemon process over that store. */
  class FingerprintGate {
    const store: Store
    var backoff: nat
    var nextProbeAt: int
    var lastNotified: Option<Evaluation>
    var notices: nat

    constructor (store: Store)
      ensures this.store == store && backoff == PROBE_BACKOFF_START_MS && notices == 0
    {
      this.store, backoff, nextProbeAt, lastNotified, notices := store, PROBE_BACKOFF_START_MS, 0, None, 0;
    }

    /** Once a process has evaluated, the stored gate is open exactly when its latest evaluation found identity and
        pinned version good. */
    ghost predicate Settled()
      reads this, store
    {
      && store.Valid() && store.lastEval.Some?
      && (store.gate.Lets() <==> store.lastEval == Some(Good))
      && PROBE_BACKOFF_START_MS <= backoff <= PROBE_BACKOFF_MAX_MS
    }

    /** _evaluate: an off version closes the gate on the spot. */
    method Evaluate(ident: Verdict, actual: Option<nat>) returns (e: Evaluation)
      requires store.Valid()
      modifies store
      ensures store.Valid() && e == Judge(ident, actual, store.pinned) && store.lastEval == Some(e)
      ensures store.pinned == old(store.pinned) && store.attempted == old(store.attempted)
      ensures store.sends == old(store.sends) && store.transients == old(store.transients)
      ensures store.gate == if e.VersionMismatch? then SelfChecking else old(store.gate)
    {
      e := VersionUnverified;
      if ident.Mismatch? {
        e := IdentityMismatch;
      } else {
        var version := CheckVersion(actual, store.pinned);
        if ident.VerifiedOk? && version.VerifiedOk? {
          e := Good;
        } else if !ident.VerifiedOk? {
          e := IdentityUnverified;
        } else if version.Mismatch? {
          e := VersionMismatch;
        }
      }
      store.lastEval := Some(e);
      if e.VersionMismatch? { store.SetGate(SelfChecking); }
    }

    method Notify(e: Evaluation, force: bool)
      modifies this`lastNotified, this`notices
      ensures notices == old(notices) + (if old(lastNotified) == Some(e) && !force then 0 else 1)
      ensures lastNotified == Some(e)
    {
      if lastNotified != Some(e) || force { notices := notices + 1; }
      lastNotified := Some(e);
    }

    method PutOff(now: int)
      requires PROBE_BACKOFF_START_MS <= backoff <= PROBE_BACKOFF_MAX_MS
      modifies this`nextProbeAt, this`backoff
      ensures nextProbeAt == now + old(backoff) && backoff == Min(2 * old(backoff), PROBE_BACKOFF_MAX_MS)
    {
      nextProbeAt := now + backoff;
      backoff := Min(backoff * 2, PROBE_BACKOFF_MAX_MS);
    }

    /** _apply */
    method Apply(e: Evaluation, now: int)
      requires store.Valid() && store.lastEval == Some(e) && PROBE_BACKOFF_START_MS <= backoff <= PROBE_BACKOFF_MAX_MS
      modifies store`gate, this`nextProbeAt, this`backoff
      ensures Settled() && nextProbeAt >= now + PROBE_BACKOFF_START_MS
      ensures store.gate == if e.Good? then Open else Degraded(e)
      ensures nextProbeAt == now + (if e.Good? then 600_000 else old(backoff))
      ensures backoff == if e.Good? then 30_000 else Min(2 * old(backoff), 600_000)
    {
      if e.Good? {
        store.SetGate(Open);
        backoff := PROBE_BACKOFF_START_MS;
        nextProbeAt := now + REVERIFY_INTERVAL_MS;
      } else {
        store.SetGate(Degraded(e));
        PutOff(now);
      }
    }

    /** startup only looks: it sends nothing. */
    method Startup(now: int, ident: Verdict, actual: Option<nat>) returns (e: Evaluation)
      requires store.Valid() && backoff == PROBE_BACKOFF_START_MS
      modifies this, store
      ensures Settled() && store.lastEval == Some(e) && e == Judge(ident, actual, old(store.pinned))
      ensures store.sends == old(store.sends) && store.attempted == old(store.attempted)
      ensures notices <= old(notices) + 1 && (e.Good? || e.VersionMismatch? ==> notices == old(notices))
    {
      e := Evaluate(ident, actual);
      if e.IdentityMismatch? {
        store.SetGate(Degraded(e));
        Notify(e, false);
        return;
      }
      Apply(e, now);
      if e.Good? {
        lastNotified := Some(Good);
      } else if !e.VersionMismatch? {
        Notify(e, false);
      }
    }

    /** _try_self_heal: at most one message, under a mark written before it; only a transient failure takes the mark back,
        only success moves the pin. */
    method TrySelfHeal(pinned: Option<nat>, actual: nat, check: Check) returns (attempted: bool, healed: bool)
      requires store.Valid() && store.lastEval == Some(VersionMismatch)
      modifies store
      ensures store.Valid() && store.lastEval == Some(VersionMismatch) && store.gate == old(store.gate)
      ensures store.sends == old(store.sends)
              || (store.sends == old(store.sends)[(pinned, actual) := old(store.sends)[(pinned, actual)] + 1]
                  && (pinned, actual) !in old(store.attempted))
      ensures healed ==> attempted && store.pinned == Some(actual)
      ensures !healed ==> store.pinned == old(store.pinned)
      ensures healed <==> (pinned, actual) !in old(store.attempted) && check.Passed?
      ensures attempted <==>
                (pinned, actual) !in old(store.attempted) && (check.Passed? || check.Transient? || check.Failed?)
      ensures store.attempted
              == if (pinned, actual) in old(store.attempted) || check.Transient? then old(store.attempted)
                 else old(store.attempted) + {(pinned, actual)}
      ensures store.sends != old(store.sends) <==> (pinned, actual) !in old(store.attempted) && !check.RaisedUnsent?
    {
      var p := (pinned, actual);
      if p in store.attempted { return false, false; }
      store.Mark(p);
      if check.RaisedUnsent? { return false, false; }
      store.NoteSend(p);
      if check.RaisedSent? { return false, false; }
      if check.Passed? {
        store.pinned := Some(actual);
      } else if check.Transient? {
        store.NoteTransient(p);
        store.Unmark(p);
        assert store.attempted == old(store.attempted);
      }
      return true, check.Passed?;
    }

    /** One tick: nothing before its time; a mismatching identity shuts the gate for good and is never healed; an off
        version is self-checked at most once, and the gate opens only on a fresh evaluation. `probed` is the second look
        at the version, `second` what a re-evaluation after healing would see. */
    method Tick(now: int, ident: Verdict, actual: Option<nat>, probed: Option<nat>, check: Check,
                second: (Verdict, Option<nat>))
      requires Settled()
      modifies this, store
      ensures Settled()
      ensures now < old(nextProbeAt) ==>
                store.gate == old(store.gate) && store.sends == old(store.sends) && notices == old(notices)
      ensures now >= old(nextProbeAt) ==> nextProbeAt > now
      ensures notices <= old(notices) + 1
      ensures store.sends != old(store.sends) ==>
                now >= old(nextProbeAt) && Judge(ident, actual, old(store.pinned)).VersionMismatch? && probed.Some?
      ensures |store.sends| <= |old(store.sends)| + 1
      ensures now >= old(nextProbeAt) ==>
                var e := Judge(ident, actual, old(store.pinned));
                var checks := Checks(e, old(store.pinned), probed, old(store.attempted));
                && (checks && check.Passed? ==>
                      store.pinned == probed && store.lastEval == Some(Judge(second.0, second.1, probed)))
                && (!(checks && check.Passed?) ==> store.pinned == old(store.pinned) && store.lastEval == Some(e))
                && (store.sends != old(store.sends) <==> checks && !check.RaisedUnsent?)
                && (checks && check.Transient? ==> store.attempted == old(store.attempted))
                && (checks && !check.Transient? ==>
                      store.attempted == old(store.attempted) + {(old(store.pinned), probed.value)})
                && (!checks ==> store.attempted == old(store.attempted))
                && store.gate == (if store.lastEval == Some(Good) then Open else Degraded(store.lastEval.value))
                && nextProbeAt == now + (if store.lastEval == Some(Good) then 600_000 else old(backoff))
                && (checks && (check.Passed? || check.Transient? || check.Failed?) ==> notices == old(notices) + 1)
    {
      if now < nextProbeAt { return; }
      var e := Evaluate(ident, actual);
      if e.IdentityMismatch? {
        store.SetGate(Degraded(e));
        PutOff(now);
        Notify(e, false);
        return;
      }
      var event := false;
      if e.VersionMismatch? && probed.Some? {
        var attempted, healed := TrySelfHeal(store.pinned, probed.value, check);
        event := attempted;
        if healed { e := Evaluate(second.0, second.1); }
      }
      Apply(e, now);
      Notify(e, event);
    }
  }
}
