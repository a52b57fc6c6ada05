/** lib/hooklib.py: the transactions of the Stop and SessionEnd hooks. */
module BindTx {
  import opened Schema
  import opened World
  import opened LifecycleTx
  import opened TurnText

  predicate LatchedInst(binds: seq<PendingBind>, inst: nat) {
    exists i :: 0 <= i < |binds| && binds[i].inst == inst && binds[i].latch
  }

  function CloseLatches(binds: seq<PendingBind>, inst: nat): (r: seq<PendingBind>)
    ensures |r| == |binds|
    ensures forall i :: 0 <= i < |binds| ==>
              r[i] == if binds[i].inst == inst then binds[i].(latch := false) else binds[i]
  {
    seq(|binds|, i requires 0 <= i < |binds| =>
      if binds[i].inst == inst then binds[i].(latch := false) else binds[i])
  }

  /** The newest pending request of the instance (pb_inst lets there be at most one). */
  function PendingOf(binds: seq<PendingBind>, inst: nat, below: nat): (r: Option<nat>)
    requires below <= |binds|
    ensures r.Some? ==> r.value < below && binds[r.value].inst == inst && binds[r.value].state.BPending?
    ensures r.None? ==> forall i :: 0 <= i < below ==> !(binds[i].inst == inst && binds[i].state.BPending?)
  {
    if below == 0 then None
    else if binds[below - 1].inst == inst && binds[below - 1].state.BPending? then Some(below - 1)
    else PendingOf(binds, inst, below - 1)
  }

  /** A Stop whose handshake cannot succeed: the request fails with its latch open and the binding closes. */
  function FailBind(t: Tables, r: nat, now: int): Tables {
    if r < |t.binds| && t.binds[r].state.BPending? then
      Terminate(t.(binds := t.binds[r := t.binds[r].(state := BFailed, latch := true)]), r, BindFailed, Closed, now)
    else t
  }

  datatype Handshake = HandshakeRace | BindingGone | SessionConflict | HandshakeDone

  predicate SessionTaken(bs: seq<Binding>, session: nat, b: nat) {
    exists i :: 0 <= i < |bs| && i != b && bs[i].status.Live() && bs[i].session == Some(session)
  }

  function HandshakeVerdict(t: Tables, r: nat, session: nat, now: int): Handshake {
    if !(r < |t.binds| && t.binds[r].state.BPending? && t.binds[r].expires > now) then HandshakeRace
    else if !(r < |t.bindings| && t.bindings[r].status.Starting?) then BindingGone
    else if SessionTaken(t.bindings, session, r) then SessionConflict
    else HandshakeDone
  }

  /** The confirming transaction of _handshake; a session conflict rolls it back. */
  function HandshakeTx(t: Tables, r: nat, session: nat, now: int): Tables {
    match HandshakeVerdict(t, r, session, now)
    case HandshakeRace => t
    case SessionConflict => t
    case BindingGone => t.(binds := t.binds[r := t.binds[r].(state := BFailed, latch := true)])
    case HandshakeDone =>
      var row := t.bindings[r].(confirmed := true, confirmedAt := Some(now), session := Some(session));
      var t1 := t.(binds := t.binds[r := t.binds[r].(state := BConsumed, latch := true)],
                   bindings := t.bindings[r := row]);
      if HeartbeatFresh(row, now) then Activate(t1, r, now) else t1
  }

  predicate MarkerOf(binds: seq<PendingBind>, inst: nat, markers: set<nat>) {
    exists i :: 0 <= i < |binds| && binds[i].inst == inst && binds[i].nonce in markers
  }

  predicate Blank(text: string) {
    forall i :: 0 <= i < |text| ==> text[i] in {' ', '\t', '\n', '\r'}
  }

  /** The active binding of a session (b_sess lets there be at most one). */
  function ActiveOf(bs: seq<Binding>, session: nat, from: nat): (r: Option<nat>)
    requires from <= |bs|
    ensures r.Some? ==> r.value < |bs| && bs[r.value].status.Active? && bs[r.value].session == Some(session)
    decreases |bs| - from
  {
    if from == |bs| then None
    else if bs[from].status.Active? && bs[from].session == Some(session) then Some(from)
    else ActiveOf(bs, session, from + 1)
  }

  /** The inserting transaction of run_stop_hook. */
  function InsertTurn(t: Tables, b: nat, p: StopPayload): Tables {
    if b < |t.bindings| && t.bindings[b].status.Active? then
      t.(jobs := EnqueueTurn(t.jobs, t.nextId, b, t.bindings[b].chat, WithFooter(ChunkText(p.text), p.footer), 0, p.now),
         nextId := t.nextId + 1)
    else t
  }

  /** run_session_end, one pending request */
  function EndPending(t: Tables, r: nat, now: int): Tables {
    if r < |t.binds| && t.binds[r].state.BPending? then
      Terminate(t.(binds := t.binds[r := t.binds[r].(state := BExpired, latch := false)]), r, SessionEnd, Closed, now)
    else t
  }
}
