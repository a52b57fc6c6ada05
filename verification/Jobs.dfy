/** lib/jobs.py: queueing outbound jobs, and the one relation that says what everybody but the sender may do to the
    queue. */
module Jobs {
  import opened Schema

  predicate KeyUsed(js: seq<Job>, key: Key) {
    exists i :: 0 <= i < |js| && js[i].key == key
  }

  ghost predicate KeysUnique(js: seq<Job>) {
    forall i, j :: 0 <= i < j < |js| ==> js[i].key != js[j].key
  }

  /** INSERT OR IGNORE: a key conflict leaves the queue as it was. */
  function AddJob(js: seq<Job>, job: Job): seq<Job> {
    if KeyUsed(js, job.key) then js else js + [job]
  }

  function NewJob(kind: Kind, binding: Option<nat>, chat: nat, key: Key, expected: Expect, now: int): Job {
    Job(kind, binding, chat, None, None, None, expected, None, 0, Some(""), key, Queued, 0, None, None, None,
        NoError, now)
  }

  function TurnJob(group: Group, chunk: nat, binding: Option<nat>, chat: nat, body: string, now: int): Job {
    Job(SessionTurn, binding, chat, None, None, None, ExpectNothing, Some(group), chunk, Some(body),
        KTurn(group, chunk), Queued, 0, None, None, None, NoError, now)
  }

  predicate RecentNotice(js: seq<Job>, chat: nat, now: int) {
    exists i :: 0 <= i < |js| && js[i].kind.InboundNotice? && js[i].chat == chat
                && js[i].createdAt > now - NOTICE_COOLDOWN_MS
  }

  /** create_inbound_notice: at most one per chat within the cooldown. */
  function AddInboundNotice(js: seq<Job>, chat: nat, msg: nat, code: InboxState, binding: Option<nat>, now: int)
    : seq<Job>
  {
    if RecentNotice(js, chat, now) then js
    else AddJob(js, NewJob(InboundNotice, binding, chat, KNotice(msg, code), ExpectInbox(code), now)
                    .(refMsg := Some(msg)))
  }

  /** The cascade's "cancel every job of the binding that could still be sent". */
  function CancelOf(js: seq<Job>, b: nat): (r: seq<Job>)
    ensures |r| == |js|
  {
    seq(|js|, i requires 0 <= i < |js| =>
      if js[i].binding == Some(b) && js[i].state.Retryable() then js[i].(state := Cancelled) else js[i])
  }

  // ---- What a job's key says ----

  /** The key of a job other than a turn names its kind and what it is about. */
  predicate Tells(job: Job) {
    match job.key
    case KCard(p) => job.kind.ApprovalCard? && job.refPending == Some(p) && job.expected == ExpectPend(PPending)
    case KDec(p, outcome) => job.kind.DecisionNotice? && job.refPending == Some(p) && job.expected == outcome
    case KLc(b, LcBound) => job.kind.LifecycleNotice? && job.binding == Some(b) && job.expected.ExpectActive?
    case KLc(b, LcClosed(why)) =>
      job.kind.LifecycleNotice? && job.binding == Some(b) && job.expected.ExpectClosed? && job.expected.reason == why
    case KRc(d) => job.kind.ReceiptReaction? && job.refDelivery == Some(d)
    case KUn(m) => job.kind.UnsupportedNotice? && job.expected == ExpectInbox(Unsupported)
    case KNotice(m, code) => job.kind.InboundNotice? && job.expected == ExpectInbox(code)
    case KTurn(_, _) => false
  }

  /** Afterwards a job of this key is in the queue: as before, or a fresh one at its end. */
  ghost predicate Announced(js: seq<Job>, js': seq<Job>, key: Key, b: Option<nat>, chat: nat, m: Option<nat>) {
    if KeyUsed(js, key) then js' == js
    else
      && |js'| == |js| + 1 && js'[..|js|] == js
      && (var job := js'[|js|];
          && job.key == key && Tells(job) && job.binding == b && job.chat == chat && job.refMsg == m
          && job.state.Queued? && job.attempts == 0 && job.next.None?)
  }

  // ---- What the other actors may do to the queue ----

  predicate IsTurn(job: Job) { job.kind.SessionTurn? }

  /** A job as create_job writes it, other than a turn. */
  predicate FreshNonTurn(job: Job) {
    && !IsTurn(job)
    && job.group == None
    && !job.key.KTurn?
    && job.state.Queued? && job.attempts == 0 && job.next == None
  }

  /** One row: unchanged, cancelled while retryable, trimmed once terminal, or a failed card re-armed or given up. */
  predicate QuietJob(a: Job, b: Job) {
    || b == a
    || (a.state.Retryable() && b == a.(state := Cancelled))
    || (a.state.Terminal() && b == a.(body := None))
    || (a.kind.ApprovalCard? && a.state.Failed? && a.attempts < CARD_REARM_MAX_ATTEMPTS
        && b == a.(state := Queued, next := b.next))
    || (a.kind.ApprovalCard? && a.state.Failed? && b == a.(error := GivenUp))
  }

  ghost predicate QuietRows(js: seq<Job>, js': seq<Job>) {
    && |js| <= |js'|
    && (forall i :: 0 <= i < |js| ==> QuietJob(js[i], js'[i]))
    && (forall i :: |js| <= i < |js'| ==> FreshNonTurn(js'[i]))
    && (KeysUnique(js) ==> KeysUnique(js'))
  }

  /** A turn is only ever cancelled together with every retryable turn of its binding. */
  ghost predicate CancelsWholeBindings(js: seq<Job>, js': seq<Job>)
    requires |js| <= |js'|
  {
    forall i, p :: 0 <= i < |js| && 0 <= p < |js| && IsTurn(js[i]) && IsTurn(js[p])
                   && js[i].binding == js[p].binding && js[i].state.Retryable() && js'[i].state.Cancelled?
      ==> !js'[p].state.Retryable()
  }

  ghost predicate Quiet(js: seq<Job>, js': seq<Job>) {
    QuietRows(js, js') && CancelsWholeBindings(js, js')
  }

  lemma AddJobQuiet(js: seq<Job>, js1: seq<Job>, job: Job)
    requires Quiet(js, js1) && FreshNonTurn(job)
    ensures Quiet(js, AddJob(js1, job))
  {}

  lemma NoticeQuiet(js: seq<Job>, js1: seq<Job>, chat: nat, msg: nat, code: InboxState, binding: Option<nat>, now: int)
    requires Quiet(js, js1)
    ensures Quiet(js, AddInboundNotice(js1, chat, msg, code, binding, now))
  {}

  lemma CancelOfQuiet(js: seq<Job>, b: nat)
    ensures Quiet(js, CancelOf(js, b))
  {}
}
