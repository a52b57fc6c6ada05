/** The tables of schema.sql as values.
    Every table is a sequence: no row is ever deleted, so a row's position stands for its AUTOINCREMENT number and for
    the identifier (binding id, message id, pending id, job id, delivery number) that goes with the row. */
module Schema {

  datatype Option<+T> = None | Some(value: T)

  // lib/constants.py
  const CHUNK_LIMIT: nat := 12000
  const PENDING_BIND_TTL_MS := 600_000
  const PENDING_TTL_MS := 21_600_000
  const HEARTBEAT_FRESH_MS := 6_000
  const HEARTBEAT_GRACE_MS := 15_000
  const SUSPECT_CONFIRM_MS := 15_000
  const ACTIVATION_TIMEOUT_MS := 30_000
  const LEASE_MS := 30_000
  const RESOLVE_DEADLINE_MS := 600_000
  const MATERIALIZE_DEADLINE_MS := 600_000
  const MAX_UNDECIDED_PER_CHAT: nat := 5
  const SENDER_COOLDOWN_MS := 30_000
  const NOTICE_COOLDOWN_MS := 60_000
  const RETENTION_MS := 604_800_000
  const SEND_TIMEOUT_MS := 30_000
  const UNKNOWN_RETRY_DELAY_MS := 15_000
  const MAX_SEND_ATTEMPTS := 2
  const OUTBOUND_BATCH: nat := 20
  const TURN_MAX_ATTEMPTS := 6
  const TURN_RETRY_BACKOFF_MS := 8_000
  const TURN_RETRY_BACKOFF_MAX_MS := 45_000
  const CARD_REARM_MAX_ATTEMPTS := 5
  const CARD_REARM_BACKOFF_MS := 30_000
  const CARD_REARM_BACKOFF_MAX_MS := 600_000

  // ---- bindings ----
  datatype Status = Starting | Active | Dead | Closed {
    predicate Live() { Starting? || Active? }
  }

  datatype Reason = UserUnbind | BindFailed | BindTimeout | BindSuperseded
                  | CcGone | SessionEnd | ListenerGone | ListenerNeverReady

  /** `inst` is the Claude Code instance (cc_pid, cc_start); `listener` is (listener_pid, listener_start). */
  datatype Binding = Binding(
    chat: nat, session: Option<nat>, inst: nat, status: Status, confirmed: bool, confirmedAt: Option<int>,
    listener: Option<nat>, epoch: nat, beat: Option<int>, suspect: Option<int>, reason: Option<Reason>)

  // ---- pending_bind: request_id is the binding id, so the row has the binding's position ----
  datatype BindState = BPending | BConsumed | BFailed | BExpired

  datatype PendingBind = PendingBind(inst: nat, nonce: nat, state: BindState, latch: bool, expires: int)

  // ---- inbox ----
  datatype InboxState = Received | Resolving | IgnoredNotMentioned | Unsupported | WaitingBinding | AwaitingApproval
                      | ApprovedMaterializing | Rejected | Expired | Enqueued | Undeliverable | FailedIn | Unbound
                      | SessionClosed {
    predicate Final() {
      !(Received? || Resolving? || WaitingBinding? || AwaitingApproval? || ApprovedMaterializing?)
    }
  }

  datatype MsgType = Text | Post | Image | File | OtherType {
    predicate Supported() { !OtherType? }
    predicate Media() { Image? || File? }
  }

  /** What the code reads of a message snapshot. */
  datatype Snap = Snap(sender: Option<nat>, msgType: MsgType, mentioned: bool)

  datatype Inbox = Inbox(event: nat, message: nat, chat: nat, binding: Option<nat>, sender: Option<nat>,
                         snap: Option<Snap>, state: InboxState, ts: int)

  // ---- pendings ----
  datatype PendState = PPending | PApproved | PRejected | PExpired

  datatype Pending = Pending(msg: nat, binding: nat, nonce: nat, card: Option<nat>, state: PendState,
                             decidedBy: Option<nat>, decidedEvent: Option<nat>, createdAt: int)

  // ---- deliveries ----
  datatype ApprovedBy = NoApprover | ByAllowlist | ByUser(user: nat)

  datatype Payload = Payload(sender: Option<nat>, approvedBy: ApprovedBy)

  datatype DeliveryState = DEnqueued | DLeased | DEmitted | DDropped

  datatype Delivery = Delivery(binding: nat, msg: nat, payload: Option<Payload>, state: DeliveryState,
                               token: Option<nat>, leaseEpoch: Option<nat>, leaseUntil: Option<int>,
                               attempts: nat, enqAt: int)

  // ---- outbound_jobs ----
  datatype Kind = SessionTurn | ApprovalCard | DecisionNotice | LifecycleNotice | ReceiptReaction
                | UnsupportedNotice | InboundNotice {
    predicate Notice() { DecisionNotice? || LifecycleNotice? || UnsupportedNotice? || InboundNotice? }
  }

  /** turn_group: a fresh identifier for a real turn, the sentinel prefix plus a job id for a send-failure alert. */
  datatype Group = TurnGroup(id: nat) | AlertGroup(job: nat)

  datatype LcTransition = LcBound | LcClosed(reason: Reason)

  /** The deterministic idempotency keys of lib/jobs.py. */
  datatype Key = KTurn(group: Group, chunk: nat) | KCard(pending: nat) | KDec(decided: nat, outcome: Expect)
               | KLc(binding: nat, transition: LcTransition) | KRc(delivery: nat) | KUn(msg: nat)
               | KNotice(about: nat, code: InboxState)

  datatype Expect = ExpectNothing | ExpectPend(pend: PendState) | ExpectInbox(inbox: InboxState) | ExpectActive
                  | ExpectClosed(status: Status, reason: Reason)

  datatype JobState = Queued | Sending | Sent | Unknown | Failed | Cancelled {
    predicate Terminal() { Sent? || Failed? || Cancelled? }
    predicate Retryable() { Queued? || Unknown? }
  }

  datatype JobError = NoError | Exhausted | Permanent | Uncertain | CapAtPrepare | CrashedMidSend | StaleSending
                    | GivenUp

  datatype Job = Job(
    kind: Kind, binding: Option<nat>, chat: nat, refPending: Option<nat>, refDelivery: Option<nat>,
    refMsg: Option<nat>, expected: Expect, group: Option<Group>, chunk: nat, body: Option<string>, key: Key,
    state: JobState, attempts: int, sendingAt: Option<int>, next: Option<int>, sentMsg: Option<nat>,
    error: JobError, createdAt: int)

  /** The whole database. `nextId` stands for util.new_id: the next identifier never handed out before. */
  datatype Tables = Tables(
    bindings: seq<Binding>, binds: seq<PendingBind>, inbox: seq<Inbox>, pendings: seq<Pending>,
    deliveries: seq<Delivery>, jobs: seq<Job>, callbacks: set<nat>, nextId: nat)

  const EmptyTables := Tables([], [], [], [], [], [], {}, 0)

  /** config.json as one daemon process reads it; an empty `allow` means no chat_allowlist. */
  datatype Config = Config(owner: nat, bot: nat, allow: set<nat>)

  predicate ChatAllowed(cfg: Config, chat: nat) {
    cfg.allow == {} || chat in cfg.allow
  }
}
