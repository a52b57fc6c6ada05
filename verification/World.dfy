/** Where each process stands between two atomic steps, next to the tables they share. */
module World {
  import opened Schema

  /** The daemon: one process, so one position.
      `Reconciling` and `Sweeping` are startup_scan (step 1, then steps 2 to 5); `Ticking` is tick between two rows and
      `InFlight` is tick between _prepare and the end of _send_and_finalize; `Materializing` is a media download;
      `Judging` is death_scan between two rows it read. */
  datatype Daemon =
    | Down
    | Reconciling(now: int, rows: seq<nat>, k: nat)
    | Sweeping(now: int, stage: nat)
    | Idle
    | Ticking(len: nat, rows: seq<nat>, k: nat, sends: nat)
    | InFlight(len: nat, rows: seq<nat>, k: nat, sends: nat)
    | Materializing(msg: nat, snap: Snap, from: InboxState, pending: Option<nat>)
    | Judging(scanNow: int, seen: seq<Binding>, at: nat)

  /** A Stop event: the markers found in the last message, its text and the footer computed for it. */
  datatype StopPayload = StopPayload(session: Option<nat>, text: string, markers: set<nat>, prefix: bool,
                                     footer: string, continuation: bool, now: int)

  /** A Stop hook between two of its database accesses. */
  datatype StopPc =
    | AfterLatch(p: StopPayload)
    | ToHandshake(p: StopPayload, request: nat)
    | ToConflict(p: StopPayload, request: nat)
    | ToMiss(p: StopPayload, request: nat)
    | AfterBind(p: StopPayload)
    | AfterMarker(p: StopPayload)
    | ToInsert(p: StopPayload, binding: nat)

  /** A listener core: its process, the epoch it won and the delivery it holds (claimed, then printed). */
  datatype Holding = Nothing | Claimed(delivery: nat, token: nat) | Printed(delivery: nat, token: nat)

  datatype Core = Core(binding: nat, process: nat, epoch: Option<nat>, holding: Holding)

  /** One turn as run_stop_hook cut it: where its chunks start in the queue and what they say. */
  datatype Span = Span(base: nat, binding: nat, chunks: seq<string>)

  /** History the code does not keep but the claims speak of.
      `spans`: every enqueued turn; `acked`: the body of every turn chunk the daemon recorded as sent;
      `allowed`: the (message, chat, sender) triples the gate asked the member allowlist about and was told yes;
      `bindTurn`: instances whose handshake was not yet followed by a fresh Stop or a SessionEnd;
      `printed`: (delivery, token) pairs written to a Monitor; `won`: (binding, epoch, core) of every takeover;
      `beaten`: bindings with a heartbeat or takeover since death_scan last marked them;
      `silent`: the bindings not in `beaten` when the running death_scan read its rows. */
  datatype History = History(
    spans: map<nat, Span>, acked: map<nat, string>, allowed: set<(nat, nat, Option<nat>)>, bindTurn: set<nat>,
    printed: set<(nat, nat)>, won: set<(nat, nat, nat)>, beaten: set<nat>, silent: set<nat>)

  datatype World = World(t: Tables, cfg: Config, daemon: Daemon, stops: map<nat, StopPc>, cores: map<nat, Core>,
                         hist: History)
}
