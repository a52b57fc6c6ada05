# Feishu bridge: a verified model of the message protocol

The bridge connects Feishu group chats with Claude Code sessions through one SQLite database. A daemon, Stop and
SessionEnd hooks, the `bind` and `unbind` commands and any number of listeners write that database; each `BEGIN IMMEDIATE`
block and each single UPDATE is one atomic step, the steps interleave freely, and any process may die between two of them.
This project models that protocol and proves what holds over all its runs. `dafny verify dfyconfig.toml` checks everything.

## How the model is built

* **Tables** (`Schema`). Every table of schema.sql is a sequence. Rows are never deleted, so a row's position stands for its
  AUTOINCREMENT number and for its identifier; a bind request has the position of its binding, as its `request_id` is the
  `binding_id`. `nextId` stands for `util.new_id`.
* **Transactions** (`OutboundTx`, `LifecycleTx`, `BindTx`, `InboundTx`, `ApprovalTx`, `RecoveryTx`, `ListenerTx`, `Jobs`,
  `TurnText`). One function per transaction, with each unique-index check and each rollback written out.
* **The machine** (`World`, `Machine`). A world is the tables, the position of every process between two atomic steps, and
  history the code does not keep but the claims speak of. `Next` performs one step of one actor with arbitrary inputs (clock,
  network answer, process probe, allowlist, snapshot); a step its actor cannot take changes nothing. `Run` performs a
  sequence of steps. Every main claim is about all runs.
* **Invariants**. The queue (`QueueInvariant`, `QueueSteps`, `QueueRun`), inbox, approvals and deliveries
  (`IntakeInvariant`, `IntakeSteps`, `IntakeRun`), bindings and hooks (`BindInvariant`), listeners (`ListenerInvariant`).
  `QueueClaims`, `QueueHistory`, `Progress`, `RestingJobs`, `SendClaims`, `Quota`, `ListenerClaims`, `UnbindClaims`,
  `Occupancy` and `Advance` draw consequences, `AnyTable` and `Repair` speak of runs from any tables whatsoever, `Frames`
  says what each actor leaves alone; `Safety` states the main claims for every reachable state (`Reach`), and `Witnesses`
  has two concrete runs that show what the code does not promise.
* **Laws** (`SendLaws`, `IntakeLaws`, `DriveLaws`, `BindLaws`, `HookLaws`, `ListenerLaws`, `RecoveryLaws`, `TickLaws`,
  `HistoryLaws`). What each step leads to, told from the rows before and after it and from the answers it met, with its
  numbers written out and without naming the transaction that does it: who goes out and what an answer settles, what a
  message, a click, a Stop, a heartbeat, a timeout comes to, which rows a tick gets to, and when the history notes what.
  An invariant says what never happens; these say what must.
* **Scripts** (`Scripts`, `HookScripts`, `ListenerScripts`). What a tick, a drive, a scan, a hook or a listener's step is as
  a sequence of atomic steps: which steps, in which order, on which rows, with arbitrary steps of other processes in
  between. `Ticks` and `Drives` prove what they achieve.
* **The code as it runs** (`System`, `LifecycleOps`, `OutboundOps`, `InboundOps`, `ApprovalOps`, `HookOps`, `ListenerOps`,
  `RecoveryOps`). The tables are fields of an object, the code's statements and loops are methods over it. A transaction's
  method is proved equal to its function; a process's method (a tick, a scan, a hook, a listener's step) is proved to be
  exactly the `Run` of its script, so the claims of `Safety` hold before, during and after it, and to achieve what the
  script achieves.
* **What a proof may look into**. `Next` and `Run` unfold to every transaction of every actor. `hide Next, Run;` at the
  start of a body keeps them folded for its proof, and inside the first clause of a contract for the check that the
  contract is well formed; it says nothing about the contract's meaning.
* **Three separate cores**. The transcript tail reader (`TailReader`), the daemon supervisor (`Supervisor`) and the
  self-healing outbound gate (`Fingerprint`), each against an arbitrary environment.

## What is proved, in short

* Turns never overtake one another, although the gate only looks for `unknown` and `sending` rows: the proof needs the
  ordered loop of `tick`, the chunk rule and the insertion of a turn in one transaction.
* What a chat has received of a turn is always a prefix of message and footer.
* No job exceeds its transmission budget, the scan at startup repairs any table, and a turn never blocks its successors for
  good. Notices can: one whose second attempt is lost holds back every later notice of its chat for good, and only that
  does. It is lost if the call ends in doubt, or if the daemon dies before it has recorded the answer and startup_scan's
  second step finds the row (`RestingJobs.NoticeGetsStuckIff`, `RestingJobs.StuckBlocks`, `RestingJobs.NoticeGoesIff`;
  `Witnesses.NoticesGetStuck` is a run where it happens).
* A turn in doubt gets all its attempts before it is given up and alerted; a click decides what its button says; the owner's
  text to an active binding gets there; only the bind request's own nonce confirms a binding (`Safety.DoubtIsRetried`,
  `Safety.ClicksDoWhatTheySay`, `Safety.MessagesGetThere`, `Safety.OnlyTheNonceConfirms`).
* Inbox, approvals and deliveries stay coupled across crashes, replays and downloads; the transaction that does not re-read
  the row's state after a download is right not to.
* Once a binding has ended, the one job already on its way is the last; left in doubt, it is cancelled, not resent.
* No binding stays `starting` past its deadline once the tick that watches it has run.
* A bind turn is never forwarded; a turn goes only to the binding it belongs to.
* Each epoch has one winner, only it leases, and no delivery of an active binding is lost.
* A binding is declared dead only on evidence. Silence of more than 30 s follows if no heartbeat of the binding falls
  between a scan's read and its mark (`ListenerClaims.ThirtySecondsOfSilence`), which is exactly when a mark is set on a
  heartbeat over 15 s old (`ListenerClaims.MarkIsHonestIff`); as `death_scan` reads the rows once and judges them later, a
  heartbeat in between can make it 15.001 s (`Witnesses.SilenceCanBeShort`).
* The tail reader finds in its window what the whole transcript holds whenever every line is one intact record; behind a
  torn record on the same line it can report a turn that is not there (`TailReader`).
* The supervisor spawns a daemon exactly if it found the lock free or freed it by a justified kill.
* Three safety nets of the slow tick can never catch anything.

Constants are those of lib/constants.py. Times are milliseconds and may jump.

## Model

| member | source | states |
|---|---|---|
| `Safety.ReachedIsSound` | schema.sql:1-145 | every state of every run from an empty database satisfies all four invariants together, whatever the processes, network, clocks and users do and wherever a process dies |
| `Safety.NoTurnOvertakes` | lib/outbound.py:76-190 | a turn's job that is in flight, or ever was, has behind it only finished jobs of every earlier turn of its binding, although the gate itself looks only for unknown and sending |
| `Safety.SendingIsGuarded` | lib/outbound.py:118-168 | whatever step brings a job into flight is the sender's transaction for it, and in the tables it saw the chat was allowed, the order right, the guard true and the attempts below the cap |
| `Safety.BudgetsHold` | lib/outbound.py:133-168 | in every reachable state a turn was transmitted at most 6 times, a card at most 5, anything else at most twice, and at most one job is in flight |
| `Safety.PrefixDelivery` | lib/hooklib.py:183-205 | what was recorded as sent of a turn is in order a prefix of message plus footer, and all of it once every chunk is sent |
| `Safety.NothingAfterAFailedChunk` | lib/outbound.py:171-181 | after a chunk failed or was cancelled, no later chunk of the turn is sent out in any continuation |
| `Safety.AlertsMatchGiveUps` | lib/outbound.py:317-347 | alerts and real chunks that ran out of attempts are equal in number, every alert is about such a chunk, and none is about an alert |
| `Safety.SafetyNetsAreEmpty` | lib/recovery.py:186-222 | _close_orphan_starting, _sweep_stranded_enqueued and _legacy_sending never change a row of a reachable state |
| `Safety.ApprovalsAgreeWithInbox` | lib/approval.py:57-134 | an approval is open exactly while its message awaits it, its binding then being active; a decided one agrees with the message's state; one approval per message |
| `Safety.ClicksAreDecided` | lib/approval.py:57-129 | in a reachable state a click never raises, and a valid one is late exactly when the approval was decided before, so the failed-enqueue abort cannot happen |
| `Safety.NothingIsTakenBack` | lib/lifecycle.py:81-149 | ended bindings, decisions (state, decider, event), final message states, printed and dropped deliveries stay as they are in every continuation |
| `Safety.DeliveriesAreConserved` | lib/inbound.py:381-446 | a delivery for a message exists exactly when the message is enqueued, there is only one, and it goes to the message's binding |
| `Safety.PinnedAtArrival` | lib/inbound.py:163-184 | that binding is the chat's newest binding at first insertion, in every continuation |
| `Safety.DeliveriesHaveProvenance` | lib/inbound.py:448-500 | no approver means the owner wrote it, the allowlist means that member was let through in that chat for that message, a person means the owner on a granted approval |
| `Safety.TablesAgreeWithBindings` | lib/lifecycle.py:106-149 | a queued delivery has an active binding, a dropped one an ended binding, a waiting message a live binding |
| `Safety.QuotaHolds` | lib/inbound.py:368-379 | no chat ever has more than five undecided approvals |
| `Safety.BindTurnIsSuppressed` | lib/hooklib.py:132-157 | from a completed handshake to the next fresh Stop or SessionEnd of the instance, no Stop of the instance queues a turn, whatever is superseded, unbound or rebound meanwhile |
| `Safety.TurnsAreQueuedForTheirBinding` | lib/hooklib.py:170-205 | a turn is queued only for a binding active at that moment with the Stop's session and instance |
| `Safety.StartingIsBounded` | lib/recovery.py:22-42 | a bind request is pending exactly while its binding is starting and unconfirmed; whatever others do meanwhile, after a slow tick past expires_at the binding is no longer starting and unconfirmed, and after a fast tick more than 30 s past confirmed_at it is no longer starting, each by the clock read at the binding's row |
| `Safety.UnbindLinearizes` | lib/outbound.py:118-168 | whatever ends a binding, at its commit at most one job it guards is not over and that one is in flight; none is sent out again in any continuation; and one left in doubt, turn or card, is cancelled by its next visit at or after its retry time |
| `Safety.ListenersExclude` | lib/listener_core.py:56-97 | over all takeovers so far each epoch of a binding has one winner, a listener holds only an epoch it has won, two listeners of one binding never match its row at once, and an emitted delivery was printed under the token it carries |
| `Safety.EpochsAreWonOnce` | lib/listener_core.py:88-97 | whatever step changes a row's epoch is a takeover, it raises the epoch by one to a value nobody had won, and afterwards exactly that listener has won it |
| `Safety.DeliveriesAreNeverLost` | lib/recovery.py:196-207 | while its binding is active a delivery is never dropped, and a lease that ran out is queued again |
| `Safety.DeathNeedsEvidence` | lib/lifecycle.py:214-246 | a binding becomes dead only on a row marked at least 15 s before, with a heartbeat over 15 s old and neither heartbeat nor takeover between mark and read |
| `Safety.DoubtIsRetried` | lib/outbound.py:285-332 | in every reachable state a turn whose call ends in doubt is given up exactly if it went out 6 times or more (2 if nothing speaks for a retry), with one alert if it is real, and otherwise goes out again at a later time; another job in doubt gets a retry time exactly if it went out fewer than twice |
| `Safety.ClicksDoWhatTheySay` | lib/approval.py:57-129 | in every reachable state the owner's new click on an open approval decides it: Approve grants it and queues a text with one delivery approved by the owner, or sends a media message to its download; Reject rejects both and delivers nothing; any other click changes only the list of seen events |
| `Safety.MessagesGetThere` | lib/inbound.py:312-366 | the owner's or a listed member's text for an active binding, read and mentioned, is queued by one drive, whatever others do meanwhile: exactly one new delivery, with its sender and how it was let through |
| `Safety.OnlyTheNonceConfirms` | lib/hooklib.py:144-157 | over every run, whatever step confirms a binding is the Stop of its instance whose message carried that request's nonce, with a session, before the expiry |
| `AnyTable.SixTransmissions` | lib/outbound.py:133-146 | from any tables at all, in every run, a turn's count rises only from 0 or more and never beyond 6 |
| `Repair.StartupRepairs` | bin/daemon.py:98-111 | from any tables at all, however often the daemon crashes in or after its startup scan and whatever others do meanwhile: past the scan and between two sends nothing is in flight, every doubtful turn has budget and a retry time, nothing else is due a third time |
| `QueueClaims.StartupScanNormalizes` | lib/outbound.py:19-74 | from any job table one scan leaves nothing in flight, every doubtful turn with budget and a retry time, nothing else due a third time; a turn out of budget is failed and has its alert; queued and finished rows are untouched |
| `QueueClaims.HeadOfLineProgresses` | lib/outbound.py:118-168 | a due turn at the head of its binding's line is not skipped: it is over, or sent out with less budget left under any outcome |
| `Progress.TurnGoesIff` | lib/outbound.py:118-190 | where tick stands, a due turn of an allowed chat is sent out exactly when every job of every earlier turn of its binding is over, its previous chunk was sent and its binding is active |
| `Progress.VisitLowersRank` | lib/outbound.py:94-104 | a visit to the head of a binding's line at its retry time leaves it over or with less budget, whatever the network answers and whatever others do before and during the call |
| `RestingJobs.StuckBlocks` | lib/outbound.py:191-199 | notices have no such progress: once one is in doubt without a retry time it stays exactly so in every continuation in which its chat stays allowed and its binding does not end, it is never due again, and no step of anybody sends a later notice of its chat |
| `RestingJobs.StuckStep` | lib/outbound.py:191-199 | nothing else frees such a notice: any step leaves it as it is unless its chat is not allowed or the step ends its binding |
| `Witnesses.NoticesGetStuck` | lib/outbound.py:297-304 | it happens: after a concrete run of the code a queued, due, allowed and still true notice is held back behind a stuck one, in every continuation in which the chat stays allowed |
| `RestingJobs.NoticeGoesIff` | lib/outbound.py:191-199 | the converse: where tick stands, a due notice of an allowed chat is held back exactly while an earlier notice of its chat is queued, in flight or in doubt, and sent out exactly when there is none and its guard holds |
| `RestingJobs.NoticeGetsStuckIff` | lib/outbound.py:285-304 | a notice gets stuck by a step exactly if it is on its second attempt and the step either settles its call in doubt (here) or is the second step of a startup scan after a crash (lines 54-57); no other step of anybody makes it stuck |
| `RestingJobs.OnlyRearmRevives` | lib/recovery.py:100-124 | a failed job of whatever kind comes back only by the re-arm of recovery, only as the card of an approval still open and without a card, with its binding active and fewer than five attempts, and behind its back-off |
| `QueueClaims.BackoffsGrowToTheirCaps` | lib/outbound.py:305-311 | retry delays start at the base, never shrink and stop at the cap |
| `SendClaims.OnlyPrepareLaunches` | lib/outbound.py:164-168 | no other step of any actor puts a job in flight |
| `SendLaws.LookDecides` | lib/outbound.py:118-168 | the look at a row cancels it if its chat is not allowed, its predecessor will never be sent or what it says is no longer so, leaves it if it has to wait, and otherwise puts it in flight once more, with literal conditions on the rows |
| `SendLaws.AnswerSettles` | lib/outbound.py:259-347 | the answer to a call settles exactly the job in flight, alerts exactly for a real turn given up, and notes a sent card in its approval |
| `SendLaws.VisitLeads` | lib/outbound.py:94-104 | so does a whole visit, whatever others do before it and during the call |
| `SendLaws.DisallowedAreDropped` | lib/outbound.py:107-116 | before the loop exactly the jobs of chats no longer allowed that could still be sent are cancelled |
| `SendLaws.SelectLeads` | lib/outbound.py:82-92 | a tick reads exactly the rows whose time has come, each once, in order |
| `SendLaws.ScanLeads` | lib/outbound.py:35-74 | from any job table, row by row: a used-up turn fails and a real one is alerted, a crashed send goes out again at once or rests for good, what rested without a time gets one or keeps resting, and nothing else changes |
| `SendLaws.BootLeads` | lib/outbound.py:35-46 | a start reads exactly the turns to give up, and the allowlist |
| `SendLaws.GiveUpLeads` | lib/outbound.py:46-53 | each is given up with its alert if it is still in doubt |
| `SendLaws.SweepLeads` | lib/outbound.py:54-74 | the four later steps of the scan, row by row |
| `SendLaws.CrashLeads` | bin/daemon.py:98-111 | a crash loses the daemon's place and nothing that is written |
| `QueueSteps.GateMeansEarlierTurnsOver` | lib/outbound.py:170-190 | where tick stands, a turn that passes the gate finds every job of every earlier turn over |
| `QueueSteps.WaitMeansBlocked` | lib/outbound.py:170-190 | a turn the gate holds back at its place in the loop waits behind a turn in doubt |
| `QueueSteps.PrepareKeepsQueue` | lib/outbound.py:118-168 | _prepare keeps spans, budgets, chunk order, turn order and alerts |
| `QueueSteps.FinalizeKeepsQueue` | lib/outbound.py:259-332 | settling the job in flight keeps them under any outcome |
| `QueueSteps.GiveUpKeepsQueue` | lib/outbound.py:317-347 | giving up adds exactly one alert behind everything and keeps them |
| `QueueSteps.EnqueueKeepsQueue` | lib/hooklib.py:195-207 | queueing a turn keeps them |
| `QueueSteps.SweepKeepsQueue` | lib/outbound.py:54-74 | steps 2 to 5 of the scan keep them, in their order |
| `QueueSteps.LegacySendingIsIdle` | lib/recovery.py:218-222 | with nothing in flight the rescue of stale sends changes nothing |
| `QueueRun.QueueRunKeeps` | bin/daemon.py:98-111 | every run of all actors keeps the queue's invariant |
| `QueueHistory.EvolveRun` | lib/outbound.py:259-332 | over a run a job keeps what it is, and a finished turn's job stays as it ended |
| `QueueHistory.SentAreFirst` | lib/outbound.py:171-181 | the chunks of a turn that were sent are its first ones |
| `QueueHistory.DeliveredIs` | lib/util.py:30-33 | the acknowledged bodies of the first m chunks are the text of those chunks |
| `QueueHistory.AlertsAreConserved` | lib/outbound.py:334-347 | alerts and given-up chunks correspond one to one, so alerts are at most as many as real chunks |
| `TurnText.ChunkTextWhole` | lib/util.py:30-33 | cutting loses nothing and no piece is empty or over the limit |
| `TurnText.TurnTextWhole` | lib/hooklib.py:183-194 | the chunks with the footer behind the last say message plus footer |
| `TurnText.EnqueueTurnAppends` | lib/hooklib.py:195-205 | under a fresh group every chunk is queued, in order, side by side |
| `IntakeInvariant.TerminateCascades` | lib/lifecycle.py:81-149 | what the cascade does to every inbox row, approval and delivery, told from the row alone |
| `IntakeInvariant.TerminateKeeps` | lib/lifecycle.py:81-149 | ending a binding keeps inbox, approvals and deliveries coupled, even under a running download |
| `IntakeInvariant.OpenApprovalKeeps` | lib/inbound.py:348-366 | opening an approval keeps them coupled |
| `IntakeSteps.EnqueueIs` | lib/inbound.py:381-446 | for a message without a delivery the enqueue adds exactly one |
| `IntakeSteps.GateKeeps` | lib/inbound.py:312-366 | the gate keeps the coupling on every branch |
| `IntakeSteps.DecideKeeps` | lib/inbound.py:264-310 | deciding a resolved row keeps the coupling |
| `IntakeSteps.WaitingKeeps` | lib/inbound.py:516-543 | re-deciding a waiting row keeps it |
| `IntakeSteps.MediaDoneKeeps` | lib/inbound.py:477-514 | the transaction after a download, which never re-reads the row's state, is right not to: an active binding means the row is still in from_state |
| `IntakeSteps.MediaFailedKeeps` | lib/inbound.py:460-474 | a broken download keeps the coupling |
| `IntakeSteps.CallbackDecides` | lib/approval.py:57-134 | a click keeps the coupling, never raises, and is late exactly on a decided approval |
| `IntakeLaws.ArrivalLeads` | lib/inbound.py:163-184 | a message of which neither identifier is known gets a row pinned to its chat's newest binding, any other gets none |
| `IntakeLaws.ClickLeads` | lib/approval.py:57-165 | a click decides exactly if it is the owner's, in the approval's chat, with its nonce and card, new, and finds the approval open, and then as the button says; the reply says which |
| `IntakeLaws.DecisionLeads` | lib/inbound.py:278-366 | what a decision comes to: not mentioned ignored, unsupported told, no or ended binding told why, starting waits, owner or listed member queued or downloaded, over quota failed, else one approval with its card |
| `IntakeLaws.DownloadLeads` | lib/inbound.py:448-514 | what the end of a download comes to: queued with one delivery under its approver, failed or undeliverable with its notice, or put off, by the binding as it is then |
| `DriveLaws.DriveLeads` | lib/inbound.py:187-212 | so for a whole drive, by the state its row is in when it begins and whatever others do during fetch and download |
| `IntakeLaws.QuotaIs` | lib/inbound.py:368-379 | a member may not ask exactly while the chat has five undecided approvals or the member's latest is not 30 s old |
| `IntakeRun.SweepFindsNothing` | lib/recovery.py:209-216 | the sweep for stranded deliveries is the identity |
| `IntakeRun.ExpirePendingKeeps` | lib/recovery.py:162-184 | approval and message expire together and the coupling survives |
| `IntakeRun.IntakeRunKeeps` | lib/recovery.py:35-49 | every run of all actors keeps inbox, approvals and deliveries coupled and every delivery accounted for |
| `Quota.GateKeepsQuota` | lib/inbound.py:341-356 | the gate opens an approval only below the quota of its chat |
| `Quota.QuotaRun` | lib/inbound.py:368-379 | every run keeps the quota |
| `Drives.DriveSettles` | lib/inbound.py:187-212 | one drive settles a message that can be read and whose download is not put off: it ends in a final state, awaiting an approval, or waiting for a binding still starting, whatever others do during fetch and download |
| `Drives.RedriveCloses` | lib/recovery.py:52-65 | a message past the deadline of its state, or approved for a binding no longer active, ends in a final state and is not driven |
| `Advance.AdvanceRun` | lib/inbound.py:187-212 | over a run no decision, final state, ended binding, printed or dropped delivery is taken back |
| `BindInvariant.BindSucceedsIff` | lib/lifecycle.py:14-63 | a bind succeeds exactly when chat and instance are free but for the instance's own unfinished bind; otherwise nothing changes and the reason names what is taken |
| `BindInvariant.HandshakeKeeps` | lib/hooklib.py:210-257 | the handshake never finds its binding gone, and a completed one keeps bindings one-to-one and opens the latch |
| `BindInvariant.CloseLatchesKeeps` | lib/hooklib.py:132-142 | a fresh Stop ends the bind turn of its instance |
| `BindInvariant.NoOrphanStarting` | lib/recovery.py:186-194 | no unconfirmed starting binding is without its pending request |
| `BindInvariant.BindRunKeeps` | lib/lifecycle.py:14-43 | every run keeps binding and request paired, chat, instance and session unique among live bindings, and bind turns latched |
| `BindLaws.BindLeads` | lib/lifecycle.py:14-63 | a bind to a free chat by a free instance adds one starting binding and its open request, and supersedes the instance's unfinished one; any other changes nothing |
| `BindLaws.UnbindLeads` | lib/lifecycle.py:81-157 | unbinding ends exactly a live binding, told table by table: its jobs cancelled, its request expired, its waiting messages, open approvals and deliveries ended, its chat told |
| `BindLaws.SessionEndLeads` | lib/hooklib.py:261-292 | each step of a SessionEnd ends exactly a binding that is still live, or a request that is still open with its binding, told table by table |
| `BindLaws.TimeoutLeads` | lib/lifecycle.py:159-176 | exactly an open request past its expiry expires, with its binding |
| `BindLaws.ActivationLeads` | lib/lifecycle.py:185-212 | a confirmed starting binding becomes active exactly when a listener's heartbeat is at most 6 s old, and its chat is told; it ends exactly when none is and its confirmation is over 30 s old |
| `BindLaws.JudgementLeads` | lib/lifecycle.py:214-246 | a dead instance closes its binding; of an active row a heartbeat at most 15 s old clears the mark, and otherwise, outside the grace, the row is marked, or declared dead if read with a mark 15 s old |
| `BindLaws.FindLeads` | lib/hooklib.py:144-157 | a Stop that finds its instance's open request goes to the handshake exactly with the request's nonce and a session, and otherwise to the failure |
| `BindLaws.HandshakeLeads` | lib/hooklib.py:210-257 | the binding is confirmed, with the Stop's session and its latch open, exactly if the request is still open and its session free, and is active at once exactly if a listener's heartbeat is fresh; a session in use leads to the failure |
| `BindLaws.FailureLeads` | lib/hooklib.py:150-157 | a request still open fails with its latch open, and its binding ends as bind_failed |
| `BindLaws.OnlyTheNonceConfirms` | lib/hooklib.py:144-157 | whatever step confirms a binding is such a handshake of its own request |
| `Occupancy.TimesRun` | lib/lifecycle.py:36-43 | over any run the confirmation time of a confirmed binding and the expiry of a request never change, although the handshake writes the one unconditionally |
| `Ticks.FastTickEndsStarting` | lib/recovery.py:22-32 | a fast tick visits every row: a binding confirmed more than 30 s before its row's turn is not starting afterwards |
| `Ticks.SlowTickEndsWaiting` | lib/recovery.py:35-49 | so does a slow tick through all its sweeps: a binding whose request had run out before its row's turn is not starting and unconfirmed afterwards |
| `TickLaws.SlowTickVisits` | lib/recovery.py:35-49 | in a slow tick, whatever others do in between, every approval there was gets its card tended and its expiry checked, every job its re-arming, every request its timeout, every binding its orphan check, and leases, the two safety nets and the retention their turn |
| `TickLaws.FastTickVisits` | lib/recovery.py:22-32 | in a fast tick every binding there was gets its activation checked, and the death scan starts |
| `TickLaws.TicksDrive` | lib/recovery.py:28-42 | either tick drives every message waiting when it comes to them, a slow tick also every one still being read and every one approved for download, closed first if its time is up |
| `RecoveryLaws.DeadlinesLead` | lib/recovery.py:52-64 | exactly a message unread for over ten minutes fails; exactly a download without an active binding becomes undeliverable (lines 126-143) |
| `RecoveryLaws.DownloadDeadlineLeads` | lib/recovery.py:144-160 | exactly a download over ten minutes old fails, and its chat is told once |
| `RecoveryLaws.ExpiryLeads` | lib/recovery.py:162-184 | exactly an open approval over six hours old expires, its message with it, and its chat is told once |
| `RecoveryLaws.CardsLead` | lib/recovery.py:67-98 | exactly an open approval without a card job gets one, and exactly one whose card was sent but not noted gets it noted |
| `RecoveryLaws.RearmLeads` | lib/recovery.py:100-124 | exactly an awaited failed card is queued again, behind 30, 60, 120 or 240 s, with fewer than five attempts and an active binding; after five it is given up |
| `RecoveryLaws.ReclaimLeads` | lib/recovery.py:196-207 | exactly the leases that ran out go back to the queue of an active binding and are dropped with an ended one, their token taken back |
| `RecoveryLaws.RetentionLeads` | lib/recovery.py:225-240 | exactly what is over for more than a week loses its contents |
| `ListenerInvariant.TakeoverKeeps` | lib/listener_core.py:72-97 | a takeover wins an epoch nobody won before |
| `ListenerInvariant.ClaimKeeps` | lib/listener_core.py:118-138 | a claim leases under a token never used before |
| `ListenerInvariant.EmitKeeps` | lib/listener_core.py:112-116 | a delivery is marked emitted only under the token it was printed with |
| `ListenerInvariant.ListenRunKeeps` | lib/listener_core.py:36-65 | every run keeps epochs unique, tokens distinct, leases complete, emissions printed, marks silent |
| `ListenerClaims.OneListenerMatches` | lib/listener_core.py:56-65 | two listeners of one binding hold different epochs, so one at most beats, claims or leases |
| `ListenerClaims.OnlyTheMatchingListenerLeases` | lib/listener_core.py:118-138 | whatever step leases a delivery is the claim of the matching listener on an active binding, and it takes the first queued one |
| `ListenerClaims.NothingIsLost` | lib/recovery.py:196-207 | a delivery of an active binding is queued, leased or printed; a lease that ran out is reclaimed; a queued one is within reach of the matching listener |
| `ListenerClaims.EvidenceBeforeGone` | lib/lifecycle.py:229-246 | listener_gone rests on a mark 15 s old, a heartbeat over 15 s old and silence since the mark, in the row as read |
| `ListenerClaims.OnlyTheScanDeclaresDead` | lib/lifecycle.py:243-246 | no other step turns a binding dead |
| `ListenerClaims.ThirtySecondsOfSilence` | lib/lifecycle.py:214-246 | if no heartbeat of the binding ever falls between a scan's reading of its unmarked row and its judging of it, the recorded silence exceeds 30 s, whatever else happens during the scans |
| `ListenerClaims.MarkIsHonestIff` | lib/lifecycle.py:239-242 | in every run whose clock does not run backwards, a mark is set on a heartbeat over 15 s old exactly if no heartbeat of the binding fell between the scan's read and the mark |
| `HistoryLaws.AllowedMeansAsked` | lib/inbound.py:336-345 | a member is on record as let through only once the allowlist said so for that message and sender, at the gate of an active binding |
| `HistoryLaws.AckedMeansAnswered` | lib/outbound.py:259-283 | a chunk is on record as sent only by the answer to its own call, with the body that was sent |
| `HistoryLaws.SilenceMeansNoBeat` | lib/lifecycle.py:214-246 | a binding counts as heard from exactly from a heartbeat or a won takeover to the next mark, and a scan's silent rows are those not heard from when it read them |
| `HistoryLaws.PrintedAndWon` | lib/listener_core.py:88-116 | a line is on record as printed only by the listener that had claimed its delivery under that token, an epoch as won only by the takeover of the listener that then has it |
| `ListenerLaws.StepGoes` | lib/listener_core.py:36-97 | how a step goes, by the row read and the row written: the holder goes on or leaves, a fresh holder is left alone, a stale one waited for unless certainly dead, a free or abandoned row taken over unless it changed |
| `ListenerLaws.TakeoverLeads` | lib/listener_core.py:88-97 | a won takeover writes process, next epoch and heartbeat, clears the mark and gives the listener that epoch; any other changes nothing |
| `ListenerLaws.BeatLeads` | lib/listener_core.py:56-61 | a heartbeat is written and clears the mark exactly while the row shows the listener's epoch; otherwise the listener leaves |
| `ListenerLaws.ClaimLeads` | lib/listener_core.py:118-138 | the matching listener of an active row leases exactly its first queued delivery, for 30 s and under a token nobody has |
| `ListenerLaws.DeliveryLeads` | lib/listener_core.py:100-116 | the line is printed once under the claim's token, and then marked as emitted exactly if still leased under it |
| `ListenerLaws.FollowGoes` | lib/listener_core.py:201-214 | a follower leaves a dead instance, idles without a live binding, and for a live one makes a listener without an epoch and idles again exactly if that leaves |
| `Witnesses.SilenceCanBeShort` | lib/lifecycle.py:214-246 | without that the silence can be 15.001 s: a concrete run in which a heartbeat lands between a scan's read and its mark, and the next scan declares the binding dead |
| `UnbindClaims.TerminateLeavesNothingToSend` | lib/lifecycle.py:111-116 | the cascade leaves no turn and no card of the binding that could still be sent |
| `UnbindClaims.EndingLeavesOneInFlight` | lib/lifecycle.py:81-116 | any transaction that ends a binding leaves at most the one job in flight unfinished |
| `UnbindClaims.EndedRunSendsNothing` | lib/outbound.py:202-211 | after it, in every run, no turn or card of the binding is sent out, not even across a crash |
| `UnbindClaims.DoubtIsHead` | lib/outbound.py:182-190 | in every continuation after the end of a binding, a turn of it in doubt is the one job that was in flight and stands at the head of its line |
| `UnbindClaims.DoubtAfterTheEnd` | lib/outbound.py:147-163 | in every continuation a job of an ended binding is never sent, and one in doubt is cancelled by its next visit at or after its retry time |
| `System.System.constructor` | lib/db.py:50-62 | an empty database is a reachable state |
| `LifecycleOps.TerminateInTx` | lib/lifecycle.py:81-149 | the cascade's loops do exactly what the cascade is specified to do; True exactly for the winner |
| `LifecycleOps.EndAttached` | lib/lifecycle.py:94-149 | what the winner does to approvals, inbox, deliveries, requests and jobs, table by table |
| `LifecycleOps.BindInTx` | lib/lifecycle.py:20-63 | the binding and its request, or the conflict and an untouched database |
| `LifecycleOps.ExpireStalePendingBinds` | lib/lifecycle.py:159-176 | every overdue request expires with its binding |
| `LifecycleOps.NoneOverdue` | lib/lifecycle.py:159-176 | after the sweep no request is overdue |
| `LifecycleOps.DeathScan` | lib/lifecycle.py:214-246 | the scan is the run that reads the rows once and judges each, with anything in between |
| `OutboundOps.ScanAtStartup` | lib/outbound.py:35-74 | left alone, the scan computes its specification |
| `OutboundOps.Startup` | lib/outbound.py:19-74 | a start of the daemon among other processes: every row read is reconciled in order, then the four sweeps, and the queue is left in its normal form |
| `OutboundOps.CheckOrder` | lib/outbound.py:170-200 | the three queries of the order gate give its specified answer |
| `OutboundOps.VisitRow` | lib/outbound.py:94-104 | one turn of the loop is prepare, network and finalize with others in between; the row is dropped, left waiting or sent out exactly as the tables say before the call, and a row sent out is settled exactly by its answer in the tables after it: sent, failed, to go out again at its time, or given up with an alert |
| `OutboundOps.Tick` | lib/outbound.py:76-105 | a tick among other processes visits the due rows in order until all are visited or a batch is sent, nothing behind a shut gate; every visit decides and settles its row as one visit does, and every head of a line due at its visit has less budget left |
| `InboundOps.InsertOrResume` | lib/inbound.py:163-184 | a new row, the row both identifiers name, or nothing |
| `InboundOps.CheckQuota` | lib/inbound.py:368-379 | the quota's two queries |
| `InboundOps.MaterializeThenFinalize` | lib/inbound.py:448-514 | download and outcome are a run with others at work during the download |
| `InboundOps.DriveRow` | lib/inbound.py:187-212 | driving a row takes exactly the steps its state asks for, at most four readings; what a readable message comes to is told by its sender, type, mention, allowlist, quota and binding at the decision, and by its download; a readable message whose download is not put off is settled, a final one is left alone |
| `ApprovalOps.ProcessInTx` | lib/approval.py:57-129 | the transaction with its rollbacks is the specified one: duplicates and exceptions leave nothing, invalid and late clicks only their event |
| `ApprovalOps.ProcessEvent` | lib/approval.py:43-134 | one click and never an exception: the owner's new click on an open approval decides it as the button says, with message, delivery and notice, any other click changes nothing but the seen events, and the reply says which; exactly an approved media message is driven on, and is settled unless its download is put off |
| `HookOps.Begin` | lib/hooklib.py:132-142 | a continuation under an open latch stops here and nothing else does |
| `HookOps.CheckMarkers` | lib/hooklib.py:159-168 | a message that carries any marker of the instance, or the prefix, goes no further |
| `HookOps.CutText` | lib/util.py:30-33 | the cutting loop computes the chunks |
| `HookOps.Insert` | lib/hooklib.py:183-207 | the chunks are queued exactly when the binding is still active |
| `HookOps.RunStopHook` | lib/hooklib.py:122-207 | a Stop hook among others, a SessionEnd of its own instance included: it reports forwarded exactly if it is no continuation of a bind turn, finds no open bind request, carries no marker, has text and the active binding of its session is its instance's and still active at the insert; then the whole message with footer stands at the end of the queue in order for that binding, otherwise it queued nothing; a Stop that finds an open request confirms it exactly with the nonce and a free session, and else fails it |
| `HookScripts.UnforwardedQueuesNothing` | lib/hooklib.py:122-207 | on every path that does not report a forwarded turn, none of the hook's own steps queues one |
| `HookLaws.StopForwardsIff` | lib/hooklib.py:122-207 | whatever others do in between, a Stop is forwarded exactly if it is no continuation under an open latch, finds no open request, carries no marker or prefix, has text, and the active binding of its session is its instance's and still active at the insert |
| `HookLaws.BindTurnLeads` | lib/hooklib.py:144-257 | whatever others do in between, a Stop that finds an open request confirms it with the nonce and a free session, and otherwise fails it and closes its binding |
| `HookLaws.LatchesLead` | lib/hooklib.py:286-290 | the end of a session shuts exactly its instance's latches |
| `HookOps.RunSessionEnd` | lib/hooklib.py:261-287 | among others: afterwards no binding that was live for the session, no request of the instance that was pending and no latch of it is left, and exactly the steps for those rows were taken |
| `ListenerOps.EnqueuedRowsAre` | lib/listener_core.py:118-124 | the queued deliveries of a binding, each once, in delivery order |
| `ListenerOps.ListenerCore.ClaimOne` | lib/listener_core.py:118-138 | the first queued delivery under a fresh token, only for the matching listener of an active binding |
| `ListenerOps.ListenerCore.Drain` | lib/listener_core.py:100-116 | draining among others is exactly a claim, print and mark per delivery printed; it stops only when this listener could claim nothing more or was killed, and every line it returns was printed |
| `ListenerOps.ListenerCore.DrainAlone` | lib/listener_core.py:100-116 | left alone, the matching listener prints exactly what was queued, in order, and leaves it emitted; any other prints nothing |
| `ListenerOps.ListenerCore.TakeOver` | lib/listener_core.py:72-97 | wins exactly when the plan is to try and the row is still as read |
| `ListenerOps.ListenerCore.Heartbeat` | lib/listener_core.py:56-61 | mine exactly while the row shows my epoch; otherwise the listener leaves |
| `ListenerOps.ListenerCore.Step` | lib/listener_core.py:36-65 | leave, beat, take over or wait as the row read and the row written decide; only a beat or takeover that wins goes on to the deliveries, under an epoch this listener has won, and while it matches an active row it stops only when nothing is queued any more |
| `ListenerOps.InstanceFollower.Step` | lib/listener_core.py:201-214 | without a core it leaves, idles or makes one for a live binding of the instance and drives it, follower and core each with a probe of its own; with one it drives it; the core is dropped exactly when it exits |
| `RecoveryOps.FastTick` | lib/recovery.py:22-32 | exactly the activation of every row, the drive of every waiting row and the scan, in order, others in between; no binding confirmed more than 30 s before its row's turn is starting afterwards |
| `RecoveryOps.SlowTick` | lib/recovery.py:35-49 | exactly the twelve sweeps in the code's order, each over every row it selected, others in between; no binding whose request had run out is starting and unconfirmed afterwards |
| `RecoveryOps.ReclaimExpiredLeases` | lib/recovery.py:196-207 | one statement decides each lease by the binding it sees as it writes |
| `RecoveryOps.RedriveOne` | lib/recovery.py:52-65 | a row past its deadline ends final by the closing steps alone and is not driven; any other readable one is settled unless its download is put off |
| `TailReader.NewestSettles` | lib/ctxmeter.py:119-167 | the scan answers with the newest settling record, intact or damaged, never with an older one |
| `TailReader.NothingSettles` | lib/ctxmeter.py:119-167 | it finds nothing exactly when no line settles |
| `TailReader.SplitAppend` | lib/ctxmeter.py:71-82 | cutting a file in two cuts at most one line in two |
| `TailReader.WindowAgrees` | lib/ctxmeter.py:101-116 | a window that settles the matter agrees with every larger one, unless its cut falls inside a line whose rest reads as a turn and decides |
| `TailReader.GrowingAgrees` | lib/ctxmeter.py:104-116 | growing the window finds what the largest window holds, if no cut misleads |
| `TailReader.ScanWindow` | lib/ctxmeter.py:119-167 | the loop computes the backward scan, field by field |
| `TailReader.SumIs` | lib/ctxmeter.py:149-161 | only fields that are finite non-negative numbers count towards the tokens, each once |
| `TailReader.MeterIs` | lib/ctxmeter.py:141-166 | an intact turn record gives its token sum and model exactly if the sum is positive; a damaged one gives nothing |
| `TailReader.ReadTurnMeter` | lib/ctxmeter.py:85-116 | at most four windows; the answer of the whole file, or of its last 16 MiB, if none of the three cuts misleads or the transcript has one intact record a line |
| `TailReader.NoRecordInside` | lib/ctxmeter.py:64-82 | no proper end of an object's text is JSON text, wherever it is cut, also inside strings and escapes |
| `TailReader.RecordsNeverMislead` | lib/ctxmeter.py:64-82 | with a parser that like JSON's closes what it opens, no cut of a window misleads in a transcript of intact records |
| `TailReader.TornLineMisleads` | lib/ctxmeter.py:64-82 | intactness is needed: behind one byte of a torn record on the same line the reader reports a turn that no line of the file contains |
| `Supervisor.DaemonSupervisor.Ensure` | lib/ctl.py:471-482 | with the singleflight it does exactly what an owner does, then releases it; without, it is running exactly if a new generation was seen ready right after a failed try, and else in progress exactly if a daemon is alive at the end; at most one kill and one spawn, every kill justified, every ready answer on evidence, every wait bounded |
| `Supervisor.DaemonSupervisor.EnsureLocked` | lib/ctl.py:522-535 | spawned exactly if the deciding reading found the lock free, or a kill was delivered and the lock then seen free; killed exactly if the lock was held, the heartbeat absent or stale, pid and start recorded and the probe said alive; a daemon ready at the first reading is running, and after a spawn it is started or recovered exactly if a look found another generation ready |
| `Supervisor.OwnerActsIff` | lib/ctl.py:522-595 | over every trace of an owner: it spawns exactly if the deciding reading found the lock free or its delivered kill freed it, kills exactly if the daemon hung and the recorded process was found alive, leaves a ready daemon alone, and after a spawn answers by what the looks found |
| `Supervisor.DaemonSupervisor.AwaitHandoff` | lib/ctl.py:484-520 | the singleflight makes an owner of a busy caller; otherwise running exactly by a new generation seen ready, in progress exactly with a daemon alive at the end, else not ready |
| `Supervisor.DaemonSupervisor.PollHandoff` | lib/ctl.py:498-516 | bounded polling that observes only: it ends at the lock, at the first new ready generation, or at its deadline or last round |
| `Supervisor.DaemonSupervisor.Assess` | lib/ctl.py:522-535 | healthy exactly if ready under the lock, nobody if the lock is then free, hung without a heartbeat or with a stale one, declined or undecided by the phase |
| `Supervisor.DaemonSupervisor.AwaitProbingConclusion` | lib/ctl.py:544-558 | waits without killing; running exactly if a look finds the daemon ready, otherwise a look showed it hopeless or time was up |
| `Supervisor.DaemonSupervisor.TakeoverAndRestart` | lib/ctl.py:560-578 | probes the recorded process, kills it exactly if found alive, and spawns exactly if the kill was delivered and the lock seen free in time |
| `Supervisor.DaemonSupervisor.SpawnAndWait` | lib/ctl.py:580-595 | one spawn; started exactly if a look finds a ready generation other than the one read before it |
| `Supervisor.DaemonSupervisor.ReconcileCodeIdentity` | lib/ctl.py:648-695 | a free lock restarts, a recorded match passes, an older daemon is restarted exactly if it could be retired: gone by itself, or killed after it was found alive and the lock seen free; a refusal started nothing |
| `Fingerprint.Store.Mark` | lib/fingerprint.py:143-146 | the mark is on disk before the message goes out, and leaves budget for that message |
| `Fingerprint.Store.Unmark` | lib/fingerprint.py:150-152 | taking the mark back keeps the budget |
| `Fingerprint.FingerprintGate.Evaluate` | lib/fingerprint.py:71-88 | the verdict, and the gate shut on the spot for an off version |
| `Fingerprint.JudgeMeans` | lib/fingerprint.py:71-88 | each evaluation exactly by identity, version found and version pinned; good exactly if both are verified |
| `Fingerprint.FingerprintGate.Apply` | lib/fingerprint.py:155-164 | the gate is open exactly on a good evaluation, the next probe comes after 10 minutes then and after a doubling wait otherwise |
| `Fingerprint.FingerprintGate.TrySelfHeal` | lib/fingerprint.py:126-153 | heals exactly if the version was not yet marked and the check passed, and then pins the version found; a message goes out exactly if unmarked and nothing was raised before; only a transient failure takes the mark back |
| `Fingerprint.FingerprintGate.Startup` | lib/fingerprint.py:166-183 | the gate is open exactly if the evaluation is good; nothing is sent |
| `Fingerprint.FingerprintGate.Tick` | lib/fingerprint.py:185-229 | a self-check exactly if the identity is good, the version off, found again and not marked; a passed one re-pins and re-evaluates; the gate is open exactly if the latest evaluation is good; at most one message and one notice |

## Left out

- Clocks, network answers, process probes, the member allowlist, message snapshots and downloads: arbitrary inputs of the steps that use them.
- `_transmit` and its error classification: only the outcome sent, refused or in doubt (retryable or not) is kept, and any kind of job may meet any of them, also a receipt reaction, which the code never leaves in doubt.
- Texts, cards, hints and envelopes: opaque; a turn's chunk keeps its body, other jobs do not.
- `util.new_id` and nonces: a fresh number and an arbitrary number; no collision is modelled for the former.
- Feishu's own deduplication by idempotency key, and whether a send in doubt arrived.
- The filters before the first insert (chat type, chat allowlist, own messages, the `@` prefilter, the inbox cap): any event may reach the insert, so the claims hold for more events than the code lets in.
- An inbox row of which only one identifier is known (a conflict the code only counts): it inserts nothing, as in the code, and is not driven.
- Config repairs while a daemon runs: the chat allowlist changes at a daemon's start, the owner never.
- Row selection of a recovery sweep: a sweep looks at every row there was when it started and re-checks the selection as it writes; the code selects first. A row that left the selection in between is skipped here, where the code may still mark a failed card of an already decided approval as given up.
- Stop hooks: one at a time per instance, as Claude Code runs them; the latch's SELECT and UPDATE are one step. `Blank` knows the four ASCII spaces, not Unicode's.
- A Stop that sees a marker without a session id fails its bind like a missed nonce, as the code does; its separate result text is left out.
- HandshakeTx: keeps the branch for a binding that is gone although no reachable state enters it.
- BudgetsHold: counts attempts per row; a card given up as unknown without a retry time stays so until its binding ends.
- StartingIsBounded: speaks of ticks that happen; that the daemon is up to make them is not part of this model.
- ThirtySecondsOfSilence: needs marks that no heartbeat of the binding overtook, and SilenceCanBeShort shows a run without; DeathNeedsEvidence needs none but speaks of the row as read.
- ScanAtStartup, ExpireStalePendingBinds: stated without other processes in between; `Startup` and `SlowTick` have them.
- SixTransmissions: takes integer counts; a count that is not an integer is not part of this model.
- Media files, retention of media directories, counters, logs, heartbeat files and desktop notices other than their number.
- The listener's watch over the daemon with its back-off, and its farewell and alert lines.
- ReadTurnMeter: relies on no cut misleading (RecordsNeverMislead, TornLineMisleads) and reads a file that does not change meanwhile; token sums are exact reals where the code adds floats.
- The footer's formatting and sanitizing (lib/ctxmeter.py:170-219): string handling.
- Ensure: takes the environment's answers as a fixed script of replies; sleeping, file locks, signals and process spawning are observations of that script.
- Tick: the one of the fingerprint gate reads the configuration as the pinned version on disk; concurrent edits by the doctor are not modelled.
- lib/notify.py, the StopFailure hook, status, doctor and list_chats: little state.
- Liveness of the whole system: the progress of a head of a line over a tick (`Tick`), of a drive (`DriveSettles`), of a waiting binding over a tick (`StartingIsBounded`) and of a drain (`DrainAlone`) are proved.
