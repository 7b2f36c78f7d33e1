# TinyIMX clients: a verified model

TinyIMX is an instant-messaging backend. What decides whether a message survives a failover is,
on the client side, a handful of small protocol engines; this project models those engines and
proves what every run of them guarantees.

- **The failover load generator** (`LoadGenModel`, `LoadGenTrace`, `LoadGenInvariant`, `LoadGenRuns`,
  `LoadGenTheorems`, `LoadGenDrops`, `LoadGenLimits`, `LoadGenRounds`, `LoadGenProgress`,
  `LoadGenWitnesses`, `LoadGenEngine`, with `ClientIds`, `OutputQueue`, `RoundRobin`, `Backoff`).
  Many connections are opened, log in, send, lose their socket, back off, dial again, log in again
  and replay what was in flight. `LoadGenModel` gives the effect of each handler on one connection
  and the shared counters, and a history of the packets queued, the packets handled and how each send
  ended; `LoadGenTrace` says what such a history amounts to. `LoadGenInvariant` proves that every handler keeps an invariant of the
  connection and moves a ledger of twenty-nine counter figures exactly as far as it moves what the
  connection stands for. `LoadGenRuns` lifts both to every sequence of turns of the main loop under
  every behaviour of the environment. `LoadGenTheorems` states what follows for whole runs,
  `LoadGenDrops` what becomes of a client that loses its socket while the test runs, and
  `LoadGenLimits` exactly where the promises stop. `LoadGenRounds` says which turns one iteration of
  the main loop takes, and that a run whose iterations reach far enough finishes. `LoadGenProgress`
  proves that a client that is due is dialled in time and that one that can still be recovered can
  come back with everything it had in flight. `LoadGenWitnesses` builds runs, iteration by iteration
  and within the limits of the command line, that show where the promises stop. `LoadGenEngine` is
  the generator itself, a class that updates its connections in place; its main loop is proved to
  take exactly the turns of the iterations it plays, so every theorem holds of its fields.
- **The logical send** (`LogicalSend`): attempts, ambiguous failures, resumption and
  acknowledgements, over every sequence of operations.
- **End to end** (`EndToEnd`, `ReceiverDedup`): any number of logical sends, a network that loses,
  repeats and reorders, a server that keeps nothing but its message table across a crash, and a
  receiver that applies each message once.
- **Fast forms against simple ones** (`Latency`, `Backoff`): the bucketed histogram against the
  nearest-rank percentile of the sorted samples, and both capped backoff loops against their closed
  forms.
- **Smaller cores** (`TaskClaim`, `FileTransfer`, `Ticket`): task claiming through an atomic counter,
  chunked upload with resumable download, and the ticket printer and parser.

Fields marked as history in the data types record what happened; no operation reads them.

## Assumptions

- The clock never runs backwards, and one handler call sees one clock reading.
- No socket reports data before its connect has completed (`LoadGenRounds.Genuine`).
- Whether the codec accepts a packet depends only on its type and body.
- The server stores a message under its sender and client id at most once and gives it a new id
  (`README.md:239-242` of the repository); it is an abstract step of `EndToEnd`.
- Counters do not overflow 64 bits; `double` arithmetic is exact.

## Where the code and its promises part

- The setup gate counts logins, not live connections. A client that logs in and drops before the test
  starts is counted neither as failed nor as affected and is never dialled again:
  `GateOpensOnline` gives the exact condition for a connection to be online when the gate opens;
  `TestCanStartOneClientShort` is a run in which one of two clients drops while the other is still
  logging in, `TestCanStartWithoutClients` one in which the only client drops in the read that logs
  it in; and `DroppedBeforeStartStaysDown` proves that such a client stays down for the rest of every
  run.
- A socket closed while it is still connecting is counted neither as `connect_fail` nor as
  `reconnect_connect_fail` (`SocketCanGoUnreported` is a run); `ConnectAccounting` has a term for
  these sockets (history field `aborts`).
- `pending.emplace` drops a message, though `send_attempts` counts it, exactly if its sequence number
  is still in flight (`DroppedIffSequenceTaken`). The conservation law therefore has a term for
  dropped sends (history field `lost`). It is zero for every connection up to its 2^32nd draw
  (`NothingDropped`, `NothingLost`), and that bound is exact: `SendCanBeDropped` is a run in which the
  next draw drops a send. Replays after a failover never drop anything (`RecoveryDropsNothing`).
- `Histogram::P` runs off its buckets exactly for percentiles above one.
- `CalculateRetryBackoff` treats a multiplier of zero as one, and a negative cap that the initial delay
  has already reached stops it at once; `NegativeCapDeparts` gives an input at which it then differs
  from the closed form, and exactly when it does.

## Model

| member | source | states |
|---|---|---|
| LoadGenTheorems.MessageConservation | benchmark/tinyimx_failover_loadgen.cpp:565-571 | in every reachable state, answered sends plus everything in flight, stashed or dropped equal the sends counted plus the refused ones; the answers counted are the ids settled |
| LoadGenTheorems.NothingDropped | benchmark/tinyimx_failover_loadgen.cpp:508-513 | a connection drops no send up to its 2^32nd draw |
| LoadGenTheorems.NothingLost | benchmark/tinyimx_failover_loadgen.cpp:1153-1180 | up to that many draws, answered, in flight and stashed account for every send, refused ones included |
| LoadGenTheorems.SettledOnce | benchmark/tinyimx_failover_loadgen.cpp:910-940 | a client message id belongs to one connection and is there in flight once, stashed, or settled once, never two of these, through any number of reconnects |
| LoadGenTheorems.WindowBound | benchmark/tinyimx_failover_loadgen.cpp:1124-1140 | in flight plus stashed never exceed the window; online means nothing stashed; not online means nothing in flight |
| LoadGenTheorems.OutputStreamIntact | benchmark/tinyimx_failover_loadgen.cpp:815-836 | on every socket the bytes written followed by the unsent rest are the frames queued, in order |
| LoadGenTheorems.WireCarriesFlight | benchmark/tinyimx_failover_loadgen.cpp:910-940 | on every socket the bytes written and still unsent are the frames of the packets queued on it, each under its own number; the first asks to log in; every message in flight is among them under the number it is in flight under; messages go to the peer and nobody else |
| LoadGenTheorems.NumbersRise | benchmark/tinyimx_failover_loadgen.cpp:508-513 | packets of their own never carry zero, and no number twice on a connection until all have been drawn once |
| LoadGenTheorems.AnswerAccounting | benchmark/tinyimx_failover_loadgen.cpp:1015-1051 | over every run, good answers are the settled sends whose answer reported success with that id, a message number, this user, the addressee and persistence; bad ones are all other settled sends |
| LoadGenTheorems.DeliveriesAcknowledged | benchmark/tinyimx_failover_loadgen.cpp:1053-1097 | the delivery acknowledgements queued are those owed for the deliveries handled, one each, in order and under the delivery's number; the messages seen are the private ones among them |
| LoadGenTheorems.TrafficAccounting | benchmark/tinyimx_failover_loadgen.cpp:873-908 | over every run, the counters of messages, heartbeats and acknowledgements sent are the packets queued of each kind, and those of replies, errors and deliveries the packets handled of each kind |
| LoadGenTheorems.PacketErrors | benchmark/tinyimx_failover_loadgen.cpp:873-1097 | exactly which packets count as protocol errors in a reachable state, and how often |
| LoadGenTheorems.LoginDecides | benchmark/tinyimx_failover_loadgen.cpp:942-1013 | a login answer brings the client online if and only if it reports success for this user, with its whole stash queued again, and otherwise closes the socket; each is counted under its outcome and nothing else is |
| LoadGenTheorems.WhoWritesToWhom | benchmark/tinyimx_failover_loadgen.cpp:225-235 | on the ring everybody is written to by exactly one other; with a hotspot everybody writes to it and it to the next; nobody writes to itself unless alone |
| LoadGenTheorems.NoAffectedClientLost | benchmark/tinyimx_failover_loadgen.cpp:1182-1228 | while the test runs, every client counted as disconnected is online, on its way back, due at a set time with attempts left, or out of attempts and counted so |
| LoadGenDrops.DropIsCounted | benchmark/tinyimx_failover_loadgen.cpp:1182-1228 | a turn that takes a client's socket away while the test runs counts it as affected, once, and as a disconnect event unless its connect failed; with reconnecting on it is to be recovered, and before the drain its next attempt is put off by the capped backoff or it is found out of attempts |
| LoadGenDrops.FailedDialIsPutOff | benchmark/tinyimx_failover_loadgen.cpp:573-655 | a reconnect attempt uses up one attempt and, wherever it fails, puts the next one off by the capped backoff or finds none left |
| LoadGenDrops.OnlineDropsExactly | benchmark/tinyimx_failover_loadgen.cpp:795-871 | an online client loses its socket if and only if the notification says it is gone, its bytes cannot be decoded, or writing failed, whatever packets it is sent |
| LoadGenDrops.GoneIsGone | benchmark/tinyimx_failover_loadgen.cpp:777-871 | in any state, a hang-up, an end of stream, undecodable bytes or a failed connect take the socket away |
| LoadGenTheorems.ExhaustionAccounting | benchmark/tinyimx_failover_loadgen.cpp:573-582 | the counter of exhausted clients never exceeds the clients closed for good and until the drain equals it: each is counted once |
| LoadGenTheorems.RetransmissionBound | benchmark/tinyimx_failover_loadgen.cpp:910-940 | a message is queued at most once more than its connection's attempts; replays are at most a window per recovery, recoveries at most the attempts, and the frames queued are the sends plus the replays |
| LoadGenTheorems.RecoveryAccounting | benchmark/tinyimx_failover_loadgen.cpp:1299-1300 | affected and recovered count connections; their difference is the number of counted, never recovered ones, so the guarded subtraction never clips |
| LoadGenTheorems.AuthenticationAccounting | benchmark/tinyimx_failover_loadgen.cpp:942-1013 | logins and re-logins asked for equal those answered, failed and still open; after the shutdown none is open |
| LoadGenTheorems.ReconnectFlagStable | benchmark/tinyimx_failover_loadgen.cpp:777-806 | the reconnect flag recomputed from the recovery state is the one the socket was opened with |
| LoadGenTheorems.SetupGate | benchmark/tinyimx_failover_loadgen.cpp:697-721 | each connection contributes at most one setup outcome; logins count connections that ever logged in; the test starts only if all have |
| LoadGenTheorems.SetupDecides | benchmark/tinyimx_failover_loadgen.cpp:697-721 | the test starts if and only if all connections have logged in; the run is given up if and only if all have ended their setup otherwise or time is up |
| LoadGenTheorems.RampPacing | benchmark/tinyimx_failover_loadgen.cpp:657-665 | connections opened by any time are at most one more than the intervals since the start |
| LoadGenTheorems.RunLasts | benchmark/tinyimx_failover_loadgen.cpp:430-440 | the drain starts no sooner than the configured duration after the start of the test, and a run that finishes after its start has lasted the duration and the drain |
| LoadGenLimits.GateOpensOnline | benchmark/tinyimx_failover_loadgen.cpp:697-715 | when the gate opens a connection is online if and only if its socket is open, and one that is not is neither counted nor due |
| LoadGenWitnesses.TestCanStartWithoutClients | benchmark/tinyimx_failover_loadgen.cpp:838-871 | a run in which the only client is closed in the read that logs it in, and the test then starts |
| LoadGenWitnesses.TestCanStartOneClientShort | benchmark/tinyimx_failover_loadgen.cpp:697-715 | a run in which the first of two clients drops while the second logs in, and the test starts with it down for good |
| LoadGenWitnesses.SocketCanGoUnreported | benchmark/tinyimx_failover_loadgen.cpp:1182-1202 | a run that opens one socket and counts it neither as connected nor as failed |
| LoadGenTheorems.DroppedBeforeStartStaysDown | benchmark/tinyimx_failover_loadgen.cpp:667-690 | a closed client that is not recovering stays unchanged through every run |
| LoadGenTheorems.DownUntilDialled | benchmark/tinyimx_failover_loadgen.cpp:667-690 | a client without a socket changes by no turn but the one that dials it |
| LoadGenTheorems.DueStaysDue | benchmark/tinyimx_failover_loadgen.cpp:674-680 | a client due for a reconnect stays due until it is dialled |
| LoadGenTheorems.CursorApproaches | benchmark/tinyimx_failover_loadgen.cpp:672-690 | a turn that dials someone else brings the cursor nearer to a client that is due |
| LoadGenTheorems.DueNotOvertaken | benchmark/tinyimx_failover_loadgen.cpp:667-690 | over every run, fewer attempts than there are connections pass by a client that is due |
| LoadGenProgress.Patience | benchmark/tinyimx_failover_loadgen.cpp:667-695 | while a due client is not dialled, every iteration is a full burst of 256 or comes within the span of the other connections' tokens from the first token or an earlier full burst, and full bursts are at most one per 256 connections |
| LoadGenProgress.DueClientIsDialled | benchmark/tinyimx_failover_loadgen.cpp:667-695 | a due client is dialled within as many rounds, a span of tokens apart, as there are bursts of 256 among the connections |
| LoadGenProgress.DialStageFinds | benchmark/tinyimx_failover_loadgen.cpp:672-690 | with a client due and not dialled, a pass ends only at its limit or out of tokens |
| LoadGenProgress.CanStillRecover | benchmark/tinyimx_failover_loadgen.cpp:997-1012 | from every reachable state of a running test, a recovering client on its way back or with attempts left has a continuation in which it is online with exactly its stash in flight |
| LoadGenLimits.ReplayRestores | benchmark/tinyimx_failover_loadgen.cpp:910-940 | a stash that can be queued is in flight, whole and unchanged, after its replay |
| LoadGenTheorems.SelectionMoves | benchmark/tinyimx_failover_loadgen.cpp:1129-1149 | the send cursor moves past the selected connection with every selection and not otherwise |
| LoadGenTheorems.NobodyCanSend | benchmark/tinyimx_failover_loadgen.cpp:1124-1151 | a send that is due selects somebody if and only if somebody can send, and otherwise counts a skip and changes no connection |
| LoadGenTheorems.SendNotOvertaken | benchmark/tinyimx_failover_loadgen.cpp:1124-1151 | over every run, fewer selections than there are connections pass by a connection that could send all along |
| LoadGenTheorems.AttemptsBounded | benchmark/tinyimx_failover_loadgen.cpp:584-595 | reconnect attempts are the sum of what each connection used and at most connections times the limit |
| LoadGenTheorems.SendPacing | benchmark/tinyimx_failover_loadgen.cpp:1124-1151 | selections for sending up to any time are at most one more than the intervals since the test started |
| LoadGenTheorems.ReconnectPacing | benchmark/tinyimx_failover_loadgen.cpp:667-695 | reconnect attempts after a pass at a given time obey a token bucket one second deep, over every run |
| LoadGenTheorems.DealtThroughout | benchmark/tinyimx_failover_loadgen.cpp:667-695 | the token timer has always moved one interval per attempt, and no attempt ran ahead of it |
| LoadGenTheorems.PassRefillsOneSecond | benchmark/tinyimx_failover_loadgen.cpp:692-694 | after a pass the token timer is within a second of the clock |
| LoadGenLimits.DrawsCycle | benchmark/tinyimx_failover_loadgen.cpp:508-513 | the sequence counter never yields zero and repeats after exactly 2^32 - 1 draws |
| LoadGenLimits.DroppedIffSequenceTaken | benchmark/tinyimx_failover_loadgen.cpp:934-938 | a first send and a replay are dropped if and only if their sequence number is still in flight, and otherwise are in flight under it |
| LoadGenWitnesses.SendCanBeDropped | benchmark/tinyimx_failover_loadgen.cpp:1153-1180 | rounds of the main loop that end, one draw past the bound, with a counted send dropped: the bound on the draws is exact |
| LoadGenWitnesses.DroppingConfig | benchmark/tinyimx_failover_loadgen.cpp:204-216 | a configuration the argument parser accepts in which that run happens |
| LoadGenLimits.RecoveryDropsNothing | benchmark/tinyimx_failover_loadgen.cpp:910-940 | the replay after a recovery drops nothing in any reachable state, however often the numbers have come round |
| LoadGenTheorems.ConnectAccounting | benchmark/tinyimx_failover_loadgen.cpp:584-655 | sockets opened, first or again, equal those connected, failed, still connecting and closed before they could report |
| LoadGenTheorems.DeliveryAccounting | benchmark/tinyimx_failover_loadgen.cpp:1079-1088 | private deliveries are new or repeats, and the new ones are the distinct messages each connection has seen |
| LoadGenTheorems.BooksOpen | benchmark/tinyimx_failover_loadgen.cpp:296-343 | the counter identities of every reachable state, read as sums over the connections |
| LoadGenRuns.ReachableInv | benchmark/tinyimx_failover_loadgen.cpp:396-480 | the inductive invariant (connections, books, pacing, cursors, shutdown) holds in every reachable state |
| LoadGenRuns.StepInv | benchmark/tinyimx_failover_loadgen.cpp:424-459 | every turn of the main loop keeps the invariant and obeys the meters |
| LoadGenRuns.InitInv | benchmark/tinyimx_failover_loadgen.cpp:414-421 | the initial state satisfies the invariant |
| LoadGenRuns.TotalUpdate | benchmark/tinyimx_failover_loadgen.cpp:296-343 | replacing one connection changes the ledger total by exactly the difference of what it stands for |
| LoadGenRuns.CloseFromInv | benchmark/tinyimx_failover_loadgen.cpp:1230-1232 | the controlled shutdown closes every socket, keeps the books and counts no disconnect |
| LoadGenInvariant.EventKeeps | benchmark/tinyimx_failover_loadgen.cpp:795-813 | a readiness notification, whatever it reports, keeps the connection in order and the ledger balanced |
| LoadGenInvariant.OpenKeeps | benchmark/tinyimx_failover_loadgen.cpp:584-655 | opening a socket, first or again, with any outcome, keeps the connection in order and the ledger balanced |
| LoadGenInvariant.ConnectedKeeps | benchmark/tinyimx_failover_loadgen.cpp:747-775 | so does a completed connect, including a login that cannot be queued |
| LoadGenInvariant.ConnectFailureKeeps | benchmark/tinyimx_failover_loadgen.cpp:777-793 | so does a failed connect |
| LoadGenInvariant.CloseKeeps | benchmark/tinyimx_failover_loadgen.cpp:1182-1228 | so does closing, counted or not; everything in flight is stashed and a recovering client is scheduled or exhausted |
| LoadGenInvariant.LoginKeeps | benchmark/tinyimx_failover_loadgen.cpp:942-1013 | so does a login answer: first, recovering, refused or repeated |
| LoadGenInvariant.AckKeeps | benchmark/tinyimx_failover_loadgen.cpp:1015-1051 | so does a chat answer, which settles exactly the send it answers |
| LoadGenInvariant.AnswerCounts | benchmark/tinyimx_failover_loadgen.cpp:1015-1051 | an answer counts as good if and only if it confirms its send; a protocol error is counted for an answer to nothing, an unreadable one and a success that is not the one due, and not for a refusal |
| LoadGenInvariant.DeliveryKeeps | benchmark/tinyimx_failover_loadgen.cpp:1053-1097 | so does a delivery, counted as new once per message |
| LoadGenInvariant.FlushKeeps | benchmark/tinyimx_failover_loadgen.cpp:815-836 | so does a flush under any pattern of partial writes |
| LoadGenInvariant.HeartbeatKeeps | benchmark/tinyimx_failover_loadgen.cpp:1111-1122 | so does a heartbeat |
| LoadGenInvariant.SendKeeps | benchmark/tinyimx_failover_loadgen.cpp:1153-1180 | so does a send: a new id in flight, refused and settled at once, or not usable |
| LoadGenInvariant.ReplayOneKeeps | benchmark/tinyimx_failover_loadgen.cpp:922-938 | replaying a stashed message moves it back in flight under the number drawn for it, or drops it if that is taken |
| LoadGenInvariant.ScheduleKeeps | benchmark/tinyimx_failover_loadgen.cpp:573-582 | rescheduling sets a future time or finds the attempts used up, and touches nothing else |
| LoadGenInvariant.StashKeepsAll | benchmark/tinyimx_failover_loadgen.cpp:565-571 | stashing loses and duplicates nothing: every id in flight is stashed once, and the sizes add up |
| LoadGenInvariant.StashedContents | benchmark/tinyimx_failover_loadgen.cpp:565-571 | each stashed entry is the one that was in flight, unchanged |
| LoadGenInvariant.NewIdIsNew | benchmark/tinyimx_failover_loadgen.cpp:1156-1159 | the id of a new send differs from all ids issued before |
| LoadGenEngine.FailoverLoadGen.Run | benchmark/tinyimx_failover_loadgen.cpp:396-480 | takes exactly the turns of the rounds it plays, all of them unless it finishes, and then the shutdown; the exit code is 0, 2 or 65 as the source returns it; rounds past the setup deadline, the test and the drain finish it |
| LoadGenRounds.LongRunsFinish | benchmark/tinyimx_failover_loadgen.cpp:424-441 | a run with a round past the setup deadline, a later one a test after it and a later one a drain after that has finished, whatever the environment did |
| LoadGenRounds.RoundPhase | benchmark/tinyimx_failover_loadgen.cpp:424-441 | what one iteration does to the phase of the run and its deadlines |
| LoadGenRounds.PhaseFixed | benchmark/tinyimx_failover_loadgen.cpp:424-459 | only the setup turn and the drain turn change the phase |
| LoadGenRounds.HeartbeatsGoOut | benchmark/tinyimx_failover_loadgen.cpp:1111-1122 | one pass sends every online client that is due one heartbeat under its own number and sets the next a period ahead, and leaves everybody else alone; afterwards nobody online is due |
| LoadGenEngine.FailoverLoadGen.PlayRound | benchmark/tinyimx_failover_loadgen.cpp:424-459 | takes exactly the turns of one iteration: openings and the setup turn, or dials, heartbeats, sends and the drain turn, and then one turn per arrival |
| LoadGenEngine.FailoverLoadGen.OpenDue | benchmark/tinyimx_failover_loadgen.cpp:657-665 | opens connections in order until all are open, the next is not due, or 256 were opened |
| LoadGenEngine.FailoverLoadGen.Evaluate | benchmark/tinyimx_failover_loadgen.cpp:697-721 | is the setup turn |
| LoadGenEngine.FailoverLoadGen.ReconnectDue | benchmark/tinyimx_failover_loadgen.cpp:667-695 | dials until no token is due, nobody is due, or 256 were dialled; then refills the timer to within a second of the clock |
| LoadGenEngine.FailoverLoadGen.ReconnectOne | benchmark/tinyimx_failover_loadgen.cpp:672-690 | is one reconnect turn, and reports whether it found somebody due |
| LoadGenEngine.FailoverLoadGen.SelectReconnect | benchmark/tinyimx_failover_loadgen.cpp:673-684 | finds the first due client in cyclic order from the cursor |
| LoadGenEngine.FailoverLoadGen.SelectSend | benchmark/tinyimx_failover_loadgen.cpp:1130-1139 | finds the first connection that can send in cyclic order from the cursor |
| LoadGenEngine.FailoverLoadGen.SendDue | benchmark/tinyimx_failover_loadgen.cpp:1124-1151 | sends until none is due or 4096 were sent, and stops at the first selection that finds nobody |
| LoadGenEngine.FailoverLoadGen.SendNextDue | benchmark/tinyimx_failover_loadgen.cpp:1128-1149 | is one send turn, and reports whether it found somebody who can send |
| LoadGenEngine.FailoverLoadGen.BeatAll | benchmark/tinyimx_failover_loadgen.cpp:1111-1122 | takes exactly one heartbeat turn per connection, in order: each client that is due gets a heartbeat and nobody else is touched |
| LoadGenEngine.FailoverLoadGen.CheckDrain | benchmark/tinyimx_failover_loadgen.cpp:433-441 | is the drain turn |
| LoadGenEngine.FailoverLoadGen.NotifyAll | benchmark/tinyimx_failover_loadgen.cpp:444-458 | takes exactly one turn per arrival, in order: the event of its connection, or the error of an unknown index |
| LoadGenEngine.FailoverLoadGen.CloseAll | benchmark/tinyimx_failover_loadgen.cpp:1230-1232 | is the shutdown turn |
| LoadGenEngine.FailoverLoadGen.NextSeq | benchmark/tinyimx_failover_loadgen.cpp:508-513 | draws the counter's next non-zero value and changes one connection only |
| LoadGenEngine.FailoverLoadGen.QueuePacket | benchmark/tinyimx_failover_loadgen.cpp:723-735 | appends the frame, or counts a refusal by the codec; true exactly if appended |
| LoadGenEngine.FailoverLoadGen.StashInFlight | benchmark/tinyimx_failover_loadgen.cpp:565-571 | the loop over what is in flight makes the stash the specification describes |
| LoadGenEngine.FailoverLoadGen.Reschedule | benchmark/tinyimx_failover_loadgen.cpp:573-582 | in place, the specified rescheduling |
| LoadGenEngine.FailoverLoadGen.CloseConn | benchmark/tinyimx_failover_loadgen.cpp:1182-1228 | in place, the specified close |
| LoadGenEngine.FailoverLoadGen.OnceConnected | benchmark/tinyimx_failover_loadgen.cpp:747-775 | in place, the specified login request |
| LoadGenEngine.FailoverLoadGen.OnConnectError | benchmark/tinyimx_failover_loadgen.cpp:777-793 | in place, the specified handling of a failed connect |
| LoadGenEngine.FailoverLoadGen.Open | benchmark/tinyimx_failover_loadgen.cpp:584-655 | in place, the specified opening of a socket |
| LoadGenEngine.FailoverLoadGen.ReplayStash | benchmark/tinyimx_failover_loadgen.cpp:910-940 | the stash is emptied and replayed once, in some order of its keys, each message under the number its frame carries (`WireCarriesFlight`) |
| LoadGenEngine.FailoverLoadGen.OnLogin | benchmark/tinyimx_failover_loadgen.cpp:942-1013 | in place, the specified handling of a login answer |
| LoadGenEngine.FailoverLoadGen.OnChatAck | benchmark/tinyimx_failover_loadgen.cpp:1015-1051 | in place, the specified handling of a chat answer (`AnswerCounts`, `AnswerAccounting`) |
| LoadGenEngine.FailoverLoadGen.OnDelivery | benchmark/tinyimx_failover_loadgen.cpp:1053-1097 | in place, the specified handling of a delivery |
| LoadGenEngine.FailoverLoadGen.OnPacket | benchmark/tinyimx_failover_loadgen.cpp:873-908 | in place, the specified dispatch by packet type |
| LoadGenEngine.FailoverLoadGen.OnRead | benchmark/tinyimx_failover_loadgen.cpp:838-871 | in place, the specified reading: packets until one closes the connection, then the decode error; a socket lost in it is counted (`DropIsCounted`) |
| LoadGenEngine.FailoverLoadGen.FlushConn | benchmark/tinyimx_failover_loadgen.cpp:815-836 | the write loop does what the flush specification says |
| LoadGenEngine.FailoverLoadGen.OnEvent | benchmark/tinyimx_failover_loadgen.cpp:795-813 | in place, the specified handling of a notification |
| LoadGenEngine.FailoverLoadGen.Beat | benchmark/tinyimx_failover_loadgen.cpp:1111-1122 | in place, the specified heartbeat |
| LoadGenEngine.FailoverLoadGen.Send | benchmark/tinyimx_failover_loadgen.cpp:1153-1180 | in place, the specified send |
| ClientIds.ClientIdInjective | benchmark/tinyimx_failover_loadgen.cpp:1157-1159 | a client message id determines the user and the number of the send |
| ClientIds.DecimalInjective | benchmark/tinyimx_failover_loadgen.cpp:1157-1159 | decimal printing is injective |
| ClientIds.ClientIdFits | benchmark/tinyimx_failover_loadgen.cpp:1160-1163 | with 64-bit runs and users no id exceeds 64 characters before the ten-billionth send |
| OutputQueue.PushFaithful | benchmark/tinyimx_failover_loadgen.cpp:723-735 | queueing a frame extends the stream by exactly that frame |
| OutputQueue.FlushFaithful | benchmark/tinyimx_failover_loadgen.cpp:815-836 | under any reports of the socket, the stream is intact, nothing is written twice and the queue keeps its order |
| OutputQueue.FlushDrains | benchmark/tinyimx_failover_loadgen.cpp:815-836 | a queue flushed to its end has put on the wire everything that was queued |
| OutputQueue.FlushOne | benchmark/tinyimx_failover_loadgen.cpp:815-836 | one report of the socket closes the connection if and only if the socket failed or took nothing |
| OutputQueue.FlushTakes | benchmark/tinyimx_failover_loadgen.cpp:815-836 | the bytes the socket reports as taken, and no others, move from the front of what is unsent to the wire |
| OutputQueue.FlushJoins | benchmark/tinyimx_failover_loadgen.cpp:815-836 | a flush is its reports one after another, until one stops it |
| RoundRobin.PickIsNearest | benchmark/tinyimx_failover_loadgen.cpp:1130-1139 | the choice is the eligible index nearest after the cursor, and fails exactly if none is eligible |
| RoundRobin.NoStarvation | benchmark/tinyimx_failover_loadgen.cpp:667-690 | whoever stays eligible is chosen within as many selections as there are connections |
| Backoff.ReconnectCap | benchmark/tinyimx_failover_loadgen.cpp:544-554 | the doubling loop computes base times two to the min(attempt, 20), capped, without exceeding the cap on the way |
| Backoff.BackoffMs | benchmark/tinyimx_failover_loadgen.cpp:544-557 | the delay lies between one millisecond and the capped exponential, for every attempt and jitter |
| Backoff.DelaySpreads | benchmark/tinyimx_failover_loadgen.cpp:544-557 | among any run of mixed values as long as the cap, each delay from one millisecond to the cap occurs exactly once |
| Backoff.CalculateRetryBackoff | examples/gateway_client_retry_exhaustion_demo.cpp:331-412 | for all inputs the loop equals min(initial times multiplier to the round minus one, cap), or the cap if that is negative and already reached; no value it computes exceeds both initial and cap |
| Backoff.NegativeCapDeparts | examples/gateway_client_retry_exhaustion_demo.cpp:331-412 | an input with a negative cap at which the loop and the closed form differ, and exactly when they do |
| LogicalSend.AlwaysSound | examples/gateway_client_retry_exhaustion_demo.cpp:224-328 | over every operation sequence: completed at most once, exactly when accepted, exactly when a server id is known; round within budget; total is full earlier rounds plus this one; waiting and uncertain mean an open outcome, accepted none |
| LogicalSend.AttemptBudget | examples/gateway_client_retry_exhaustion_demo.cpp:415-445 | total attempts are at most (resumptions + 1) times the round budget, with equality when uncertain |
| LogicalSend.RoundTerminates | examples/gateway_client_retry_exhaustion_demo.cpp:224-278 | without a resumption every attempt begun uses up one of the budget left |
| LogicalSend.TerminalIsFinal | examples/gateway_client_retry_demo.cpp:979-1148 | an accepted or rejected send is changed by nothing, late successes included |
| LogicalSend.FirstAnswerDecides | examples/gateway_client_retry_exhaustion_demo.cpp:1003-1191 | whatever is mixed in, the first refusal or success acknowledgement for the id decides outcome and server id |
| LogicalSend.OrderAndMultiplicityIrrelevant | examples/gateway_client_retry_exhaustion_demo.cpp:1003-1191 | if the success acknowledgements agree, the send is accepted under their id if and only if one arrived, in whatever order and number |
| LogicalSend.SilenceEndsUncertain | examples/gateway_client_retry_exhaustion_demo.cpp:281-328 | failed attempts lead to waiting before the budget is used up and to uncertain exactly when it is |
| LogicalSend.PendingLogicalSend.BeginNetworkAttempt | examples/gateway_client_retry_exhaustion_demo.cpp:224-278 | in place, the specified attempt, refused in the states and for the arguments the source refuses |
| LogicalSend.PendingLogicalSend.MarkAmbiguousAttemptFailure | examples/gateway_client_retry_exhaustion_demo.cpp:281-328 | in place, the specified ambiguous failure |
| LogicalSend.PendingLogicalSend.ResumeUncertain | examples/gateway_client_retry_exhaustion_demo.cpp:415-445 | in place, the specified resumption |
| LogicalSend.PendingLogicalSend.ApplySuccessfulAck | examples/gateway_client_retry_exhaustion_demo.cpp:1003-1191 | in place, the specified acknowledgement; taken if and only if it answers this send and no other server id is known, new if and only if it is the one that completes the send |
| LogicalSend.AckReport | examples/gateway_client_retry_exhaustion_demo.cpp:1003-1191 | in every reachable state both results are exact, and an acknowledgement reported as new is the first answer of an open send |
| LogicalSend.ReportsAddUp | examples/gateway_client_retry_exhaustion_demo.cpp:224-279 | over every operation sequence the acknowledgements reported as new are the completions, hence at most one; attempts and resumptions reported are those counted |
| LogicalSend.ToldExactly | examples/gateway_client_retry_exhaustion_demo.cpp:224-450 | an attempt begins if and only if the outcome is open and the round has attempts left; a send is resumed if and only if its outcome is open, its round used up and no attempt under way; a refused operation changes nothing |
| LogicalSend.CurrentIsLastBegun | examples/gateway_client_retry_exhaustion_demo.cpp:224-279 | the sequence number kept is that of the last attempt begun, zero if and only if there was none |
| EndToEnd.AcceptedHoldsStoredId | examples/gateway_client_retry_exhaustion_demo.cpp:1003-1191 | under loss, repetition, reordering and crashes, an accepted send completed once and holds the one id stored for its client id |
| EndToEnd.IdsIdentifyMessages | README.md:239-242 | two accepted sends hold the same id if and only if they are the same logical message |
| EndToEnd.StoredIdIsFinal | examples/gateway_client_retry_exhaustion_demo.cpp:415-445 | once a message is stored, its sender, uncertain and resumed or not, can only ever accept that id |
| EndToEnd.EffectAtMostOnce | examples/gateway_cross_gateway_reconnect_dedup_demo.cpp:900-933 | the receiver's effect happens at most once per message and only for a message some client attempted |
| EndToEnd.CanStillComplete | examples/gateway_cross_gateway_gateway_b_crash_recovery_demo.cpp:1680-1702 | from every reachable state a send that was not rejected can still be accepted and take effect, exactly once |
| EndToEnd.PlayKeeps | examples/gateway_cross_gateway_gateway_b_crash_recovery_demo.cpp:1680-1702 | the joint invariant of senders, server, network and receiver is kept by every run |
| ReceiverDedup.DeliveriesApplyOnce | examples/gateway_cross_gateway_reconnect_dedup_demo.cpp:900-933 | any deliveries have the effects of their distinct ids, each once; a delivery takes effect exactly if its id is valid and new |
| ReceiverDedup.ReceiverBusinessDeduplicator.ApplyOnce | examples/gateway_cross_gateway_reconnect_dedup_demo.cpp:902-920 | in place, the specified application |
| ReceiverDedup.WaitForReconnectReplay | examples/gateway_cross_gateway_reconnect_dedup_demo.cpp:936-1096 | succeeds if and only if the login answer and the awaited message arrive within 32 reads, in any order among other packets |
| ReceiverDedup.ScanRead | examples/gateway_cross_gateway_reconnect_dedup_demo.cpp:1003-1089 | one read sets the flags exactly if it holds such packets and keeps the delivery found |
| Latency.Histogram.Record | benchmark/tinyimx_failover_loadgen.cpp:260-270 | adds the sample, cut to the range, and keeps buckets, count, sum, least and greatest true to the samples |
| Latency.Histogram.P | benchmark/tinyimx_failover_loadgen.cpp:277-286 | the lower edge of the bucket at which the samples below rise past the fraction asked for, hence the one that holds the nearest-rank sample, for percentiles above zero up to one; the search runs off the end if and only if there are samples and the percentile is above one |
| Latency.BucketHoldsRank | benchmark/tinyimx_failover_loadgen.cpp:277-286 | the bucket where the running count reaches the rank holds the sorted percentile |
| Latency.PercentileIsNearestRank | benchmark/business_runtime_benchmark.cpp:265-289 | for fractions above zero up to one a value is the percentile if and only if fewer samples than that fraction lie below it and at least that fraction do not lie above it; outside that range it is the least or the greatest sample |
| Latency.SummaryInOrder | benchmark/business_runtime_benchmark.cpp:291-309 | the reported figures are samples, in order, the last is the greatest, and the others stand at one half, 95 and 99 per cent of the samples |
| Latency.SortedIsSorting | benchmark/business_runtime_benchmark.cpp:301-301 | sorting gives a sorted permutation |
| TaskClaim.EveryTaskOnce | benchmark/business_runtime_benchmark.cpp:489-603 | in every finished interleaving each task is claimed and its status written exactly once, and the counter ends at tasks plus submitters |
| TaskClaim.StatusIsTheAnswer | benchmark/business_runtime_benchmark.cpp:510-597 | the status kept for a task is the one answered to the thread that claimed it, in every interleaving |
| TaskClaim.WorkBounded | benchmark/business_runtime_benchmark.cpp:510-597 | every interleaving ends: at most two steps per task and one per submitter do anything |
| TaskClaim.RunKeeps | benchmark/business_runtime_benchmark.cpp:510-597 | every number handed out is with exactly one thread or was written once, and the slots hold what was written |
| TaskClaim.CountStatuses | benchmark/business_runtime_benchmark.cpp:612-615 | each status is counted under its own name and the six counts sum to the tasks |
| TaskClaim.CountStatus | benchmark/business_runtime_benchmark.cpp:311-339 | exactly the counter of the status rises, by one |
| FileTransfer.UploadChunks | examples/file_transfer_release_e2e_client.cpp:170-191 | chunks are in place without gap, all full but perhaps the last, until the first refusal; unrefused they are as many as announced |
| FileTransfer.AllSent | examples/file_transfer_release_e2e_client.cpp:170-174 | the chunks sent concatenate to the payload if and only if all of them were sent |
| FileTransfer.ChunkEdges | examples/file_transfer_release_e2e_client.cpp:170-170 | the announced number of chunks covers the payload and one fewer does not |
| FileTransfer.Resume | examples/file_transfer_release_e2e_client.cpp:237-269 | ends, succeeds only with the expected file, reports each failure by its code, and against an honest service succeeds if and only if what was saved is a prefix of the file |
| Ticket.Hex | examples/desktop_file_server.cpp:35-35 | the loop prints each byte as the character codes of its high and its low half |
| Ticket.HexCodes | examples/desktop_file_server.cpp:35-35 | the characters printed are 0 to 9 and a to f, high half first |
| Ticket.Unhex | examples/desktop_file_server.cpp:36-36 | accepts exactly even strings of lower-case digits and then returns bytes that print as that string |
| Ticket.HexShape | examples/desktop_file_server.cpp:35-35 | what is printed is accepted and contains no dot |
| Ticket.HexInjective | examples/desktop_file_server.cpp:35-36 | different byte strings are printed differently |
| Ticket.MakeTicket | examples/desktop_file_server.cpp:55-55 | the ticket of a payload |
| Ticket.Verify | examples/desktop_file_server.cpp:56-56 | a payload is recovered if and only if the value is its ticket and at most 4096 long; the length and separator errors exactly characterised |

## Left out

- Latency and recovery histograms inside the load generator, the recovery event file, and the deadline and overload reason counters: they feed no decision.
- Epoll interest flags: they touch no connection.
- Sockets, name resolution, signals, sleeps and logging: their outcomes are arguments of the turns.
- Start-up failures of the load generator before its loop (exit code 64) and the printed result.
- JSON bodies and the packet codec: packets are abstract records, and a frame is any byte string the configuration gives.
- Mix64: any function of the user and the attempt; only its value modulo the cap matters.
- Rates as floating-point reciprocals: intervals are non-negative integers in nanoseconds.
- The conversion of histogram results to milliseconds, and the averages.
- std::sort in Summarize: replaced by a sort that is proved to sort.
- Expiry and the JSON claims in Ticket.Verify: the payload level only; an invalid digit is an error value and not an exception.
- Null-pointer checks of the logical-send functions, their text and addressee fields, and jitter (switched off in the source).
- Server-side refusal of a logical send: an operation of the environment, because the source only ever sets that state directly.
- Gateway, executor, repositories and caches: the server is the abstract idempotent store.
- More than one receiver: every message goes to the one that is modelled.
- Wrap-around of the atomic task counter at 2^64, and the timing records of the tasks.
- gRPC calls, deadlines and the SHA-256 function: an arbitrary peer and an arbitrary hash function.
- The other demos and the simpler load generator: they repeat the same code in scripted scenarios.
