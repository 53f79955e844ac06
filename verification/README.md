# Cloud Android Orchestration: a verified model

Dafny models, with proofs, of the parts of Cloud Android Orchestration whose correctness is hardest
to see from the code: the concurrent protocols of its command-line client, the ADB forwarder, the
store behind its web page and the single-use session state of its server. Concurrent parts are
transition systems: a state, a set of steps with guards, and theorems about every sequence of steps
(every interleaving of the goroutines). Loops are methods proved against a specification, and
objects whose fields change in place are classes.

| module | what it models |
|---|---|
| `Chunks`, `UploadJobs` | cutting files into chunks in 64-bit arithmetic, seeking and copying, the list of upload jobs |
| `UploadProtocol`, `UploadSafety`, `UploadProgress`, `UploadHistory` | the uploader: a producer, 32 workers, 32 forwarders, a closer and a collector over unbuffered channels |
| `Signalling`, `Shutdown`, `Cascade`, `SignallingHistory` | the WebRTC signalling goroutines: senders under a mutex, receive loop, forwarder and poller, and how they come to an end |
| `Polling`, `Forwarding` | the polling cursor of the Go client and of the browser, and the two nested retry loops |
| `AdbForwarder`, `AdbCustody`, `AdbLifecycle`, `AdbHistory`, `AdbUse` | the ADB forwarder, its accept loop and its control loop |
| `AdbMessages` | framing of messages to the ADB server, and partial writes |
| `PageStore`, `PageLoads`, `PageCards`, `PageHistory` | the reducers, the fold over actions, racing loads, and the cards derived from the state |
| `Gather`, `CliFanOut` | one goroutine per item, results collected in order: connecting to devices and listing them |
| `Sessions` | the in-memory session store and the handlers that use it |
| `Wrappers`, `Sums`, `Lists`, `Limits` | options and results, sums of weights, lists without repeated keys, the limit on consecutive errors |

The main theorems, hardest first:

- `UploadSafety.NilMeansDelivered`: when Upload returns nil, the receiver holds exactly the bytes of
  every file, except of those so long that the rounding sum overflows an int64.
  `UploadSafety.JobsAreConserved`, `UploadProgress.NeverStuck` and `UploadProgress.EveryRunEnds` are
  the conservation and termination behind it, and `UploadHistory.FailsIffGivenUp` says which attempts
  make it fail.
- `Cascade.ShutdownCompletes`: once SendCh is closed, every fair behaviour of the signalling goroutines
  settles with the forwarder gone and the controller free, and poller and receive loop have returned
  too if and only if the poller is not left with a message for a receive loop that failed.
  `Shutdown.HaltedMeansEnded` says exactly where a halt is the end of everything, and
  `Shutdown.ShutdownCanHang`, `Shutdown.ReceiveErrorCanHang` and `Shutdown.ReceiveErrorCanEnd` are
  interleavings on either side. `SignallingHistory.EveryEndHasItsReason` explains every state by the
  steps that led to it, and `SignallingHistory.MessageCanBePosted` says what can still be sent.
- `AdbLifecycle.ConnectionCustody`: who owns each socket of the ADB forwarder in every interleaving.
  `AdbUse.ServesOnIffUsable` says exactly when it can serve one more connection, and
  `AdbHistory.RequestsAreServed` that no request to stop or to become ready is lost.
- `PageLoads.LoadConfluence`, `PageCards.CardSurvives`, `PageStore.FoldRefinesModel`: the page's
  store under racing loads, creations, deletions and refreshes. `PageHistory.WaitsFiled`,
  `PageHistory.HostsListed` and `PageHistory.EnvsListed` read its contents off the actions.
- `Polling.GoPollerIsExact`, `Forwarding.AcceptedIsPrefix`, `Forwarding.ForwardReplies`,
  `Gather.ReceivesAreReal`,
  `CliFanOut.CollectListings`, `CliFanOut.ErrorsAgreeOnlyWithoutFailure`, `Sessions.AcceptedIffLive`,
  `Sessions.SingleUse`, `AdbMessages.FrameRoundTrip`.

Where the code does not meet what its comments or interfaces promise, the code is modelled and the
exact condition is proved:

- `pkg/client/client.go:603-604` describes chunk n as the segment at `(n-1)*ChunkSizeBytes`. For a
  size whose rounding sum exceeds the largest int64 no chunk is issued, and Upload still returns nil.
- `pkg/webrtcclient/client.go:133-140` describes a shutdown that always completes. It does not when
  the receive loop has left on an error while the poller still has a device message for it, or when
  the forwarder has given up and a sender waits for it with the mutex held.
- `pkg/client/client.go:273-280` advances the cursor only for device messages, so a device message
  that follows an entry of another kind is delivered again or out of step.
- `pkg/app/database/database.go:30-31` promises nothing for a session that does not exist. The
  in-memory store answers an empty key with an empty session while its slot is empty, so a request
  with an empty cookie and an empty state is accepted, and again every time. States are accepted
  once if and only if at most one request with an empty cookie is.
- `web/page0/src/app/store/reducers.ts:178` looks into a wait that may be undefined: completing a
  host deletion that nothing waits for throws and ends the store's stream.
- `pkg/cli/cvd.go:246` wraps the nil error of `ListHosts` instead of the host's own. The concurrent
  listing reports the errors that listing host by host does if and only if no host fails.

## Model

| member | source | states |
|---|---|---|
| `Chunks.TotalChunksWhenFits` | pkg/client/client.go:545-548 | if size + ChunkSizeBytes - 1 fits an int64, that many chunks cover the file and one chunk less does not |
| `Chunks.TotalChunksWhenOverflowing` | pkg/client/client.go:545-548 | if the sum does not fit, the wrapped expression yields no chunk although the file has bytes |
| `Chunks.TotalChunksIsLeastCover` | pkg/client/client.go:545-548 | the chunk count is the least t with t * ChunkSizeBytes >= size if and only if the rounding sum fits an int64 |
| `Chunks.ChunkShape` | pkg/client/client.go:601-608 | every chunk starts inside the file, every chunk but the last is full with bytes left after it, the last holds between one byte and a whole chunk |
| `Chunks.GluedIsPrefix` | pkg/client/client.go:601-608 | the first n segments, glued in order, are the first n * ChunkSizeBytes bytes, and all of them the file |
| `Chunks.SegmentsTile` | pkg/client/client.go:601-608 | the segments concatenate to the file if and only if the rounding sum fits |
| `Chunks.Seek` | pkg/client/client.go:698 | the seek position computed in wrapping arithmetic is the exact offset (n-1) * ChunkSizeBytes: it never overflows |
| `Chunks.ReadChunk` | pkg/client/client.go:698-722 | the bytes copied for a chunk are exactly its segment; the bounded copy never meets an early end of file |
| `UploadJobs.GetFilesInfos` | pkg/client/client.go:538-552 | succeeds if and only if every file can be stat'ed, then with every name and its chunk count in order; else fails with the first one that cannot |
| `UploadJobs.JobIsChunk` | pkg/client/client.go:554-571 | every job issued is a chunk of its file, at the position that chunk has |
| `UploadJobs.ChunkIsJob` | pkg/client/client.go:554-571 | every chunk of every file is issued, at its position |
| `UploadJobs.JobsAreTheChunks` | pkg/client/client.go:554-571 | the jobs are the chunks of the files, each exactly once and nothing else |
| `UploadJobs.SendJobs` | pkg/client/client.go:554-571 | the producer sends a prefix of the jobs in order: all of them, unless it quits at a select before the end |
| `UploadProtocol.RunJob` | pkg/client/client.go:630-646 | a worker reports the outcome of its last attempt; every earlier attempt failed and was followed by a back-off; an error is reported only when the back-off says stop, within its budget |
| `UploadProtocol.CollectResults` | pkg/client/client.go:522-535 | the collecting loop returns the first error among the reports, and cancels once exactly when there is one |
| `UploadSafety.ControlStep` | pkg/client/client.go:554-649 | every step keeps what is known about which goroutine has gone how far and which channels are closed |
| `UploadSafety.ControlMeansNoPanic` | pkg/client/client.go:586-648 | that knowledge rules out every send on, and second close of, a closed channel |
| `UploadSafety.CustodyStep` | pkg/client/client.go:554-648 | every step moves a job from its one holder to the next, or moves none |
| `UploadSafety.BytesStep` | pkg/client/client.go:651-724 | every step keeps the receiver free of wrong bytes and in possession of all that was reported as a success |
| `UploadSafety.JobsAreConserved` | pkg/client/client.go:554-648 | in every reachable state each job is at exactly one place: unsent, at one worker, at one forwarder, or reported |
| `UploadSafety.NeverPanics` | pkg/client/client.go:518-648 | in every interleaving no goroutine sends on a closed channel or closes one twice; the aggregate channel is closed after its last send |
| `UploadSafety.FirstErrorIsFirst` | pkg/client/client.go:522-535 | the first-error specification is none exactly when every report is a success, else the error of the earliest failed report |
| `UploadSafety.UploadOutcome` | pkg/client/client.go:515-599 | when Upload returns every goroutine is gone, every job sent was reported once, the result is the first error received, and it is nil if and only if every job was sent and every report is a success |
| `UploadSafety.NilMeansDelivered` | pkg/client/client.go:510-724 | after a nil return the receiver holds exactly a file's bytes, whatever the order of arrival and the remains of failed attempts, if and only if the file's rounding sum fits |
| `UploadProgress.NeverStuck` | pkg/client/client.go:515-599 | in every reachable state before Upload returns some goroutine can move, cancelled or not |
| `UploadProgress.StepDecreases` | pkg/client/client.go:554-648 | every step decreases a measure over unsent jobs, back-off budgets and goroutine positions |
| `UploadProgress.EveryRunEnds` | pkg/client/client.go:515-648 | with a finite back-off budget every run has at most jobs * (budget + 5) + 32 * (budget + 2) + 6 steps |
| `UploadHistory.FailsIffGivenUp` | pkg/client/client.go:524-645 | Upload returns nil if and only if the back-off said stop after no attempt of the run, and any error it returns is that of an attempt after which it did; attempts that are repeated leave no trace |
| `UploadHistory.SuccessStaysPossible` | pkg/client/client.go:510-649 | from every reachable state in which no chunk has failed for good, some continuation ends with Upload returning nil |
| `UploadHistory.BudgetsAreResetBySuccess` | pkg/client/client.go:632-644 | a worker's back-off budget is the whole one less its repeated attempts since its last success |
| `UploadHistory.CancelCutsShort` | pkg/client/client.go:563-568 | once the context is cancelled some continuation returns without sending another job |
| `Signalling.InvStep` | pkg/webrtcclient/client.go:84-159 | every step of any goroutine keeps mutex, flag, channels and receive loop consistent |
| `Signalling.ChannelSafety` | pkg/webrtcclient/client.go:143-159 | in every interleaving nothing is sent on a closed channel and none of the three channels is closed twice; with the mutex free, sendChClosed holds if and only if SendCh is closed |
| `Shutdown.HaltedMeansEnded` | pkg/webrtcclient/client.go:133-140 | where nothing but new callbacks can happen, all goroutines have ended if and only if nobody is left sending, the poller is not left with a message for a receive loop that failed, and the forwarder was stopped; a sender is left only after the forwarder gave up, and the forwarder only by a failed receive loop with SendCh open |
| `Shutdown.ShutdownCanHang` | pkg/client/client.go:310-314 | a run of the protocol in which ten failed posts leave a sender holding the mutex forever |
| `Shutdown.ReceiveErrorCanHang` | pkg/client/client.go:273-280 | a run in which the receive loop fails, SendCh and the stop channel are closed, and the poller hangs with a message it cannot deliver |
| `Shutdown.ReceiveErrorCanEnd` | pkg/webrtcclient/client.go:102-127 | a run in which the receive loop fails and everything still ends |
| `Cascade.ForwarderCanMove` | pkg/client/client.go:292-316 | with SendCh closed the forwarder can always move until it has closed the stop channel |
| `Cascade.ForwarderStops` | pkg/client/client.go:292-316 | with SendCh closed, in every fair behaviour the forwarder closes the stop channel |
| `Cascade.StepDecreases` | pkg/client/client.go:273-288 | after that, every step but a timer decreases (callbacks left, poller stage, pending batch, remaining work) |
| `Cascade.EverythingSettles` | pkg/webrtcclient/client.go:84-91 | after that, every behaviour reaches a state from which on nothing moves |
| `Cascade.ShutdownCompletes` | pkg/webrtcclient/client.go:133-159 | from every reachable state with SendCh closed, every fair behaviour that prefers a closed stop channel settles for good with the forwarder gone and nobody in the controller; poller and receive loop have then returned if and only if the poller is not left with a message for a receive loop that failed |
| `SignallingHistory.EveryEndHasItsReason` | pkg/client/client.go:247-316 | in every run, counted on the steps alone: the forwarder has given up only after ten failed posts in a row of one message; the poller is at its end if and only if it saw the stop or ten polls in a row failed, and it has delivered all device messages fetched but those of its current batch; the receive loop failed or returned exactly by doing so; while SendCh is open every message asked to be sent is forwarded or with its sender |
| `SignallingHistory.MessageCanBePosted` | pkg/client/client.go:301-309 | from every reachable state with SendCh open, nobody about to close it and the forwarder not given up, any sender's message can be posted, after which the forwarder waits for the next |
| `Polling.WebRTCPoll` | pkg/client/client.go:247-290 | the polling loop computes the specification of sink, cursor, interval, error count and closing, for any outcome of each request |
| `Polling.Drain` | pkg/client/client.go:273-280 | exactly the device messages of a batch go to the sink, in order, and the cursor advances by their number |
| `Polling.GoPollerIsExact` | pkg/client/client.go:247-289 | the sink holds log[..start] under every schedule of segments, failures and stops if and only if no device message follows an entry of another kind |
| `Polling.EverythingArrives` | pkg/client/client.go:247-289 | if no device message follows another entry, as many successful polls that bring something as there are device messages deliver all of them |
| `Polling.CursorCountsDeliveries` | pkg/client/client.go:273-280 | for any log the cursor is the number of messages delivered, and what was delivered is never taken back |
| `Polling.PollerEndsAndSlowsDown` | pkg/client/client.go:250-288 | the sink is closed if and only if the stop channel was seen closed or ten requests in a row failed; until then the interval is the initial one doubled per quiet round since the last message, capped |
| `Polling.PollingConnector.constructor` | web/intercept/js/server_connector.js:185-205 | the browser's poller starts with nothing delivered, its first poll scheduled and the initial delay |
| `Polling.PollingConnector.PollMessages` | web/intercept/js/server_connector.js:174-183 | returns a segment of the log from the cursor and advances the cursor past it |
| `Polling.PollingConnector.PollerRoutine` | web/intercept/js/server_connector.js:191-202 | between polls the callback has been given log[..messagesReceived] whatever the entries; a failed fetch ends the polling; the delay doubles to at most a minute and is reset by a message |
| `Forwarding.DecisiveIsFirst` | pkg/client/client.go:451-465 | the deciding reply is the first that asks for no retry, or the last allowed one |
| `Forwarding.DoRequest` | pkg/client/client.go:426-488 | a request is sent again exactly while its replies ask for it and fewer than RetryAttempts retries were made, and succeeds if and only if its last reply is a 2xx that decodes |
| `Forwarding.PostMessage` | pkg/client/client.go:302-309 | the inner loop posts a message until the first success, in at most the allowed number of requests |
| `Forwarding.PostBound` | pkg/client/client.go:302-309 | posting one message makes at most tries * attempts sends |
| `Forwarding.PostedMeansGood` | pkg/client/client.go:302-309 | a message counts as posted only if its last reply was good |
| `Forwarding.GivesUpOnlyAfterTries` | pkg/client/client.go:302-314 | a message is given up only after that many requests, at successive positions, each ended with a bad reply |
| `Forwarding.WebRTCForward` | pkg/client/client.go:292-316 | what the forwarder takes and what the server accepts are prefixes of the messages sent, of the specified lengths |
| `Forwarding.AcceptedIsPrefix` | pkg/client/client.go:292-316 | accepted lacks at most the last message taken, and that one exactly when the forwarder gave up; the forwarder drains SendCh if and only if all is accepted; the sends are bounded per message |
| `Forwarding.PostReplies` | pkg/client/client.go:302-309 | posting one message makes at most the allowed number of successive requests, all with bad replies but the last one, which is good exactly if the message was posted |
| `Forwarding.RequestsIncrease` | pkg/client/client.go:301-309 | successive requests end at increasing positions, before the next send |
| `Forwarding.ForwardReplies` | pkg/client/client.go:292-316 | read off the replies of the successive requests: as many messages are accepted as requests ended with a good reply; the forwarder gives up only with the allowed number of bad ones at the end, and otherwise its last request went well |
| `Forwarding.SendsPerMessage` | pkg/client/client.go:292-316 | at most 10 * (RetryAttempts + 1) HTTP sends a message |
| `AdbForwarder.Forwarder.constructor` | pkg/cli/conn.go:162-178 | a new forwarder is Initializing with an open listener and no connection |
| `AdbForwarder.Forwarder.CompareAndSwapState` | pkg/cli/conn.go:276-286 | swaps exactly when the state is the old one, and reports the state it found |
| `AdbForwarder.Forwarder.State` | pkg/cli/conn.go:266-274 | changes nothing, and the state it reads always has a name, so StateAsStr does not panic |
| `AdbForwarder.Forwarder.NameOf` | pkg/cli/conn.go:188-203 | a code has a name if and only if it is one of the five states |
| `AdbForwarder.Forwarder.SetConnection` | pkg/cli/conn.go:288-297 | registers the connection exactly when Ready, becoming Connected |
| `AdbForwarder.Forwarder.StopForwarding` | pkg/cli/conn.go:232-247 | unless already in the target state, enters it with data channel, listener and registered connection closed |
| `AdbForwarder.Forwarder.Send` | pkg/cli/conn.go:249-264 | data reaches the registered connection whole unless a write fails, then a prefix of it does; without a connection nothing is written |
| `AdbForwarder.StopStepsAreStop` | pkg/cli/conn.go:232-247 | the single steps of StopForwarding, uninterrupted, have the effect of the method |
| `AdbCustody.InvStep` | pkg/cli/conn.go:205-348 | every step of every callback, the control loop and the accept loop keeps mutex, sockets, accept loop and channels consistent |
| `AdbLifecycle.ConnectionCustody` | pkg/cli/conn.go:232-348 | in every reachable state at most one accept loop exists and at most one accepted connection is open, which is f.conn under that loop or its unregistered local; with the mutex free in Stopped or Failed the data channel, listener and f.conn are closed; once the loop has returned, listener and every connection are |
| `AdbLifecycle.ReadyChannelSafety` | pkg/cli/conn.go:207-229 | readyCh is closed at most once, and nobody is about to close it again |
| `AdbLifecycle.RunReturnsOnlyWhenOver` | pkg/cli/conn.go:434-467 | the control loop returns only with its socket closed and the forwarder Stopped or Failed |
| `AdbLifecycle.StateArrows` | pkg/cli/conn.go:180-186 | the state moves only from Initializing to Ready, between Ready and Connected, and to Stopped or Failed, which it does not leave |
| `AdbLifecycle.OverForever` | pkg/cli/conn.go:232-297 | in every run Stopped and Failed are never left, other than for one another |
| `AdbLifecycle.OpensAtMostOnce` | pkg/cli/conn.go:205-217 | in every run the swap from Initializing to Ready succeeds at most once |
| `AdbLifecycle.WindingDown` | pkg/cli/conn.go:299-348 | once stopped, every step of the accept loop brings it nearer its end and no other step sets it back |
| `AdbLifecycle.StopEndsTheLoop` | pkg/cli/conn.go:299-348 | after a finished StopForwarding the accept loop takes at most five more steps, and until it has returned it or the holder of the mutex can take one that waits for no peer: an accept fails on a closed listener, a read on a closed connection |
| `AdbHistory.RequestsAreServed` | pkg/cli/conn.go:205-247 | in every run the forwarder is Stopped or Failed, or about to be, if and only if a stop was asked for; readyCh is closed, or about to be, if and only if the accept loop was started or the data channel closed; the control socket, if and only if the stop command came; and Run has returned exactly by returning |
| `AdbHistory.QuietMeansServed` | pkg/cli/conn.go:207-229 | where every callback is done, the state is final if and only if a stop was asked for, readyCh was closed once or not at all as asked, and the control socket is open exactly without a stop command |
| `AdbUse.ServesOnIffUsable` | pkg/cli/conn.go:205-348 | before the first connection, during one and after one ends: some continuation connects and serves one more, registered and open, if and only if the forwarder is not stopped and its accept loop has not left |
| `AdbUse.StopMeans` | pkg/cli/conn.go:232-247 | a whole StopForwarding ends in the state asked for with data channel, listener and f.conn closed and other connections untouched |
| `AdbUse.RunCanReturn` | pkg/cli/conn.go:450-467 | with the control socket closed and the stop command done, Run can return |
| `AdbMessages.DigitsRoundTrip` | pkg/cli/adbserver.go:31-44 | a number printed in any base from 2 to 16 is read back |
| `AdbMessages.ParseBound` | pkg/cli/adbserver.go:44 | k digits stand for less than the k-th power of the base |
| `AdbMessages.FrameRoundTrip` | pkg/cli/adbserver.go:44 | reading four hex digits and then that many bytes recovers the message and what follows it, if and only if the message is shorter than 65536 |
| `AdbMessages.CommandRoundTrip` | pkg/cli/adbserver.go:31-44 | a framed command that ends in a port is read back, and the port from its decimal suffix |
| `AdbMessages.ConnectRoundTrip` | pkg/cli/adbserver.go:31-35 | the connect command and its port are read back from the frame for every port 0..65535 |
| `AdbMessages.DisconnectRoundTrip` | pkg/cli/adbserver.go:37-41 | the disconnect command and its port are read back from the frame for every port 0..65535 |
| `AdbMessages.CommandsSayWhat` | pkg/cli/adbserver.go:31-41 | the commands begin with host:connect: and host:disconnect: and are never the same |
| `AdbMessages.WriteAll` | pkg/cli/adbserver.go:50-57 | under every schedule of partial writes a prefix is written, all of it if and only if no error is returned |
| `AdbMessages.SendMsg` | pkg/cli/adbserver.go:43-59 | succeeds if and only if the server was reached and got the whole frame; else it got a prefix |
| `AdbMessages.Connect` | pkg/cli/adbserver.go:31-35 | on success a reader of the bytes recovers the connect command and the port; on failure the bytes are a prefix of the frame |
| `AdbMessages.Disconnect` | pkg/cli/adbserver.go:37-41 | the same for the disconnect command |
| `PageStore.MatchKeepsInv` | web/page0/src/app/store/reducers.ts:29-194 | every reducer keeps host URLs distinct, environment keys distinct and waits filed under their own URL |
| `PageStore.FoldKeepsInv` | web/page0/src/app/store/store.ts:17-25 | so does every sequence of actions |
| `PageStore.StoreInvariant` | web/page0/src/app/store/store.ts:17-25 | it holds in every state reached from the initial one |
| `PageStore.FoldFailsOnlyOnStrayDelete` | web/page0/src/app/store/reducers.ts:175-180 | the stream of states dies if and only if some action completes a host deletion that nothing waits for at that point |
| `PageStore.RuntimesListed` | web/page0/src/app/store/reducers.ts:30-111 | a runtime is listed if and only if it was there or added and no later init, refresh or unregistration dropped it |
| `PageStore.StatusIsTheLast` | web/page0/src/app/store/reducers.ts:30-102 | the load status is the one given by the last action that gives one |
| `PageStore.MatchRefinesModel` | web/page0/src/app/store/reducers.ts:29-194 | on the lists every reducer does what the action means on finite maps in which the first writer wins |
| `PageStore.FoldRefinesModel` | web/page0/src/app/store/store.ts:17-25 | so does every sequence of actions |
| `PageHistory.ThereIffBrought` | web/page0/src/app/store/store.ts:17-25 | what each action brings or drops determines what a whole run leaves: there at first and kept throughout, or brought by some action and kept since |
| `PageHistory.WaitsFiled` | web/page0/src/app/store/reducers.ts:113-193 | a wait is on file if and only if it was at first, or some start action filed it, and no later action was about its URL |
| `PageHistory.HostsListed` | web/page0/src/app/store/reducers.ts:30-193 | a host is listed if and only if it was at first, or was loaded or created while no host with its URL was, and no later refresh, unregistration of its runtime or completed deletion took it |
| `PageHistory.EnvsListed` | web/page0/src/app/store/reducers.ts:30-193 | the same for an environment with its host and group |
| `PageHistory.CreateStartShowsCard` | web/page0/src/app/store/reducers.ts:113-118 | starting to create an environment gives it a card, and one that is not stored shows as starting with what was asked for |
| `PageHistory.DeleteStartShowsStopping` | web/page0/src/app/store/reducers.ts:168-173 | starting to delete a host shows its environments as stopping |
| `PageHistory.HostCreateStartShowsHost` | web/page0/src/app/store/reducers.ts:140-145 | starting to create a host shows a new one, starting, on the card of its runtime |
| `PageLoads.FoldLoads` | web/page0/src/app/store/reducers.ts:51-77 | a sequence of loads and completions appends, of its hosts and environments, those whose key is not there yet, and removes the completed waits |
| `PageLoads.LoadsAgreeOnKeys` | web/page0/src/app/fetch.service.ts:136-172 | the same loads and completions in any order and repetition give the same host URLs, environment keys and waits |
| `PageLoads.LoadsArePermuted` | web/page0/src/app/store/reducers.ts:120-166 | with equal payloads for equal keys the lists come out as permutations of each other |
| `PageLoads.LoadConfluence` | web/page0/src/app/fetch.service.ts:136-172 | they do so for all orders of the same loads if and only if those not stored yet carry equal payloads for equal keys; and then for all repetitions too |
| `PageLoads.HostsDisagree` | web/page0/src/app/store/reducers.ts:51-60 | two payloads for one new host give two orders with different host lists |
| `PageLoads.EnvsDisagree` | web/page0/src/app/store/reducers.ts:62-77 | two payloads for one new environment give two orders with different environment lists |
| `PageCards.CardIffPendingOrStored` | web/page0/src/app/store/selectors.ts:124-165 | an environment has a card if and only if its creation is awaited or it is stored |
| `PageCards.CardsAreDistinct` | web/page0/src/app/store/selectors.ts:143-164 | no environment has two cards if and only if no two waits are for the same environment that is not stored |
| `PageCards.StoredCard` | web/page0/src/app/store/selectors.ts:152-163 | the only card of a stored environment shows it stopping if a deletion of its host is awaited, else as stored |
| `PageCards.PendingCard` | web/page0/src/app/store/selectors.ts:131-151 | a pending environment that is not stored has a card with what was asked for, starting |
| `PageCards.StoredCardsInOrder` | web/page0/src/app/store/selectors.ts:143-164 | the cards of stored environments come last, in the order of the store |
| `PageCards.UntouchedRun` | web/page0/src/app/store/reducers.ts:29-194 | a wait for an environment survives every sequence of actions that do not address its URL or reset the store |
| `PageCards.CardSurvives` | web/page0/src/app/store/reducers.ts:104-138 | through any such sequence, refreshes and unregistrations included, a pending environment keeps its card; its completion leaves the set of cards as it was, without doubling, and shows the environment as stored |
| `PageCards.EnvIsUnderItsHost` | web/page0/src/app/store/selectors.ts:17-73 | on a runtime's card an environment of that runtime is under exactly the host it is on, and under none while that host is being deleted |
| `PageCards.RuntimeCardHosts` | web/page0/src/app/store/selectors.ts:17-73 | the card of a runtime is there if and only if the runtime is listed; it shows every stored host in order, stopping if and only if its deletion is awaited, and then a starting host for each zone a creation for the runtime awaits |
| `Gather.InvStep` | pkg/cli/cli.go:808-834 | every step keeps the order of the collected results, and a receive from a closed channel is never possible |
| `Gather.ReceivesAreReal` | pkg/cli/cli.go:805-835 | in every interleaving the i-th receive yields what goroutine i computed, never a zero value; nobody sends on or closes a closed channel; a return means that all were received |
| `Gather.NeverStuck` | pkg/cli/cli.go:808-834 | until the caller returns something can move |
| `Gather.EveryRunEnds` | pkg/cli/cli.go:808-834 | every run has at most 5n + 1 steps |
| `Gather.ChannelsAreClosed` | pkg/cli/cli.go:816-817 | a goroutine that is gone has closed both its channels in the connecting fan-out, and none in the listing one |
| `CliFanOut.CollectConnections` | pkg/cli/cli.go:827-835 | the collecting loop prints the successful connections and gathers the errors of the goroutines' results, in index order |
| `CliFanOut.ConnectSeesEveryOutcome` | pkg/cli/cli.go:805-835 | in every interleaving that returns, the loop has got each device's own outcome |
| `CliFanOut.ErrorsInOrder` | pkg/cli/cli.go:831-833 | the error list has each failed device's error at the position of that device among the failed ones |
| `CliFanOut.ErrorsCount` | pkg/cli/cli.go:831-833 | it has as many errors as devices that failed |
| `CliFanOut.ConnectionsInOrder` | pkg/cli/cli.go:827-834 | each connection is printed with its own device, in order, and every device is either printed or failed |
| `CliFanOut.ListHostCVDsInner` | pkg/cli/cvd.go:263-276 | the filling loop yields each device of the host in order with the status its full locator has, or the host's error |
| `CliFanOut.ListHostCVDs` | pkg/cli/cvd.go:253-260 | one host is listed over the statuses filtered by host, the service's error appended to earlier ones |
| `CliFanOut.FilterKeepsLookups` | pkg/cli/conn.go:112-122 | filtering the statuses by host never changes what a listing of that host finds |
| `CliFanOut.ListingAt` | pkg/cli/cvd.go:263-276 | the devices of each host follow those of the hosts before it, in the order of the service, each with the status its full locator has |
| `CliFanOut.HostWithoutDevices` | pkg/cli/cvd.go:242-249 | a host that fails or has no devices adds nothing |
| `CliFanOut.CollectListings` | pkg/cli/cvd.go:241-250 | the concurrent listing over one status map is the concatenation, in host order, of the filtered listings of each host; exactly the failed hosts are named, in order, each wrapping a nil cause |
| `CliFanOut.ErrorsOfHosts` | pkg/cli/cvd.go:241-260 | both ways of listing report an error for as many hosts; every one of the simple way has a cause, none of the concurrent way does |
| `CliFanOut.ErrorsIffAnyFails` | pkg/cli/cvd.go:245-247 | the concurrent listing reports an error if and only if some host fails |
| `CliFanOut.ErrorsAgreeOnlyWithoutFailure` | pkg/cli/cvd.go:245-257 | both ways report the same causes in the same order if and only if no host fails |
| `CliFanOut.CauseIsLost` | pkg/cli/cvd.go:246 | with one host that fails, its text is the cause in the simple way, and nothing is in the concurrent way |
| `CliFanOut.ListingSeesEveryHost` | pkg/cli/cvd.go:231-249 | in every interleaving that returns, the loop has got each host's own listing |
| `Sessions.InMemoryDB.constructor` | pkg/app/database/memorydb.go:33-37 | a new store has no session and no credentials |
| `Sessions.InMemoryDB.CreateOrUpdateSession` | pkg/app/database/memorydb.go:53-56 | the one slot holds the new session |
| `Sessions.InMemoryDB.FetchSession` | pkg/app/database/memorydb.go:58-64 | finds the session in the slot if its key is asked for |
| `Sessions.InMemoryDB.DeleteSession` | pkg/app/database/memorydb.go:66-71 | empties the slot if it has that key |
| `Sessions.App.AuthHandler` | pkg/app/app.go:248-259 | issues a session for a fresh state |
| `Sessions.App.DeAuthHandler` | pkg/app/app.go:328-351 | issues a session for a fresh token exactly when the user has credentials |
| `Sessions.App.FetchCookieSession` | pkg/app/app.go:416-427 | fails without a cookie or without a session for it |
| `Sessions.App.ParseAuthorizationResponse` | pkg/app/app.go:292-326 | succeeds if and only if the state is accepted and a code came; an accepted state is used up in either case |
| `Sessions.App.RescindAuthorization` | pkg/app/app.go:353-389 | removes the user's credentials if and only if the token is accepted, even if the provider fails to revoke; an accepted token is used up |
| `Sessions.SlotFollowsKeyed` | pkg/app/database/memorydb.go:53-71 | after any requests the slot is empty or holds what a keyed store holds too |
| `Sessions.SlotIsLive` | pkg/app/database/memorydb.go:53-71 | after any requests the slot holds the last session issued that was neither replaced nor used up, and is empty if there is none |
| `Sessions.AcceptedIffLive` | pkg/app/app.go:248-377 | a request is accepted if and only if it presents the session of an earlier request that no other has since replaced or used up, or, where there is none, the empty session |
| `Sessions.SlotRefinesKeyed` | pkg/app/database/database.go:28-33 | of the requests the one-slot store accepts, a keyed store meeting the interface accepts exactly those with a non-empty cookie |
| `Sessions.EmptyCookieAccepted` | pkg/app/database/memorydb.go:58-64 | a request with an empty cookie is accepted if and only if its state is empty and the slot is |
| `Sessions.AcceptedStateIsEmpty` | pkg/app/app.go:307-314 | an accepted request has an empty state if and only if it has an empty cookie |
| `Sessions.KeyedSingleUse` | pkg/app/database/database.go:28-33 | a keyed store accepts each state at most once |
| `Sessions.RepeatedStateIsEmpty` | pkg/app/app.go:312-369 | two accepted requests with the same state have an empty state and an empty cookie both |
| `Sessions.SingleUse` | pkg/app/app.go:312-369 | whatever the cookies, each state is accepted at most once in a run, across callbacks and rescissions (section 10.12 of RFC 6749), if and only if at most one request with an empty cookie is accepted |
| `Sessions.EmptyStateAcceptedAgain` | pkg/app/app.go:307-318 | a callback with an empty cookie and an empty state is accepted on an empty slot any number of times |
| `Sessions.DeletedIsGone` | pkg/app/database/memorydb.go:58-71 | a deleted key is not found, if and only if it is not the empty key looked up in an empty slot |

## Left out

- External calls (HTTP transport, JSON and multipart encoding, WebRTC itself, file system, OAuth2 exchange, encryption, Spanner and other cloud services): their results are parameters or nondeterministic steps.
- Wall-clock time and jitter: a back-off is a finite number of retries between two resets, so MaxElapsedTime is taken to be non-zero; with zero the workers may retry forever.
- UploadSafety.NilMeansDelivered: files do not change during the upload and their base names are distinct, since the server sees base names only; the receiver places payload n at (n-1) * ChunkSizeBytes as `pkg/client/client.go:603-604` describes, its own code is not part of this repository. An empty file has no chunks, so nothing is sent for it.
- Chunks.TotalChunksIsLeastCover: the chunk size is positive; a zero one makes the code divide by zero. int is taken to be 64 bits wide.
- Signalling.ChannelSafety: of the panics only those of channel operations are covered; a device that requests an offer, a message that cannot be reshaped and a payload of an unexpected type are not modelled. The sync.Once hand-off of NewConnectionWithLogger is not modelled.
- Cascade.ShutdownCompletes: the callbacks make finitely many further calls, the forwarder is scheduled fairly, a closed stop channel wins the select, and every HTTP request comes back.
- Polling.GoPollerIsExact: a request that fails yields no messages.
- Polling.PollingConnector.PollerRoutine: a callback that throws, and an error response whose body is not a list, are not modelled. That a poll is due is a flag of its own; the code keeps the identifier of its last timer.
- Forwarding.AcceptedIsPrefix: a failed POST is taken as not applied by the server. What a retried request reads from an already consumed body, and errors while dumping requests, are not modelled.
- AdbForwarder.Forwarder.StopForwarding: the data channel has been set before, as NewConnectionWithLogger does; codes other than Stopped and Failed, which no caller passes, are excluded.
- AdbLifecycle.ConnectionCustody: a critical section that touches only what the mutex protects is one step, except StopForwarding, which closes its sockets one by one. The unsynchronised read of f.conn in Send is modelled only as a call of its own.
- AdbLifecycle.StopEndsTheLoop: that a blocked read or accept returns once its socket is closed is taken as a step that can then happen; which bytes recvLoop copies is not modelled.
- AdbUse.ServesOnIffUsable: while the data channel has not been opened, it is about states in which a callback can still open it.
- AdbMessages.Connect: ports are 0..65535, and a successful write takes at least one byte.
- AdbMessages.Disconnect: as for Connect.
- The control socket's version and status replies, and its files.
- PageStore.RuntimesListed: aliases are not claimed to be unique, because runtimes are appended without a check.
- PageCards.EnvIsUnderItsHost: the card lists the hosts of all runtimes, as the code does, so that a host belongs to the card's runtime is not claimed. The order in which Object.values visits the waits is a parameter.
- Zones and kind of a runtime, and what a device description holds; the other selectors, error actions without a reducer beyond their doing nothing, and the Angular components.
- CliFanOut.CollectListings: the statuses are read once, and a failing ListHosts, which ends the command before the loop, is not modelled.
- CliFanOut.CollectConnections: errors carry the text the goroutine gave them; prompting for devices, and the disconnect command, are not modelled.
- Sessions.SingleUse: handlers run without interruption (of two overlapping requests both could match), the random keys and states are new and not empty, and the database does not fail.
- Creating and deleting hosts and devices, fetching artifacts, configuration, account managers and the server's proxying are not modelled.
