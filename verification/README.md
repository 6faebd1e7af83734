# A verified model of the OpAMP client and its configuration merge

The library talks OpAMP to a management server on behalf of an agent. An embedder polls it; every poll
triggers one step of a six-state machine, and the step calls one operation of a transport: connect,
handshake, poll, send or wait. This project models that machine, the HTTP transport that is the default, the
websocket transport's poll and flush, and the deep merge of two YAML configurations, and proves what holds
over whole runs.

How it is put together:

- `State.dfy` is the state machine over any transport. A run is the sequence of outcomes the transport
  gave, so a statement about all sequences is one about all transports.
- `World.dfy` fixes, for one run, the clock (the i-th reading), the network (the fate of the i-th HEAD, the
  i-th POST, the i-th frame) and the embedder's callbacks (each answer a function of all calls so far). They
  are arbitrary functions, so "for all worlds" is "for all runs, whatever fails and whatever is answered".
- `HttpClient.dfy` and `WsClient.dfy` are classes with the clients' fields, updated in place, with the loops
  of `send` and `flush`. Each method is proved to do what a function in `HttpModel.dfy` or `WsModel.dfy`
  says. `HttpApi.dfy` and `WsApi.dfy` tie a handle polled n times to `Run(w, n)`, the n-th state of a run.
- `Plan.dfy` describes the message dispatch a second time, as a table, and `Contents.dfy` says field by field what
  a message from the server brings about and what the clients' own messages hold, independently of both.
  `HttpContents.dfy` and `WsContents.dfy` prove it of whole runs.
- `HttpRuns.dfy` tells one trigger by its effects (`Moves`) and defines `Run`; `HttpLedger.dfy`,
  `HttpOpening.dfy`, `HttpHeartbeat.dfy`, `HttpService.dfy`, `HttpMetronome.dfy`, `HttpBacklog.dfy`,
  `HttpDrain.dfy`, `HttpProgress.dfy` and `WsRuns.dfy` hold the invariants and the results about runs. `Agreement.dfy` compares
  the two clients.
- `ConfigMerge.dfy` is the merge, its remove/insert loop, and its algebra.

Outside what a client keeps, the model records each queued message's origin (which push enqueued it) and a
journal of the run (attempts, batches, replies, messages processed, pauses). No modelled code reads them.

## Where the code and its documentation part

- `src/lib.rs:106` announces a generated poll message every 60 seconds. The code waits for 30 seconds of
  silence (`src/httpclient/mod.rs:17`), and the model follows the code.
- `src/lib.rs:163-164` says polling once every 30 seconds is enough. It is enough for the server to hear from
  the agent, but not for the agent to hear from the server. A poll looks at the inbox only if no heartbeat is
  due, and a reply is looked at two triggers after it came at the earliest. With 15 seconds or more between
  the end of one trigger and the start of the next, and nothing failing, no reply is ever processed
  (`SlowTriggersStarve`) and the inbox grows without end (`InboxGrowsForever`). `TwoTriggersLater` gives the
  exact condition, and for evenly spaced triggers the bound is exactly 15 seconds (`PeriodDecides`): in the world
  of `MetronomeWorldDecides` only the period differs, and it alone decides whether replies are looked at.
- However promptly it is polled, a client whose `on_loop` always answers never gets to some of its replies,
  because the inbox is a stack: not to that of the handshake (`HandshakeReplyStays`), nor to any reply of a batch
  but the last. `ServedIff` says exactly which replies are processed, and `BusyWorldBuries` shows a run in which one
  of two replies is not.
- The two transports do not treat every poll alike: a websocket poll of a healthy client consults `on_loop`
  whether or not a message came, an HTTP poll only after a message (`IdlePollsDiffer`). `PollsAgreeIff` says exactly
  when they agree. Their dispatches differ over an unhealthy agent only, and no poll dispatches for one
  (`UnhealthyPollsTakeNothing`).
- The comment on `backoff` (`src/httpclient/mod.rs:32-35`) speaks of milliseconds to wait. The field counts
  failures; the pause is two to that power, in seconds. With a retry limit of 64 or more the power leaves 64
  bits; `TotalPause` says exactly when the pauses add up as intended.
- After the retry limit the client does not stop: the error only leads back to Disconnected, and the next
  attempt follows without a pause.
- The merge is not associative in general (`NotAlwaysAssociative`) and not idempotent in general
  (`NotAlwaysIdempotent`); `AssociativeIff` and `IdempotentIff` say exactly when it is.

## Model

| member | source | states |
|---|---|---|
| StateMachine.StateTellsHistory | src/state.rs:35-75 | For every channel and every run, the state reached is described by the history of calls alone: which call came last, how it came out, and whether a session (accepted connect, then accepted handshake, then only survivable answers) is still on |
| StateMachine.HistoryTellsState | src/state.rs:35-75 | No history fits two different states, so the description of each state is exact in both directions |
| StateMachine.CallsAreOrdered | src/state.rs:37-74 | At every position of every run: poll, send and wait are called only inside a session, handshake only right after an accepted connect, send only on a reply to handshake or poll, wait only after a send reply or a silent wait |
| StateMachine.SessionStep | src/state.rs:40-73 | A session goes on exactly through a survivable poll, send or wait, or begins with an accepted handshake straight after an accepted connect |
| StateMachine.LogTellsHistory | src/state.rs:38-73 | The line a state carries is what the last answer of the history said that was not a silent poll or wait, and nothing straight after a trigger that called nothing |
| HttpTransport.HttpClient.constructor | src/httpclient/mod.rs:66-87 | A new client has sent, received and queued nothing and is disconnected |
| HttpTransport.HttpClient.GetStatus | src/httpclient/mod.rs:217-252 | Builds the full state at the first call only, asking for the configuration and then the features, with the answers to both, the id, the description and unhealthy since now, field by field; afterwards returns the cached state and asks nothing |
| HttpTransport.HttpClient.SetHealth | src/httpclient/mod.rs:194-202 | Changes the cached state's health flag and no other field; where nothing is cached yet it first builds the full state, with its two questions and its clock reading |
| HttpTransport.HttpClient.GetHealth | src/httpclient/mod.rs:204-215 | The cached health with the present time cut to 64 bits; needs what the two unwraps need |
| HttpTransport.HttpClient.Connect | src/httpclient/mod.rs:261-300 | Any status but 404 connects; no answer counts a failure and either pauses or, past the limit, gives up |
| HttpTransport.HttpClient.Handshake | src/httpclient/mod.rs:302-313 | Queues the full state |
| HttpTransport.HttpClient.Dispatch | src/httpclient/mod.rs:351-458 | The branches of the dispatch in the source's order: command, error, full state or child health, remote configuration, the three connection offers, packages |
| HttpTransport.HttpClient.ProcessTop | src/httpclient/mod.rs:351-477 | Takes the last message received, dispatches it, and then consults on_loop |
| HttpTransport.HttpClient.Attend | src/httpclient/mod.rs:335-351 | A heartbeat, holding the id and nothing else, if 30 seconds have passed since the last request, else nothing without mail, else the top message |
| HttpTransport.HttpClient.Poll | src/httpclient/mod.rs:315-478 | First turns an unhealthy client healthy and queues its id and its health of this moment, and nothing else; whatever is queued is flushed before anything else |
| HttpTransport.HttpClient.SendAndReceive | src/httpclient/mod.rs:104-119 | Takes the next number and the time, and stamps number, capabilities and flags on the message |
| HttpTransport.HttpClient.Send | src/httpclient/mod.rs:480-496 | The loop over the taken outbox: replies go on top of the inbox, the first failure ends the loop and the rest is dropped |
| HttpTransport.HttpClient.Trigger | src/httpclient/mod.rs:503-508 | One step of the machine on this client, from any state of a run |
| HttpApi.Api.constructor | src/api.rs:152-159 | A new handle's client is at the start of its world's run |
| HttpApi.Api.Poll | src/api.rs:182-184 | The n-th poll of a handle takes its client to the n-th state of its world's run, so all statements about runs hold of the object |
| HttpRuns.Run | src/httpclient/mod.rs:315-496 | In every reachable state the outbox is non-empty exactly in Sending, and from Sending on the cached state and its health are there, so the unwraps never fail |
| HttpRuns.TriggerMoves | src/httpclient/mod.rs:261-508 | Every trigger is one of a few kinds of move with a stated effect on every field |
| HttpRuns.RunIsDriven | src/httpclient/mod.rs:503-508 | The client's state is the machine's, driven by the outcomes of its own operations, so the ordering of calls holds of it |
| HttpRuns.SendingAttempts | src/httpclient/mod.rs:480-496 | Every Sending step attempts at least one request and leaves the outbox empty |
| Plans.DispatchFollowsPlan | src/httpclient/mod.rs:351-458 | The dispatch does exactly what a table drawn up from the message says, in that order |
| Plans.ExecuteAccount | src/httpclient/mod.rs:351-458 | Dispatching makes exactly the planned calls and queues exactly their replies and the full-state report, in order |
| Plans.PlannedCalls | src/httpclient/mod.rs:351-458 | Every call the dispatch makes shows the callback the very message dispatched, and none is on_loop or a start-up question |
| Plans.AsksNobodyIff | src/httpclient/mod.rs:351-458 | The dispatch calls on nobody if and only if the message has no command, error, remote configuration, packages or connection offer, and no request for another agent's full state |
| Contents.FullStateBit | src/httpclient/mod.rs:371-376 | The full state is asked for exactly if the flags are odd |
| Contents.PlanShows | src/httpclient/mod.rs:351-458 | The calls of a dispatch are exactly one for each part of the message, in the source's order: command, error, another agent's health if the flags are odd, remote configuration, each of three connection offers, packages |
| HttpSteps.PollAccount | src/httpclient/mod.rs:315-478 | A poll reports, beats, rests or serves, and each kind changes exactly what is listed |
| HttpSteps.ServeAsksOnce | src/httpclient/mod.rs:461-471 | Serving a message consults on_loop once and asks no start-up question |
| HttpSteps.FlushAdvances | src/httpclient/mod.rs:484-494 | Number, clock, wire, inbox and replies advance by exactly the attempts made |
| HttpSteps.FlushTakesAll | src/httpclient/mod.rs:482-494 | Attempts followed by drops are the whole outbox in order |
| HttpSteps.FlushShape | src/httpclient/mod.rs:489-493 | Only the last attempt of a batch can have failed, and only then is anything dropped |
| HttpSteps.FlushAttempts | src/httpclient/mod.rs:110-118 | Attempt i of a batch is pending message i, stamped with the i-th number from here and timed by the i-th clock reading |
| HttpLedger.Conservation | src/httpclient/mod.rs:480-496 | In every run with arbitrary failures, each message ever enqueued was tried, dropped or is still queued, and exactly one of these; the tried ones in order are the wire, the queued ones the outbox |
| HttpLedger.DroppedBehindFailure | src/httpclient/mod.rs:489-493 | Dropped messages are those behind a failed request of the same batch, and every batch attempts something |
| HttpLedger.LosslessWithoutFailures | src/httpclient/mod.rs:480-496 | Without failures, enqueued is attempted followed by outbox |
| HttpLedger.ContiguousNumbering | src/httpclient/mod.rs:110-111 | Over batches, failures and drops, the requests carry exactly 1, 2, ..., seqno in order |
| HttpLedger.InboxConservation | src/httpclient/mod.rs:345-351 | The received messages are the replies on the wire, and as a multiset they are those processed and those in the inbox |
| HttpOpening.OpeningExchange | src/httpclient/mod.rs:302-333 | Whatever fails, the first request is the full state, number 1, unhealthy, and the second the client's own health report, number 2, healthy |
| HttpOpening.OpenedOnce | src/httpclient/mod.rs:302-333 | Each of these two is enqueued at most once a run |
| HttpOpening.StableCapabilities | src/httpclient/mod.rs:113-118 | get_configuration and get_features are consulted at most once a run, and every message on the wire is the queued one with that one answer and its number |
| HttpContents.ServedMessage | src/httpclient/mod.rs:351-477 | A healthy client with mail and in time shows the top message to exactly the callbacks it is for and consults on_loop; it queues exactly one report of its full state if the flags are odd and the id its own, else none, and every answer in order |
| HttpContents.HealthReportFires | src/httpclient/mod.rs:315-330 | An unhealthy client that polls changes its health flag and no other field, and queues its id and its health of this moment and nothing else |
| HttpContents.RunIsTold | src/httpclient/mod.rs:217-477 | The calls of a run are the two start-up questions and then, for each message processed, those it is for and on_loop; the answers queued are all that callbacks gave, in order, and no other; the full state is reported once for each processed message that asks for it |
| HttpContents.WireContents | src/httpclient/mod.rs:104-343 | Whatever fails, every request holds what its origin promises, field by field: the full state with the id, the description, the configuration as answered and the health since the start, unhealthy in the handshake and healthy later; the health report and the heartbeat with the id and otherwise unset; or an answer some callback gave |
| HttpContents.OpeningContents | src/httpclient/mod.rs:217-333 | The first two requests of any run in full |
| HttpOpening.OneLoopPerMessage | src/httpclient/mod.rs:461-471 | The number of on_loop calls is the number of messages processed |
| HttpHeartbeat.HeartbeatSpacing | src/httpclient/mod.rs:335-343 | With a clock that never goes back, every heartbeat on the wire is 30 seconds or more after the request before it |
| HttpHeartbeat.HeartbeatAlone | src/httpclient/mod.rs:331-343 | A heartbeat is the only message of its batch |
| HttpHeartbeat.HeartbeatFires | src/httpclient/mod.rs:337-343 | A healthy polling client queues a heartbeat exactly when idle for the delay, then exactly that one, and goes on to send it |
| HttpService.TwoTriggersLater | src/httpclient/mod.rs:337-351 | Two triggers after a successful send of a healthy client, its last reply is processed if and only if the idle check then reads less than the delay since that send |
| HttpService.ServiceBound | src/httpclient/mod.rs:337-351 | If a successful send of a healthy client and the two triggers after it read the clock within less than the delay, its last reply is processed by the second of them |
| HttpService.PromptTriggersServe | src/httpclient/mod.rs:337-351 | The same if these three triggers start at most d apart and the last reads the clock within e of its start, with 2d + e below the delay; how long requests take, and all other triggers of the run, do not matter |
| HttpService.NeverServed | src/httpclient/mod.rs:337-351 | If what is read after a trigger is always the delay or more after what was read before it, and nothing fails, nothing is ever processed and the inbox holds everything received |
| HttpService.SlowTriggersStarve | src/httpclient/mod.rs:337-351 | The same for any schedule with half the delay or more between the end of a trigger and the start of the next |
| HttpService.InboxGrowsForever | src/httpclient/mod.rs:345-351 | In such a run the inbox takes in one reply every three triggers and gives up none |
| HttpMetronome.PeriodDecides | src/httpclient/mod.rs:337-351 | For instantaneous triggers at a fixed period, with nothing failing, a healthy client's send is served two triggers later if and only if the period is below 15 seconds |
| HttpMetronome.MetronomeStarves | src/httpclient/mod.rs:337-351 | In any world that answers every request at once, with readings taken as triggers come at a period of 15 seconds or more, the schedule has its half-delay gaps and nothing is ever processed, whatever the callbacks answer |
| HttpMetronome.SteadyCounts | src/httpclient/mod.rs:315-496 | In a metronomic world where the period is 15 seconds or more, before trigger 8 + 3k no message has been processed and 2 + k are left; at a shorter period, if on_loop always answers, no other callback does and the server never asks for this agent's full state, exactly k have been processed and two are left (the lower one the handshake's, by `HandshakeReplyStays`) |
| HttpMetronome.MetronomeWorldDecides | src/httpclient/mod.rs:315-496 | Such a world exists for every period: it is scheduled with starts one period apart, nothing fails, from 15 seconds on the gaps are half-delay gaps, and the counts are those above |
| HttpMetronome.MetronomeWorldStarves | src/httpclient/mod.rs:337-351 | In it nothing is processed at any trigger, for each period of 15 seconds or more, 30 seconds among them |
| HttpDrain.DrainsInReverse | src/httpclient/mod.rs:345-478 | With callbacks that do not reply, no full-state request for this agent and time in hand, k polls process the top k messages in the reverse of their arrival and leave the rest |
| HttpBacklog.ServedIff | src/httpclient/mod.rs:315-496 | If nothing fails and on_loop always answers, a reply is ever processed if and only if it answers the last message of its batch, the client was healthy when it sent it, and the idle check two triggers later reads less than the delay since; so the reply to the handshake never is |
| HttpBacklog.HandshakeReplyStays | src/httpclient/mod.rs:302-351 | In such a run the reply to the handshake lies at the bottom of the inbox from two triggers after the client is connected on, for good |
| HttpBacklog.BuriedForGood | src/httpclient/mod.rs:345-496 | In such a run the reply to each message of a batch but the last stays where it came to lie in the inbox, and so does all that lay below |
| HttpBacklog.BusyWorldBuries | src/httpclient/mod.rs:345-496 | Such a run exists: in a world where time stands still, every reply holds a command and every callback answers, trigger 9 sends two messages, and of their replies the first is never processed and the second is |
| HttpProgress.ConnectsAt | src/httpclient/mod.rs:261-300 | If HEAD k is the first answered other than 404, the client is Connected after exactly 2k + 2 triggers |
| HttpProgress.NeverReopens | src/state.rs:47-73 | Past the handshake the client never returns to Disconnected, Connecting or Connected |
| HttpProgress.SilentUntilPresent | src/httpclient/mod.rs:261-300 | As long as no HEAD is answered so, nothing is queued, asked or sent |
| HttpProgress.PollsAgain | src/state.rs:54-73 | From Polling the client is in Polling again within 3 triggers, whatever the requests come to |
| HttpProgress.PollsWithinFive | src/state.rs:37-74 | Polling is at most 5 triggers away from any reachable state, if a client yet to connect has its next HEAD answered other than 404, whatever the POST requests come to |
| HttpProgress.PollsIffPresent | src/state.rs:37-74 | A run ever polls if and only if some HEAD is answered other than 404 |
| HttpProgress.BackoffArithmetic | src/httpclient/mod.rs:280-297 | With k unanswered HEADs and limit R: the counter is k, the errors max(0, k - R), the pauses 2^(min(k, R, 63) + 1) - 2 seconds |
| HttpProgress.PauseFits | src/httpclient/mod.rs:293 | The 64-bit power that gives the pause is exact up to 63 failures and zero from 64 on |
| HttpProgress.TotalPause | src/httpclient/mod.rs:280-297 | The pauses are 2^(min(k, R) + 1) - 2 seconds exactly if min(k, R) is at most 63 |
| WsTransport.WsClient.GetStatus | src/wsclient/mod.rs:127-162 | As for HTTP, field by field, in the websocket's own copy |
| WsTransport.WsClient.SetHealth | src/wsclient/mod.rs:103-112 | The same in the websocket's copy; at the first connect it is what builds the full state |
| WsTransport.WsClient.Dispatch | src/wsclient/mod.rs:241-347 | The websocket's copy of the dispatch, with its extra set_health(true) before a full-state report |
| WsTransport.WsClient.Poll | src/wsclient/mod.rs:215-368 | Reports health first, the id and the health of this moment and nothing else; then one frame is received and dispatched if it is a message, and on_loop is consulted either way |
| WsTransport.WsClient.Flush | src/wsclient/mod.rs:63-89 | The stamping loop puts every pending message on the wire in order, with one answer's capabilities and flags and consecutive numbers, and empties the outbox |
| WsTransport.WsClient.Trigger | src/wsclient/mod.rs:380-385 | One step of the machine on this client |
| WsApi.Api.constructor | src/api.rs:141-149 | A new websocket handle's client is at the start of its world's run |
| WsApi.Api.Poll | src/api.rs:182-184 | The n-th poll of a handle takes its client to the n-th state of its world's run |
| WsRuns.WireIsWhatWasEnqueued | src/wsclient/mod.rs:63-89 | In every run on an established stream: enqueued is sent followed by outbox, numbers are 1, 2, ..., seqno, capabilities and flags what get_features answers as the second call of the run |
| WsRuns.StableCapabilities | src/wsclient/mod.rs:63-89 | In every such run get_configuration and get_features are consulted at most once, and every message sent is the queued one with that one answer and its number |
| WsContents.ServedFrame | src/wsclient/mod.rs:236-368 | A healthy client shows its next frame, if it is a message, to exactly the callbacks it is for and consults on_loop; it queues exactly one report of its full state if the flags are odd and the id its own, else none, and every answer in order |
| WsContents.HealthReportFires | src/wsclient/mod.rs:215-229 | An unhealthy client that polls changes its health flag and no other field, and queues its id and its health of this moment and nothing else |
| WsContents.RunIsTold | src/wsclient/mod.rs:127-368 | As for HTTP, the calls, the answers and the reports of a run follow from the frames received |
| WsContents.WireContents | src/wsclient/mod.rs:63-229 | Every message sent holds what its origin promises, field by field |
| WsContents.OpeningContents | src/wsclient/mod.rs:127-229 | The first two messages of any run in full |
| WsRuns.OneLoopPerFrame | src/wsclient/mod.rs:230-360 | The number of on_loop calls is the number of frames received, messages or not |
| WsRuns.OpeningExchange | src/wsclient/mod.rs:201-230 | In every such run the first message sent is the full state, number 1, unhealthy, and the second the client's own health report, number 2, healthy |
| WsRuns.OpenedOnce | src/wsclient/mod.rs:201-230 | Each of these two is enqueued at most once a run |
| WsRuns.TriggerMoves | src/wsclient/mod.rs:171-385 | The whole client after a trigger of each kind; a healthy poll makes exactly the calls planned for its frame and then on_loop, and queues exactly what they and the agent answer |
| Agreement.DispatchAgreesIff | src/wsclient/mod.rs:258-272 | From equal agent state, outbox and callback history the two dispatches do the same if and only if the agent is healthy or the message does not ask for its full state; polls turn an unhealthy agent healthy before they look for messages, so where a poll dispatches the two always agree |
| Agreement.PollsAgreeIff | src/wsclient/mod.rs:215-368 | From equal agent state, outbox, callback history and clock the two polls make the same calls in the same order, build the same outbox, leave the same agent state and return the same response if and only if something is still to be flushed, or the agent is unhealthy, or HTTP has mail inside the poll window and the websocket's frame is like it: the same message, or neither is for a callback and both or neither ask for the full state |
| Agreement.PollsAgree | src/wsclient/mod.rs:215-368 | In particular they agree on one and the same message |
| ConfigMerge.MergeValues | src/extras/config.rs:98-117 | The remove/insert loop computes the pointwise merge whatever the order in which it takes the source's entries |
| ConfigMerge.MergeIff | src/extras/config.rs:98-117 | The merge is the one value that at every path holds the source's leaf, or the destination's list followed by the source's, or the keys of both mappings, or, where a mapping of the source lacks the key, what the destination holds |
| ConfigMerge.MergeAt | src/extras/config.rs:100-115 | What the merge holds at every path, from what destination and source hold there and where the source leaves the path |
| ConfigMerge.SourceWins | src/extras/config.rs:100-115 | At each path of the source: its scalars stand, its sequences end the merged ones, and a mapping's keys are the union |
| ConfigMerge.IdempotentIff | src/extras/config.rs:98-117 | Merging a source twice is merging it once if and only if no non-empty sequence is reachable in it through mappings |
| ConfigMerge.NotAlwaysIdempotent | src/extras/config.rs:111-114 | A list of one item merged into itself once and once more gives two items and then three |
| ConfigMerge.SwallowsIff | src/extras/config.rs:98-117 | A merge is the source itself if and only if, wherever both hold something, the source has all the destination's keys and the destination no list items |
| ConfigMerge.AssociativeIff | src/extras/config.rs:98-117 | The two ways to merge three values agree if and only if, wherever all three hold something, a first and third container of one kind with a different thing between them leave no trace of the first |
| ConfigMerge.SameShapesAssociate | src/extras/config.rs:98-117 | In particular they agree if the middle value is a container of the same kind wherever the outer two are |
| ConfigMerge.NotAlwaysAssociative | src/extras/config.rs:115 | A scalar between two mappings makes the two ways differ |

## Left out

- HTTP, websocket and TLS transfer, headers, timeouts, compression and protobuf encoding: a request is delivered with a reply or fails, as the world says. Panics while decoding a reply are not modelled.
- The websocket connection: a failed connect reports `StateResponse::None`, which counts as connected, so the later unwrap of the stream can fail. The websocket model takes the stream to be established and sends to succeed.
- WsModel.Connect: always succeeds and so never touches the backoff counter, because of the line above.
- The retry limit is a constant of the world: the environment variable is read at each failure in the source, and a value that is no number panics there.
- 64-bit wrap-around of the sequence number and 32-bit wrap-around of the failure counter: both are unbounded here. The overflow of the power of two is modelled as wrapping, as in a release build; a debug build panics instead.
- The error arms around `get_status`, and of `trigger` around `evaluate`: neither ever returns an error.
- The contents of the agent description, remote-config status and package statuses: opaque, since nothing reads them.
- Calls that an embedder makes to a client's operations other than through `trigger`.
- Locks, async scheduling and logging: a trigger is atomic.
- Order of entries in a merged mapping: mappings are compared as maps.
- Tagged YAML values are leaves, since the merge never descends into them.
- `read_yaml_files`, `merge`'s file handling, and the launcher: file and process handling with no logic of their own.
