# Wedding site core, modelled in Dafny

This project models the logic of a wedding invitation site: its realtime client, the
polling endpoint behind the client's fallback, the hook that feeds the client's events
into React state, the local message wall, and a set of small, self-contained rules (media
prioritising, the countdown, phone links, the guest list, the RSVP form, the music player
card and hook, keyboard and swipe navigation, and the design-token stylesheet).

The realtime client (`RealtimeClient`) is a class with the fields of the source's
`RealtimeClient`. Anything the browser does on its own schedule is an explicit method:
the socket opening, delivering a frame, erroring or closing, and a reconnect, poll,
heartbeat, mock-load or request timer firing. A fetch settling is one more method. It is
also a parameter where the source awaits it. Each method is proved equal, on the whole
object, to a step function on the value `State`. Each public method also keeps the client invariant:
- the listener sets hold no duplicates;
- fallback polling always has a polling state;
- the attempt counter stays within the retry budget;
- every request id is below the request counter;
- every vote filter's handle is below the handle counter, so each `subscribeVotes` call
  registers a closure of its own.

The life-cycle properties are lemmas about the step functions (`RealtimeClientProps`).
These include:
- the backoff sequence;
- the escalation to polling or mock mode after the budget is spent;
- the polling cursor;
- the listener registry with set semantics;
- request/response through one-shot handlers;
- a callback that throws, which ends the dispatch it is part of.

Four behaviours that look unintended are modelled exactly as the code has them, and
lemmas exhibit them:
- a mock-mode like appends the client id even when it is already there;
- a request that times out keeps its one-shot handler registered;
- `onerror` followed by an unclean `onclose` uses two attempts and two reconnect timers,
  and the second overwrites the first's handle;
- the polling fallback counts `retryCount` but never compares it with `maxRetries`.

The remaining modules follow their files: pure code becomes functions with lemmas.
Loops and in-place updates become methods proved against those functions: media
deduplication, RSVP validation, the token serialiser, and the keyboard handler's
branches. Component state becomes classes whose methods state the whole new state:
the wall, the RSVP modal, the music player card and hook, and the touch handlers.
`localStorage` is an object with a field per key.

The clock, random suffixes, socket construction, `fetch` results and the host name
sniffing are parameters.

## Model

| member | source | states |
|---|---|---|
| Registry.Insert | lib/realtime/websocket-client.ts:408-413 | adding a callback to a `Set` leaves it unchanged when present, appends it at the end otherwise, and keeps it duplicate-free |
| Registry.Delete | lib/realtime/websocket-client.ts:415-417 | the callback is absent afterwards, every other member is kept, an absent callback changes nothing, and no duplicate appears |
| Registry.On | lib/realtime/websocket-client.ts:408-413 | after `on(t, cb)` the type has a set and `cb` is in it |
| Registry.OnKeepsOthers | lib/realtime/websocket-client.ts:408-413 | `on` for one type leaves the callbacks of every other type as they were |
| Registry.OnKeepsWellFormed | lib/realtime/websocket-client.ts:408-413 | `on` keeps every type's set free of duplicates |
| Registry.Off | lib/realtime/websocket-client.ts:415-417 | after `off(t, cb)` the callback is gone from `t`'s set, every other callback and every other type is kept, and no duplicate appears |
| Registry.OnIdempotent | lib/realtime/websocket-client.ts:408-413 | registering the same callback twice is the same as once, so it is invoked once per event |
| Registry.OffUndoesOn | lib/realtime/websocket-client.ts:408-417 | `off` after `on` of a new callback restores the type's set |
| Registry.Invoke | lib/realtime/websocket-client.ts:307-355 | one callback throws exactly when it is a vote filter given a payload that is no vote update, or the echo waiter given `null` |
| Registry.VoteFilterForwardsOwnVote | lib/realtime/websocket-client.ts:323-332 | the vote filter delivers the payload to its subscriber exactly when it is an update of its own vote, and delivers nothing otherwise; it throws exactly on a payload that is no vote update; the registry and the requests are untouched |
| Registry.VoteFiltersDeliverMatching | lib/realtime/websocket-client.ts:323-332 | a dispatch to vote filters changes neither registry nor requests, delivers nothing and throws for a payload that is not a vote update, delivers only updates and only to subscribers of a filter for the updated vote, and, when nothing had thrown before, every such filter forwards the update |
| Registry.Settle | lib/realtime/websocket-client.ts:307-320 | resolving a request resolves it only while it is pending, clears its timer, and leaves every other request untouched |
| Registry.InvokeAll | lib/realtime/websocket-client.ts:401-404 | calling a type's callbacks in turn creates or drops no request, registers nothing new (a set only loses callbacks) and keeps the sets duplicate-free; after a throw it changes nothing |
| Registry.InvokeAllThrows | lib/realtime/websocket-client.ts:401-404 | a dispatch throws exactly when one of its callbacks throws on the payload |
| Registry.ThrowEndsInvokeAll | lib/realtime/websocket-client.ts:401-404 | once a callback has thrown, the callbacks after it are not invoked |
| Registry.FirstThrowStopsDispatch | lib/realtime/websocket-client.ts:401-404 | a dispatch whose k-th callback is the first to throw has the effects of the first k callbacks and none of the rest |
| Registry.InvokeAllDeliveries | lib/realtime/websocket-client.ts:401-404 | dispatch only appends deliveries: each new one carries the event's payload and goes to the subscriber of a subscriber callback or vote filter of the list; the request handlers deliver to no one |
| Registry.Emit | lib/realtime/websocket-client.ts:401-404 | an event type with no registered set changes nothing; no request is created, nothing new is registered and the sets stay duplicate-free |
| Registry.EmitAll | lib/realtime/websocket-client.ts:424-427 | dispatching several packets creates no request, registers nothing new and keeps the sets duplicate-free; after a throw it changes nothing |
| Registry.ThrowEndsEmitAll | lib/realtime/websocket-client.ts:236-241 | once a dispatch has thrown, the events after it are not dispatched |
| Registry.Fanout | lib/realtime/websocket-client.ts:401-404 | plain subscribers are called in insertion order, one delivery each |
| Registry.DispatchToSubscribers | lib/realtime/websocket-client.ts:401-404 | with only plain subscribers registered, dispatch appends exactly their deliveries in set order |
| Registry.SubscriberCalledOnce | lib/realtime/websocket-client.ts:401-413 | in a duplicate-free set each subscriber receives an event exactly once, and an unregistered one never |
| RealtimeClient.ResolveConfig | lib/realtime/websocket-client.ts:93-104 | every option given overrides its default; mock mode defaults to the preview-host test; the retry budget defaults to 0 in mock mode and 5 otherwise; the fallback defaults to on exactly when not in mock mode; the base reconnect delay defaults to 1000 ms, the heartbeat interval to 30000 ms and the fallback poll interval to 3000 ms |
| RealtimeClient.Schedule | lib/realtime/websocket-client.ts:197-199 | a scheduled timer is held and pending; scheduling over a held handle turns the earlier timer into a stray one that still runs |
| RealtimeClient.Clear | lib/realtime/websocket-client.ts:266-271 | clearing releases the held timer but not the stray timers whose handle was overwritten |
| RealtimeClient.Fire | lib/realtime/websocket-client.ts:197-199 | a firing consumes exactly one pending timer |
| RealtimeClient.SeedMessages | lib/realtime/websocket-client.ts:36-67 | mock mode starts with three messages with no likers, each created (and last updated) before the load time |
| RealtimeClient.SeedGuests | lib/realtime/websocket-client.ts:69-74 | mock mode starts with four online guests, each joined before the load time |
| RealtimeClient.Delays | lib/realtime/websocket-client.ts:191-199 | the k-th scheduled reconnect waits `reconnectDelay * 2^k` |
| RealtimeClient.Notices | lib/realtime/websocket-client.ts:429-432 | a status change reaches every status listener in registration order |
| RealtimeClient.PacketEvent | lib/realtime/websocket-client.ts:424-427 | a packet becomes the event of its own type and payload |
| RealtimeClient.PacketEvents | lib/realtime/websocket-client.ts:424-427 | each packet becomes one event of its own type and payload, in order |
| RealtimeClient.MockEvents | lib/realtime/websocket-client.ts:117-122 | the mock load emits one `message:new` per stored message, then one `guest:list` |
| RealtimeClient.FindMessage | lib/realtime/websocket-client.ts:361 | the index found is the first message with the id; none means no message has it |
| RealtimeClient.NewMessage | lib/realtime/websocket-client.ts:276-285 | an outgoing message carries the client's id, the content and name given, zero likes and no likers |
| RealtimeClient.InitialInv | lib/realtime/websocket-client.ts:80-109 | a new client satisfies the invariant |
| RealtimeClient.DispatchKeepsInv | lib/realtime/websocket-client.ts:401-404 | dispatching an event keeps the invariant |
| RealtimeClient.DispatchAllKeepsInv | lib/realtime/websocket-client.ts:424-427 | dispatching a list of events keeps the invariant |
| RealtimeClient.FailureKeepsInv | lib/realtime/websocket-client.ts:185-207 | the failure path keeps the invariant, in particular the attempt counter within the budget |
| RealtimeClient.ConnectKeepsInv | lib/realtime/websocket-client.ts:113-137 | `connect` keeps the invariant |
| RealtimeClient.DisconnectKeepsInv | lib/realtime/websocket-client.ts:139-142 | `disconnect` keeps the invariant |
| RealtimeClient.OpenKeepsInv | lib/realtime/websocket-client.ts:147-157 | the open handler keeps the invariant |
| RealtimeClient.MessageKeepsInv | lib/realtime/websocket-client.ts:159-166 | the message handler keeps the invariant |
| RealtimeClient.ErrorKeepsInv | lib/realtime/websocket-client.ts:168-172 | the error handler keeps the invariant |
| RealtimeClient.CloseKeepsInv | lib/realtime/websocket-client.ts:174-182 | the close handler keeps the invariant |
| RealtimeClient.ReconnectTimerKeepsInv | lib/realtime/websocket-client.ts:197-199 | a reconnect timer firing keeps the invariant |
| RealtimeClient.AbsorbPollKeepsInv | lib/realtime/websocket-client.ts:231-244 | absorbing a poll's result, including a callback's throw, keeps the invariant |
| RealtimeClient.PollResponseKeepsInv | lib/realtime/websocket-client.ts:224-246 | a poll response keeps the invariant |
| RealtimeClient.PollTimerKeepsInv | lib/realtime/websocket-client.ts:245 | a poll timer firing keeps the invariant |
| RealtimeClient.HeartbeatKeepsInv | lib/realtime/websocket-client.ts:258-264 | a heartbeat keeps the invariant |
| RealtimeClient.MockLoadKeepsInv | lib/realtime/websocket-client.ts:117-122 | the delayed mock load keeps the invariant |
| RealtimeClient.SendMessageKeepsInv | lib/realtime/websocket-client.ts:275-321 | `sendMessage` keeps the invariant, including fresh request ids |
| RealtimeClient.GetOnlineListKeepsInv | lib/realtime/websocket-client.ts:334-357 | `getOnlineList` keeps the invariant |
| RealtimeClient.TimeoutKeepsInv | lib/realtime/websocket-client.ts:307-309 | a request timeout keeps the invariant |
| RealtimeClient.LikeKeepsInv | lib/realtime/websocket-client.ts:359-374 | `likeMessage` keeps the invariant |
| RealtimeClient.OnKeepsInv | lib/realtime/websocket-client.ts:408-413 | registering an application callback or a request handler keeps the invariant |
| RealtimeClient.OffKeepsInv | lib/realtime/websocket-client.ts:415-417 | unregistering any callback keeps the invariant |
| RealtimeClient.TransmitKeepsInv | lib/realtime/websocket-client.ts:384-399 | sending a packet keeps the invariant |
| RealtimeClient.NewRequestKeepsInv | lib/realtime/websocket-client.ts:293-309 | opening a request under the next request id keeps every id below the counter |
| RealtimeClient.AwaitKeepsInv | lib/realtime/websocket-client.ts:293-319 | a request that registers a one-shot handler and sends its packet keeps the invariant |
| RealtimeClient.SubscribeVotesKeepsInv | lib/realtime/websocket-client.ts:323-332 | `subscribeVotes` keeps the invariant: the new closure's handle is the counter, which then grows |
| RealtimeClient.ListenerInputKeepsInv | lib/realtime/websocket-client.ts:408-417 | `on` and `off` keep the invariant |
| RealtimeClient.VoteSubscriptionInputKeepsInv | lib/realtime/websocket-client.ts:323-332 | `subscribeVotes` and its unsubscribe keep the invariant |
| RealtimeClient.CastVoteKeepsInv | lib/realtime/websocket-client.ts:376-382 | `castVote` keeps the invariant |
| RealtimeClient.SocketInputKeepsInv | lib/realtime/websocket-client.ts:113-271 | every socket, timer and connection input keeps the invariant |
| RealtimeClient.ApiInputKeepsInv | lib/realtime/websocket-client.ts:275-422 | every application call keeps the invariant |
| RealtimeClient.StepKeepsInv | lib/realtime/websocket-client.ts:80-457 | every input the client can receive keeps the invariant |
| RealtimeClient.RunKeepsInv | lib/realtime/websocket-client.ts:80-457 | any sequence of inputs keeps the invariant |
| RealtimeClient.Client.constructor | lib/realtime/websocket-client.ts:93-109 | the fields start disconnected with no socket, listeners, timers or attempts, and with the mock seeds; the configuration is the resolved options |
| RealtimeClient.Client.SetStatus | lib/realtime/websocket-client.ts:429-432 | the status becomes the new one and every status listener is called with it |
| RealtimeClient.Client.NoticesOf | lib/realtime/websocket-client.ts:429-432 | the loop over the status listeners produces one notice per listener, in order |
| RealtimeClient.Client.Send | lib/realtime/websocket-client.ts:384-399 | a packet with client and session ids is queued only when not in mock mode and the socket is open; otherwise nothing changes |
| RealtimeClient.Client.Emit | lib/realtime/websocket-client.ts:401-404 | dispatch of one event, as the registry specifies, and whether it threw |
| RealtimeClient.Client.EmitEffects | lib/realtime/websocket-client.ts:401-404 | the dispatch loop computes the registry's dispatch of the event |
| RealtimeClient.Client.InvokeEach | lib/realtime/websocket-client.ts:401-404 | the `forEach` over the type's set invokes each callback in set order, up to the first that throws |
| RealtimeClient.Client.Call | lib/realtime/websocket-client.ts:307-355 | invoking one callback: a subscriber receives the payload; the vote filter forwards its own vote's updates and throws on other payloads; a waiter whose echo matches removes itself and resolves its request; the echo waiter throws on `null` |
| RealtimeClient.Client.HandlePacket | lib/realtime/websocket-client.ts:424-427 | a packet is dispatched as the event of its type, and whether it threw |
| RealtimeClient.Client.EmitEach | lib/realtime/websocket-client.ts:424-427 | a list of events is dispatched in order, up to a throw, and whether one happened |
| RealtimeClient.Client.EmitEachEffects | lib/realtime/websocket-client.ts:424-427 | the loop computes the in-order dispatch of the events up to a throw |
| RealtimeClient.Client.On | lib/realtime/websocket-client.ts:408-413 | `on` with an application callback registers it with set semantics and keeps the invariant |
| RealtimeClient.Client.Off | lib/realtime/websocket-client.ts:415-417 | `off` with an application callback removes it and keeps the invariant |
| RealtimeClient.Client.OnStatusChange | lib/realtime/websocket-client.ts:419-422 | the status listener is added once and the invariant holds |
| RealtimeClient.Client.OffStatusChange | lib/realtime/websocket-client.ts:419-422 | the returned unsubscribe removes the status listener and keeps the invariant |
| RealtimeClient.Client.SubscribeVotes | lib/realtime/websocket-client.ts:323-332 | a new filtering closure for the vote id, with a handle no earlier closure has, is registered on `vote:update` and returned; the invariant holds (see `SubscribeVotesAppends`, `DuplicateSubscriptionsDeliverTwice`) |
| RealtimeClient.Client.UnsubscribeVotes | lib/realtime/websocket-client.ts:323-332 | the returned unsubscribe removes exactly that closure from `vote:update`; the invariant holds |
| RealtimeClient.Client.StopHeartbeat | lib/realtime/websocket-client.ts:266-271 | the heartbeat timer is released, nothing else changes |
| RealtimeClient.Client.StartHeartbeat | lib/realtime/websocket-client.ts:258-264 | outside mock mode a heartbeat timer is scheduled |
| RealtimeClient.Client.StopPolling | lib/realtime/websocket-client.ts:248-254 | the polling timer is released and the polling state dropped |
| RealtimeClient.Client.Poll | lib/realtime/websocket-client.ts:224-230 | a GET with the cursor is issued only in fallback polling with a polling state |
| RealtimeClient.Client.StartPollingFallback | lib/realtime/websocket-client.ts:211-222 | the status becomes fallback polling with a fresh cursor and the first poll is issued |
| RealtimeClient.Client.ScheduleReconnect | lib/realtime/websocket-client.ts:191-199 | the counter is incremented first, then a retry is scheduled with delay `base * 2^(attempts-1)` |
| RealtimeClient.Client.HandleConnectionFailure | lib/realtime/websocket-client.ts:185-207 | the failure path: connected in mock mode, else a backoff retry while the budget lasts, else polling or mock mode |
| RealtimeClient.Client.Connect | lib/realtime/websocket-client.ts:113-137 | the whole new state is the connect step (properties in `RealtimeClientProps.Connect*`), and the invariant holds |
| RealtimeClient.Client.Cleanup | lib/realtime/websocket-client.ts:444-457 | heartbeat, polling and reconnect timers are released and the socket dropped |
| RealtimeClient.Client.Disconnect | lib/realtime/websocket-client.ts:139-142 | the whole new state is the disconnect step (see `DisconnectClears`), and the invariant holds |
| RealtimeClient.Client.OnOpen | lib/realtime/websocket-client.ts:147-157 | the whole new state is the open step (see `OpenResets`), and the invariant holds |
| RealtimeClient.Client.OnMessage | lib/realtime/websocket-client.ts:159-166 | a parsed frame is dispatched; an unparsable one changes nothing; the invariant holds |
| RealtimeClient.Client.OnError | lib/realtime/websocket-client.ts:168-172 | outside mock mode the failure path runs; the invariant holds |
| RealtimeClient.Client.OnClose | lib/realtime/websocket-client.ts:174-182 | heartbeat stopped, the current socket closed unless the event comes from a socket already replaced, then disconnected when clean or the failure path when not; the invariant holds |
| RealtimeClient.Client.ReconnectTimerFires | lib/realtime/websocket-client.ts:197-199 | a pending reconnect timer runs `connect`, a spent one does nothing; the invariant holds |
| RealtimeClient.Client.PollResponds | lib/realtime/websocket-client.ts:231-246 | the response is absorbed when polling is still on, a callback's throw counting a retry, and the next poll is always scheduled; the invariant holds |
| RealtimeClient.Client.PollTimerFires | lib/realtime/websocket-client.ts:245 | a pending poll timer polls; the invariant holds |
| RealtimeClient.Client.HeartbeatFires | lib/realtime/websocket-client.ts:261-263 | while the interval runs a heartbeat with the clock reading is sent; the invariant holds |
| RealtimeClient.Client.MockLoadFires | lib/realtime/websocket-client.ts:117-122 | the delayed mock load emits the stored messages and the guest list; the invariant holds |
| RealtimeClient.Client.SendMessage | lib/realtime/websocket-client.ts:275-321 | mock: stored and echoed, rejected with `TypeError` when a callback throws; polling: the fallback POST's result; otherwise a request awaiting its echo; the invariant holds |
| RealtimeClient.Client.GetOnlineList | lib/realtime/websocket-client.ts:334-357 | mock: the stored guests; polling: the fallback GET's result; otherwise a request awaiting `guest:list`; the invariant holds |
| RealtimeClient.Client.RequestTimesOut | lib/realtime/websocket-client.ts:307-309 | a pending request is rejected with its timeout reason and its timer spent; its handler stays registered |
| RealtimeClient.Client.LikeMessage | lib/realtime/websocket-client.ts:359-374 | the whole new state is the like step (see `MockLikeCounts`), and the invariant holds |
| RealtimeClient.Client.CastVote | lib/realtime/websocket-client.ts:376-382 | a `vote:cast` packet with the voter's id is sent; the invariant holds |
| RealtimeClient.Client.GetStatus | lib/realtime/websocket-client.ts:434-436 | returns the current status |
| RealtimeClient.Client.IsMockMode | lib/realtime/websocket-client.ts:438-440 | returns whether the client is in mock mode |
| RealtimeClientProps.ConnectInMockMode | lib/realtime/websocket-client.ts:113-122 | in mock mode `connect` goes straight to connected, telling listeners only `connected`, queues the mock load and opens no socket |
| RealtimeClientProps.ConnectIgnoredWhileActive | lib/realtime/websocket-client.ts:124 | `connect` while connected or connecting changes nothing |
| RealtimeClientProps.ConnectOpensSocket | lib/realtime/websocket-client.ts:126-137 | otherwise the status becomes connecting and a socket is opened, or the failure path runs when construction throws |
| RealtimeClientProps.OpenResets | lib/realtime/websocket-client.ts:147-157 | on open: connected, attempts reset to 0, polling stopped with its timer released, heartbeat started, one `guest:join` sent |
| RealtimeClientProps.FailureBacksOff | lib/realtime/websocket-client.ts:191-199 | with budget left: reconnecting, attempts incremented, one retry scheduled with delay `base * 2^(attempts-1)` |
| RealtimeClientProps.FailureExhausted | lib/realtime/websocket-client.ts:200-222 | budget spent: no attempt counted and no retry scheduled; with the fallback enabled, fallback polling with cursor "", retry count 0, `maxRetries` 3 and one GET issued; otherwise mock mode and connected |
| RealtimeClientProps.FailureInMockMode | lib/realtime/websocket-client.ts:186-189 | in mock mode a failure only reports connected |
| RealtimeClientProps.Pow2Grows | lib/realtime/websocket-client.ts:195 | the backoff factor strictly grows with the attempt number |
| RealtimeClientProps.DelaysIncrease | lib/realtime/websocket-client.ts:191-199 | for a positive base the successive reconnect delays strictly increase |
| RealtimeClientProps.DelaysSnoc | lib/realtime/websocket-client.ts:195 | each further retry appends the next doubled delay |
| RealtimeClientProps.RetryTimerConnects | lib/realtime/websocket-client.ts:197-199 | the retry timer runs `connect`, which announces connecting and opens a socket |
| RealtimeClientProps.OutageRound | lib/realtime/websocket-client.ts:168-199 | one failed retry within budget schedules the next one with a doubled delay |
| RealtimeClientProps.OutageLastRound | lib/realtime/websocket-client.ts:200-222 | the failed retry that finds the budget spent escalates instead of retrying |
| RealtimeClientProps.OutageBacksOff | lib/realtime/websocket-client.ts:185-199 | after the first failure and n failed retries within budget, n + 1 attempts are counted, one retry is pending, and exactly the delays `base * 2^0 … base * 2^n` were scheduled |
| RealtimeClientProps.OutageEscalates | lib/realtime/websocket-client.ts:185-222 | an outage that outlasts the budget schedules exactly `reconnectAttempts` doubled delays, then escalates to polling or mock mode |
| RealtimeClientProps.NoBudgetEscalates | lib/realtime/websocket-client.ts:200-222 | with a budget of 0 the first failure escalates at once |
| RealtimeClientProps.RetriesThenEscalates | lib/realtime/websocket-client.ts:185-222 | with a positive budget, all retries run before the escalation |
| RealtimeClientProps.OutageOver | lib/realtime/websocket-client.ts:197-222 | after the escalation a reconnect timer firing changes nothing |
| RealtimeClientProps.ErrorThenUncleanCloseDoubleCounts | lib/realtime/websocket-client.ts:168-182 | an error followed by an unclean close uses two attempts and schedules two timers, losing the first one's handle |
| RealtimeClientProps.DisconnectLeavesStrayTimer | lib/realtime/websocket-client.ts:139-142 | a timer whose handle was lost survives `disconnect` and later reconnects a disconnected client |
| RealtimeClientProps.CleanCloseDoesNotRetry | lib/realtime/websocket-client.ts:174-182 | a clean close: disconnected with the heartbeat stopped, no attempt used and no retry scheduled |
| RealtimeClientProps.UncleanCloseFails | lib/realtime/websocket-client.ts:174-182 | an unclean close stops the heartbeat and then takes the failure path |
| RealtimeClientProps.FailureIgnoresSocket | lib/realtime/websocket-client.ts:185-222 | the failure path neither reads nor changes which socket the client holds |
| RealtimeClientProps.CloseOfReplacedSocketKeepsCurrent | lib/realtime/websocket-client.ts:174-182 | the current socket's close marks it closed; a replaced socket's close runs the same heartbeat, status and retry logic but leaves the current socket as it was |
| RealtimeClientProps.DisconnectClears | lib/realtime/websocket-client.ts:139-142 | `disconnect` releases heartbeat, polling and reconnect timers, drops the socket and polling state and reports disconnected |
| RealtimeClientProps.DisconnectTwiceIsHarmless | lib/realtime/websocket-client.ts:139-142 | a second `disconnect` only reports disconnected again |
| RealtimeClientProps.PollGuard | lib/realtime/websocket-client.ts:224-230 | a poll is a no-op unless the status is fallback polling with a polling state; then a GET with the cursor is issued |
| RealtimeClientProps.PollSuccessAdvancesCursor | lib/realtime/websocket-client.ts:231-245 | a successful poll moves the cursor to the returned id, dispatches the events in order up to a throw and reschedules; the retry count ends at 0, or at 1 when a callback threw |
| RealtimeClientProps.PollThrowAbortsBatch | lib/realtime/websocket-client.ts:231-245 | a batch whose first event is a `vote:update` without `data`, reaching a vote filter first, delivers nothing and skips the rest of the batch; the cursor still moves, one retry is counted and the next poll is scheduled |
| RealtimeClientProps.PollFailureCounts | lib/realtime/websocket-client.ts:241-245 | a failed poll increments the retry count, dispatches nothing and reschedules |
| RealtimeClientProps.StaleResponseOnlyReschedules | lib/realtime/websocket-client.ts:231-245 | a response arriving after polling stopped only schedules another poll |
| RealtimeClientProps.FailedRound | lib/realtime/websocket-client.ts:224-246 | one failed poll round still polls again with the same cursor |
| RealtimeClientProps.PollingIgnoresMaxRetries | lib/realtime/websocket-client.ts:218-246 | after any number k of failed rounds the client is still polling, retry count raised by k, with k further GETs issued: `maxRetries` never stops it |
| RealtimeClientProps.ErrorThenCloseStartsTwoPolls | lib/realtime/websocket-client.ts:168-222 | with the budget spent, an error and an unclean close enter the fallback twice and start two poll loops |
| RealtimeClientProps.TransmitOnlyWhenOpen | lib/realtime/websocket-client.ts:384-399 | `send` is a no-op in mock mode or without an open socket, and otherwise queues exactly one packet |
| RealtimeClientProps.HeartbeatSendsWhenOpen | lib/realtime/websocket-client.ts:258-264 | a heartbeat over an open socket sends one packet with the clock reading |
| RealtimeClientProps.AnnounceCallsEachListener | lib/realtime/websocket-client.ts:429-432 | a status change calls each status listener once and no one else |
| RealtimeClientProps.StatusUnsubscribeRestores | lib/realtime/websocket-client.ts:419-422 | the function returned by `onStatusChange` restores the listener list |
| RealtimeClientProps.SubscribeVotesAppends | lib/realtime/websocket-client.ts:323-332 | each `subscribeVotes` call appends a closure for its vote and subscriber that was registered under no event name before, and leaves the other event names' sets alone |
| RealtimeClientProps.ResubscribeRegistersTwice | lib/realtime/websocket-client.ts:323-332 | subscribing twice to the same vote with the same callback registers two distinct closures; calling the first unsubscribe function leaves the second registered |
| RealtimeClientProps.TwoFiltersDeliverTwice | lib/realtime/websocket-client.ts:159-166 | a matching `vote:update` frame with two such closures registered reaches the subscriber twice |
| RealtimeClientProps.OneFilterDeliversOnce | lib/realtime/websocket-client.ts:159-166 | with one such closure, once |
| RealtimeClientProps.DuplicateSubscriptionsDeliverTwice | lib/realtime/websocket-client.ts:323-332 | two subscriptions to one vote run the callback twice per matching update; after one unsubscribe the other closure stays and runs it once |
| RealtimeClientProps.InvokeAllKeepsOrSettles | lib/realtime/websocket-client.ts:307-320 | dispatching one packet either leaves a request alone or settles it with that packet |
| RealtimeClientProps.InvokeAllSettlesWaiter | lib/realtime/websocket-client.ts:310-315 | when the packet answers a registered waiter and no callback throws on it, its request is settled with it |
| RealtimeClientProps.InvokeAllNoNewListeners | lib/realtime/websocket-client.ts:401-404 | dispatch never registers a callback |
| RealtimeClientProps.InvokeAllRemovesWaiter | lib/realtime/websocket-client.ts:310-315 | a waiter that answers, with no callback throwing, removes itself from its type's set |
| RealtimeClientProps.EchoResolvesSend | lib/realtime/websocket-client.ts:307-320 | a sent message awaits its echo; unless an earlier `message:new` callback throws on it, the echo resolves the request, clears its timer and removes the one-shot handler |
| RealtimeClientProps.TimedOutSendStaysRegistered | lib/realtime/websocket-client.ts:307-313 | after a timeout the request is rejected with "发送超时" but the handler stays registered; a late echo leaves the rejection and, unless an earlier callback throws on it, removes the handler |
| RealtimeClientProps.MockSendPrepends | lib/realtime/websocket-client.ts:287-291 | a mock send prepends a message with zero likes and no likers and sends nothing; it returns the message exactly when no `message:new` callback throws on it, and rejects with `TypeError` otherwise |
| RealtimeClientProps.FindMessageSameIds | lib/realtime/websocket-client.ts:361 | lists with the same ids locate a message at the same index |
| RealtimeClientProps.MockLikeCounts | lib/realtime/websocket-client.ts:359-368 | a mock like adds exactly 1 and appends the client id, preserving `likes - |likedBy|`; an unknown id changes nothing; nothing is sent; the liked message is emitted as `message:like`, so with plain subscribers registered each of them receives it once, in set order |
| RealtimeClientProps.MockLikeTwiceCountsTwice | lib/realtime/websocket-client.ts:361-366 | liking twice counts twice and lists the client twice: there is no deduplication |
| RealtimeClientProps.FailureCountsRetries | lib/realtime/websocket-client.ts:185-207 | the failure path uses at most one attempt, only while the budget lasts, and logs one delay per attempt used |
| RealtimeClientProps.ConnectCountsRetries | lib/realtime/websocket-client.ts:112-138 | `connect` uses at most one attempt (through a throwing constructor) and logs its delay |
| RealtimeClientProps.CloseCountsRetries | lib/realtime/websocket-client.ts:174-182 | a close, of the current socket or of a replaced one, uses at most one attempt and logs its delay |
| RealtimeClientProps.ReconnectTimerCountsRetries | lib/realtime/websocket-client.ts:197-199 | a reconnect timer uses at most the attempt of the `connect` it runs |
| RealtimeClientProps.PollResponseCountsRetries | lib/realtime/websocket-client.ts:224-246 | a poll response never touches the attempt counter or the retry log |
| RealtimeClientProps.PollTimerCountsRetries | lib/realtime/websocket-client.ts:245 | a poll timer never touches the attempt counter or the retry log |
| RealtimeClientProps.StepCountsRetries | lib/realtime/websocket-client.ts:144-207 | every input except a socket `open` keeps the counter growing by the retries it logs and under the budget |
| RealtimeClientProps.RetriesBetweenOpensBounded | lib/realtime/websocket-client.ts:191-207 | over any sequence of inputs without an `open` (errors, unclean closes, closes of replaced sockets, throwing constructors, application calls) the client schedules exactly as many retries as attempts it uses, and at most the budget it had left |
| RealtimeClientProps.AttemptsWithinBudget | lib/realtime/websocket-client.ts:191-207 | from a new client, any input sequence leaves the attempt counter within the budget |
| PollRoute.FindIndex | app/api/realtime/poll/route.ts:19 | `findIndex`: the first position holding the id, or -1 exactly when no event has it |
| PollRoute.Packets | app/api/realtime/poll/route.ts:23 | the response lists the events' packets in order |
| PollRoute.After | app/api/realtime/poll/route.ts:19-20 | the selected events are a suffix of the buffer |
| PollRoute.Poll | app/api/realtime/poll/route.ts:13-15 | the response is the 400 error "缺少 sessionId" exactly when the session id is missing or empty |
| PollRoute.EmptyCursorReturnsAll | app/api/realtime/poll/route.ts:18-20 | without a cursor every stored event comes back, in store order |
| PollRoute.KnownCursorReturnsRest | app/api/realtime/poll/route.ts:19-20 | a stored cursor returns exactly the events after its first occurrence |
| PollRoute.UnknownCursorReturnsAll | app/api/realtime/poll/route.ts:19-20 | an unknown cursor returns the whole buffer again |
| PollRoute.ReturnsSuffix | app/api/realtime/poll/route.ts:20-24 | the events are a suffix of the session's store; the cursor is the last returned id, or the request's cursor when nothing is returned |
| PollRoute.NewCursorSelectsNothing | app/api/realtime/poll/route.ts:19-24 | with unique ids, the new cursor selects nothing from the same buffer |
| PollRoute.RepollIsEmpty | app/api/realtime/poll/route.ts:19-24 | with unique ids and an unchanged store, polling again with the returned cursor yields no events and the same cursor |
| RealtimeHook.PrependMessage | hooks/use-realtime.ts:56-58 | `message:new` puts the message first and the old list after it unchanged |
| RealtimeHook.ReplaceLiked | hooks/use-realtime.ts:60-62 | `message:like` replaces every message with the id by the incoming one, keeping length and order |
| RealtimeHook.WithoutGuest | hooks/use-realtime.ts:65-71 | the filter keeps only guests of the list with another id |
| RealtimeHook.CountWithout | hooks/use-realtime.ts:65-71 | after the filter no guest has the id |
| RealtimeHook.WithoutGuestAppend | hooks/use-realtime.ts:65-71 | the filter works element by element over a concatenation |
| RealtimeHook.WithoutGuestKeepsOthers | hooks/use-realtime.ts:65-71 | every guest with another id survives the filter |
| RealtimeHook.JoinGuestUnique | hooks/use-realtime.ts:65-67 | after `guest:join` exactly one guest has the id, at the end, after the others in their order |
| RealtimeHook.LeaveGuestRemoves | hooks/use-realtime.ts:69-71 | `guest:leave` removes every guest with the id, keeps the others, and changes nothing when the id is absent |
| RealtimeHook.IsConnected | hooks/use-realtime.ts:115 | `isConnected` holds exactly when the status is connected |
| RealtimeHook.IsFallback | hooks/use-realtime.ts:116 | `isFallback` holds exactly when the status is fallback polling |
| RealtimeHook.ReactStatus | hooks/use-realtime.ts:53 | status notices touch neither messages nor guests, and ones for other listeners change nothing |
| RealtimeHook.HookOptions | hooks/use-realtime.ts:43-48 | the hook enables the fallback and leaves mock mode and the retry budget to their defaults |
| RealtimeHook.HookConfig | hooks/use-realtime.ts:43-48 | the hook's client uses the guest id as client id, falls back to polling, and gets 5 retries off a preview host and mock mode with none on one |
| RealtimeHook.SocketUrl | hooks/use-realtime.ts:41 | a configured, non-empty socket URL is used as is |
| RealtimeHook.FreshHookListeners | hooks/use-realtime.ts:56-73 | a new client has exactly the hook's one handler for each of the five event types and none for votes |
| RealtimeHook.Mount | hooks/use-realtime.ts:40-76 | the effect subscribes the status listener and the five handlers, then connects; the invariant holds |
| RealtimeHook.Unmount | hooks/use-realtime.ts:78-81 | cleanup unsubscribes the status listener and disconnects; the invariant holds |
| RealtimeHook.UnmountSilencesStatus | hooks/use-realtime.ts:78-81 | after cleanup the client is disconnected and the hook's status listener is no longer called |
| RealtimeHook.HookSeesNewMessage | hooks/use-realtime.ts:56-58 | an inbound `message:new` reaches the hook, which prepends it to its list |
| MessageWall.Seeds | components/wedding/message-wall.tsx:29-75 | five system messages with no likers, all older than the load time |
| MessageWall.UserMessages | components/wedding/message-wall.tsx:104-107 | the saved list holds only messages of the list not from "system" |
| MessageWall.UserMessagesAppend | components/wedding/message-wall.tsx:105 | the filter works piecewise over a concatenation, so order is kept |
| MessageWall.UserMessagesSingle | components/wedding/message-wall.tsx:105 | one message is saved exactly when its author is not "system" |
| MessageWall.UserMessagesOfUsers | components/wedding/message-wall.tsx:105 | a list of guest messages only is saved unchanged |
| MessageWall.UserMessagesKeepsUsers | components/wedding/message-wall.tsx:105 | no guest message is dropped |
| MessageWall.UserMessagesIdempotent | components/wedding/message-wall.tsx:105 | filtering twice is filtering once |
| MessageWall.UserMessagesOfSystem | components/wedding/message-wall.tsx:105 | the seed messages are never saved |
| MessageWall.LoadedMessages | components/wedding/message-wall.tsx:92-96 | on load the saved messages come first, then the seed messages |
| MessageWall.SaveThenLoad | components/wedding/message-wall.tsx:92-107 | saving a list, loading it back and saving again stores the same guest messages, since the seeds are never saved; a list of guest messages only is saved unchanged |
| MessageWall.LikeAll | components/wedding/message-wall.tsx:137-144 | a like keeps length, order and ids, and leaves messages with other ids untouched |
| MessageWall.LikeOnce | components/wedding/message-wall.tsx:140-141 | a first like adds 1 and appends the guest; a repeat like by the same guest changes nothing |
| MessageWall.LikeIdempotent | components/wedding/message-wall.tsx:137-144 | liking twice is liking once |
| MessageWall.LikeKeepsBalance | components/wedding/message-wall.tsx:141 | `likes - |likedBy|` is preserved, and a liker list without repeats stays without repeats |
| MessageWall.NewMessage | components/wedding/message-wall.tsx:119-127 | a submitted message has the draft's name and content, the author's id, zero likes, no likers and id `msg_<now>` |
| MessageWall.FormatTime | components/wedding/message-wall.tsx:151-157 | under a minute "刚刚"; then whole minutes 1..59 with "分钟前"; then whole hours 1..23 with "小时前"; then the locale date |
| MessageWall.LocalStore.constructor | components/wedding/message-wall.tsx:18-26 | the stored guest id and messages are as given |
| MessageWall.Wall.constructor | components/wedding/message-wall.tsx:80-86 | the wall starts with the seed messages, an empty draft and no send in progress |
| MessageWall.Wall.GetGuestId | components/wedding/message-wall.tsx:18-26 | a stored guest id is reused; otherwise `guest_<now>_<suffix>` is created and stored |
| MessageWall.Wall.Mount | components/wedding/message-wall.tsx:89-101 | the guest id is set, and a saved list replaces the messages by the saved ones followed by the seeds |
| MessageWall.Wall.EditDraft | components/wedding/message-wall.tsx:84 | the draft becomes the typed name and content |
| MessageWall.Wall.Save | components/wedding/message-wall.tsx:104-107 | storage holds exactly the non-system messages, in order |
| MessageWall.Wall.BeginSubmit | components/wedding/message-wall.tsx:110-117 | an empty name, empty content or a send in progress changes nothing; otherwise sending starts with the current list |
| MessageWall.Wall.FinishSubmit | components/wedding/message-wall.tsx:119-134 | the new message is prepended to the list seen at submit time and saved; the draft clears and sending ends |
| MessageWall.Wall.Like | components/wedding/message-wall.tsx:137-148 | the list becomes its liked version and is saved |
| MessageWall.SubmittedIsSaved | components/wedding/message-wall.tsx:129-131 | a guest's submitted message is saved first, followed by the saved earlier messages |
| MessageWall.LikeDuringSubmitIsLost | components/wedding/message-wall.tsx:117-130 | a like made during the send delay is lost: the prepended list uses the messages captured at submit time |
| MediaUtils.LowerAll | lib/media-utils.ts:10 | each keyword is lower-cased, in order |
| MediaUtils.AnyOccursMeansSome | lib/media-utils.ts:12-15 | an item matches exactly when some lower-cased keyword occurs in its lower-cased source |
| MediaUtils.FilterMembers | lib/media-utils.ts:17-20 | the keyword group holds exactly the matching items of the input |
| MediaUtils.FilterAppend | lib/media-utils.ts:17-20 | `filter` works piecewise, so input order is kept |
| MediaUtils.RejectMembers | lib/media-utils.ts:17-20 | the other group holds only non-matching input items |
| MediaUtils.FilterSplit | lib/media-utils.ts:17-20 | the two groups together are a permutation of the input |
| MediaUtils.OrderedIsPermutation | lib/media-utils.ts:17-20 | the ordered list is a permutation of the input |
| MediaUtils.OrderedIsGrouped | lib/media-utils.ts:17-20 | every matching item precedes every non-matching one |
| MediaUtils.FilterSplitGrouped | lib/media-utils.ts:17-20 | a filter followed by its complement is grouped |
| MediaUtils.KeepFromList | lib/media-utils.ts:23-33 | every kept item is from the list, with a non-empty key not yet seen |
| MediaUtils.KeepDistinct | lib/media-utils.ts:23-33 | kept items have pairwise distinct keys |
| MediaUtils.KeepBound | lib/media-utils.ts:26-33 | at most max(count, 1) items are kept |
| MediaUtils.KeepIsSubseq | lib/media-utils.ts:23-33 | the kept items are an order-preserving sublist |
| MediaUtils.KeepKeepsGrouped | lib/media-utils.ts:23-33 | deduplication keeps the keyword items first |
| MediaUtils.KeepLength | lib/media-utils.ts:26-33 | exactly min(max(count, 1), number of distinct non-empty unseen keys) items are kept |
| MediaUtils.KeysAreElementKeys | lib/media-utils.ts:24-28 | the key set is the set of non-empty keys of the items |
| MediaUtils.SameKeys | lib/media-utils.ts:17-20 | reordering the items does not change the key set |
| MediaUtils.Dedupe | lib/media-utils.ts:23-33 | the loop with its `seen` set and `break` computes the deduplicated prefix |
| MediaUtils.PrioritizeMediaDefault | lib/media-utils.ts:4-6 | with the default count and keywords: no input or an empty one gives []; otherwise the one-item selection with the default keywords, non-empty exactly when some item has a non-blank source, drawn from the input |
| MediaUtils.DefaultKeywordsAreLower | lib/media-utils.ts:4 | lower-casing leaves the default keywords unchanged |
| MediaUtils.SelectionFromInput | lib/media-utils.ts:21-33 | the de-duplicated selection holds distinct non-blank keys and only items from the input |
| MediaUtils.SelectionShape | lib/media-utils.ts:17-35 | the selection keeps keyword items first and the reordered list's order, and its size is min(places, distinct keys) |
| MediaUtils.PrioritizeMedia | lib/media-utils.ts:6-36 | no input or an empty one gives []; otherwise distinct non-empty trimmed keys, input items only, keyword items first with order kept, and exactly min(max(count, 1), distinct keys) items |
| WeddingConfig.CountdownOver | lib/wedding-config.ts:189-191 | the countdown is over exactly when diff ≤ 0, and then every field is 0 |
| WeddingConfig.CountdownRecomposes | lib/wedding-config.ts:193-198 | for diff > 0 hours < 24, minutes < 60, seconds < 60, and the parts add back to diff minus its milliseconds |
| WeddingConfig.FormatPhoneForCall | lib/wedding-config.ts:202-204 | the link starts with "tel:" and holds no whitespace after it |
| WeddingConfig.PhoneLinkIsStable | lib/wedding-config.ts:203 | after "tel:" the link holds every non-whitespace character of the phone as often as it occurs and no whitespace; re-applying it to the stripped phone gives the same link |
| WeddingConfig.PhoneLinkIgnoresSpacing | lib/wedding-config.ts:203 | a space inside the number does not change the link |
| GuestList.MockGuests | components/wedding/guest-list.tsx:23-66 | four built-in guests |
| GuestList.FirstRun | components/wedding/guest-list.tsx:97 | the position of the first run of 11 digits, or none when there is no such run |
| GuestList.MaskPhone | components/wedding/guest-list.tsx:97 | the first 11-digit run keeps its first three and last four digits with "****" between; length is kept; without a run the phone is unchanged |
| GuestList.MaskValidPhone | components/wedding/guest-list.tsx:97 | an accepted RSVP phone shows as its first three digits, "****" and its last four |
| GuestList.MaskTwiceIsMaskOnce | components/wedding/guest-list.tsx:97 | masking a masked 11-digit phone changes nothing further |
| GuestList.StatusOf | components/wedding/guest-list.tsx:98-103 | "attending" is confirmed, "not-attending" declined, anything else pending |
| GuestList.DietLabels | components/wedding/guest-list.tsx:105-112 | none, vegetarian and halal get their labels, anything else "其他" |
| GuestList.CountOrOne | components/wedding/guest-list.tsx:104 | a count of 0 becomes 1, others are kept |
| GuestList.ToGuest | components/wedding/guest-list.tsx:94-116 | a record becomes guest `rsvp_<i>` with masked phone, mapped status, count and diet, seat "no-preference", and its message and submit time kept |
| GuestList.LoadGuests | components/wedding/guest-list.tsx:94-119 | the RSVP guests, in record order, come before the four mock guests |
| GuestList.LoadedIdsDistinct | components/wedding/guest-list.tsx:95 | the loaded guests have pairwise distinct ids |
| GuestList.FilterGuests | components/wedding/guest-list.tsx:171-177 | the filtered list is no longer than the list |
| GuestList.FilterMembers | components/wedding/guest-list.tsx:172-175 | exactly the guests whose lower-cased name contains the lower-cased query and whose status fits pass |
| GuestList.FilterAppend | components/wedding/guest-list.tsx:172 | the filter is order-preserving, piece by piece |
| GuestList.EmptyQueryKeepsAll | components/wedding/guest-list.tsx:173-174 | an empty query with "all" keeps every guest |
| GuestList.StatsAddUp | components/wedding/guest-list.tsx:180-193 | confirmed + declined + pending = total; vegetarian ≤ confirmed; with counts ≥ 1 the head count is at least the confirmed count |
| GuestList.HeaderLineIsJoin | components/wedding/guest-list.tsx:197-207 | the header line is the six headers joined by "," |
| GuestList.Row | components/wedding/guest-list.tsx:198-205 | a row has one field per header |
| GuestList.RowLines | components/wedding/guest-list.tsx:198-207 | one line per guest, its fields joined by "," |
| GuestList.CsvLines | components/wedding/guest-list.tsx:196-207 | the header line first, then one line per guest in order |
| GuestList.Csv | components/wedding/guest-list.tsx:207-208 | the BOM followed by the lines joined by "\n" |
| GuestList.CsvAppendsLine | components/wedding/guest-list.tsx:207 | one more guest adds exactly one line at the end of the CSV |
| RsvpModal.Validate | components/wedding/rsvp-modal.tsx:36-43 | a name error exactly when the trimmed name is empty; a phone error exactly when the untrimmed phone fails `^1[3-9]\d{9}$`, "请输入手机号" when blank, "请输入有效的手机号" otherwise; valid exactly when there is neither |
| RsvpModal.BlankIsNotPhone | components/wedding/rsvp-modal.tsx:39-40 | a blank phone never matches the pattern |
| RsvpModal.PaddedPhoneIsInvalid | components/wedding/rsvp-modal.tsx:40 | a leading space makes a valid phone fail, since the pattern sees the untrimmed text |
| RsvpModal.StepperStaysInRange | components/wedding/rsvp-modal.tsx:171-179 | the stepper saturates at 1 and 10, so a count in [1, 10] stays there, and the two buttons undo each other inside the range |
| RsvpModal.RsvpStore.constructor | components/wedding/rsvp-modal.tsx:55 | the stored records are as given |
| RsvpModal.Modal.constructor | components/wedding/rsvp-modal.tsx:25-34 | the form starts at its defaults, idle, with no errors |
| RsvpModal.Modal.Edit | components/wedding/rsvp-modal.tsx:25-32 | editing replaces the form only |
| RsvpModal.Modal.DecrementGuests | components/wedding/rsvp-modal.tsx:171 | the count becomes max(1, c - 1) |
| RsvpModal.Modal.IncrementGuests | components/wedding/rsvp-modal.tsx:179 | the count becomes min(10, c + 1) |
| RsvpModal.Modal.BeginSubmit | components/wedding/rsvp-modal.tsx:45-49 | an invalid form sets errors and changes neither status nor storage; a valid one starts submitting; a submit in progress is ignored |
| RsvpModal.Modal.FinishSubmit | components/wedding/rsvp-modal.tsx:55-59 | exactly one record with `submittedAt` is appended to the store, and the status becomes submitted |
| RsvpModal.Modal.SubmitAnother | components/wedding/rsvp-modal.tsx:73-83 | the form returns to its defaults and the status to idle |
| RsvpModal.AppendKeepsEarlier | components/wedding/rsvp-modal.tsx:55-57 | the append keeps the earlier records and adds the form's record at the end |
| MusicPlayer.CurrentTrack | components/wedding/music-player.tsx:153-160 | an in-range index gives the playlist's track, any other the placeholder with an empty id |
| MusicPlayer.IndexWraps | components/wedding/music-player.tsx:226-235 | next maps the last index to 0, prev maps 0 to the last; both stay in range, agree with the modular forms and undo each other |
| MusicPlayer.NextTimesIsRotation | components/wedding/music-player.tsx:235 | k presses of next advance the index by k modulo the length; a full cycle returns to the start |
| MusicPlayer.FormatTime | components/wedding/music-player.tsx:294-298 | "m:ss": digits with a colon three places from the end |
| MusicPlayer.FormatTimeInjective | components/wedding/music-player.tsx:294-298 | different whole-second times never print the same |
| MusicPlayer.FormatTimeParts | components/wedding/music-player.tsx:294-298 | any number of seconds prints as the whole minutes in decimal, a colon and the remaining seconds as exactly two digits; 65 seconds print as "1:05" |
| MusicPlayer.VoteOnce | components/wedding/music-player.tsx:241-252 | a first vote succeeds with count + 1 and stores the key; a repeat returns failure, the unchanged count and the refusal; other tracks' counts never change |
| MusicPlayer.SecondVoteRefused | components/wedding/music-player.tsx:243-244 | voting again with the same pair is refused and changes nothing |
| MusicPlayer.VoteStore.constructor | components/wedding/music-player.tsx:242-247 | the stored vote keys are as given |
| MusicPlayer.Player.constructor | components/wedding/music-player.tsx:142-149 | the card starts at the entrance list, track 0, progress 0 and no votes |
| MusicPlayer.Player.Prev | components/wedding/music-player.tsx:223-230 | an empty playlist changes nothing; otherwise the previous index with wrap-around and progress 0 |
| MusicPlayer.Player.Next | components/wedding/music-player.tsx:232-239 | an empty playlist changes nothing; otherwise the next index with wrap-around and progress 0 |
| MusicPlayer.Player.ChangeCategory | components/wedding/music-player.tsx:273-282 | the category changes and index and progress become 0 |
| MusicPlayer.Player.VoteTrack | components/wedding/music-player.tsx:241-252 | the `vote-<track>-<visitor>` key and counts follow the vote-once rule |
| MusicPlayer.Player.HandleVote | components/wedding/music-player.tsx:254-257 | the placeholder track is never voted for; any other current track is voted for by this guest |
| MusicPlayerHook.JsRem | hooks/use-music-player.ts:150-157 | JavaScript's `%`: the remainder takes the dividend's sign |
| MusicPlayerHook.JsRemOfNegative | hooks/use-music-player.ts:150-157 | JavaScript's remainder equals the Euclidean one exactly when the dividend is non-negative or a multiple of the divisor, and is otherwise the Euclidean one less the divisor |
| MusicPlayerHook.HookIndexWraps | hooks/use-music-player.ts:148-160 | in a non-empty list next and prev stay in range, undo each other, and equal the card's conditional forms |
| MusicPlayerHook.EmptyPlaylistLosesIndex | hooks/use-music-player.ts:148-160 | with an empty list a step yields NaN, and NaN stays NaN |
| MusicPlayerHook.ToggleMute | hooks/use-music-player.ts:179-186 | mute flips and every other field is kept |
| MusicPlayerHook.ToggleMuteTwice | hooks/use-music-player.ts:179-186 | toggling twice restores the state |
| MusicPlayerHook.WithVolume | hooks/use-music-player.ts:194 | the volume becomes v and every other field is kept |
| MusicPlayerHook.VoteKeysDiffer | hooks/use-music-player.ts:211 | the hook's vote key never equals the card's, so the two count separately |
| MusicPlayerHook.Vote | hooks/use-music-player.ts:208-225 | a repeat key returns failure, the current count and "您已经投过票了" and changes nothing; a new key succeeds with count + 1 |
| MusicPlayerHook.VolumeStore.constructor | hooks/use-music-player.ts:18-24 | the remembered volume is as given |
| MusicPlayerHook.Hook.GetPlaylist | hooks/use-music-player.ts:201-206 | a category's list, or [] when it has none |
| MusicPlayerHook.Hook.constructor | hooks/use-music-player.ts:110-124 | volume 0.7, the entrance list, index 0, an idle unmuted player and no votes |
| MusicPlayerHook.Hook.RestoreVolume | hooks/use-music-player.ts:21-24 | a remembered volume replaces the default; the player state is untouched |
| MusicPlayerHook.Hook.Next | hooks/use-music-player.ts:148-153 | the index becomes `(i + 1) % len` with JavaScript's remainder |
| MusicPlayerHook.Hook.Prev | hooks/use-music-player.ts:155-160 | the index becomes `(i - 1 + len) % len` with JavaScript's remainder |
| MusicPlayerHook.Hook.ChangeCategory | hooks/use-music-player.ts:168-177 | the category changes and the index becomes 0 |
| MusicPlayerHook.Hook.ToggleMuted | hooks/use-music-player.ts:179-186 | the player state's mute flag flips |
| MusicPlayerHook.Hook.UpdateVolume | hooks/use-music-player.ts:188-197 | the remembered volume, its stored copy and the player state's volume all become v |
| MusicPlayerHook.Hook.VoteTrack | hooks/use-music-player.ts:208-225 | the `<track>-<guest>` key and counts follow the vote-once rule |
| Accessibility.KeyDown | hooks/use-accessibility.ts:102-139 | the new index is `NavTarget`'s: forward arrows step +1 and wrap to 0 or stop at the end; backward arrows step -1 and wrap to the end or stop at 0; Home 0; End len - 1; anything else stays; Enter and Space, and no other key, select the active index; an in-range index stays in range |
| Accessibility.OtherKeysStay | hooks/use-accessibility.ts:104-133 | keys other than the enabled arrows, Home and End leave the index |
| Accessibility.CrossArrowsStay | hooks/use-accessibility.ts:104-107 | arrows of the other orientation do nothing |
| Accessibility.ForwardBackInverse | hooks/use-accessibility.ts:109-120 | with looping a step forward and one back cancel out; without it the ends hold |
| Accessibility.KeyboardNavigation.constructor | hooks/use-accessibility.ts:91-100 | the active index starts at 0 with nothing selected |
| Accessibility.KeyboardNavigation.HandleKeyDown | hooks/use-accessibility.ts:102-139 | a select key reports the active index and keeps it; any other key moves to the computed index; an in-range index stays in range |
| Accessibility.Classify | hooks/use-accessibility.ts:223-237 | a swipe only when elapsed < 300 and a leg exceeds 50; horizontal when the x leg is larger, right exactly when dx > 0; otherwise vertical, down exactly when dy > 0 |
| Accessibility.ClassifyMirrors | hooks/use-accessibility.ts:223-237 | mirroring the move mirrors the swipe along the axis it is classified on |
| Accessibility.DiagonalIsVertical | hooks/use-accessibility.ts:226-237 | an exactly diagonal quick move counts as vertical |
| Accessibility.TouchGestures.constructor | hooks/use-accessibility.ts:172-190 | the start point and time begin at 0 and nothing has fired |
| Accessibility.TouchGestures.TouchStart | hooks/use-accessibility.ts:191-201 | the start point and time are remembered |
| Accessibility.TouchGestures.TouchEnd | hooks/use-accessibility.ts:210-238 | at most one swipe handler runs, the one the classifier names |
| DesignTokens.GroupLines | lib/design-tokens.ts:167-190 | one declaration per entry, in entry order |
| DesignTokens.LinesInGroupOrder | lib/design-tokens.ts:167-190 | the lines are the gold, graphite, spacing, shadow and radius groups in that order, one line per entry |
| DesignTokens.PrefixedLines | lib/design-tokens.ts:168-178 | colour and spacing lines read `--<prefix><key>: <value>;` |
| DesignTokens.DefaultNames | lib/design-tokens.ts:181-190 | the key DEFAULT gives the bare `--shadow` or `--radius`; any other key is appended after a dash |
| DesignTokens.PushGroup | lib/design-tokens.ts:167-190 | each `forEach` appends exactly its group's lines |
| DesignTokens.TokensToCss | lib/design-tokens.ts:164-193 | the result is `:root {\n  `, the lines joined by `\n  `, then `\n}` |
| DesignTokens.ShippedLineCount | lib/design-tokens.ts:10-109 | the shipped tokens give 49 lines, the first gold's lightest shade |
| DesignTokens.ShippedDefaults | lib/design-tokens.ts:88-109 | in the shipped tokens the default shadow and radius appear as `--shadow` and `--radius` at their positions |
| TextUtil.RemoveWhitespace | lib/wedding-config.ts:203 | `replace(/\s/g, "")`: no whitespace remains and the text gets no longer |
| TextUtil.RemoveWhitespaceOfClean | lib/wedding-config.ts:203 | text without whitespace is unchanged |
| TextUtil.RemoveWhitespaceIdempotent | lib/wedding-config.ts:203 | stripping twice is stripping once |
| TextUtil.RemoveWhitespaceCounts | lib/wedding-config.ts:203 | stripping drops every whitespace character and keeps every other character as often as it occurs |
| TextUtil.RemoveWhitespaceAppend | lib/wedding-config.ts:203 | stripping works piecewise, keeping the other characters in order |
| TextUtil.TrimStart | components/wedding/rsvp-modal.tsx:38-39 | a suffix of the text that does not start with whitespace, everything dropped in front being whitespace |
| TextUtil.TrimEnd | components/wedding/rsvp-modal.tsx:38-39 | a prefix of the text that does not end with whitespace, everything dropped at the end being whitespace |
| TextUtil.TrimEndKeepsNonBlank | components/wedding/rsvp-modal.tsx:38-39 | text that starts with a non-space does not trim to empty |
| TextUtil.TrimEmptyIffBlank | components/wedding/rsvp-modal.tsx:38-39 | `trim()` is empty exactly when every character is whitespace |
| TextUtil.Lower | components/wedding/guest-list.tsx:173 | `toLowerCase` keeps the length and maps each character by the ASCII lowering |
| TextUtil.NatToString | components/wedding/message-wall.tsx:120 | decimal rendering: digits only, one exactly below 10, no leading zero, and the digits read left to right (`DecimalValue`) denote the number, so different numbers render differently |
| TextUtil.PadTwo | components/wedding/music-player.tsx:297 | `padStart(2, "0")` puts a 0 before one-digit numbers only |
| TextUtil.Join | components/wedding/guest-list.tsx:207 | `join` of nothing is empty and of one part is that part |
| TextUtil.JoinAppend | components/wedding/guest-list.tsx:207 | joining one more part adds the separator and the part |

## Left out

- Real I/O is not modelled: the WebSocket object, `fetch`, the JSON parse of frames, timers' durations and `localStorage` serialisation. Each is an explicit input: a frame that fails to parse is `None`, a fetch result is a parameter, and a timer firing is a method call.
- `isV0Environment` (lib/realtime/websocket-client.ts:27-34) is not modelled: the hostname test is the parameter `hostIsV0`.
- The heartbeat, reconnect, poll and request timeout intervals are not modelled. Only the reconnect delays are recorded, as numbers in `scheduledDelays`, and timers fire when the caller says.
- Packet ids and timestamps from `Date.now`/`Math.random` are not modelled. The clock is a parameter where a value depends on it; ids the client generates for outgoing packets are not modelled.
- The `error` packet type (lib/realtime/types.ts:19) is neither sent nor handled specially by the client: a received `error` packet is only emitted to its subscribers, like any other type.
- The mock data is copied shallowly in the source (lib/realtime/websocket-client.ts:90-91): a mock like mutates the shared module-level message object, so a second client in the same page starts with the first one's likes. The model gives every client fresh seed values (`SeedMessages`), so this sharing between clients is not captured.
- An application's `on`/`off` calls name its own callbacks (`Subscriber` ids); passing one of the client's internal closures (a vote filter or a request handler) to `off` from outside is not modelled, since the source never hands those out except through the unsubscribe function `subscribeVotes` returns.
- Application callbacks (`Subscriber`) are taken not to throw. Only the client's own vote filter and echo waiter throw, on the payloads whose properties they read.
- A payload's shape is coarse: a `vote:update` payload other than `VoteUpdateBody` is taken to lack `data`, so the vote filter throws on it; a malformed payload that has a `data` object is not distinguished.
- A throw's message text is not modelled; mock `sendMessage` rejects with the reason "TypeError". An error that leaves `likeMessage` or the mock initial-load timer (lib/realtime/websocket-client.ts:113-123, 359-374) reaches no modelled caller: the model records only that the rest of that dispatch does not run.
- A socket event other than `close` from a socket the client already replaced is not modelled: such a socket has failed or been closed, so it does not open or deliver frames again.
- lib/realtime/server-handler.ts is not part of this model: it delegates to a database adapter and a Redis client that are not available.
- The polling endpoint's `timestamp` field and the store's own timestamps are left out.
- The hook's `sendMessage`, `likeMessage`, `refreshOnlineList`, `castVote` and `subscribeVotes` wrappers (hooks/use-realtime.ts:85-111) only forward to the client, which is modelled; they have no members of their own.
- React closures are taken as current: handlers read the latest state. The one exception is the message wall's submit, which keeps the list captured at submit time (`LikeDuringSubmitIsLost`).
- TextUtil.Lower: lower-cases ASCII letters only; JavaScript's full Unicode case mapping is not modelled.
- MessageWall.FormatTime: the string for diffs over a day is `toLocaleDateString("zh-CN")`, modelled as an input.
- MusicPlayer.FormatTime: takes whole seconds; the source's `Math.floor` of a fractional number is taken as done.
- Accessibility.ClassifyMirrors: requires both components non-zero, because a zero component along the chosen axis counts as left or up, which mirroring does not preserve.
- Audio playback, fade-in and fade-out, seeking, position sync, progress updates from the audio element are not modelled. The fade-out's callback is applied at once.
- MusicPlayerHook.Hook.RestoreVolume: `Number.parseFloat` of the stored text is taken as done; an empty or unparsable stored value is not modelled.
- MusicPlayerHook.Hook.Next and MusicPlayerHook.Hook.Prev: a category without a playlist would throw on `currentPlaylist.length` in the source; the model treats it as an empty list and yields NaN.
- Keyboard focus moves, `preventDefault`, the long-press timer and the listener wiring of hooks/use-accessibility.ts are not modelled.
- DesignTokens.TokensToCss: each group is given as its `Object.entries` list, so enumeration order is an input; for the shipped tokens it is the written order.
- The guest list's `Blob` download and the RSVP form's rendering are not modelled; generated ids and submit times are parameters.
