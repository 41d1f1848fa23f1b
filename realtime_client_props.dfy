/** Properties of the realtime client (lib/realtime/websocket-client.ts), stated about the
    step functions that the methods of `RealtimeClient.Client` are proved equal to. */
module RealtimeClientProps {
  import opened Wrappers
  import opened RealtimeTypes
  import opened Registry
  import opened RealtimeClient
  import Arith

  // ---------------------------------------------------------------- connect

  /** `connect` in mock mode reports `connected` at once, never `connecting`, and starts
      the delayed initial load; while connecting or connected it does nothing else. */
  lemma ConnectInMockMode(s: State, socketThrows: bool, c: Config)
    requires s.mockMode
    ensures var r := ConnectStep(s, socketThrows, c);
            && r.status == Connected
            && r.statusDeliveries == s.statusDeliveries + Notices(s.statusListeners, Connected)
            && (forall k :: |s.statusDeliveries| <= k < |r.statusDeliveries| ==> r.statusDeliveries[k].status == Connected)
            && r.mockLoadsPending == s.mockLoadsPending + 1
            && r.socket == s.socket && r.outbox == s.outbox
  {
  }

  lemma ConnectIgnoredWhileActive(s: State, socketThrows: bool, c: Config)
    requires !s.mockMode && (s.status == Connected || s.status == Connecting)
    ensures ConnectStep(s, socketThrows, c) == s
  {
  }

  /** Otherwise the client announces `connecting` and opens a socket; a constructor that
      throws takes the failure path at once. */
  lemma ConnectOpensSocket(s: State, socketThrows: bool, c: Config)
    requires !s.mockMode && s.status != Connected && s.status != Connecting
    ensures var r := ConnectStep(s, socketThrows, c);
            && (!socketThrows ==> r == AnnounceStatus(s, Connecting).(socket := Opening))
            && (socketThrows ==> r == FailureStep(AnnounceStatus(s, Connecting), c))
            && (socketThrows ==> r.socket == s.socket)
  {
  }

  // ---------------------------------------------------------------- open

  /** On open: connected, the retry counter reset, polling stopped, the heartbeat started
      and a `guest:join` packet written to the socket. */
  lemma OpenResets(s: State, c: Config)
    requires !s.mockMode
    ensures var r := OpenStep(s, c);
            && r.status == Connected && r.socket == Open
            && r.reconnectAttempts == 0
            && r.pollingState.None? && !r.pollingTimer.held
            && r.heartbeatTimer.held
            && r.outbox == s.outbox + [Outbound(GuestJoin, JoinAnnouncement(c.clientId, c.sessionId), c.clientId, c.sessionId)]
            && r.reconnectTimer == s.reconnectTimer
  {
  }

  // ---------------------------------------------------------------- failure and backoff

  /** With budget left, the counter is incremented first and the delay is
      `reconnectDelay * 2^(attempts - 1)` of the incremented counter. */
  lemma FailureBacksOff(s: State, c: Config)
    requires !s.mockMode && s.reconnectAttempts < c.reconnectAttempts
    ensures var r := FailureStep(s, c);
            && r.status == Reconnecting
            && r.reconnectAttempts == s.reconnectAttempts + 1
            && r.reconnectTimer == s.reconnectTimer.Schedule()
            && r.scheduledDelays == s.scheduledDelays + [c.reconnectDelay * Pow2(r.reconnectAttempts - 1)]
            && !r.mockMode && r.pollingState == s.pollingState
  {
  }

  /** With the budget spent: the polling fallback with a fresh cursor and one poll on the
      wire, or, without fallback, mock mode reported as connected. */
  lemma FailureExhausted(s: State, c: Config)
    requires !s.mockMode && s.reconnectAttempts >= c.reconnectAttempts
    ensures var r := FailureStep(s, c);
            && r.reconnectAttempts == s.reconnectAttempts
            && r.scheduledDelays == s.scheduledDelays
            && r.reconnectTimer == s.reconnectTimer
            && (c.enableFallback ==>
                  && r.status == FallbackPolling && !r.mockMode
                  && r.pollingState == Some(PollingState("", c.fallbackPollInterval, 0, 3))
                  && r.pollsInFlight == s.pollsInFlight + 1
                  && r.pollRequests == s.pollRequests + [""])
            && (!c.enableFallback ==> r.mockMode && r.status == Connected && r.pollingState == s.pollingState)
  {
  }

  /** A failure in mock mode only reports `connected` again. */
  lemma FailureInMockMode(s: State, c: Config)
    requires s.mockMode
    ensures FailureStep(s, c) == AnnounceStatus(s, Connected)
  {
  }

  lemma {:induction false} Pow2Grows(m: nat, n: nat)
    requires m < n
    ensures Pow2(m) < Pow2(n)
    decreases n
  {
    if m < n - 1 {
      Pow2Grows(m, n - 1);
    }
  }

  /** For a positive base the backoff delays strictly increase. */
  lemma DelaysIncrease(base: int, n: nat)
    requires base > 0
    ensures forall i, j :: 0 <= i < j < n ==> Delays(base, n)[i] < Delays(base, n)[j]
  {
    forall i, j | 0 <= i < j < n
      ensures Delays(base, n)[i] < Delays(base, n)[j]
    {
      Pow2Grows(i, j);
      Arith.MulStrict(base, Pow2(i), Pow2(j));
    }
  }

  lemma DelaysSnoc(base: int, n: nat)
    ensures Delays(base, n + 1) == Delays(base, n) + [base * Pow2(n)]
  {
  }

  /** An outage: the socket errors, and every reconnect timer opens a socket that errors
      again. `Outage(s, n, c)` is the state after the `n`-th reconnect has failed. */
  function Outage(s: State, n: nat, c: Config): State
    decreases n
  {
    if n == 0 then ErrorStep(s, c)
    else ErrorStep(ReconnectTimerStep(Outage(s, n - 1, c), false, c), c)
  }

  /** A reconnect timer that runs while the client waits to retry opens a new socket. */
  lemma RetryTimerConnects(p: State, c: Config)
    requires !p.mockMode && p.status == Reconnecting && p.reconnectTimer == TimerSlot(true, 0)
    ensures ReconnectTimerStep(p, false, c) == AnnounceStatus(p.(reconnectTimer := Idle), Connecting).(socket := Opening)
  {
  }

  /** One more round of an outage with budget left: the retry's socket errors and the
      next retry is scheduled. */
  lemma OutageRound(p: State, c: Config)
    requires !p.mockMode && p.status == Reconnecting && p.reconnectTimer == TimerSlot(true, 0)
    requires p.reconnectAttempts < c.reconnectAttempts
    ensures var r := ErrorStep(ReconnectTimerStep(p, false, c), c);
            && r.status == Reconnecting && !r.mockMode
            && r.reconnectAttempts == p.reconnectAttempts + 1
            && r.reconnectTimer == TimerSlot(true, 0)
            && r.scheduledDelays == p.scheduledDelays + [c.reconnectDelay * Pow2(p.reconnectAttempts)]
  {
    RetryTimerConnects(p, c);
    FailureBacksOff(ReconnectTimerStep(p, false, c), c);
  }

  /** The round of an outage with the budget spent. */
  lemma OutageLastRound(p: State, c: Config)
    requires !p.mockMode && p.status == Reconnecting && p.reconnectTimer == TimerSlot(true, 0)
    requires p.reconnectAttempts >= c.reconnectAttempts
    ensures var r := ErrorStep(ReconnectTimerStep(p, false, c), c);
            && r.reconnectAttempts == p.reconnectAttempts
            && r.scheduledDelays == p.scheduledDelays
            && r.reconnectTimer == Idle
            && (c.enableFallback ==>
                  r.status == FallbackPolling && !r.mockMode &&
                  r.pollingState == Some(PollingState("", c.fallbackPollInterval, 0, 3)))
            && (!c.enableFallback ==> r.mockMode && r.status == Connected)
  {
    RetryTimerConnects(p, c);
    FailureExhausted(ReconnectTimerStep(p, false, c), c);
  }

  /** The state after the `n`-th failure of an outage (counting from 0) that had budget
      left: retry `n + 1` is scheduled, with the delays `base * 2^k` for `k <= n`. */
  ghost predicate Retrying(s: State, r: State, n: nat, c: Config) {
    && r.status == Reconnecting && !r.mockMode
    && r.reconnectAttempts == n + 1
    && r.reconnectTimer == TimerSlot(true, 0)
    && r.scheduledDelays == s.scheduledDelays + Delays(c.reconnectDelay, n + 1)
  }

  /** During an outage of a healthy client the retries back off exponentially. */
  lemma {:induction false} OutageBacksOff(s: State, n: nat, c: Config)
    requires !s.mockMode && s.reconnectAttempts == 0 && s.reconnectTimer == Idle
    requires n < c.reconnectAttempts
    ensures Retrying(s, Outage(s, n, c), n, c)
    decreases n
  {
    if n == 0 {
      FailureBacksOff(s, c);
      assert Delays(c.reconnectDelay, 1) == [c.reconnectDelay * Pow2(0)];
    } else {
      OutageBacksOff(s, n - 1, c);
      var p := Outage(s, n - 1, c);
      OutageRound(p, c);
      assert Outage(s, n, c) == ErrorStep(ReconnectTimerStep(p, false, c), c);
      DelaysSnoc(c.reconnectDelay, n);
    }
  }

  /** What the failure after the last retry leads to. */
  ghost predicate Escalated(s: State, r: State, c: Config) {
    && r.reconnectAttempts == c.reconnectAttempts
    && r.scheduledDelays == s.scheduledDelays + Delays(c.reconnectDelay, c.reconnectAttempts)
    && !r.reconnectTimer.Pending()
    && (c.enableFallback ==>
          r.status == FallbackPolling && !r.mockMode &&
          r.pollingState == Some(PollingState("", c.fallbackPollInterval, 0, 3)))
    && (!c.enableFallback ==> r.mockMode && r.status == Connected)
  }

  /** The failure after the last retry escalates: exactly `reconnectAttempts` retries were
      scheduled, then polling (or mock mode) takes over. */
  lemma OutageEscalates(s: State, c: Config)
    requires !s.mockMode && s.reconnectAttempts == 0 && s.reconnectTimer == Idle
    requires c.reconnectAttempts >= 0
    ensures Escalated(s, Outage(s, c.reconnectAttempts, c), c)
  {
    if c.reconnectAttempts == 0 {
      NoBudgetEscalates(s, c);
    } else {
      RetriesThenEscalates(s, c);
    }
  }

  lemma NoBudgetEscalates(s: State, c: Config)
    requires !s.mockMode && s.reconnectAttempts == 0 && s.reconnectTimer == Idle
    requires c.reconnectAttempts == 0
    ensures Escalated(s, Outage(s, 0, c), c)
  {
    FailureExhausted(s, c);
    assert s.scheduledDelays + Delays(c.reconnectDelay, 0) == s.scheduledDelays;
  }

  lemma RetriesThenEscalates(s: State, c: Config)
    requires !s.mockMode && s.reconnectAttempts == 0 && s.reconnectTimer == Idle
    requires c.reconnectAttempts > 0
    ensures Escalated(s, Outage(s, c.reconnectAttempts, c), c)
  {
    var n: nat := c.reconnectAttempts - 1;
    OutageBacksOff(s, n, c);
    var p := Outage(s, n, c);
    assert p.reconnectAttempts == c.reconnectAttempts;
    OutageLastRound(p, c);
    var r := ErrorStep(ReconnectTimerStep(p, false, c), c);
    assert Outage(s, c.reconnectAttempts, c) == r;
  }

  /** After the escalation a further error or timer changes nothing about the retries. */
  lemma OutageOver(s: State, c: Config)
    requires !s.mockMode && s.reconnectAttempts == 0 && s.reconnectTimer == Idle
    requires c.reconnectAttempts >= 0
    ensures var r := Outage(s, c.reconnectAttempts, c);
            ReconnectTimerStep(r, false, c) == r
  {
    OutageEscalates(s, c);
    assert !Outage(s, c.reconnectAttempts, c).reconnectTimer.Pending();
  }

  /** A socket that errors and then closes uncleanly runs the failure path twice: two
      attempts are consumed and the first timer's handle is overwritten, so that timer
      runs even after a later `disconnect`. */
  lemma ErrorThenUncleanCloseDoubleCounts(s: State, c: Config)
    requires !s.mockMode && s.reconnectAttempts + 2 <= c.reconnectAttempts
    ensures var r := CloseStep(ErrorStep(s, c), false, false, c);
            && r.reconnectAttempts == s.reconnectAttempts + 2
            && r.reconnectTimer == s.reconnectTimer.Schedule().Schedule()
            && r.reconnectTimer.stray == s.reconnectTimer.stray + (if s.reconnectTimer.held then 2 else 1)
            && r.scheduledDelays == s.scheduledDelays + [c.reconnectDelay * Pow2(s.reconnectAttempts),
                                                         c.reconnectDelay * Pow2(s.reconnectAttempts + 1)]
  {
    var e := ErrorStep(s, c);
    FailureBacksOff(s, c);
    var f := StopHeartbeatStep(e).(socket := if e.socket == NoSocket then NoSocket else Closed);
    FailureBacksOff(f, c);
    assert CloseStep(e, false, false, c) == FailureStep(f, c);
    assert s.reconnectTimer.Schedule().held;
  }

  /** Disconnecting clears only the handle it holds: a reconnect timer whose handle was
      lost still runs, and reconnects the disconnected client. */
  lemma DisconnectLeavesStrayTimer(s: State, c: Config)
    requires !s.mockMode && s.reconnectTimer.stray > 0
    ensures var d := DisconnectStep(s, c);
            && d.status == Disconnected && d.reconnectTimer.Pending()
            && ReconnectTimerStep(d, false, c).status == Connecting
            && ReconnectTimerStep(d, false, c).socket == Opening
  {
  }

  // ---------------------------------------------------------------- close and disconnect

  /** A clean close stops the heartbeat and goes to `disconnected` without a retry. */
  lemma CleanCloseDoesNotRetry(s: State, fromReplaced: bool, c: Config)
    ensures var r := CloseStep(s, true, fromReplaced, c);
            && r.status == Disconnected
            && !r.heartbeatTimer.held
            && r.reconnectAttempts == s.reconnectAttempts
            && r.reconnectTimer == s.reconnectTimer
            && r.scheduledDelays == s.scheduledDelays
            && r.mockMode == s.mockMode
  {
  }

  /** An unclean close stops the heartbeat and takes the failure path. */
  lemma UncleanCloseFails(s: State, fromReplaced: bool, c: Config)
    ensures var s1 := StopHeartbeatStep(s).(socket := if fromReplaced || s.socket == NoSocket then s.socket else Closed);
            && !s1.heartbeatTimer.held
            && CloseStep(s, false, fromReplaced, c) == FailureStep(s1, c)
  {
  }

  /** The close handler of the current socket marks it closed, so later sends are dropped;
      the handler of a socket the client already replaced runs the same heartbeat, status
      and retry logic but leaves the current socket as it was. */
  lemma CloseOfReplacedSocketKeepsCurrent(s: State, wasClean: bool, c: Config)
    ensures CloseStep(s, wasClean, false, c).socket == (if s.socket == NoSocket then NoSocket else Closed)
    ensures CloseStep(s, wasClean, true, c).socket == s.socket
    ensures CloseStep(s, wasClean, true, c) == CloseStep(s, wasClean, false, c).(socket := s.socket)
  {
    var s1 := StopHeartbeatStep(s);
    FailureIgnoresSocket(s1, if s.socket == NoSocket then NoSocket else Closed, c);
  }

  /** The failure path neither reads nor writes the socket slot. */
  lemma FailureIgnoresSocket(s: State, ws: Socket, c: Config)
    ensures FailureStep(s.(socket := ws), c) == FailureStep(s, c).(socket := ws)
  {
  }

  /** `disconnect` clears the heartbeat, the polling state and timer, the reconnect timer's
      handle and the socket, and announces `disconnected`. */
  lemma DisconnectClears(s: State, c: Config)
    ensures var r := DisconnectStep(s, c);
            && r.status == Disconnected && r.socket == NoSocket
            && !r.heartbeatTimer.held && !r.pollingTimer.held && !r.reconnectTimer.held
            && r.pollingState.None?
            && r.reconnectAttempts == s.reconnectAttempts && r.outbox == s.outbox
  {
  }

  /** A second `disconnect` changes nothing but announcing `disconnected` once more. */
  lemma DisconnectTwiceIsHarmless(s: State, c: Config)
    ensures var d := DisconnectStep(s, c);
            DisconnectStep(d, c) == AnnounceStatus(d, Disconnected)
  {
  }

  // ---------------------------------------------------------------- polling

  /** A poll goes out only in `fallback-polling` with a polling state, asking for the
      events after the cursor. */
  lemma PollGuard(s: State, c: Config)
    ensures var r := PollStep(s, c);
            && (s.status != FallbackPolling || s.pollingState.None? ==> r == s)
            && (s.status == FallbackPolling && s.pollingState.Some? ==>
                  r.pollsInFlight == s.pollsInFlight + 1 &&
                  r.pollRequests == s.pollRequests + [s.pollingState.value.lastEventId])
  {
  }

  /** A successful response moves the cursor to the response's `lastEventId`, resets the
      retry counter, dispatches the events in order and schedules the next poll; when a
      callback throws, the events after it are not dispatched and the retry counter ends
      at one. */
  lemma PollSuccessAdvancesCursor(s: State, events: seq<Packet>, last: string, c: Config)
    requires s.pollsInFlight > 0 && s.pollingState.Some?
    ensures var r := PollResponseStep(s, PollOk(events, last), c);
            var e := EmitAll(DispatchInput(s), PacketEvents(events), c.clientId);
            && r.pollingState == Some(s.pollingState.value.(lastEventId := last, retryCount := if e.thrown then 1 else 0))
            && Effects(r.listeners, r.requests, r.delivered, e.thrown) == e
            && r.pollingTimer == s.pollingTimer.Schedule()
            && r.pollsInFlight == s.pollsInFlight - 1
            && r.status == s.status
  {
  }

  /** A poll batch whose first event is a `vote:update` without `data`, reaching a vote
      filter first: the filter throws, so nothing is delivered and the rest of the batch
      is skipped; the cursor has moved and the `catch` counts one retry. */
  lemma PollThrowAbortsBatch(s: State, events: seq<Packet>, last: string, c: Config)
    requires s.pollsInFlight > 0 && s.pollingState.Some?
    requires events != [] && events[0].kind == VoteUpdate && !events[0].payload.VoteUpdateBody?
    requires Registered(s.listeners, VoteUpdate) != [] && Registered(s.listeners, VoteUpdate)[0].VoteFilter?
    ensures var r := PollResponseStep(s, PollOk(events, last), c);
            && r.delivered == s.delivered && r.listeners == s.listeners && r.requests == s.requests
            && r.pollingState == Some(s.pollingState.value.(lastEventId := last, retryCount := 1))
            && r.pollingTimer == s.pollingTimer.Schedule()
  {
    var e := DispatchInput(s);
    var evs := PacketEvents(events);
    var cbs := Registered(s.listeners, VoteUpdate);
    assert cbs[..0] == [];
    FirstThrowStopsDispatch(e, cbs, evs[0].payload, c.clientId, 0);
    assert evs[..1][..0] == [];
    assert EmitAll(e, evs[..1], c.clientId) == Emit(e, evs[0], c.clientId);
    ThrowEndsEmitAll(e, evs, c.clientId, 1);
    PollSuccessAdvancesCursor(s, events, last, c);
  }

  /** A failed poll counts one more retry and still schedules the next poll. */
  lemma PollFailureCounts(s: State, c: Config)
    requires s.pollsInFlight > 0 && s.pollingState.Some?
    ensures var r := PollResponseStep(s, PollFailed, c);
            && r.pollingState == Some(s.pollingState.value.(retryCount := s.pollingState.value.retryCount + 1))
            && r.pollingTimer == s.pollingTimer.Schedule()
            && r.listeners == s.listeners && r.delivered == s.delivered
  {
  }

  /** A response that arrives after polling stopped changes no cursor and dispatches
      nothing, but the next poll is scheduled all the same. */
  lemma StaleResponseOnlyReschedules(s: State, result: PollResult, c: Config)
    requires s.pollsInFlight > 0 && s.pollingState.None?
    ensures PollResponseStep(s, result, c)
            == s.(pollsInFlight := s.pollsInFlight - 1, pollingTimer := s.pollingTimer.Schedule())
  {
  }

  /** `k` rounds of a failing poll answered and its timer run. */
  function FailedPolls(s: State, k: nat, c: Config): State
    decreases k
  {
    if k == 0 then s else PollTimerStep(PollResponseStep(FailedPolls(s, k - 1, c), PollFailed, c), c)
  }

  /** One round: a failed poll is answered, and the timer it scheduled polls again. */
  lemma FailedRound(p: State, c: Config)
    requires p.status == FallbackPolling && p.pollingState.Some? && p.pollsInFlight > 0
    ensures var r := PollTimerStep(PollResponseStep(p, PollFailed, c), c);
            && r.status == FallbackPolling
            && r.pollingState == Some(p.pollingState.value.(retryCount := p.pollingState.value.retryCount + 1))
            && r.pollsInFlight == p.pollsInFlight
            && r.pollRequests == p.pollRequests + [p.pollingState.value.lastEventId]
  {
  }

  /** The state after `k` failed rounds of polling. */
  ghost predicate PolledFailing(s: State, r: State, k: nat) {
    && s.pollingState.Some?
    && r.status == FallbackPolling
    && r.pollingState == Some(s.pollingState.value.(retryCount := s.pollingState.value.retryCount + k))
    && r.pollsInFlight == s.pollsInFlight
    && r.pollRequests == s.pollRequests + seq(k, (_: int) => s.pollingState.value.lastEventId)
  }

  /** `maxRetries` never stops polling: after any number of failures, in particular more
      than `maxRetries`, the retry counter has grown by that number and every round put a
      new poll on the wire with the unchanged cursor. */
  lemma {:induction false} PollingIgnoresMaxRetries(s: State, k: nat, c: Config)
    requires s.status == FallbackPolling && s.pollingState.Some? && s.pollsInFlight > 0
    ensures PolledFailing(s, FailedPolls(s, k, c), k)
    decreases k
  {
    if k > 0 {
      PollingIgnoresMaxRetries(s, k - 1, c);
      var p := FailedPolls(s, k - 1, c);
      FailedRound(p, c);
      assert FailedPolls(s, k, c) == PollTimerStep(PollResponseStep(p, PollFailed, c), c);
      var cursor := s.pollingState.value.lastEventId;
      assert seq(k, (_: int) => cursor) == seq(k - 1, (_: int) => cursor) + [cursor];
    } else {
      assert s.pollRequests + seq(0, (_: int) => s.pollingState.value.lastEventId) == s.pollRequests;
    }
  }

  /** With the budget spent and the fallback on, an error followed by an unclean close
      starts polling twice: the cursor is reset and two polls are in flight. */
  lemma ErrorThenCloseStartsTwoPolls(s: State, c: Config)
    requires !s.mockMode && s.reconnectAttempts >= c.reconnectAttempts && c.enableFallback
    ensures var r := CloseStep(ErrorStep(s, c), false, false, c);
            && r.status == FallbackPolling
            && r.pollsInFlight == s.pollsInFlight + 2
            && r.pollRequests == s.pollRequests + ["", ""]
  {
    FailureExhausted(s, c);
    var e := ErrorStep(s, c);
    FailureExhausted(StopHeartbeatStep(e).(socket := if e.socket == NoSocket then NoSocket else Closed), c);
  }

  // ---------------------------------------------------------------- heartbeat and send

  /** `send` writes only to an open socket and never in mock mode. */
  lemma TransmitOnlyWhenOpen(s: State, kind: MessageType, payload: Payload, c: Config)
    ensures var r := Transmit(s, kind, payload, c);
            && (s.mockMode || s.socket != Open ==> r == s)
            && (!s.mockMode && s.socket == Open ==>
                  r == s.(outbox := s.outbox + [Outbound(kind, payload, c.clientId, c.sessionId)]))
  {
  }

  /** A heartbeat tick while the timer runs writes one heartbeat carrying the clock. */
  lemma HeartbeatSendsWhenOpen(s: State, now: int, c: Config)
    requires s.heartbeatTimer.Pending() && !s.mockMode && s.socket == Open
    ensures HeartbeatStep(s, now, c).outbox
            == s.outbox + [Outbound(Heartbeat, HeartbeatBody(now), c.clientId, c.sessionId)]
  {
  }

  // ---------------------------------------------------------------- status listeners

  /** `setStatus` calls every status listener once, in subscription order, with the new
      status. */
  lemma AnnounceCallsEachListener(s: State, st: ConnectionStatus)
    requires NoDup(s.statusListeners)
    ensures var r := AnnounceStatus(s, st);
            && r.status == st
            && s.statusDeliveries <= r.statusDeliveries
            && |r.statusDeliveries| == |s.statusDeliveries| + |s.statusListeners|
            && forall id :: id in s.statusListeners <==>
                 StatusDelivery(id, st) in r.statusDeliveries[|s.statusDeliveries|..]
  {
    var added := Notices(s.statusListeners, st);
    assert AnnounceStatus(s, st).statusDeliveries[|s.statusDeliveries|..] == added;
    forall id | StatusDelivery(id, st) in added ensures id in s.statusListeners {
      var k :| 0 <= k < |added| && added[k] == StatusDelivery(id, st);
      assert s.statusListeners[k] == id;
    }
    forall id | id in s.statusListeners ensures StatusDelivery(id, st) in added {
      var k :| 0 <= k < |s.statusListeners| && s.statusListeners[k] == id;
      assert added[k] == StatusDelivery(id, st);
    }
  }

  /** The function `onStatusChange` returns removes exactly the listener it added. */
  lemma StatusUnsubscribeRestores(ls: seq<nat>, id: nat)
    requires id !in ls
    ensures Delete(Insert(ls, id), id) == ls
  {
    DeleteLast(ls, id);
  }

  // ---------------------------------------------------------------- vote subscriptions

  /** Each `subscribeVotes` call adds its own closure, never one already registered, at
      the end of the `vote:update` set; the other event names keep their sets. */
  lemma SubscribeVotesAppends(s: State, voteId: string, subscriber: nat, c: Config)
    requires Inv(s, c)
    ensures var (s1, h) := SubscribeVotesStep(s, voteId, subscriber);
            && h.VoteFilter? && h.subscriber == subscriber && h.voteId == voteId
            && (forall t :: h !in Registered(s.listeners, t))
            && Registered(s1.listeners, VoteUpdate) == Registered(s.listeners, VoteUpdate) + [h]
            && (forall t :: t != VoteUpdate ==> Registered(s1.listeners, t) == Registered(s.listeners, t))
            && Inv(s1, c)
  {
    SubscribeVotesKeepsInv(s, voteId, subscriber, c);
    OnKeepsOthers(s.listeners, VoteUpdate, VoteFilter(s.nextHandle, subscriber, voteId));
  }

  /** Subscribing twice to the same vote registers two closures; unsubscribing the first
      leaves the second. */
  lemma ResubscribeRegistersTwice(s: State, voteId: string, subscriber: nat, c: Config)
    requires Inv(s, c)
    ensures var (s1, h1) := SubscribeVotesStep(s, voteId, subscriber);
            var (s2, h2) := SubscribeVotesStep(s1, voteId, subscriber);
            && h1 != h2
            && Registered(s2.listeners, VoteUpdate) == Registered(s.listeners, VoteUpdate) + [h1, h2]
            && Registered(UnsubscribeVotesStep(s2, h1).listeners, VoteUpdate)
               == Registered(s.listeners, VoteUpdate) + [h2]
  {
    var (s1, h1) := SubscribeVotesStep(s, voteId, subscriber);
    SubscribeVotesAppends(s, voteId, subscriber, c);
    var (s2, h2) := SubscribeVotesStep(s1, voteId, subscriber);
    SubscribeVotesAppends(s1, voteId, subscriber, c);
    var before := Registered(s.listeners, VoteUpdate);
    assert Registered(s2.listeners, VoteUpdate) == (before + [h1]) + [h2] == before + [h1, h2];
    DeleteAppend(before, [h1, h2], h1);
    assert [h1, h2][1..] == [h2];
  }

  /** A `vote:update` that reaches the socket while two filters for its vote and the same
      subscriber are registered is delivered to that subscriber twice. */
  lemma TwoFiltersDeliverTwice(s: State, h1: Callback, h2: Callback, p: Packet, c: Config)
    requires Registered(s.listeners, VoteUpdate) == [h1, h2]
    requires h1.VoteFilter? && h2.VoteFilter? && h1.subscriber == h2.subscriber
    requires p.kind == VoteUpdate && p.payload.VoteUpdateBody?
    requires h1.voteId == h2.voteId == p.payload.updateVoteId
    ensures MessageStep(s, Some(p), c).delivered
            == s.delivered + [Delivery(h1.subscriber, p.payload), Delivery(h1.subscriber, p.payload)]
  {
    var e := DispatchInput(s);
    assert [h1, h2][..1] == [h1] && [h1][..0] == [];
    assert InvokeAll(e, [], p.payload, c.clientId) == e;
    var m := InvokeAll(e, [h1], p.payload, c.clientId);
    assert m == Invoke(e, h1, p.payload, c.clientId);
    VoteFilterForwardsOwnVote(e, h1.handle, h1.subscriber, h1.voteId, p.payload, c.clientId);
    VoteFilterForwardsOwnVote(m, h2.handle, h2.subscriber, h2.voteId, p.payload, c.clientId);
  }

  /** ... and with one such filter, once. */
  lemma OneFilterDeliversOnce(s: State, h: Callback, p: Packet, c: Config)
    requires Registered(s.listeners, VoteUpdate) == [h]
    requires h.VoteFilter? && p.kind == VoteUpdate && p.payload.VoteUpdateBody? && h.voteId == p.payload.updateVoteId
    ensures MessageStep(s, Some(p), c).delivered == s.delivered + [Delivery(h.subscriber, p.payload)]
  {
    var e := DispatchInput(s);
    assert [h][..0] == [];
    assert InvokeAll(e, [], p.payload, c.clientId) == e;
    VoteFilterForwardsOwnVote(e, h.handle, h.subscriber, h.voteId, p.payload, c.clientId);
  }

  /** Two `subscribeVotes` calls for the same vote and subscriber make two closures: an
      update that reaches the socket runs the callback twice, and after one of the two
      unsubscribe functions runs, the other closure still forwards it once. */
  lemma DuplicateSubscriptionsDeliverTwice(s: State, voteId: string, subscriber: nat, p: Packet, c: Config)
    requires Inv(s, c) && Registered(s.listeners, VoteUpdate) == []
    requires p.kind == VoteUpdate && p.payload.VoteUpdateBody? && p.payload.updateVoteId == voteId
    ensures var (s1, h1) := SubscribeVotesStep(s, voteId, subscriber);
            var (s2, h2) := SubscribeVotesStep(s1, voteId, subscriber);
            var s3 := UnsubscribeVotesStep(s2, h1);
            && h1 != h2
            && MessageStep(s2, Some(p), c).delivered
               == s.delivered + [Delivery(subscriber, p.payload), Delivery(subscriber, p.payload)]
            && Registered(s3.listeners, VoteUpdate) == [h2]
            && MessageStep(s3, Some(p), c).delivered == s.delivered + [Delivery(subscriber, p.payload)]
  {
    var (s1, h1) := SubscribeVotesStep(s, voteId, subscriber);
    var (s2, h2) := SubscribeVotesStep(s1, voteId, subscriber);
    ResubscribeRegistersTwice(s, voteId, subscriber, c);
    assert [] + [h1, h2] == [h1, h2] && [] + [h2] == [h2];
    TwoFiltersDeliverTwice(s2, h1, h2, p, c);
    OneFilterDeliversOnce(UnsubscribeVotesStep(s2, h1), h2, p, c);
  }

  // ---------------------------------------------------------------- request / response

  /** Whether a callback is the one-shot waiter of request `q` that answers payload `p`. */
  predicate Answers(cb: Callback, q: nat, p: Payload, clientId: string) {
    match cb
    case SendWaiter(r, content) => r == q && EchoMatches(p, clientId, content)
    case ListWaiter(r) => r == q
    case _ => false
  }

  /** Settling a request that is untouched or already settled with `p` settles it with
      `p`: after a first settlement, a second one changes nothing more. */
  lemma SettleAgain(reqs: map<nat, Request>, now: map<nat, Request>, q: nat, p: Payload)
    requires q in reqs && q in now
    requires now[q] == reqs[q] || now[q] == Settle(reqs, q, p)[q]
    ensures Settle(now, q, p)[q] == Settle(reqs, q, p)[q]
  {
  }

  /** One callback leaves request `q` alone or settles it with `p`; a waiter that answers
      settles it. */
  lemma InvokeKeepsOrSettles(e: Effects, cb: Callback, p: Payload, clientId: string, q: nat)
    requires q in e.requests
    ensures var r := Invoke(e, cb, p, clientId);
            q in r.requests &&
            (r.requests[q] == e.requests[q] || r.requests[q] == Settle(e.requests, q, p)[q])
    ensures Answers(cb, q, p, clientId) ==> Invoke(e, cb, p, clientId).requests[q] == Settle(e.requests, q, p)[q]
  {
  }

  /** During a dispatch of payload `p`, the request `q` is either untouched or settled
      with `p`. */
  lemma {:induction false} InvokeAllKeepsOrSettles(e: Effects, cbs: seq<Callback>, p: Payload, clientId: string, q: nat)
    requires q in e.requests
    ensures var r := InvokeAll(e, cbs, p, clientId);
            q in r.requests &&
            (r.requests[q] == e.requests[q] || r.requests[q] == Settle(e.requests, q, p)[q])
    decreases |cbs|
  {
    if cbs != [] {
      var mid := InvokeAll(e, cbs[..|cbs| - 1], p, clientId);
      InvokeAllKeepsOrSettles(e, cbs[..|cbs| - 1], p, clientId, q);
      InvokeKeepsOrSettles(mid, cbs[|cbs| - 1], p, clientId, q);
      SettleAgain(e.requests, mid.requests, q, p);
    }
  }

  /** If the waiter of `q` is among the callbacks and answers, the request ends settled
      with the dispatched payload. */
  lemma {:induction false} InvokeAllSettlesWaiter(e: Effects, cbs: seq<Callback>, p: Payload, clientId: string,
                                                 q: nat, cb: Callback)
    requires q in e.requests && cb in cbs && Answers(cb, q, p, clientId)
    requires !e.thrown && Quiet(cbs, p)
    ensures InvokeAll(e, cbs, p, clientId).requests[q] == Settle(e.requests, q, p)[q]
    decreases |cbs|
  {
    var prefix := cbs[..|cbs| - 1];
    var last := cbs[|cbs| - 1];
    var mid := InvokeAll(e, prefix, p, clientId);
    assert forall c :: c in prefix ==> c in cbs;
    InvokeAllThrows(e, prefix, p, clientId);
    assert InvokeAll(e, cbs, p, clientId) == Invoke(mid, last, p, clientId);
    if last == cb {
      InvokeAllKeepsOrSettles(e, prefix, p, clientId, q);
      InvokeKeepsOrSettles(mid, last, p, clientId, q);
      SettleAgain(e.requests, mid.requests, q, p);
    } else {
      assert cb in prefix by {
        var k :| 0 <= k < |cbs| && cbs[k] == cb;
        assert k < |cbs| - 1 && prefix[k] == cb;
      }
      InvokeAllSettlesWaiter(e, prefix, p, clientId, q, cb);
      InvokeKeepsOrSettles(mid, last, p, clientId, q);
      SettleAgain(e.requests, mid.requests, q, p);
    }
  }

  /** A dispatch never registers a callback. */
  lemma {:induction false} InvokeAllNoNewListeners(e: Effects, cbs: seq<Callback>, p: Payload, clientId: string,
                                                  t: MessageType, cb: Callback)
    requires cb !in Registered(e.listeners, t)
    ensures cb !in Registered(InvokeAll(e, cbs, p, clientId).listeners, t)
    decreases |cbs|
  {
    if cbs != [] {
      InvokeAllNoNewListeners(e, cbs[..|cbs| - 1], p, clientId, t, cb);
      InvokeNoNewListener(InvokeAll(e, cbs[..|cbs| - 1], p, clientId), cbs[|cbs| - 1], p, clientId, t, cb);
    }
  }

  /** One callback never registers a callback: the waiters only unregister themselves. */
  lemma InvokeNoNewListener(e: Effects, invoked: Callback, p: Payload, clientId: string, t: MessageType, cb: Callback)
    requires cb !in Registered(e.listeners, t)
    ensures cb !in Registered(Invoke(e, invoked, p, clientId).listeners, t)
  {
  }

  /** The waiter that answers unregisters itself, and stays unregistered. */
  lemma {:induction false} InvokeAllRemovesWaiter(e: Effects, cbs: seq<Callback>, p: Payload, clientId: string,
                                                 q: nat, cb: Callback, t: MessageType)
    requires cb in cbs && Answers(cb, q, p, clientId)
    requires !e.thrown && Quiet(cbs, p)
    requires t == (if cb.SendWaiter? then MessageNew else GuestList)
    ensures cb !in Registered(InvokeAll(e, cbs, p, clientId).listeners, t)
    decreases |cbs|
  {
    var prefix := cbs[..|cbs| - 1];
    var last := cbs[|cbs| - 1];
    assert forall c :: c in prefix ==> c in cbs;
    InvokeAllThrows(e, prefix, p, clientId);
    if last != cb {
      assert cb in prefix by {
        var k :| 0 <= k < |cbs| && cbs[k] == cb;
        assert k < |cbs| - 1 && prefix[k] == cb;
      }
      InvokeAllRemovesWaiter(e, prefix, p, clientId, q, cb, t);
      var mid := InvokeAll(e, prefix, p, clientId);
      InvokeAllNoNewListeners(mid, [last], p, clientId, t, cb);
      assert [last][..0] == [];
    }
  }

  /** `sendMessage` over a live socket: the request waits, and the echo of the message by
      this client resolves it with the echoed message and unregisters the waiter, unless a
      `message:new` callback registered before the send throws on the echo first. */
  lemma EchoResolvesSend(s: State, content: string, guestName: string, now: nat, post: Option<WallMessage>,
                         echo: Packet, c: Config)
    requires !s.mockMode && s.status != FallbackPolling
    requires echo.kind == MessageNew && EchoMatches(echo.payload, c.clientId, content)
    ensures var (s1, outcome) := SendMessageStep(s, content, guestName, now, post, c);
            var q := s.nextRequest;
            var s2 := MessageStep(s1, Some(echo), c);
            && outcome == AwaitingEcho(q)
            && s1.requests[q] == Request(SendRequest, Pending, true)
            && (Quiet(Registered(s.listeners, MessageNew), echo.payload) ==>
                  && q in s2.requests && s2.requests[q] == Request(SendRequest, Resolved(echo.payload), false)
                  && SendWaiter(q, content) !in Registered(s2.listeners, MessageNew))
  {
    var (s1, outcome) := SendMessageStep(s, content, guestName, now, post, c);
    var q := s.nextRequest;
    var cb := SendWaiter(q, content);
    var e := DispatchInput(s1);
    var cbs := Registered(s1.listeners, MessageNew);
    if Quiet(Registered(s.listeners, MessageNew), echo.payload) {
      assert cb in cbs && Quiet(cbs, echo.payload);
      InvokeAllSettlesWaiter(e, cbs, echo.payload, c.clientId, q, cb);
      InvokeAllRemovesWaiter(e, cbs, echo.payload, c.clientId, q, cb, MessageNew);
    }
  }

  /** A timed-out send is rejected but its waiter stays registered; a late echo leaves the
      rejection in place and, unless an earlier `message:new` callback throws on it,
      removes the waiter. */
  lemma TimedOutSendStaysRegistered(s: State, content: string, guestName: string, now: nat,
                                    post: Option<WallMessage>, echo: Packet, c: Config)
    requires !s.mockMode && s.status != FallbackPolling
    requires echo.kind == MessageNew && EchoMatches(echo.payload, c.clientId, content)
    ensures var s1 := SendMessageStep(s, content, guestName, now, post, c).0;
            var q := s.nextRequest;
            var s2 := TimeoutStep(s1, q);
            var s3 := MessageStep(s2, Some(echo), c);
            && s2.requests[q] == Request(SendRequest, Rejected("发送超时"), false)
            && SendWaiter(q, content) in Registered(s2.listeners, MessageNew)
            && q in s3.requests && s3.requests[q].state == Rejected("发送超时")
            && (Quiet(Registered(s.listeners, MessageNew), echo.payload) ==>
                  SendWaiter(q, content) !in Registered(s3.listeners, MessageNew))
  {
    var s1 := SendMessageStep(s, content, guestName, now, post, c).0;
    var q := s.nextRequest;
    var s2 := TimeoutStep(s1, q);
    var cb := SendWaiter(q, content);
    var e := DispatchInput(s2);
    var cbs := Registered(s2.listeners, MessageNew);
    InvokeAllKeepsOrSettles(e, cbs, echo.payload, c.clientId, q);
    if Quiet(Registered(s.listeners, MessageNew), echo.payload) {
      assert cb in cbs && Quiet(cbs, echo.payload);
      InvokeAllRemovesWaiter(e, cbs, echo.payload, c.clientId, q, cb, MessageNew);
    }
  }

  // ---------------------------------------------------------------- mock mode

  /** `sendMessage` in mock mode puts the new message first, with no likes, and returns it
      at once unless a `message:new` callback throws on it, which rejects the call with the
      message already stored; nothing is written to a socket. */
  lemma MockSendPrepends(s: State, content: string, guestName: string, now: nat, post: Option<WallMessage>, c: Config)
    requires s.mockMode
    ensures var (r, outcome) := SendMessageStep(s, content, guestName, now, post, c);
            var m := NewMessage(c, content, guestName, now);
            && (Quiet(Registered(s.listeners, MessageNew), MessageBody(m)) ==> outcome == Sent(m))
            && (!Quiet(Registered(s.listeners, MessageNew), MessageBody(m)) ==> outcome == SendFailed(ThrownReason))
            && r.mockMessages == [m] + s.mockMessages
            && m.likes == 0 && m.likedBy == [] && m.guestId == c.clientId
            && r.outbox == s.outbox && r.pollingState == s.pollingState
  {
    var m := NewMessage(c, content, guestName, now);
    InvokeAllThrows(DispatchInput(s), Registered(s.listeners, MessageNew), MessageBody(m), c.clientId);
  }

  /** Two stores with the same ids find the same message. */
  lemma {:induction false} FindMessageSameIds(a: seq<WallMessage>, b: seq<WallMessage>, id: string)
    requires |a| == |b| && forall k :: 0 <= k < |a| ==> a[k].id == b[k].id
    ensures FindMessage(a, id) == FindMessage(b, id)
  {
    if a != [] {
      FindMessageSameIds(a[1..], b[1..], id);
    }
  }

  /** A mock like adds exactly one like and appends the client to `likedBy`, so
      `likes - |likedBy|` is preserved for every message; other messages, the order and
      the length do not change; an unknown id changes nothing. */
  lemma MockLikeCounts(s: State, messageId: string, c: Config)
    requires s.mockMode
    ensures var r := LikeStep(s, messageId, c);
            && |r.mockMessages| == |s.mockMessages|
            && (forall k :: 0 <= k < |s.mockMessages| ==>
                  r.mockMessages[k].likes - |r.mockMessages[k].likedBy|
                  == s.mockMessages[k].likes - |s.mockMessages[k].likedBy|)
            && (FindMessage(s.mockMessages, messageId).None? ==> r == s)
            && (FindMessage(s.mockMessages, messageId).Some? ==>
                  var i := FindMessage(s.mockMessages, messageId).value;
                  && r.mockMessages[i].likes == s.mockMessages[i].likes + 1
                  && r.mockMessages[i].likedBy == s.mockMessages[i].likedBy + [c.clientId]
                  && (forall k :: 0 <= k < |s.mockMessages| && k != i ==> r.mockMessages[k] == s.mockMessages[k])
                  && var ev := Event(MessageLike, MessageBody(r.mockMessages[i]));
                  && r.delivered == Emit(DispatchInput(s), ev, c.clientId).delivered
                  && ((forall cb :: cb in Registered(s.listeners, MessageLike) ==> cb.Subscriber?) ==>
                        && r.listeners == s.listeners && r.requests == s.requests
                        && r.delivered == s.delivered + Fanout(Registered(s.listeners, MessageLike), ev.payload)))
            && r.outbox == s.outbox
  {
    match FindMessage(s.mockMessages, messageId)
    case None =>
    case Some(i) =>
      var cbs := Registered(s.listeners, MessageLike);
      if forall cb :: cb in cbs ==> cb.Subscriber? {
        var r := LikeStep(s, messageId, c);
        DispatchToSubscribers(DispatchInput(s), cbs,
                              MessageBody(r.mockMessages[i]), c.clientId);
      }
  }

  /** The mock like does not deduplicate: liking twice adds two likes and the client
      twice, whether or not the client had liked the message before. */
  lemma MockLikeTwiceCountsTwice(s: State, messageId: string, c: Config)
    requires s.mockMode && FindMessage(s.mockMessages, messageId).Some?
    ensures var i := FindMessage(s.mockMessages, messageId).value;
            var r := LikeStep(LikeStep(s, messageId, c), messageId, c);
            && r.mockMessages[i].likes == s.mockMessages[i].likes + 2
            && r.mockMessages[i].likedBy == s.mockMessages[i].likedBy + [c.clientId, c.clientId]
  {
    var r1 := LikeStep(s, messageId, c);
    MockLikeCounts(s, messageId, c);
    FindMessageSameIds(s.mockMessages, r1.mockMessages, messageId);
    MockLikeCounts(r1, messageId, c);
  }

  // ---------------------------------------------------------------- retries between opens

  /** The largest number of attempts a client with `attempts` used can reach without an
      `open` resetting the counter. */
  function RetryCeiling(attempts: int, c: Config): int {
    if attempts < c.reconnectAttempts then c.reconnectAttempts else attempts
  }

  /** From `s` to `r` the retry counter only grew, stayed under the ceiling, and every
      attempt it used appended exactly one delay to the log of scheduled retries. */
  ghost predicate CountsRetries(s: State, r: State, c: Config) {
    && s.scheduledDelays <= r.scheduledDelays
    && s.reconnectAttempts <= r.reconnectAttempts <= RetryCeiling(s.reconnectAttempts, c)
    && r.reconnectAttempts - s.reconnectAttempts == |r.scheduledDelays| - |s.scheduledDelays|
  }

  /** The failure path uses at most one attempt, and only while the budget lasts. */
  lemma FailureCountsRetries(s: State, c: Config)
    ensures CountsRetries(s, FailureStep(s, c), c)
  {
  }

  lemma ConnectCountsRetries(s: State, socketThrows: bool, c: Config)
    ensures CountsRetries(s, ConnectStep(s, socketThrows, c), c)
  {
    FailureCountsRetries(AnnounceStatus(s, Connecting), c);
  }

  lemma CloseCountsRetries(s: State, wasClean: bool, fromReplaced: bool, c: Config)
    ensures CountsRetries(s, CloseStep(s, wasClean, fromReplaced, c), c)
  {
    FailureCountsRetries(StopHeartbeatStep(s).(socket := if fromReplaced || s.socket == NoSocket then s.socket else Closed), c);
  }

  lemma ReconnectTimerCountsRetries(s: State, socketThrows: bool, c: Config)
    ensures CountsRetries(s, ReconnectTimerStep(s, socketThrows, c), c)
  {
    if s.reconnectTimer.Pending() {
      ConnectCountsRetries(s.(reconnectTimer := s.reconnectTimer.Fire()), socketThrows, c);
    }
  }

  lemma PollResponseCountsRetries(s: State, result: PollResult, c: Config)
    ensures CountsRetries(s, PollResponseStep(s, result, c), c)
  {
  }

  lemma PollTimerCountsRetries(s: State, c: Config)
    ensures CountsRetries(s, PollTimerStep(s, c), c)
  {
  }

  lemma SocketInputCountsRetries(s: State, i: Input, c: Config)
    requires i.DoConnect? || i.DoDisconnect? || i.SocketMessage? || i.SocketErrors?
             || i.SocketCloses? || i.ReconnectTimer? || i.PollSettles? || i.PollTimer? || i.HeartbeatTick?
    ensures CountsRetries(s, Step(s, i, c), c)
  {
    match i
    case DoConnect(t) => ConnectCountsRetries(s, t, c);
    case DoDisconnect =>
    case SocketMessage(f) =>
    case SocketErrors => FailureCountsRetries(s, c);
    case SocketCloses(clean, replaced) => CloseCountsRetries(s, clean, replaced, c);
    case ReconnectTimer(t) => ReconnectTimerCountsRetries(s, t, c);
    case PollSettles(res) => PollResponseCountsRetries(s, res, c);
    case PollTimer => PollTimerCountsRetries(s, c);
    case HeartbeatTick(now) =>
  }

  lemma ApiInputCountsRetries(s: State, i: Input, c: Config)
    requires !(i.DoConnect? || i.DoDisconnect? || i.SocketOpens? || i.SocketMessage? || i.SocketErrors?
               || i.SocketCloses? || i.ReconnectTimer? || i.PollSettles? || i.PollTimer? || i.HeartbeatTick?)
    ensures CountsRetries(s, Step(s, i, c), c)
  {
  }

  /** Every input other than an `open` counts retries. */
  lemma StepCountsRetries(s: State, i: Input, c: Config)
    requires !i.SocketOpens?
    ensures CountsRetries(s, Step(s, i, c), c)
  {
    if i.DoConnect? || i.DoDisconnect? || i.SocketMessage? || i.SocketErrors?
       || i.SocketCloses? || i.ReconnectTimer? || i.PollSettles? || i.PollTimer? || i.HeartbeatTick? {
      SocketInputCountsRetries(s, i, c);
    } else {
      ApiInputCountsRetries(s, i, c);
    }
  }

  /** Between two `open` events, however the socket, the timers and the application
      interleave (errors, unclean closes, closes of replaced sockets, throwing
      constructors), a client schedules at most the retries its budget has left. */
  lemma {:induction false} RetriesBetweenOpensBounded(s: State, inputs: seq<Input>, c: Config)
    requires forall k :: 0 <= k < |inputs| ==> !inputs[k].SocketOpens?
    decreases |inputs|
    ensures var r := Run(s, inputs, c);
            && r.reconnectAttempts - s.reconnectAttempts == |r.scheduledDelays| - |s.scheduledDelays|
            && s.scheduledDelays <= r.scheduledDelays
            && |r.scheduledDelays| - |s.scheduledDelays| <= RetryCeiling(s.reconnectAttempts, c) - s.reconnectAttempts
            && (0 <= c.reconnectAttempts ==> |r.scheduledDelays| - |s.scheduledDelays| <= c.reconnectAttempts)
  {
    if inputs != [] {
      var prefix := inputs[..|inputs| - 1];
      assert forall k :: 0 <= k < |prefix| ==> prefix[k] == inputs[k];
      RetriesBetweenOpensBounded(s, prefix, c);
      var m := Run(s, prefix, c);
      StepCountsRetries(m, inputs[|inputs| - 1], c);
    }
  }

  // ---------------------------------------------------------------- reachable states

  /** In every reachable state the retry counter stays within the budget. */
  lemma AttemptsWithinBudget(inputs: seq<Input>, c: Config, loadedAt: int)
    requires c.reconnectAttempts >= 0
    ensures Run(Initial(c, loadedAt), inputs, c).reconnectAttempts <= c.reconnectAttempts
  {
    InitialInv(c, loadedAt);
    RunKeepsInv(Initial(c, loadedAt), inputs, c);
  }
}
