/** The realtime client of lib/realtime/websocket-client.ts: connection life cycle with
    exponential-backoff reconnects, the HTTP polling fallback, the heartbeat, the
    in-browser mock mode, request/response over events, and the listener registry.

    The class `Client` has the source's fields. Everything the browser does on its own
    schedule is an explicit method: a socket event (`OnOpen`, `OnMessage`, `OnError`,
    `OnClose`), a timer firing (`ReconnectTimerFires`, `PollTimerFires`,
    `HeartbeatFires`, `MockLoadFires`, `RequestTimesOut`) or a fetch settling
    (`PollResponds`). Every method is proved equal, on the whole object, to a step
    function on the value `State`; the properties of the client are lemmas about those
    step functions (module `RealtimeClientProps`). */
module RealtimeClient {
  import opened Wrappers
  import opened TextUtil
  import opened RealtimeTypes
  import opened Registry

  /** The options handed to the constructor; an absent key is `None`. */
  datatype ClientOptions = ClientOptions(
    url: string,
    sessionId: string,
    clientId: string,
    reconnectAttempts: Option<int>,
    reconnectDelay: Option<int>,
    heartbeatInterval: Option<int>,
    enableFallback: Option<bool>,
    fallbackPollInterval: Option<int>,
    mockMode: Option<bool>)

  /** The resolved configuration. Its `mockMode` is only the initial value: the client
      keeps the current one in a field of its own, since it can switch to mock mode. */
  datatype Config = Config(
    url: string,
    sessionId: string,
    clientId: string,
    reconnectAttempts: int,
    reconnectDelay: int,
    heartbeatInterval: int,
    enableFallback: bool,
    fallbackPollInterval: int,
    mockMode: bool)

  /** Defaults first, then every option the caller gave. Mock mode is the caller's choice
      or, when absent, whether the page is served from a v0 preview host; the defaults of
      the retry budget and of the fallback follow that choice. */
  function ResolveConfig(o: ClientOptions, hostIsV0: bool): (c: Config)
    ensures c.url == o.url && c.sessionId == o.sessionId && c.clientId == o.clientId
    ensures o.mockMode.Some? ==> c.mockMode == o.mockMode.value
    ensures o.mockMode.None? ==> c.mockMode == hostIsV0
    ensures o.reconnectAttempts.None? ==> c.reconnectAttempts == (if c.mockMode then 0 else 5)
    ensures o.enableFallback.None? ==> c.enableFallback == !c.mockMode
    ensures o.reconnectAttempts.Some? ==> c.reconnectAttempts == o.reconnectAttempts.value
    ensures o.enableFallback.Some? ==> c.enableFallback == o.enableFallback.value
    ensures c.reconnectDelay == (if o.reconnectDelay.Some? then o.reconnectDelay.value else 1000)
    ensures c.heartbeatInterval == (if o.heartbeatInterval.Some? then o.heartbeatInterval.value else 30000)
    ensures c.fallbackPollInterval == (if o.fallbackPollInterval.Some? then o.fallbackPollInterval.value else 3000)
  {
    var mock := o.mockMode.GetOr(hostIsV0);
    Config(
      o.url, o.sessionId, o.clientId,
      o.reconnectAttempts.GetOr(if mock then 0 else 5),
      o.reconnectDelay.GetOr(1000),
      o.heartbeatInterval.GetOr(30000),
      o.enableFallback.GetOr(!mock),
      o.fallbackPollInterval.GetOr(3000),
      mock)
  }

  /** One timer field. `held` is whether the field holds a live handle; `stray` counts
      live timers whose handles were overwritten by a second schedule and so can no
      longer be cleared. */
  datatype TimerSlot = TimerSlot(held: bool, stray: nat) {
    predicate Pending() { held || stray > 0 }

    /** `field = setTimeout(...)` (or `setInterval`) without clearing first. */
    function Schedule(): (t: TimerSlot)
      ensures t.held && t.Pending()
      ensures t.stray == if held then stray + 1 else stray
    {
      TimerSlot(true, if held then stray + 1 else stray)
    }

    /** `clearTimeout(field); field = null`: only the handle still held is cancelled. */
    function Clear(): (t: TimerSlot)
      ensures !t.held && t.stray == stray
    {
      TimerSlot(false, stray)
    }

    /** A one-shot timer runs: the earliest scheduled one goes first. */
    function Fire(): (t: TimerSlot)
      requires Pending()
      ensures t.stray + (if t.held then 1 else 0) + 1 == stray + (if held then 1 else 0)
    {
      if stray > 0 then TimerSlot(held, stray - 1) else TimerSlot(false, 0)
    }
  }

  const Idle := TimerSlot(false, 0)

  /** What `this.ws` refers to; `Closed` is a socket whose `readyState` is no longer OPEN. */
  datatype Socket = NoSocket | Opening | Open | Closed

  /** A packet written to the socket (its random id and clock timestamp are not modelled). */
  datatype Outbound = Outbound(kind: MessageType, payload: Payload, clientId: string, sessionId: string)

  /** One invocation of a status listener. */
  datatype StatusDelivery = StatusDelivery(listener: nat, status: ConnectionStatus)

  /** How a poll request settled: a successful body, or a failure of any kind (network
      error, non-OK status, unreadable body). */
  datatype PollResult = PollOk(events: seq<Packet>, lastEventId: string) | PollFailed

  /** What `sendMessage` yields at once: the message, a rejection, or an id of the request
      that waits for its echo. */
  datatype SendOutcome = Sent(message: WallMessage) | SendFailed(reason: string) | AwaitingEcho(request: nat)

  /** What `getOnlineList` yields at once. */
  datatype ListOutcome = Listed(guests: seq<OnlineGuest>) | ListFailed(reason: string) | AwaitingList(request: nat)

  /** The whole mutable state of a client, as a value. */
  datatype State = State(
    mockMode: bool,
    status: ConnectionStatus,
    socket: Socket,
    listeners: Listeners,
    statusListeners: seq<nat>,
    heartbeatTimer: TimerSlot,
    reconnectTimer: TimerSlot,
    reconnectAttempts: nat,
    pollingState: Option<PollingState>,
    pollingTimer: TimerSlot,
    pollsInFlight: nat,
    mockMessages: seq<WallMessage>,
    mockOnlineGuests: seq<OnlineGuest>,
    mockLoadsPending: nat,
    requests: map<nat, Request>,
    nextRequest: nat,
    nextHandle: nat,
    outbox: seq<Outbound>,
    delivered: seq<Delivery>,
    statusDeliveries: seq<StatusDelivery>,
    pollRequests: seq<string>,
    scheduledDelays: seq<int>)

  /** What every reachable state satisfies. */
  ghost predicate Inv(s: State, c: Config) {
    && WellFormed(s.listeners)
    && NoDup(s.statusListeners)
    && (s.status == FallbackPolling ==> s.pollingState.Some?)
    && (s.reconnectAttempts <= c.reconnectAttempts || s.reconnectAttempts == 0)
    && (forall q :: q in s.requests ==> q < s.nextRequest)
    && (forall t, cb :: cb in Registered(s.listeners, t) && cb.VoteFilter? ==> cb.handle < s.nextHandle)
  }

  // ---------------------------------------------------------------- seed data

  /** The three seeded wall messages, timed relative to the moment the module loads. */
  function SeedMessages(loadedAt: int): (r: seq<WallMessage>)
    ensures |r| == 3
    ensures forall k :: 0 <= k < |r| ==> r[k].likedBy == [] && r[k].createdAt == r[k].updatedAt < loadedAt
  {
    [ WallMessage("mock_1", "guest_1", "李阿姨", None, "祝张波和邓芮新婚快乐，百年好合！", 15, [],
                  loadedAt - 3600000, loadedAt - 3600000),
      WallMessage("mock_2", "guest_2", "王叔叔", None, "早生贵子，幸福美满！洛阳的老朋友送上最诚挚的祝福！", 12, [],
                  loadedAt - 7200000, loadedAt - 7200000),
      WallMessage("mock_3", "guest_3", "张大伯", None, "侄子终于结婚了！祝你们永结同心，白头偕老！", 8, [],
                  loadedAt - 10800000, loadedAt - 10800000) ]
  }

  /** The four seeded online guests. */
  function SeedGuests(loadedAt: int): (r: seq<OnlineGuest>)
    ensures |r| == 4
    ensures forall k :: 0 <= k < |r| ==> r[k].joinedAt < loadedAt
  {
    [ OnlineGuest("guest_1", "李阿姨", None, None, loadedAt - 1800000, None, None),
      OnlineGuest("guest_2", "王叔叔", None, None, loadedAt - 3600000, None, None),
      OnlineGuest("guest_3", "张大伯", None, None, loadedAt - 900000, None, None),
      OnlineGuest("guest_4", "刘姨", None, None, loadedAt - 600000, None, None) ]
  }

  function Initial(c: Config, loadedAt: int): State {
    State(c.mockMode, Disconnected, NoSocket, map[], [], Idle, Idle, 0, None, Idle, 0,
          SeedMessages(loadedAt), SeedGuests(loadedAt), 0, map[], 0, 0, [], [], [], [], [])
  }

  // ---------------------------------------------------------------- helpers of the steps

  function Pow2(n: nat): (r: nat)
    ensures r >= 1
  {
    if n == 0 then 1 else 2 * Pow2(n - 1)
  }

  /** The delays of the first `n` reconnects after a healthy connection. */
  function Delays(base: int, n: nat): (r: seq<int>)
    ensures |r| == n
    ensures forall k :: 0 <= k < n ==> r[k] == base * Pow2(k)
  {
    seq(n, (k: int) requires 0 <= k < n => base * Pow2(k))
  }

  /** The calls of one status fan-out, in insertion order. */
  function Notices(ls: seq<nat>, st: ConnectionStatus): (r: seq<StatusDelivery>)
    decreases |ls|
    ensures |r| == |ls|
    ensures forall k :: 0 <= k < |ls| ==> r[k] == StatusDelivery(ls[k], st)
  {
    if ls == [] then [] else Notices(ls[..|ls| - 1], st) + [StatusDelivery(ls[|ls| - 1], st)]
  }

  /** A packet as the event `handlePacket` dispatches. */
  function PacketEvent(p: Packet): (ev: Event)
    ensures ev.kind == p.kind && ev.payload == p.payload
  {
    Event(p.kind, p.payload)
  }

  function PacketEvents(ps: seq<Packet>): (r: seq<Event>)
    ensures |r| == |ps|
    ensures forall k :: 0 <= k < |ps| ==> r[k] == PacketEvent(ps[k])
  {
    seq(|ps|, (k: int) requires 0 <= k < |ps| => PacketEvent(ps[k]))
  }

  /** The events of the mock initial load: each stored message, then the guest list. */
  function MockEvents(ms: seq<WallMessage>, gs: seq<OnlineGuest>): (r: seq<Event>)
    ensures |r| == |ms| + 1
    ensures forall k :: 0 <= k < |ms| ==> r[k] == Event(MessageNew, MessageBody(ms[k]))
    ensures r[|ms|] == Event(GuestList, GuestListBody(gs))
  {
    seq(|ms|, (k: int) requires 0 <= k < |ms| => Event(MessageNew, MessageBody(ms[k])))
      + [Event(GuestList, GuestListBody(gs))]
  }

  /** `mockMessages.find(m => m.id === id)`, as the index of the first match. */
  function FindMessage(ms: seq<WallMessage>, id: string): (r: Option<nat>)
    ensures r.Some? ==> r.value < |ms| && ms[r.value].id == id &&
                        forall k :: 0 <= k < r.value ==> ms[k].id != id
    ensures r.None? ==> forall k :: 0 <= k < |ms| ==> ms[k].id != id
  {
    if ms == [] then None
    else if ms[0].id == id then Some(0)
    else match FindMessage(ms[1..], id)
      case None => None
      case Some(i) => Some(i + 1)
  }

  /** The message `sendMessage` builds; both timestamps and the id come from one clock read. */
  function NewMessage(c: Config, content: string, guestName: string, now: nat): (m: WallMessage)
    ensures m.guestId == c.clientId && m.content == content && m.guestName == guestName
    ensures m.likes == 0 && m.likedBy == [] && m.createdAt == m.updatedAt == now
  {
    WallMessage("msg_" + NatToString(now), c.clientId, guestName, None, content, 0, [], now, now)
  }

  /** The error a timed-out request is rejected with. */
  function TimeoutReason(k: RequestKind): string {
    match k
    case SendRequest => "发送超时"
    case ListRequest => "请求超时"
  }

  // ---------------------------------------------------------------- steps

  /** `setStatus`: record the status, then call every status listener with it. */
  function AnnounceStatus(s: State, st: ConnectionStatus): State {
    s.(status := st, statusDeliveries := s.statusDeliveries + Notices(s.statusListeners, st))
  }

  /** `send`: nothing in mock mode; otherwise the packet is written only to an open socket. */
  function Transmit(s: State, kind: MessageType, payload: Payload, c: Config): State {
    if !s.mockMode && s.socket == Open
    then s.(outbox := s.outbox + [Outbound(kind, payload, c.clientId, c.sessionId)])
    else s
  }

  /** The part of the state a dispatch acts on, before anything has thrown. */
  function DispatchInput(s: State): Effects {
    Effects(s.listeners, s.requests, s.delivered, false)
  }

  /** `emit` / `handlePacket`; what the callbacks did up to a throw stays. */
  function Dispatch(s: State, ev: Event, c: Config): State {
    var e := Registry.Emit(DispatchInput(s), ev, c.clientId);
    s.(listeners := e.listeners, requests := e.requests, delivered := e.delivered)
  }

  /** Whether `emit` / `handlePacket` throws. */
  predicate DispatchThrows(s: State, ev: Event, c: Config) {
    Registry.Emit(DispatchInput(s), ev, c.clientId).thrown
  }

  function DispatchAll(s: State, evs: seq<Event>, c: Config): State {
    var e := EmitAll(DispatchInput(s), evs, c.clientId);
    s.(listeners := e.listeners, requests := e.requests, delivered := e.delivered)
  }

  predicate DispatchAllThrows(s: State, evs: seq<Event>, c: Config) {
    EmitAll(DispatchInput(s), evs, c.clientId).thrown
  }

  function StopHeartbeatStep(s: State): State {
    s.(heartbeatTimer := s.heartbeatTimer.Clear())
  }

  function StartHeartbeatStep(s: State): State {
    if s.mockMode then s else s.(heartbeatTimer := s.heartbeatTimer.Schedule())
  }

  function StopPollingStep(s: State): State {
    s.(pollingTimer := s.pollingTimer.Clear(), pollingState := None)
  }

  /** `poll`, up to the moment its request is on the wire. */
  function PollStep(s: State, c: Config): State {
    if s.status != FallbackPolling || s.pollingState.None? then s
    else s.(pollsInFlight := s.pollsInFlight + 1,
            pollRequests := s.pollRequests + [s.pollingState.value.lastEventId])
  }

  /** `startPollingFallback`: announce, reset the cursor, poll at once. */
  function FallbackStep(s: State, c: Config): State {
    var s1 := AnnounceStatus(s, FallbackPolling);
    PollStep(s1.(pollingState := Some(PollingState("", c.fallbackPollInterval, 0, 3))), c)
  }

  /** `handleConnectionFailure`. */
  function FailureStep(s: State, c: Config): State {
    if s.mockMode then AnnounceStatus(s, Connected)
    else if s.reconnectAttempts < c.reconnectAttempts then
      var s1 := AnnounceStatus(s, Reconnecting);
      var n := s1.reconnectAttempts + 1;
      s1.(reconnectAttempts := n,
          reconnectTimer := s1.reconnectTimer.Schedule(),
          scheduledDelays := s1.scheduledDelays + [c.reconnectDelay * Pow2(n - 1)])
    else if c.enableFallback then FallbackStep(s, c)
    else AnnounceStatus(s.(mockMode := true), Connected)
  }

  /** `connect`; `socketThrows` is whether the `WebSocket` constructor throws. */
  function ConnectStep(s: State, socketThrows: bool, c: Config): State {
    if s.mockMode then
      AnnounceStatus(s, Connected).(mockLoadsPending := s.mockLoadsPending + 1)
    else if s.status == Connected || s.status == Connecting then s
    else
      var s1 := AnnounceStatus(s, Connecting);
      if socketThrows then FailureStep(s1, c) else s1.(socket := Opening)
  }

  function CleanupStep(s: State): State {
    var s1 := StopPollingStep(StopHeartbeatStep(s));
    s1.(reconnectTimer := s1.reconnectTimer.Clear(), socket := NoSocket)
  }

  /** `disconnect`. */
  function DisconnectStep(s: State, c: Config): State {
    AnnounceStatus(CleanupStep(s), Disconnected)
  }

  /** The socket's `open` handler. */
  function OpenStep(s: State, c: Config): State {
    var s1 := AnnounceStatus(s.(socket := Open), Connected);
    var s2 := StartHeartbeatStep(s1.(reconnectAttempts := 0));
    var s3 := StopPollingStep(s2);
    Transmit(s3, GuestJoin, JoinAnnouncement(c.clientId, c.sessionId), c)
  }

  /** The socket's `message` handler; `None` is a frame that does not parse. */
  function MessageStep(s: State, frame: Option<Packet>, c: Config): State {
    match frame
    case None => s
    case Some(p) => Dispatch(s, PacketEvent(p), c)
  }

  /** The socket's `error` handler. */
  function ErrorStep(s: State, c: Config): State {
    if s.mockMode then s else FailureStep(s, c)
  }

  /** The `close` handler of a socket; `fromReplaced` says the event comes from a socket that
      `this.ws` no longer refers to (one `cleanup` closed, or one a reconnect replaced), whose
      handler still runs but leaves the current socket alone. */
  function CloseStep(s: State, wasClean: bool, fromReplaced: bool, c: Config): State {
    var s1 := StopHeartbeatStep(s).(socket := if fromReplaced || s.socket == NoSocket then s.socket else Closed);
    if wasClean then AnnounceStatus(s1, Disconnected) else FailureStep(s1, c)
  }

  /** A reconnect timer runs `connect`. */
  function ReconnectTimerStep(s: State, socketThrows: bool, c: Config): State {
    if !s.reconnectTimer.Pending() then s
    else ConnectStep(s.(reconnectTimer := s.reconnectTimer.Fire()), socketThrows, c)
  }

  /** The body of a settled poll, before the next poll is scheduled. A callback that throws
      while the events are dispatched ends the `try` block: the remaining events are
      skipped and the `catch` counts a retry, after the cursor has moved. */
  function AbsorbPollStep(s: State, result: PollResult, c: Config): State {
    match result
    case PollOk(events, last) =>
      if s.pollingState.Some? then
        var s1 := s.(pollingState := Some(s.pollingState.value.(lastEventId := last, retryCount := 0)));
        var s2 := DispatchAll(s1, PacketEvents(events), c);
        if DispatchAllThrows(s1, PacketEvents(events), c)
        then s2.(pollingState := Some(s2.pollingState.value.(retryCount := s2.pollingState.value.retryCount + 1)))
        else s2
      else s
    case PollFailed =>
      if s.pollingState.Some?
      then s.(pollingState := Some(s.pollingState.value.(retryCount := s.pollingState.value.retryCount + 1)))
      else s
  }

  /** A poll request settles. A response arriving after polling was stopped cannot update
      the cursor, but the next poll is scheduled in every case. */
  function PollResponseStep(s: State, result: PollResult, c: Config): State {
    if s.pollsInFlight == 0 then s
    else
      var s2 := AbsorbPollStep(s.(pollsInFlight := s.pollsInFlight - 1), result, c);
      s2.(pollingTimer := s2.pollingTimer.Schedule())
  }

  /** A polling timer runs `poll`. */
  function PollTimerStep(s: State, c: Config): State {
    if !s.pollingTimer.Pending() then s
    else PollStep(s.(pollingTimer := s.pollingTimer.Fire()), c)
  }

  /** The heartbeat interval ticks (an interval is not consumed by running). */
  function HeartbeatStep(s: State, now: int, c: Config): State {
    if !s.heartbeatTimer.Pending() then s
    else Transmit(s, Heartbeat, HeartbeatBody(now), c)
  }

  /** The delayed initial load of mock mode. */
  function MockLoadStep(s: State, c: Config): State {
    if s.mockLoadsPending == 0 then s
    else DispatchAll(s.(mockLoadsPending := s.mockLoadsPending - 1),
                     MockEvents(s.mockMessages, s.mockOnlineGuests), c)
  }

  /** A request that waits for an event: a fresh pending promise with its timeout, a
      one-shot handler registered, and the request packet sent. */
  function AwaitStep(s: State, rk: RequestKind, t: MessageType, cb: Callback,
                     kind: MessageType, payload: Payload, c: Config): State {
    Transmit(Listen(OpenRequest(s, rk), t, cb), kind, payload, c)
  }

  /** A fresh pending request with its timeout running. */
  function OpenRequest(s: State, rk: RequestKind): State {
    s.(requests := s.requests[s.nextRequest := Request(rk, Pending, true)], nextRequest := s.nextRequest + 1)
  }

  /** The internal `on` that a waiting request uses. */
  function Listen(s: State, t: MessageType, cb: Callback): State {
    s.(listeners := Registry.On(s.listeners, t, cb))
  }

  /** `sendMessage` in mock mode: the message goes first in the store and is emitted. */
  function MockSendStep(s: State, m: WallMessage, c: Config): State {
    Dispatch(s.(mockMessages := [m] + s.mockMessages), Event(MessageNew, MessageBody(m)), c)
  }

  /** The rejection of an `async` call whose body threw a `TypeError`. */
  const ThrownReason := "TypeError"

  /** `sendMessage`; `post` is the body of the fallback's POST, `None` when it fails. In mock
      mode a `message:new` callback that throws rejects the promise, after the message
      was stored. */
  function SendMessageStep(s: State, content: string, guestName: string, now: nat,
                           post: Option<WallMessage>, c: Config): (State, SendOutcome) {
    var m := NewMessage(c, content, guestName, now);
    if s.mockMode then
      (MockSendStep(s, m, c), if DispatchThrows(s, Event(MessageNew, MessageBody(m)), c) then SendFailed(ThrownReason) else Sent(m))
    else if s.status == FallbackPolling then
      (s, if post.Some? then Sent(post.value) else SendFailed("发送消息失败"))
    else
      (AwaitStep(s, SendRequest, MessageNew, SendWaiter(s.nextRequest, content), MessageNew, MessageBody(m), c),
       AwaitingEcho(s.nextRequest))
  }

  /** `getOnlineList`; `fetched` is the body of the fallback's GET, `None` when it fails. */
  function GetOnlineListStep(s: State, fetched: Option<seq<OnlineGuest>>, c: Config): (State, ListOutcome) {
    if s.mockMode then (s, Listed(s.mockOnlineGuests))
    else if s.status == FallbackPolling then
      (s, if fetched.Some? then Listed(fetched.value) else ListFailed("获取在线列表失败"))
    else
      (AwaitStep(s, ListRequest, GuestList, ListWaiter(s.nextRequest), SyncRequest, SyncRequestBody(GuestList), c),
       AwaitingList(s.nextRequest))
  }

  /** A request's timeout runs: it rejects the promise (a no-op once settled) and leaves
      the waiting handler registered. */
  function TimeoutStep(s: State, req: nat): State {
    if req in s.requests && s.requests[req].timerPending then
      var q := s.requests[req];
      s.(requests := s.requests[req := Request(q.kind, if q.state.Pending? then Rejected(TimeoutReason(q.kind)) else q.state, false)])
    else s
  }

  /** `likeMessage`. */
  function LikeStep(s: State, messageId: string, c: Config): State {
    if s.mockMode then
      match FindMessage(s.mockMessages, messageId)
      case None => s
      case Some(i) =>
        var m := s.mockMessages[i];
        var liked := m.(likes := m.likes + 1, likedBy := m.likedBy + [c.clientId]);
        Dispatch(s.(mockMessages := s.mockMessages[i := liked]), Event(MessageLike, MessageBody(liked)), c)
    else Transmit(s, MessageLike, LikeRequest(messageId, c.clientId), c)
  }

  /** `subscribeVotes`: a new filtering closure, told apart from every earlier one by its
      handle, is added to the `vote:update` set; the returned unsubscribe function removes
      exactly that closure. */
  function SubscribeVotesStep(s: State, voteId: string, subscriber: nat): (State, Callback) {
    var handler := VoteFilter(s.nextHandle, subscriber, voteId);
    (s.(listeners := Registry.On(s.listeners, VoteUpdate, handler), nextHandle := s.nextHandle + 1), handler)
  }

  /** The unsubscribe function returned by `subscribeVotes`. */
  function UnsubscribeVotesStep(s: State, handler: Callback): State {
    s.(listeners := Registry.Off(s.listeners, VoteUpdate, handler))
  }

  /** `castVote`. */
  function CastVoteStep(s: State, voteId: string, optionId: string, c: Config): State {
    Transmit(s, VoteCast, VoteRequest(voteId, optionId, c.clientId), c)
  }

  // ---------------------------------------------------------------- the transition system

  /** Everything that can happen to a client: a call by the application, or an event from
      the socket, a timer or a fetch. */
  datatype Input =
    | DoConnect(socketThrows: bool)
    | DoDisconnect
    | SocketOpens
    | SocketMessage(frame: Option<Packet>)
    | SocketErrors
    | SocketCloses(wasClean: bool, fromReplaced: bool)
    | ReconnectTimer(retryThrows: bool)
    | PollSettles(result: PollResult)
    | PollTimer
    | HeartbeatTick(now: int)
    | MockLoad
    | DoSendMessage(content: string, guestName: string, sentAt: nat, post: Option<WallMessage>)
    | DoGetOnlineList(fetched: Option<seq<OnlineGuest>>)
    | RequestTimeout(req: nat)
    | DoLike(messageId: string)
    | DoCastVote(voteId: string, optionId: string)
    | DoOn(kind: MessageType, cb: nat)
    | DoOff(offKind: MessageType, offCb: nat)
    | DoSubscribeVotes(voteId: string, subscriber: nat)
    | DoUnsubscribeVotes(handler: Callback)
    | DoOnStatusChange(listener: nat)
    | DoOffStatusChange(offListener: nat)

  function Step(s: State, i: Input, c: Config): State {
    match i
    case DoConnect(t) => ConnectStep(s, t, c)
    case DoDisconnect => DisconnectStep(s, c)
    case SocketOpens => OpenStep(s, c)
    case SocketMessage(f) => MessageStep(s, f, c)
    case SocketErrors => ErrorStep(s, c)
    case SocketCloses(clean, replaced) => CloseStep(s, clean, replaced, c)
    case ReconnectTimer(t) => ReconnectTimerStep(s, t, c)
    case PollSettles(res) => PollResponseStep(s, res, c)
    case PollTimer => PollTimerStep(s, c)
    case HeartbeatTick(now) => HeartbeatStep(s, now, c)
    case MockLoad => MockLoadStep(s, c)
    case DoSendMessage(content, name, now, post) => SendMessageStep(s, content, name, now, post, c).0
    case DoGetOnlineList(fetched) => GetOnlineListStep(s, fetched, c).0
    case RequestTimeout(req) => TimeoutStep(s, req)
    case DoLike(id) => LikeStep(s, id, c)
    case DoCastVote(v, o) => CastVoteStep(s, v, o, c)
    case DoOn(t, id) => Listen(s, t, Subscriber(id))
    case DoOff(t, id) => s.(listeners := Registry.Off(s.listeners, t, Subscriber(id)))
    case DoSubscribeVotes(v, id) => SubscribeVotesStep(s, v, id).0
    case DoUnsubscribeVotes(h) => UnsubscribeVotesStep(s, h)
    case DoOnStatusChange(id) => s.(statusListeners := Insert(s.statusListeners, id))
    case DoOffStatusChange(id) => s.(statusListeners := Delete(s.statusListeners, id))
  }

  /** The state after a sequence of inputs, applied from the first. */
  function Run(s: State, inputs: seq<Input>, c: Config): State
    decreases |inputs|
  {
    if inputs == [] then s else Step(Run(s, inputs[..|inputs| - 1], c), inputs[|inputs| - 1], c)
  }

  lemma DispatchKeepsInv(s: State, ev: Event, c: Config)
    requires Inv(s, c)
    ensures Inv(Dispatch(s, ev, c), c)
  {
  }

  lemma DispatchAllKeepsInv(s: State, evs: seq<Event>, c: Config)
    requires Inv(s, c)
    ensures Inv(DispatchAll(s, evs, c), c)
  {
  }

  lemma FailureKeepsInv(s: State, c: Config)
    requires Inv(s, c)
    ensures Inv(FailureStep(s, c), c)
  {
  }

  lemma ConnectKeepsInv(s: State, socketThrows: bool, c: Config)
    requires Inv(s, c)
    ensures Inv(ConnectStep(s, socketThrows, c), c)
  {
    if !s.mockMode && s.status != Connected && s.status != Connecting && socketThrows {
      FailureKeepsInv(AnnounceStatus(s, Connecting), c);
    }
  }

  lemma DisconnectKeepsInv(s: State, c: Config)
    requires Inv(s, c)
    ensures Inv(DisconnectStep(s, c), c)
  {
  }

  lemma OpenKeepsInv(s: State, c: Config)
    requires Inv(s, c)
    ensures Inv(OpenStep(s, c), c)
  {
  }

  lemma MessageKeepsInv(s: State, frame: Option<Packet>, c: Config)
    requires Inv(s, c)
    ensures Inv(MessageStep(s, frame, c), c)
  {
  }

  lemma ErrorKeepsInv(s: State, c: Config)
    requires Inv(s, c)
    ensures Inv(ErrorStep(s, c), c)
  {
    if !s.mockMode {
      FailureKeepsInv(s, c);
    }
  }

  lemma CloseKeepsInv(s: State, wasClean: bool, fromReplaced: bool, c: Config)
    requires Inv(s, c)
    ensures Inv(CloseStep(s, wasClean, fromReplaced, c), c)
  {
    if !wasClean {
      FailureKeepsInv(StopHeartbeatStep(s).(socket := if fromReplaced || s.socket == NoSocket then s.socket else Closed), c);
    }
  }

  lemma ReconnectTimerKeepsInv(s: State, socketThrows: bool, c: Config)
    requires Inv(s, c)
    ensures Inv(ReconnectTimerStep(s, socketThrows, c), c)
  {
    if s.reconnectTimer.Pending() {
      ConnectKeepsInv(s.(reconnectTimer := s.reconnectTimer.Fire()), socketThrows, c);
    }
  }

  lemma AbsorbPollKeepsInv(s: State, result: PollResult, c: Config)
    requires Inv(s, c)
    ensures Inv(AbsorbPollStep(s, result, c), c)
  {
    if result.PollOk? && s.pollingState.Some? {
      DispatchAllKeepsInv(s.(pollingState := Some(s.pollingState.value.(lastEventId := result.lastEventId, retryCount := 0))),
                          PacketEvents(result.events), c);
    }
  }

  lemma PollResponseKeepsInv(s: State, result: PollResult, c: Config)
    requires Inv(s, c)
    ensures Inv(PollResponseStep(s, result, c), c)
  {
    if s.pollsInFlight > 0 {
      AbsorbPollKeepsInv(s.(pollsInFlight := s.pollsInFlight - 1), result, c);
    }
  }

  lemma PollTimerKeepsInv(s: State, c: Config)
    requires Inv(s, c)
    ensures Inv(PollTimerStep(s, c), c)
  {
  }

  lemma HeartbeatKeepsInv(s: State, now: int, c: Config)
    requires Inv(s, c)
    ensures Inv(HeartbeatStep(s, now, c), c)
  {
  }

  lemma MockLoadKeepsInv(s: State, c: Config)
    requires Inv(s, c)
    ensures Inv(MockLoadStep(s, c), c)
  {
    if s.mockLoadsPending > 0 {
      DispatchAllKeepsInv(s.(mockLoadsPending := s.mockLoadsPending - 1), MockEvents(s.mockMessages, s.mockOnlineGuests), c);
    }
  }

  /** Registering anything but a vote filter keeps the invariant. */
  lemma OnKeepsInv(s: State, t: MessageType, cb: Callback, c: Config)
    requires Inv(s, c) && !cb.VoteFilter?
    ensures Inv(Listen(s, t, cb), c)
  {
    var ls := Registry.On(s.listeners, t, cb);
    OnKeepsOthers(s.listeners, t, cb);
    assert forall x :: x in Registered(ls, t) ==> x in Registered(s.listeners, t) || x == cb;
  }

  /** Unregistering keeps the invariant. */
  lemma OffKeepsInv(s: State, t: MessageType, cb: Callback, c: Config)
    requires Inv(s, c)
    ensures Inv(s.(listeners := Registry.Off(s.listeners, t, cb)), c)
  {
    var ls := Registry.Off(s.listeners, t, cb);
    assert forall x :: x in Registered(ls, t) ==> x in Registered(s.listeners, t);
  }

  lemma TransmitKeepsInv(s: State, kind: MessageType, payload: Payload, c: Config)
    requires Inv(s, c)
    ensures Inv(Transmit(s, kind, payload, c), c)
  {
  }

  lemma NewRequestKeepsInv(s: State, rk: RequestKind, c: Config)
    requires Inv(s, c)
    ensures Inv(OpenRequest(s, rk), c)
  {
  }

  lemma AwaitKeepsInv(s: State, rk: RequestKind, t: MessageType, cb: Callback,
                      kind: MessageType, payload: Payload, c: Config)
    requires Inv(s, c) && !cb.VoteFilter?
    ensures Inv(AwaitStep(s, rk, t, cb, kind, payload, c), c)
  {
    NewRequestKeepsInv(s, rk, c);
    OnKeepsInv(OpenRequest(s, rk), t, cb, c);
    TransmitKeepsInv(Listen(OpenRequest(s, rk), t, cb), kind, payload, c);
  }

  lemma SendMessageKeepsInv(s: State, content: string, guestName: string, now: nat, post: Option<WallMessage>, c: Config)
    requires Inv(s, c)
    ensures Inv(SendMessageStep(s, content, guestName, now, post, c).0, c)
  {
    if !s.mockMode && s.status != FallbackPolling {
      var m := NewMessage(c, content, guestName, now);
      AwaitKeepsInv(s, SendRequest, MessageNew, SendWaiter(s.nextRequest, content), MessageNew, MessageBody(m), c);
    }
  }

  lemma GetOnlineListKeepsInv(s: State, fetched: Option<seq<OnlineGuest>>, c: Config)
    requires Inv(s, c)
    ensures Inv(GetOnlineListStep(s, fetched, c).0, c)
  {
    if !s.mockMode && s.status != FallbackPolling {
      AwaitKeepsInv(s, ListRequest, GuestList, ListWaiter(s.nextRequest), SyncRequest, SyncRequestBody(GuestList), c);
    }
  }

  lemma TimeoutKeepsInv(s: State, req: nat, c: Config)
    requires Inv(s, c)
    ensures Inv(TimeoutStep(s, req), c)
  {
  }

  lemma LikeKeepsInv(s: State, messageId: string, c: Config)
    requires Inv(s, c)
    ensures Inv(LikeStep(s, messageId, c), c)
  {
  }

  lemma SubscribeVotesKeepsInv(s: State, voteId: string, subscriber: nat, c: Config)
    requires Inv(s, c)
    ensures Inv(SubscribeVotesStep(s, voteId, subscriber).0, c)
  {
    OnKeepsOthers(s.listeners, VoteUpdate, VoteFilter(s.nextHandle, subscriber, voteId));
  }

  lemma CastVoteKeepsInv(s: State, voteId: string, optionId: string, c: Config)
    requires Inv(s, c)
    ensures Inv(CastVoteStep(s, voteId, optionId, c), c)
  {
  }

  /** The socket's events and the client's timers keep the invariant. */
  lemma SocketInputKeepsInv(s: State, i: Input, c: Config)
    requires Inv(s, c)
    requires i.DoConnect? || i.DoDisconnect? || i.SocketOpens? || i.SocketMessage? || i.SocketErrors?
             || i.SocketCloses? || i.ReconnectTimer? || i.PollSettles? || i.PollTimer? || i.HeartbeatTick?
    ensures Inv(Step(s, i, c), c)
  {
    match i
    case DoConnect(t) => ConnectKeepsInv(s, t, c);
    case DoDisconnect => DisconnectKeepsInv(s, c);
    case SocketOpens => OpenKeepsInv(s, c);
    case SocketMessage(f) => MessageKeepsInv(s, f, c);
    case SocketErrors => ErrorKeepsInv(s, c);
    case SocketCloses(clean, replaced) => CloseKeepsInv(s, clean, replaced, c);
    case ReconnectTimer(t) => ReconnectTimerKeepsInv(s, t, c);
    case PollSettles(res) => PollResponseKeepsInv(s, res, c);
    case PollTimer => PollTimerKeepsInv(s, c);
    case HeartbeatTick(now) => HeartbeatKeepsInv(s, now, c);
  }

  /** The public operations and the mock load keep the invariant. */
  lemma ListenerInputKeepsInv(s: State, i: Input, c: Config)
    requires Inv(s, c)
    requires i.DoOn? || i.DoOff?
    ensures Inv(Step(s, i, c), c)
  {
    match i
    case DoOn(t, id) => OnKeepsInv(s, t, Subscriber(id), c);
    case DoOff(t, id) => OffKeepsInv(s, t, Subscriber(id), c);
  }

  lemma VoteSubscriptionInputKeepsInv(s: State, i: Input, c: Config)
    requires Inv(s, c)
    requires i.DoSubscribeVotes? || i.DoUnsubscribeVotes?
    ensures Inv(Step(s, i, c), c)
  {
    match i
    case DoSubscribeVotes(v, id) => SubscribeVotesKeepsInv(s, v, id, c);
    case DoUnsubscribeVotes(h) => OffKeepsInv(s, VoteUpdate, h, c);
  }

  lemma ApiInputKeepsInv(s: State, i: Input, c: Config)
    requires Inv(s, c)
    requires !(i.DoConnect? || i.DoDisconnect? || i.SocketOpens? || i.SocketMessage? || i.SocketErrors?
               || i.SocketCloses? || i.ReconnectTimer? || i.PollSettles? || i.PollTimer? || i.HeartbeatTick?)
    ensures Inv(Step(s, i, c), c)
  {
    match i
    case MockLoad => MockLoadKeepsInv(s, c);
    case DoSendMessage(content, name, now, post) => SendMessageKeepsInv(s, content, name, now, post, c);
    case DoGetOnlineList(fetched) => GetOnlineListKeepsInv(s, fetched, c);
    case RequestTimeout(req) => TimeoutKeepsInv(s, req, c);
    case DoLike(id) => LikeKeepsInv(s, id, c);
    case DoCastVote(v, o) => CastVoteKeepsInv(s, v, o, c);
    case DoOn(_, _) => ListenerInputKeepsInv(s, i, c);
    case DoOff(_, _) => ListenerInputKeepsInv(s, i, c);
    case DoSubscribeVotes(_, _) => VoteSubscriptionInputKeepsInv(s, i, c);
    case DoUnsubscribeVotes(_) => VoteSubscriptionInputKeepsInv(s, i, c);
    case DoOnStatusChange(_) =>
    case DoOffStatusChange(_) =>
  }

  /** Every transition keeps the invariant. */
  lemma StepKeepsInv(s: State, i: Input, c: Config)
    requires Inv(s, c)
    ensures Inv(Step(s, i, c), c)
  {
    if i.DoConnect? || i.DoDisconnect? || i.SocketOpens? || i.SocketMessage? || i.SocketErrors?
       || i.SocketCloses? || i.ReconnectTimer? || i.PollSettles? || i.PollTimer? || i.HeartbeatTick? {
      SocketInputKeepsInv(s, i, c);
    } else {
      ApiInputKeepsInv(s, i, c);
    }
  }

  /** The invariant holds in every state reachable from a freshly constructed client. */
  lemma {:induction false} RunKeepsInv(s: State, inputs: seq<Input>, c: Config)
    requires Inv(s, c)
    ensures Inv(Run(s, inputs, c), c)
    decreases |inputs|
  {
    if inputs != [] {
      RunKeepsInv(s, inputs[..|inputs| - 1], c);
      StepKeepsInv(Run(s, inputs[..|inputs| - 1], c), inputs[|inputs| - 1], c);
    }
  }

  lemma InitialInv(c: Config, loadedAt: int)
    ensures Inv(Initial(c, loadedAt), c)
  {
  }

  // ---------------------------------------------------------------- the class

  class Client {
    const config: Config
    var mockMode: bool
    var status: ConnectionStatus
    var socket: Socket
    var listeners: Listeners
    var statusListeners: seq<nat>
    var heartbeatTimer: TimerSlot
    var reconnectTimer: TimerSlot
    var reconnectAttempts: nat
    var pollingState: Option<PollingState>
    var pollingTimer: TimerSlot
    var pollsInFlight: nat
    var mockMessages: seq<WallMessage>
    var mockOnlineGuests: seq<OnlineGuest>
    var mockLoadsPending: nat
    var requests: map<nat, Request>
    var nextRequest: nat
    var nextHandle: nat
    var outbox: seq<Outbound>
    var delivered: seq<Delivery>
    var statusDeliveries: seq<StatusDelivery>
    var pollRequests: seq<string>
    var scheduledDelays: seq<int>

    ghost function Snapshot(): State
      reads this
    {
      State(mockMode, status, socket, listeners, statusListeners, heartbeatTimer, reconnectTimer,
            reconnectAttempts, pollingState, pollingTimer, pollsInFlight, mockMessages,
            mockOnlineGuests, mockLoadsPending, requests, nextRequest, nextHandle, outbox, delivered,
            statusDeliveries, pollRequests, scheduledDelays)
    }

    ghost predicate Valid()
      reads this
    {
      Inv(Snapshot(), config)
    }

    /** `loadedAt` is the clock when the module was loaded (the seeds' time base). */
    constructor (options: ClientOptions, hostIsV0: bool, loadedAt: int)
      ensures config == ResolveConfig(options, hostIsV0)
      ensures Snapshot() == Initial(config, loadedAt)
      ensures Valid()
    {
      config := ResolveConfig(options, hostIsV0);
      mockMode := ResolveConfig(options, hostIsV0).mockMode;
      status := Disconnected;
      socket := NoSocket;
      listeners := map[];
      statusListeners := [];
      heartbeatTimer, reconnectTimer, pollingTimer := Idle, Idle, Idle;
      reconnectAttempts := 0;
      pollingState := None;
      pollsInFlight := 0;
      mockMessages := SeedMessages(loadedAt);
      mockOnlineGuests := SeedGuests(loadedAt);
      mockLoadsPending := 0;
      requests := map[];
      nextRequest, nextHandle := 0, 0;
      outbox, delivered, statusDeliveries, pollRequests, scheduledDelays := [], [], [], [], [];
    }

    // Every method below either assigns fields (and says how its snapshot differs from the
    // old one) or only calls other methods; the public handlers then prove the invariant.

    /** `setStatus`. */
    method SetStatus(st: ConnectionStatus)
      modifies this`status, this`statusDeliveries
      ensures Snapshot() == AnnounceStatus(old(Snapshot()), st)
    {
      var notices := NoticesOf(statusListeners, st);
      Record(st, notices);
    }

    /** `statusListeners.forEach(cb => cb(status))`. */
    method NoticesOf(ls: seq<nat>, st: ConnectionStatus) returns (r: seq<StatusDelivery>)
      ensures r == Notices(ls, st)
    {
      r := [];
      var i := 0;
      while i < |ls|
        invariant 0 <= i <= |ls|
        invariant r == Notices(ls[..i], st)
      {
        assert ls[..i + 1][..i] == ls[..i];
        r := r + [StatusDelivery(ls[i], st)];
        i := i + 1;
      }
      assert ls[..i] == ls;
    }

    method Record(st: ConnectionStatus, notices: seq<StatusDelivery>)
      modifies this`status, this`statusDeliveries
      ensures Snapshot() == old(Snapshot()).(status := st, statusDeliveries := old(statusDeliveries) + notices)
    {
      status, statusDeliveries := st, statusDeliveries + notices;
    }

    /** `send`. */
    method Send(kind: MessageType, payload: Payload)
      modifies this`outbox
      ensures Snapshot() == Transmit(old(Snapshot()), kind, payload, config)
    {
      if !mockMode && socket == Open {
        outbox := outbox + [Outbound(kind, payload, config.clientId, config.sessionId)];
      }
    }

    /** `emit`: the callbacks registered for the name when dispatch starts, in insertion
        order; a callback may unregister itself on the way. `thrown` says the dispatch
        ended with a callback throwing. */
    method Emit(kind: MessageType, data: Payload) returns (thrown: bool)
      modifies this`listeners, this`requests, this`delivered
      ensures Snapshot() == Dispatch(old(Snapshot()), Event(kind, data), config)
      ensures thrown == DispatchThrows(old(Snapshot()), Event(kind, data), config)
    {
      var e := EmitEffects(Effects(listeners, requests, delivered, false), Event(kind, data));
      Store(e);
      thrown := e.thrown;
    }

    method EmitEffects(e: Effects, ev: Event) returns (r: Effects)
      ensures r == Registry.Emit(e, ev, config.clientId)
    {
      r := InvokeEach(e, Registered(e.listeners, ev.kind), ev.payload);
    }

    /** `callbacks.forEach(cb => cb(data))` over the set as it was when the dispatch began;
        a throw leaves the loop. */
    method InvokeEach(e: Effects, callbacks: seq<Callback>, data: Payload) returns (r: Effects)
      ensures r == InvokeAll(e, callbacks, data, config.clientId)
    {
      var ls, rq, dl, th := e.listeners, e.requests, e.delivered, e.thrown;
      var i := 0;
      while i < |callbacks| && !th
        invariant 0 <= i <= |callbacks|
        invariant Effects(ls, rq, dl, th) == InvokeAll(e, callbacks[..i], data, config.clientId)
      {
        assert callbacks[..i + 1][..i] == callbacks[..i];
        ls, rq, dl, th := Call(callbacks[i], data, ls, rq, dl);
        i := i + 1;
      }
      if i < |callbacks| {
        ThrowEndsInvokeAll(e, callbacks, data, config.clientId, i);
      } else {
        assert callbacks[..i] == callbacks;
      }
      r := Effects(ls, rq, dl, th);
    }

    method Store(e: Effects)
      modifies this`listeners, this`requests, this`delivered
      ensures Snapshot() == old(Snapshot()).(listeners := e.listeners, requests := e.requests, delivered := e.delivered)
    {
      listeners, requests, delivered := e.listeners, e.requests, e.delivered;
    }

    /** One callback invocation of a dispatch: an application subscriber is called; the
        vote filter forwards updates of its vote only; the send waiter, on its echo, and
        the list waiter, on any list, unregister themselves and resolve their promise.
        The vote filter throws on a payload without `data`, the send waiter on `null`. */
    method Call(cb: Callback, data: Payload, ls: Listeners, rq: map<nat, Request>, dl: seq<Delivery>)
      returns (ls': Listeners, rq': map<nat, Request>, dl': seq<Delivery>, thrown: bool)
      ensures Effects(ls', rq', dl', thrown) == Invoke(Effects(ls, rq, dl, false), cb, data, config.clientId)
    {
      ls', rq', dl', thrown := ls, rq, dl, false;
      match cb {
        case Subscriber(id) =>
          dl' := dl + [Delivery(id, data)];
        case VoteFilter(_, id, voteId) =>
          if !data.VoteUpdateBody? {
            thrown := true;
          } else if data.updateVoteId == voteId {
            dl' := dl + [Delivery(id, data)];
          }
        case SendWaiter(req, content) =>
          if data.NullBody? {
            thrown := true;
          } else if EchoMatches(data, config.clientId, content) {
            ls' := Registry.Off(ls, MessageNew, cb);
            rq' := Settle(rq, req, data);
          }
        case ListWaiter(req) =>
          ls' := Registry.Off(ls, GuestList, cb);
          rq' := Settle(rq, req, data);
      }
    }

    /** `handlePacket`. */
    method HandlePacket(packet: Packet) returns (thrown: bool)
      modifies this`listeners, this`requests, this`delivered
      ensures Snapshot() == Dispatch(old(Snapshot()), PacketEvent(packet), config)
      ensures thrown == DispatchThrows(old(Snapshot()), PacketEvent(packet), config)
    {
      thrown := Emit(packet.kind, packet.payload);
    }

    /** Dispatch a sequence of events one after another, up to a throw. */
    method EmitEach(evs: seq<Event>) returns (thrown: bool)
      modifies this`listeners, this`requests, this`delivered
      ensures Snapshot() == DispatchAll(old(Snapshot()), evs, config)
      ensures thrown == DispatchAllThrows(old(Snapshot()), evs, config)
    {
      var e := EmitEachEffects(Effects(listeners, requests, delivered, false), evs);
      Store(e);
      thrown := e.thrown;
    }

    method EmitEachEffects(e: Effects, evs: seq<Event>) returns (r: Effects)
      ensures r == EmitAll(e, evs, config.clientId)
    {
      r := e;
      var i := 0;
      while i < |evs| && !r.thrown
        invariant 0 <= i <= |evs|
        invariant r == EmitAll(e, evs[..i], config.clientId)
      {
        assert evs[..i + 1][..i] == evs[..i];
        r := EmitEffects(r, evs[i]);
        i := i + 1;
      }
      if i < |evs| {
        ThrowEndsEmitAll(e, evs, config.clientId, i);
      } else {
        assert evs[..i] == evs;
      }
    }

    /** `on` with an application callback. */
    method On(kind: MessageType, id: nat)
      requires Valid()
      modifies this`listeners
      ensures listeners == Registry.On(old(listeners), kind, Subscriber(id))
      ensures Valid()
    {
      OnKeepsInv(Snapshot(), kind, Subscriber(id), config);
      listeners := Registry.On(listeners, kind, Subscriber(id));
    }

    /** `off` with an application callback. */
    method Off(kind: MessageType, id: nat)
      requires Valid()
      modifies this`listeners
      ensures listeners == Registry.Off(old(listeners), kind, Subscriber(id))
      ensures Valid()
    {
      listeners := Registry.Off(listeners, kind, Subscriber(id));
    }

    /** `onStatusChange`, and the unsubscribe function it returns. */
    method OnStatusChange(id: nat)
      requires Valid()
      modifies this`statusListeners
      ensures statusListeners == Insert(old(statusListeners), id)
      ensures Valid()
    {
      statusListeners := Insert(statusListeners, id);
    }

    method OffStatusChange(id: nat)
      requires Valid()
      modifies this`statusListeners
      ensures statusListeners == Delete(old(statusListeners), id)
      ensures Valid()
    {
      statusListeners := Delete(statusListeners, id);
    }

    /** `subscribeVotes`; `handler` stands for the closure it creates. */
    method SubscribeVotes(voteId: string, subscriber: nat) returns (handler: Callback)
      requires Valid()
      modifies this`listeners, this`nextHandle
      ensures (Snapshot(), handler) == SubscribeVotesStep(old(Snapshot()), voteId, subscriber)
      ensures Valid()
    {
      ghost var s0 := Snapshot();
      handler := VoteFilter(nextHandle, subscriber, voteId);
      listeners, nextHandle := Registry.On(listeners, VoteUpdate, handler), nextHandle + 1;
      SubscribeVotesKeepsInv(s0, voteId, subscriber, config);
    }

    /** The unsubscribe function `subscribeVotes` returns, called with its own closure. */
    method UnsubscribeVotes(handler: Callback)
      requires Valid()
      modifies this`listeners
      ensures Snapshot() == UnsubscribeVotesStep(old(Snapshot()), handler)
      ensures Valid()
    {
      listeners := Registry.Off(listeners, VoteUpdate, handler);
    }

    method StopHeartbeat()
      modifies this`heartbeatTimer
      ensures Snapshot() == StopHeartbeatStep(old(Snapshot()))
    {
      heartbeatTimer := heartbeatTimer.Clear();
    }

    method StartHeartbeat()
      modifies this`heartbeatTimer
      ensures Snapshot() == StartHeartbeatStep(old(Snapshot()))
    {
      if !mockMode {
        heartbeatTimer := heartbeatTimer.Schedule();
      }
    }

    method StopPolling()
      modifies this`pollingTimer, this`pollingState
      ensures Snapshot() == StopPollingStep(old(Snapshot()))
    {
      pollingTimer := pollingTimer.Clear();
      pollingState := None;
    }

    method Poll()
      modifies this`pollsInFlight, this`pollRequests
      ensures Snapshot() == PollStep(old(Snapshot()), config)
    {
      if status == FallbackPolling && pollingState.Some? {
        pollsInFlight := pollsInFlight + 1;
        pollRequests := pollRequests + [pollingState.value.lastEventId];
      }
    }

    method StartCursor()
      modifies this`pollingState
      ensures Snapshot() == old(Snapshot()).(pollingState := Some(PollingState("", config.fallbackPollInterval, 0, 3)))
    {
      pollingState := Some(PollingState("", config.fallbackPollInterval, 0, 3));
    }

    method StartPollingFallback()
      modifies this
      ensures Snapshot() == FallbackStep(old(Snapshot()), config)
    {
      SetStatus(FallbackPolling);
      StartCursor();
      Poll();
    }

    /** The retry branch of `handleConnectionFailure`, after the status change. */
    method ScheduleReconnect()
      modifies this`reconnectAttempts, this`reconnectTimer, this`scheduledDelays
      ensures Snapshot() == old(Snapshot()).(reconnectAttempts := old(reconnectAttempts) + 1,
                                             reconnectTimer := old(reconnectTimer).Schedule(),
                                             scheduledDelays := old(scheduledDelays) + [config.reconnectDelay * Pow2(old(reconnectAttempts))])
    {
      var delay := config.reconnectDelay * Pow2(reconnectAttempts);
      reconnectAttempts := reconnectAttempts + 1;
      reconnectTimer := reconnectTimer.Schedule();
      scheduledDelays := scheduledDelays + [delay];
    }

    method EnterMockMode()
      modifies this`mockMode
      ensures Snapshot() == old(Snapshot()).(mockMode := true)
    {
      mockMode := true;
    }

    method HandleConnectionFailure()
      modifies this
      ensures Snapshot() == FailureStep(old(Snapshot()), config)
    {
      if mockMode {
        SetStatus(Connected);
      } else if reconnectAttempts < config.reconnectAttempts {
        SetStatus(Reconnecting);
        ScheduleReconnect();
      } else if config.enableFallback {
        StartPollingFallback();
      } else {
        EnterMockMode();
        SetStatus(Connected);
      }
    }

    method CountMockLoad()
      modifies this`mockLoadsPending
      ensures Snapshot() == old(Snapshot()).(mockLoadsPending := old(mockLoadsPending) + 1)
    {
      mockLoadsPending := mockLoadsPending + 1;
    }

    method MarkSocket(sk: Socket)
      modifies this`socket
      ensures Snapshot() == old(Snapshot()).(socket := sk)
    {
      socket := sk;
    }

    method ConnectBody(socketThrows: bool)
      modifies this
      ensures Snapshot() == ConnectStep(old(Snapshot()), socketThrows, config)
    {
      if mockMode {
        SetStatus(Connected);
        CountMockLoad();
      } else if status != Connected && status != Connecting {
        SetStatus(Connecting);
        if socketThrows {
          HandleConnectionFailure();
        } else {
          MarkSocket(Opening);
        }
      }
    }

    /** `connect`; `socketThrows` is whether the `WebSocket` constructor throws. */
    method Connect(socketThrows: bool)
      requires Valid()
      modifies this
      ensures Snapshot() == ConnectStep(old(Snapshot()), socketThrows, config)
      ensures Valid()
    {
      ghost var s0 := Snapshot();
      ConnectBody(socketThrows);
      ConnectKeepsInv(s0, socketThrows, config);
    }

    method Cleanup()
      modifies this
      ensures Snapshot() == CleanupStep(old(Snapshot()))
    {
      StopHeartbeat();
      StopPolling();
      DropSocket();
    }

    method DropSocket()
      modifies this`reconnectTimer, this`socket
      ensures Snapshot() == old(Snapshot()).(reconnectTimer := old(reconnectTimer).Clear(), socket := NoSocket)
    {
      reconnectTimer := reconnectTimer.Clear();
      socket := NoSocket;
    }

    method DisconnectBody()
      modifies this
      ensures Snapshot() == DisconnectStep(old(Snapshot()), config)
    {
      Cleanup();
      SetStatus(Disconnected);
    }

    /** `disconnect`. */
    method Disconnect()
      requires Valid()
      modifies this
      ensures Snapshot() == DisconnectStep(old(Snapshot()), config)
      ensures Valid()
    {
      ghost var s0 := Snapshot();
      DisconnectBody();
      DisconnectKeepsInv(s0, config);
    }

    method ResetAttempts()
      modifies this`reconnectAttempts
      ensures Snapshot() == old(Snapshot()).(reconnectAttempts := 0)
    {
      reconnectAttempts := 0;
    }

    method OpenBody()
      modifies this
      ensures Snapshot() == OpenStep(old(Snapshot()), config)
    {
      MarkSocket(Open);
      SetStatus(Connected);
      ResetAttempts();
      StartHeartbeat();
      StopPolling();
      Send(GuestJoin, JoinAnnouncement(config.clientId, config.sessionId));
    }

    /** The socket's `open` handler. */
    method OnOpen()
      requires Valid()
      modifies this
      ensures Snapshot() == OpenStep(old(Snapshot()), config)
      ensures Valid()
    {
      ghost var s0 := Snapshot();
      OpenBody();
      OpenKeepsInv(s0, config);
    }

    method ReceiveFrame(frame: Option<Packet>)
      modifies this
      ensures Snapshot() == MessageStep(old(Snapshot()), frame, config)
    {
      if frame.Some? {
        // the handler's `catch` logs a parse error or a callback's throw
        var thrown := HandlePacket(frame.value);
      }
    }

    /** The socket's `message` handler; `frame` is `None` when the data does not parse. */
    method OnMessage(frame: Option<Packet>)
      requires Valid()
      modifies this
      ensures Snapshot() == MessageStep(old(Snapshot()), frame, config)
      ensures Valid()
    {
      ghost var s0 := Snapshot();
      ReceiveFrame(frame);
      MessageKeepsInv(s0, frame, config);
    }

    method ErrorBody()
      modifies this
      ensures Snapshot() == ErrorStep(old(Snapshot()), config)
    {
      if !mockMode {
        HandleConnectionFailure();
      }
    }

    /** The socket's `error` handler. */
    method OnError()
      requires Valid()
      modifies this
      ensures Snapshot() == ErrorStep(old(Snapshot()), config)
      ensures Valid()
    {
      ghost var s0 := Snapshot();
      ErrorBody();
      ErrorKeepsInv(s0, config);
    }

    method MarkClosed(fromReplaced: bool)
      modifies this`socket
      ensures Snapshot() == old(Snapshot()).(socket := if fromReplaced || old(socket) == NoSocket then old(socket) else Closed)
    {
      if !fromReplaced && socket != NoSocket {
        socket := Closed;
      }
    }

    method CloseBody(wasClean: bool, fromReplaced: bool)
      modifies this
      ensures Snapshot() == CloseStep(old(Snapshot()), wasClean, fromReplaced, config)
    {
      StopHeartbeat();
      MarkClosed(fromReplaced);
      if wasClean {
        SetStatus(Disconnected);
      } else {
        HandleConnectionFailure();
      }
    }

    /** The socket's `close` handler. */
    method OnClose(wasClean: bool, fromReplaced: bool)
      requires Valid()
      modifies this
      ensures Snapshot() == CloseStep(old(Snapshot()), wasClean, fromReplaced, config)
      ensures Valid()
    {
      ghost var s0 := Snapshot();
      CloseBody(wasClean, fromReplaced);
      CloseKeepsInv(s0, wasClean, fromReplaced, config);
    }

    method FireReconnectTimer()
      requires reconnectTimer.Pending()
      modifies this`reconnectTimer
      ensures Snapshot() == old(Snapshot()).(reconnectTimer := old(reconnectTimer).Fire())
    {
      reconnectTimer := reconnectTimer.Fire();
    }

    method ReconnectTimerBody(socketThrows: bool)
      modifies this
      ensures Snapshot() == ReconnectTimerStep(old(Snapshot()), socketThrows, config)
    {
      if reconnectTimer.Pending() {
        FireReconnectTimer();
        ConnectBody(socketThrows);
      }
    }

    /** A reconnect timer runs. */
    method ReconnectTimerFires(socketThrows: bool)
      requires Valid()
      modifies this
      ensures Snapshot() == ReconnectTimerStep(old(Snapshot()), socketThrows, config)
      ensures Valid()
    {
      ghost var s0 := Snapshot();
      ReconnectTimerBody(socketThrows);
      ReconnectTimerKeepsInv(s0, socketThrows, config);
    }

    method AdvanceCursor(last: string)
      requires pollingState.Some?
      modifies this`pollingState
      ensures Snapshot() == old(Snapshot()).(pollingState := Some(old(pollingState).value.(lastEventId := last, retryCount := 0)))
    {
      pollingState := Some(pollingState.value.(lastEventId := last, retryCount := 0));
    }

    method CountPollFailure()
      requires pollingState.Some?
      modifies this`pollingState
      ensures Snapshot() == old(Snapshot()).(pollingState := Some(old(pollingState).value.(retryCount := old(pollingState).value.retryCount + 1)))
    {
      pollingState := Some(pollingState.value.(retryCount := pollingState.value.retryCount + 1));
    }

    method AbsorbPoll(result: PollResult)
      modifies this
      ensures Snapshot() == AbsorbPollStep(old(Snapshot()), result, config)
    {
      match result {
        case PollOk(events, last) =>
          if pollingState.Some? {
            AdvanceCursor(last);
            var thrown := EmitEach(PacketEvents(events));
            if thrown {
              CountPollFailure();
            }
          }
        case PollFailed =>
          if pollingState.Some? {
            CountPollFailure();
          }
      }
    }

    method TakePollResponse()
      requires pollsInFlight > 0
      modifies this`pollsInFlight
      ensures Snapshot() == old(Snapshot()).(pollsInFlight := old(pollsInFlight) - 1)
    {
      pollsInFlight := pollsInFlight - 1;
    }

    method SchedulePoll()
      modifies this`pollingTimer
      ensures Snapshot() == old(Snapshot()).(pollingTimer := old(pollingTimer).Schedule())
    {
      pollingTimer := pollingTimer.Schedule();
    }

    method PollResponseBody(result: PollResult)
      modifies this
      ensures Snapshot() == PollResponseStep(old(Snapshot()), result, config)
    {
      if pollsInFlight > 0 {
        TakePollResponse();
        ghost var s1 := Snapshot();
        AbsorbPoll(result);
        assert Snapshot() == AbsorbPollStep(s1, result, config);
        SchedulePoll();
      }
    }

    /** A poll's fetch settles. */
    method PollResponds(result: PollResult)
      requires Valid()
      modifies this
      ensures Snapshot() == PollResponseStep(old(Snapshot()), result, config)
      ensures Valid()
    {
      ghost var s0 := Snapshot();
      PollResponseBody(result);
      PollResponseKeepsInv(s0, result, config);
    }

    method FirePollTimer()
      requires pollingTimer.Pending()
      modifies this`pollingTimer
      ensures Snapshot() == old(Snapshot()).(pollingTimer := old(pollingTimer).Fire())
    {
      pollingTimer := pollingTimer.Fire();
    }

    method PollTimerBody()
      modifies this
      ensures Snapshot() == PollTimerStep(old(Snapshot()), config)
    {
      if pollingTimer.Pending() {
        FirePollTimer();
        Poll();
      }
    }

    /** A polling timer runs. */
    method PollTimerFires()
      requires Valid()
      modifies this
      ensures Snapshot() == PollTimerStep(old(Snapshot()), config)
      ensures Valid()
    {
      ghost var s0 := Snapshot();
      PollTimerBody();
      PollTimerKeepsInv(s0, config);
    }

    method Beat(now: int)
      modifies this
      ensures Snapshot() == HeartbeatStep(old(Snapshot()), now, config)
    {
      if heartbeatTimer.Pending() {
        Send(Heartbeat, HeartbeatBody(now));
      }
    }

    /** The heartbeat interval ticks; `now` is the clock reading. */
    method HeartbeatFires(now: int)
      requires Valid()
      modifies this
      ensures Snapshot() == HeartbeatStep(old(Snapshot()), now, config)
      ensures Valid()
    {
      ghost var s0 := Snapshot();
      Beat(now);
      HeartbeatKeepsInv(s0, now, config);
    }

    method ConsumeMockLoad()
      requires mockLoadsPending > 0
      modifies this`mockLoadsPending
      ensures Snapshot() == old(Snapshot()).(mockLoadsPending := old(mockLoadsPending) - 1)
    {
      mockLoadsPending := mockLoadsPending - 1;
    }

    method MockLoadBody()
      modifies this
      ensures Snapshot() == MockLoadStep(old(Snapshot()), config)
    {
      if mockLoadsPending > 0 {
        ConsumeMockLoad();
        var thrown := EmitEach(MockEvents(mockMessages, mockOnlineGuests));
      }
    }

    /** The delayed initial load of mock mode runs. */
    method MockLoadFires()
      requires Valid()
      modifies this
      ensures Snapshot() == MockLoadStep(old(Snapshot()), config)
      ensures Valid()
    {
      ghost var s0 := Snapshot();
      MockLoadBody();
      MockLoadKeepsInv(s0, config);
    }

    method RegisterRequest(rk: RequestKind) returns (req: nat)
      modifies this`requests, this`nextRequest
      ensures req == old(nextRequest)
      ensures Snapshot() == old(Snapshot()).(requests := old(requests)[req := Request(rk, Pending, true)], nextRequest := req + 1)
    {
      req := nextRequest;
      requests, nextRequest := requests[req := Request(rk, Pending, true)], req + 1;
    }

    method AddListener(t: MessageType, cb: Callback)
      modifies this`listeners
      ensures Snapshot() == old(Snapshot()).(listeners := Registry.On(old(listeners), t, cb))
    {
      listeners := Registry.On(listeners, t, cb);
    }

    method Await(rk: RequestKind, t: MessageType, cb: Callback, kind: MessageType, payload: Payload)
      returns (req: nat)
      modifies this
      ensures req == old(nextRequest)
      ensures Snapshot() == AwaitStep(old(Snapshot()), rk, t, cb, kind, payload, config)
    {
      req := RegisterRequest(rk);
      AddListener(t, cb);
      Send(kind, payload);
    }

    method StoreMessage(message: WallMessage)
      modifies this`mockMessages
      ensures Snapshot() == old(Snapshot()).(mockMessages := [message] + old(mockMessages))
    {
      mockMessages := [message] + mockMessages;
    }

    method MockSend(message: WallMessage) returns (thrown: bool)
      modifies this
      ensures Snapshot() == MockSendStep(old(Snapshot()), message, config)
      ensures thrown == DispatchThrows(old(Snapshot()), Event(MessageNew, MessageBody(message)), config)
    {
      StoreMessage(message);
      thrown := Emit(MessageNew, MessageBody(message));
    }

    method SendMessageBody(content: string, guestName: string, now: nat, post: Option<WallMessage>)
      returns (outcome: SendOutcome)
      modifies this
      ensures (Snapshot(), outcome) == SendMessageStep(old(Snapshot()), content, guestName, now, post, config)
    {
      var message := NewMessage(config, content, guestName, now);
      if mockMode {
        var thrown := MockSend(message);
        outcome := if thrown then SendFailed(ThrownReason) else Sent(message);
      } else if status == FallbackPolling {
        outcome := if post.None? then SendFailed("发送消息失败") else Sent(post.value);
      } else {
        var req := Await(SendRequest, MessageNew, SendWaiter(nextRequest, content), MessageNew, MessageBody(message));
        outcome := AwaitingEcho(req);
      }
    }

    /** `sendMessage`; `now` is the clock reading, `post` the fallback POST's body, `None`
        when it fails. */
    method SendMessage(content: string, guestName: string, now: nat, post: Option<WallMessage>)
      returns (outcome: SendOutcome)
      requires Valid()
      modifies this
      ensures (Snapshot(), outcome) == SendMessageStep(old(Snapshot()), content, guestName, now, post, config)
      ensures Valid()
    {
      ghost var s0 := Snapshot();
      outcome := SendMessageBody(content, guestName, now, post);
      SendMessageKeepsInv(s0, content, guestName, now, post, config);
    }

    method GetOnlineListBody(fetched: Option<seq<OnlineGuest>>) returns (outcome: ListOutcome)
      modifies this
      ensures (Snapshot(), outcome) == GetOnlineListStep(old(Snapshot()), fetched, config)
    {
      if mockMode {
        outcome := Listed(mockOnlineGuests);
      } else if status == FallbackPolling {
        outcome := if fetched.None? then ListFailed("获取在线列表失败") else Listed(fetched.value);
      } else {
        var req := Await(ListRequest, GuestList, ListWaiter(nextRequest), SyncRequest, SyncRequestBody(GuestList));
        outcome := AwaitingList(req);
      }
    }

    /** `getOnlineList`; `fetched` is the fallback GET's body, `None` when it fails. */
    method GetOnlineList(fetched: Option<seq<OnlineGuest>>) returns (outcome: ListOutcome)
      requires Valid()
      modifies this
      ensures (Snapshot(), outcome) == GetOnlineListStep(old(Snapshot()), fetched, config)
      ensures Valid()
    {
      ghost var s0 := Snapshot();
      outcome := GetOnlineListBody(fetched);
      GetOnlineListKeepsInv(s0, fetched, config);
    }

    /** The timeout of a request runs. */
    method RequestTimesOut(req: nat)
      requires Valid()
      modifies this`requests
      ensures Snapshot() == TimeoutStep(old(Snapshot()), req)
      ensures Valid()
    {
      ghost var s0 := Snapshot();
      if req in requests && requests[req].timerPending {
        var q := requests[req];
        var state := if q.state.Pending? then Rejected(TimeoutReason(q.kind)) else q.state;
        requests := requests[req := Request(q.kind, state, false)];
      }
      assert Snapshot() == TimeoutStep(s0, req);
      TimeoutKeepsInv(s0, req, config);
    }

    method StoreLike(i: nat, liked: WallMessage)
      requires i < |mockMessages|
      modifies this`mockMessages
      ensures Snapshot() == old(Snapshot()).(mockMessages := old(mockMessages)[i := liked])
    {
      mockMessages := mockMessages[i := liked];
    }

    method LikeBody(messageId: string)
      modifies this
      ensures Snapshot() == LikeStep(old(Snapshot()), messageId, config)
    {
      if mockMode {
        var found := FindMessage(mockMessages, messageId);
        if found.Some? {
          var m := mockMessages[found.value];
          var liked := m.(likes := m.likes + 1, likedBy := m.likedBy + [config.clientId]);
          StoreLike(found.value, liked);
          var thrown := Emit(MessageLike, MessageBody(liked));
        }
      } else {
        Send(MessageLike, LikeRequest(messageId, config.clientId));
      }
    }

    /** `likeMessage`. */
    method LikeMessage(messageId: string)
      requires Valid()
      modifies this
      ensures Snapshot() == LikeStep(old(Snapshot()), messageId, config)
      ensures Valid()
    {
      ghost var s0 := Snapshot();
      LikeBody(messageId);
      LikeKeepsInv(s0, messageId, config);
    }

    /** `castVote`. */
    method CastVote(voteId: string, optionId: string)
      requires Valid()
      modifies this
      ensures Snapshot() == CastVoteStep(old(Snapshot()), voteId, optionId, config)
      ensures Valid()
    {
      ghost var s0 := Snapshot();
      Send(VoteCast, VoteRequest(voteId, optionId, config.clientId));
      CastVoteKeepsInv(s0, voteId, optionId, config);
    }

    method GetStatus() returns (st: ConnectionStatus)
      ensures st == status
    {
      st := status;
    }

    method IsMockMode() returns (mock: bool)
      ensures mock == mockMode
    {
      mock := mockMode;
    }
  }
}
