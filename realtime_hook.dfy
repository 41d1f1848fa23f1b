/** The React hook over the realtime client (hooks/use-realtime.ts): the list updaters it
    registers for inbound events, the derived flags, and the effect that creates, wires
    and tears down a client. React's state cells are the fields of `HookState`. */
module RealtimeHook {
  import opened Wrappers
  import opened RealtimeTypes
  import opened Registry
  import opened RealtimeClient

  datatype HookState = HookState(status: ConnectionStatus, messages: seq<WallMessage>, onlineGuests: seq<OnlineGuest>)

  const InitialHook := HookState(Disconnected, [], [])

  // ---------------------------------------------------------------- the list updaters

  /** `message:new`: the message goes first. */
  function PrependMessage(prev: seq<WallMessage>, m: WallMessage): (r: seq<WallMessage>)
    ensures |r| == |prev| + 1 && r[0] == m && r[1..] == prev
  {
    [m] + prev
  }

  /** `message:like`: every message with the incoming id is replaced by the incoming one. */
  function ReplaceLiked(prev: seq<WallMessage>, m: WallMessage): (r: seq<WallMessage>)
    ensures |r| == |prev|
    ensures forall k :: 0 <= k < |prev| ==> r[k] == if prev[k].id == m.id then m else prev[k]
  {
    seq(|prev|, (k: int) requires 0 <= k < |prev| => if prev[k].id == m.id then m else prev[k])
  }

  /** `prev.filter(g => g.id !== id)`. */
  function WithoutGuest(prev: seq<OnlineGuest>, id: string): (r: seq<OnlineGuest>)
    ensures |r| <= |prev|
    ensures forall k :: 0 <= k < |r| ==> r[k].id != id && r[k] in prev
  {
    if prev == [] then []
    else if prev[0].id == id then WithoutGuest(prev[1..], id)
    else [prev[0]] + WithoutGuest(prev[1..], id)
  }

  /** `guest:join`: any guest with the same id is dropped, and the newcomer goes last. */
  function JoinGuest(prev: seq<OnlineGuest>, g: OnlineGuest): seq<OnlineGuest> {
    WithoutGuest(prev, g.id) + [g]
  }

  /** `guest:leave`. */
  function LeaveGuest(prev: seq<OnlineGuest>, id: string): seq<OnlineGuest> {
    WithoutGuest(prev, id)
  }

  /** The number of guests with an id. */
  function CountId(gs: seq<OnlineGuest>, id: string): nat {
    if gs == [] then 0 else (if gs[0].id == id then 1 else 0) + CountId(gs[1..], id)
  }

  lemma {:induction false} CountIdAppend(a: seq<OnlineGuest>, b: seq<OnlineGuest>, id: string)
    ensures CountId(a + b, id) == CountId(a, id) + CountId(b, id)
  {
    if a != [] {
      assert (a + b)[1..] == a[1..] + b;
      CountIdAppend(a[1..], b, id);
    } else {
      assert a + b == b;
    }
  }

  lemma {:induction false} CountWithout(prev: seq<OnlineGuest>, id: string)
    ensures CountId(WithoutGuest(prev, id), id) == 0
  {
    if prev != [] {
      CountWithout(prev[1..], id);
      if prev[0].id != id {
        assert ([prev[0]] + WithoutGuest(prev[1..], id))[1..] == WithoutGuest(prev[1..], id);
      }
    }
  }

  /** Filtering keeps the order: it distributes over concatenation. */
  lemma {:induction false} WithoutGuestAppend(a: seq<OnlineGuest>, b: seq<OnlineGuest>, id: string)
    ensures WithoutGuest(a + b, id) == WithoutGuest(a, id) + WithoutGuest(b, id)
  {
    if a != [] {
      assert (a + b)[0] == a[0] && (a + b)[1..] == a[1..] + b;
      WithoutGuestAppend(a[1..], b, id);
    } else {
      assert a + b == b;
    }
  }

  /** Guests with other ids are all kept. */
  lemma {:induction false} WithoutGuestKeepsOthers(prev: seq<OnlineGuest>, id: string)
    ensures forall g :: g in prev && g.id != id ==> g in WithoutGuest(prev, id)
  {
    if prev != [] {
      WithoutGuestKeepsOthers(prev[1..], id);
      assert forall g :: g in prev ==> g == prev[0] || g in prev[1..];
    }
  }

  /** After `guest:join` exactly one guest has the newcomer's id, it is the last one, and
      the others keep their order. */
  lemma JoinGuestUnique(prev: seq<OnlineGuest>, g: OnlineGuest)
    ensures var r := JoinGuest(prev, g);
            CountId(r, g.id) == 1 && r[|r| - 1] == g && r[..|r| - 1] == WithoutGuest(prev, g.id)
  {
    CountIdAppend(WithoutGuest(prev, g.id), [g], g.id);
    CountWithout(prev, g.id);
    assert [g][1..] == [];
  }

  /** After `guest:leave` no guest has the id, every guest with another id is still there,
      and a list without that id is left as it is. */
  lemma {:induction false} LeaveGuestRemoves(prev: seq<OnlineGuest>, id: string)
    ensures CountId(LeaveGuest(prev, id), id) == 0
    ensures forall g :: g in prev && g.id != id ==> g in LeaveGuest(prev, id)
    ensures (forall k :: 0 <= k < |prev| ==> prev[k].id != id) ==> LeaveGuest(prev, id) == prev
  {
    CountWithout(prev, id);
    WithoutGuestKeepsOthers(prev, id);
    if prev != [] {
      LeaveGuestRemoves(prev[1..], id);
      if forall k :: 0 <= k < |prev| ==> prev[k].id != id {
        assert forall k :: 0 <= k < |prev[1..]| ==> prev[1..][k].id != id by {
          forall k | 0 <= k < |prev[1..]| ensures prev[1..][k].id != id {
            assert prev[1..][k] == prev[k + 1];
          }
        }
        assert [prev[0]] + prev[1..] == prev;
      }
    }
  }

  function IsConnected(h: HookState): (b: bool)
    ensures b <==> h.status == Connected
  {
    h.status == Connected
  }

  function IsFallback(h: HookState): (b: bool)
    ensures b <==> h.status == FallbackPolling
  {
    h.status == FallbackPolling
  }

  // ---------------------------------------------------------------- wiring to the client

  /** The subscriber ids of the five callbacks the effect registers, and of its status
      listener. */
  const OnMessageNew: nat := 0
  const OnMessageLike: nat := 1
  const OnGuestJoin: nat := 2
  const OnGuestLeave: nat := 3
  const OnGuestList: nat := 4
  const OnStatus: nat := 5

  /** What one call of a hook callback does to the hook's state; a payload of another
      shape than the event's is ignored. */
  function React(h: HookState, d: Delivery): HookState {
    match d.payload
    case MessageBody(m) =>
      if d.to == OnMessageNew then h.(messages := PrependMessage(h.messages, m))
      else if d.to == OnMessageLike then h.(messages := ReplaceLiked(h.messages, m))
      else h
    case GuestBody(g) => if d.to == OnGuestJoin then h.(onlineGuests := JoinGuest(h.onlineGuests, g)) else h
    case LeaveBody(id) => if d.to == OnGuestLeave then h.(onlineGuests := LeaveGuest(h.onlineGuests, id)) else h
    case GuestListBody(gs) => if d.to == OnGuestList then h.(onlineGuests := gs) else h
    case _ => h
  }

  function ReactAll(h: HookState, ds: seq<Delivery>): HookState
    decreases |ds|
  {
    if ds == [] then h else React(ReactAll(h, ds[..|ds| - 1]), ds[|ds| - 1])
  }

  /** The status listener's calls, applied in order. */
  function ReactStatus(h: HookState, ds: seq<StatusDelivery>): (r: HookState)
    ensures r.messages == h.messages && r.onlineGuests == h.onlineGuests
    ensures (forall k :: 0 <= k < |ds| ==> ds[k].listener != OnStatus) ==> r == h
    decreases |ds|
  {
    if ds == [] then h
    else
      var p := ReactStatus(h, ds[..|ds| - 1]);
      if ds[|ds| - 1].listener == OnStatus then p.(status := ds[|ds| - 1].status) else p
  }

  /** The client options the hook passes: no retry or mock settings of its own, and the
      fallback switched on. */
  function HookOptions(url: string, sessionId: string, guestId: string): (o: ClientOptions)
    ensures o.enableFallback == Some(true) && o.mockMode.None? && o.reconnectAttempts.None?
  {
    ClientOptions(url, sessionId, guestId, None, None, None, Some(true), None, None)
  }

  /** The hook's client keeps the fallback on even where the mock mode is chosen by the
      host, and retries five times elsewhere. */
  lemma HookConfig(url: string, sessionId: string, guestId: string, hostIsV0: bool)
    ensures var c := ResolveConfig(HookOptions(url, sessionId, guestId), hostIsV0);
            && c.enableFallback && c.clientId == guestId && c.mockMode == hostIsV0
            && c.reconnectAttempts == (if hostIsV0 then 0 else 5)
  {
  }

  /** `wsUrl || \`${protocol}//${host}/api/ws\``. */
  function SocketUrl(wsUrl: Option<string>, https: bool, host: string): (r: string)
    ensures wsUrl.Some? && wsUrl.value != "" ==> r == wsUrl.value
  {
    if wsUrl.Some? && wsUrl.value != "" then wsUrl.value
    else (if https then "wss:" else "ws:") + "//" + host + "/api/ws"
  }

  /** The registry after the effect's five `on` calls. */
  function HookListeners(ls: Listeners): Listeners {
    var l1 := Registry.On(ls, MessageNew, Subscriber(OnMessageNew));
    var l2 := Registry.On(l1, MessageLike, Subscriber(OnMessageLike));
    var l3 := Registry.On(l2, GuestJoin, Subscriber(OnGuestJoin));
    var l4 := Registry.On(l3, GuestLeave, Subscriber(OnGuestLeave));
    Registry.On(l4, GuestList, Subscriber(OnGuestList))
  }

  /** On a fresh client each of the five event names has exactly the hook's callback. */
  lemma FreshHookListeners()
    ensures var ls := HookListeners(map[]);
            && Registered(ls, MessageNew) == [Subscriber(OnMessageNew)]
            && Registered(ls, MessageLike) == [Subscriber(OnMessageLike)]
            && Registered(ls, GuestJoin) == [Subscriber(OnGuestJoin)]
            && Registered(ls, GuestLeave) == [Subscriber(OnGuestLeave)]
            && Registered(ls, GuestList) == [Subscriber(OnGuestList)]
            && Registered(ls, VoteUpdate) == []
  {
  }

  /** The effect: subscribe the status listener and the five list updaters, then connect. */
  method Mount(client: Client, socketThrows: bool)
    requires client.Valid()
    modifies client
    ensures client.Valid()
    ensures client.Snapshot()
            == ConnectStep(old(client.Snapshot()).(statusListeners := Insert(old(client.statusListeners), OnStatus),
                                                   listeners := HookListeners(old(client.listeners))),
                           socketThrows, client.config)
  {
    client.OnStatusChange(OnStatus);
    client.On(MessageNew, OnMessageNew);
    client.On(MessageLike, OnMessageLike);
    client.On(GuestJoin, OnGuestJoin);
    client.On(GuestLeave, OnGuestLeave);
    client.On(GuestList, OnGuestList);
    client.Connect(socketThrows);
  }

  /** The effect's cleanup: unsubscribe the status listener, then disconnect. */
  method Unmount(client: Client)
    requires client.Valid()
    modifies client
    ensures client.Valid()
    ensures client.Snapshot()
            == DisconnectStep(old(client.Snapshot()).(statusListeners := Delete(old(client.statusListeners), OnStatus)), client.config)
  {
    client.OffStatusChange(OnStatus);
    client.Disconnect();
  }

  /** The cleanup leaves the status listener unsubscribed and the client disconnected, and
      since it unsubscribes first, the hook is never told about that disconnect. */
  lemma UnmountSilencesStatus(s: State, c: Config)
    ensures var r := DisconnectStep(s.(statusListeners := Delete(s.statusListeners, OnStatus)), c);
            && r.status == Disconnected
            && OnStatus !in r.statusListeners
            && s.statusDeliveries <= r.statusDeliveries
            && forall k :: |s.statusDeliveries| <= k < |r.statusDeliveries| ==> r.statusDeliveries[k].listener != OnStatus
  {
  }

  /** A `message:new` packet reaching a client whose only `message:new` callback is the
      hook's puts the message at the top of the hook's list. */
  lemma HookSeesNewMessage(s: State, h: HookState, m: WallMessage, c: Config)
    requires Registered(s.listeners, MessageNew) == [Subscriber(OnMessageNew)]
    ensures var r := Dispatch(s, Event(MessageNew, MessageBody(m)), c);
            && s.delivered <= r.delivered
            && ReactAll(h, r.delivered[|s.delivered|..]).messages == [m] + h.messages
  {
    var e := DispatchInput(s);
    DispatchToSubscribers(e, [Subscriber(OnMessageNew)], MessageBody(m), c.clientId);
    var r := Dispatch(s, Event(MessageNew, MessageBody(m)), c);
    assert r.delivered[|s.delivered|..] == [Delivery(OnMessageNew, MessageBody(m))];
  }
}
