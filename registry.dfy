/** The realtime client's subscription registry and event router
    (lib/realtime/websocket-client.ts:401-427): a map from event name to a JavaScript
    `Set` of callbacks, and the dispatch that invokes the callbacks of one event name in
    insertion order.

    Callbacks are tokens. A `Subscriber` stands for an application callback; invoking it
    appends a `Delivery` to the log. Each `subscribeVotes` call creates a closure of its
    own, so a vote filter carries the handle of the call that made it. The client's own internal callbacks are modelled by
    what their bodies do: the vote filter of `subscribeVotes`, the one-shot echo waiter of
    `sendMessage` and the one-shot reply waiter of `getOnlineList`.

    Two of those bodies read a property of the payload and throw a `TypeError` on a payload
    without it. A throw ends the `forEach` of the dispatch: the callbacks after the throwing
    one are not invoked, and the error travels to whoever called `emit`/`handlePacket`. */
module Registry {
  import opened Wrappers
  import opened RealtimeTypes

  datatype Callback =
    | Subscriber(id: nat)
    | VoteFilter(handle: nat, subscriber: nat, voteId: string)
    | SendWaiter(request: nat, content: string)
    | ListWaiter(listRequest: nat)

  /** `Map<MessageType, Set<EventCallback>>`: each set is a duplicate-free sequence in
      insertion order. */
  type Listeners = map<MessageType, seq<Callback>>

  /** One invocation of an application callback with a payload. */
  datatype Delivery = Delivery(to: nat, payload: Payload)

  /** The promise behind a `sendMessage` or `getOnlineList` call that waits for an event,
      and whether its timeout is still scheduled. */
  datatype RequestKind = SendRequest | ListRequest
  datatype RequestState = Pending | Resolved(value: Payload) | Rejected(reason: string)
  datatype Request = Request(kind: RequestKind, state: RequestState, timerPending: bool)

  predicate NoDup<T(==)>(s: seq<T>) {
    forall i, j :: 0 <= i < j < |s| ==> s[i] != s[j]
  }

  predicate WellFormed(ls: Listeners) {
    forall t :: t in ls ==> NoDup(ls[t])
  }

  /** `listeners.get(type)`, with an absent entry read as the empty set. */
  function Registered(ls: Listeners, t: MessageType): seq<Callback> {
    if t in ls then ls[t] else []
  }

  /** `Set.prototype.add`: an element already present keeps its place. */
  function Insert<T(==)>(s: seq<T>, cb: T): (r: seq<T>)
    ensures cb in s ==> r == s
    ensures cb !in s ==> r == s + [cb]
    ensures NoDup(s) ==> NoDup(r)
  {
    if cb in s then s else s + [cb]
  }

  /** `Set.prototype.delete`. */
  function Delete<T(==, !new)>(s: seq<T>, cb: T): (r: seq<T>)
    ensures cb !in r
    ensures forall c :: c in r <==> c in s && c != cb
    ensures cb !in s ==> r == s
    ensures NoDup(s) ==> NoDup(r)
  {
    if s == [] then []
    else if s[0] == cb then Delete(s[1..], cb)
    else
      var rest := Delete(s[1..], cb);
      assert NoDup(s) ==> NoDup(s[1..]) && s[0] !in s[1..] by {
        if NoDup(s) {
          forall k | 0 <= k < |s| - 1 ensures s[1..][k] != s[0] {
            assert s[1..][k] == s[k + 1];
          }
        }
      }
      [s[0]] + rest
  }

  /** `on(type, callback)`: creates the set on first use, then adds. */
  function On(ls: Listeners, t: MessageType, cb: Callback): (r: Listeners)
    ensures t in r && cb in r[t]
  {
    ls[t := Insert(Registered(ls, t), cb)]
  }

  /** `on` touches only the set of its own event name ... */
  lemma OnKeepsOthers(ls: Listeners, t: MessageType, cb: Callback)
    ensures forall u :: u != t ==> Registered(On(ls, t, cb), u) == Registered(ls, u)
  {
  }

  /** ... and a set never gets a duplicate. */
  lemma OnKeepsWellFormed(ls: Listeners, t: MessageType, cb: Callback)
    requires WellFormed(ls)
    ensures WellFormed(On(ls, t, cb))
  {
  }

  /** `off(type, callback)`: deletes from an existing set; never creates one. */
  function Off(ls: Listeners, t: MessageType, cb: Callback): (r: Listeners)
    ensures cb !in Registered(r, t)
    ensures r.Keys == ls.Keys
    ensures forall u :: u != t ==> Registered(r, u) == Registered(ls, u)
    ensures forall c :: c != cb ==> (c in Registered(r, t) <==> c in Registered(ls, t))
    ensures WellFormed(ls) ==> WellFormed(r)
  {
    if t in ls then ls[t := Delete(ls[t], cb)] else ls
  }

  /** Registering the same callback twice has the effect of registering it once. */
  lemma OnIdempotent(ls: Listeners, t: MessageType, cb: Callback)
    ensures On(On(ls, t, cb), t, cb) == On(ls, t, cb)
  {
  }

  /** `off` undoes an `on` of a callback that was not registered before. */
  lemma {:induction false} OffUndoesOn(ls: Listeners, t: MessageType, cb: Callback)
    requires cb !in Registered(ls, t)
    ensures Registered(Off(On(ls, t, cb), t, cb), t) == Registered(ls, t)
  {
    DeleteLast(Registered(ls, t), cb);
  }

  lemma {:induction false} DeleteLast<T(!new)>(s: seq<T>, cb: T)
    requires cb !in s
    ensures Delete(s + [cb], cb) == s
  {
    if s == [] {
      assert [cb][1..] == [];
    } else {
      assert (s + [cb])[1..] == s[1..] + [cb];
      DeleteLast(s[1..], cb);
      assert [s[0]] + s[1..] == s;
    }
  }

  /** Deleting from a concatenation deletes from each part. */
  lemma {:induction false} DeleteAppend<T(!new)>(a: seq<T>, b: seq<T>, cb: T)
    ensures Delete(a + b, cb) == Delete(a, cb) + Delete(b, cb)
  {
    if a == [] {
      assert a + b == b;
    } else {
      assert (a + b)[0] == a[0] && (a + b)[1..] == a[1..] + b;
      DeleteAppend(a[1..], b, cb);
    }
  }

  /** The state a dispatch acts on: the registry, the pending requests and the delivery log,
      and whether a callback has thrown. */
  datatype Effects = Effects(listeners: Listeners, requests: map<nat, Request>, delivered: seq<Delivery>,
                             thrown: bool)

  /** The application subscriber a callback forwards to, if any. */
  function Target(cb: Callback): (r: Option<nat>)
    ensures cb.Subscriber? ==> r == Some(cb.id)
    ensures cb.VoteFilter? ==> r == Some(cb.subscriber)
    ensures cb.SendWaiter? || cb.ListWaiter? ==> r == None
  {
    match cb
    case Subscriber(id) => Some(id)
    case VoteFilter(_, id, _) => Some(id)
    case _ => None
  }

  /** Resolving a promise: clears its timeout, and settles it unless it already was. */
  function Settle(reqs: map<nat, Request>, req: nat, value: Payload): (r: map<nat, Request>)
    ensures r.Keys == reqs.Keys
    ensures req in reqs && reqs[req].state.Pending? ==> r[req].state == Resolved(value)
    ensures req in reqs && !reqs[req].state.Pending? ==> r[req].state == reqs[req].state
    ensures req in reqs ==> !r[req].timerPending && r[req].kind == reqs[req].kind
    ensures forall q :: q in reqs && q != req ==> r[q] == reqs[q]
  {
    if req !in reqs then reqs
    else
      var old_ := reqs[req];
      reqs[req := Request(old_.kind, if old_.state.Pending? then Resolved(value) else old_.state, false)]
  }

  /** The echo test of `sendMessage`'s handler: a new message by this client with the same text. */
  predicate EchoMatches(p: Payload, clientId: string, content: string) {
    p.MessageBody? && p.message.guestId == clientId && p.message.content == content
  }

  /** Whether a callback throws on a payload: the vote filter reads `payload.data.voteId`,
      which exists only on a vote update; the echo waiter reads `data.guestId`, which fails
      only on `null`. */
  predicate Throws(cb: Callback, p: Payload) {
    match cb
    case VoteFilter(_, _, _) => !p.VoteUpdateBody?
    case SendWaiter(_, _) => p.NullBody?
    case _ => false
  }

  /** No callback of a sequence throws on the payload. */
  predicate Quiet(cbs: seq<Callback>, p: Payload) {
    forall c :: c in cbs ==> !Throws(c, p)
  }

  /** What invoking one callback with a payload does: a callback that throws has changed
      nothing before it throws. */
  function Invoke(e: Effects, cb: Callback, p: Payload, clientId: string): (r: Effects)
    ensures r.thrown == (e.thrown || Throws(cb, p))
  {
    match cb
    case Subscriber(id) => e.(delivered := e.delivered + [Delivery(id, p)])
    case VoteFilter(_, id, v) =>
      if !p.VoteUpdateBody? then e.(thrown := true)
      else if p.updateVoteId == v then e.(delivered := e.delivered + [Delivery(id, p)]) else e
    case SendWaiter(req, content) =>
      if p.NullBody? then e.(thrown := true)
      else if EchoMatches(p, clientId, content)
      then e.(listeners := Off(e.listeners, MessageNew, cb), requests := Settle(e.requests, req, p))
      else e
    case ListWaiter(req) =>
      e.(listeners := Off(e.listeners, GuestList, cb), requests := Settle(e.requests, req, p))
  }

  /** Invoking a sequence of callbacks in order, each with the same payload, up to the first
      that throws. */
  function InvokeAll(e: Effects, cbs: seq<Callback>, p: Payload, clientId: string): (r: Effects)
    decreases |cbs|
    ensures r.requests.Keys == e.requests.Keys
    ensures WellFormed(e.listeners) ==> WellFormed(r.listeners)
    ensures e.thrown ==> r == e
    ensures forall t, cb :: cb in Registered(r.listeners, t) ==> cb in Registered(e.listeners, t)
  {
    if cbs == [] then e
    else
      var m := InvokeAll(e, cbs[..|cbs| - 1], p, clientId);
      if m.thrown then m else Invoke(m, cbs[|cbs| - 1], p, clientId)
  }

  /** A dispatch throws exactly when one of its callbacks throws on the payload. */
  lemma {:induction false} InvokeAllThrows(e: Effects, cbs: seq<Callback>, p: Payload, clientId: string)
    decreases |cbs|
    ensures InvokeAll(e, cbs, p, clientId).thrown <==> e.thrown || !Quiet(cbs, p)
  {
    if cbs != [] {
      var prefix := cbs[..|cbs| - 1];
      InvokeAllThrows(e, prefix, p, clientId);
      assert cbs == prefix + [cbs[|cbs| - 1]];
      assert forall c :: c in cbs <==> c in prefix || c == cbs[|cbs| - 1];
    }
  }

  /** Once a callback has thrown, the callbacks after it are not invoked. */
  lemma {:induction false} ThrowEndsInvokeAll(e: Effects, cbs: seq<Callback>, p: Payload, clientId: string, i: nat)
    requires i <= |cbs| && InvokeAll(e, cbs[..i], p, clientId).thrown
    decreases |cbs|
    ensures InvokeAll(e, cbs, p, clientId) == InvokeAll(e, cbs[..i], p, clientId)
  {
    if i < |cbs| {
      var prefix := cbs[..|cbs| - 1];
      assert prefix[..i] == cbs[..i];
      ThrowEndsInvokeAll(e, prefix, p, clientId, i);
    } else {
      assert cbs[..i] == cbs;
    }
  }

  /** The dispatch reaching a callback that throws stops there: what the callbacks before it
      did stays, and nothing after it runs. */
  lemma {:induction false} FirstThrowStopsDispatch(e: Effects, cbs: seq<Callback>, p: Payload, clientId: string, k: nat)
    requires !e.thrown && k < |cbs| && Quiet(cbs[..k], p) && Throws(cbs[k], p)
    ensures InvokeAll(e, cbs, p, clientId) == InvokeAll(e, cbs[..k], p, clientId).(thrown := true)
  {
    var m := InvokeAll(e, cbs[..k], p, clientId);
    InvokeAllThrows(e, cbs[..k], p, clientId);
    assert cbs[..k + 1][..k] == cbs[..k];
    assert InvokeAll(e, cbs[..k + 1], p, clientId) == Invoke(m, cbs[k], p, clientId);
    ThrowEndsInvokeAll(e, cbs, p, clientId, k + 1);
  }

  /** A dispatch only appends to the delivery log, and every new entry carries the
      dispatched payload to the subscriber behind one of the invoked callbacks. */
  lemma {:induction false} InvokeAllDeliveries(e: Effects, cbs: seq<Callback>, p: Payload, clientId: string)
    decreases |cbs|
    ensures var r := InvokeAll(e, cbs, p, clientId);
            && e.delivered <= r.delivered
            && forall k :: |e.delivered| <= k < |r.delivered| ==>
                 r.delivered[k].payload == p &&
                 exists c :: c in cbs && Target(c) == Some(r.delivered[k].to)
  {
    if cbs != [] {
      var prefix := cbs[..|cbs| - 1];
      InvokeAllDeliveries(e, prefix, p, clientId);
      var last := cbs[|cbs| - 1];
      assert forall c :: c in prefix ==> c in cbs;
      var m := InvokeAll(e, prefix, p, clientId);
      if !m.thrown {
        var r := Invoke(m, last, p, clientId);
        assert r.delivered == m.delivered || (r.delivered == m.delivered + [Delivery(Target(last).value, p)] && last in cbs);
      }
    }
  }

  /** The filter of `subscribeVotes` forwards a payload to its subscriber exactly when the
      payload is an update of its own vote, and otherwise delivers nothing; on a payload
      that is no vote update it throws. */
  lemma VoteFilterForwardsOwnVote(e: Effects, h: nat, id: nat, v: string, p: Payload, clientId: string)
    ensures var r := Invoke(e, VoteFilter(h, id, v), p, clientId);
            && r.listeners == e.listeners && r.requests == e.requests
            && r.thrown == (e.thrown || !p.VoteUpdateBody?)
            && (r.delivered == e.delivered + [Delivery(id, p)] <==> p.VoteUpdateBody? && p.updateVoteId == v)
            && (r.delivered == e.delivered <==> !(p.VoteUpdateBody? && p.updateVoteId == v))
  {
    assert |e.delivered + [Delivery(id, p)]| != |e.delivered|;
  }

  /** Dispatching to vote filters changes neither the registry nor the requests; every new
      delivery carries the payload of an update to the subscriber of a filter for that
      vote, and, unless an earlier dispatch had thrown, every filter for the updated vote
      forwards it. A payload that is no vote update delivers nothing and throws at the
      first filter. */
  lemma {:induction false} VoteFiltersDeliverMatching(e: Effects, cbs: seq<Callback>, p: Payload, clientId: string)
    requires forall c :: c in cbs ==> c.VoteFilter?
    decreases |cbs|
    ensures var r := InvokeAll(e, cbs, p, clientId);
            && r.listeners == e.listeners && r.requests == e.requests
            && e.delivered <= r.delivered
            && (!p.VoteUpdateBody? ==> r.delivered == e.delivered)
            && r.thrown == (e.thrown || (!p.VoteUpdateBody? && cbs != []))
            && (forall k :: |e.delivered| <= k < |r.delivered| ==>
                  p.VoteUpdateBody? && r.delivered[k].payload == p
                  && exists c :: c in cbs && c.subscriber == r.delivered[k].to && c.voteId == p.updateVoteId)
            && (forall c :: c in cbs && !e.thrown && p.VoteUpdateBody? && c.voteId == p.updateVoteId ==>
                  Delivery(c.subscriber, p) in r.delivered[|e.delivered|..])
  {
    if cbs != [] {
      var prefix := cbs[..|cbs| - 1];
      var last := cbs[|cbs| - 1];
      assert forall c :: c in prefix ==> c in cbs;
      assert cbs == prefix + [last];
      VoteFiltersDeliverMatching(e, prefix, p, clientId);
      var m := InvokeAll(e, prefix, p, clientId);
      var r := InvokeAll(e, cbs, p, clientId);
      if m.thrown {
        assert r == m;
      } else {
        VoteFilterForwardsOwnVote(m, last.handle, last.subscriber, last.voteId, p, clientId);
        assert r == Invoke(m, last, p, clientId);
        if p.VoteUpdateBody? && p.updateVoteId == last.voteId {
          assert r.delivered == m.delivered + [Delivery(last.subscriber, p)];
          assert r.delivered[|e.delivered|..] == m.delivered[|e.delivered|..] + [Delivery(last.subscriber, p)];
          assert last in cbs && last.subscriber == r.delivered[|r.delivered| - 1].to;
        } else {
          assert r.delivered == m.delivered;
        }
      }
    }
  }

  /** An emitted event: a name and its payload. */
  datatype Event = Event(kind: MessageType, payload: Payload)

  /** `emit`/`handlePacket`: invoke the callbacks registered for the event's name. */
  function Emit(e: Effects, ev: Event, clientId: string): (r: Effects)
    ensures ev.kind !in e.listeners ==> r == e
    ensures e.thrown ==> r == e
    ensures forall t, cb :: cb in Registered(r.listeners, t) ==> cb in Registered(e.listeners, t)
    ensures r.requests.Keys == e.requests.Keys
    ensures WellFormed(e.listeners) ==> WellFormed(r.listeners)
  {
    InvokeAll(e, Registered(e.listeners, ev.kind), ev.payload, clientId)
  }

  /** Emitting a sequence of events in order; a throw ends the sequence, since the later
      events are emitted by the same code the error leaves. */
  function EmitAll(e: Effects, evs: seq<Event>, clientId: string): (r: Effects)
    decreases |evs|
    ensures r.requests.Keys == e.requests.Keys
    ensures WellFormed(e.listeners) ==> WellFormed(r.listeners)
    ensures e.thrown ==> r == e
    ensures forall t, cb :: cb in Registered(r.listeners, t) ==> cb in Registered(e.listeners, t)
  {
    if evs == [] then e else Emit(EmitAll(e, evs[..|evs| - 1], clientId), evs[|evs| - 1], clientId)
  }

  /** Once an event's dispatch has thrown, the events after it are not dispatched. */
  lemma {:induction false} ThrowEndsEmitAll(e: Effects, evs: seq<Event>, clientId: string, i: nat)
    requires i <= |evs| && EmitAll(e, evs[..i], clientId).thrown
    decreases |evs|
    ensures EmitAll(e, evs, clientId) == EmitAll(e, evs[..i], clientId)
  {
    if i < |evs| {
      var prefix := evs[..|evs| - 1];
      assert prefix[..i] == evs[..i];
      ThrowEndsEmitAll(e, prefix, clientId, i);
    } else {
      assert evs[..i] == evs;
    }
  }

  /** The deliveries of a dispatch to plain subscribers: one per callback, in insertion order. */
  function Fanout(cbs: seq<Callback>, p: Payload): (r: seq<Delivery>)
    requires forall c :: c in cbs ==> c.Subscriber?
    ensures |r| == |cbs|
    ensures forall k :: 0 <= k < |cbs| ==> r[k] == Delivery(cbs[k].id, p)
  {
    seq(|cbs|, k requires 0 <= k < |cbs| => Delivery(cbs[k].id, p))
  }

  /** Dispatching to plain subscribers calls each of them once, in insertion order, with the
      payload, and changes neither the registry nor the requests. */
  lemma {:induction false} DispatchToSubscribers(e: Effects, cbs: seq<Callback>, p: Payload, clientId: string)
    requires forall c :: c in cbs ==> c.Subscriber?
    requires !e.thrown
    ensures InvokeAll(e, cbs, p, clientId) == e.(delivered := e.delivered + Fanout(cbs, p))
  {
    if cbs != [] {
      var prefix := cbs[..|cbs| - 1];
      assert forall c :: c in prefix ==> c in cbs;
      DispatchToSubscribers(e, prefix, p, clientId);
      assert Fanout(cbs, p) == Fanout(prefix, p) + [Delivery(cbs[|cbs| - 1].id, p)];
    } else {
      assert e.delivered + [] == e.delivered;
    }
  }

  /** With set semantics, a subscriber registered for an event name is called exactly once
      per dispatch of that name, however often it was registered. */
  lemma {:induction false} SubscriberCalledOnce(cbs: seq<Callback>, id: nat, p: Payload)
    requires forall c :: c in cbs ==> c.Subscriber?
    requires NoDup(cbs)
    ensures multiset(Fanout(cbs, p))[Delivery(id, p)] == if Subscriber(id) in cbs then 1 else 0
  {
    if cbs != [] {
      var prefix := cbs[..|cbs| - 1];
      assert forall c :: c in prefix ==> c in cbs;
      assert NoDup(prefix);
      SubscriberCalledOnce(prefix, id, p);
      assert Fanout(cbs, p) == Fanout(prefix, p) + [Delivery(cbs[|cbs| - 1].id, p)];
      assert cbs == prefix + [cbs[|cbs| - 1]];
      assert cbs[|cbs| - 1] !in prefix;
    }
  }
}
