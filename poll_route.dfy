/** The polling endpoint of the realtime fallback (app/api/realtime/poll/route.ts): given a
    session and a cursor, it returns the stored events after the cursor and the new cursor.
    The event store is a parameter; the response's clock timestamp is not modelled. */
module PollRoute {
  import opened Wrappers
  import opened RealtimeTypes

  /** One stored event: its id and the packet it carries. */
  datatype StoredEvent = StoredEvent(id: string, packet: Packet, timestamp: int)

  /** The per-session event buffers. */
  type EventStore = map<string, seq<StoredEvent>>

  datatype Response =
    | BadRequest(error: string)
    | Events(events: seq<Packet>, lastEventId: string)

  /** `events.findIndex(e => e.id === id)`: the first index with that id, or -1. */
  function FindIndex(events: seq<StoredEvent>, id: string): (r: int)
    ensures -1 <= r < |events|
    ensures r >= 0 ==> events[r].id == id && forall k :: 0 <= k < r ==> events[k].id != id
    ensures r == -1 <==> forall k :: 0 <= k < |events| ==> events[k].id != id
  {
    if events == [] then -1
    else if events[0].id == id then 0
    else
      var r := FindIndex(events[1..], id);
      if r == -1 then -1 else r + 1
  }

  /** `events.map(e => e.packet)`. */
  function Packets(events: seq<StoredEvent>): (r: seq<Packet>)
    ensures |r| == |events|
    ensures forall k :: 0 <= k < |events| ==> r[k] == events[k].packet
  {
    seq(|events|, (k: int) requires 0 <= k < |events| => events[k].packet)
  }

  /** The buffer of a session, empty when the session has none. */
  function Buffer(store: EventStore, session: string): seq<StoredEvent> {
    if session in store then store[session] else []
  }

  /** The events a cursor selects: all of them for the empty cursor, otherwise those after
      the first event with that id, or all of them again when no event has that id. */
  function After(events: seq<StoredEvent>, cursor: string): (r: seq<StoredEvent>)
    ensures |r| <= |events| && r == events[|events| - |r|..]
  {
    var lastIndex := if cursor != "" then FindIndex(events, cursor) else -1;
    events[lastIndex + 1..]
  }

  /** `GET /api/realtime/poll`. A query parameter that is absent is `None`; a missing or
      empty `sessionId` is rejected, and a missing `lastEventId` reads as "". */
  function Poll(store: EventStore, sessionId: Option<string>, lastEventId: Option<string>): (r: Response)
    ensures sessionId.None? || sessionId == Some("") <==> r.BadRequest?
    ensures r.BadRequest? ==> r.error == "缺少 sessionId"
  {
    var cursor := lastEventId.GetOr("");
    if sessionId.None? || sessionId.value == "" then BadRequest("缺少 sessionId")
    else
      var newEvents := After(Buffer(store, sessionId.value), cursor);
      Events(Packets(newEvents), if |newEvents| > 0 then newEvents[|newEvents| - 1].id else cursor)
  }

  /** An empty cursor returns every stored event of the session, in store order. */
  lemma EmptyCursorReturnsAll(store: EventStore, session: string, lastEventId: Option<string>)
    requires session != ""
    requires lastEventId.None? || lastEventId == Some("")
    ensures Poll(store, Some(session), lastEventId).events == Packets(Buffer(store, session))
  {
  }

  /** A cursor equal to a stored id returns exactly the events after its first occurrence. */
  lemma KnownCursorReturnsRest(store: EventStore, session: string, cursor: string, i: nat)
    requires session != "" && cursor != ""
    requires i < |Buffer(store, session)| && Buffer(store, session)[i].id == cursor
    requires forall k :: 0 <= k < i ==> Buffer(store, session)[k].id != cursor
    ensures Poll(store, Some(session), Some(cursor)).events == Packets(Buffer(store, session)[i + 1..])
  {
    assert FindIndex(Buffer(store, session), cursor) == i;
  }

  /** An unknown cursor returns the whole buffer again. */
  lemma UnknownCursorReturnsAll(store: EventStore, session: string, cursor: string)
    requires session != ""
    requires forall k :: 0 <= k < |Buffer(store, session)| ==> Buffer(store, session)[k].id != cursor
    ensures Poll(store, Some(session), Some(cursor)).events == Packets(Buffer(store, session))
  {
  }

  /** The events returned are the packets of the last `|events|` entries of the session's
      buffer, and the new cursor is the id of the buffer's last event, or the request's
      cursor when nothing is returned. */
  lemma ReturnsSuffix(store: EventStore, session: string, lastEventId: Option<string>)
    requires session != ""
    ensures var r := Poll(store, Some(session), lastEventId);
            var buf := Buffer(store, session);
            && |r.events| <= |buf| && r.events == Packets(buf[|buf| - |r.events|..])
            && r.lastEventId == (if |r.events| > 0 then buf[|buf| - 1].id else lastEventId.GetOr(""))
  {
    var buf := Buffer(store, session);
    var rest := After(buf, lastEventId.GetOr(""));
    assert rest == buf[|buf| - |rest|..];
    if |rest| > 0 {
      assert rest[|rest| - 1] == buf[|buf| - 1];
    }
  }

  /** Event ids of one buffer are distinct and non-empty. */
  predicate UniqueIds(events: seq<StoredEvent>) {
    && (forall k :: 0 <= k < |events| ==> events[k].id != "")
    && (forall i, j :: 0 <= i < j < |events| ==> events[i].id != events[j].id)
  }

  /** The cursor a response carries selects nothing from the buffer it was computed on. */
  lemma NewCursorSelectsNothing(buf: seq<StoredEvent>, cursor: string)
    requires UniqueIds(buf)
    ensures var rest := After(buf, cursor);
            After(buf, if |rest| > 0 then rest[|rest| - 1].id else cursor) == []
  {
    var rest := After(buf, cursor);
    if |rest| > 0 {
      assert rest[|rest| - 1] == buf[|buf| - 1];
      assert FindIndex(buf, buf[|buf| - 1].id) == |buf| - 1;
    }
  }

  /** With unique ids and an unchanged store, polling again with the returned cursor
      returns nothing and keeps the cursor. */
  lemma RepollIsEmpty(store: EventStore, session: string, lastEventId: Option<string>)
    requires session != "" && UniqueIds(Buffer(store, session))
    ensures var r1 := Poll(store, Some(session), lastEventId);
            var r2 := Poll(store, Some(session), Some(r1.lastEventId));
            r2 == Events([], r1.lastEventId)
  {
    NewCursorSelectsNothing(Buffer(store, session), lastEventId.GetOr(""));
  }
}
