/** The shared vocabulary of the realtime layer (lib/realtime/types.ts): connection states,
    event names, the wall message and presence records, the wire envelope and the
    polling cursor. */
module RealtimeTypes {
  import opened Wrappers

  /** The five connection states; exactly one is current at a time. */
  datatype ConnectionStatus = Connecting | Connected | Disconnected | Reconnecting | FallbackPolling

  /** The enumerated event names carried in a packet's `type` field. */
  datatype MessageType =
    | MessageNew | MessageLike | MessageDelete
    | VoteCast | VoteUpdate
    | GuestJoin | GuestLeave | GuestList
    | SyncRequest | SyncResponse
    | Heartbeat | Error

  /** The wire spelling of each event name. */
  function WireName(t: MessageType): string {
    match t
    case MessageNew => "message:new"
    case MessageLike => "message:like"
    case MessageDelete => "message:delete"
    case VoteCast => "vote:cast"
    case VoteUpdate => "vote:update"
    case GuestJoin => "guest:join"
    case GuestLeave => "guest:leave"
    case GuestList => "guest:list"
    case SyncRequest => "sync:request"
    case SyncResponse => "sync:response"
    case Heartbeat => "heartbeat"
    case Error => "error"
  }

  datatype WallMessage = WallMessage(
    id: string,
    guestId: string,
    guestName: string,
    guestAvatar: Option<string>,
    content: string,
    likes: int,
    likedBy: seq<string>,
    createdAt: int,
    updatedAt: int)

  datatype GuestRole = BrideSide | GroomSide | Family | Friend | Colleague
  datatype DeviceType = Mobile | Desktop | Tablet

  /** An online-presence record. The client's built-in seed guests carry only
      `id`, `name` and `joinedAt`, so the remaining fields are optional here. */
  datatype OnlineGuest = OnlineGuest(
    id: string,
    name: string,
    avatar: Option<string>,
    role: Option<GuestRole>,
    joinedAt: int,
    lastActiveAt: Option<int>,
    deviceType: Option<DeviceType>)

  /** The payload shapes that travel in packets. `NullBody` is JSON `null`; `Opaque` stands
      for any other JSON value. */
  datatype Payload =
    | MessageBody(message: WallMessage)
    | LikeRequest(messageId: string, likerId: string)
    | VoteRequest(voteId: string, optionId: string, voterId: string)
    | VoteUpdateBody(updateVoteId: string, updateOptionId: string, updateVoterId: string,
                     voteCount: Option<int>, sentAt: int)
    | JoinAnnouncement(joiningId: string, joiningSession: string)
    | GuestBody(guest: OnlineGuest)
    | LeaveBody(leavingId: string)
    | GuestListBody(guests: seq<OnlineGuest>)
    | SyncRequestBody(requested: MessageType)
    | HeartbeatBody(beatAt: int)
    | NullBody
    | Opaque

  /** The wire envelope (`WSPacket`); `kind` is the packet's `type`. */
  datatype Packet = Packet(
    id: string,
    kind: MessageType,
    payload: Payload,
    timestamp: int,
    clientId: string,
    sessionId: string)

  /** The fallback driver's cursor state. */
  datatype PollingState = PollingState(
    lastEventId: string,
    pollInterval: int,
    retryCount: nat,
    maxRetries: int)
}
