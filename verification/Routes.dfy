/** What each kind of request does (server/route.go), apart from when its steps run: one section that may
    touch the hub, then a plan of frames to push. */
module Routes {
  import opened Protocol
  import opened Membership

  // ---- Frames the relay writes ----

  function ErrorFrame(error: string, scope: string, target: string): Envelope {
    BLANK.(typ := "error", scope := scope, target := target, error := error,
           payload := Fields(map["message" := error]))
  }

  function WelcomeFrame(server: string, id: string): Envelope {
    BLANK.(typ := "welcome", clientId := id, payload := Fields(map["server" := server, "message" := "connected"]))
  }

  function PongFrame(id: string): Envelope {
    BLANK.(typ := "pong", clientId := id)
  }

  function AboutRoom(typ: string, ref: RoomRef, id: string): Envelope {
    BLANK.(typ := typ, scope := ScopeOf(ref), target := TargetOf(ref), clientId := id,
           channelKind := if ref.ChannelRef? then ref.kind else "")
  }

  function JoinedFrame(ref: RoomRef, id: string, from: string): Envelope {
    var where := map["scope" := ScopeOf(ref), "target" := TargetOf(ref)];
    AboutRoom("joined", ref, id).(
      from := from,
      payload := Fields(if ref.ChannelRef? then where["channel_kind" := ref.kind] else where))
  }

  function LeftFrame(ref: RoomRef, id: string): Envelope {
    AboutRoom("left", ref, id)
  }

  function NoticeFrame(ref: RoomRef, id: string, from: string, event: string): Envelope {
    AboutRoom("system", ref, id).(from := from, payload := Fields(map["event" := event]))
  }

  /** An area message keeps whatever kind the request carried. */
  function MessageFrame(ref: RoomRef, id: string, from: string, msg: Envelope): Envelope {
    BLANK.(typ := "message", scope := ScopeOf(ref), target := msg.target, from := from, clientId := id,
           channelKind := if ref.ChannelRef? then ref.kind else msg.channelKind, payload := msg.payload)
  }

  function WhisperFrame(id: string, from: string, msg: Envelope): Envelope {
    BLANK.(typ := "whisper", from := from, clientId := id, to := msg.to, payload := msg.payload)
  }

  /** The room that a frame is about. */
  function FrameRoom(frame: Envelope): Room {
    if frame.scope == CHANNEL then Channel(ChannelKey(frame.channelKind, frame.target)) else Area(frame.target)
  }

  // ---- Names ----

  function NameAfterJoin(name: string, payload: Payload): string {
    if payload.Raw? && payload.asText.Some? && payload.asText.value != "" then payload.asText.value
    else if payload.Raw? && payload.asNamed.Some? && payload.asNamed.value != "" then payload.asNamed.value
    else name
  }

  function Shown(name: string, id: string): string {
    if name != "" then name else id
  }

  // ---- Plans ----

  /** `C` is whatever stands for a connection. */
  datatype Action<C> = ToSelf(frame: Envelope) | ToPeer(peer: C, frame: Envelope) | ToRoom(room: Room, frame: Envelope)

  type Plan<C> = seq<Action<C>>

  /** The part of a request that reads or changes the hub. */
  datatype Section = JoinRoom(ref: RoomRef) | LeaveRoom(ref: RoomRef) | CheckRoom(ref: RoomRef) | FindPeer
      | Reply(frame: Envelope)

  const BAD_SCOPE := "scope must be area or channel"

  function Dispatch(msg: Envelope, id: string): Section {
    if msg.typ == "join" || msg.typ == "leave" then
      match Addressed(msg)
      case None => Reply(ErrorFrame(BAD_SCOPE, msg.scope, msg.target))
      case Some(ref) => if msg.typ == "join" then JoinRoom(ref) else LeaveRoom(ref)
    else if msg.typ == "send" then
      if msg.target == "" then Reply(ErrorFrame("target is required", msg.scope, ""))
      else match Addressed(msg)
        case None => Reply(ErrorFrame(BAD_SCOPE, msg.scope, msg.target))
        case Some(ref) => CheckRoom(ref)
    else if msg.typ == "whisper" then
      if msg.to == "" then Reply(ErrorFrame("to (client_id) is required for whisper", "", ""))
      else FindPeer
    else if msg.typ == "ping" then Reply(PongFrame(id))
    else Reply(ErrorFrame("unknown type: " + msg.typ, msg.scope, msg.target))
  }

  function AfterJoin<C>(error: string, ref: RoomRef, id: string, from: string): Plan<C> {
    if error != "" then [ToSelf(ErrorFrame(error, ScopeOf(ref), TargetOf(ref)))]
    else [ToSelf(JoinedFrame(ref, id, from)), ToRoom(RoomOf(ref), NoticeFrame(ref, id, from, "joined"))]
  }

  function AfterLeave<C>(ref: RoomRef, id: string, from: string): Plan<C> {
    [ToSelf(LeftFrame(ref, id)), ToRoom(RoomOf(ref), NoticeFrame(ref, id, from, "left"))]
  }

  function AfterCheck<C>(member: bool, ref: RoomRef, id: string, from: string, msg: Envelope): Plan<C> {
    if !member then
      [ToSelf(ErrorFrame("not a member of " + ScopeOf(ref) + "; join first", ScopeOf(ref), msg.target))]
    else
      var frame := MessageFrame(ref, id, from, msg);
      [ToRoom(RoomOf(ref), frame), ToSelf(frame)]
  }

  function AfterFind<C>(peer: Option<C>, id: string, from: string, msg: Envelope): Plan<C> {
    match peer
    case None => [ToSelf(ErrorFrame("peer not found: " + msg.to, "", ""))]
    case Some(p) =>
      var frame := WhisperFrame(id, from, msg);
      [ToPeer(p, frame), ToSelf(frame)]
  }

  // ---- A request's section ----

  /** A client's own record of its rooms. */
  datatype Record = Record(areas: set<string>, channels: set<string>)

  predicate Belongs(own: Record, room: Room) {
    match room
    case Area(area) => area in own.areas
    case Channel(key) => key in own.channels
  }

  function Enter(own: Record, room: Room): Record {
    match room
    case Area(area) => own.(areas := own.areas + {area})
    case Channel(key) => own.(channels := own.channels + {key})
  }

  function Exit(own: Record, room: Room): Record {
    match room
    case Area(area) => own.(areas := own.areas - {area})
    case Channel(key) => own.(channels := own.channels - {key})
  }

  predicate Stored<C>(rooms: Rooms<C>, room: Room) {
    match room
    case Area(area) => area in rooms.areas
    case Channel(key) => key in rooms.channels
  }

  datatype Outcome<C> = Outcome(rooms: Rooms<C>, own: Record, plan: Plan<C>)

  /** What one request by `self` does to the rooms and to its record, and the pushes that it leads to. A member
      check asks the client's own record; leaving a room that is not stored leaves the record alone. */
  function Respond<C(==)>(rooms: Rooms<C>, directory: map<string, C>, limits: HubLimits,
                      self: C, own: Record, id: string, from: string, msg: Envelope): Outcome<C>
  {
    match Dispatch(msg, id)
    case JoinRoom(ref) =>
      var error := JoinError(rooms, limits, ref, self);
      Outcome(Join(rooms, limits, ref, self), if error == "" then Enter(own, RoomOf(ref)) else own,
              AfterJoin(error, ref, id, from))
    case LeaveRoom(ref) =>
      Outcome(Leave(rooms, RoomOf(ref), self), if Stored(rooms, RoomOf(ref)) then Exit(own, RoomOf(ref)) else own,
              AfterLeave(ref, id, from))
    case CheckRoom(ref) =>
      Outcome(rooms, own, AfterCheck(Belongs(own, RoomOf(ref)), ref, id, from, msg))
    case FindPeer =>
      Outcome(rooms, own, AfterFind(if msg.to in directory then Some(directory[msg.to]) else None, id, from, msg))
    case Reply(frame) =>
      Outcome(rooms, own, [ToSelf(frame)])
  }

  /** The name that a request leaves its sender with: joins may set it. */
  function NameAfter(name: string, msg: Envelope): string {
    if msg.typ == "join" then NameAfterJoin(name, msg.payload) else name
  }

  // ---- Queues ----

  const QUEUE_SIZE := 256

  datatype Fate = Accepted | Dropped | Refused

  /** What becomes of a push: a closed queue refuses it, a full one drops it. */
  function FateOf(closed: bool, queued: nat): Fate {
    if closed then Refused else if queued < QUEUE_SIZE then Accepted else Dropped
  }

  /** A push that never waits: a full queue drops the frame. */
  function Offer<T>(queue: seq<T>, frame: T): seq<T> {
    if |queue| < QUEUE_SIZE then queue + [frame] else queue
  }

  predicate Reaches<C(==)>(rooms: Rooms<C>, self: C, action: Action<C>, r: C) {
    match action
    case ToSelf(_) => r == self
    case ToPeer(peer, _) => r == peer
    case ToRoom(room, _) => r != self && r in Members(rooms, room)
  }

  /** The queue of `r` after `self` runs `plan` with nothing in between. */
  function QueueAfter<C(==)>(rooms: Rooms<C>, self: C, plan: Plan<C>, r: C, queue: seq<Envelope>): seq<Envelope> {
    if plan == [] then queue
    else QueueAfter(rooms, self, plan[1..], r,
                    if Reaches(rooms, self, plan[0], r) then Offer(queue, plan[0].frame) else queue)
  }

  function OfferIf<T>(yes: bool, queue: seq<T>, frame: T): seq<T> {
    if yes then Offer(queue, frame) else queue
  }

  lemma QueueAfterOne<C>(rooms: Rooms<C>, self: C, a: Action<C>, r: C, queue: seq<Envelope>)
    ensures QueueAfter(rooms, self, [a], r, queue) == OfferIf(Reaches(rooms, self, a, r), queue, a.frame)
  {
  }

  lemma QueueAfterTwo<C>(rooms: Rooms<C>, self: C, a: Action<C>, b: Action<C>, r: C, queue: seq<Envelope>)
    ensures QueueAfter(rooms, self, [a, b], r, queue)
         == OfferIf(Reaches(rooms, self, b, r), OfferIf(Reaches(rooms, self, a, r), queue, a.frame), b.frame)
  {
    assert [a, b][1..] == [b];
    QueueAfterOne(rooms, self, b, r, OfferIf(Reaches(rooms, self, a, r), queue, a.frame));
  }

  /** The frames of a plan that are offered to `r`, in the order of the plan. */
  function Reaching<C(==)>(rooms: Rooms<C>, self: C, plan: Plan<C>, r: C): seq<Envelope> {
    if plan == [] then []
    else (if Reaches(rooms, self, plan[0], r) then [plan[0].frame] else []) + Reaching(rooms, self, plan[1..], r)
  }

  function Capped<T>(queue: seq<T>): seq<T> {
    if |queue| <= 256 then queue else queue[..256]
  }

  /** A queue keeps what it held and takes the frames offered to it in order, as far as there is space. */
  lemma {:induction false} QueueTakesInOrder<C>(rooms: Rooms<C>, self: C, plan: Plan<C>, r: C, queue: seq<Envelope>)
    requires |queue| <= 256
    ensures QueueAfter(rooms, self, plan, r, queue) == Capped(queue + Reaching(rooms, self, plan, r))
  {
    if plan == [] {
      assert queue + [] == queue;
    } else {
      var first, rest := plan[0].frame, Reaching(rooms, self, plan[1..], r);
      if Reaches(rooms, self, plan[0], r) {
        QueueTakesInOrder(rooms, self, plan[1..], r, Offer(queue, first));
        assert queue + ([first] + rest) == (queue + [first]) + rest;
      } else {
        QueueTakesInOrder(rooms, self, plan[1..], r, queue);
        assert [] + rest == rest;
      }
    }
  }
}
