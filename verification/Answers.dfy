/** What each request is answered with, said from the fields of the request and of the frames (server/route.go). */
module Answers {
  import opened Protocol
  import opened Membership
  import opened Routes

  // ---- Which room a request is about ----

  /** The request names a room by its fields; an unnamed kind of channel is "custom". */
  ghost predicate Names(msg: Envelope, scope: string, kind: string, room: Room) {
    || ((msg.scope == "" || msg.scope == "area") && scope == "area" && kind == "" && room == Area(msg.target))
    || (msg.scope == "channel" && scope == "channel"
        && kind == (if msg.channelKind == "" then "custom" else msg.channelKind)
        && room == Channel(kind + ":" + msg.target))
  }

  ghost predicate BadScope(msg: Envelope) {
    msg.scope != "" && msg.scope != "area" && msg.scope != "channel"
  }

  ghost predicate NeedsScope(msg: Envelope) {
    msg.typ == "join" || msg.typ == "leave" || (msg.typ == "send" && msg.target != "")
  }

  lemma NamesExactly(msg: Envelope)
    ensures BadScope(msg) <==> forall scope, kind, room :: !Names(msg, scope, kind, room)
  {
    if !BadScope(msg) {
      var kind := if msg.channelKind == "" then "custom" else msg.channelKind;
      if msg.scope == "channel" {
        assert Names(msg, "channel", kind, Channel(kind + ":" + msg.target));
      } else {
        assert Names(msg, "area", "", Area(msg.target));
      }
    }
  }

  lemma NamesAddressed(msg: Envelope, scope: string, kind: string, room: Room)
    requires Names(msg, scope, kind, room)
    ensures Addressed(msg).Some? && RoomOf(Addressed(msg).value) == room && ScopeOf(Addressed(msg).value) == scope
    ensures Addressed(msg).value == if scope == "area" then AreaRef(msg.target) else ChannelRef(kind, msg.target)
  {
  }

  /** What a client's record says is what the hub says. */
  ghost predicate Sides<C>(rooms: Rooms<C>, self: C, own: Record) {
    && NoEmptyRoom(rooms.areas) && NoEmptyRoom(rooms.channels)
    && forall room :: Belongs(own, room) <==> self in Members(rooms, room)
  }

  lemma SidesOf<C>(rooms: Rooms<C>, areaRecords: map<C, set<string>>, channelRecords: map<C, set<string>>, c: C)
    requires Agrees(rooms.areas, areaRecords) && Agrees(rooms.channels, channelRecords)
    requires c in areaRecords && c in channelRecords
    ensures Sides(rooms, c, Record(areaRecords[c], channelRecords[c]))
  {
    assert areaRecords[c] == KeysOf(rooms.areas, c) && channelRecords[c] == KeysOf(rooms.channels, c);
  }

  // ---- Frames, field by field ----

  function Frame(typ: string, scope: string, target: string, kind: string, from: string, id: string,
      payload: Payload): Envelope {
    Envelope(typ, scope, target, kind, "", from, id, payload, "")
  }

  function Complaint(text: string, scope: string, target: string): Envelope {
    Envelope("error", scope, target, "", "", "", "", Fields(map["message" := text]), text)
  }

  // ---- Leaving ----

  /** The client is out of the room, on both sides, and nothing else changed; it is told so, and then the room is. */
  ghost predicate Leaves<C>(rooms: Rooms<C>, own: Record, o: Outcome<C>, self: C, id: string, from: string,
                            msg: Envelope, scope: string, kind: string, room: Room) {
    && (forall other :: Members(o.rooms, other) == Members(rooms, other) - if other == room then {self} else {})
    && (forall other :: Belongs(o.own, other) <==> Belongs(own, other) && other != room)
    && o.plan == [ToSelf(Frame("left", scope, msg.target, kind, "", id, NoPayload)),
                  ToRoom(room, Frame("system", scope, msg.target, kind, from, id, Fields(map["event" := "left"])))]
  }

  lemma LeaveIsAnswered<C>(rooms: Rooms<C>, directory: map<string, C>, limits: HubLimits, self: C, own: Record,
                           id: string, from: string, msg: Envelope, scope: string, kind: string, room: Room)
    requires msg.typ == "leave" && Names(msg, scope, kind, room) && Sides(rooms, self, own)
    ensures Leaves(rooms, own, Respond(rooms, directory, limits, self, own, id, from, msg), self, id, from, msg,
            scope, kind, room)
  {
    var ref := Addressed(msg).value;
    var o := Respond(rooms, directory, limits, self, own, id, from, msg);
    NamesAddressed(msg, scope, kind, room);
    assert Dispatch(msg, id) == LeaveRoom(ref);
    forall other
      ensures Members(o.rooms, other) == Members(rooms, other) - if other == room then {self} else {}
    {
      LeaveMembers(rooms, room, self, other);
    }
    forall other
      ensures Belongs(o.own, other) <==> Belongs(own, other) && other != room
    {
      assert Belongs(own, room) ==> self in Members(rooms, room);
    }
  }

  // ---- Joining ----

  /** The limits hold, for areas and for channels. */
  ghost predicate LimitsHold<C>(rooms: Rooms<C>, limits: HubLimits) {
    WithinLimits(rooms.areas, limits.area) && WithinLimits(rooms.channels, limits.channel)
  }

  /** The limits would hold with the client in the room. */
  ghost predicate HasSpace<C>(rooms: Rooms<C>, limits: HubLimits, room: Room, self: C) {
    match room
    case Area(area) => WithinLimits(With(rooms.areas, area, self), limits.area)
    case Channel(key) => WithinLimits(With(rooms.channels, key, self), limits.channel)
  }

  /** What stands in the way of a join, if anything does: a part of the room's name that is missing, or the limit that
      would not hold any more. */
  ghost function Shortage<C>(rooms: Rooms<C>, limits: HubLimits, ref: RoomRef, self: C): string {
    match ref
    case AreaRef(area) =>
      if area == "" then "target (area id) is required"
      else if HasSpace(rooms, limits, Area(area), self) then ""
      else if limits.area.maxRooms > 0 && |With(rooms.areas, area, self)| > limits.area.maxRooms
          then "max areas reached"
      else "area is full"
    case ChannelRef(kind, id) =>
      if kind == "" then "channel_kind is required (party|guild|whisper|custom)"
      else if id == "" then "target (channel id) is required"
      else if HasSpace(rooms, limits, Channel(kind + ":" + id), self) then ""
      else if limits.channel.maxRooms > 0 && |With(rooms.channels, kind + ":" + id, self)| > limits.channel.maxRooms
        then "max channels reached"
      else "channel is full"
  }

  lemma ShortageExactly<C>(rooms: Rooms<C>, limits: HubLimits, ref: RoomRef, self: C)
    ensures LimitsHold(rooms, limits) ==> JoinError(rooms, limits, ref, self) == Shortage(rooms, limits, ref, self)
  {
    if LimitsHold(rooms, limits) {
      match RoomOf(ref)
      case Area(area) => AdmitExactly(rooms.areas, limits.area, area, self);
      case Channel(key) => AdmitExactly(rooms.channels, limits.channel, key, self);
    }
  }

  /** Why a join fails: no target, no space in the room, or no space for another room; "" if it does not. */
  ghost function Refusal<C>(rooms: Rooms<C>, limits: HubLimits, self: C, msg: Envelope, scope: string,
      room: Room): string {
    if msg.target == "" then if scope == "area" then "target (area id) is required"
        else "target (channel id) is required"
    else if HasSpace(rooms, limits, room, self) then ""
    else if Members(rooms, room) == {} then if scope == "area" then "max areas reached" else "max channels reached"
    else if scope == "area" then "area is full" else "channel is full"
  }

  /** The client is in the room, on both sides, and nothing else changed; it is told so, and then the room is. */
  ghost predicate Enters<C>(rooms: Rooms<C>, own: Record, o: Outcome<C>, self: C, id: string, from: string,
                            msg: Envelope, scope: string, kind: string, room: Room) {
    && (forall other :: Members(o.rooms, other) == Members(rooms, other) + if other == room then {self} else {})
    && (forall other :: Belongs(o.own, other) <==> Belongs(own, other) || other == room)
    && o.plan == [ToSelf(Frame("joined", scope, msg.target, kind, from, id, JoinedPayload(scope, kind, msg.target))),
                  ToRoom(room, Frame("system", scope, msg.target, kind, from, id, Fields(map["event" := "joined"])))]
  }

  /** Nothing changes, and the client is told why. */
  ghost predicate Refuses<C>(rooms: Rooms<C>, own: Record, o: Outcome<C>, complaint: Envelope) {
    o == Outcome(rooms, own, [ToSelf(complaint)])
  }

  lemma JoinErrorIsRefusal<C>(rooms: Rooms<C>, limits: HubLimits, self: C, own: Record, msg: Envelope,
                              scope: string, kind: string, room: Room)
    requires Names(msg, scope, kind, room) && Sides(rooms, self, own) && LimitsHold(rooms, limits)
    ensures JoinError(rooms, limits, Addressed(msg).value, self) == Refusal(rooms, limits, self, msg, scope, room)
  {
    NamesAddressed(msg, scope, kind, room);
    match room
    case Area(area) => AdmitExactly(rooms.areas, limits.area, area, self);
    case Channel(key) => AdmitExactly(rooms.channels, limits.channel, key, self);
  }

  function JoinedPayload(scope: string, kind: string, target: string): Payload {
    var where := map["scope" := scope, "target" := target];
    Fields(if scope == "area" then where else where["channel_kind" := kind])
  }

  lemma JoinedSpelled(ref: RoomRef, id: string, from: string, scope: string, kind: string, target: string)
    requires (scope == "area" && kind == "" && ref == AreaRef(target))
             || (scope == "channel" && ref == ChannelRef(kind, target))
    ensures JoinedFrame(ref, id, from)
            == Frame("joined", scope, target, kind, from, id, JoinedPayload(scope, kind, target))
    ensures forall event :: NoticeFrame(ref, id, from, event)
                         == Frame("system", scope, target, kind, from, id, Fields(map["event" := event]))
  {
  }

  lemma JoinChanges<C>(rooms: Rooms<C>, limits: HubLimits, self: C, own: Record, ref: RoomRef, other: Room)
    requires JoinError(rooms, limits, ref, self) == ""
    ensures Members(Join(rooms, limits, ref, self), other) == Members(rooms, other) + if other == RoomOf(ref)
            then {self} else {}
    ensures Belongs(Enter(own, RoomOf(ref)), other) <==> Belongs(own, other) || other == RoomOf(ref)
  {
    JoinMembers(rooms, limits, ref, self, other);
  }

  lemma JoinByError<C>(rooms: Rooms<C>, directory: map<string, C>, limits: HubLimits, self: C, own: Record,
                       id: string, from: string, msg: Envelope, scope: string, kind: string, room: Room)
    requires msg.typ == "join" && Names(msg, scope, kind, room)
    ensures var o := Respond(rooms, directory, limits, self, own, id, from, msg);
            var error := JoinError(rooms, limits, Addressed(msg).value, self);
            if error == "" then Enters(rooms, own, o, self, id, from, msg, scope, kind, room)
            else Refuses(rooms, own, o, Complaint(error, scope, msg.target))
  {
    var ref := Addressed(msg).value;
    NamesAddressed(msg, scope, kind, room);
    assert Dispatch(msg, id) == JoinRoom(ref);
    if JoinError(rooms, limits, ref, self) == "" {
      JoinedSpelled(ref, id, from, scope, kind, msg.target);
      forall other
        ensures Members(Join(rooms, limits, ref, self), other) == Members(rooms, other) + if other == room
                then {self} else {}
        ensures Belongs(Enter(own, room), other) <==> Belongs(own, other) || other == room
      {
        JoinChanges(rooms, limits, self, own, ref, other);
      }
    }
  }

  lemma JoinIsAnswered<C>(rooms: Rooms<C>, directory: map<string, C>, limits: HubLimits, self: C, own: Record,
                          id: string, from: string, msg: Envelope, scope: string, kind: string, room: Room)
    requires msg.typ == "join" && Names(msg, scope, kind, room) && Sides(rooms, self, own) && LimitsHold(rooms, limits)
    ensures var o := Respond(rooms, directory, limits, self, own, id, from, msg);
            var refusal := Refusal(rooms, limits, self, msg, scope, room);
            if refusal == "" then Enters(rooms, own, o, self, id, from, msg, scope, kind, room)
            else Refuses(rooms, own, o, Complaint(refusal, scope, msg.target))
  {
    JoinErrorIsRefusal(rooms, limits, self, own, msg, scope, kind, room);
    JoinByError(rooms, directory, limits, self, own, id, from, msg, scope, kind, room);
  }

  // ---- Sending ----

  /** The message goes to the room and then back to its sender. */
  ghost predicate Sends<C>(rooms: Rooms<C>, own: Record, o: Outcome<C>, id: string, from: string,
                           msg: Envelope, scope: string, kind: string, room: Room) {
    var shownKind := if scope == "area" then msg.channelKind else kind;
    var frame := Frame("message", scope, msg.target, shownKind, from, id, msg.payload);
    o == Outcome(rooms, own, [ToRoom(room, frame), ToSelf(frame)])
  }

  function Stranger(scope: string): string {
    if scope == "area" then "not a member of area; join first" else "not a member of channel; join first"
  }

  lemma SendIsAnswered<C>(rooms: Rooms<C>, directory: map<string, C>, limits: HubLimits, self: C, own: Record,
                          id: string, from: string, msg: Envelope, scope: string, kind: string, room: Room)
    requires msg.typ == "send" && msg.target != "" && Names(msg, scope, kind, room)
    ensures var o := Respond(rooms, directory, limits, self, own, id, from, msg);
            if Belongs(own, room) then Sends(rooms, own, o, id, from, msg, scope, kind, room)
            else Refuses(rooms, own, o, Complaint(Stranger(scope), scope, msg.target))
  {
    NamesAddressed(msg, scope, kind, room);
    assert Dispatch(msg, id) == CheckRoom(Addressed(msg).value);
    StrangerText();
  }

  lemma StrangerText()
    ensures "not a member of " + "area" + "; join first" == "not a member of area; join first"
    ensures "not a member of " + "channel" + "; join first" == "not a member of channel; join first"
  {
  }

  // ---- Whispering ----

  /** The whisper goes to its peer and then back to its sender. */
  ghost predicate Whispers<C>(rooms: Rooms<C>, own: Record, o: Outcome<C>, peer: C, id: string, from: string,
      msg: Envelope) {
    var frame := Envelope("whisper", "", "", "", msg.to, from, id, msg.payload, "");
    o == Outcome(rooms, own, [ToPeer(peer, frame), ToSelf(frame)])
  }

  lemma WhisperIsAnswered<C>(rooms: Rooms<C>, directory: map<string, C>, limits: HubLimits, self: C, own: Record,
                             id: string, from: string, msg: Envelope)
    requires msg.typ == "whisper"
    ensures var o := Respond(rooms, directory, limits, self, own, id, from, msg);
            if msg.to == "" then Refuses(rooms, own, o, Complaint("to (client_id) is required for whisper", "", ""))
            else if msg.to in directory then Whispers(rooms, own, o, directory[msg.to], id, from, msg)
            else Refuses(rooms, own, o, Complaint("peer not found: " + msg.to, "", ""))
  {
  }

  // ---- Everything else ----

  lemma OthersAreAnswered<C>(rooms: Rooms<C>, directory: map<string, C>, limits: HubLimits, self: C, own: Record,
                             id: string, from: string, msg: Envelope)
    ensures var o := Respond(rooms, directory, limits, self, own, id, from, msg);
            && (msg.typ == "ping" ==> Refuses(rooms, own, o, Frame("pong", "", "", "", "", id, NoPayload)))
            && (NeedsScope(msg) && BadScope(msg) ==>
                  Refuses(rooms, own, o, Complaint("scope must be area or channel", msg.scope, msg.target)))
            && (msg.typ == "send" && msg.target == "" ==>
                  Refuses(rooms, own, o, Complaint("target is required", msg.scope, "")))
            && (msg.typ !in {"join", "leave", "send", "whisper", "ping"} ==>
                  Refuses(rooms, own, o, Complaint("unknown type: " + msg.typ, msg.scope, msg.target)))
  {
  }

  // ---- Names ----

  /** A join names its sender by a string, or by an object with a name; nothing else does. */
  lemma NamesAreGiven(name: string, msg: Envelope)
    ensures msg.typ == "join" && msg.payload.Raw? && msg.payload.asText.Some? && msg.payload.asText.value != "" ==>
              NameAfter(name, msg) == msg.payload.asText.value
    ensures msg.typ == "join" && msg.payload.Raw? && (msg.payload.asText.None? || msg.payload.asText.value == "")
            && msg.payload.asNamed.Some? && msg.payload.asNamed.value != "" ==>
              NameAfter(name, msg) == msg.payload.asNamed.value
    ensures msg.typ != "join" || !msg.payload.Raw?
            || ((msg.payload.asText.None? || msg.payload.asText.value == "")
                && (msg.payload.asNamed.None? || msg.payload.asNamed.value == "")) ==>
              NameAfter(name, msg) == name
  {
  }
}
