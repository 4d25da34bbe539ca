/** The hub and its clients as objects (server/hub.go, server/client.go, server/route.go): every method is one
    critical section or handler run without interruption. RelaySystem.dfy lets them interleave.

    Go ranges over a map in an arbitrary order and may delete while doing so; here such a loop works through
    a snapshot of the keys and picks any of those left. */
module RelayHub {
  import opened Protocol
  import opened Membership
  import opened Routes
  import opened Answers

  /** The process-wide identifier counter: a 64-bit word that is incremented before it is read. */
  class Counter {
    var value: nat

    constructor ()
      ensures value == 0
    {
      value := 0;
    }

    method Add() returns (v: nat)
      requires value < WORD
      modifies this
      ensures v == value == (old(value) + 1) % 0x1_0000_0000_0000_0000
    {
      value := (value + 1) % WORD;
      v := value;
    }
  }

  class Client {
    const hub: Hub
    const id: string
    var name: string
    var areas: set<string>
    var channels: set<string>
    var queue: seq<Envelope>
    var closed: bool

    /** `issued` counts the clients made so far. */
    constructor (hub: Hub, counter: Counter, ghost issued: nat)
      requires counter.value == issued % WORD
      modifies counter
      ensures counter.value == (issued + 1) % WORD
      ensures this.hub == hub && id == IdOf(issued) && name == ""
      ensures areas == channels == {} && queue == [] && !closed
    {
      var n := counter.Add();
      this.hub := hub;
      id := "c" + Decimal.Format(n);
      name := "";
      areas, channels, queue, closed := {}, {}, [], false;
    }

    /** Never waits. Sending on a closed queue is a run-time failure in Go, here the fate `Refused`. */
    method TrySend(data: Envelope) returns (fate: Fate)
      modifies `queue
      ensures closed ==> fate == Refused
      ensures !closed ==> fate == if |old(queue)| < 256 then Accepted else Dropped
      ensures queue == if fate == Accepted then old(queue) + [data] else old(queue)
      ensures !closed ==> queue == Offer(old(queue), data)
    {
      if closed {
        return Refused;
      } else if |queue| < QUEUE_SIZE {
        queue := queue + [data];
        return Accepted;
      }
      return Dropped;
    }

    method ReplyWith(frame: Envelope)
      requires !closed
      modifies `queue
      ensures queue == Offer(old(queue), frame)
    {
      var _ := TrySend(frame);
    }

    method ApplyNameFromPayload(payload: Payload)
      modifies `name
      ensures name == NameAfterJoin(old(name), payload)
    {
      if !payload.Raw? {
        return;
      }
      if payload.asText.Some? && payload.asText.value != "" {
        name := payload.asText.value;
        return;
      }
      if payload.asNamed.Some? && payload.asNamed.value != "" {
        name := payload.asNamed.value;
      }
    }

    function GetName(): string
      reads `name
    {
      Shown(name, id)
    }

    function Own(): Record
      reads `areas, `channels
    {
      Record(areas, channels)
    }

    // ---- Pushing frames ----

    /** This client has run the plan: every queue is as `QueueAfter` says. */
    twostate predicate Pushed(new plan: Plan<Client>)
      reads hub, hub.live
    {
      && hub.live == old(hub.live)
      && forall r :: r in hub.live ==> r.queue == QueueAfter(hub.Rooms(), this, plan, r, old(r.queue))
    }

    method ReplyOnly(frame: Envelope)
      requires hub.Valid() && this in hub.live
      modifies hub.live`queue
      ensures hub.Valid() && Pushed([ToSelf(frame)])
    {
      forall r | r in hub.live {
        QueueAfterOne(hub.Rooms(), this, ToSelf(frame), r, r.queue);
      }
      ReplyWith(frame);
    }

    method ReplyThenTell(reply: Envelope, ref: RoomRef, notice: Envelope)
      requires hub.Valid() && this in hub.live
      modifies hub.live`queue
      ensures hub.Valid() && Pushed([ToSelf(reply), ToRoom(RoomOf(ref), notice)])
    {
      forall r | r in hub.live {
        QueueAfterTwo(hub.Rooms(), this, ToSelf(reply), ToRoom(RoomOf(ref), notice), r, r.queue);
      }
      ReplyWith(reply);
      hub.Broadcast(ref, notice, this);
    }

    method TellThenEcho(ref: RoomRef, frame: Envelope)
      requires hub.Valid() && this in hub.live
      modifies hub.live`queue
      ensures hub.Valid() && Pushed([ToRoom(RoomOf(ref), frame), ToSelf(frame)])
    {
      forall r | r in hub.live {
        QueueAfterTwo(hub.Rooms(), this, ToRoom(RoomOf(ref), frame), ToSelf(frame), r, r.queue);
      }
      hub.Broadcast(ref, frame, this);
      var _ := TrySend(frame);
    }

    method SendThenEcho(peer: Client, frame: Envelope)
      requires hub.Valid() && this in hub.live && peer in hub.live
      modifies hub.live`queue
      ensures hub.Valid() && Pushed([ToPeer(peer, frame), ToSelf(frame)])
    {
      forall r | r in hub.live {
        QueueAfterTwo(hub.Rooms(), this, ToPeer(peer, frame), ToSelf(frame), r, r.queue);
      }
      var _ := peer.TrySend(frame);
      var _ := TrySend(frame);
    }

    /** Each queue takes its frame, if it has space: this client's the reply, every other member's of the room the
        frame for the room. */
    twostate predicate Told(new reply: Envelope, new room: Room, new frame: Envelope)
      reads hub, hub.live
    {
      && hub.live == old(hub.live)
      && forall r :: r in hub.live ==>
           r.queue == if r == this then Offer(old(r.queue), reply)
                      else if r in Members(hub.Rooms(), room) then Offer(old(r.queue), frame)
                      else old(r.queue)
    }

    /** Only this client's queue takes a frame. */
    twostate predicate ToldOnly(new reply: Envelope)
      reads hub, hub.live
    {
      && hub.live == old(hub.live)
      && forall r :: r in hub.live ==> r.queue == if r == this then Offer(old(r.queue), reply) else old(r.queue)
    }

    twostate lemma ReplyTells(new reply: Envelope)
      requires Pushed([ToSelf(reply)])
      ensures ToldOnly(reply)
    {
      forall r | r in hub.live
        ensures r.queue == if r == this then Offer(old(r.queue), reply) else old(r.queue)
      {
        QueueAfterOne(hub.Rooms(), this, ToSelf(reply), r, old(r.queue));
      }
    }

    twostate lemma ReplyAndRoomTell(new reply: Envelope, new room: Room, new frame: Envelope)
      requires Pushed([ToSelf(reply), ToRoom(room, frame)])
      ensures Told(reply, room, frame)
    {
      forall r | r in hub.live
        ensures r.queue == OfferIf(r != this
                && r in Members(hub.Rooms(), room), OfferIf(r == this, old(r.queue), reply), frame)
      {
        QueueAfterTwo(hub.Rooms(), this, ToSelf(reply), ToRoom(room, frame), r, old(r.queue));
      }
    }

    twostate lemma RoomAndEchoTell(new room: Room, new frame: Envelope)
      requires Pushed([ToRoom(room, frame), ToSelf(frame)])
      ensures Told(frame, room, frame)
    {
      forall r | r in hub.live
        ensures r.queue == OfferIf(r == this,
                OfferIf(r != this && r in Members(hub.Rooms(), room), old(r.queue), frame), frame)
      {
        QueueAfterTwo(hub.Rooms(), this, ToRoom(room, frame), ToSelf(frame), r, old(r.queue));
      }
    }

    // ---- Requests ----

    /** What a request must lead to, from the given rooms and record of this client. */
    ghost function Response(msg: Envelope, rooms: Rooms<Client>, own: Record): Outcome<Client>
      reads `name, hub`clients
    {
      Respond(rooms, hub.clients, hub.limits, this, own, id, Shown(name, id), msg)
    }

    /** The hub, this client and every queue are as `o` says. */
    twostate predicate CameTo(new o: Outcome<Client>)
      reads this, hub, hub.live
    {
      hub.Rooms() == o.rooms && Own() == o.own && Pushed(o.plan)
    }

    /** Rooms, record and every queue are what `Respond` says. */
    twostate predicate Responded(new msg: Envelope)
      reads this, hub, hub.live
    {
      CameTo(Response(msg, old(hub.Rooms()), old(Own())))
    }

    /** And the name is what a join may have made it. */
    twostate predicate Answered(new msg: Envelope)
      reads this, hub, hub.live
    {
      name == NameAfter(old(name), msg) && Responded(msg)
    }

    // ---- What that means ----

    /** Nothing has changed but this client's queue. */
    twostate predicate WasRefused(new complaint: Envelope)
      reads this, hub, hub.live
    {
      hub.Rooms() == old(hub.Rooms()) && Own() == old(Own()) && ToldOnly(complaint)
    }

    /** This client has left the room, and the room has heard of it. */
    twostate predicate HasLeft(new msg: Envelope, new scope: string, new kind: string, new room: Room)
      reads this, hub, hub.live
    {
      && this !in Members(hub.Rooms(), room) && !Belongs(Own(), room)
      && (forall other ::
            Members(hub.Rooms(), other) == Members(old(hub.Rooms()), other) - if other == room then {this} else {})
      && Told(Frame("left", scope, msg.target, kind, "", id, NoPayload), room,
              Frame("system", scope, msg.target, kind, GetName(), id, Fields(map["event" := "left"])))
    }

    /** This client has joined the room, and the room has heard of it. */
    twostate predicate HasJoined(new msg: Envelope, new scope: string, new kind: string, new room: Room)
      reads this, hub, hub.live
    {
      && this in Members(hub.Rooms(), room) && Belongs(Own(), room)
      && (forall other ::
            Members(hub.Rooms(), other) == Members(old(hub.Rooms()), other) + if other == room then {this} else {})
      && Told(Frame("joined", scope, msg.target, kind, GetName(), id, JoinedPayload(scope, kind, msg.target)), room,
              Frame("system", scope, msg.target, kind, GetName(), id, Fields(map["event" := "joined"])))
    }

    /** Every member of the room has been offered the message once, this client among them. */
    twostate predicate HasSent(new msg: Envelope, new scope: string, new kind: string, new room: Room)
      reads this, hub, hub.live
    {
      var shownKind := if scope == "area" then msg.channelKind else kind;
      var frame := Frame("message", scope, msg.target, shownKind, GetName(), id, msg.payload);
      hub.Rooms() == old(hub.Rooms()) && Own() == old(Own()) && Told(frame, room, frame)
    }

    /** The peer has been offered the whisper, and then this client. */
    twostate predicate HasWhispered(new msg: Envelope, new peer: Client)
      reads this, hub, hub.live
    {
      var frame := Envelope("whisper", "", "", "", msg.to, GetName(), id, msg.payload, "");
      && hub.Rooms() == old(hub.Rooms()) && Own() == old(Own()) && hub.live == old(hub.live)
      && forall r :: r in hub.live ==>
           r.queue == OfferIf(r == this, OfferIf(r == peer, old(r.queue), frame), frame)
    }

    twostate lemma SidesBefore()
      requires old(hub.Valid() && this in hub.live)
      ensures Sides(old(hub.Rooms()), this, old(Own()))
    {
      SidesOf(old(hub.Rooms()), old(hub.areaRecords), old(hub.channelRecords), this);
    }

    twostate lemma RefusesIsHeard(new o: Outcome<Client>, new complaint: Envelope)
      requires CameTo(o) && Refuses(old(hub.Rooms()), old(Own()), o, complaint)
      ensures WasRefused(complaint)
    {
      ReplyTells(complaint);
    }

    // Leaving

    twostate lemma LeavesIsHeard(new o: Outcome<Client>, new msg: Envelope, new scope: string, new kind: string,
        new room: Room)
      requires CameTo(o) && Leaves(old(hub.Rooms()), old(Own()), o, this, id, GetName(), msg, scope, kind, room)
      ensures HasLeft(msg, scope, kind, room)
    {
      var reply := Frame("left", scope, msg.target, kind, "", id, NoPayload);
      var notice := Frame("system", scope, msg.target, kind, GetName(), id, Fields(map["event" := "left"]));
      ReplyAndRoomTell(reply, room, notice);
    }

    twostate lemma LeaveIsHeard(new msg: Envelope)
      requires old(hub.Valid() && this in hub.live) && Responded(msg) && msg.typ == "leave"
      ensures forall scope, kind, room :: Names(msg, scope, kind, room) ==> HasLeft(msg, scope, kind, room)
    {
      var rooms, own, o := old(hub.Rooms()), old(Own()), Response(msg, old(hub.Rooms()), old(Own()));
      SidesBefore();
      forall scope, kind, room | Names(msg, scope, kind, room)
        ensures HasLeft(msg, scope, kind, room)
      {
        LeaveIsAnswered(rooms, hub.clients, hub.limits, this, own, id, GetName(), msg, scope, kind, room);
        LeavesIsHeard(o, msg, scope, kind, room);
      }
    }

    // Joining

    twostate lemma EntersIsHeard(new o: Outcome<Client>, new msg: Envelope, new scope: string, new kind: string,
        new room: Room)
      requires CameTo(o) && Enters(old(hub.Rooms()), old(Own()), o, this, id, GetName(), msg, scope, kind, room)
      ensures HasJoined(msg, scope, kind, room)
    {
      var reply := Frame("joined", scope, msg.target, kind, GetName(), id, JoinedPayload(scope, kind, msg.target));
      var notice := Frame("system", scope, msg.target, kind, GetName(), id, Fields(map["event" := "joined"]));
      ReplyAndRoomTell(reply, room, notice);
    }

    /** A join has come to what its fields and the limits say. */
    twostate predicate JoinedOrRefused(new msg: Envelope, new scope: string, new kind: string, new room: Room)
      reads this, hub, hub.live
    {
      var refusal := Refusal(old(hub.Rooms()), hub.limits, this, msg, scope, room);
      if refusal == "" then HasJoined(msg, scope, kind, room) else WasRefused(Complaint(refusal, scope, msg.target))
    }

    twostate lemma JoinIsHeard(new msg: Envelope)
      requires old(hub.Valid() && this in hub.live) && Responded(msg) && msg.typ == "join"
      requires LimitsHold(old(hub.Rooms()), hub.limits)
      ensures forall scope, kind, room :: Names(msg, scope, kind, room) ==> JoinedOrRefused(msg, scope, kind, room)
    {
      var rooms, own, o := old(hub.Rooms()), old(Own()), Response(msg, old(hub.Rooms()), old(Own()));
      SidesBefore();
      forall scope, kind, room | Names(msg, scope, kind, room)
        ensures JoinedOrRefused(msg, scope, kind, room)
      {
        JoinIsAnswered(rooms, hub.clients, hub.limits, this, own, id, GetName(), msg, scope, kind, room);
        var refusal := Refusal(rooms, hub.limits, this, msg, scope, room);
        if refusal == "" {
          EntersIsHeard(o, msg, scope, kind, room);
        } else {
          RefusesIsHeard(o, Complaint(refusal, scope, msg.target));
        }
      }
    }

    // Sending

    twostate lemma SendsIsHeard(new o: Outcome<Client>, new msg: Envelope, new scope: string, new kind: string,
        new room: Room)
      requires CameTo(o) && Sends(old(hub.Rooms()), old(Own()), o, id, GetName(), msg, scope, kind, room)
      ensures HasSent(msg, scope, kind, room)
    {
      var shownKind := if scope == "area" then msg.channelKind else kind;
      RoomAndEchoTell(room, Frame("message", scope, msg.target, shownKind, GetName(), id, msg.payload));
    }

    /** A message has gone to its room, if this client is a member. */
    twostate predicate SentOrRefused(new msg: Envelope, new scope: string, new kind: string, new room: Room)
      reads this, hub, hub.live
    {
      if this in Members(old(hub.Rooms()), room) then HasSent(msg, scope, kind, room)
      else WasRefused(Complaint(Stranger(scope), scope, msg.target))
    }

    twostate lemma SendIsHeard(new msg: Envelope)
      requires old(hub.Valid() && this in hub.live) && Responded(msg) && msg.typ == "send" && msg.target != ""
      ensures forall scope, kind, room :: Names(msg, scope, kind, room) ==> SentOrRefused(msg, scope, kind, room)
    {
      var rooms, own, o := old(hub.Rooms()), old(Own()), Response(msg, old(hub.Rooms()), old(Own()));
      SidesBefore();
      forall scope, kind, room | Names(msg, scope, kind, room)
        ensures SentOrRefused(msg, scope, kind, room)
      {
        SendIsAnswered(rooms, hub.clients, hub.limits, this, own, id, GetName(), msg, scope, kind, room);
        if this in Members(rooms, room) {
          SendsIsHeard(o, msg, scope, kind, room);
        } else {
          RefusesIsHeard(o, Complaint(Stranger(scope), scope, msg.target));
        }
      }
    }

    // Whispering

    twostate lemma WhispersIsHeard(new o: Outcome<Client>, new msg: Envelope, new peer: Client)
      requires CameTo(o) && Whispers(old(hub.Rooms()), old(Own()), o, peer, id, GetName(), msg)
      ensures HasWhispered(msg, peer)
    {
      var frame := Envelope("whisper", "", "", "", msg.to, GetName(), id, msg.payload, "");
      forall r | r in hub.live
        ensures r.queue == OfferIf(r == this, OfferIf(r == peer, old(r.queue), frame), frame)
      {
        QueueAfterTwo(hub.Rooms(), this, ToPeer(peer, frame), ToSelf(frame), r, old(r.queue));
      }
    }

    twostate lemma WhisperIsHeard(new msg: Envelope)
      requires Responded(msg) && msg.typ == "whisper"
      ensures if msg.to == "" then WasRefused(Complaint("to (client_id) is required for whisper", "", ""))
              else if msg.to in hub.clients then HasWhispered(msg, hub.clients[msg.to])
              else WasRefused(Complaint("peer not found: " + msg.to, "", ""))
    {
      var rooms, own, o := old(hub.Rooms()), old(Own()), Response(msg, old(hub.Rooms()), old(Own()));
      WhisperIsAnswered(rooms, hub.clients, hub.limits, this, own, id, GetName(), msg);
      if msg.to == "" {
        RefusesIsHeard(o, Complaint("to (client_id) is required for whisper", "", ""));
      } else if msg.to in hub.clients {
        WhispersIsHeard(o, msg, hub.clients[msg.to]);
      } else {
        RefusesIsHeard(o, Complaint("peer not found: " + msg.to, "", ""));
      }
    }

    // Everything else

    twostate lemma OtherIsHeard(new msg: Envelope)
      requires Responded(msg)
      ensures msg.typ == "ping" ==> WasRefused(Frame("pong", "", "", "", "", id, NoPayload))
      ensures msg.typ == "send" && msg.target == "" ==> WasRefused(Complaint("target is required", msg.scope, ""))
      ensures NeedsScope(msg) && BadScope(msg) ==>
                WasRefused(Complaint("scope must be area or channel", msg.scope, msg.target))
      ensures msg.typ !in {"join", "leave", "send", "whisper", "ping"} ==>
                WasRefused(Complaint("unknown type: " + msg.typ, msg.scope, msg.target))
    {
      var rooms, own, o := old(hub.Rooms()), old(Own()), Response(msg, old(hub.Rooms()), old(Own()));
      OthersAreAnswered(rooms, hub.clients, hub.limits, this, own, id, GetName(), msg);
      if o.plan != [] && o.plan[0].ToSelf? && Refuses(rooms, own, o, o.plan[0].frame) {
        RefusesIsHeard(o, o.plan[0].frame);
      }
    }

    /** Run without interruption, a request makes the hub, its sender and every queue what `Respond` says. */
    method RouteInbound(msg: Envelope)
      requires hub.Valid() && this in hub.live
      modifies hub`areas, hub`channels, hub`areaRecords, hub`channelRecords, `areas, `channels, `name, hub.live`queue
      ensures hub.Valid() && Answered(msg)
      ensures msg.typ == "ping" ==> WasRefused(Frame("pong", "", "", "", "", id, NoPayload))
      ensures msg.typ !in {"join", "leave", "send", "whisper", "ping"} ==>
                WasRefused(Complaint("unknown type: " + msg.typ, msg.scope, msg.target))
    {
      match msg.typ {
        case "join" => RouteJoin(msg);
        case "leave" => RouteLeave(msg);
        case "send" => RouteSend(msg);
        case "whisper" => RouteWhisper(msg);
        case "ping" => ReplyOnly(PongFrame(id));
        case _ => ReplyOnly(ErrorFrame("unknown type: " + msg.typ, msg.scope, msg.target));
      }
      OtherIsHeard(msg);
    }

    method AnswerJoin(ref: RoomRef, error: string)
      requires hub.Valid() && this in hub.live
      modifies hub.live`queue
      ensures hub.Valid() && Pushed(AfterJoin(error, ref, id, GetName()))
    {
      if error != "" {
        ReplyOnly(ErrorFrame(error, ScopeOf(ref), TargetOf(ref)));
      } else {
        ReplyThenTell(JoinedFrame(ref, id, GetName()), ref, NoticeFrame(ref, id, GetName(), "joined"));
      }
    }

    method JoinAndAnswer(ref: RoomRef)
      requires hub.Valid() && this in hub.live
      modifies hub`areas, hub`channels, hub`areaRecords, hub`channelRecords, `areas, `channels, hub.live`queue
      ensures hub.Valid() && hub.Rooms() == Join(old(hub.Rooms()), hub.limits, ref, this)
      ensures var error := JoinError(old(hub.Rooms()), hub.limits, ref, this);
              && Own() == (if error == "" then Enter(old(Own()), RoomOf(ref)) else old(Own()))
              && Pushed(AfterJoin(error, ref, id, GetName()))
    {
      var error := hub.JoinRoom(this, ref);
      AnswerJoin(ref, error);
    }

    method RouteJoin(msg: Envelope)
      requires hub.Valid() && this in hub.live && msg.typ == "join"
      modifies hub`areas, hub`channels, hub`areaRecords, hub`channelRecords, `areas, `channels, `name, hub.live`queue
      ensures hub.Valid() && Answered(msg)
      ensures LimitsHold(old(hub.Rooms()), hub.limits) ==>
                forall scope, kind, room :: Names(msg, scope, kind, room) ==> JoinedOrRefused(msg, scope, kind, room)
      ensures BadScope(msg) ==> WasRefused(Complaint("scope must be area or channel", msg.scope, msg.target))
    {
      ApplyNameFromPayload(msg.payload);
      match Addressed(msg) {
        case None => ReplyOnly(ErrorFrame(BAD_SCOPE, msg.scope, msg.target));
        case Some(ref) => JoinAndAnswer(ref);
      }
      OtherIsHeard(msg);
      if LimitsHold(old(hub.Rooms()), hub.limits) {
        JoinIsHeard(msg);
      }
    }

    /** The reply and the notice go out whether or not the client was a member. */
    method LeaveAndAnswer(ref: RoomRef)
      requires hub.Valid() && this in hub.live
      modifies hub`areas, hub`channels, hub`areaRecords, hub`channelRecords, `areas, `channels, hub.live`queue
      ensures hub.Valid() && hub.Rooms() == Leave(old(hub.Rooms()), RoomOf(ref), this)
      ensures Own() == if Stored(old(hub.Rooms()), RoomOf(ref)) then Exit(old(Own()), RoomOf(ref)) else old(Own())
      ensures Pushed(AfterLeave(ref, id, GetName()))
    {
      hub.LeaveRoom(this, ref);
      ReplyThenTell(LeftFrame(ref, id), ref, NoticeFrame(ref, id, GetName(), "left"));
    }

    method RouteLeave(msg: Envelope)
      requires hub.Valid() && this in hub.live && msg.typ == "leave"
      modifies hub`areas, hub`channels, hub`areaRecords, hub`channelRecords, `areas, `channels, `name, hub.live`queue
      ensures hub.Valid() && Answered(msg)
      ensures forall scope, kind, room :: Names(msg, scope, kind, room) ==> HasLeft(msg, scope, kind, room)
      ensures BadScope(msg) ==> WasRefused(Complaint("scope must be area or channel", msg.scope, msg.target))
    {
      match Addressed(msg) {
        case None => ReplyOnly(ErrorFrame(BAD_SCOPE, msg.scope, msg.target));
        case Some(ref) => LeaveAndAnswer(ref);
      }
      OtherIsHeard(msg);
      LeaveIsHeard(msg);
    }

    method SendOrRefuse(ref: RoomRef, msg: Envelope)
      requires hub.Valid() && this in hub.live
      modifies hub.live`queue
      ensures hub.Valid() && Pushed(AfterCheck(old(Belongs(Own(), RoomOf(ref))), ref, id, GetName(), msg))
    {
      var member := hub.InRoom(this, ref);
      if !member {
        ReplyOnly(ErrorFrame("not a member of " + ScopeOf(ref) + "; join first", ScopeOf(ref), msg.target));
      } else {
        TellThenEcho(ref, MessageFrame(ref, id, GetName(), msg));
      }
    }

    method RouteSend(msg: Envelope)
      requires hub.Valid() && this in hub.live && msg.typ == "send"
      modifies hub`areas, hub`channels, hub`areaRecords, hub`channelRecords, `areas, `channels, `name, hub.live`queue
      ensures hub.Valid() && Answered(msg)
      ensures msg.target != "" ==>
                forall scope, kind, room :: Names(msg, scope, kind, room) ==> SentOrRefused(msg, scope, kind, room)
      ensures msg.target == "" ==> WasRefused(Complaint("target is required", msg.scope, ""))
      ensures msg.target != "" && BadScope(msg) ==>
                WasRefused(Complaint("scope must be area or channel", msg.scope, msg.target))
    {
      if msg.target == "" {
        ReplyOnly(ErrorFrame("target is required", msg.scope, ""));
      } else {
        match Addressed(msg)
        case None => ReplyOnly(ErrorFrame(BAD_SCOPE, msg.scope, msg.target));
        case Some(ref) => SendOrRefuse(ref, msg);
      }
      OtherIsHeard(msg);
      if msg.target != "" {
        SendIsHeard(msg);
      }
    }

    method RouteWhisper(msg: Envelope)
      requires hub.Valid() && this in hub.live && msg.typ == "whisper"
      modifies hub`areas, hub`channels, hub`areaRecords, hub`channelRecords, `areas, `channels, `name, hub.live`queue
      ensures hub.Valid() && Answered(msg)
      ensures if msg.to == "" then WasRefused(Complaint("to (client_id) is required for whisper", "", ""))
              else if msg.to in hub.clients then HasWhispered(msg, hub.clients[msg.to])
              else WasRefused(Complaint("peer not found: " + msg.to, "", ""))
    {
      if msg.to == "" {
        ReplyOnly(ErrorFrame("to (client_id) is required for whisper", "", ""));
      } else {
        var peer := hub.GetByID(msg.to);
        if peer == null {
          ReplyOnly(ErrorFrame("peer not found: " + msg.to, "", ""));
        } else {
          SendThenEcho(peer, WhisperFrame(id, GetName(), msg));
        }
      }
      WhisperIsHeard(msg);
    }
  }

  class Hub {
    const limits: HubLimits
    var clients: map<string, Client>
    var areas: map<string, set<Client>>
    var channels: map<string, set<Client>>
    /** The clients of this hub whose queue is open, and the rooms that each has on record. */
    ghost var live: set<Client>
    ghost var areaRecords: map<Client, set<string>>
    ghost var channelRecords: map<Client, set<string>>

    constructor (limits: HubLimits)
      ensures this.limits == limits && live == {} && clients == map[] && Rooms() == Membership.Rooms(map[], map[])
      ensures Valid()
    {
      this.limits := limits;
      clients, areas, channels := map[], map[], map[];
      live, areaRecords, channelRecords := {}, map[], map[];
    }

    ghost function Rooms(): Rooms<Client>
      reads `areas, `channels
    {
      Membership.Rooms(areas, channels)
    }

    ghost predicate Valid()
      reads this, live
    {
      ClientsValid() && AreasValid() && ChannelsValid()
    }

    ghost predicate ClientsValid()
      reads `clients, `live, live`closed
    {
      && (forall c :: c in live ==> !c.closed)
      && (forall id :: id in clients ==> clients[id] in live && clients[id].id == id)
    }

    ghost predicate AreasValid()
      reads `areas, `areaRecords, `live, live`areas
    {
      && areaRecords.Keys == live && (forall c :: c in live ==> areaRecords[c] == c.areas)
      && Agrees(areas, areaRecords)
    }

    ghost predicate ChannelsValid()
      reads `channels, `channelRecords, `live, live`channels
    {
      && channelRecords.Keys == live && (forall c :: c in live ==> channelRecords[c] == c.channels)
      && Agrees(channels, channelRecords)
    }

    // ---- The global map ----

    method Register(c: Client)
      requires Valid() && c !in live && !c.closed && c.areas == c.channels == {}
      modifies `clients, `live, `areaRecords, `channelRecords
      ensures Valid() && clients == old(clients)[c.id := c] && live == old(live) + {c}
    {
      clients := clients[c.id := c];
      RegisterAgrees(areas, areaRecords, c);
      RegisterAgrees(channels, channelRecords, c);
      live, areaRecords, channelRecords := live + {c}, areaRecords[c := {}], channelRecords[c := {}];
    }

    method GetByID(id: string) returns (c: Client?)
      requires Valid()
      ensures if id in clients then c == clients[id] && c in live && !c.closed else c == null
    {
      if id in clients {
        return clients[id];
      }
      return null;
    }

    /** Takes the client out of the hub's maps and closes its queue, which must not happen twice; its own record is
        left as it is. */
    method Unregister(c: Client)
      requires Valid()
      requires c.id in clients ==> !c.closed
      modifies `clients, `areas, `channels, `live, `areaRecords, `channelRecords, c`closed
      ensures Valid()
      ensures c.id !in old(clients) ==>
                clients == old(clients) && Rooms() == old(Rooms()) && live == old(live) && c.closed == old(c.closed)
      ensures c.id in old(clients) ==>
                clients == old(clients) - {c.id} && Rooms() == Sweep(old(Rooms()), c) && live == old(live) - {c}
                    && c.closed
    {
      if c.id !in clients {
        return;
      }
      clients := clients - {c.id};
      SweepAreas(c);
      SweepChannels(c);
      c.closed := true;
      UnregisterAgrees(old(areas), areaRecords, c);
      UnregisterAgrees(old(channels), channelRecords, c);
      live, areaRecords, channelRecords := live - {c}, areaRecords - {c}, channelRecords - {c};
      assert AreasValid() && ChannelsValid();
    }

    method SweepAreas(c: Client)
      modifies `areas
      ensures areas == Swept(old(areas), c)
    {
      ghost var before := areas;
      var todo := areas.Keys;
      while todo != {}
        invariant todo <= before.Keys
        invariant forall key :: key in todo ==> key in areas && areas[key] == before[key]
        invariant forall key :: key !in todo ==> (key in areas <==> key in Swept(before, c))
        invariant forall key :: key !in todo && key in areas ==> areas[key] == Swept(before, c)[key]
      {
        var area :| area in todo;
        todo := todo - {area};
        var members := areas[area];
        if c in members {
          areas := areas[area := members - {c}];
          if members - {c} == {} {
            areas := areas - {area};
          }
        } else {
          assert members - {c} == members;
        }
      }
    }

    method SweepChannels(c: Client)
      modifies `channels
      ensures channels == Swept(old(channels), c)
    {
      ghost var before := channels;
      var todo := channels.Keys;
      while todo != {}
        invariant todo <= before.Keys
        invariant forall key :: key in todo ==> key in channels && channels[key] == before[key]
        invariant forall key :: key !in todo ==> (key in channels <==> key in Swept(before, c))
        invariant forall key :: key !in todo && key in channels ==> channels[key] == Swept(before, c)[key]
      {
        var ch :| ch in todo;
        todo := todo - {ch};
        var members := channels[ch];
        if c in members {
          channels := channels[ch := members - {c}];
          if members - {c} == {} {
            channels := channels - {ch};
          }
        } else {
          assert members - {c} == members;
        }
      }
    }

    // ---- Areas ----

    method JoinArea(c: Client, area: string) returns (error: string)
      requires Valid() && c in live
      modifies `areas, c`areas, `areaRecords
      ensures Valid()
      ensures error == JoinError(old(Rooms()), limits, AreaRef(area), c)
      ensures Rooms() == Join(old(Rooms()), limits, AreaRef(area), c)
      ensures c.areas == if error == "" then old(c.areas) + {area} else old(c.areas)
      ensures LimitsHold(old(Rooms()), limits) ==>
                error == Shortage(old(Rooms()), limits, AreaRef(area), c)
    {
      if area == "" {
        return "target (area id) is required";
      }
      ShortageExactly(Rooms(), limits, AreaRef(area), c);
      error := JoinAreaTracked(c, area);
    }

    /** Opens the room if need be, then lets the client in if there is space. */
    method JoinAreaLocked(c: Client, area: string) returns (error: string)
      modifies `areas, c`areas
      ensures error == match Admit(old(areas), limits.area, area, c)
                       case Admitted => ""
                       case TooManyRooms => "max areas reached"
                       case RoomFull => "area is full"
      ensures areas == if error == "" then With(old(areas), area, c) else old(areas)
      ensures c.areas == if error == "" && c !in At(old(areas), area) then old(c.areas) + {area} else old(c.areas)
    {
      if area !in areas {
        if limits.area.maxRooms > 0 && |areas| >= limits.area.maxRooms {
          return "max areas reached";
        }
        areas := areas[area := {}];
      }
      var members := areas[area];
      if c in members {
        WithAgain(old(areas), area, c);
        return "";
      }
      if limits.area.maxMembers > 0 && |members| >= limits.area.maxMembers {
        return "area is full";
      }
      areas := areas[area := members + {c}];
      c.areas := c.areas + {area};
      WithBySteps(old(areas), area, c);
      return "";
    }

    /** The same, and both sides of the index stay in agreement. */
    method JoinAreaTracked(c: Client, area: string) returns (error: string)
      requires AreasValid() && c in live
      modifies `areas, c`areas, `areaRecords
      ensures AreasValid()
      ensures error == match Admit(old(areas), limits.area, area, c)
                       case Admitted => ""
                       case TooManyRooms => "max areas reached"
                       case RoomFull => "area is full"
      ensures areas == if error == "" then With(old(areas), area, c) else old(areas)
      ensures c.areas == if error == "" then old(c.areas) + {area} else old(c.areas)
    {
      error := JoinAreaLocked(c, area);
      if error == "" {
        assert areaRecords[c] == KeysOf(old(areas), c);
        JoinAgrees(old(areas), areaRecords, area, c);
        areaRecords := areaRecords[c := c.areas];
      }
    }

    method LeaveAreaLocked(c: Client, area: string)
      modifies `areas, c`areas
      ensures areas == Without(old(areas), area, c)
      ensures c.areas == if area in old(areas) then old(c.areas) - {area} else old(c.areas)
    {
      if area !in areas {
        return;
      }
      ghost var before := areas;
      areas := areas[area := areas[area] - {c}];
      if |areas[area]| == 0 {
        areas := areas - {area};
        assert areas == before - {area};
      }
      c.areas := c.areas - {area};
    }

    method LeaveArea(c: Client, area: string)
      requires Valid() && c in live
      modifies `areas, c`areas, `areaRecords
      ensures Valid()
      ensures Rooms() == Leave(old(Rooms()), Area(area), c)
      ensures c.areas == if area in old(areas) then old(c.areas) - {area} else old(c.areas)
    {
      assert areaRecords[c] == KeysOf(areas, c);
      LeaveAgrees(areas, areaRecords, area, c);
      LeaveAreaLocked(c, area);
      areaRecords := areaRecords[c := c.areas];
      assert ClientsValid() && ChannelsValid();
    }

    method InArea(c: Client, area: string) returns (member: bool)
      requires Valid() && c in live
      ensures member == (area in c.areas) == (c in Members(Rooms(), Area(area)))
    {
      assert areaRecords[c] == KeysOf(areas, c);
      return area in c.areas;
    }

    method BroadcastArea(area: string, data: Envelope, exclude: Client?) returns (n: nat)
      requires Valid()
      modifies live`queue
      ensures Valid()
      ensures n == |old(Takers(Members(Rooms(), Area(area)), exclude))|
      ensures forall c :: c in live ==>
                c.queue == if c in Members(Rooms(), Area(area)) && c != exclude then Offer(old(c.queue), data)
                    else old(c.queue)
    {
      if area !in areas {
        assert Takers({}, exclude) == {};
        return 0;
      }
      n := Deliver(areas[area], data, exclude);
    }

    // ---- Channels ----

    method JoinChannel(c: Client, kind: string, id: string) returns (error: string)
      requires Valid() && c in live
      modifies `channels, c`channels, `channelRecords
      ensures Valid()
      ensures error == JoinError(old(Rooms()), limits, ChannelRef(kind, id), c)
      ensures Rooms() == Join(old(Rooms()), limits, ChannelRef(kind, id), c)
      ensures c.channels == if error == "" then old(c.channels) + {ChannelKey(kind, id)} else old(c.channels)
      ensures LimitsHold(old(Rooms()), limits) ==>
                error == Shortage(old(Rooms()), limits, ChannelRef(kind, id), c)
    {
      if kind == "" {
        return "channel_kind is required (party|guild|whisper|custom)";
      }
      if id == "" {
        return "target (channel id) is required";
      }
      ShortageExactly(Rooms(), limits, ChannelRef(kind, id), c);
      error := JoinChannelTracked(c, ChannelKey(kind, id));
    }

    /** Opens the room if need be, then lets the client in if there is space. */
    method JoinChannelLocked(c: Client, key: string) returns (error: string)
      modifies `channels, c`channels
      ensures error == match Admit(old(channels), limits.channel, key, c)
                       case Admitted => ""
                       case TooManyRooms => "max channels reached"
                       case RoomFull => "channel is full"
      ensures channels == if error == "" then With(old(channels), key, c) else old(channels)
      ensures c.channels == if error == "" && c !in At(old(channels), key) then old(c.channels) + {key}
              else old(c.channels)
    {
      if key !in channels {
        if limits.channel.maxRooms > 0 && |channels| >= limits.channel.maxRooms {
          return "max channels reached";
        }
        channels := channels[key := {}];
      }
      var members := channels[key];
      if c in members {
        WithAgain(old(channels), key, c);
        return "";
      }
      if limits.channel.maxMembers > 0 && |members| >= limits.channel.maxMembers {
        return "channel is full";
      }
      channels := channels[key := members + {c}];
      c.channels := c.channels + {key};
      WithBySteps(old(channels), key, c);
      return "";
    }

    /** The same, and both sides of the index stay in agreement. */
    method JoinChannelTracked(c: Client, key: string) returns (error: string)
      requires ChannelsValid() && c in live
      modifies `channels, c`channels, `channelRecords
      ensures ChannelsValid()
      ensures error == match Admit(old(channels), limits.channel, key, c)
                       case Admitted => ""
                       case TooManyRooms => "max channels reached"
                       case RoomFull => "channel is full"
      ensures channels == if error == "" then With(old(channels), key, c) else old(channels)
      ensures c.channels == if error == "" then old(c.channels) + {key} else old(c.channels)
    {
      error := JoinChannelLocked(c, key);
      if error == "" {
        assert channelRecords[c] == KeysOf(old(channels), c);
        JoinAgrees(old(channels), channelRecords, key, c);
        channelRecords := channelRecords[c := c.channels];
      }
    }

    method LeaveChannelLocked(c: Client, key: string)
      modifies `channels, c`channels
      ensures channels == Without(old(channels), key, c)
      ensures c.channels == if key in old(channels) then old(c.channels) - {key} else old(c.channels)
    {
      if key !in channels {
        return;
      }
      ghost var before := channels;
      channels := channels[key := channels[key] - {c}];
      if |channels[key]| == 0 {
        channels := channels - {key};
        assert channels == before - {key};
      }
      c.channels := c.channels - {key};
    }

    method LeaveChannel(c: Client, kind: string, id: string)
      requires Valid() && c in live
      modifies `channels, c`channels, `channelRecords
      ensures Valid()
      ensures Rooms() == Leave(old(Rooms()), Channel(ChannelKey(kind, id)), c)
      ensures c.channels == if ChannelKey(kind, id) in old(channels) then old(c.channels) - {ChannelKey(kind, id)}
              else old(c.channels)
    {
      assert channelRecords[c] == KeysOf(channels, c);
      LeaveAgrees(channels, channelRecords, ChannelKey(kind, id), c);
      LeaveChannelLocked(c, ChannelKey(kind, id));
      channelRecords := channelRecords[c := c.channels];
      assert ClientsValid() && AreasValid();
    }

    method InChannel(c: Client, kind: string, id: string) returns (member: bool)
      requires Valid() && c in live
      ensures member == (ChannelKey(kind, id) in c.channels) == (c in Members(Rooms(), Channel(ChannelKey(kind, id))))
    {
      assert channelRecords[c] == KeysOf(channels, c);
      return ChannelKey(kind, id) in c.channels;
    }

    method BroadcastChannel(kind: string, id: string, data: Envelope, exclude: Client?) returns (n: nat)
      requires Valid()
      modifies live`queue
      ensures Valid()
      ensures n == |old(Takers(Members(Rooms(), Channel(ChannelKey(kind, id))), exclude))|
      ensures forall c :: c in live ==>
                c.queue == if c in Members(Rooms(), Channel(ChannelKey(kind, id))) && c != exclude
                then Offer(old(c.queue), data) else old(c.queue)
    {
      var key := ChannelKey(kind, id);
      if key !in channels {
        assert Takers({}, exclude) == {};
        return 0;
      }
      n := Deliver(channels[key], data, exclude);
    }

    // ---- Either kind of room ----

    method JoinRoom(c: Client, ref: RoomRef) returns (error: string)
      requires Valid() && c in live
      modifies `areas, `channels, `areaRecords, `channelRecords, c`areas, c`channels
      ensures Valid()
      ensures error == JoinError(old(Rooms()), limits, ref, c)
      ensures Rooms() == Join(old(Rooms()), limits, ref, c)
      ensures c.Own() == if error == "" then Enter(old(c.Own()), RoomOf(ref)) else old(c.Own())
    {
      match ref
      case AreaRef(area) => error := JoinArea(c, area);
      case ChannelRef(kind, id) => error := JoinChannel(c, kind, id);
    }

    method LeaveRoom(c: Client, ref: RoomRef)
      requires Valid() && c in live
      modifies `areas, `channels, `areaRecords, `channelRecords, c`areas, c`channels
      ensures Valid()
      ensures Rooms() == Leave(old(Rooms()), RoomOf(ref), c)
      ensures c.Own() == if Stored(old(Rooms()), RoomOf(ref)) then Exit(old(c.Own()), RoomOf(ref)) else old(c.Own())
    {
      match ref
      case AreaRef(area) => LeaveArea(c, area);
      case ChannelRef(kind, id) => LeaveChannel(c, kind, id);
    }

    method InRoom(c: Client, ref: RoomRef) returns (member: bool)
      requires Valid() && c in live
      ensures member == Belongs(c.Own(), RoomOf(ref)) == (c in Members(Rooms(), RoomOf(ref)))
    {
      match ref
      case AreaRef(area) => member := InArea(c, area);
      case ChannelRef(kind, id) => member := InChannel(c, kind, id);
    }

    method Broadcast(ref: RoomRef, data: Envelope, exclude: Client)
      requires Valid()
      modifies live`queue
      ensures Valid()
      ensures forall c :: c in live ==>
                c.queue == if c in Members(Rooms(), RoomOf(ref)) && c != exclude then Offer(old(c.queue), data)
                    else old(c.queue)
    {
      match ref
      case AreaRef(area) => var _ := BroadcastArea(area, data, exclude);
      case ChannelRef(kind, id) => var _ := BroadcastChannel(kind, id, data, exclude);
    }

    // ---- Both ----

    /** Ends with the client in no room, on either side, and every other client as it was. */
    method LeaveAll(c: Client)
      requires Valid() && c in live
      modifies `areas, `channels, `areaRecords, `channelRecords, c`areas, c`channels
      ensures Valid()
      ensures c.areas == c.channels == {}
      ensures Rooms() == Sweep(old(Rooms()), c)
    {
      assert areaRecords[c] == KeysOf(areas, c) && channelRecords[c] == KeysOf(channels, c);
      SweepAgrees(areas, areaRecords, c);
      SweepAgrees(channels, channelRecords, c);
      LeaveAllAreas(c);
      LeaveAllChannels(c);
      areaRecords, channelRecords := areaRecords[c := {}], channelRecords[c := {}];
    }

    method LeaveAllAreas(c: Client)
      requires c.areas == KeysOf(areas, c)
      modifies `areas, c`areas
      ensures c.areas == {} && areas == Swept(old(areas), c)
    {
      var todo := c.areas;
      while todo != {}
        invariant todo <= old(c.areas) && c.areas == todo
        invariant areas == WithoutAll(old(areas), old(c.areas) - todo, c)
      {
        var area :| area in todo;
        ghost var gone := old(c.areas) - todo;
        todo := todo - {area};
        assert area in areas;
        WithoutAllStep(old(areas), gone, area, c);
        assert gone + {area} == old(c.areas) - todo;
        LeaveAreaLocked(c, area);
      }
      LeavingAllIsSweeping(old(areas), c);
      assert old(c.areas) - {} == old(c.areas);
    }

    method LeaveAllChannels(c: Client)
      requires c.channels == KeysOf(channels, c)
      modifies `channels, c`channels
      ensures c.channels == {} && channels == Swept(old(channels), c)
    {
      var todo := c.channels;
      while todo != {}
        invariant todo <= old(c.channels) && c.channels == todo
        invariant channels == WithoutAll(old(channels), old(c.channels) - todo, c)
      {
        var key :| key in todo;
        ghost var gone := old(c.channels) - todo;
        todo := todo - {key};
        assert key in channels;
        WithoutAllStep(old(channels), gone, key, c);
        assert gone + {key} == old(c.channels) - todo;
        LeaveChannelLocked(c, key);
      }
      LeavingAllIsSweeping(old(channels), c);
      assert old(c.channels) - {} == old(c.channels);
    }

    /** The end of a connection: what readPump defers. */
    method Disconnect(c: Client)
      requires Valid() && c in live
      requires c.id in clients && clients[c.id] == c
      modifies `clients, `areas, `channels, `live, `areaRecords, `channelRecords, c`areas, c`channels, c`closed
      ensures Valid() && c.closed && c.areas == c.channels == {} && live == old(live) - {c}
      ensures clients == old(clients) - {c.id}
      ensures Rooms() == Sweep(old(Rooms()), c)
    {
      ghost var before := Rooms();
      LeaveAll(c);
      Unregister(c);
      SweptTwice(before.areas, c);
      SweptTwice(before.channels, c);
    }

    method AreaCount(area: string) returns (n: nat)
      ensures n == |Members(Rooms(), Area(area))|
    {
      n := if area in areas then |areas[area]| else 0;
    }

    method ChannelCount(kind: string, id: string) returns (n: nat)
      ensures n == |Members(Rooms(), Channel(ChannelKey(kind, id)))|
    {
      var key := ChannelKey(kind, id);
      n := if key in channels then |channels[key]| else 0;
    }
  }

  /** The members that a delivery counts: not excluded, and with space left. */
  ghost function Takers(members: set<Client>, exclude: Client?): set<Client>
    reads members
  {
    set c | c in members && c != exclude && |c.queue| < 256
  }

  /** Offers the frame to every member once, in an arbitrary order; a full queue never makes it wait. */
  method Deliver(members: set<Client>, data: Envelope, exclude: Client?) returns (n: nat)
    requires forall c :: c in members ==> !c.closed
    modifies members`queue
    ensures n == |old(Takers(members, exclude))|
    ensures forall c :: c in members ==> c.queue == Served(c, exclude, old(c.queue), data)
  {
    n := 0;
    var todo := members;
    ghost var takers := Takers(members, exclude);
    while todo != {}
      invariant todo <= members && n == |takers - todo|
      invariant forall c :: c in todo ==> c.queue == old(c.queue)
      invariant forall c :: c in members - todo ==> c.queue == Served(c, exclude, old(c.queue), data)
    {
      var c :| c in todo;
      CountOne(takers, todo, c);
      todo := todo - {c};
      var taken := DeliverOne(c, data, exclude);
      n := n + taken;
    }
    assert takers - {} == takers;
  }

  function Served(c: Client, exclude: Client?, queue: seq<Envelope>, data: Envelope): seq<Envelope> {
    if c == exclude then queue else Offer(queue, data)
  }

  /** One turn of the delivery loop. */
  method DeliverOne(c: Client, data: Envelope, exclude: Client?) returns (taken: nat)
    requires !c.closed
    modifies c`queue
    ensures c.queue == Served(c, exclude, old(c.queue), data)
    ensures taken == if c != exclude && |old(c.queue)| < 256 then 1 else 0
  {
    if c == exclude {
      return 0;
    }
    var fate := c.TrySend(data);
    return if fate == Accepted then 1 else 0;
  }

  lemma CountOne<T>(takers: set<T>, todo: set<T>, c: T)
    requires c in todo
    ensures |takers - (todo - {c})| == |takers - todo| + if c in takers then 1 else 0
  {
    assert takers - (todo - {c}) == takers - todo + if c in takers then {c} else {};
  }
}
