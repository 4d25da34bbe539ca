/** What holds in every reachable state of the relay: the directory, the two-sided membership index, the lock,
    and what each goroutine may be about to do. */
module RelayShape {
  import opened Protocol
  import opened Membership
  import opened Routes
  import opened RelaySystem

  predicate Online(pc: Pc) {
    !pc.Fresh? && !pc.Gone?
  }

  /** The read loop, or its deferred teardown, still runs: only now can the client be in rooms. */
  predicate Serving(pc: Pc) {
    pc.Idle? || pc.Handling? || pc.Running? || pc.Delivering? || pc.Closing?
  }

  ghost function AreaRecords(conns: seq<Client>): map<Conn, set<string>> {
    map c: Conn | c < |conns| :: conns[c].own.areas
  }

  ghost function ChannelRecords(conns: seq<Client>): map<Conn, set<string>> {
    map c: Conn | c < |conns| :: conns[c].own.channels
  }

  ghost predicate DirectoryOk(s: System) {
    && (forall id :: id in s.directory ==>
          s.directory[id] < |s.conns| && IdOf(s.directory[id]) == id && Online(s.conns[s.directory[id]].pc))
    && (forall c: Conn :: c < |s.conns| && Online(s.conns[c].pc) ==>
       IdOf(c) in s.directory && s.directory[IdOf(c)] == c)
  }

  ghost predicate RoomsOk(s: System) {
    && Agrees(s.rooms.areas, AreaRecords(s.conns))
    && Agrees(s.rooms.channels, ChannelRecords(s.conns))
  }

  ghost predicate ClientOk(cl: Client) {
    && (cl.closed <==> cl.pc.Gone?)
    && (!Serving(cl.pc) ==> cl.own == NOWHERE)
    && ViaOk(cl.own, cl.via)
  }

  /** A push that connection `c` has planned. */
  ghost predicate ActionOk(s: System, c: Conn, action: Action<Conn>)
    requires c < |s.conns|
  {
    match action
    case ToSelf(frame) =>
      && frame.typ != "welcome" && frame.typ != "system"
      && (frame.typ == "message" ==> Belongs(s.conns[c].own, FrameRoom(frame)) && frame.clientId == IdOf(c))
    case ToPeer(peer, frame) =>
      && peer < |s.conns| && !s.conns[peer].pc.Fresh?
      && frame.typ == "whisper" && frame.to == IdOf(peer)
    case ToRoom(room, frame) =>
      RoomPushOk(s, c, room, frame)
  }

  ghost predicate RoomPushOk(s: System, c: Conn, room: Room, frame: Envelope)
    requires c < |s.conns|
  {
    && FrameRoom(frame) == room && frame.clientId == IdOf(c)
    && (frame.typ == "message" || frame.typ == "system")
    && (frame.typ == "message" ==> Belongs(s.conns[c].own, room))
  }

  ghost predicate PlanOk(s: System, c: Conn, plan: Plan<Conn>)
    requires c < |s.conns|
  {
    forall i :: 0 <= i < |plan| ==> ActionOk(s, c, plan[i])
  }

  ghost predicate PcOk(s: System, c: Conn)
    requires c < |s.conns|
  {
    match s.conns[c].pc
    case Running(todo) => PlanOk(s, c, todo)
    case Delivering(room, frame, pending, rest) =>
      && RoomPushOk(s, c, room, frame) && PlanOk(s, c, rest)
      && pending <= Members(s.rooms, room) && c !in pending
      && s.conns[c].issued != []
    case _ => true
  }

  ghost predicate ClientsOk(s: System) {
    forall c: Conn :: c < |s.conns| ==> ClientOk(s.conns[c])
  }

  ghost predicate PcsOk(s: System) {
    forall c: Conn :: c < |s.conns| ==> PcOk(s, c)
  }

  ghost predicate Shape(s: System) {
    DirectoryOk(s) && RoomsOk(s) && ClientsOk(s) && PcsOk(s)
  }

  // ---- Consequences ----

  /** The two sides of the index are one relation. */
  lemma TwoSides(s: System, c: Conn, room: Room)
    requires RoomsOk(s)
    ensures c in Members(s.rooms, room) <==> c < |s.conns| && Belongs(s.conns[c].own, room)
  {
    match room
    case Area(area) =>
      if c < |s.conns| {
        assert AreaRecords(s.conns)[c] == KeysOf(s.rooms.areas, c);
      }
      assert c in At(s.rooms.areas, area) ==> c in AreaRecords(s.conns);
    case Channel(key) =>
      if c < |s.conns| {
        assert ChannelRecords(s.conns)[c] == KeysOf(s.rooms.channels, c);
      }
      assert c in At(s.rooms.channels, key) ==> c in ChannelRecords(s.conns);
  }

  /** A room member is registered and its queue is open. */
  lemma MembersAreOpen(s: System, c: Conn, room: Room)
    requires Shape(s) && c in Members(s.rooms, room)
    ensures c < |s.conns| && Serving(s.conns[c].pc) && !s.conns[c].closed
    ensures IdOf(c) in s.directory && s.directory[IdOf(c)] == c
  {
    TwoSides(s, c, room);
    assert ClientOk(s.conns[c]);
  }

  // ---- Steps that leave the hub and the memberships alone ----

  /** Only `c` moves, within its standing; the other clients may at most have been pushed to. */
  ghost predicate OnlyMoves(s: System, t: System, c: Conn) {
    && t.limits == s.limits && t.server == s.server && t.rooms == s.rooms && t.directory == s.directory
    && |t.conns| == |s.conns|
    && c < |s.conns| && SameStanding(s.conns[c], t.conns[c])
    && forall i: Conn :: i < |s.conns| && i != c ==> PushedAtMost(s.conns[i], t.conns[i])
  }

  ghost predicate SameStanding(a: Client, b: Client) {
    && b.own == a.own && b.via == a.via && b.closed == a.closed
    && Online(b.pc) == Online(a.pc) && b.pc.Fresh? == a.pc.Fresh? && (Serving(a.pc) ==> Serving(b.pc))
  }

  ghost predicate PushedAtMost(a: Client, b: Client) {
    b.pc == a.pc && b.own == a.own && b.via == a.via && b.closed == a.closed && b.issued == a.issued
  }

  ghost predicate NobodyForgotten(s: System, t: System) {
    && |s.conns| <= |t.conns|
    && forall p: Conn :: p < |s.conns| && !s.conns[p].pc.Fresh? ==> !t.conns[p].pc.Fresh?
  }

  lemma MoveForgetsNobody(s: System, t: System, c: Conn)
    requires OnlyMoves(s, t, c)
    ensures NobodyForgotten(s, t)
  {
  }

  lemma PlanStays(s: System, t: System, c: Conn, plan: Plan<Conn>)
    requires NobodyForgotten(s, t) && c < |s.conns| && t.conns[c].own == s.conns[c].own
    requires PlanOk(s, c, plan)
    ensures PlanOk(t, c, plan)
  {
  }

  /** What `c` is about to do stays right while its record stays and nobody is forgotten. */
  lemma PcStays(s: System, t: System, c: Conn)
    requires NobodyForgotten(s, t) && c < |s.conns| && PcOk(s, c)
    requires t.conns[c].pc == s.conns[c].pc && t.conns[c].own == s.conns[c].own
    requires s.conns[c].pc.Delivering? ==> t.rooms == s.rooms && t.conns[c].issued == s.conns[c].issued
    ensures PcOk(t, c)
  {
  }

  lemma MoveKeepsRooms(s: System, t: System, c: Conn)
    requires RoomsOk(s) && OnlyMoves(s, t, c)
    ensures RoomsOk(t)
  {
    forall i: Conn | i < |s.conns|
      ensures t.conns[i].own == s.conns[i].own
    {
      assert i != c ==> PushedAtMost(s.conns[i], t.conns[i]);
    }
    assert AreaRecords(t.conns) == AreaRecords(s.conns);
    assert ChannelRecords(t.conns) == ChannelRecords(s.conns);
  }

  lemma MoveKeepsDirectory(s: System, t: System, c: Conn)
    requires DirectoryOk(s) && OnlyMoves(s, t, c)
    ensures DirectoryOk(t)
  {
  }

  lemma MoveKeepsShape(s: System, t: System, c: Conn)
    requires Shape(s) && OnlyMoves(s, t, c) && PcOk(t, c)
    ensures Shape(t)
  {
    MoveForgetsNobody(s, t, c);
    MoveKeepsRooms(s, t, c);
    MoveKeepsDirectory(s, t, c);
    forall i: Conn | i < |t.conns|
      ensures ClientOk(t.conns[i]) && PcOk(t, i)
    {
      assert ClientOk(s.conns[i]) && PcOk(s, i);
      if i != c {
        assert PushedAtMost(s.conns[i], t.conns[i]);
        PcStays(s, t, i);
      }
    }
  }

  lemma GotoKeepsShape(s: System, c: Conn, pc: Pc)
    requires Shape(s) && c < |s.conns|
    requires SameStanding(s.conns[c], s.conns[c].(pc := pc))
    requires PcOk(Goto(s, c, pc), c)
    ensures Shape(Goto(s, c, pc))
  {
    MoveKeepsShape(s, Goto(s, c, pc), c);
  }

  lemma PushMoves(s: System, c: Conn, r: Conn, frame: Envelope, pc: Pc)
    requires c < |s.conns| && r < |s.conns|
    requires SameStanding(s.conns[c], s.conns[c].(pc := pc))
    ensures OnlyMoves(s, Goto(PushTo(s, c, r, frame), c, pc), c)
  {
  }

  lemma PerformMoves(s: System, c: Conn, action: Action<Conn>, rest: Plan<Conn>)
    requires c < |s.conns| && s.conns[c].pc.Running?
    requires action.ToPeer? ==> action.peer < |s.conns|
    ensures OnlyMoves(s, Perform(s, c, action, rest), c)
  {
    match action
    case ToSelf(frame) => PushMoves(s, c, c, frame, Unless(s.conns[c].closed, Running(rest)));
    case ToPeer(peer, frame) => PushMoves(s, c, peer, frame, Unless(s.conns[peer].closed, Running(rest)));
    case ToRoom(_, _) =>
  }

  lemma RestOk(s: System, c: Conn)
    requires c < |s.conns| && PcOk(s, c) && s.conns[c].pc.Running? && s.conns[c].pc.todo != []
    ensures ActionOk(s, c, s.conns[c].pc.todo[0]) && PlanOk(s, c, s.conns[c].pc.todo[1..])
  {
  }

  lemma PerformPcOk(s: System, c: Conn, action: Action<Conn>, rest: Plan<Conn>)
    requires c < |s.conns| && s.conns[c].pc.Running? && ActionOk(s, c, action) && PlanOk(s, c, rest)
    ensures PcOk(Perform(s, c, action, rest), c)
  {
  }

  lemma PerformKeepsShape(s: System, c: Conn)
    requires Shape(s) && c < |s.conns| && s.conns[c].pc.Running? && s.conns[c].pc.todo != []
    requires s.conns[c].pc.todo[0].ToPeer? ==> s.conns[c].pc.todo[0].peer < |s.conns|
    ensures Shape(Perform(s, c, s.conns[c].pc.todo[0], s.conns[c].pc.todo[1..]))
  {
    var action, rest := s.conns[c].pc.todo[0], s.conns[c].pc.todo[1..];
    RestOk(s, c);
    PerformMoves(s, c, action, rest);
    PerformPcOk(s, c, action, rest);
    MoveKeepsShape(s, Perform(s, c, action, rest), c);
  }

  lemma DeliverMoves(s: System, c: Conn, r: Conn)
    requires c < |s.conns| && r < |s.conns| && r != c && s.conns[c].pc.Delivering? && s.conns[c].issued != []
    ensures OnlyMoves(s, Deliver(s, c, r), c)
  {
  }

  lemma DeliverKeepsShape(s: System, c: Conn, r: Conn)
    requires Shape(s) && c < |s.conns| && r < |s.conns|
    requires s.conns[c].pc.Delivering? && s.conns[c].issued != [] && r in s.conns[c].pc.pending
    ensures Shape(Deliver(s, c, r))
  {
    assert PcOk(s, c);
    var t := Deliver(s, c, r);
    DeliverMoves(s, c, r);
    MoveForgetsNobody(s, t, c);
    PlanStays(s, t, c, s.conns[c].pc.rest);
    MoveKeepsShape(s, t, c);
  }

  // ---- Steps that change the hub ----

  lemma RecordsOfUpdate(conns: seq<Client>, c: Conn, cl: Client)
    requires c < |conns|
    ensures AreaRecords(conns[c := cl]) == AreaRecords(conns)[c := cl.own.areas]
    ensures ChannelRecords(conns[c := cl]) == ChannelRecords(conns)[c := cl.own.channels]
  {
  }

  lemma RecordsOfNewcomer(conns: seq<Client>, cl: Client)
    ensures AreaRecords(conns + [cl]) == AreaRecords(conns)[|conns| := cl.own.areas]
    ensures ChannelRecords(conns + [cl]) == ChannelRecords(conns)[|conns| := cl.own.channels]
  {
  }

  lemma ConnectKeepsShape(s: System)
    requires Shape(s)
    ensures Shape(Connected(s))
  {
    var t := Connected(s);
    var n: Conn := |s.conns|;
    RecordsOfNewcomer(s.conns, t.conns[n]);
    assert n !in AreaRecords(s.conns) && n !in ChannelRecords(s.conns);
    RegisterAgrees(s.rooms.areas, AreaRecords(s.conns), n);
    RegisterAgrees(s.rooms.channels, ChannelRecords(s.conns), n);
    forall c: Conn | c < |t.conns|
      ensures ClientOk(t.conns[c]) && PcOk(t, c)
    {
      if c < n {
        assert ClientOk(s.conns[c]);
        PcStays(s, t, c);
      }
    }
  }

  /** Identifiers do not repeat within the first 2^64 connections, so registering never takes over an entry. */
  lemma RegisterIsFresh(s: System, c: Conn)
    requires DirectoryOk(s) && |s.conns| <= WORD && c < |s.conns| && s.conns[c].pc.Fresh?
    ensures IdOf(c) !in s.directory
  {
    if IdOf(c) in s.directory {
      IdsDistinct(s.directory[IdOf(c)], c);
    }
  }

  /** While one client changes the hub, what the others are doing is not affected. */
  lemma OthersKeepUp(s: System, t: System, c: Conn)
    requires ClientsOk(s) && PcsOk(s) && NoReaders(s)
    requires |t.conns| == |s.conns| && c < |s.conns| && !t.conns[c].pc.Fresh?
    requires forall i: Conn :: i < |s.conns| && i != c ==> t.conns[i] == s.conns[i]
    ensures forall i: Conn :: i < |s.conns| && i != c ==> ClientOk(t.conns[i]) && PcOk(t, i)
  {
    forall i: Conn | i < |s.conns| && i != c
      ensures ClientOk(t.conns[i]) && PcOk(t, i)
    {
      assert ClientOk(s.conns[i]) && PcOk(s, i);
      PcStays(s, t, i);
    }
  }

  lemma RegisterKeepsShape(s: System, c: Conn)
    requires Shape(s) && |s.conns| <= WORD && c < |s.conns| && s.conns[c].pc.Fresh? && NoReaders(s)
    ensures Shape(Entered(s, c))
  {
    var t := Entered(s, c);
    RegisterIsFresh(s, c);
    RecordsOfUpdate(s.conns, c, t.conns[c]);
    assert AreaRecords(t.conns) == AreaRecords(s.conns);
    assert ChannelRecords(t.conns) == ChannelRecords(s.conns);
    OthersKeepUp(s, t, c);
    assert ClientOk(s.conns[c]);
  }

  lemma LeaveAllEmpties(s: System, c: Conn)
    requires RoomsOk(s) && c < |s.conns|
    ensures LeftAll(s, c).conns[c].own == NOWHERE && LeftAll(s, c).rooms == Sweep(s.rooms, c)
    ensures RoomsOk(LeftAll(s, c))
  {
    var t := LeftAll(s, c);
    var areas, channels := s.rooms.areas, s.rooms.channels;
    assert AreaRecords(s.conns)[c] == KeysOf(areas, c) && ChannelRecords(s.conns)[c] == KeysOf(channels, c);
    LeavingAllIsSweeping(areas, c);
    LeavingAllIsSweeping(channels, c);
    assert t.conns[c].own == NOWHERE;
    RecordsOfUpdate(s.conns, c, t.conns[c]);
    SweepAgrees(areas, AreaRecords(s.conns), c);
    SweepAgrees(channels, ChannelRecords(s.conns), c);
  }

  lemma LeaveAllKeepsShape(s: System, c: Conn)
    requires Shape(s) && c < |s.conns| && s.conns[c].pc.Closing? && NoReaders(s)
    ensures Shape(LeftAll(s, c))
  {
    LeaveAllEmpties(s, c);
    OthersKeepUp(s, LeftAll(s, c), c);
    assert ClientOk(s.conns[c]);
    assert DirectoryOk(LeftAll(s, c));
  }

  /** After leaveAll the sweep of unregister finds nothing left. */
  lemma SweepOfNowhere(s: System, c: Conn)
    requires RoomsOk(s) && c < |s.conns| && s.conns[c].own == NOWHERE
    ensures Sweep(s.rooms, c) == s.rooms
  {
    assert AreaRecords(s.conns)[c] == KeysOf(s.rooms.areas, c)
           && ChannelRecords(s.conns)[c] == KeysOf(s.rooms.channels, c);
    assert forall key :: key in s.rooms.areas && c in s.rooms.areas[key] ==> key in KeysOf(s.rooms.areas, c);
    assert forall key :: key in s.rooms.channels && c in s.rooms.channels[key] ==> key in KeysOf(s.rooms.channels, c);
    SweptOfAbsent(s.rooms.areas, c);
    SweptOfAbsent(s.rooms.channels, c);
  }

  lemma UnregisterKeepsDirectory(s: System, c: Conn)
    requires DirectoryOk(s) && |s.conns| <= WORD && c < |s.conns| && s.conns[c].pc.Left?
    ensures DirectoryOk(Unregistered(s, c))
    ensures IdOf(c) in s.directory && s.directory[IdOf(c)] == c
  {
  }

  lemma UnregisterKeepsShape(s: System, c: Conn)
    requires Shape(s) && |s.conns| <= WORD && c < |s.conns| && s.conns[c].pc.Left? && NoReaders(s)
    ensures Shape(Unregistered(s, c))
  {
    var t := Unregistered(s, c);
    assert ClientOk(s.conns[c]);
    UnregisterKeepsDirectory(s, c);
    SweepOfNowhere(s, c);
    RecordsOfUpdate(s.conns, c, t.conns[c]);
    assert AreaRecords(t.conns) == AreaRecords(s.conns);
    assert ChannelRecords(t.conns) == ChannelRecords(s.conns);
    OthersKeepUp(s, t, c);
  }

  // ---- The section of a request ----

  /** A request's plan is right for the state after its section. */
  lemma NoticePlanOk(t: System, c: Conn, reply: Envelope, ref: RoomRef, from: string, event: string)
    requires c < |t.conns| && (reply.typ == "joined" || reply.typ == "left")
    ensures PlanOk(t, c, [ToSelf(reply), ToRoom(RoomOf(ref), NoticeFrame(ref, IdOf(c), from, event))])
  {
    assert FrameRoom(NoticeFrame(ref, IdOf(c), from, event)) == RoomOf(ref);
  }

  lemma CheckPlanOk(t: System, c: Conn, ref: RoomRef, from: string, msg: Envelope)
    requires c < |t.conns| && Addressed(msg) == Some(ref)
    ensures PlanOk(t, c, AfterCheck(Belongs(t.conns[c].own, RoomOf(ref)), ref, IdOf(c), from, msg))
  {
    MessageRoom(ref, IdOf(c), from, msg);
  }

  lemma FindPlanOk(s: System, t: System, c: Conn, from: string, msg: Envelope)
    requires DirectoryOk(s) && c < |s.conns|
    requires |t.conns| == |s.conns| && forall i: Conn :: i < |s.conns| && Online(s.conns[i].pc) ==>
             !t.conns[i].pc.Fresh?
    ensures var peer := if msg.to in s.directory then Some(s.directory[msg.to]) else None;
            PlanOk(t, c, AfterFind(peer, IdOf(c), from, msg))
  {
  }

  lemma ResponsePlanOk(s: System, t: System, c: Conn, from: string, msg: Envelope)
    requires DirectoryOk(s) && c < |s.conns|
    requires |t.conns| == |s.conns| && forall i: Conn :: i < |s.conns| && Online(s.conns[i].pc) ==>
             !t.conns[i].pc.Fresh?
    requires t.conns[c].own == Respond(s.rooms, s.directory, s.limits, c, s.conns[c].own, IdOf(c), from, msg).own
    ensures PlanOk(t, c, Respond(s.rooms, s.directory, s.limits, c, s.conns[c].own, IdOf(c), from, msg).plan)
  {
    match Dispatch(msg, IdOf(c))
    case JoinRoom(ref) => NoticePlanOk(t, c, JoinedFrame(ref, IdOf(c), from), ref, from, "joined");
    case LeaveRoom(ref) => NoticePlanOk(t, c, LeftFrame(ref, IdOf(c)), ref, from, "left");
    case CheckRoom(ref) => CheckPlanOk(t, c, ref, from, msg);
    case FindPeer => FindPlanOk(s, t, c, from, msg);
    case Reply(_) =>
  }

  lemma MessageRoom(ref: RoomRef, id: string, from: string, msg: Envelope)
    requires Addressed(msg) == Some(ref)
    ensures FrameRoom(MessageFrame(ref, id, from, msg)) == RoomOf(ref)
  {
  }

  lemma JoinKeepsRooms(rooms: Rooms<Conn>, limits: HubLimits, conns: seq<Client>, ref: RoomRef, c: Conn, cl: Client)
    requires Agrees(rooms.areas, AreaRecords(conns)) && Agrees(rooms.channels, ChannelRecords(conns))
    requires c < |conns| && cl.own == if JoinError(rooms, limits, ref, c) == "" then Enter(conns[c].own, RoomOf(ref))
             else conns[c].own
    ensures Agrees(Join(rooms, limits, ref, c).areas, AreaRecords(conns[c := cl]))
    ensures Agrees(Join(rooms, limits, ref, c).channels, ChannelRecords(conns[c := cl]))
  {
    var areas: map<Conn, set<string>> := AreaRecords(conns);
    var channels: map<Conn, set<string>> := ChannelRecords(conns);
    RecordsOfUpdate(conns, c, cl);
    assert areas[c := areas[c]] == areas && channels[c := channels[c]] == channels;
    if JoinError(rooms, limits, ref, c) == "" {
      match RoomOf(ref)
      case Area(area) => JoinAgrees(rooms.areas, areas, area, c);
      case Channel(key) => JoinAgrees(rooms.channels, channels, key, c);
    }
  }

  lemma LeaveKeepsRooms(rooms: Rooms<Conn>, conns: seq<Client>, room: Room, c: Conn, cl: Client)
    requires Agrees(rooms.areas, AreaRecords(conns)) && Agrees(rooms.channels, ChannelRecords(conns))
    requires c < |conns| && cl.own == if Stored(rooms, room) then Exit(conns[c].own, room) else conns[c].own
    ensures Agrees(Leave(rooms, room, c).areas, AreaRecords(conns[c := cl]))
    ensures Agrees(Leave(rooms, room, c).channels, ChannelRecords(conns[c := cl]))
  {
    var areas: map<Conn, set<string>> := AreaRecords(conns);
    var channels: map<Conn, set<string>> := ChannelRecords(conns);
    RecordsOfUpdate(conns, c, cl);
    assert areas[c := areas[c]] == areas && channels[c := channels[c]] == channels;
    assert areas[c] == KeysOf(rooms.areas, c) && channels[c] == KeysOf(rooms.channels, c);
    match room
    case Area(area) =>
      LeaveAgrees(rooms.areas, areas, area, c);
      assert cl.own.areas == areas[c] - {area};
    case Channel(key) =>
      LeaveAgrees(rooms.channels, channels, key, c);
      assert cl.own.channels == channels[c] - {key};
  }

  lemma HandleKeepsRooms(s: System, c: Conn, msg: Envelope)
    requires RoomsOk(s) && c < |s.conns|
    ensures RoomsOk(Handle(s, c, msg))
  {
    var cl := Handle(s, c, msg).conns[c];
    match Dispatch(msg, IdOf(c))
    case JoinRoom(ref) => JoinKeepsRooms(s.rooms, s.limits, s.conns, ref, c, cl);
    case LeaveRoom(ref) => LeaveKeepsRooms(s.rooms, s.conns, RoomOf(ref), c, cl);
    case _ =>
      RecordsOfUpdate(s.conns, c, cl);
      assert AreaRecords(s.conns[c := cl]) == AreaRecords(s.conns);
      assert ChannelRecords(s.conns[c := cl]) == ChannelRecords(s.conns);
  }

  /** Every room on a client's record comes with the way the client named it. */
  ghost predicate ViaOk(own: Record, via: map<Room, RoomRef>) {
    forall room :: Belongs(own, room) ==> room in via && RoomOf(via[room]) == room
  }

  lemma EnterKeepsVia(own: Record, via: map<Room, RoomRef>, ref: RoomRef)
    requires ViaOk(own, via)
    ensures ViaOk(Enter(own, RoomOf(ref)), if Belongs(own, RoomOf(ref)) then via else via[RoomOf(ref) := ref])
  {
  }

  lemma ExitKeepsVia(own: Record, via: map<Room, RoomRef>, room: Room)
    requires ViaOk(own, via)
    ensures ViaOk(Exit(own, room), via)
  {
  }

  lemma HandleClientOk(s: System, c: Conn, msg: Envelope)
    requires c < |s.conns| && s.conns[c].pc.Handling? && ClientOk(s.conns[c])
    ensures ClientOk(Handle(s, c, msg).conns[c])
  {
    var cl := s.conns[c];
    match Dispatch(msg, IdOf(c))
    case JoinRoom(ref) => EnterKeepsVia(cl.own, cl.via, ref);
    case LeaveRoom(ref) => ExitKeepsVia(cl.own, cl.via, RoomOf(ref));
    case _ =>
  }

  /** Only joins and leaves change the rooms, and they run when no reader is inside. */
  lemma HandleKeepsPcs(s: System, c: Conn, msg: Envelope)
    requires Shape(s) && c < |s.conns| && s.conns[c].pc == Handling(msg)
    requires NeedsWriter(Dispatch(msg, IdOf(c))) ==> NoReaders(s)
    ensures PcsOk(Handle(s, c, msg)) && ClientsOk(Handle(s, c, msg))
  {
    var t := Handle(s, c, msg);
    assert ClientOk(s.conns[c]);
    HandleClientOk(s, c, msg);
    ResponsePlanOk(s, t, c, Shown(NameAfter(s.conns[c].name, msg), IdOf(c)), msg);
    forall i: Conn | i < |t.conns| && i != c
      ensures ClientOk(t.conns[i]) && PcOk(t, i)
    {
      assert ClientOk(s.conns[i]) && PcOk(s, i);
      PcStays(s, t, i);
    }
  }

  lemma HandleKeepsShape(s: System, c: Conn, msg: Envelope)
    requires Shape(s) && c < |s.conns| && s.conns[c].pc == Handling(msg)
    requires NeedsWriter(Dispatch(msg, IdOf(c))) ==> NoReaders(s)
    ensures Shape(Handle(s, c, msg))
  {
    HandleKeepsRooms(s, c, msg);
    HandleKeepsPcs(s, c, msg);
    var t := Handle(s, c, msg);
    assert forall i: Conn :: i < |s.conns| ==> Online(t.conns[i].pc) == Online(s.conns[i].pc);
  }

  // ---- Every run ----

  lemma WelcomeKeepsShape(s: System, c: Conn)
    requires Shape(s) && c < |s.conns| && s.conns[c].pc.Registered?
    ensures Shape(Welcomed(s, c))
  {
    assert ClientOk(s.conns[c]);
    PushMoves(s, c, c, WelcomeFrame(s.server, IdOf(c)), Idle);
    MoveKeepsShape(s, Welcomed(s, c), c);
  }

  lemma ReleaseKeepsShape(s: System, c: Conn)
    requires Shape(s) && c < |s.conns| && s.conns[c].pc.Delivering?
    ensures Shape(Goto(s, c, Running(s.conns[c].pc.rest)))
  {
    assert PcOk(s, c);
    var t := Goto(s, c, Running(s.conns[c].pc.rest));
    PlanStays(s, t, c, s.conns[c].pc.rest);
    GotoKeepsShape(s, c, Running(s.conns[c].pc.rest));
  }

  lemma DequeueKeepsShape(s: System, c: Conn)
    requires Shape(s) && c < |s.conns| && s.conns[c].queue != []
    ensures Shape(Dequeued(s, c))
  {
    assert PcOk(s, c);
    PcStays(s, Dequeued(s, c), c);
    MoveKeepsShape(s, Dequeued(s, c), c);
  }

  lemma ActKeepsShape(s: System, c: Conn)
    requires Shape(s) && Enabled(s, Act(c))
    ensures Shape(Apply(s, Act(c)))
  {
    if s.conns[c].pc.Handling? {
      HandleKeepsShape(s, c, s.conns[c].pc.msg);
    } else if s.conns[c].pc.todo == [] {
      GotoKeepsShape(s, c, Idle);
    } else {
      PerformKeepsShape(s, c);
    }
  }

  lemma StepKeepsShape(s: System, l: Label)
    requires Shape(s) && |s.conns| <= WORD
    ensures Shape(Step(s, l))
  {
    if Enabled(s, l) {
      match l
      case Connect => ConnectKeepsShape(s);
      case Register(c) => RegisterKeepsShape(s, c);
      case Welcome(c) => WelcomeKeepsShape(s, c);
      case Receive(c, msg) => GotoKeepsShape(s, c, Handling(msg));
      case ReceiveGarbage(c) => GotoKeepsShape(s, c, Running([ToSelf(ErrorFrame("invalid json message", "", ""))]));
      case HangUp(c) => GotoKeepsShape(s, c, Closing);
      case Act(c) => ActKeepsShape(s, c);
      case DeliverTo(c, r) => DeliverKeepsShape(s, c, r);
      case Release(c) => ReleaseKeepsShape(s, c);
      case LeaveAll(c) => LeaveAllKeepsShape(s, c);
      case Unregister(c) => UnregisterKeepsShape(s, c);
      case Dequeue(c) => DequeueKeepsShape(s, c);
    }
  }

  lemma ConnectionsGrow(s: System, l: Label)
    ensures |s.conns| <= |Step(s, l).conns|
  {
  }

  /** The shape holds after every run that issued at most 2^64 identifiers. */
  lemma {:induction false} RunsKeepShape(limits: HubLimits, server: string, run: seq<Label>)
    requires |Exec(limits, server, run).conns| <= WORD
    ensures Shape(Exec(limits, server, run))
  {
    if run != [] {
      var s := Exec(limits, server, run[..|run| - 1]);
      ConnectionsGrow(s, run[|run| - 1]);
      RunsKeepShape(limits, server, run[..|run| - 1]);
      StepKeepsShape(s, run[|run| - 1]);
    }
  }
}
