/** The relay as a transition system: one goroutine per connection (its read loop), a writer that drains its
    queue, and the hub's read-write lock. Every interleaving of their steps is a sequence of labels.

    A section under the write lock is one step, and needs that no reader is inside. A broadcast takes the read
    lock in one step, offers the frame to one member per step, in any order, and releases it in another. */
module RelaySystem {
  import opened Protocol
  import opened Membership
  import opened Routes

  /** Connections are numbered in the order in which their identifiers were issued. */
  type Conn = nat

  /** A frame in a queue, with the connection that caused it and that connection's issue number. */
  datatype Entry = Entry(sender: Conn, stamp: nat, frame: Envelope)

  /** One push, in the history of the queue it went to; `taken` frames had been dequeued by then. */
  datatype Attempt = Attempt(entry: Entry, fate: Fate, taken: nat)

  /** One push action, in the history of its sender: whom it is for, and who has been offered it. */
  datatype Issue = Issue(frame: Envelope, audience: set<Conn>, reached: set<Conn>)

  datatype Pc =
    | Fresh                              // identifier issued, not in the hub yet
    | Registered                         // in the hub, welcome not pushed yet
    | Idle                               // waiting for a message
    | Handling(msg: Envelope)            // message read, its section still to run
    | Running(todo: Plan<Conn>)          // pushes left
    | Delivering(room: Room, frame: Envelope, pending: set<Conn>, rest: Plan<Conn>)  // inside the read lock
    | Closing                            // read loop over, deferred teardown to run
    | Left                               // leaveAll done
    | Gone                               // unregister done

  datatype Client = Client(
    pc: Pc, name: string, own: Record, queue: seq<Entry>, closed: bool,
    // histories
    via: map<Room, RoomRef>, issued: seq<Issue>, attempts: seq<Attempt>, taken: seq<Entry>)

  datatype System = System(
    limits: HubLimits, server: string, directory: map<string, Conn>, rooms: Rooms<Conn>, conns: seq<Client>)

  datatype Label =
    | Connect | Register(c: Conn) | Welcome(c: Conn)
    | Receive(c: Conn, msg: Envelope) | ReceiveGarbage(c: Conn) | HangUp(c: Conn)
    | Act(c: Conn) | DeliverTo(c: Conn, r: Conn) | Release(c: Conn)
    | LeaveAll(c: Conn) | Unregister(c: Conn)
    | Dequeue(c: Conn)

  const NOWHERE := Record({}, {})

  function Init(limits: HubLimits, server: string): System {
    System(limits, server, map[], Rooms(map[], map[]), [])
  }

  // ---- When a step can run ----

  predicate NoReaders(s: System) {
    forall i :: 0 <= i < |s.conns| ==> !s.conns[i].pc.Delivering?
  }

  /** Whether the section of a request takes the write lock; a join that is refused for a missing name does not. */
  predicate NeedsWriter(section: Section) {
    match section
    case JoinRoom(AreaRef(area)) => area != ""
    case JoinRoom(ChannelRef(kind, id)) => kind != "" && id != ""
    case LeaveRoom(_) => true
    case _ => false
  }

  predicate Enabled(s: System, l: Label) {
    if l.Connect? then true
    else if l.c >= |s.conns| then false
    else
      var pc := s.conns[l.c].pc;
      match l
      case Register(_) => pc.Fresh? && NoReaders(s)
      case Welcome(_) => pc.Registered?
      case Receive(_, _) => pc.Idle?
      case ReceiveGarbage(_) => pc.Idle?
      case HangUp(_) => pc.Idle?
      case Act(c) =>
        || (pc.Running? && (pc.todo == [] || !pc.todo[0].ToPeer? || pc.todo[0].peer < |s.conns|))
        || (pc.Handling? && (NeedsWriter(Dispatch(pc.msg, IdOf(c))) ==> NoReaders(s)))
      case DeliverTo(c, r) => pc.Delivering? && s.conns[c].issued != [] && r in pc.pending && r < |s.conns|
      case Release(_) => pc.Delivering? && pc.pending == {}
      case LeaveAll(_) => pc.Closing? && NoReaders(s)
      case Unregister(_) => pc.Left? && NoReaders(s)
      case Dequeue(c) => !pc.Fresh? && !pc.Registered? && s.conns[c].queue != []
  }

  // ---- What it does ----

  function Put(s: System, c: Conn, cl: Client): System
    requires c < |s.conns|
  {
    s.(conns := s.conns[c := cl])
  }

  function Goto(s: System, c: Conn, pc: Pc): System
    requires c < |s.conns|
  {
    Put(s, c, s.conns[c].(pc := pc))
  }

  /** trySend: a closed queue refuses, a full one drops. */
  function FateNow(cl: Client): Fate {
    FateOf(cl.closed, |cl.queue|)
  }

  function Push(cl: Client, entry: Entry): Client {
    var fate := FateNow(cl);
    cl.(queue := if fate == Accepted then cl.queue + [entry] else cl.queue,
        attempts := cl.attempts + [Attempt(entry, fate, |cl.taken|)])
  }

  /** Connection `c` starts a push action. */
  function Issued(s: System, c: Conn, frame: Envelope, audience: set<Conn>, reached: set<Conn>): System
    requires c < |s.conns|
  {
    Put(s, c, s.conns[c].(issued := s.conns[c].issued + [Issue(frame, audience, reached)]))
  }

  /** Offers the frame of `c`'s latest issue to `r`. */
  function Offered(s: System, c: Conn, r: Conn, frame: Envelope): System
    requires c < |s.conns| && r < |s.conns| && s.conns[c].issued != []
  {
    Put(s, r, Push(s.conns[r], Entry(c, |s.conns[c].issued| - 1, frame)))
  }

  function PushTo(s: System, c: Conn, r: Conn, frame: Envelope): System
    requires c < |s.conns| && r < |s.conns|
  {
    Offered(Issued(s, c, frame, {r}, {r}), c, r, frame)
  }

  /** A send on a closed queue panics, which ends the read loop and runs what it deferred. */
  function Unless(refused: bool, pc: Pc): Pc {
    if refused then Closing else pc
  }

  function Perform(s: System, c: Conn, action: Action<Conn>, rest: Plan<Conn>): System
    requires c < |s.conns|
    requires action.ToPeer? ==> action.peer < |s.conns|
  {
    match action
    case ToSelf(frame) => Goto(PushTo(s, c, c, frame), c, Unless(s.conns[c].closed, Running(rest)))
    case ToPeer(peer, frame) => Goto(PushTo(s, c, peer, frame), c, Unless(s.conns[peer].closed, Running(rest)))
    case ToRoom(room, frame) =>
      var audience := Members(s.rooms, room) - {c};
      Goto(Issued(s, c, frame, audience, {}), c, Delivering(room, frame, audience, rest))
  }

  function Handle(s: System, c: Conn, msg: Envelope): System
    requires c < |s.conns|
  {
    var cl := s.conns[c];
    var name := NameAfter(cl.name, msg);
    var o := Respond(s.rooms, s.directory, s.limits, c, cl.own, IdOf(c), Shown(name, IdOf(c)), msg);
    var section := Dispatch(msg, IdOf(c));
    var entered := section.JoinRoom? && JoinError(s.rooms, s.limits, section.ref, c) == ""
        && !Belongs(cl.own, RoomOf(section.ref));
    Put(s.(rooms := o.rooms), c,
        cl.(pc := Running(o.plan), name := name, own := o.own,
            via := if entered then cl.via[RoomOf(section.ref) := section.ref] else cl.via))
  }

  function Reach(cl: Client, r: Conn): Client
    requires cl.issued != []
  {
    var n := |cl.issued| - 1;
    cl.(issued := cl.issued[n := cl.issued[n].(reached := cl.issued[n].reached + {r})])
  }

  function Deliver(s: System, c: Conn, r: Conn): System
    requires c < |s.conns| && r < |s.conns| && s.conns[c].pc.Delivering? && s.conns[c].issued != []
  {
    var pc := s.conns[c].pc;
    var next := Offered(Put(s, c, Reach(s.conns[c], r)), c, r, pc.frame);
    Goto(next, c, Unless(s.conns[r].closed, pc.(pending := pc.pending - {r})))
  }

  function Connected(s: System): System {
    s.(conns := s.conns + [Client(Fresh, "", NOWHERE, [], false, map[], [], [], [])])
  }

  function Entered(s: System, c: Conn): System
    requires c < |s.conns|
  {
    Goto(s.(directory := s.directory[IdOf(c) := c]), c, Registered)
  }

  function Welcomed(s: System, c: Conn): System
    requires c < |s.conns|
  {
    Goto(PushTo(s, c, c, WelcomeFrame(s.server, IdOf(c))), c, Unless(s.conns[c].closed, Idle))
  }

  function LeftAll(s: System, c: Conn): System
    requires c < |s.conns|
  {
    var own := s.conns[c].own;
    var rooms := Rooms(WithoutAll(s.rooms.areas, own.areas, c), WithoutAll(s.rooms.channels, own.channels, c));
    Put(s.(rooms := rooms), c,
        s.conns[c].(pc := Left, own := Record(own.areas - s.rooms.areas.Keys, own.channels - s.rooms.channels.Keys)))
  }

  function Unregistered(s: System, c: Conn): System
    requires c < |s.conns|
  {
    if IdOf(c) !in s.directory then Goto(s, c, Gone)
    else
      Put(s.(directory := s.directory - {IdOf(c)}, rooms := Sweep(s.rooms, c)), c,
          s.conns[c].(pc := Gone, closed := true))
  }

  function Dequeued(s: System, c: Conn): System
    requires c < |s.conns| && s.conns[c].queue != []
  {
    var cl := s.conns[c];
    Put(s, c, cl.(queue := cl.queue[1..], taken := cl.taken + [cl.queue[0]]))
  }

  function Apply(s: System, l: Label): System
    requires Enabled(s, l)
  {
    match l
    case Connect => Connected(s)
    case Register(c) => Entered(s, c)
    case Welcome(c) => Welcomed(s, c)
    case Receive(c, msg) => Goto(s, c, Handling(msg))
    case ReceiveGarbage(c) => Goto(s, c, Running([ToSelf(ErrorFrame("invalid json message", "", ""))]))
    case HangUp(c) => Goto(s, c, Closing)
    case Act(c) =>
      var pc := s.conns[c].pc;
      if pc.Handling? then Handle(s, c, pc.msg)
      else if pc.todo == [] then Goto(s, c, Idle)
      else Perform(s, c, pc.todo[0], pc.todo[1..])
    case DeliverTo(c, r) => Deliver(s, c, r)
    case Release(c) => Goto(s, c, Running(s.conns[c].pc.rest))
    case LeaveAll(c) => LeftAll(s, c)
    case Unregister(c) => Unregistered(s, c)
    case Dequeue(c) => Dequeued(s, c)
  }

  /** A label that cannot run leaves the system as it is, so every sequence of labels is a run. */
  function Step(s: System, l: Label): System {
    if Enabled(s, l) then Apply(s, l) else s
  }

  function Exec(limits: HubLimits, server: string, run: seq<Label>): System {
    if run == [] then Init(limits, server) else Step(Exec(limits, server, run[..|run| - 1]), run[|run| - 1])
  }
}
