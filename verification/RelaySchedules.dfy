/** Schedules of the relay: how runs continue, and what happens when a request is left alone. */
module RelaySchedules {
  import opened Protocol
  import opened Membership
  import opened Routes
  import opened RelaySystem
  import opened RelayShape
  import opened RelayHistory
  import opened RelayOrder

  // ---- Continuing a run ----

  function Steps(s: System, more: seq<Label>): System
    decreases |more|
  {
    if more == [] then s else Steps(Step(s, more[0]), more[1..])
  }

  lemma {:induction false} StepsConcat(s: System, a: seq<Label>, b: seq<Label>)
    ensures Steps(s, a + b) == Steps(Steps(s, a), b)
    decreases |a|
  {
    if a == [] {
      assert a + b == b;
    } else {
      assert (a + b)[1..] == a[1..] + b;
      StepsConcat(Step(s, a[0]), a[1..], b);
    }
  }

  lemma StepsFirst(s: System, l: Label, rest: seq<Label>)
    ensures Steps(s, [l] + rest) == Steps(Step(s, l), rest)
  {
    assert ([l] + rest)[1..] == rest;
  }

  lemma {:induction false} ExecSteps(limits: HubLimits, server: string, run: seq<Label>, more: seq<Label>)
    ensures Exec(limits, server, run + more) == Steps(Exec(limits, server, run), more)
    decreases |more|
  {
    if more == [] {
      assert run + more == run;
    } else {
      assert (run + [more[0]])[..|run|] == run;
      assert run + more == (run + [more[0]]) + more[1..];
      ExecSteps(limits, server, run + [more[0]], more[1..]);
    }
  }

  lemma ExecAppend(limits: HubLimits, server: string, run: seq<Label>, l: Label)
    ensures Exec(limits, server, run + [l]) == Step(Exec(limits, server, run), l)
  {
  }

  lemma FourSteps(limits: HubLimits, server: string, run: seq<Label>, a: Label, b: Label, c: Label, d: Label)
    ensures Exec(limits, server, run + [a, b, c, d]) == Step(Step(Step(Step(Exec(limits, server, run), a), b), c), d)
  {
    ExecAppend(limits, server, run, a);
    ExecAppend(limits, server, run + [a], b);
    ExecAppend(limits, server, run + [a] + [b], c);
    ExecAppend(limits, server, run + [a] + [b] + [c], d);
    assert run + [a] + [b] + [c] + [d] == run + [a, b, c, d];
  }

  lemma MovesCompose(s: System, t: System, u: System, c: Conn)
    requires OnlyMoves(s, t, c) && OnlyMoves(t, u, c)
    ensures OnlyMoves(s, u, c)
  {
  }

  // ---- A request left alone ----

  function Frames(queue: seq<Entry>): seq<Envelope> {
    seq(|queue|, i requires 0 <= i < |queue| => queue[i].frame)
  }

  lemma PushOffers(cl: Client, entry: Entry)
    requires !cl.closed
    ensures Frames(Push(cl, entry).queue) == Offer(Frames(cl.queue), entry.frame)
  {
  }

  /** The frames that open queues hold, from `s` to `t`: `frame` was offered to some. */
  ghost predicate OfferedTo(s: System, t: System, some: set<Conn>, frame: Envelope)
    requires |s.conns| == |t.conns|
  {
    forall r: Conn :: r < |s.conns| && !s.conns[r].closed ==>
      Frames(t.conns[r].queue) == OfferIf(r in some, Frames(s.conns[r].queue), frame)
  }

  lemma OwnStepOffers(s: System, l: Label)
    requires Enabled(s, l) && (l.Act? || l.DeliverTo? || l.Release?) && |Apply(s, l).conns| == |s.conns|
    ensures var d := PushOf(s, l);
            OfferedTo(s, Apply(s, l), if d.Some? then {d.value.to} else {},
                      if d.Some? then d.value.entry.frame else BLANK)
  {
    var d := PushOf(s, l);
    forall r: Conn | r < |s.conns| && !s.conns[r].closed
      ensures Frames(Apply(s, l).conns[r].queue) == if d.Some? && d.value.to == r
              then Offer(Frames(s.conns[r].queue), d.value.entry.frame) else Frames(s.conns[r].queue)
    {
      QueuesChange(s, l, r);
      if d.Some? {
        PushOffers(s.conns[r], d.value.entry);
      }
    }
  }

  lemma OffersAddUp(s: System, t: System, u: System, c: Conn, r: Conn, rest: set<Conn>, frame: Envelope)
    requires OnlyMoves(s, t, c) && OnlyMoves(t, u, c) && r !in rest
    requires OfferedTo(s, t, {r}, frame) && OfferedTo(t, u, rest, frame)
    ensures OfferedTo(s, u, {r} + rest, frame)
  {
  }

  lemma DeliverOne(s: System, c: Conn, r: Conn)
    requires Shape(s) && |s.conns| <= WORD && c < |s.conns| && s.conns[c].pc.Delivering? && r in s.conns[c].pc.pending
    ensures Enabled(s, DeliverTo(c, r))
    ensures var t := Step(s, DeliverTo(c, r));
            && Shape(t) && OnlyMoves(s, t, c) && t.conns[c].pc == s.conns[c].pc.(pending := s.conns[c].pc.pending - {r})
            && OfferedTo(s, t, {r}, s.conns[c].pc.frame)
  {
    assert PcOk(s, c);
    PendingIsOpen(s, c, r);
    DeliverMoves(s, c, r);
    DeliverKeepsShape(s, c, r);
    OwnStepOffers(s, DeliverTo(c, r));
  }

  /** A broadcast runs through its pending members, offering the frame to each. */
  lemma DeliverAll(s: System, c: Conn) returns (more: seq<Label>)
    requires Shape(s) && |s.conns| <= WORD && c < |s.conns| && s.conns[c].pc.Delivering?
    ensures var t := Steps(s, more);
            && Shape(t) && OnlyMoves(s, t, c) && t.conns[c].pc == s.conns[c].pc.(pending := {})
            && OfferedTo(s, t, s.conns[c].pc.pending, s.conns[c].pc.frame)
    ensures forall l :: l in more ==> l.DeliverTo? && l.c == c
    decreases |s.conns[c].pc.pending|
  {
    var pc := s.conns[c].pc;
    if pc.pending == {} {
      more := [];
    } else {
      var r :| r in pc.pending;
      var t := Step(s, DeliverTo(c, r));
      DeliverOne(s, c, r);
      var rest := DeliverAll(t, c);
      more := [DeliverTo(c, r)] + rest;
      var u := Steps(t, rest);
      StepsFirst(s, DeliverTo(c, r), rest);
      MovesCompose(s, t, u, c);
      OffersAddUp(s, t, u, c, r, pc.pending - {r}, pc.frame);
      assert {r} + (pc.pending - {r}) == pc.pending;
    }
  }

  ghost predicate PeersOpen(s: System, plan: Plan<Conn>) {
    forall i :: 0 <= i < |plan| && plan[i].ToPeer? ==> plan[i].peer < |s.conns| && !s.conns[plan[i].peer].closed
  }

  /** Whom an action offers its frame. */
  function Takes(s: System, c: Conn, action: Action<Conn>): set<Conn> {
    match action
    case ToSelf(_) => {c}
    case ToPeer(peer, _) => {peer}
    case ToRoom(room, _) => Members(s.rooms, room) - {c}
  }

  /** One action of a plan comes to an end. */
  ghost predicate Ran(s: System, t: System, c: Conn)
    requires c < |s.conns| && s.conns[c].pc.Running? && s.conns[c].pc.todo != []
  {
    var todo := s.conns[c].pc.todo;
    && Shape(t) && OnlyMoves(s, t, c) && t.conns[c].pc == Running(todo[1..])
    && OfferedTo(s, t, Takes(s, c, todo[0]), todo[0].frame)
  }

  lemma RunPush(s: System, c: Conn)
    requires Shape(s) && |s.conns| <= WORD && c < |s.conns| && s.conns[c].pc.Running? && s.conns[c].pc.todo != []
    requires PeersOpen(s, s.conns[c].pc.todo) && !s.conns[c].pc.todo[0].ToRoom?
    ensures Ran(s, Step(s, Act(c)), c)
  {
    var todo := s.conns[c].pc.todo;
    assert ClientOk(s.conns[c]);
    PerformMoves(s, c, todo[0], todo[1..]);
    PerformKeepsShape(s, c);
    OwnStepOffers(s, Act(c));
  }

  lemma StartBroadcast(s: System, c: Conn, room: Room, frame: Envelope)
    requires Shape(s) && c < |s.conns| && s.conns[c].pc.Running?
    requires s.conns[c].pc.todo != [] && s.conns[c].pc.todo[0] == ToRoom(room, frame)
    ensures var t := Step(s, Act(c));
            && Shape(t) && OnlyMoves(s, t, c)
            && t.conns[c].pc == Delivering(room, frame, Members(s.rooms, room) - {c}, s.conns[c].pc.todo[1..])
            && OfferedTo(s, t, {}, frame)
  {
    var todo := s.conns[c].pc.todo;
    PerformMoves(s, c, todo[0], todo[1..]);
    PerformKeepsShape(s, c);
    OwnStepOffers(s, Act(c));
  }

  lemma EndBroadcast(s: System, c: Conn)
    requires Shape(s) && c < |s.conns| && s.conns[c].pc.Delivering? && s.conns[c].pc.pending == {}
    ensures var t := Step(s, Release(c));
            && Shape(t) && OnlyMoves(s, t, c) && t.conns[c].pc == Running(s.conns[c].pc.rest)
            && forall frame :: OfferedTo(s, t, {}, frame)
  {
    ReleaseKeepsShape(s, c);
    OwnStepOffers(s, Release(c));
  }

  lemma StepsLast(s: System, more: seq<Label>, last: Label)
    ensures Steps(s, more + [last]) == Step(Steps(s, more), last)
  {
    StepsConcat(s, more, [last]);
    StepsFirst(Steps(s, more), last, []);
  }

  /** A step that offers nothing, before or after. */
  lemma OffersAfterNone(s: System, t: System, u: System, c: Conn, audience: set<Conn>, frame: Envelope)
    requires OnlyMoves(s, t, c) && OnlyMoves(t, u, c)
    requires OfferedTo(s, t, {}, frame) && OfferedTo(t, u, audience, frame)
    ensures OfferedTo(s, u, audience, frame)
  {
  }

  lemma OffersBeforeNone(s: System, t: System, u: System, c: Conn, audience: set<Conn>, frame: Envelope)
    requires OnlyMoves(s, t, c) && OnlyMoves(t, u, c)
    requires OfferedTo(s, t, audience, frame) && OfferedTo(t, u, {}, frame)
    ensures OfferedTo(s, u, audience, frame)
  {
  }

  /** A broadcast that has taken its lock runs to its end. */
  lemma FinishBroadcast(t: System, c: Conn, audience: set<Conn>, frame: Envelope, rest: Plan<Conn>)
      returns (more: seq<Label>)
    requires Shape(t) && |t.conns| <= WORD && c < |t.conns| && t.conns[c].pc.Delivering?
    requires t.conns[c].pc.pending == audience && t.conns[c].pc.frame == frame && t.conns[c].pc.rest == rest
    ensures var v := Steps(t, more);
            Shape(v) && OnlyMoves(t, v, c) && v.conns[c].pc == Running(rest) && OfferedTo(t, v, audience, frame)
    ensures forall l :: l in more ==> !l.Connect? && l.c == c
  {
    var deliveries := DeliverAll(t, c);
    var u := Steps(t, deliveries);
    EndBroadcast(u, c);
    var v := Step(u, Release(c));
    more := deliveries + [Release(c)];
    StepsLast(t, deliveries, Release(c));
    MovesCompose(t, u, v, c);
    OffersBeforeNone(t, u, v, c, audience, frame);
  }

  lemma RunBroadcast(s: System, c: Conn) returns (more: seq<Label>)
    requires Shape(s) && |s.conns| <= WORD && c < |s.conns| && s.conns[c].pc.Running?
    requires s.conns[c].pc.todo != [] && s.conns[c].pc.todo[0].ToRoom?
    ensures Ran(s, Steps(s, more), c)
    ensures forall l :: l in more ==> !l.Connect? && l.c == c
  {
    var action, t := s.conns[c].pc.todo[0], Step(s, Act(c));
    StartBroadcast(s, c, action.room, action.frame);
    var rest := FinishBroadcast(t, c, Takes(s, c, action), action.frame, s.conns[c].pc.todo[1..]);
    more := [Act(c)] + rest;
    StepsFirst(s, Act(c), rest);
    MovesCompose(s, t, Steps(t, rest), c);
    OffersAfterNone(s, t, Steps(t, rest), c, Takes(s, c, action), action.frame);
  }

  ghost predicate QueuesAfter(s: System, t: System, c: Conn, plan: Plan<Conn>)
    requires |s.conns| == |t.conns|
  {
    forall r: Conn :: r < |s.conns| && !s.conns[r].closed ==>
      Frames(t.conns[r].queue) == QueueAfter(s.rooms, c, plan, r, Frames(s.conns[r].queue))
  }

  lemma QueuesAddUp(s: System, t: System, u: System, c: Conn, plan: Plan<Conn>)
    requires plan != [] && OnlyMoves(s, t, c) && OnlyMoves(t, u, c)
    requires OfferedTo(s, t, Takes(s, c, plan[0]), plan[0].frame) && QueuesAfter(t, u, c, plan[1..])
    ensures QueuesAfter(s, u, c, plan)
  {
  }

  lemma PeersStayOpen(s: System, t: System, c: Conn, plan: Plan<Conn>)
    requires OnlyMoves(s, t, c) && PeersOpen(s, plan)
    ensures PeersOpen(t, plan)
    ensures plan != [] ==> PeersOpen(t, plan[1..])
  {
  }

  /** A plan left alone runs to its end, and the queues are what `QueueAfter` says. */
  lemma RunPlan(s: System, c: Conn) returns (more: seq<Label>)
    requires Shape(s) && |s.conns| <= WORD && c < |s.conns| && s.conns[c].pc.Running?
    requires PeersOpen(s, s.conns[c].pc.todo)
    ensures var t := Steps(s, more);
            OnlyMoves(s, t, c) && t.conns[c].pc.Idle? && QueuesAfter(s, t, c, s.conns[c].pc.todo)
    ensures forall l :: l in more ==> !l.Connect? && l.c == c
    decreases |s.conns[c].pc.todo|
  {
    var todo := s.conns[c].pc.todo;
    if todo == [] {
      more := [Act(c)];
      assert Steps(s, more) == Goto(s, c, Idle);
    } else {
      var first: seq<Label>;
      if todo[0].ToRoom? {
        first := RunBroadcast(s, c);
      } else {
        RunPush(s, c);
        first := [Act(c)];
        assert Steps(s, first) == Step(s, Act(c));
      }
      var t := Steps(s, first);
      PeersStayOpen(s, t, c, todo);
      var rest := RunPlan(t, c);
      more := first + rest;
      StepsConcat(s, first, rest);
      MovesCompose(s, t, Steps(t, rest), c);
      QueuesAddUp(s, t, Steps(t, rest), c, todo);
    }
  }

  /** What a request that is being handled must lead to. */
  function ResponseIn(s: System, c: Conn): Outcome<Conn>
    requires c < |s.conns| && s.conns[c].pc.Handling?
  {
    var cl := s.conns[c];
    Respond(s.rooms, s.directory, s.limits, c, cl.own, IdOf(c),
            Shown(NameAfter(cl.name, cl.pc.msg), IdOf(c)), cl.pc.msg)
  }

  /** One schedule of every request: if no one else moves once it can act, it ends with the rooms, the record and
      every open queue as `Respond` and `QueueAfter` say. */
  lemma RequestLeftAlone(limits: HubLimits, server: string, run: seq<Label>, c: Conn) returns (more: seq<Label>)
    requires |Exec(limits, server, run).conns| <= WORD
    requires Enabled(Exec(limits, server, run), Act(c)) && Exec(limits, server, run).conns[c].pc.Handling?
    ensures forall l :: l in more ==> !l.Connect? && l.c == c
    ensures var s, t := Exec(limits, server, run), Exec(limits, server, run + more);
            var o := ResponseIn(s, c);
            && |t.conns| == |s.conns| && t.conns[c].pc.Idle?
            && t.rooms == o.rooms && t.directory == s.directory && t.conns[c].own == o.own
            && (forall r: Conn :: r < |s.conns| && !s.conns[r].closed ==>
                  Frames(t.conns[r].queue) == QueueAfter(o.rooms, c, o.plan, r, Frames(s.conns[r].queue)))
            && (forall r: Conn :: r < |s.conns| && r != c ==> t.conns[r].pc == s.conns[r].pc)
  {
    var s := Exec(limits, server, run);
    RunsKeepShape(limits, server, run);
    var t := Step(s, Act(c));
    StepKeepsShape(s, Act(c));
    PlannedPeersOpen(s, c);
    var rest := RunPlan(t, c);
    more := [Act(c)] + rest;
    ExecSteps(limits, server, run, more);
    StepsFirst(s, Act(c), rest);
    forall r: Conn | r < |s.conns| && r != c
      ensures Steps(t, rest).conns[r].pc == s.conns[r].pc
    {
      assert PushedAtMost(t.conns[r], Steps(t, rest).conns[r]);
    }
  }

  lemma OnlyFoundPeers(rooms: Rooms<Conn>, directory: map<string, Conn>, limits: HubLimits, c: Conn, own: Record,
      id: string, from: string, msg: Envelope, i: nat)
    requires var plan := Respond(rooms, directory, limits, c, own, id, from, msg).plan; i < |plan| && plan[i].ToPeer?
    ensures msg.to in directory && Respond(rooms, directory, limits, c, own, id, from, msg).plan[i].peer
            == directory[msg.to]
  {
  }

  lemma PlannedPeersOpen(s: System, c: Conn)
    requires Shape(s) && Enabled(s, Act(c)) && s.conns[c].pc.Handling?
    ensures var t := Step(s, Act(c)); t.conns[c].pc.Running? && PeersOpen(t, t.conns[c].pc.todo)
  {
    var cl, t := s.conns[c], Handle(s, c, s.conns[c].pc.msg);
    var todo := t.conns[c].pc.todo;
    forall i | 0 <= i < |todo| && todo[i].ToPeer?
      ensures todo[i].peer < |t.conns| && !t.conns[todo[i].peer].closed
    {
      OnlyFoundPeers(s.rooms, s.directory, s.limits, c, cl.own, IdOf(c),
          Shown(NameAfter(cl.name, cl.pc.msg), IdOf(c)), cl.pc.msg, i);
      assert ClientOk(s.conns[todo[i].peer]);
    }
  }
}
