/** Runs of the relay that show what interleaving can do. */
module RelayRuns {
  import opened Protocol
  import opened Membership
  import opened Routes
  import opened RelaySystem
  import opened RelayShape
  import opened RelayHistory
  import opened RelayOrder
  import opened RelaySchedules

  // ---- What interleaving can do ----

  /** Two broadcasts reach the same receiver, one right after the other. */
  ghost predicate BothReached(s: System, t: System, c: Conn, d: Conn, q: Conn)
    requires c < |s.conns| && d < |s.conns| && s.conns[c].pc.Delivering? && s.conns[d].pc.Delivering?
  {
    && |t.conns| == |s.conns|
    && t.conns[c].pc == s.conns[c].pc.(pending := s.conns[c].pc.pending - {q})
    && t.conns[d].pc == s.conns[d].pc.(pending := s.conns[d].pc.pending - {q})
    && forall i: Conn :: i < |s.conns| && !s.conns[i].closed ==>
         && !t.conns[i].closed
         && Frames(t.conns[i].queue)
            == OfferIf(i == q, OfferIf(i == q, Frames(s.conns[i].queue), s.conns[c].pc.frame), s.conns[d].pc.frame)
  }

  lemma ReachBoth(s: System, c: Conn, d: Conn, q: Conn)
    requires Shape(s) && |s.conns| <= WORD && c < |s.conns| && d < |s.conns| && c != d
    requires s.conns[c].pc.Delivering? && s.conns[d].pc.Delivering?
    requires q in s.conns[c].pc.pending && q in s.conns[d].pc.pending
    ensures var t := Step(Step(s, DeliverTo(c, q)), DeliverTo(d, q)); Shape(t) && BothReached(s, t, c, d, q)
  {
    var t := Step(s, DeliverTo(c, q));
    DeliverOne(s, c, q);
    assert PushedAtMost(s.conns[d], t.conns[d]);
    var u := Step(t, DeliverTo(d, q));
    DeliverOne(t, d, q);
    assert PushedAtMost(t.conns[c], u.conns[c]);
    OneAfterOther(s, t, u, c, d, q, s.conns[c].pc.frame, s.conns[d].pc.frame);
  }

  lemma OneAfterOther(s: System, t: System, u: System, c: Conn, d: Conn, q: Conn, f: Envelope, g: Envelope)
    requires OnlyMoves(s, t, c) && OnlyMoves(t, u, d) && OfferedTo(s, t, {q}, f) && OfferedTo(t, u, {q}, g)
    ensures forall i: Conn :: i < |s.conns| && !s.conns[i].closed ==>
              && !u.conns[i].closed
              && Frames(u.conns[i].queue) == OfferIf(i == q, OfferIf(i == q, Frames(s.conns[i].queue), f), g)
  {
  }

  /** Two broadcasts at once hold the read lock together, and two receivers may see them in opposite orders. */
  lemma OrderIsPerSender(limits: HubLimits, server: string, run: seq<Label>, c: Conn, d: Conn, q: Conn, r: Conn)
    requires |Exec(limits, server, run).conns| <= WORD
    requires c < |Exec(limits, server, run).conns| && d < |Exec(limits, server, run).conns| && c != d && q != r
    requires Exec(limits, server, run).conns[c].pc.Delivering? && Exec(limits, server, run).conns[d].pc.Delivering?
    requires {q, r} <= Exec(limits, server, run).conns[c].pc.pending * Exec(limits, server, run).conns[d].pc.pending
    ensures var s := Exec(limits, server, run);
            var t := Exec(limits, server, run + [DeliverTo(c, q), DeliverTo(d, q), DeliverTo(d, r), DeliverTo(c, r)]);
            var f, g := s.conns[c].pc.frame, s.conns[d].pc.frame;
            && q < |s.conns| && r < |s.conns| && |t.conns| == |s.conns|
            && Frames(t.conns[q].queue) == Offer(Offer(Frames(s.conns[q].queue), f), g)
            && Frames(t.conns[r].queue) == Offer(Offer(Frames(s.conns[r].queue), g), f)
  {
    var s := Exec(limits, server, run);
    RunsKeepShape(limits, server, run);
    PendingIsOpen(s, c, q);
    PendingIsOpen(s, c, r);
    ReachBoth(s, c, d, q);
    ReachBoth(Step(Step(s, DeliverTo(c, q)), DeliverTo(d, q)), d, c, r);
    FourSteps(limits, server, run, DeliverTo(c, q), DeliverTo(d, q), DeliverTo(d, r), DeliverTo(c, r));
  }

  /** An idle connection's teardown, with nobody inside a broadcast. */
  lemma Teardown(s: System, c: Conn, p: Conn)
    requires c < |s.conns| && p < |s.conns| && c != p && s.conns[p].pc.Idle? && NoReaders(s) && IdOf(p) in s.directory
    ensures var t := Step(Step(Step(s, HangUp(p)), LeaveAll(p)), Unregister(p));
            && |t.conns| == |s.conns| && t.conns[c] == s.conns[c]
            && t.conns[p].pc == Gone && t.conns[p].closed
            && t.conns[p].attempts == s.conns[p].attempts && t.conns[p].taken == s.conns[p].taken
  {
  }

  lemma PushToClosed(s: System, c: Conn, p: Conn)
    requires c < |s.conns| && p < |s.conns| && c != p && s.conns[c].pc.Running? && s.conns[c].pc.todo != []
    requires s.conns[c].pc.todo[0].ToPeer? && s.conns[c].pc.todo[0].peer == p && s.conns[p].closed
    ensures var t := Step(s, Act(c));
            && |t.conns| == |s.conns| && t.conns[c].pc.Closing? && t.conns[p].pc == s.conns[p].pc
            && t.conns[p].attempts ==
               s.conns[p].attempts
               + [Attempt(Entry(c, |s.conns[c].issued|, s.conns[c].pc.todo[0].frame), Refused, |s.conns[p].taken|)]
  {
  }

  /** A whisper's lookup is not its push: an idle peer can hang up in between, and the push then fails and ends
      the sender's read loop too. */
  lemma PeerMayLeaveFirst(limits: HubLimits, server: string, run: seq<Label>, c: Conn, p: Conn)
    requires |Exec(limits, server, run).conns| <= WORD && NoReaders(Exec(limits, server, run))
    requires c < |Exec(limits, server, run).conns| && p < |Exec(limits, server, run).conns| && c != p
    requires Exec(limits, server, run).conns[p].pc.Idle? && Exec(limits, server, run).conns[c].pc.Running?
    requires Exec(limits, server, run).conns[c].pc.todo != [] && Exec(limits, server, run).conns[c].pc.todo[0].ToPeer?
    requires Exec(limits, server, run).conns[c].pc.todo[0].peer == p
    ensures var s := Exec(limits, server, run);
            var t := Exec(limits, server, run + [HangUp(p), LeaveAll(p), Unregister(p), Act(c)]);
            && |t.conns| == |s.conns| && t.conns[c].pc.Closing? && t.conns[p].pc.Gone?
            && t.conns[p].attempts ==
               s.conns[p].attempts
               + [Attempt(Entry(c, |s.conns[c].issued|, s.conns[c].pc.todo[0].frame), Refused, |s.conns[p].taken|)]
  {
    var s := Exec(limits, server, run);
    RunsKeepShape(limits, server, run);
    FourSteps(limits, server, run, HangUp(p), LeaveAll(p), Unregister(p), Act(c));
    Teardown(s, c, p);
    PushToClosed(Step(Step(Step(s, HangUp(p)), LeaveAll(p)), Unregister(p)), c, p);
  }

  // ---- Two short runs ----

  function Greeting(): seq<Label> {
    [] + [Connect, Connect, Register(0), Welcome(0)]
  }

  function Whispering(msg: Envelope): seq<Label> {
    Greeting() + [Register(1), Receive(0, msg), Act(0), Act(0)]
  }

  ghost predicate FirstIdle(s: System) {
    && |s.conns| == 2 && s.conns[0].pc == Idle && s.conns[0].name == "" && s.conns[1] == Connected(s).conns[2]
  }

  lemma GreetingRun(limits: HubLimits, server: string)
    ensures FirstIdle(Exec(limits, server, Greeting()))
  {
    var s2 := Connected(Connected(Init(limits, server)));
    FourSteps(limits, server, [], Connect, Connect, Register(0), Welcome(0));
    assert NoReaders(s2);
    var s3 := Entered(s2, 0);
    assert Step(s2, Register(0)) == s3;
    assert Step(s3, Welcome(0)) == Welcomed(s3, 0);
  }

  /** The first of two connections whispers to the second, which has not been welcomed. */
  lemma WhisperSteps(s: System, msg: Envelope)
    requires FirstIdle(s) && msg.typ == "whisper" && msg.to == IdOf(1)
    ensures var t := Step(Step(Step(s, Register(1)), Receive(0, msg)), Act(0));
            var frame := WhisperFrame(IdOf(0), IdOf(0), msg);
            && |t.conns| == 2 && NoReaders(t)
            && t.conns[0].pc == Running([ToPeer(1, frame), ToSelf(frame)])
            && t.conns[1] == Connected(s).conns[2].(pc := Registered)
  {
    assert NoReaders(s);
    var s5 := Entered(s, 1);
    assert Step(s, Register(1)) == s5;
    var s6 := Goto(s5, 0, Handling(msg));
    assert Step(s5, Receive(0, msg)) == s6;
    assert IdOf(1) in s6.directory && s6.directory[IdOf(1)] == 1;
    assert Step(s6, Act(0)) == Handle(s6, 0, msg);
    assert Dispatch(msg, IdOf(0)) == FindPeer;
  }

  /** A whisper can be the first frame in a queue, ahead of the welcome. */
  lemma WhisperBeforeWelcome(limits: HubLimits, server: string, msg: Envelope)
    requires msg.typ == "whisper" && msg.to == IdOf(1)
    ensures var s := Exec(limits, server, Whispering(msg));
            && |s.conns| == 2 && s.conns[1].pc == Registered
            && Frames(s.conns[1].queue) == [WhisperFrame(IdOf(0), IdOf(0), msg)]
  {
    GreetingRun(limits, server);
    var s := Exec(limits, server, Greeting());
    WhisperSteps(s, msg);
    FourSteps(limits, server, Greeting(), Register(1), Receive(0, msg), Act(0), Act(0));
    var t := Step(Step(Step(s, Register(1)), Receive(0, msg)), Act(0));
    QueuesChange(t, Act(0), 1);
  }

  function Refusing(msg: Envelope): seq<Label> {
    Greeting() + [Register(1), Receive(0, msg), Act(0), Welcome(1)] + [HangUp(1), LeaveAll(1), Unregister(1), Act(0)]
  }

  /** And a whisper can find its peer's queue closed, so the exception that `RefusedExactly` makes is a real one. */
  lemma WhisperIsRefused(limits: HubLimits, server: string, msg: Envelope)
    requires msg.typ == "whisper" && msg.to == IdOf(1)
    ensures var s := Exec(limits, server, Refusing(msg));
            && |s.conns| == 2 && s.conns[0].pc.Closing? && s.conns[1].pc.Gone?
            && |s.conns[1].attempts| == 2
            && s.conns[1].attempts[1].entry.frame == WhisperFrame(IdOf(0), IdOf(0), msg)
               && s.conns[1].attempts[1].fate == Refused
  {
    GreetingRun(limits, server);
    var s := Exec(limits, server, Greeting());
    WhisperSteps(s, msg);
    FourSteps(limits, server, Greeting(), Register(1), Receive(0, msg), Act(0), Welcome(1));
    var t := Step(Step(Step(s, Register(1)), Receive(0, msg)), Act(0));
    assert Step(t, Welcome(1)) == Welcomed(t, 1);
    PeerMayLeaveFirst(limits, server, Greeting() + [Register(1), Receive(0, msg), Act(0), Welcome(1)], 0, 1);
  }

  // ---- Four connections in one area ----

  /** No limits. */
  const OPEN := HubLimits(Limits(0, 0), Limits(0, 0))

  ghost predicate AllIdle(s: System) {
    forall i :: 0 <= i < |s.conns| ==> s.conns[i].pc == Idle
  }

  lemma {:induction false} LimitsNamed(limits: HubLimits, server: string, run: seq<Label>)
    ensures Exec(limits, server, run).limits == limits
  {
    if run != [] {
      LimitsNamed(limits, server, run[..|run| - 1]);
      LimitsStay(Exec(limits, server, run[..|run| - 1]), run[|run| - 1]);
    }
  }

  lemma LimitsStay(s: System, l: Label)
    ensures Step(s, l).limits == s.limits
  {
  }

  /** One more connection arrives. */
  lemma Arrive(server: string, run: seq<Label>) returns (next: seq<Label>)
    requires AllIdle(Exec(OPEN, server, run))
    ensures var s, t := Exec(OPEN, server, run), Exec(OPEN, server, next);
            AllIdle(t) && |t.conns| == |s.conns| + 1 && t.rooms == s.rooms
  {
    var s := Exec(OPEN, server, run);
    var k := |s.conns|;
    next := run + [Connect] + [Register(k)] + [Welcome(k)];
    ExecAppend(OPEN, server, run, Connect);
    ExecAppend(OPEN, server, run + [Connect], Register(k));
    ExecAppend(OPEN, server, run + [Connect] + [Register(k)], Welcome(k));
    ArriveSteps(s);
  }

  lemma ArriveSteps(s: System)
    requires AllIdle(s)
    ensures var k := |s.conns|;
            var t := Step(Step(Step(s, Connect), Register(k)), Welcome(k));
            AllIdle(t) && |t.conns| == k + 1 && t.rooms == s.rooms
  {
    var k := |s.conns|;
    var s1 := Step(s, Connect);
    assert NoReaders(s1);
    var s2 := Step(s1, Register(k));
    assert s2 == Entered(s1, k);
    var s3 := Step(s2, Welcome(k));
    assert s3 == Welcomed(s2, k);
  }

  function Joining(area: string): Envelope {
    BLANK.(typ := "join", target := area)
  }

  /** The members of an area once `c` has joined `area`. */
  function MembersWith(rooms: Rooms<Conn>, area: string, c: Conn, other: string): set<Conn> {
    Members(rooms, Area(other)) + if other == area then {c} else {}
  }

  /** A connection joins an area, and everyone else waits. */
  lemma JoinUp(server: string, run: seq<Label>, c: Conn, area: string) returns (next: seq<Label>)
    requires AllIdle(Exec(OPEN, server, run)) && |Exec(OPEN, server, run).conns| <= WORD
    requires c < |Exec(OPEN, server, run).conns| && area != ""
    ensures var s, t := Exec(OPEN, server, run), Exec(OPEN, server, next);
            && AllIdle(t) && |t.conns| == |s.conns|
            && forall other: string :: Members(t.rooms, Area(other)) == MembersWith(s.rooms, area, c, other)
  {
    var s := Exec(OPEN, server, run);
    var received := run + [Receive(c, Joining(area))];
    ExecAppend(OPEN, server, run, Receive(c, Joining(area)));
    var s1 := Step(s, Receive(c, Joining(area)));
    assert s1 == Goto(s, c, Handling(Joining(area)));
    assert NoReaders(s1);
    LimitsNamed(OPEN, server, run);
    var more := RequestLeftAlone(OPEN, server, received, c);
    next := received + more;
    JoiningResponse(s1, c, area);
  }

  lemma JoiningResponse(s: System, c: Conn, area: string)
    requires c < |s.conns| && s.conns[c].pc == Handling(Joining(area)) && s.limits == OPEN && area != ""
    ensures forall other: string ::
              Members(ResponseIn(s, c).rooms, Area(other)) == MembersWith(s.rooms, area, c, other)
  {
    assert Dispatch(Joining(area), IdOf(c)) == JoinRoom(AreaRef(area));
    assert JoinError(s.rooms, s.limits, AreaRef(area), c) == "";
    forall other: string
      ensures Members(ResponseIn(s, c).rooms, Area(other)) == MembersWith(s.rooms, area, c, other)
    {
      JoinMembers(s.rooms, s.limits, AreaRef(area), c, Area(other));
    }
  }

  /** A connection's writer empties its queue. */
  lemma {:induction false} Drain(server: string, run: seq<Label>, c: Conn) returns (next: seq<Label>)
    requires AllIdle(Exec(OPEN, server, run)) && c < |Exec(OPEN, server, run).conns|
    ensures var s, t := Exec(OPEN, server, run), Exec(OPEN, server, next);
            && AllIdle(t) && |t.conns| == |s.conns| && t.rooms == s.rooms && t.conns[c].queue == []
            && forall i :: 0 <= i < |s.conns| && i != c ==> t.conns[i].queue == s.conns[i].queue
    decreases |Exec(OPEN, server, run).conns[c].queue|
  {
    var s := Exec(OPEN, server, run);
    if s.conns[c].queue == [] {
      next := run;
    } else {
      ExecAppend(OPEN, server, run, Dequeue(c));
      assert Step(s, Dequeue(c)) == Dequeued(s, c);
      next := Drain(server, run + [Dequeue(c)], c);
    }
  }

  /** Four connections are members of an area, all idle, and three of them have nothing queued. */
  ghost predicate Gathered(s: System, area: string) {
    && |s.conns| == 4 && AllIdle(s) && Members(s.rooms, Area(area)) == {0, 1, 2, 3}
    && s.conns[1].queue == [] && s.conns[2].queue == [] && s.conns[3].queue == []
  }

  lemma Gather(server: string, area: string) returns (run: seq<Label>)
    requires area != ""
    ensures Gathered(Exec(OPEN, server, run), area)
  {
    run := Arrive(server, []);
    run := Arrive(server, run);
    run := Arrive(server, run);
    run := Arrive(server, run);
    assert Members(Exec(OPEN, server, run).rooms, Area(area)) == {};
    run := JoinUp(server, run, 0, area);
    run := JoinUp(server, run, 1, area);
    run := JoinUp(server, run, 2, area);
    run := JoinUp(server, run, 3, area);
    assert Members(Exec(OPEN, server, run).rooms, Area(area)) == {0, 1, 2, 3};
    run := Drain(server, run, 1);
    run := Drain(server, run, 2);
    run := Drain(server, run, 3);
  }

  // ---- An answer that overtakes what it answers ----

  function Saying(area: string, text: string): Envelope {
    BLANK.(typ := "send", target := area, payload := Raw(text, None, None))
  }

  function Said(s: System, c: Conn, area: string, text: string): Envelope
    requires c < |s.conns|
  {
    MessageFrame(AreaRef(area), IdOf(c), Shown(s.conns[c].name, IdOf(c)), Saying(area, text))
  }

  /** An idle member takes a message to send, checks its membership and takes the read lock. */
  function StartSend(c: Conn, msg: Envelope): seq<Label> {
    [Receive(c, msg), Act(c), Act(c)]
  }

  ghost predicate CanSend(s: System, c: Conn, area: string, msg: Envelope, frame: Envelope) {
    && c < |s.conns| && s.conns[c].pc == Idle && area in s.conns[c].own.areas && area != ""
    && msg.typ == "send" && msg.scope == "" && msg.target == area
    && frame == MessageFrame(AreaRef(area), IdOf(c), Shown(s.conns[c].name, IdOf(c)), msg)
  }

  lemma SendChecks(s: System, c: Conn, area: string, msg: Envelope, frame: Envelope)
    requires CanSend(s, c, area, msg, frame)
    ensures Step(Step(s, Receive(c, msg)), Act(c)) == Goto(s, c, Running([ToRoom(Area(area), frame), ToSelf(frame)]))
  {
    var s1 := Goto(s, c, Handling(msg));
    assert Step(s, Receive(c, msg)) == s1;
    assert Dispatch(msg, IdOf(c)) == CheckRoom(AreaRef(area));
    assert Step(s1, Act(c)) == Handle(s1, c, msg);
  }

  lemma BroadcastStarts(s: System, c: Conn, room: Room, frame: Envelope, rest: Plan<Conn>)
    requires c < |s.conns| && s.conns[c].pc == Running([ToRoom(room, frame)] + rest)
    ensures var t := Step(s, Act(c));
            && OnlyMoves(s, t, c) && t.conns[c].pc == Delivering(room, frame, Members(s.rooms, room) - {c}, rest)
            && forall i :: 0 <= i < |s.conns| ==>
               t.conns[i].queue == s.conns[i].queue && t.conns[i].name == s.conns[i].name
  {
    assert ([ToRoom(room, frame)] + rest)[1..] == rest;
  }

  lemma GotoMoves(s: System, c: Conn, pc: Pc)
    requires c < |s.conns| && SameStanding(s.conns[c], s.conns[c].(pc := pc))
    ensures OnlyMoves(s, Goto(s, c, pc), c)
  {
  }

  lemma ThreeSteps(s: System, a: Label, b: Label, c: Label)
    ensures Steps(s, [a, b, c]) == Step(Step(Step(s, a), b), c)
  {
    StepsFirst(s, a, [b, c]);
    StepsFirst(Step(s, a), b, [c]);
    StepsFirst(Step(Step(s, a), b), c, []);
    assert [a] + [b, c] == [a, b, c] && [b] + [c] == [b, c] && [c] + [] == [c];
  }

  /** What a send has come to when it has taken the read lock. */
  ghost predicate Sending(s: System, t: System, c: Conn, area: string, frame: Envelope) {
    && OnlyMoves(s, t, c) && t.conns[c].pc.Delivering?
    && t.conns[c].pc.frame == frame && t.conns[c].pc.pending == Members(s.rooms, Area(area)) - {c}
    && forall i :: 0 <= i < |s.conns| ==> t.conns[i].queue == s.conns[i].queue && t.conns[i].name == s.conns[i].name
  }

  lemma SendStarts(s: System, c: Conn, area: string, msg: Envelope, frame: Envelope)
    requires CanSend(s, c, area, msg, frame)
    ensures Sending(s, Steps(s, StartSend(c, msg)), c, area, frame)
  {
    var echo: Plan<Conn> := [ToSelf(frame)];
    var pc := Running([ToRoom(Area(area), frame), ToSelf(frame)]);
    ThreeSteps(s, Receive(c, msg), Act(c), Act(c));
    SendChecks(s, c, area, msg, frame);
    assert pc == Running([ToRoom(Area(area), frame)] + echo);
    BroadcastStarts(Goto(s, c, pc), c, Area(area), frame, echo);
    SendingFrom(s, pc, Step(Goto(s, c, pc), Act(c)), c, area, frame);
  }

  lemma SendingFrom(s: System, pc: Pc, t: System, c: Conn, area: string, frame: Envelope)
    requires c < |s.conns| && s.conns[c].pc == Idle && pc.Running? && Sending(Goto(s, c, pc), t, c, area, frame)
    ensures Sending(s, t, c, area, frame)
  {
    GotoMoves(s, c, pc);
    MovesCompose(s, Goto(s, c, pc), t, c);
  }

  lemma CanSay(s: System, c: Conn, area: string, text: string)
    requires Shape(s) && c < |s.conns| && s.conns[c].pc == Idle && c in Members(s.rooms, Area(area)) && area != ""
    ensures CanSend(s, c, area, Saying(area, text), Said(s, c, area, text))
  {
    TwoSides(s, c, Area(area));
  }

  /** The first of the gathered sends, and its message reaches the second, which takes it from its queue. */
  function FirstHears(area: string): seq<Label> {
    StartSend(0, Saying(area, "question")) + [DeliverTo(0, 1), Dequeue(1)]
  }

  /** The second answers, and the answer reaches the last of them before the question does. */
  function ThenAnswers(area: string): seq<Label> {
    StartSend(1, Saying(area, "answer")) + [DeliverTo(0, 2), DeliverTo(1, 2), DeliverTo(1, 3), DeliverTo(0, 3)]
  }

  /** A member has dequeued a message, and answers it; of two others, one gets the message and then the answer, the
      other the answer and then the message. */
  lemma AnswerOvertakes(server: string, area: string) returns (run: seq<Label>)
    requires area != ""
    ensures Gathered(Exec(OPEN, server, run), area)
    ensures var s := Exec(OPEN, server, run);
            var mid := Exec(OPEN, server, run + FirstHears(area));
            var t := Exec(OPEN, server, run + FirstHears(area) + ThenAnswers(area));
            var question, answer := Said(s, 0, area, "question"), Said(s, 1, area, "answer");
            && question != answer
            && |mid.conns| == 4 && mid.conns[1].pc == Idle && mid.conns[1].taken != []
            && mid.conns[1].taken[|mid.conns[1].taken| - 1].frame == question
            && |t.conns| == 4
            && Frames(t.conns[2].queue) == [question, answer] && Frames(t.conns[3].queue) == [answer, question]
  {
    run := Gather(server, area);
    var s := Exec(OPEN, server, run);
    FirstHeard(server, run, area);
    ThenAnswered(server, run + FirstHears(area), area);
  }

  /** The first is still broadcasting, to the last two. */
  ghost predicate Heard(s: System, mid: System, area: string)
    requires |s.conns| == 4
  {
    && |mid.conns| == 4 && mid.conns[1].pc == Idle && mid.conns[1].name == s.conns[1].name
    && Members(mid.rooms, Area(area)) == {0, 1, 2, 3}
    && mid.conns[0].pc.Delivering? && mid.conns[0].pc.pending == {2, 3}
    && mid.conns[0].pc.frame == Said(s, 0, area, "question")
    && mid.conns[2].queue == [] && mid.conns[3].queue == []
    && mid.conns[1].taken != [] && mid.conns[1].taken[|mid.conns[1].taken| - 1].frame == Said(s, 0, area, "question")
  }

  lemma AppendTwo(limits: HubLimits, server: string, run: seq<Label>, send: seq<Label>, a: Label, b: Label)
    ensures Exec(limits, server, run + (send + [a, b])) == Step(Step(Exec(limits, server, run + send), a), b)
  {
    ExecAppend(limits, server, run + send, a);
    ExecAppend(limits, server, run + send + [a], b);
    assert run + (send + [a, b]) == run + send + [a] + [b];
  }

  /** A member among idle connections starts to send. */
  lemma Says(server: string, run: seq<Label>, c: Conn, area: string, text: string)
    requires |Exec(OPEN, server, run).conns| <= WORD && c < |Exec(OPEN, server, run).conns| && area != ""
    requires Exec(OPEN, server, run).conns[c].pc == Idle && c in Members(Exec(OPEN, server, run).rooms, Area(area))
    ensures var s := Exec(OPEN, server, run);
            Sending(s, Exec(OPEN, server, run + StartSend(c, Saying(area, text))), c, area, Said(s, c, area, text))
  {
    var s := Exec(OPEN, server, run);
    RunsKeepShape(OPEN, server, run);
    ExecSteps(OPEN, server, run, StartSend(c, Saying(area, text)));
    CanSay(s, c, area, text);
    SendStarts(s, c, area, Saying(area, text), Said(s, c, area, text));
  }

  lemma IsOpenSender(limits: HubLimits, server: string, run: seq<Label>, c: Conn, i: Conn)
    requires |Exec(limits, server, run).conns| <= WORD
    requires c < |Exec(limits, server, run).conns| && i < |Exec(limits, server, run).conns|
    requires Exec(limits, server, run).conns[c].pc.Delivering? && Exec(limits, server, run).conns[i].pc == Idle
    ensures Exec(limits, server, run).conns[c].issued != [] && !Exec(limits, server, run).conns[i].closed
  {
    RunsKeepShape(limits, server, run);
    assert PcOk(Exec(limits, server, run), c) && ClientOk(Exec(limits, server, run).conns[i]);
  }

  lemma FirstHeard(server: string, run: seq<Label>, area: string)
    requires Gathered(Exec(OPEN, server, run), area) && area != ""
    ensures Heard(Exec(OPEN, server, run), Exec(OPEN, server, run + FirstHears(area)), area)
  {
    var s, send := Exec(OPEN, server, run), StartSend(0, Saying(area, "question"));
    Says(server, run, 0, area, "question");
    AppendTwo(OPEN, server, run, send, DeliverTo(0, 1), Dequeue(1));
    SendingToThree(s, Exec(OPEN, server, run + send), area, Said(s, 0, area, "question"));
    IsOpenSender(OPEN, server, run + send, 0, 1);
    HeardSteps(Exec(OPEN, server, run + send), Said(s, 0, area, "question"));
  }

  lemma SendingToThree(s: System, t: System, area: string, frame: Envelope)
    requires Gathered(s, area) && Sending(s, t, 0, area, frame)
    ensures |t.conns| == 4 && t.rooms == s.rooms && t.conns[0].pc.pending == {1, 2, 3}
    ensures t.conns[1].pc == Idle && t.conns[1].queue == [] && t.conns[2].queue == [] && t.conns[3].queue == []
    ensures t.conns[1].name == s.conns[1].name
  {
    assert {0, 1, 2, 3} - {0} == {1, 2, 3};
    assert PushedAtMost(s.conns[1], t.conns[1]);
  }

  lemma HeardDelivery(s: System, frame: Envelope)
    requires |s.conns| == 4 && s.conns[0].pc.Delivering? && s.conns[0].pc.frame == frame && s.conns[0].issued != []
    requires s.conns[0].pc.pending == {1, 2, 3} && s.conns[1].pc == Idle && s.conns[1].queue == [] && !s.conns[1].closed
    ensures var t := Step(s, DeliverTo(0, 1));
            && |t.conns| == 4 && t.rooms == s.rooms
            && t.conns[0].pc == s.conns[0].pc.(pending := {2, 3})
            && t.conns[1].pc == Idle && t.conns[1].name == s.conns[1].name
            && t.conns[1].queue == [Entry(0, |s.conns[0].issued| - 1, frame)]
            && t.conns[2] == s.conns[2] && t.conns[3] == s.conns[3]
  {
    assert Step(s, DeliverTo(0, 1)) == Deliver(s, 0, 1);
    assert {1, 2, 3} - {1} == {2, 3};
  }

  lemma HeardSteps(s: System, frame: Envelope)
    requires |s.conns| == 4 && s.conns[0].pc.Delivering? && s.conns[0].pc.frame == frame && s.conns[0].issued != []
    requires s.conns[0].pc.pending == {1, 2, 3} && s.conns[1].pc == Idle && s.conns[1].queue == [] && !s.conns[1].closed
    ensures var t := Step(Step(s, DeliverTo(0, 1)), Dequeue(1));
            && |t.conns| == 4 && t.rooms == s.rooms
            && t.conns[0].pc == s.conns[0].pc.(pending := {2, 3})
            && t.conns[1].pc == Idle && t.conns[1].name == s.conns[1].name
            && t.conns[1].taken != [] && t.conns[1].taken[|t.conns[1].taken| - 1].frame == frame
            && t.conns[2] == s.conns[2] && t.conns[3] == s.conns[3]
  {
    HeardDelivery(s, frame);
    assert Step(Step(s, DeliverTo(0, 1)), Dequeue(1)) == Dequeued(Step(s, DeliverTo(0, 1)), 1);
  }

  lemma ThenAnswered(server: string, run: seq<Label>, area: string)
    requires var mid := Exec(OPEN, server, run);
             && |mid.conns| == 4 && mid.conns[1].pc == Idle && Members(mid.rooms, Area(area)) == {0, 1, 2, 3}
             && mid.conns[0].pc.Delivering? && mid.conns[0].pc.pending == {2, 3}
             && mid.conns[2].queue == [] && mid.conns[3].queue == []
    requires area != ""
    ensures var mid, t := Exec(OPEN, server, run), Exec(OPEN, server, run + ThenAnswers(area));
            var f, g := mid.conns[0].pc.frame, Said(mid, 1, area, "answer");
            |t.conns| == 4 && Frames(t.conns[2].queue) == [f, g] && Frames(t.conns[3].queue) == [g, f]
  {
    var mid, send := Exec(OPEN, server, run), StartSend(1, Saying(area, "answer"));
    Says(server, run, 1, area, "answer");
    SendingMeanwhile(mid, Exec(OPEN, server, run + send), area, Said(mid, 1, area, "answer"));
    BothHear(server, run, send);
  }

  lemma BothHear(server: string, run: seq<Label>, send: seq<Label>)
    requires var s := Exec(OPEN, server, run + send);
             && |s.conns| == 4 && s.conns[0].pc.Delivering? && s.conns[1].pc.Delivering?
             && {2, 3} <= s.conns[0].pc.pending && {2, 3} <= s.conns[1].pc.pending
             && s.conns[2].queue == [] && s.conns[3].queue == []
    ensures var s := Exec(OPEN, server, run + send);
            var t := Exec(OPEN, server, run
                + (send + [DeliverTo(0, 2), DeliverTo(1, 2), DeliverTo(1, 3), DeliverTo(0, 3)]));
            var f, g := s.conns[0].pc.frame, s.conns[1].pc.frame;
            |t.conns| == 4 && Frames(t.conns[2].queue) == [f, g] && Frames(t.conns[3].queue) == [g, f]
  {
    OrderIsPerSender(OPEN, server, run + send, 0, 1, 2, 3);
    var four := [DeliverTo(0, 2), DeliverTo(1, 2), DeliverTo(1, 3), DeliverTo(0, 3)];
    assert run + (send + four) == run + send + four;
  }

  lemma SendingMeanwhile(mid: System, t: System, area: string, frame: Envelope)
    requires |mid.conns| == 4 && Members(mid.rooms, Area(area)) == {0, 1, 2, 3} && Sending(mid, t, 1, area, frame)
    ensures |t.conns| == 4 && t.conns[0].pc == mid.conns[0].pc
    ensures t.conns[1].pc.Delivering? && t.conns[1].pc.frame == frame && {2, 3} <= t.conns[1].pc.pending
    ensures t.conns[2].queue == mid.conns[2].queue && t.conns[3].queue == mid.conns[3].queue
  {
    assert PushedAtMost(mid.conns[0], t.conns[0]);
  }
}
