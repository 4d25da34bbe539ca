/** What one request comes to, whatever the other connections do meanwhile. */
module RelayRequests {
  import opened Protocol
  import opened Membership
  import opened Routes
  import opened RelaySystem
  import opened RelayShape
  import opened RelayHistory
  import opened RelayOrder
  import opened RelaySchedules
  import opened RelayPrecedence

  /** Connection `c` is done with its request, or about to be, and starts no other. */
  predicate IsNewBusiness(l: Label, c: Conn) {
    (l.Receive? || l.ReceiveGarbage? || l.HangUp?) && l.c == c
  }

  // ---- A join that is refused ----

  /** Since its record was `own` and its issues were `issued`, all that `c` has done is to push `error` at itself,
      or it still has to. */
  ghost predicate OnlyAnswers(t: System, c: Conn, own: Record, issued: seq<Issue>, error: Envelope) {
    && c < |t.conns| && t.conns[c].own == own
    && if t.conns[c].pc == Running([ToSelf(error)]) then t.conns[c].issued == issued
       else
         && (t.conns[c].pc == Running([]) || t.conns[c].pc == Idle)
         && t.conns[c].issued == issued + [Issue(error, {c}, {c})]
  }

  lemma OthersKeepRecord(s: System, l: Label, i: Conn)
    requires Enabled(s, l) && i < |s.conns| && (l.Connect? || i != l.c)
    ensures Apply(s, l).conns[i].own == s.conns[i].own
  {
  }

  lemma AnswerPush(s: System, c: Conn, error: Envelope)
    requires c < |s.conns| && s.conns[c].pc == Running([ToSelf(error)]) && !s.conns[c].closed
    ensures var cl := Step(s, Act(c)).conns[c];
            && |Step(s, Act(c)).conns| == |s.conns| && cl.pc == Running([]) && cl.own == s.conns[c].own
            && cl.issued == s.conns[c].issued + [Issue(error, {c}, {c})]
  {
    var todo: Plan<Conn> := [ToSelf(error)];
    assert todo[1..] == [];
  }

  lemma OnlyAnswersStays(s: System, l: Label, c: Conn, own: Record, issued: seq<Issue>, error: Envelope)
    requires Shape(s) && OnlyAnswers(s, c, own, issued, error) && !IsNewBusiness(l, c)
    ensures OnlyAnswers(Step(s, l), c, own, issued, error)
  {
    if !Enabled(s, l) {
    } else if l.Connect? || l.c != c {
      if l.DeliverTo? {
        PendingIsOpen(s, l.c, l.r);
      }
      OthersIssue(s, l, c);
      OthersKeepRecord(s, l, c);
      ConnectionsGrow(s, l);
    } else if l.Act? && s.conns[c].pc == Running([ToSelf(error)]) {
      assert ClientOk(s.conns[c]);
      AnswerPush(s, c, error);
    }
  }

  lemma {:induction false} OnlyAnswersOn(s: System, more: seq<Label>, c: Conn, own: Record, issued: seq<Issue>,
      error: Envelope)
    requires Shape(s) && |Steps(s, more).conns| <= WORD && OnlyAnswers(s, c, own, issued, error)
    requires forall l :: l in more ==> !IsNewBusiness(l, c)
    ensures Shape(Steps(s, more)) && OnlyAnswers(Steps(s, more), c, own, issued, error)
    decreases |more|
  {
    if more != [] {
      StepsGrow(Step(s, more[0]), more[1..]);
      ConnectionsGrow(s, more[0]);
      StepKeepsShape(s, more[0]);
      OnlyAnswersStays(s, more[0], c, own, issued, error);
      OnlyAnswersOn(Step(s, more[0]), more[1..], c, own, issued, error);
    }
  }

  /** A join that the hub refuses changes nothing, up to its end and in every interleaving, except that the error is
      pushed at its sender: the rooms stay as they were, and so does every membership of the sender. */
  lemma RefusedJoinOnlyAnswers(limits: HubLimits, server: string, run: seq<Label>, c: Conn, ref: RoomRef,
      more: seq<Label>)
    requires |Exec(limits, server, run + ([Act(c)] + more)).conns| <= WORD
    requires Enabled(Exec(limits, server, run), Act(c)) && Exec(limits, server, run).conns[c].pc.Handling?
    requires Dispatch(Exec(limits, server, run).conns[c].pc.msg, IdOf(c)) == JoinRoom(ref)
    requires JoinError(Exec(limits, server, run).rooms, Exec(limits, server, run).limits, ref, c) != ""
    requires forall l :: l in more ==> !IsNewBusiness(l, c)
    ensures var s, t := Exec(limits, server, run), Exec(limits, server, run + ([Act(c)] + more));
            var error := ErrorFrame(JoinError(s.rooms, s.limits, ref, c), ScopeOf(ref), TargetOf(ref));
            && Step(s, Act(c)).rooms == s.rooms && Step(s, Act(c)).directory == s.directory
            && OnlyAnswers(t, c, s.conns[c].own, s.conns[c].issued, error)
            && forall room :: c in Members(t.rooms, room) <==> c in Members(s.rooms, room)
  {
    var s, t := Exec(limits, server, run), Exec(limits, server, run + ([Act(c)] + more));
    var error := ErrorFrame(JoinError(s.rooms, s.limits, ref, c), ScopeOf(ref), TargetOf(ref));
    ExecSteps(limits, server, run, [Act(c)] + more);
    StepsFirst(s, Act(c), more);
    StepsGrow(Step(s, Act(c)), more);
    ConnectionsGrow(s, Act(c));
    RunsKeepShape(limits, server, run);
    StepKeepsShape(s, Act(c));
    RefusedHandle(s, c, ref);
    OnlyAnswersOn(Step(s, Act(c)), more, c, s.conns[c].own, s.conns[c].issued, error);
    forall room
      ensures c in Members(t.rooms, room) <==> c in Members(s.rooms, room)
    {
      TwoSides(s, c, room);
      TwoSides(t, c, room);
    }
  }

  lemma RefusedHandle(s: System, c: Conn, ref: RoomRef)
    requires Enabled(s, Act(c)) && s.conns[c].pc.Handling? && Dispatch(s.conns[c].pc.msg, IdOf(c)) == JoinRoom(ref)
    requires JoinError(s.rooms, s.limits, ref, c) != ""
    ensures var t := Step(s, Act(c));
            && t.rooms == s.rooms && t.directory == s.directory
            && OnlyAnswers(t, c, s.conns[c].own, s.conns[c].issued,
                           ErrorFrame(JoinError(s.rooms, s.limits, ref, c), ScopeOf(ref), TargetOf(ref)))
  {
  }

  // ---- A whisper to oneself ----

  lemma PushToOneself(s: System, c: Conn, action: Action<Conn>, rest: Plan<Conn>)
    requires c < |s.conns| && !s.conns[c].closed
             && (action == ToSelf(action.frame) || action == ToPeer(c, action.frame))
    requires s.conns[c].pc == Running([action] + rest)
    ensures Enabled(s, Act(c))
    ensures var cl, t := s.conns[c], Step(s, Act(c)).conns;
            && |t| == |s.conns| && t[c].pc == Running(rest) && !t[c].closed
            && t[c].issued == cl.issued + [Issue(action.frame, {c}, {c})] && t[c].taken == cl.taken
            && t[c].queue == Push(cl, Entry(c, |cl.issued|, action.frame)).queue
            && t[c].attempts == Push(cl, Entry(c, |cl.issued|, action.frame)).attempts
  {
    assert ([action] + rest)[1..] == rest;
  }

  /** What the two pushes of a frame make of a connection's own queue and history. */
  function PushedTwice(cl: Client, c: Conn, frame: Envelope): Client {
    Push(Push(cl, Entry(c, |cl.issued|, frame)), Entry(c, |cl.issued| + 1, frame))
  }

  lemma TwoPushesToOneself(s: System, c: Conn, frame: Envelope)
    requires c < |s.conns| && !s.conns[c].closed && s.conns[c].pc == Running([ToPeer(c, frame), ToSelf(frame)])
    ensures var t := Step(Step(s, Act(c)), Act(c)).conns;
            && |t| == |s.conns| && t[c].pc == Running([])
            && t[c].queue == PushedTwice(s.conns[c], c, frame).queue
            && t[c].attempts == PushedTwice(s.conns[c], c, frame).attempts
  {
    var echo: Plan<Conn> := [ToSelf(frame)];
    assert s.conns[c].pc == Running([ToPeer(c, frame)] + echo);
    PushToOneself(s, c, ToPeer(c, frame), echo);
    assert echo + [] == echo;
    PushToOneself(Step(s, Act(c)), c, ToSelf(frame), []);
  }

  /** A client that whispers to itself gets the whisper pushed at its own queue twice. */
  lemma SelfWhisperIsTwice(limits: HubLimits, server: string, run: seq<Label>, c: Conn)
    requires |Exec(limits, server, run).conns| <= WORD
    requires c < |Exec(limits, server, run).conns| && Exec(limits, server, run).conns[c].pc.Handling?
    requires var msg := Exec(limits, server, run).conns[c].pc.msg; msg.typ == "whisper" && msg.to == IdOf(c)
    ensures var s, t := Exec(limits, server, run), Exec(limits, server, run + [Act(c), Act(c), Act(c), Act(c)]);
            var cl := s.conns[c];
            var twice := PushedTwice(cl, c, WhisperFrame(IdOf(c), Shown(cl.name, IdOf(c)), cl.pc.msg));
            && |t.conns| == |s.conns| && t.conns[c].pc == Idle
            && t.conns[c].queue == twice.queue && t.conns[c].attempts == twice.attempts
  {
    var s := Exec(limits, server, run);
    var cl := s.conns[c];
    var frame := WhisperFrame(IdOf(c), Shown(cl.name, IdOf(c)), cl.pc.msg);
    RunsKeepShape(limits, server, run);
    assert ClientOk(cl);
    FourSteps(limits, server, run, Act(c), Act(c), Act(c), Act(c));
    SelfWhisperPlan(s, c);
    TwoPushesToOneself(Step(s, Act(c)), c, frame);
    PlanEnds(Step(Step(Step(s, Act(c)), Act(c)), Act(c)), c);
  }

  lemma PlanEnds(s: System, c: Conn)
    requires c < |s.conns| && s.conns[c].pc == Running([])
    ensures Step(s, Act(c)) == Goto(s, c, Idle)
  {
  }

  lemma SelfWhisperPlan(s: System, c: Conn)
    requires Shape(s) && c < |s.conns| && s.conns[c].pc.Handling?
    requires s.conns[c].pc.msg.typ == "whisper" && s.conns[c].pc.msg.to == IdOf(c)
    ensures var cl, t := s.conns[c], Step(s, Act(c)).conns;
            var frame := WhisperFrame(IdOf(c), Shown(cl.name, IdOf(c)), cl.pc.msg);
            && |t| == |s.conns|
            && t[c] == cl.(pc := Running([ToPeer(c, frame), ToSelf(frame)]))
  {
    assert IdOf(c) in s.directory && s.directory[IdOf(c)] == c;
    assert IdOf(c)[0] == 'c';
    assert Dispatch(s.conns[c].pc.msg, IdOf(c)) == FindPeer;
  }
}
