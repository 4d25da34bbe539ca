/** What requests are answered with in every run: the section of each kind of request, said from its fields. */
module RelayAnswers {
  import opened Protocol
  import opened Membership
  import opened Routes
  import opened Answers
  import opened RelaySystem
  import opened RelayShape
  import opened RelayHistory
  import opened RelayOrder
  import opened RelaySafety
  import opened RelaySchedules

  // ---- What every answer starts from ----

  /** Connection `c` has read `msg` and can go on to its section. */
  ghost predicate Asks(s: System, c: Conn, msg: Envelope) {
    Enabled(s, Act(c)) && s.conns[c].pc == Handling(msg)
  }

  /** `c` has run its section, and has pushes left; nobody else has moved. */
  ghost predicate Sectioned(s: System, t: System, c: Conn, msg: Envelope) {
    && |t.conns| == |s.conns| && t.directory == s.directory && c < |t.conns| && t.conns[c].pc.Running?
    && t.conns[c].name == NameAfter(s.conns[c].name, msg)
    && forall i: Conn :: i < |s.conns| && i != c ==> t.conns[i] == s.conns[i]
  }

  function OutcomeOf(t: System, c: Conn): Outcome<Conn>
    requires c < |t.conns| && t.conns[c].pc.Running?
  {
    Outcome(t.rooms, t.conns[c].own, t.conns[c].pc.todo)
  }

  /** The name that others see. */
  function NameOf(cl: Client, c: Conn): string {
    if cl.name != "" then cl.name else IdOf(c)
  }

  lemma SectionRuns(s: System, c: Conn, msg: Envelope)
    requires Asks(s, c, msg)
    ensures var t := Step(s, Act(c));
            && Sectioned(s, t, c, msg)
            && OutcomeOf(t, c) == Respond(s.rooms, s.directory, s.limits, c, s.conns[c].own, IdOf(c),
               NameOf(t.conns[c], c), msg)
  {
  }

  lemma SidesInRuns(limits: HubLimits, server: string, run: seq<Label>, c: Conn)
    requires |Exec(limits, server, run).conns| <= WORD && c < |Exec(limits, server, run).conns|
    ensures var s := Exec(limits, server, run); Sides(s.rooms, c, s.conns[c].own) && LimitsHold(s.rooms, s.limits)
  {
    var s := Exec(limits, server, run);
    RunsKeepShape(limits, server, run);
    RunsKeepLimits(limits, server, run);
    forall room
      ensures Belongs(s.conns[c].own, room) <==> c in Members(s.rooms, room)
    {
      TwoSides(s, c, room);
    }
  }

  // ---- Each kind of request ----

  /** A leave takes its sender out of the room, tells it so and then tells the room. */
  lemma LeaveInRuns(limits: HubLimits, server: string, run: seq<Label>, c: Conn,
                    msg: Envelope, scope: string, kind: string, room: Room)
    requires |Exec(limits, server, run).conns| <= WORD && Asks(Exec(limits, server, run), c, msg)
    requires msg.typ == "leave" && Names(msg, scope, kind, room)
    ensures var s, t := Exec(limits, server, run), Exec(limits, server, run + [Act(c)]);
            && Sectioned(s, t, c, msg)
            && Leaves(s.rooms, s.conns[c].own, OutcomeOf(t, c), c, IdOf(c), NameOf(t.conns[c], c), msg, scope, kind,
               room)
  {
    var s := Exec(limits, server, run);
    ExecAppend(limits, server, run, Act(c));
    SectionRuns(s, c, msg);
    SidesInRuns(limits, server, run, c);
    LeaveIsAnswered(s.rooms, s.directory, s.limits, c, s.conns[c].own, IdOf(c), NameOf(Step(s, Act(c)).conns[c], c),
                    msg, scope, kind, room);
  }

  /** A join puts its sender in the room, tells it so and then tells the room, exactly when it names a target and the
      limits would still hold; otherwise it changes nothing and its sender is told which of them stands in the way. */
  lemma JoinInRuns(limits: HubLimits, server: string, run: seq<Label>, c: Conn,
                   msg: Envelope, scope: string, kind: string, room: Room)
    requires |Exec(limits, server, run).conns| <= WORD && Asks(Exec(limits, server, run), c, msg)
    requires msg.typ == "join" && Names(msg, scope, kind, room)
    ensures var s, t := Exec(limits, server, run), Exec(limits, server, run + [Act(c)]);
            var refusal := Refusal(s.rooms, s.limits, c, msg, scope, room);
            && Sectioned(s, t, c, msg)
            && if refusal == ""
               then Enters(s.rooms, s.conns[c].own, OutcomeOf(t, c), c, IdOf(c), NameOf(t.conns[c], c), msg, scope,
                   kind, room)
               else Refuses(s.rooms, s.conns[c].own, OutcomeOf(t, c), Complaint(refusal, scope, msg.target))
  {
    var s := Exec(limits, server, run);
    ExecAppend(limits, server, run, Act(c));
    SectionRuns(s, c, msg);
    SidesInRuns(limits, server, run, c);
    JoinIsAnswered(s.rooms, s.directory, s.limits, c, s.conns[c].own, IdOf(c), NameOf(Step(s, Act(c)).conns[c], c),
                   msg, scope, kind, room);
  }

  /** A member's message is for the room and then for its sender; a stranger gets an error. */
  lemma SendInRuns(limits: HubLimits, server: string, run: seq<Label>, c: Conn,
                   msg: Envelope, scope: string, kind: string, room: Room)
    requires |Exec(limits, server, run).conns| <= WORD && Asks(Exec(limits, server, run), c, msg)
    requires msg.typ == "send" && msg.target != "" && Names(msg, scope, kind, room)
    ensures var s, t := Exec(limits, server, run), Exec(limits, server, run + [Act(c)]);
            && Sectioned(s, t, c, msg)
            && if c in Members(s.rooms, room)
               then Sends(s.rooms, s.conns[c].own, OutcomeOf(t, c), IdOf(c), NameOf(t.conns[c], c), msg, scope, kind,
                   room)
               else Refuses(s.rooms, s.conns[c].own, OutcomeOf(t, c), Complaint(Stranger(scope), scope, msg.target))
  {
    var s := Exec(limits, server, run);
    ExecAppend(limits, server, run, Act(c));
    SectionRuns(s, c, msg);
    SidesInRuns(limits, server, run, c);
    SendIsAnswered(s.rooms, s.directory, s.limits, c, s.conns[c].own, IdOf(c), NameOf(Step(s, Act(c)).conns[c], c),
                   msg, scope, kind, room);
  }

  /** A whisper is for the client online under the identifier it names, and then for its sender. */
  lemma WhisperInRuns(limits: HubLimits, server: string, run: seq<Label>, c: Conn, msg: Envelope)
    requires |Exec(limits, server, run).conns| <= WORD && Asks(Exec(limits, server, run), c, msg)
    requires msg.typ == "whisper" && msg.to != ""
    ensures var s, t := Exec(limits, server, run), Exec(limits, server, run + [Act(c)]);
            && Sectioned(s, t, c, msg)
            && (forall p: Conn :: p < |s.conns| && Online(s.conns[p].pc) && msg.to == IdOf(p) ==>
                  Whispers(s.rooms, s.conns[c].own, OutcomeOf(t, c), p, IdOf(c), NameOf(t.conns[c], c), msg))
            && ((forall p: Conn :: p < |s.conns| && Online(s.conns[p].pc) ==> msg.to != IdOf(p)) ==>
                  Refuses(s.rooms, s.conns[c].own, OutcomeOf(t, c), Complaint("peer not found: " + msg.to, "", "")))
  {
    var s := Exec(limits, server, run);
    ExecAppend(limits, server, run, Act(c));
    SectionRuns(s, c, msg);
    RunsKeepShape(limits, server, run);
    WhisperIsAnswered(s.rooms, s.directory, s.limits, c, s.conns[c].own, IdOf(c),
        NameOf(Step(s, Act(c)).conns[c], c), msg);
  }

  /** Everything else is answered with one frame, and changes nothing. */
  lemma OthersInRuns(limits: HubLimits, server: string, run: seq<Label>, c: Conn, msg: Envelope)
    requires Asks(Exec(limits, server, run), c, msg)
    ensures var s, t := Exec(limits, server, run), Exec(limits, server, run + [Act(c)]);
            && Sectioned(s, t, c, msg)
            && var rooms, own, o := s.rooms, s.conns[c].own, OutcomeOf(t, c);
               && (msg.typ == "ping" ==> Refuses(rooms, own, o, Frame("pong", "", "", "", "", IdOf(c), NoPayload)))
               && (msg.typ == "whisper" && msg.to == "" ==>
                     Refuses(rooms, own, o, Complaint("to (client_id) is required for whisper", "", "")))
               && (msg.typ == "send" && msg.target == "" ==>
                     Refuses(rooms, own, o, Complaint("target is required", msg.scope, "")))
               && (NeedsScope(msg) && BadScope(msg) ==>
                     Refuses(rooms, own, o, Complaint("scope must be area or channel", msg.scope, msg.target)))
               && (msg.typ !in {"join", "leave", "send", "whisper", "ping"} ==>
                     Refuses(rooms, own, o, Complaint("unknown type: " + msg.typ, msg.scope, msg.target)))
  {
    var s := Exec(limits, server, run);
    ExecAppend(limits, server, run, Act(c));
    SectionRuns(s, c, msg);
    var from := NameOf(Step(s, Act(c)).conns[c], c);
    OthersAreAnswered(s.rooms, s.directory, s.limits, c, s.conns[c].own, IdOf(c), from, msg);
    if msg.typ == "whisper" {
      WhisperIsAnswered(s.rooms, s.directory, s.limits, c, s.conns[c].own, IdOf(c), from, msg);
    }
  }

  /** An idle connection can always read a message, readable or not, and the unreadable one is answered with an
      error. */
  lemma GarbageIsAnswered(s: System, c: Conn)
    requires c < |s.conns| && s.conns[c].pc.Idle?
    ensures Enabled(s, ReceiveGarbage(c)) && forall msg :: Enabled(s, Receive(c, msg))
    ensures Step(s, ReceiveGarbage(c)) == Goto(s, c, Running([ToSelf(Complaint("invalid json message", "", ""))]))
    ensures forall msg :: Step(s, Receive(c, msg)) == Goto(s, c, Handling(msg))
  {
  }

  /** The welcome, field by field. */
  lemma WelcomeIsSpelled(s: System, c: Conn)
    requires c < |s.conns| && s.conns[c].pc.Registered?
    ensures var payload := Fields(map["server" := s.server, "message" := "connected"]);
            && Enabled(s, Welcome(c)) && PushOf(s, Welcome(c)).Some?
            && PushOf(s, Welcome(c)).value.to == c
            && PushOf(s, Welcome(c)).value.entry.frame == Frame("welcome", "", "", "", "", IdOf(c), payload)
  {
  }

  // ---- From a message to its broadcast ----

  /** A member's message goes out: once its sender has acted twice it is inside the broadcast, for every other member
      of the room. */
  lemma SendGoesOut(limits: HubLimits, server: string, run: seq<Label>, c: Conn,
                    msg: Envelope, scope: string, kind: string, room: Room)
    requires |Exec(limits, server, run).conns| <= WORD && Asks(Exec(limits, server, run), c, msg)
    requires msg.typ == "send" && msg.target != "" && Names(msg, scope, kind, room)
    requires c in Members(Exec(limits, server, run).rooms, room)
    ensures var s, t := Exec(limits, server, run), Exec(limits, server, run + [Act(c)] + [Act(c)]);
            && |t.conns| == |s.conns| && t.conns[c].issued != []
            && var issue := t.conns[c].issued[|t.conns[c].issued| - 1];
               && issue.audience == Members(s.rooms, room) - {c}
               && issue.frame.typ == "message" && issue.frame.payload == msg.payload && issue.frame.clientId == IdOf(c)
               && t.conns[c].pc == Delivering(room, issue.frame, issue.audience, [ToSelf(issue.frame)])
  {
    var s := Exec(limits, server, run);
    SendInRuns(limits, server, run, c, msg, scope, kind, room);
    var t := Exec(limits, server, run + [Act(c)]);
    ExecAppend(limits, server, run + [Act(c)], Act(c));
    BroadcastGoesOut(t, c, room, OutcomeOf(t, c).plan[0].frame);
  }

  lemma BroadcastGoesOut(s: System, c: Conn, room: Room, frame: Envelope)
    requires c < |s.conns| && s.conns[c].pc == Running([ToRoom(room, frame), ToSelf(frame)])
    ensures var t := Step(s, Act(c));
            && |t.conns| == |s.conns|
            && t.conns[c].issued == s.conns[c].issued + [Issue(frame, Members(s.rooms, room) - {c}, {})]
            && t.conns[c].pc == Delivering(room, frame, Members(s.rooms, room) - {c}, [ToSelf(frame)])
  {
    assert s.conns[c].pc.todo[1..] == [ToSelf(frame)];
  }
}
