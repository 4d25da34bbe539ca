/** Two promises that span several steps: a send reaches every member of its room once, its sender included, and
    nothing but whispers comes before the welcome. */
module RelayDelivery {
  import opened Protocol
  import opened Membership
  import opened Routes
  import opened RelaySystem
  import opened RelayShape
  import opened RelayHistory
  import opened RelayOrder
  import opened RelaySafety

  // ---- Send and echo ----

  /** A room message in a plan is followed by its echo. */
  ghost predicate Echoes(plan: Plan<Conn>) {
    forall i :: 0 <= i < |plan| && plan[i].ToRoom? && plan[i].frame.typ == "message" ==>
      i + 1 < |plan| && plan[i + 1] == ToSelf(plan[i].frame)
  }

  /** The issue is the room push of a message: it leaves its sender out. */
  ghost predicate IsSend(x: Issue, c: Conn) {
    x.frame.typ == "message" && c !in x.audience
  }

  ghost predicate EchoDue(pc: Pc, frame: Envelope) {
    match pc
    case Running(todo) => todo != [] && todo[0] == ToSelf(frame)
    case Delivering(_, f, _, rest) => f == frame && rest != [] && rest[0] == ToSelf(frame)
    case _ => false
  }

  /** A send is followed by its echo, or its echo is what comes next. */
  ghost predicate EchoAt(issued: seq<Issue>, pc: Pc, c: Conn, n: nat)
    requires n < |issued|
  {
    IsSend(issued[n], c) ==>
      if n + 1 < |issued| then issued[n + 1].frame == issued[n].frame && issued[n + 1].audience == {c}
      else EchoDue(pc, issued[n].frame)
  }

  ghost predicate PlanEchoes(pc: Pc) {
    match pc
    case Running(todo) => Echoes(todo)
    case Delivering(_, frame, _, rest) => Echoes(rest) && (frame.typ == "message" ==> EchoDue(pc, frame))
    case _ => true
  }

  ghost predicate EchoOk(cl: Client, c: Conn) {
    && PlanEchoes(cl.pc)
    && (forall n: nat :: n < |cl.issued| ==> EchoAt(cl.issued, cl.pc, c, n))
  }

  lemma EchoesTail(plan: Plan<Conn>)
    requires Echoes(plan) && plan != []
    ensures Echoes(plan[1..])
  {
  }

  lemma PerformKeepsEcho(s: System, c: Conn)
    requires c < |s.conns| && s.conns[c].pc.Running? && s.conns[c].pc.todo != [] && EchoOk(s.conns[c], c)
    requires !s.conns[c].closed && ActionOk(s, c, s.conns[c].pc.todo[0])
    ensures EchoOk(Perform(s, c, s.conns[c].pc.todo[0], s.conns[c].pc.todo[1..]).conns[c], c)
  {
    var cl := s.conns[c];
    var action, rest := cl.pc.todo[0], cl.pc.todo[1..];
    var after := Perform(s, c, action, rest).conns[c];
    EchoesTail(cl.pc.todo);
    PerformIssues(s, c, action, rest, c);
    var k := |cl.issued|;
    assert after.issued == cl.issued + [IssueBy(s, c, action)];
    forall n: nat | n < |after.issued|
      ensures EchoAt(after.issued, after.pc, c, n)
    {
      if n < k {
        assert EchoAt(cl.issued, cl.pc, c, n);
        assert after.issued[n] == cl.issued[n];
        assert after.issued[n + 1] == if n + 1 < k then cl.issued[n + 1] else IssueBy(s, c, action);
      } else if action.ToRoom? && action.frame.typ == "message" {
        assert rest[0] == ToSelf(action.frame);
      }
    }
  }

  lemma ReachKeepsEcho(cl: Client, c: Conn, r: Conn, pc: Pc)
    requires cl.pc.Delivering? && cl.issued != [] && EchoOk(cl, c)
    requires pc == cl.pc.(pending := cl.pc.pending - {r})
    ensures EchoOk(Reach(cl, r).(pc := pc), c)
  {
    var after := Reach(cl, r);
    forall n: nat | n < |after.issued|
      ensures EchoAt(after.issued, pc, c, n)
    {
      assert EchoAt(cl.issued, cl.pc, c, n);
    }
  }

  /** A request's plan has its echo in place. */
  lemma ResponseEchoes(rooms: Rooms<Conn>, directory: map<string, Conn>, limits: HubLimits, c: Conn, own: Record,
      id: string, from: string, msg: Envelope)
    ensures Echoes(Respond(rooms, directory, limits, c, own, id, from, msg).plan)
  {
  }

  /** Steps of `c` that push nothing keep its echoes, as long as none is due. */
  lemma MoveKeepsEcho(cl: Client, c: Conn, next: Client)
    requires EchoOk(cl, c) && next.issued == cl.issued
    requires !cl.pc.Running? && !cl.pc.Delivering?
    requires PlanEchoes(next.pc)
    ensures EchoOk(next, c)
  {
    forall n: nat | n < |next.issued|
      ensures EchoAt(next.issued, next.pc, c, n)
    {
      assert EchoAt(cl.issued, cl.pc, c, n);
    }
  }

  lemma WelcomeKeepsEcho(s: System, c: Conn)
    requires c < |s.conns| && s.conns[c].pc.Registered? && EchoOk(s.conns[c], c) && !s.conns[c].closed
    ensures EchoOk(Welcomed(s, c).conns[c], c)
  {
    var cl, after := s.conns[c], Welcomed(s, c).conns[c];
    IssueOf(s, c, c, WelcomeFrame(s.server, IdOf(c)), Idle, c);
    var k := |cl.issued|;
    forall n: nat | n < |after.issued|
      ensures EchoAt(after.issued, after.pc, c, n)
    {
      if n < k {
        assert EchoAt(cl.issued, cl.pc, c, n);
        assert n + 1 < k ==> after.issued[n + 1] == cl.issued[n + 1];
      }
    }
  }

  lemma OwnStepKeepsEcho(s: System, l: Label)
    requires Shape(s) && Enabled(s, l) && !l.Connect? && EchoOk(s.conns[l.c], l.c)
    ensures EchoOk(Apply(s, l).conns[l.c], l.c)
  {
    var c := l.c;
    var cl, after := s.conns[c], Apply(s, l).conns[c];
    assert ClientOk(cl) && PcOk(s, c);
    if l.Welcome? {
      WelcomeKeepsEcho(s, c);
    } else if l.DeliverTo? {
      PendingIsOpen(s, c, l.r);
      ReachKeepsEcho(cl, c, l.r, after.pc);
      assert after.issued == Reach(cl, l.r).issued;
    } else if l.Act? && cl.pc.Running? {
      if cl.pc.todo != [] {
        RestOk(s, c);
        PerformKeepsEcho(s, c);
      } else {
        EchoOfNothingDue(cl, after, c);
      }
    } else if l.Release? || l.Dequeue? {
      EchoCarriesOver(cl, after, c);
    } else {
      if l.Act? {
        ResponseEchoes(s.rooms, s.directory, s.limits, c, cl.own, IdOf(c),
            Shown(NameAfter(cl.name, cl.pc.msg), IdOf(c)), cl.pc.msg);
      }
      MoveKeepsEcho(cl, c, after);
    }
  }

  lemma EchoOfNothingDue(cl: Client, next: Client, c: Conn)
    requires EchoOk(cl, c) && next.issued == cl.issued && cl.pc == Running([]) && next.pc.Idle?
    ensures EchoOk(next, c)
  {
    forall n: nat | n < |next.issued|
      ensures EchoAt(next.issued, next.pc, c, n)
    {
      assert EchoAt(cl.issued, cl.pc, c, n);
    }
  }

  lemma EchoCarriesOver(cl: Client, next: Client, c: Conn)
    requires EchoOk(cl, c) && next.issued == cl.issued
    requires next.pc == cl.pc || (cl.pc.Delivering? && next.pc == Running(cl.pc.rest))
    ensures EchoOk(next, c)
  {
    forall n: nat | n < |next.issued|
      ensures EchoAt(next.issued, next.pc, c, n)
    {
      assert EchoAt(cl.issued, cl.pc, c, n);
    }
  }

  lemma StepKeepsEcho(s: System, l: Label, i: Conn)
    requires Shape(s) && Enabled(s, l) && i < |s.conns| && EchoOk(s.conns[i], i)
    ensures EchoOk(Apply(s, l).conns[i], i)
  {
    if !l.Connect? && i == l.c {
      OwnStepKeepsEcho(s, l);
    } else {
      if l.DeliverTo? {
        PendingIsOpen(s, l.c, l.r);
      }
      OthersIssue(s, l, i);
    }
  }

  lemma {:induction false} RunsKeepEcho(limits: HubLimits, server: string, run: seq<Label>)
    requires |Exec(limits, server, run).conns| <= WORD
    ensures forall i: Conn :: i < |Exec(limits, server, run).conns| ==> EchoOk(Exec(limits, server, run).conns[i], i)
  {
    if run != [] {
      var s, l := Exec(limits, server, run[..|run| - 1]), run[|run| - 1];
      ConnectionsGrow(s, l);
      RunsKeepShape(limits, server, run[..|run| - 1]);
      RunsKeepEcho(limits, server, run[..|run| - 1]);
      if Enabled(s, l) {
        forall i: Conn | i < |Apply(s, l).conns|
          ensures EchoOk(Apply(s, l).conns[i], i)
        {
          if i < |s.conns| {
            StepKeepsEcho(s, l, i);
          } else {
            NewcomerIsBlank(s, l, i);
          }
        }
      }
    }
  }

  /** When a message's room push starts, its audience is the room at that moment without the sender, who is a
      member too. */
  lemma SendAudience(limits: HubLimits, server: string, run: seq<Label>, c: Conn, room: Room, frame: Envelope)
    requires |Exec(limits, server, run).conns| <= WORD
    requires c < |Exec(limits, server, run).conns| && Exec(limits, server, run).conns[c].pc.Running?
    requires Exec(limits, server, run).conns[c].pc.todo != [] && frame.typ == "message"
    requires Exec(limits, server, run).conns[c].pc.todo[0] == ToRoom(room, frame)
    ensures var s, t := Exec(limits, server, run), Step(Exec(limits, server, run), Act(c));
            && c in Members(s.rooms, room) && FrameRoom(frame) == room
            && t.conns[c].issued == s.conns[c].issued + [Issue(frame, Members(s.rooms, room) - {c}, {})]
            && IsSend(Issue(frame, Members(s.rooms, room) - {c}, {}), c)
  {
    var s := Exec(limits, server, run);
    RunsKeepShape(limits, server, run);
    assert PcOk(s, c);
    RestOk(s, c);
    TwoSides(s, c, room);
    PerformIssues(s, c, ToRoom(room, frame), s.conns[c].pc.todo[1..], c);
  }

  /** The sender is done with issue `n` and the echo after it: it is idle, or both are behind it. */
  ghost predicate DoneWith(cl: Client, n: nat) {
    || (!cl.pc.Running? && !cl.pc.Delivering?)
    || (n + 1 < |cl.issued| && (cl.pc.Delivering? ==> n + 2 < |cl.issued|))
  }

  /** Once its sender is done with it, whatever the sender does since, a message has been pushed exactly once at every
      client that was a member when the broadcast took its lock, the sender included, and at nobody else. */
  lemma SendReachesEveryMemberOnce(limits: HubLimits, server: string, run: seq<Label>, c: Conn, n: nat, r: Conn)
    requires |Exec(limits, server, run).conns| <= WORD
    requires c < |Exec(limits, server, run).conns| && r < |Exec(limits, server, run).conns|
    requires n < |Exec(limits, server, run).conns[c].issued| && IsSend(Exec(limits, server, run).conns[c].issued[n], c)
    requires DoneWith(Exec(limits, server, run).conns[c], n)
    ensures var s := Exec(limits, server, run);
            && n + 1 < |s.conns[c].issued| && s.conns[c].issued[n + 1].frame == s.conns[c].issued[n].frame
            && Times(s.conns[r].attempts, c, n) + Times(s.conns[r].attempts, c, n + 1)
               == if r in s.conns[c].issued[n].audience + {c} then 1 else 0
  {
    var s := Exec(limits, server, run);
    RunsKeepEcho(limits, server, run);
    assert EchoOk(s.conns[c], c) && EchoAt(s.conns[c].issued, s.conns[c].pc, c, n);
    ExactlyOnce(limits, server, run, c, n, r);
    ExactlyOnce(limits, server, run, c, n + 1, r);
  }

  // ---- The prologue of a connection ----

  ghost predicate WhisperTo(a: Attempt, c: Conn) {
    a.entry.frame.typ == "whisper" && a.entry.frame.to == IdOf(c)
  }

  /** Position `w` holds the welcome, the only one, and only whispers to this client come before it. */
  ghost predicate GreetedAt(attempts: seq<Attempt>, server: string, c: Conn, w: nat) {
    && w < |attempts|
    && attempts[w].entry.sender == c && attempts[w].entry.frame == WelcomeFrame(server, IdOf(c))
    && (forall i :: 0 <= i < w ==> WhisperTo(attempts[i], c))
    && (forall i :: 0 <= i < |attempts| && i != w ==> attempts[i].entry.frame.typ != "welcome")
  }

  ghost predicate Prologue(cl: Client, server: string, c: Conn) {
    if cl.pc.Fresh? then cl.attempts == []
    else if cl.pc.Registered? then forall i :: 0 <= i < |cl.attempts| ==> WhisperTo(cl.attempts[i], c)
    else exists w :: GreetedAt(cl.attempts, server, c, w)
  }

  /** Which frames can be pushed at a client, by how far its connection has come. */
  lemma PushesByStage(s: System, l: Label)
    requires Shape(s) && Enabled(s, l) && PushOf(s, l).Some? && !l.Welcome?
    ensures var d := PushOf(s, l).value;
            && d.to < |s.conns| && !s.conns[d.to].pc.Fresh? && d.entry.frame.typ != "welcome"
            && (s.conns[d.to].pc.Registered? ==> d.entry.frame.typ == "whisper" && d.entry.frame.to == IdOf(d.to))
  {
    assert PcOk(s, l.c);
    if l.Act? {
      RestOk(s, l.c);
    } else {
      PendingIsOpen(s, l.c, l.r);
      MembersAreOpen(s, l.r, s.conns[l.c].pc.room);
    }
  }

  /** How far a connection has come: 0 fresh, 1 registered, 2 welcomed. */
  function Stage(pc: Pc): nat {
    if pc.Fresh? then 0 else if pc.Registered? then 1 else 2
  }

  lemma OwnStage(s: System, l: Label)
    requires Enabled(s, l) && !l.Connect?
    ensures Stage(Apply(s, l).conns[l.c].pc) == if l.Register? then 1 else if l.Welcome? then 2
            else Stage(s.conns[l.c].pc)
    ensures l.Register? ==> s.conns[l.c].pc.Fresh?
    ensures l.Welcome? ==> s.conns[l.c].pc.Registered?
  {
  }

  lemma GreetedStays(attempts: seq<Attempt>, a: Attempt, server: string, c: Conn, w: nat)
    requires GreetedAt(attempts, server, c, w) && a.entry.frame.typ != "welcome"
    ensures GreetedAt(attempts + [a], server, c, w)
  {
  }

  lemma StageAfter(s: System, l: Label, i: Conn)
    requires Shape(s) && Enabled(s, l) && i < |s.conns|
    ensures Stage(Apply(s, l).conns[i].pc)
         == if l == Register(i) then 1 else if l == Welcome(i) then 2 else Stage(s.conns[i].pc)
    ensures l == Register(i) ==> s.conns[i].pc.Fresh?
    ensures l == Welcome(i) ==> s.conns[i].pc.Registered?
  {
    if !l.Connect? && l.c == i {
      OwnStage(s, l);
    } else {
      if l.DeliverTo? {
        PendingIsOpen(s, l.c, l.r);
      }
      OthersIssue(s, l, i);
    }
  }

  lemma PushKeepsPrologue(cl: Client, next: Client, server: string, c: Conn, a: Attempt)
    requires Prologue(cl, server, c) && next.attempts == cl.attempts + [a] && Stage(next.pc) == Stage(cl.pc)
    requires !cl.pc.Fresh? && a.entry.frame.typ != "welcome"
    requires cl.pc.Registered? ==> WhisperTo(a, c)
    ensures Prologue(next, server, c)
  {
    if !cl.pc.Registered? {
      var w :| GreetedAt(cl.attempts, server, c, w);
      GreetedStays(cl.attempts, a, server, c, w);
    }
  }

  lemma WelcomeKeepsPrologue(cl: Client, next: Client, server: string, c: Conn, a: Attempt)
    requires Prologue(cl, server, c) && cl.pc.Registered? && next.attempts == cl.attempts + [a] && Stage(next.pc) == 2
    requires a.entry.sender == c && a.entry.frame == WelcomeFrame(server, IdOf(c))
    ensures Prologue(next, server, c)
  {
    assert GreetedAt(next.attempts, server, c, |cl.attempts|);
  }

  lemma StepKeepsPrologue(s: System, l: Label, i: Conn)
    requires Shape(s) && Enabled(s, l) && i < |s.conns| && Prologue(s.conns[i], s.server, i)
    ensures Prologue(Apply(s, l).conns[i], s.server, i)
  {
    StageAfter(s, l, i);
    QueuesChange(s, l, i);
    var d := PushOf(s, l);
    if d.Some? && d.value.to == i {
      var cl, next := s.conns[i], Apply(s, l).conns[i];
      var a := Attempt(d.value.entry, FateNow(cl), |cl.taken|);
      assert next.attempts == cl.attempts + [a];
      if l == Welcome(i) {
        WelcomeKeepsPrologue(cl, next, s.server, i, a);
      } else {
        PushesByStage(s, l);
        PushKeepsPrologue(cl, next, s.server, i, a);
      }
    }
  }

  lemma ServerStays(s: System, l: Label)
    ensures Step(s, l).server == s.server
  {
  }

  /** In every run, nothing but whispers to it is pushed at a connection before its welcome, which comes once. */
  lemma {:induction false} RunsKeepPrologue(limits: HubLimits, server: string, run: seq<Label>, i: Conn)
    requires |Exec(limits, server, run).conns| <= WORD && i < |Exec(limits, server, run).conns|
    ensures Prologue(Exec(limits, server, run).conns[i], server, i) && Exec(limits, server, run).server == server
  {
    if run != [] {
      var s, l := Exec(limits, server, run[..|run| - 1]), run[|run| - 1];
      ConnectionsGrow(s, l);
      RunsKeepShape(limits, server, run[..|run| - 1]);
      ServerNamed(limits, server, run);
      ServerNamed(limits, server, run[..|run| - 1]);
      if i < |s.conns| {
        RunsKeepPrologue(limits, server, run[..|run| - 1], i);
        if Enabled(s, l) {
          StepKeepsPrologue(s, l, i);
        }
      } else {
        NewcomerIsBlank(s, l, i);
      }
    }
  }

  lemma {:induction false} ServerNamed(limits: HubLimits, server: string, run: seq<Label>)
    ensures Exec(limits, server, run).server == server
  {
    if run != [] {
      ServerNamed(limits, server, run[..|run| - 1]);
      ServerStays(Exec(limits, server, run[..|run| - 1]), run[|run| - 1]);
    }
  }
}
