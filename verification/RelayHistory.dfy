/** What the histories of every run say: queues lose nothing but what they dropped when full, each sender's
    frames arrive in the order of issue, each broadcast reaches its audience once, and the welcome comes before
    anything but whispers. */
module RelayHistory {
  import opened Protocol
  import opened Membership
  import opened Routes
  import opened RelaySystem
  import opened RelayShape

  // ---- What one step pushes ----

  datatype Delivery = Delivery(to: Conn, entry: Entry)

  function PushOf(s: System, l: Label): Option<Delivery>
    requires Enabled(s, l)
  {
    match l
    case Welcome(c) => Some(Delivery(c, Entry(c, |s.conns[c].issued|, WelcomeFrame(s.server, IdOf(c)))))
    case Act(c) =>
      var pc := s.conns[c].pc;
      if pc.Running? && pc.todo != [] then
        match pc.todo[0]
        case ToSelf(frame) => Some(Delivery(c, Entry(c, |s.conns[c].issued|, frame)))
        case ToPeer(peer, frame) => Some(Delivery(peer, Entry(c, |s.conns[c].issued|, frame)))
        case ToRoom(_, _) => None
      else None
    case DeliverTo(c, r) => Some(Delivery(r, Entry(c, |s.conns[c].issued| - 1, s.conns[c].pc.frame)))
    case _ => None
  }

  ghost predicate SameQueue(a: Client, b: Client) {
    b.queue == a.queue && b.attempts == a.attempts && b.taken == a.taken
  }

  lemma PushToOne(s: System, c: Conn, r: Conn, frame: Envelope, pc: Pc, i: Conn)
    requires c < |s.conns| && r < |s.conns| && i < |s.conns|
    ensures var cl := Goto(PushTo(s, c, r, frame), c, pc).conns[i];
            if i == r then SameQueue(Push(s.conns[i], Entry(c, |s.conns[c].issued|, frame)), cl)
                else SameQueue(s.conns[i], cl)
  {
  }

  lemma DeliverToOne(s: System, c: Conn, r: Conn, i: Conn)
    requires c < |s.conns| && r < |s.conns| && i < |s.conns| && s.conns[c].pc.Delivering? && s.conns[c].issued != []
    ensures var cl := Deliver(s, c, r).conns[i];
            if i == r then SameQueue(Push(s.conns[i], Entry(c, |s.conns[c].issued| - 1, s.conns[c].pc.frame)), cl)
            else SameQueue(s.conns[i], cl)
  {
  }

  lemma PerformQueues(s: System, c: Conn, action: Action<Conn>, rest: Plan<Conn>, i: Conn)
    requires c < |s.conns| && i < |s.conns| && (action.ToPeer? ==> action.peer < |s.conns|)
    ensures var cl, entry := Perform(s, c, action, rest).conns[i], Entry(c, |s.conns[c].issued|, action.frame);
            if (action.ToSelf? && i == c) || (action.ToPeer? && i == action.peer)
                then SameQueue(Push(s.conns[i], entry), cl)
            else SameQueue(s.conns[i], cl)
  {
    match action
    case ToSelf(frame) => PushToOne(s, c, c, frame, Unless(s.conns[c].closed, Running(rest)), i);
    case ToPeer(peer, frame) => PushToOne(s, c, peer, frame, Unless(s.conns[peer].closed, Running(rest)), i);
    case ToRoom(_, _) =>
  }

  /** A step changes a queue and its history only by the push that `PushOf` names, or by dequeuing. */
  lemma QueuesChange(s: System, l: Label, i: Conn)
    requires Enabled(s, l) && i < |s.conns|
    ensures var d := PushOf(s, l);
            var cl := Apply(s, l).conns[i];
            if d.Some? && d.value.to == i then SameQueue(Push(s.conns[i], d.value.entry), cl)
            else if l == Dequeue(i) then SameQueue(Dequeued(s, i).conns[i], cl)
            else SameQueue(s.conns[i], cl)
  {
    match l
    case Welcome(c) => PushToOne(s, c, c, WelcomeFrame(s.server, IdOf(c)), Unless(s.conns[c].closed, Idle), i);
    case Act(c) =>
      if s.conns[c].pc.Running? && s.conns[c].pc.todo != [] {
        PerformQueues(s, c, s.conns[c].pc.todo[0], s.conns[c].pc.todo[1..], i);
      }
    case DeliverTo(c, r) => DeliverToOne(s, c, r, i);
    case _ =>
  }

  // ---- Conservation ----

  function AcceptedOf(attempts: seq<Attempt>): seq<Entry> {
    if attempts == [] then []
    else
      var last := attempts[|attempts| - 1];
      AcceptedOf(attempts[..|attempts| - 1]) + if last.fate == Accepted then [last.entry] else []
  }

  function Count(attempts: seq<Attempt>, fate: Fate): nat {
    if attempts == [] then 0
    else Count(attempts[..|attempts| - 1], fate) + if attempts[|attempts| - 1].fate == fate then 1 else 0
  }

  /** How many frames the queue held when the i-th push was tried. */
  function Depth(attempts: seq<Attempt>, i: nat): int
    requires i < |attempts|
  {
    |AcceptedOf(attempts[..i])| - attempts[i].taken
  }

  ghost predicate FatesOk(attempts: seq<Attempt>) {
    forall i: nat :: i < |attempts| ==>
      && 0 <= Depth(attempts, i) <= 256
      && (attempts[i].fate == Accepted ==> Depth(attempts, i) < 256)
      && (attempts[i].fate == Dropped ==> Depth(attempts, i) == 256)
  }

  /** Accepted frames are the dequeued ones followed by the queued ones; only a full queue dropped anything. */
  ghost predicate Conserved(cl: Client) {
    && AcceptedOf(cl.attempts) == cl.taken + cl.queue
    && |cl.queue| <= 256
    && FatesOk(cl.attempts)
  }

  lemma AcceptedAppend(attempts: seq<Attempt>, a: Attempt)
    ensures AcceptedOf(attempts + [a]) == AcceptedOf(attempts) + if a.fate == Accepted then [a.entry] else []
  {
  }

  lemma DepthStays(attempts: seq<Attempt>, a: Attempt, i: nat)
    requires i < |attempts|
    ensures Depth(attempts + [a], i) == Depth(attempts, i)
  {
    assert (attempts + [a])[..i] == attempts[..i];
  }

  lemma FatesAppend(attempts: seq<Attempt>, a: Attempt)
    requires FatesOk(attempts)
    requires var depth := |AcceptedOf(attempts)| - a.taken;
             && 0 <= depth <= 256
             && (a.fate == Accepted ==> depth < 256) && (a.fate == Dropped ==> depth == 256)
    ensures FatesOk(attempts + [a])
  {
    var next, n := attempts + [a], |attempts|;
    assert next[..n] == attempts;
    forall i: nat | i < |next|
      ensures 0 <= Depth(next, i) <= 256
      ensures next[i].fate == Accepted ==> Depth(next, i) < 256
      ensures next[i].fate == Dropped ==> Depth(next, i) == 256
    {
      if i < n {
        DepthStays(attempts, a, i);
      }
    }
  }

  lemma PushConserves(cl: Client, entry: Entry)
    requires Conserved(cl)
    ensures Conserved(Push(cl, entry))
  {
    var a := Attempt(entry, FateNow(cl), |cl.taken|);
    AcceptedAppend(cl.attempts, a);
    FatesAppend(cl.attempts, a);
  }

  lemma DequeueConserves(s: System, c: Conn)
    requires c < |s.conns| && s.conns[c].queue != [] && Conserved(s.conns[c])
    ensures Conserved(Dequeued(s, c).conns[c])
  {
  }

  lemma {:induction false} EveryAttemptHasOneFate(attempts: seq<Attempt>)
    ensures |attempts| == Count(attempts, Accepted) + Count(attempts, Dropped) + Count(attempts, Refused)
    ensures Count(attempts, Accepted) == |AcceptedOf(attempts)|
  {
    if attempts != [] {
      EveryAttemptHasOneFate(attempts[..|attempts| - 1]);
    }
  }

  ghost predicate QueuesOk(s: System) {
    forall i: Conn :: i < |s.conns| ==> Conserved(s.conns[i])
  }

  lemma StepConserves(s: System, l: Label)
    requires QueuesOk(s) && Enabled(s, l)
    ensures QueuesOk(Apply(s, l))
  {
    var t := Apply(s, l);
    forall i: Conn | i < |t.conns|
      ensures Conserved(t.conns[i])
    {
      if i < |s.conns| {
        assert Conserved(s.conns[i]);
        QueuesChange(s, l, i);
        var d := PushOf(s, l);
        if d.Some? && d.value.to == i {
          PushConserves(s.conns[i], d.value.entry);
        } else if l == Dequeue(i) {
          DequeueConserves(s, i);
        }
      } else {
        NewcomerIsBlank(s, l, i);
      }
    }
  }

  lemma NewcomerIsBlank(s: System, l: Label, i: Conn)
    requires Enabled(s, l) && |s.conns| <= i < |Apply(s, l).conns|
    ensures l == Connect && i == |s.conns|
            && Apply(s, l).conns[i] == Client(Fresh, "", NOWHERE, [], false, map[], [], [], [])
  {
  }

  /** Queue conservation in every run. */
  lemma {:induction false} RunsConserve(limits: HubLimits, server: string, run: seq<Label>)
    ensures QueuesOk(Exec(limits, server, run))
  {
    if run != [] {
      var s, l := Exec(limits, server, run[..|run| - 1]), run[|run| - 1];
      RunsConserve(limits, server, run[..|run| - 1]);
      if Enabled(s, l) {
        StepConserves(s, l);
      }
    }
  }

  /** In every run, every frame pushed at a connection has been dequeued, is queued, was dropped or was refused. */
  lemma AttemptsAccountedFor(limits: HubLimits, server: string, run: seq<Label>, i: Conn)
    requires i < |Exec(limits, server, run).conns|
    ensures var cl := Exec(limits, server, run).conns[i];
            |cl.attempts| == |cl.taken| + |cl.queue| + Count(cl.attempts, Dropped) + Count(cl.attempts, Refused)
  {
    RunsConserve(limits, server, run);
    var cl := Exec(limits, server, run).conns[i];
    assert Conserved(cl);
    EveryAttemptHasOneFate(cl.attempts);
  }
}
