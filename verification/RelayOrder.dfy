/** Order and multiplicity in every run: what one connection pushes to another arrives in the order of issue,
    and each push action reaches each member of its audience exactly once. */
module RelayOrder {
  import opened Protocol
  import opened Membership
  import opened Routes
  import opened RelaySystem
  import opened RelayShape
  import opened RelayHistory

  /** The pushes that `c` made, in the order in which they reached this queue. */
  function From(attempts: seq<Attempt>, c: Conn): seq<Entry> {
    if attempts == [] then []
    else
      var last := attempts[|attempts| - 1].entry;
      From(attempts[..|attempts| - 1], c) + if last.sender == c then [last] else []
  }

  /** The issues of `c` that have reached `r`, in the order of issue. */
  function IssuedTo(issued: seq<Issue>, c: Conn, r: Conn): seq<Entry> {
    if issued == [] then []
    else
      var n: nat := |issued| - 1;
      IssuedTo(issued[..n], c, r) + if r in issued[n].reached then [Entry(c, n, issued[n].frame)] else []
  }

  /** Every queue saw, from every sender, exactly the sender's issues to it, once each and in order. */
  ghost predicate Fifo(s: System) {
    forall c: Conn, r: Conn :: c < |s.conns| && r < |s.conns| ==>
      From(s.conns[r].attempts, c) == IssuedTo(s.conns[c].issued, c, r)
  }

  /** Nobody outside the audience is reached, and all of it has been, except by the broadcast in progress. */
  ghost predicate IssuesOk(s: System, c: Conn)
    requires c < |s.conns|
  {
    var issued := s.conns[c].issued;
    var pc := s.conns[c].pc;
    && (forall n: nat :: n < |issued| - (if pc.Delivering? then 1 else 0) ==> issued[n].reached == issued[n].audience)
    && (pc.Delivering? ==>
          && issued != []
          && issued[|issued| - 1].reached == issued[|issued| - 1].audience - pc.pending
          && issued[|issued| - 1].frame == pc.frame
          && pc.pending <= issued[|issued| - 1].audience)
  }

  /** Histories mention only connections that exist. */
  ghost predicate Bounded(s: System, c: Conn)
    requires c < |s.conns|
  {
    IssuesWithin(s.conns[c].issued, |s.conns|) && SendersWithin(s.conns[c].attempts, |s.conns|)
  }

  ghost predicate IssuesWithin(issued: seq<Issue>, bound: nat) {
    forall n: nat, x: Conn :: n < |issued| && x in issued[n].audience ==> x < bound
  }

  ghost predicate SendersWithin(attempts: seq<Attempt>, bound: nat) {
    forall i: nat :: i < |attempts| ==> attempts[i].entry.sender < bound
  }

  ghost predicate Ordered(s: System) {
    && Fifo(s)
    && (forall c: Conn :: c < |s.conns| ==> IssuesOk(s, c))
    && (forall c: Conn :: c < |s.conns| ==> Bounded(s, c))
  }

  // ---- Fifo, step by step ----

  lemma IssuedToAppend(issued: seq<Issue>, x: Issue, c: Conn, r: Conn)
    ensures IssuedTo(issued + [x], c, r)
         == IssuedTo(issued, c, r) + if r in x.reached then [Entry(c, |issued|, x.frame)] else []
  {
  }

  /** Reaching one more recipient adds the latest issue to what that recipient was issued, and nothing else. */
  lemma IssuedToReach(cl: Client, c: Conn, r: Conn, i: Conn)
    requires cl.issued != [] && r !in cl.issued[|cl.issued| - 1].reached
    ensures IssuedTo(Reach(cl, r).issued, c, i)
         == IssuedTo(cl.issued, c, i) + if i == r then [Entry(c, |cl.issued| - 1, cl.issued[|cl.issued| - 1].frame)]
             else []
  {
  }

  lemma PushAppends(cl: Client, entry: Entry, c: Conn)
    ensures From(Push(cl, entry).attempts, c) == From(cl.attempts, c) + if entry.sender == c then [entry] else []
  {
  }

  /** Steps that touch neither histories of pushes. */
  lemma QuietKeepsFifo(s: System, t: System)
    requires Fifo(s) && |t.conns| == |s.conns|
    requires forall i: Conn :: i < |s.conns| ==>
             t.conns[i].attempts == s.conns[i].attempts && t.conns[i].issued == s.conns[i].issued
    ensures Fifo(t)
  {
  }

  lemma PushToKeepsFifo(s: System, c: Conn, r: Conn, frame: Envelope, pc: Pc)
    requires Fifo(s) && c < |s.conns| && r < |s.conns|
    ensures Fifo(Goto(PushTo(s, c, r, frame), c, pc))
  {
    var t := Goto(PushTo(s, c, r, frame), c, pc);
    var entry := Entry(c, |s.conns[c].issued|, frame);
    forall x: Conn, i: Conn | x < |t.conns| && i < |t.conns|
      ensures From(t.conns[i].attempts, x) == IssuedTo(t.conns[x].issued, x, i)
    {
      PushToOne(s, c, r, frame, pc, i);
      PushAppends(s.conns[i], entry, x);
      IssuedToAppend(s.conns[c].issued, Issue(frame, {r}, {r}), c, i);
      assert From(s.conns[i].attempts, x) == IssuedTo(s.conns[x].issued, x, i);
      IssueOf(s, c, r, frame, pc, x);
    }
  }

  lemma IssueOf(s: System, c: Conn, r: Conn, frame: Envelope, pc: Pc, x: Conn)
    requires c < |s.conns| && r < |s.conns| && x < |s.conns|
    ensures Goto(PushTo(s, c, r, frame), c, pc).conns[x].issued
         == if x == c then s.conns[c].issued + [Issue(frame, {r}, {r})] else s.conns[x].issued
  {
  }

  lemma StartKeepsFifo(s: System, c: Conn, room: Room, frame: Envelope, rest: Plan<Conn>)
    requires Fifo(s) && c < |s.conns|
    ensures Fifo(Perform(s, c, ToRoom(room, frame), rest))
  {
  }

  lemma DeliverIssues(s: System, c: Conn, r: Conn, i: Conn)
    requires c < |s.conns| && r < |s.conns| && i < |s.conns| && s.conns[c].pc.Delivering? && s.conns[c].issued != []
    ensures Deliver(s, c, r).conns[i].issued == if i == c then Reach(s.conns[i], r).issued else s.conns[i].issued
  {
  }

  lemma DeliverPushes(s: System, c: Conn, r: Conn, i: Conn, x: Conn)
    requires c < |s.conns| && r < |s.conns| && i < |s.conns| && s.conns[c].pc.Delivering? && s.conns[c].issued != []
    ensures From(Deliver(s, c, r).conns[i].attempts, x)
         == From(s.conns[i].attempts, x)
            + if i == r && x == c then [Entry(c, |s.conns[c].issued| - 1, s.conns[c].pc.frame)] else []
  {
    var entry := Entry(c, |s.conns[c].issued| - 1, s.conns[c].pc.frame);
    DeliverToOne(s, c, r, i);
    PushAppends(s.conns[i], entry, x);
  }

  lemma DeliverKeepsFifoAt(s: System, c: Conn, r: Conn, x: Conn, i: Conn)
    requires c < |s.conns| && r < |s.conns| && x < |s.conns| && i < |s.conns| && IssuesOk(s, c)
    requires s.conns[c].pc.Delivering? && s.conns[c].issued != [] && r in s.conns[c].pc.pending
    requires From(s.conns[i].attempts, x) == IssuedTo(s.conns[x].issued, x, i)
    ensures From(Deliver(s, c, r).conns[i].attempts, x) == IssuedTo(Deliver(s, c, r).conns[x].issued, x, i)
  {
    DeliverPushes(s, c, r, i, x);
    DeliverIssues(s, c, r, x);
    IssuedToReach(s.conns[c], c, r, i);
  }

  lemma DeliverKeepsFifo(s: System, c: Conn, r: Conn)
    requires Fifo(s) && c < |s.conns| && r < |s.conns| && IssuesOk(s, c)
    requires s.conns[c].pc.Delivering? && s.conns[c].issued != [] && r in s.conns[c].pc.pending
    ensures Fifo(Deliver(s, c, r))
  {
    forall x: Conn, i: Conn | x < |s.conns| && i < |s.conns|
      ensures From(Deliver(s, c, r).conns[i].attempts, x) == IssuedTo(Deliver(s, c, r).conns[x].issued, x, i)
    {
      assert From(s.conns[i].attempts, x) == IssuedTo(s.conns[x].issued, x, i);
      DeliverKeepsFifoAt(s, c, r, x, i);
    }
  }

  lemma ConnectKeepsFifo(s: System)
    requires Ordered(s)
    ensures Fifo(Connected(s))
  {
    var t := Connected(s);
    var n: Conn := |s.conns|;
    forall x: Conn, i: Conn | x < |t.conns| && i < |t.conns|
      ensures From(t.conns[i].attempts, x) == IssuedTo(t.conns[x].issued, x, i)
    {
      if x < n && i < n {
        assert From(s.conns[i].attempts, x) == IssuedTo(s.conns[x].issued, x, i);
      } else if x < n {
        assert Bounded(s, x) && IssuesOk(s, x);
        NothingForStranger(s.conns[x].issued, x, n);
      } else if i < n {
        assert Bounded(s, i);
        NothingFromStranger(s.conns[i].attempts, n);
      }
    }
  }

  lemma {:induction false} NothingForStranger(issued: seq<Issue>, c: Conn, r: Conn)
    requires forall n :: 0 <= n < |issued| ==> r !in issued[n].reached
    ensures IssuedTo(issued, c, r) == []
  {
    if issued != [] {
      NothingForStranger(issued[..|issued| - 1], c, r);
    }
  }

  lemma {:induction false} NothingFromStranger(attempts: seq<Attempt>, c: Conn)
    requires forall i :: 0 <= i < |attempts| ==> attempts[i].entry.sender != c
    ensures From(attempts, c) == []
  {
    if attempts != [] {
      NothingFromStranger(attempts[..|attempts| - 1], c);
    }
  }

  // ---- Issues, step by step ----

  lemma OthersIssueInAct(s: System, c: Conn, i: Conn)
    requires Enabled(s, Act(c)) && i < |s.conns| && i != c
    ensures Apply(s, Act(c)).conns[i].issued == s.conns[i].issued && Apply(s, Act(c)).conns[i].pc == s.conns[i].pc
  {
  }

  lemma OthersIssue(s: System, l: Label, i: Conn)
    requires Enabled(s, l) && i < |s.conns| && (l.Connect? || i != l.c)
    requires l.DeliverTo? ==> l.r != l.c
    ensures Apply(s, l).conns[i].issued == s.conns[i].issued && Apply(s, l).conns[i].pc == s.conns[i].pc
  {
    if l.Act? {
      OthersIssueInAct(s, l.c, i);
    }
  }

  lemma PerformKeepsIssues(s: System, c: Conn, action: Action<Conn>, rest: Plan<Conn>)
    requires c < |s.conns| && s.conns[c].pc.Running? && IssuesOk(s, c)
    requires action.ToPeer? ==> action.peer < |s.conns|
    ensures IssuesOk(Perform(s, c, action, rest), c)
  {
  }

  lemma DeliverKeepsIssues(s: System, c: Conn, r: Conn)
    requires c < |s.conns| && r < |s.conns| && IssuesOk(s, c) && r != c && !s.conns[r].closed
    requires s.conns[c].pc.Delivering? && s.conns[c].issued != [] && r in s.conns[c].pc.pending
    ensures IssuesOk(Deliver(s, c, r), c)
  {
  }

  /** A pending recipient is still a member: members only change when no broadcast is inside. */
  lemma PendingIsOpen(s: System, c: Conn, r: Conn)
    requires Shape(s) && c < |s.conns| && s.conns[c].pc.Delivering? && r in s.conns[c].pc.pending
    ensures r != c && r < |s.conns| && !s.conns[r].closed && r in Members(s.rooms, s.conns[c].pc.room)
  {
    assert PcOk(s, c);
    MembersAreOpen(s, r, s.conns[c].pc.room);
  }

  /** A step that pushes nothing leaves no broadcast half done. */
  lemma QuietKeepsIssues(s: System, l: Label)
    requires Enabled(s, l) && !l.Connect? && !l.Welcome? && !l.DeliverTo? && IssuesOk(s, l.c)
    requires l.Act? ==> !(s.conns[l.c].pc.Running? && s.conns[l.c].pc.todo != [])
    ensures IssuesOk(Apply(s, l), l.c)
  {
    IssuesUntouched(s, l, l.c);
    QuietPc(s, l);
  }

  lemma QuietPc(s: System, l: Label)
    requires Enabled(s, l) && !l.Connect? && !l.Welcome? && !l.DeliverTo?
    requires l.Act? ==> !(s.conns[l.c].pc.Running? && s.conns[l.c].pc.todo != [])
    ensures var pc, next := s.conns[l.c].pc, Apply(s, l).conns[l.c].pc;
            next == pc || (!next.Delivering? && (pc.Delivering? ==> pc.pending == {}))
  {
  }

  lemma OwnIssue(s: System, l: Label)
    requires Shape(s) && Enabled(s, l) && !l.Connect? && IssuesOk(s, l.c)
    ensures IssuesOk(Apply(s, l), l.c)
  {
    if l.Welcome? {
      IssueOf(s, l.c, l.c, WelcomeFrame(s.server, IdOf(l.c)), Unless(s.conns[l.c].closed, Idle), l.c);
    } else if l.DeliverTo? {
      PendingIsOpen(s, l.c, l.r);
      DeliverKeepsIssues(s, l.c, l.r);
    } else if l.Act? && s.conns[l.c].pc.Running? && s.conns[l.c].pc.todo != [] {
      PerformKeepsIssues(s, l.c, s.conns[l.c].pc.todo[0], s.conns[l.c].pc.todo[1..]);
    } else {
      QuietKeepsIssues(s, l);
    }
  }

  /** The issue that a step of `c`'s plan starts. */
  function IssueBy(s: System, c: Conn, action: Action<Conn>): Issue {
    match action
    case ToSelf(frame) => Issue(frame, {c}, {c})
    case ToPeer(peer, frame) => Issue(frame, {peer}, {peer})
    case ToRoom(room, frame) => Issue(frame, Members(s.rooms, room) - {c}, {})
  }

  lemma PerformIssues(s: System, c: Conn, action: Action<Conn>, rest: Plan<Conn>, i: Conn)
    requires c < |s.conns| && i < |s.conns|
    requires action.ToPeer? ==> action.peer < |s.conns|
    ensures Perform(s, c, action, rest).conns[i].issued == s.conns[i].issued + if i == c then [IssueBy(s, c, action)]
            else []
  {
  }

  lemma PerformIsBounded(s: System, c: Conn, action: Action<Conn>, rest: Plan<Conn>, i: Conn)
    requires RoomsOk(s) && c < |s.conns| && i < |s.conns|
    requires action.ToPeer? ==> action.peer < |s.conns|
    requires IssuesWithin(s.conns[i].issued, |s.conns|)
    ensures IssuesWithin(Perform(s, c, action, rest).conns[i].issued, |s.conns|)
  {
  }

  /** Steps that start no issue and reach nobody. */
  lemma IssuesUntouched(s: System, l: Label, i: Conn)
    requires Enabled(s, l) && i < |s.conns| && !l.Welcome? && !l.DeliverTo?
    requires l.Act? ==> !(s.conns[l.c].pc.Running? && s.conns[l.c].pc.todo != [])
    ensures Apply(s, l).conns[i].issued == s.conns[i].issued
  {
  }

  lemma StepIssuesWithin(s: System, l: Label, i: Conn)
    requires Shape(s) && Enabled(s, l) && i < |s.conns| && IssuesWithin(s.conns[i].issued, |s.conns|)
    ensures IssuesWithin(Apply(s, l).conns[i].issued, |s.conns|)
  {
    if l.Welcome? {
      IssueOf(s, l.c, l.c, WelcomeFrame(s.server, IdOf(l.c)), Unless(s.conns[l.c].closed, Idle), i);
    } else if l.DeliverTo? {
      DeliverIssues(s, l.c, l.r, i);
    } else if l.Act? && s.conns[l.c].pc.Running? && s.conns[l.c].pc.todo != [] {
      PerformIsBounded(s, l.c, s.conns[l.c].pc.todo[0], s.conns[l.c].pc.todo[1..], i);
    } else {
      IssuesUntouched(s, l, i);
    }
  }

  lemma StepIsBounded(s: System, l: Label, i: Conn)
    requires Shape(s) && Enabled(s, l) && i < |s.conns| && Bounded(s, i)
    ensures Bounded(Apply(s, l), i)
  {
    ConnectionsGrow(s, l);
    StepIssuesWithin(s, l, i);
    QueuesChange(s, l, i);
  }

  lemma PerformKeepsFifo(s: System, c: Conn, action: Action<Conn>, rest: Plan<Conn>)
    requires Fifo(s) && c < |s.conns|
    requires action.ToPeer? ==> action.peer < |s.conns|
    ensures Fifo(Perform(s, c, action, rest))
  {
    match action
    case ToSelf(frame) => PushToKeepsFifo(s, c, c, frame, Unless(s.conns[c].closed, Running(rest)));
    case ToPeer(peer, frame) => PushToKeepsFifo(s, c, peer, frame, Unless(s.conns[peer].closed, Running(rest)));
    case ToRoom(room, frame) => StartKeepsFifo(s, c, room, frame, rest);
  }

  lemma StepKeepsFifo(s: System, l: Label)
    requires Shape(s) && Ordered(s) && Enabled(s, l)
    ensures Fifo(Apply(s, l))
  {
    if l.Connect? {
      ConnectKeepsFifo(s);
    } else if l.Welcome? {
      PushToKeepsFifo(s, l.c, l.c, WelcomeFrame(s.server, IdOf(l.c)), Unless(s.conns[l.c].closed, Idle));
    } else if l.DeliverTo? {
      DeliverKeepsFifo(s, l.c, l.r);
    } else if l.Act? && s.conns[l.c].pc.Running? && s.conns[l.c].pc.todo != [] {
      PerformKeepsFifo(s, l.c, s.conns[l.c].pc.todo[0], s.conns[l.c].pc.todo[1..]);
    } else {
      forall i: Conn | i < |s.conns|
        ensures Apply(s, l).conns[i].attempts == s.conns[i].attempts && Apply(s, l).conns[i].issued == s.conns[i].issued
      {
        QueuesChange(s, l, i);
        IssuesUntouched(s, l, i);
      }
      QuietKeepsFifo(s, Apply(s, l));
    }
  }

  lemma StepKeepsOrder(s: System, l: Label)
    requires Shape(s) && Ordered(s) && Enabled(s, l)
    ensures Ordered(Apply(s, l))
  {
    var t := Apply(s, l);
    StepKeepsFifo(s, l);
    forall i: Conn | i < |t.conns|
      ensures IssuesOk(t, i) && Bounded(t, i)
    {
      if i < |s.conns| {
        assert IssuesOk(s, i) && Bounded(s, i);
        StepIsBounded(s, l, i);
        if !l.Connect? && i == l.c {
          OwnIssue(s, l);
        } else {
          if l.DeliverTo? {
            PendingIsOpen(s, l.c, l.r);
          }
          OthersIssue(s, l, i);
        }
      } else {
        NewcomerIsBlank(s, l, i);
      }
    }
  }

  /** In every run, every queue saw each sender's issues in order, once each. */
  lemma {:induction false} RunsKeepOrder(limits: HubLimits, server: string, run: seq<Label>)
    requires |Exec(limits, server, run).conns| <= WORD
    ensures Ordered(Exec(limits, server, run))
  {
    if run != [] {
      var s, l := Exec(limits, server, run[..|run| - 1]), run[|run| - 1];
      ConnectionsGrow(s, l);
      RunsKeepShape(limits, server, run[..|run| - 1]);
      RunsKeepOrder(limits, server, run[..|run| - 1]);
      if Enabled(s, l) {
        StepKeepsOrder(s, l);
      }
    }
  }

  // ---- What the order means ----

  ghost predicate Subsequence<T>(a: seq<T>, b: seq<T>) {
    if a == [] then true
    else if b == [] then false
    else
      var a', b' := a[..|a| - 1], b[..|b| - 1];
      (a[|a| - 1] == b[|b| - 1] && Subsequence(a', b')) || Subsequence(a, b')
  }

  lemma SubsequenceGrows<T>(a: seq<T>, b: seq<T>, x: T)
    requires Subsequence(a, b)
    ensures Subsequence(a, b + [x]) && Subsequence(a + [x], b + [x])
  {
  }

  lemma {:induction false} SubsequencePrefix<T>(a: seq<T>, x: seq<T>, b: seq<T>)
    requires Subsequence(a + x, b)
    ensures Subsequence(a, b)
    decreases |b|
  {
    if a != [] && b != [] {
      var b' := b[..|b| - 1];
      if Subsequence(a + x, b') {
        SubsequencePrefix(a, x, b');
      } else if x == [] {
        assert a + x == a;
      } else {
        assert (a + x)[..|a + x| - 1] == a + x[..|x| - 1];
        SubsequencePrefix(a, x[..|x| - 1], b');
      }
    }
  }

  function SentBy(entries: seq<Entry>, c: Conn): seq<Entry> {
    if entries == [] then []
    else
      var last := entries[|entries| - 1];
      SentBy(entries[..|entries| - 1], c) + if last.sender == c then [last] else []
  }

  lemma {:induction false} SentByConcat(a: seq<Entry>, b: seq<Entry>, c: Conn)
    ensures SentBy(a + b, c) == SentBy(a, c) + SentBy(b, c)
  {
    if b == [] {
      assert a + b == a;
    } else {
      SentByConcat(a, b[..|b| - 1], c);
      assert (a + b)[..|a + b| - 1] == a + b[..|b| - 1];
    }
  }

  lemma SentByAppend(entries: seq<Entry>, e: Entry, c: Conn)
    ensures SentBy(entries + [e], c) == SentBy(entries, c) + if e.sender == c then [e] else []
  {
  }

  lemma {:induction false} AcceptedKeepsOrder(attempts: seq<Attempt>, c: Conn)
    ensures Subsequence(SentBy(AcceptedOf(attempts), c), From(attempts, c))
  {
    if attempts != [] {
      var front, last := attempts[..|attempts| - 1], attempts[|attempts| - 1];
      var sent, from := SentBy(AcceptedOf(front), c), From(front, c);
      AcceptedKeepsOrder(front, c);
      SentByAppend(AcceptedOf(front), last.entry, c);
      SubsequenceGrows(sent, from, last.entry);
      assert sent + [] == sent && from + [] == from && AcceptedOf(front) + [] == AcceptedOf(front);
    }
  }

  /** Per-sender FIFO in every run: what a connection has dequeued from a sender, and that with what is still
      queued, are subsequences of what the sender issued to it, in the order of issue. */
  lemma PerSenderFifo(limits: HubLimits, server: string, run: seq<Label>, c: Conn, r: Conn)
    requires |Exec(limits, server, run).conns| <= WORD
    requires c < |Exec(limits, server, run).conns| && r < |Exec(limits, server, run).conns|
    ensures var s := Exec(limits, server, run);
            && Subsequence(SentBy(s.conns[r].taken, c), IssuedTo(s.conns[c].issued, c, r))
            && Subsequence(SentBy(s.conns[r].taken + s.conns[r].queue, c), IssuedTo(s.conns[c].issued, c, r))
  {
    var s := Exec(limits, server, run);
    var cl := s.conns[r];
    RunsKeepOrder(limits, server, run);
    RunsConserve(limits, server, run);
    assert Conserved(cl);
    AcceptedKeepsOrder(cl.attempts, c);
    SentByConcat(cl.taken, cl.queue, c);
    SubsequencePrefix(SentBy(cl.taken, c), SentBy(cl.queue, c), IssuedTo(s.conns[c].issued, c, r));
  }

  /** The list of issues to a recipient is in the order of issue, and holds exactly those that reached it. */
  lemma {:induction false} IssuedToIsOrdered(issued: seq<Issue>, c: Conn, r: Conn)
    ensures forall i, j :: 0 <= i < j < |IssuedTo(issued, c, r)| ==>
            IssuedTo(issued, c, r)[i].stamp < IssuedTo(issued, c, r)[j].stamp
    ensures forall e :: e in IssuedTo(issued, c, r) <==>
              e.sender == c && e.stamp < |issued| && r in issued[e.stamp].reached && e.frame == issued[e.stamp].frame
  {
    if issued != [] {
      IssuedToIsOrdered(issued[..|issued| - 1], c, r);
    }
  }

  // ---- Exactly once ----

  /** How often issue `n` of `c` was pushed at this queue. */
  function Times(attempts: seq<Attempt>, c: Conn, n: nat): nat {
    if attempts == [] then 0
    else
      var last := attempts[|attempts| - 1].entry;
      Times(attempts[..|attempts| - 1], c, n) + if last.sender == c && last.stamp == n then 1 else 0
  }

  function Stamped(entries: seq<Entry>, n: nat): nat {
    if entries == [] then 0
    else Stamped(entries[..|entries| - 1], n) + if entries[|entries| - 1].stamp == n then 1 else 0
  }

  lemma StampedAppend(entries: seq<Entry>, e: Entry, n: nat)
    ensures Stamped(entries + [e], n) == Stamped(entries, n) + if e.stamp == n then 1 else 0
  {
  }

  lemma {:induction false} TimesIsStamped(attempts: seq<Attempt>, c: Conn, n: nat)
    ensures Times(attempts, c, n) == Stamped(From(attempts, c), n)
  {
    if attempts != [] {
      var front := attempts[..|attempts| - 1];
      TimesIsStamped(front, c, n);
      StampedAppend(From(front, c), attempts[|attempts| - 1].entry, n);
      assert From(front, c) + [] == From(front, c);
    }
  }

  lemma {:induction false} IssuedOnce(issued: seq<Issue>, c: Conn, r: Conn, n: nat)
    ensures Stamped(IssuedTo(issued, c, r), n) == if n < |issued| && r in issued[n].reached then 1 else 0
  {
    if issued != [] {
      var last := |issued| - 1;
      IssuedOnce(issued[..last], c, r, n);
      StampedAppend(IssuedTo(issued[..last], c, r), Entry(c, last, issued[last].frame), n);
      assert IssuedTo(issued[..last], c, r) + [] == IssuedTo(issued[..last], c, r);
    }
  }

  /** Once its sender has moved on, an issue was pushed exactly once at each member of its audience, and at nobody
      else. */
  lemma ExactlyOnce(limits: HubLimits, server: string, run: seq<Label>, c: Conn, n: nat, r: Conn)
    requires |Exec(limits, server, run).conns| <= WORD
    requires c < |Exec(limits, server, run).conns| && r < |Exec(limits, server, run).conns|
    requires n < |Exec(limits, server, run).conns[c].issued|
    requires Exec(limits, server, run).conns[c].pc.Delivering? ==> n + 1 < |Exec(limits, server, run).conns[c].issued|
    ensures var s := Exec(limits, server, run);
            Times(s.conns[r].attempts, c, n) == if r in s.conns[c].issued[n].audience then 1 else 0
  {
    var s := Exec(limits, server, run);
    RunsKeepOrder(limits, server, run);
    assert IssuesOk(s, c);
    assert From(s.conns[r].attempts, c) == IssuedTo(s.conns[c].issued, c, r);
    TimesIsStamped(s.conns[r].attempts, c, n);
    IssuedOnce(s.conns[c].issued, c, r, n);
  }
}
