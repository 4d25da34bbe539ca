/** Order across senders: what is pushed before something else starts comes first everywhere. */
module RelayPrecedence {
  import opened Protocol
  import opened Membership
  import opened Routes
  import opened RelaySystem
  import opened RelayShape
  import opened RelayHistory
  import opened RelayOrder
  import opened RelaySchedules

  predicate IsPush(a: Attempt, c: Conn, n: nat) {
    a.entry.sender == c && a.entry.stamp == n
  }

  /** Every push of issue `n` of `c` stands before every push of issue `m` of `d`. */
  ghost predicate Precedes(attempts: seq<Attempt>, c: Conn, n: nat, d: Conn, m: nat) {
    forall i, j ::
      0 <= i < |attempts| && 0 <= j < |attempts| && IsPush(attempts[i], c, n) && IsPush(attempts[j], d, m) ==> i < j
  }

  // ---- Histories grow ----

  lemma HistoryGrows(s: System, l: Label, r: Conn)
    requires r < |s.conns|
    ensures r < |Step(s, l).conns| && s.conns[r].attempts <= Step(s, l).conns[r].attempts
  {
    ConnectionsGrow(s, l);
    if Enabled(s, l) {
      QueuesChange(s, l, r);
    }
  }

  lemma {:induction false} HistoriesGrow(s: System, more: seq<Label>, r: Conn)
    requires r < |s.conns|
    ensures r < |Steps(s, more).conns| && s.conns[r].attempts <= Steps(s, more).conns[r].attempts
    decreases |more|
  {
    if more != [] {
      HistoryGrows(s, more[0], r);
      HistoriesGrow(Step(s, more[0]), more[1..], r);
    }
  }

  /** Later issues come behind; an issue never changes its audience. */
  ghost predicate SameAudiences(a: seq<Issue>, b: seq<Issue>) {
    |a| <= |b| && forall n: nat :: n < |a| ==> b[n].audience == a[n].audience
  }

  lemma IssuesGrow(s: System, l: Label, i: Conn)
    requires i < |s.conns|
    ensures i < |Step(s, l).conns| && SameAudiences(s.conns[i].issued, Step(s, l).conns[i].issued)
  {
    ConnectionsGrow(s, l);
    if !Enabled(s, l) {
    } else if l.Welcome? {
      IssueOf(s, l.c, l.c, WelcomeFrame(s.server, IdOf(l.c)), Unless(s.conns[l.c].closed, Idle), i);
    } else if l.DeliverTo? {
      DeliverIssues(s, l.c, l.r, i);
    } else if l.Act? && s.conns[l.c].pc.Running? && s.conns[l.c].pc.todo != [] {
      PerformIssues(s, l.c, s.conns[l.c].pc.todo[0], s.conns[l.c].pc.todo[1..], i);
    } else {
      IssuesUntouched(s, l, i);
    }
  }

  lemma {:induction false} AudiencesStay(s: System, more: seq<Label>, i: Conn)
    requires i < |s.conns|
    ensures i < |Steps(s, more).conns| && SameAudiences(s.conns[i].issued, Steps(s, more).conns[i].issued)
    decreases |more|
  {
    if more != [] {
      IssuesGrow(s, more[0], i);
      AudiencesStay(Step(s, more[0]), more[1..], i);
    }
  }

  // ---- Counting pushes ----

  lemma {:induction false} TimesGrow(a: seq<Attempt>, b: seq<Attempt>, c: Conn, n: nat, i: nat)
    requires a <= b
    ensures Times(a, c, n) <= Times(b, c, n)
    ensures |a| <= i < |b| && IsPush(b[i], c, n) ==> Times(a, c, n) < Times(b, c, n)
    decreases |b|
  {
    if |a| < |b| {
      TimesGrow(a, b[..|b| - 1], c, n, i);
    } else {
      assert a == b;
    }
  }

  /** A queue's pushes of an issue, in any state of a run: one if it reached the queue's connection. */
  lemma TimesAreReached(limits: HubLimits, server: string, run: seq<Label>, c: Conn, n: nat, r: Conn)
    requires |Exec(limits, server, run).conns| <= WORD
    requires c < |Exec(limits, server, run).conns| && r < |Exec(limits, server, run).conns|
    ensures var s := Exec(limits, server, run);
            Times(s.conns[r].attempts, c, n)
            == if n < |s.conns[c].issued| && r in s.conns[c].issued[n].reached then 1 else 0
  {
    var s := Exec(limits, server, run);
    RunsKeepOrder(limits, server, run);
    assert From(s.conns[r].attempts, c) == IssuedTo(s.conns[c].issued, c, r);
    TimesIsStamped(s.conns[r].attempts, c, n);
    IssuedOnce(s.conns[c].issued, c, r, n);
  }

  /** Nobody has pushed an issue that has not started. */
  lemma NotStarted(limits: HubLimits, server: string, run: seq<Label>, d: Conn, m: nat, r: Conn)
    requires |Exec(limits, server, run).conns| <= WORD && r < |Exec(limits, server, run).conns|
    requires d < |Exec(limits, server, run).conns| ==> |Exec(limits, server, run).conns[d].issued| <= m
    ensures Times(Exec(limits, server, run).conns[r].attempts, d, m) == 0
  {
    var s := Exec(limits, server, run);
    if d < |s.conns| {
      TimesAreReached(limits, server, run, d, m, r);
    } else {
      RunsKeepOrder(limits, server, run);
      assert Bounded(s, r);
      NothingFromStranger(s.conns[r].attempts, d);
      TimesIsStamped(s.conns[r].attempts, d, m);
    }
  }

  /** What the queue of `r` had seen, nothing if there was no such connection. */
  function SeenBy(s: System, r: Conn): seq<Attempt> {
    if r < |s.conns| then s.conns[r].attempts else []
  }

  ghost predicate Complete(s: System, c: Conn, n: nat) {
    c < |s.conns| && n < |s.conns[c].issued| && (s.conns[c].pc.Delivering? ==> n + 1 < |s.conns[c].issued|)
  }

  /** A complete issue is pushed no more. */
  lemma NoMorePushes(limits: HubLimits, server: string, run: seq<Label>, more: seq<Label>, c: Conn, n: nat, r: Conn)
    requires |Exec(limits, server, run + more).conns| <= WORD && r < |Exec(limits, server, run + more).conns|
    requires |Exec(limits, server, run).conns| <= WORD && Complete(Exec(limits, server, run), c, n)
    requires c < |Exec(limits, server, run + more).conns|
    ensures Times(Exec(limits, server, run + more).conns[r].attempts, c, n)
         <= Times(SeenBy(Exec(limits, server, run), r), c, n)
  {
    var s, t := Exec(limits, server, run), Exec(limits, server, run + more);
    ExecSteps(limits, server, run, more);
    AudiencesStay(s, more, c);
    RunsKeepOrder(limits, server, run);
    RunsKeepOrder(limits, server, run + more);
    assert IssuesOk(s, c) && IssuesOk(t, c) && Bounded(s, c);
    TimesAreReached(limits, server, run + more, c, n, r);
    if r < |s.conns| {
      TimesAreReached(limits, server, run, c, n, r);
    }
  }

  /** An issue that is complete before another one starts comes before it in every queue. */
  lemma CompletedComesFirst(limits: HubLimits, server: string, run: seq<Label>, more: seq<Label>,
                            c: Conn, n: nat, d: Conn, m: nat, r: Conn)
    requires |Exec(limits, server, run + more).conns| <= WORD && r < |Exec(limits, server, run + more).conns|
    requires Complete(Exec(limits, server, run), c, n)
    requires d < |Exec(limits, server, run).conns| ==> |Exec(limits, server, run).conns[d].issued| <= m
    ensures Precedes(Exec(limits, server, run + more).conns[r].attempts, c, n, d, m)
  {
    var s, t := Exec(limits, server, run), Exec(limits, server, run + more);
    ExecSteps(limits, server, run, more);
    AudiencesStay(s, more, c);
    StepsGrow(s, more);
    NoMorePushes(limits, server, run, more, c, n, r);
    var seen, attempts := SeenBy(s, r), t.conns[r].attempts;
    if r < |s.conns| {
      HistoriesGrow(s, more, r);
      NotStarted(limits, server, run, d, m, r);
    }
    forall i, j | 0 <= i < |attempts| && 0 <= j < |attempts| && IsPush(attempts[i], c, n) && IsPush(attempts[j], d, m)
      ensures i < j
    {
      TimesGrow(seen, attempts, c, n, i);
      if j < |seen| {
        TimesGrow(seen[..j], seen, d, m, j);
      }
    }
  }

  lemma {:induction false} StepsGrow(s: System, more: seq<Label>)
    ensures |s.conns| <= |Steps(s, more).conns|
    decreases |more|
  {
    if more != [] {
      ConnectionsGrow(s, more[0]);
      StepsGrow(Step(s, more[0]), more[1..]);
    }
  }
}
