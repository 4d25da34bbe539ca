/** The relay's promises, for every run and every next step. */
module RelaySafety {
  import opened Protocol
  import opened Membership
  import opened Routes
  import opened RelaySystem
  import opened RelayShape
  import opened RelayHistory
  import opened RelayOrder

  // ---- Who may receive what ----

  /** A message goes from a member to a member of its room, a notice to another member of its room, and a whisper
      to the client it names or back to its sender. */
  ghost predicate Rightful(s: System, d: Delivery) {
    var sender, frame := d.entry.sender, d.entry.frame;
    && sender < |s.conns| && d.to < |s.conns|
    && (frame.typ == "message" ==>
          && frame.clientId == IdOf(sender)
          && sender in Members(s.rooms, FrameRoom(frame)) && d.to in Members(s.rooms, FrameRoom(frame)))
    && (frame.typ == "system" ==>
          frame.clientId == IdOf(sender) && d.to != sender && d.to in Members(s.rooms, FrameRoom(frame)))
    && (frame.typ == "whisper" ==> d.to == sender || IdOf(d.to) == frame.to)
  }

  lemma PushesAreRightful(s: System, l: Label)
    requires Shape(s) && Enabled(s, l) && PushOf(s, l).Some?
    ensures Rightful(s, PushOf(s, l).value)
  {
    var c := l.c;
    assert PcOk(s, c);
    if l.Act? {
      RestOk(s, c);
      var action := s.conns[c].pc.todo[0];
      if action.ToSelf? && action.frame.typ == "message" {
        TwoSides(s, c, FrameRoom(action.frame));
      }
    } else if l.DeliverTo? {
      PendingIsOpen(s, c, l.r);
      TwoSides(s, c, s.conns[c].pc.room);
    }
  }

  /** Isolation in every interleaving: at the moment a frame is pushed, it is for its receiver. The answer of a
      separately locked member check is still true then. */
  lemma Isolation(limits: HubLimits, server: string, run: seq<Label>, l: Label)
    requires |Exec(limits, server, run).conns| <= WORD
    requires Enabled(Exec(limits, server, run), l) && PushOf(Exec(limits, server, run), l).Some?
    ensures Rightful(Exec(limits, server, run), PushOf(Exec(limits, server, run), l).value)
  {
    RunsKeepShape(limits, server, run);
    PushesAreRightful(Exec(limits, server, run), l);
  }

  /** `ref` and the channel that a frame names share a key without being the same: one kind goes on past a ':'. */
  ghost predicate Confused(ref: RoomRef, kind: string, id: string) {
    ref.ChannelRef? && (Absorbs(ref.kind, ref.id, kind, id) || Absorbs(kind, id, ref.kind, ref.id))
  }

  /** A channel message reaches only clients that joined by the same kind and target, or by ones that its key is
      confused with; between kinds without ':' only the former. */
  lemma ChannelIsolation(limits: HubLimits, server: string, run: seq<Label>, l: Label)
    requires |Exec(limits, server, run).conns| <= WORD
    requires Enabled(Exec(limits, server, run), l) && PushOf(Exec(limits, server, run), l).Some?
    ensures var s := Exec(limits, server, run);
            var d := PushOf(s, l).value;
            var frame := d.entry.frame;
            frame.typ == "message" && frame.scope == CHANNEL ==>
              && d.to < |s.conns| && FrameRoom(frame) in s.conns[d.to].via
              && var ref := s.conns[d.to].via[FrameRoom(frame)];
                 && (ref == ChannelRef(frame.channelKind, frame.target)
                    || Confused(ref, frame.channelKind, frame.target))
                 && (ref.ChannelRef? && ColonFree(ref.kind) && ColonFree(frame.channelKind)
                     ==> ref == ChannelRef(frame.channelKind, frame.target))
  {
    var s := Exec(limits, server, run);
    Isolation(limits, server, run, l);
    RunsKeepShape(limits, server, run);
    var d := PushOf(s, l).value;
    var frame := d.entry.frame;
    if frame.typ == "message" && frame.scope == CHANNEL {
      TwoSides(s, d.to, FrameRoom(frame));
      assert ClientOk(s.conns[d.to]);
      var ref := s.conns[d.to].via[FrameRoom(frame)];
      assert RoomOf(ref) == FrameRoom(frame);
      SameKeyRefs(ref, frame.channelKind, frame.target);
    }
  }

  lemma SameKeyRefs(ref: RoomRef, kind: string, id: string)
    requires RoomOf(ref) == Channel(ChannelKey(kind, id))
    ensures ref == ChannelRef(kind, id) || Confused(ref, kind, id)
    ensures ref.ChannelRef? && ColonFree(ref.kind) && ColonFree(kind) ==> ref == ChannelRef(kind, id)
  {
    ChannelKeyCollision(ref.kind, ref.id, kind, id);
    if ColonFree(ref.kind) && ColonFree(kind) {
      ColonFreeKindsSeparate(ref.kind, ref.id, kind, id);
    }
  }

  // ---- Closed queues ----

  /** A push finds its queue closed exactly when it is the first push of a whisper and its peer has
      unregistered; the sender's read loop then ends. */
  lemma RefusedExactly(limits: HubLimits, server: string, run: seq<Label>, l: Label)
    requires |Exec(limits, server, run).conns| <= WORD
    requires Enabled(Exec(limits, server, run), l) && PushOf(Exec(limits, server, run), l).Some?
    ensures var s := Exec(limits, server, run);
            var to := PushOf(s, l).value.to;
            && to < |s.conns|
            && (FateNow(s.conns[to]) == Refused <==>
                  && l.Act? && s.conns[l.c].pc.todo[0].ToPeer?
                  && s.conns[l.c].pc.todo[0].peer == to && s.conns[to].pc.Gone?)
            && (FateNow(s.conns[to]) == Refused ==> Step(s, l).conns[l.c].pc.Closing?)
  {
    var s := Exec(limits, server, run);
    RunsKeepShape(limits, server, run);
    PushesAreRightful(s, l);
    var to := PushOf(s, l).value.to;
    assert ClientOk(s.conns[to]) && ClientOk(s.conns[l.c]);
    if l.DeliverTo? {
      PendingIsOpen(s, l.c, l.r);
    }
  }

  /** The peer that a whisper is about to be pushed to was online when it was looked up. */
  lemma LookupFindsOnline(limits: HubLimits, server: string, run: seq<Label>, c: Conn, p: Conn, frame: Envelope)
    requires |Exec(limits, server, run).conns| <= WORD
    requires Enabled(Exec(limits, server, run), Act(c)) && Exec(limits, server, run).conns[c].pc.Handling?
    requires Step(Exec(limits, server, run), Act(c)).conns[c].pc.Running?
    requires ToPeer(p, frame) in Step(Exec(limits, server, run), Act(c)).conns[c].pc.todo
    ensures p < |Exec(limits, server, run).conns| && Online(Exec(limits, server, run).conns[p].pc)
    ensures IdOf(p) == frame.to == Exec(limits, server, run).conns[c].pc.msg.to
  {
    RunsKeepShape(limits, server, run);
    var s := Exec(limits, server, run);
    var msg := s.conns[c].pc.msg;
    assert Dispatch(msg, IdOf(c)).FindPeer? && msg.to in s.directory && p == s.directory[msg.to];
  }

  // ---- The membership relation over runs ----

  /** Only a client's own steps change its memberships, and only by the pairs that the step names. */
  lemma MembershipChanges(limits: HubLimits, server: string, run: seq<Label>, l: Label)
    requires |Exec(limits, server, run).conns| <= WORD && Enabled(Exec(limits, server, run), l)
    ensures var s, t := Exec(limits, server, run), Step(Exec(limits, server, run), l);
            var before, after := Relation(s.rooms), Relation(t.rooms);
            if l.LeaveAll? then after == set pair | pair in before && pair.1 != l.c
            else if l.Act? && s.conns[l.c].pc.Handling? then
              match Dispatch(s.conns[l.c].pc.msg, IdOf(l.c))
              case JoinRoom(ref) =>
                after == before + if JoinError(s.rooms, s.limits, ref, l.c) == "" then {(RoomOf(ref), l.c)} else {}
              case LeaveRoom(ref) => after == before - {(RoomOf(ref), l.c)}
              case _ => after == before
            else after == before
  {
    var s := Exec(limits, server, run);
    RunsKeepShape(limits, server, run);
    if l.LeaveAll? {
      LeaveAllEmpties(s, l.c);
      SweepRelation(s.rooms, l.c);
    } else if l.Unregister? {
      assert ClientOk(s.conns[l.c]);
      SweepOfNowhere(s, l.c);
    } else if l.Act? && s.conns[l.c].pc.Handling? {
      match Dispatch(s.conns[l.c].pc.msg, IdOf(l.c))
      case JoinRoom(ref) => JoinRelation(s.rooms, s.limits, ref, l.c);
      case LeaveRoom(ref) => LeaveRelation(s.rooms, RoomOf(ref), l.c);
      case _ =>
    } else {
      RoomsUntouched(s, l);
    }
  }

  lemma RoomsUntouched(s: System, l: Label)
    requires Enabled(s, l) && !l.LeaveAll? && !l.Unregister? && (l.Act? ==> !s.conns[l.c].pc.Handling?)
    ensures Apply(s, l).rooms == s.rooms
  {
  }

  /** In every reachable state the rooms' sizes add up to the number of rooms on the clients' records. */
  lemma MembersCountTwice(limits: HubLimits, server: string, run: seq<Label>)
    requires |Exec(limits, server, run).conns| <= WORD
    ensures var s := Exec(limits, server, run);
            && Total(s.rooms.areas) == Total(AreaRecords(s.conns))
            && Total(s.rooms.channels) == Total(ChannelRecords(s.conns))
  {
    RunsKeepShape(limits, server, run);
    var s := Exec(limits, server, run);
    AgreeingTotals(s.rooms.areas, AreaRecords(s.conns));
    AgreeingTotals(s.rooms.channels, ChannelRecords(s.conns));
  }

  ghost predicate LimitsOk(s: System) {
    && WithinLimits(s.rooms.areas, s.limits.area)
    && WithinLimits(s.rooms.channels, s.limits.channel)
  }

  lemma RequestKeepsLimits(s: System, c: Conn, msg: Envelope)
    requires LimitsOk(s) && c < |s.conns|
    ensures LimitsOk(Handle(s, c, msg))
  {
    match Dispatch(msg, IdOf(c))
    case JoinRoom(ref) =>
      if JoinError(s.rooms, s.limits, ref, c) == "" {
        match RoomOf(ref)
        case Area(area) => JoinKeepsLimits(s.rooms.areas, s.limits.area, area, c);
        case Channel(key) => JoinKeepsLimits(s.rooms.channels, s.limits.channel, key, c);
      }
    case LeaveRoom(ref) =>
      {match RoomOf(ref)
       case Area(area) => LeaveKeepsLimits(s.rooms.areas, s.limits.area, area, c);
       case Channel(key) => LeaveKeepsLimits(s.rooms.channels, s.limits.channel, key, c);}
    case _ =>
  }

  lemma StepKeepsLimits(s: System, l: Label)
    requires LimitsOk(s) && Shape(s) && Enabled(s, l)
    ensures LimitsOk(Apply(s, l))
  {
    if l.LeaveAll? {
      LeaveAllEmpties(s, l.c);
      SweepKeepsLimits(s.rooms.areas, s.limits.area, l.c);
      SweepKeepsLimits(s.rooms.channels, s.limits.channel, l.c);
    } else if l.Unregister? {
      SweepKeepsLimits(s.rooms.areas, s.limits.area, l.c);
      SweepKeepsLimits(s.rooms.channels, s.limits.channel, l.c);
    } else if l.Act? && s.conns[l.c].pc.Handling? {
      RequestKeepsLimits(s, l.c, s.conns[l.c].pc.msg);
    } else {
      RoomsUntouched(s, l);
    }
  }

  /** In every reachable state every positive limit holds and no stored room is empty. */
  lemma {:induction false} RunsKeepLimits(limits: HubLimits, server: string, run: seq<Label>)
    requires |Exec(limits, server, run).conns| <= WORD
    ensures LimitsOk(Exec(limits, server, run))
    ensures NoEmptyRoom(Exec(limits, server, run).rooms.areas) && NoEmptyRoom(Exec(limits, server, run).rooms.channels)
  {
    RunsKeepShape(limits, server, run);
    if run != [] {
      var s, l := Exec(limits, server, run[..|run| - 1]), run[|run| - 1];
      ConnectionsGrow(s, l);
      RunsKeepShape(limits, server, run[..|run| - 1]);
      RunsKeepLimits(limits, server, run[..|run| - 1]);
      if Enabled(s, l) {
        StepKeepsLimits(s, l);
      }
    }
  }

  // ---- Identity ----

  /** The directory is a bijection between the online connections and their identifiers. */
  lemma DirectoryIsBijection(limits: HubLimits, server: string, run: seq<Label>, c: Conn, id: string)
    requires |Exec(limits, server, run).conns| <= WORD
    ensures var s := Exec(limits, server, run);
            (id in s.directory && s.directory[id] == c) <==> (c < |s.conns| && Online(s.conns[c].pc) && id == IdOf(c))
  {
    RunsKeepShape(limits, server, run);
  }

  /** Registering never replaces an entry, and unregistering removes the client's own entry and closes its
      queue, which was open until then. */
  lemma EntriesAreOwn(limits: HubLimits, server: string, run: seq<Label>, l: Label)
    requires |Exec(limits, server, run).conns| <= WORD && Enabled(Exec(limits, server, run), l)
    requires l.Register? || l.Unregister?
    ensures var s, t := Exec(limits, server, run), Step(Exec(limits, server, run), l);
            if l.Register? then IdOf(l.c) !in s.directory && t.directory == s.directory[IdOf(l.c) := l.c]
            else
              && IdOf(l.c) in s.directory && s.directory[IdOf(l.c)] == l.c && t.directory == s.directory - {IdOf(l.c)}
              && !s.conns[l.c].closed && t.conns[l.c].closed
  {
    var s := Exec(limits, server, run);
    RunsKeepShape(limits, server, run);
    assert ClientOk(s.conns[l.c]);
    if l.Register? {
      RegisterIsFresh(s, l.c);
    } else {
      UnregisterKeepsDirectory(s, l.c);
    }
  }

  /** A connection that is gone is in no room, on either side. */
  lemma GoneIsNowhere(limits: HubLimits, server: string, run: seq<Label>, c: Conn, room: Room)
    requires |Exec(limits, server, run).conns| <= WORD
    requires c < |Exec(limits, server, run).conns| && !Serving(Exec(limits, server, run).conns[c].pc)
    ensures c !in Members(Exec(limits, server, run).rooms, room) && Exec(limits, server, run).conns[c].own == NOWHERE
  {
    RunsKeepShape(limits, server, run);
    assert ClientOk(Exec(limits, server, run).conns[c]);
    TwoSides(Exec(limits, server, run), c, room);
  }
}
