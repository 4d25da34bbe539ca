/** Who is in which room: the hub's two indexes as values, the changes that hub operations make to them,
    and the one relation between clients and rooms that they stand for. */
module Membership {
  import opened Protocol

  /** Room key to its set of members. */
  type Index<C> = map<string, set<C>>

  datatype Rooms<C> = Rooms(areas: Index<C>, channels: Index<C>)

  /** Zero or less means no limit. */
  datatype Limits = Limits(maxRooms: int, maxMembers: int)

  datatype HubLimits = HubLimits(area: Limits, channel: Limits)

  function At<C>(index: Index<C>, key: string): set<C> {
    if key in index then index[key] else {}
  }

  function Members<C>(rooms: Rooms<C>, room: Room): set<C> {
    match room
    case Area(area) => At(rooms.areas, area)
    case Channel(key) => At(rooms.channels, key)
  }

  ghost predicate NoEmptyRoom<C>(index: Index<C>) {
    forall key {:trigger index[key]} :: key in index ==> index[key] != {}
  }

  ghost predicate WithinLimits<C>(index: Index<C>, limits: Limits) {
    && (limits.maxRooms > 0 ==> |index| <= limits.maxRooms)
    && (limits.maxMembers > 0 ==>
          forall key {:trigger |index[key]|} :: key in index ==> |index[key]| <= limits.maxMembers)
  }

  // ---- Joining ----

  datatype Admission = Admitted | TooManyRooms | RoomFull

  function Admit<C>(index: Index<C>, limits: Limits, key: string, c: C): Admission {
    if key !in index then
      if limits.maxRooms > 0 && |index| >= limits.maxRooms then TooManyRooms else Admitted
    else if c in index[key] || limits.maxMembers <= 0 || |index[key]| < limits.maxMembers then Admitted
    else RoomFull
  }

  function With<C>(index: Index<C>, key: string, c: C): Index<C> {
    index[key := At(index, key) + {c}]
  }

  /** Joining a room again changes nothing. */
  lemma WithAgain<C>(index: Index<C>, key: string, c: C)
    requires c in At(index, key)
    ensures With(index, key, c) == index
  {
    assert At(index, key) + {c} == index[key];
  }

  /** Opening the room first, if need be, and then entering it. */
  lemma WithBySteps<C>(index: Index<C>, key: string, c: C)
    ensures var open := if key in index then index else index[key := {}];
            open[key := open[key] + {c}] == With(index, key, c)
  {
  }

  lemma JoinKeepsLimits<C>(index: Index<C>, limits: Limits, key: string, c: C)
    requires WithinLimits(index, limits) && Admit(index, limits, key, c) == Admitted
    ensures WithinLimits(With(index, key, c), limits)
  {
  }

  lemma WithSizes<C>(index: Index<C>, key: string, c: C)
    ensures |With(index, key, c)| == |index| + if key in index then 0 else 1
    ensures |With(index, key, c)[key]| == |At(index, key)| + if c in At(index, key) then 0 else 1
  {
    assert With(index, key, c).Keys == index.Keys + {key};
    if c in At(index, key) {
      assert At(index, key) + {c} == At(index, key);
    }
  }

  lemma WithLimits<C>(index: Index<C>, limits: Limits, key: string, c: C)
    requires WithinLimits(index, limits)
    ensures WithinLimits(With(index, key, c), limits) <==>
              && (limits.maxRooms > 0 ==> |With(index, key, c)| <= limits.maxRooms)
              && (limits.maxMembers > 0 ==> |With(index, key, c)[key]| <= limits.maxMembers)
  {
    var next := With(index, key, c);
    forall other | other in next && other != key
      ensures |next[other]| == |index[other]|
    {
    }
  }

  /** While the limits hold, a client is let in exactly when they still hold with it inside; otherwise the limit that
      would be exceeded is named. */
  lemma AdmitExactly<C>(index: Index<C>, limits: Limits, key: string, c: C)
    requires WithinLimits(index, limits)
    ensures Admit(index, limits, key, c) == Admitted <==> WithinLimits(With(index, key, c), limits)
    ensures Admit(index, limits, key, c) == TooManyRooms
            <==> limits.maxRooms > 0 && |With(index, key, c)| > limits.maxRooms
    ensures Admit(index, limits, key, c) == RoomFull
            <==> limits.maxMembers > 0 && |With(index, key, c)[key]| > limits.maxMembers
  {
    WithSizes(index, key, c);
    WithLimits(index, limits, key, c);
    if key in index && limits.maxMembers > 0 {
      assert |index[key]| <= limits.maxMembers;
    }
  }

  /** What the hub answers to a join: "" for success. */
  function JoinError<C>(rooms: Rooms<C>, limits: HubLimits, ref: RoomRef, c: C): string {
    match ref
    case AreaRef(area) =>
      if area == "" then "target (area id) is required"
      else (match Admit(rooms.areas, limits.area, area, c)
            case Admitted => ""
            case TooManyRooms => "max areas reached"
            case RoomFull => "area is full")
    case ChannelRef(kind, id) =>
      if kind == "" then "channel_kind is required (party|guild|whisper|custom)"
      else if id == "" then "target (channel id) is required"
      else (match Admit(rooms.channels, limits.channel, ChannelKey(kind, id), c)
            case Admitted => ""
            case TooManyRooms => "max channels reached"
            case RoomFull => "channel is full")
  }

  function Join<C>(rooms: Rooms<C>, limits: HubLimits, ref: RoomRef, c: C): Rooms<C> {
    if JoinError(rooms, limits, ref, c) != "" then rooms
    else match RoomOf(ref)
      case Area(area) => rooms.(areas := With(rooms.areas, area, c))
      case Channel(key) => rooms.(channels := With(rooms.channels, key, c))
  }

  // ---- Leaving ----

  /** One client leaves one room; a room left empty goes away. */
  function Without<C>(index: Index<C>, key: string, c: C): Index<C> {
    if key !in index then index
    else if index[key] - {c} == {} then index - {key}
    else index[key := index[key] - {c}]
  }

  function Leave<C>(rooms: Rooms<C>, room: Room, c: C): Rooms<C> {
    match room
    case Area(area) => rooms.(areas := Without(rooms.areas, area, c))
    case Channel(key) => rooms.(channels := Without(rooms.channels, key, c))
  }

  lemma LeaveKeepsLimits<C>(index: Index<C>, limits: Limits, key: string, c: C)
    requires WithinLimits(index, limits)
    ensures WithinLimits(Without(index, key, c), limits)
  {
  }

  /** One client leaves all the rooms named by `keys`. */
  function WithoutAll<C>(index: Index<C>, keys: set<string>, c: C): Index<C> {
    map key | key in index && (key in keys ==> index[key] - {c} != {})
      :: if key in keys then index[key] - {c} else index[key]
  }

  /** One client is struck from every room that holds it. */
  function Swept<C>(index: Index<C>, c: C): Index<C> {
    map key | key in index && (c in index[key] ==> index[key] - {c} != {}) :: index[key] - {c}
  }

  function Sweep<C>(rooms: Rooms<C>, c: C): Rooms<C> {
    Rooms(Swept(rooms.areas, c), Swept(rooms.channels, c))
  }

  lemma SweepKeepsLimits<C>(index: Index<C>, limits: Limits, c: C)
    requires WithinLimits(index, limits)
    ensures WithinLimits(Swept(index, c), limits)
  {
    var next := Swept(index, c);
    SubsetSize(next.Keys, index.Keys);
    forall key | key in next
      ensures |next[key]| <= |index[key]|
    {
      SubsetSize(next[key], index[key]);
    }
  }

  lemma {:induction false} SubsetSize<T>(a: set<T>, b: set<T>)
    requires a <= b
    ensures |a| <= |b|
  {
    assert b == a + (b - a);
  }

  /** Leaving the rooms that hold the client, and the sweep, come to the same. */
  lemma LeavingAllIsSweeping<C>(index: Index<C>, c: C)
    ensures WithoutAll(index, KeysOf(index, c), c) == Swept(index, c)
  {
    forall key | key in index && key !in KeysOf(index, c)
      ensures index[key] - {c} == index[key]
    {
    }
  }

  /** Once the client is in no room, the sweep finds nothing to do. */
  lemma SweptOfAbsent<C>(index: Index<C>, c: C)
    requires forall key :: key in index ==> c !in index[key]
    ensures Swept(index, c) == index
  {
    forall key | key in index
      ensures index[key] - {c} == index[key]
    {
    }
  }

  lemma SweptTwice<C>(index: Index<C>, c: C)
    ensures Swept(Swept(index, c), c) == Swept(index, c)
  {
    SweptOfAbsent(Swept(index, c), c);
  }

  /** Leaving one more room. */
  lemma WithoutAllStep<C>(index: Index<C>, keys: set<string>, key: string, c: C)
    ensures Without(WithoutAll(index, keys, c), key, c) == WithoutAll(index, keys + {key}, c)
  {
    var one := WithoutAll(index, keys, c);
    if key in one {
      assert one[key] - {c} == index[key] - {c};
    }
  }

  /** One client leaves rooms one after the other. */
  function LeftInTurn<C>(index: Index<C>, order: seq<string>, c: C): Index<C> {
    if order == [] then index else Without(LeftInTurn(index, order[..|order| - 1], c), order[|order| - 1], c)
  }

  lemma {:induction false} LeavingInTurn<C>(index: Index<C>, order: seq<string>, c: C)
    ensures LeftInTurn(index, order, c) == WithoutAll(index, (set key | key in order), c)
  {
    if order == [] {
      assert WithoutAll(index, {}, c) == index;
    } else {
      var front, last := order[..|order| - 1], order[|order| - 1];
      assert order == front + [last];
      LeavingInTurn(index, front, c);
      WithoutAllStep(index, (set key | key in front), last, c);
      assert (set key | key in order) == (set key | key in front) + {last};
    }
  }

  /** Leaving one's own rooms one by one, in any order and any number of times, comes to the sweep. */
  lemma LeavingInAnyOrder<C>(index: Index<C>, order: seq<string>, c: C)
    requires forall key :: key in order <==> key in KeysOf(index, c)
    ensures LeftInTurn(index, order, c) == Swept(index, c)
  {
    LeavingInTurn(index, order, c);
    LeavingAllIsSweeping(index, c);
    assert (set key | key in order) == KeysOf(index, c);
  }

  /** The order in which two rooms are left does not matter. */
  lemma WithoutCommutes<C>(index: Index<C>, key1: string, key2: string, c: C)
    ensures Without(Without(index, key1, c), key2, c) == Without(Without(index, key2, c), key1, c)
  {
  }

  // ---- What each change does to one room ----

  lemma JoinMembers<C>(rooms: Rooms<C>, limits: HubLimits, ref: RoomRef, c: C, other: Room)
    ensures Members(Join(rooms, limits, ref, c), other)
         == Members(rooms, other)
            + if JoinError(rooms, limits, ref, c) == "" && other == RoomOf(ref) then {c} else {}
  {
  }

  lemma LeaveMembers<C>(rooms: Rooms<C>, room: Room, c: C, other: Room)
    ensures Members(Leave(rooms, room, c), other)
         == if other == room then Members(rooms, other) - {c} else Members(rooms, other)
  {
  }

  lemma SweepMembers<C>(rooms: Rooms<C>, c: C, other: Room)
    ensures Members(Sweep(rooms, c), other) == Members(rooms, other) - {c}
  {
  }

  /** The rooms of an index that hold `c`. */
  function KeysOf<C>(index: Index<C>, c: C): set<string> {
    set key | key in index && c in index[key]
  }

  lemma KeysAfterJoin<C>(index: Index<C>, key: string, c: C, x: C)
    ensures KeysOf(With(index, key, c), x) == if x == c then KeysOf(index, x) + {key} else KeysOf(index, x)
  {
  }

  lemma KeysAfterLeave<C>(index: Index<C>, key: string, c: C, x: C)
    ensures KeysOf(Without(index, key, c), x) == if x == c then KeysOf(index, x) - {key} else KeysOf(index, x)
  {
    var next := Without(index, key, c);
    forall k
      ensures k in next && x in next[k] <==> k in KeysOf(index, x) && !(x == c && k == key)
    {
      assert k in index ==> (x in index[k] - {c} <==> x in index[k] && x != c);
    }
  }

  lemma KeysAfterSweep<C>(index: Index<C>, c: C, x: C)
    ensures KeysOf(Swept(index, c), x) == if x == c then {} else KeysOf(index, x)
  {
    var next := Swept(index, c);
    forall k
      ensures k in next && x in next[k] <==> k in KeysOf(index, x) && x != c
    {
      assert k in index ==> (x in index[k] - {c} <==> x in index[k] && x != c);
    }
  }

  /** The index agrees with the clients' own records of their rooms and holds no empty room. */
  ghost predicate Agrees<C>(index: Index<C>, records: map<C, set<string>>) {
    && (forall key {:trigger index[key]} :: key in index ==> index[key] <= records.Keys)
    && (forall c {:trigger KeysOf(index, c)} :: c in records ==> records[c] == KeysOf(index, c))
    && NoEmptyRoom(index)
  }

  lemma RegisterAgrees<C>(index: Index<C>, records: map<C, set<string>>, c: C)
    requires Agrees(index, records) && c !in records
    ensures Agrees(index, records[c := {}])
  {
  }

  lemma JoinAgrees<C>(index: Index<C>, records: map<C, set<string>>, key: string, c: C)
    requires Agrees(index, records) && c in records
    ensures Agrees(With(index, key, c), records[c := records[c] + {key}])
  {
    var next := records[c := records[c] + {key}];
    forall x | x in next
      ensures next[x] == KeysOf(With(index, key, c), x)
    {
      KeysAfterJoin(index, key, c, x);
    }
  }

  lemma LeaveAgrees<C>(index: Index<C>, records: map<C, set<string>>, key: string, c: C)
    requires Agrees(index, records) && c in records
    ensures Agrees(Without(index, key, c), records[c := records[c] - {key}])
  {
    var next := records[c := records[c] - {key}];
    forall x | x in next
      ensures next[x] == KeysOf(Without(index, key, c), x)
    {
      KeysAfterLeave(index, key, c, x);
    }
  }

  lemma SweepAgrees<C>(index: Index<C>, records: map<C, set<string>>, c: C)
    requires Agrees(index, records) && c in records
    ensures Agrees(Swept(index, c), records[c := {}])
  {
    var next := records[c := {}];
    forall x | x in next
      ensures next[x] == KeysOf(Swept(index, c), x)
    {
      KeysAfterSweep(index, c, x);
    }
  }

  lemma UnregisterAgrees<C>(index: Index<C>, records: map<C, set<string>>, c: C)
    requires Agrees(index, records)
    ensures Agrees(Swept(index, c), records - {c})
  {
    if c !in records {
      SweptOfAbsent(index, c);
      assert records - {c} == records;
      return;
    }
    SweepAgrees(index, records, c);
    var next := Swept(index, c);
    forall key | key in next
      ensures next[key] <= (records - {c}).Keys
    {
      assert next[key] <= records.Keys && c !in next[key];
    }
  }

  // ---- The membership relation ----

  /** Every (room, member) pair that the two indexes hold. */
  function Relation<C>(rooms: Rooms<C>): set<(Room, C)> {
    (set area, c | area in rooms.areas && c in rooms.areas[area] :: (Area(area), c))
    + (set key, c | key in rooms.channels && c in rooms.channels[key] :: (Channel(key), c))
  }

  lemma RelationHolds<C>(rooms: Rooms<C>, room: Room, c: C)
    ensures (room, c) in Relation(rooms) <==> c in Members(rooms, room)
  {
  }

  lemma IndexesAgree<C>(a: Index<C>, b: Index<C>)
    requires NoEmptyRoom(a) && NoEmptyRoom(b)
    requires forall key :: At(a, key) == At(b, key)
    ensures a == b
  {
    assert forall key :: key in a <==> At(a, key) != {};
    assert forall key :: key in b <==> At(b, key) != {};
    assert forall key :: key in a ==> a[key] == At(a, key) == b[key];
  }

  /** Without empty rooms the relation is all there is: it determines both indexes. */
  lemma RelationDetermines<C>(a: Rooms<C>, b: Rooms<C>)
    requires NoEmptyRoom(a.areas) && NoEmptyRoom(a.channels) && NoEmptyRoom(b.areas) && NoEmptyRoom(b.channels)
    requires Relation(a) == Relation(b)
    ensures a == b
  {
    forall room: Room
      ensures Members(a, room) == Members(b, room)
    {
      ImageOf(a, room);
      ImageOf(b, room);
    }
    forall key: string
      ensures At(a.areas, key) == At(b.areas, key) && At(a.channels, key) == At(b.channels, key)
    {
      assert At(a.areas, key) == Members(a, Area(key)) && At(b.areas, key) == Members(b, Area(key));
      assert At(a.channels, key) == Members(a, Channel(key)) && At(b.channels, key) == Members(b, Channel(key));
    }
    IndexesAgree(a.areas, b.areas);
    IndexesAgree(a.channels, b.channels);
  }

  /** A broadcast goes to the image of its room under the relation. */
  lemma ImageOf<C>(rooms: Rooms<C>, room: Room)
    ensures Members(rooms, room) == set pair | pair in Relation(rooms) && pair.0 == room :: pair.1
  {
    var image := set pair | pair in Relation(rooms) && pair.0 == room :: pair.1;
    forall c | c in Members(rooms, room)
      ensures c in image
    {
      RelationHolds(rooms, room, c);
      assert (room, c) in Relation(rooms);
    }
  }

  lemma RelationIs<C>(rooms: Rooms<C>, pairs: set<(Room, C)>)
    requires forall room, c :: (room, c) in pairs <==> c in Members(rooms, room)
    ensures Relation(rooms) == pairs
  {
    forall pair: (Room, C)
      ensures pair in Relation(rooms) <==> pair in pairs
    {
      RelationHolds(rooms, pair.0, pair.1);
      assert pair == (pair.0, pair.1);
    }
  }

  /** A join adds one pair or changes nothing. */
  lemma JoinRelation<C>(rooms: Rooms<C>, limits: HubLimits, ref: RoomRef, c: C)
    ensures Relation(Join(rooms, limits, ref, c))
         == Relation(rooms) + if JoinError(rooms, limits, ref, c) == "" then {(RoomOf(ref), c)} else {}
  {
    var added := if JoinError(rooms, limits, ref, c) == "" then {(RoomOf(ref), c)} else {};
    forall room, x
      ensures (room, x) in Relation(rooms) + added <==> x in Members(Join(rooms, limits, ref, c), room)
    {
      JoinMembers(rooms, limits, ref, c, room);
      RelationHolds(rooms, room, x);
    }
    RelationIs(Join(rooms, limits, ref, c), Relation(rooms) + added);
  }

  /** A leave removes one pair. */
  lemma LeaveRelation<C>(rooms: Rooms<C>, room: Room, c: C)
    ensures Relation(Leave(rooms, room, c)) == Relation(rooms) - {(room, c)}
  {
    forall other, x
      ensures (other, x) in Relation(rooms) - {(room, c)} <==> x in Members(Leave(rooms, room, c), other)
    {
      LeaveMembers(rooms, room, c, other);
      RelationHolds(rooms, other, x);
    }
    RelationIs(Leave(rooms, room, c), Relation(rooms) - {(room, c)});
  }

  /** A disconnect removes exactly the pairs of its client. */
  lemma SweepRelation<C>(rooms: Rooms<C>, c: C)
    ensures Relation(Sweep(rooms, c)) == set pair | pair in Relation(rooms) && pair.1 != c
  {
    var kept := set pair | pair in Relation(rooms) && pair.1 != c;
    forall room, x
      ensures (room, x) in kept <==> x in Members(Sweep(rooms, c), room)
    {
      SweepMembers(rooms, c, room);
      RelationHolds(rooms, room, x);
    }
    RelationIs(Sweep(rooms, c), kept);
  }

  // ---- Counting members from both sides ----

  ghost function Total<K, V>(m: map<K, set<V>>): nat {
    if m == map[] then 0
    else
      var key :| key in m;
      |m[key]| + Total(m - {key})
  }

  ghost function Pairs<K, V>(m: map<K, set<V>>): set<(K, V)> {
    set key, v | key in m && v in m[key] :: (key, v)
  }

  lemma {:induction false} TotalCountsPairs<K, V>(m: map<K, set<V>>)
    ensures Total(m) == |Pairs(m)|
  {
    if m == map[] {
      assert Pairs(m) == {};
    } else {
      var key :| key in m && Total(m) == |m[key]| + Total(m - {key});
      var here := set v | v in m[key] :: (key, v);
      TotalCountsPairs(m - {key});
      SameSize(m[key], here, v => (key, v));
      assert Pairs(m) == here + Pairs(m - {key});
      assert here !! Pairs(m - {key});
    }
  }

  lemma {:induction false} SameSize<A, B>(a: set<A>, b: set<B>, f: A -> B)
    requires forall x, y :: x in a && y in a && f(x) == f(y) ==> x == y
    requires b == set x | x in a :: f(x)
    ensures |a| == |b|
  {
    if a == {} {
      assert b == {};
    } else {
      var x :| x in a;
      SameSize(a - {x}, b - {f(x)}, f);
    }
  }

  /** When two maps list the same pairs, one by room and one by client, their totals agree. */
  lemma DoubleCount<K, V>(m: map<K, set<V>>, w: map<V, set<K>>)
    requires forall key, v :: key in m && v in m[key] ==> v in w && key in w[v]
    requires forall key, v :: v in w && key in w[v] ==> key in m && v in m[key]
    ensures Total(m) == Total(w)
  {
    TotalCountsPairs(m);
    TotalCountsPairs(w);
    var flip := (pair: (K, V)) => (pair.1, pair.0);
    forall pair | pair in Pairs(w)
      ensures pair in set p | p in Pairs(m) :: flip(p)
    {
      assert flip((pair.1, pair.0)) == pair && (pair.1, pair.0) in Pairs(m);
    }
    SameSize(Pairs(m), Pairs(w), flip);
  }

  /** The sizes of the rooms add up to the number of rooms that the clients have on record. */
  lemma AgreeingTotals<C>(index: Index<C>, records: map<C, set<string>>)
    requires Agrees(index, records)
    ensures Total(index) == Total(records)
  {
    forall key, c
      ensures key in index && c in index[key] <==> c in records && key in records[c]
    {
      assert c in records ==> records[c] == KeysOf(index, c);
    }
    DoubleCount(index, records);
  }
}
