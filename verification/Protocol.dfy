/** The envelope that clients and the relay exchange (server/message.go), the rooms it names, and the
    identifiers the relay issues. */
module Protocol {
  import opened Decimal

  datatype Option<+T> = None | Some(value: T)

  // ---- Envelopes ----

  /** A payload is kept as the JSON it arrived as, with what it decodes to as a string and as the `name` of an
      object, if it does. `Fields` are the small objects that the relay writes itself. */
  datatype Payload =
    | NoPayload
    | Raw(json: string, asText: Option<string>, asNamed: Option<string>)
    | Fields(entries: map<string, string>)

  datatype Envelope = Envelope(typ: string, scope: string, target: string, channelKind: string, to: string,
                               from: string, clientId: string, payload: Payload, error: string)

  const AREA := "area"
  const CHANNEL := "channel"
  const CUSTOM := "custom"
  const DOCUMENTED_KINDS := ["party", "guild", "whisper", CUSTOM]

  const BLANK := Envelope("", "", "", "", "", "", "", NoPayload, "")

  // ---- Rooms ----

  function ChannelKey(kind: string, id: string): string {
    kind + ":" + id
  }

  /** A room as a request names it. */
  datatype RoomRef = AreaRef(area: string) | ChannelRef(kind: string, id: string)

  /** A room as the hub stores it: channels go by their key only. */
  datatype Room = Area(area: string) | Channel(key: string)

  function RoomOf(ref: RoomRef): Room {
    match ref
    case AreaRef(area) => Area(area)
    case ChannelRef(kind, id) => Channel(ChannelKey(kind, id))
  }

  function ScopeOf(ref: RoomRef): string {
    if ref.AreaRef? then AREA else CHANNEL
  }

  function TargetOf(ref: RoomRef): string {
    match ref
    case AreaRef(area) => area
    case ChannelRef(_, id) => id
  }

  /** The room that a request with this scope, kind and target is about. */
  function Addressed(msg: Envelope): Option<RoomRef> {
    if msg.scope == AREA || msg.scope == "" then Some(AreaRef(msg.target))
    else if msg.scope == CHANNEL
        then Some(ChannelRef(if msg.channelKind == "" then CUSTOM else msg.channelKind, msg.target))
    else None
  }

  ghost predicate ColonFree(s: string) {
    ':' !in s
  }

  /** `kind2` goes on past a ':' where `kind1` stops, and `id1` starts with what it took. */
  ghost predicate Absorbs(kind1: string, id1: string, kind2: string, id2: string) {
    exists mid :: kind2 == ChannelKey(kind1, mid) && id1 == ChannelKey(mid, id2)
  }

  lemma ChannelKeyLonger(kind1: string, id1: string, kind2: string, id2: string)
    requires ChannelKey(kind1, id1) == ChannelKey(kind2, id2) && |kind1| < |kind2|
    ensures Absorbs(kind1, id1, kind2, id2)
  {
    var key, n := ChannelKey(kind1, id1), |kind1|;
    var mid := kind2[n + 1..];
    assert kind1 == key[..n] && kind2 == key[..|kind2|] && key[n] == ':';
    assert kind2[n] == key[n];
    assert kind2 == ChannelKey(kind1, mid);
    assert id1 == key[n + 1..];
    assert ChannelKey(kind2, id2) == kind1 + (":" + (mid + ":" + id2));
    assert id1 == ChannelKey(mid, id2);
  }

  /** Two channels share a key exactly when they are the same or one kind absorbs part of the other's id. */
  lemma ChannelKeyCollision(kind1: string, id1: string, kind2: string, id2: string)
    ensures ChannelKey(kind1, id1) == ChannelKey(kind2, id2)
            <==> (kind1 == kind2 && id1 == id2) || Absorbs(kind1, id1, kind2, id2) || Absorbs(kind2, id2, kind1, id1)
  {
    var key1, key2 := ChannelKey(kind1, id1), ChannelKey(kind2, id2);
    if key1 == key2 {
      if |kind1| == |kind2| {
        assert kind1 == key1[..|kind1|] && kind2 == key2[..|kind2|];
        assert id1 == key1[|kind1| + 1..] && id2 == key2[|kind2| + 1..];
      } else if |kind1| < |kind2| {
        ChannelKeyLonger(kind1, id1, kind2, id2);
      } else {
        ChannelKeyLonger(kind2, id2, kind1, id1);
      }
    } else {
      AbsorbedKeysAgree(kind1, id1, kind2, id2);
      AbsorbedKeysAgree(kind2, id2, kind1, id1);
    }
  }

  lemma AbsorbedKeysAgree(kind1: string, id1: string, kind2: string, id2: string)
    ensures Absorbs(kind1, id1, kind2, id2) ==> ChannelKey(kind1, id1) == ChannelKey(kind2, id2)
  {
  }

  /** Kinds without a ':' keep their channels apart. */
  lemma ColonFreeKindsSeparate(kind1: string, id1: string, kind2: string, id2: string)
    requires ColonFree(kind1) && ColonFree(kind2)
    requires ChannelKey(kind1, id1) == ChannelKey(kind2, id2)
    ensures kind1 == kind2 && id1 == id2
  {
    ChannelKeyCollision(kind1, id1, kind2, id2);
    AbsorberHasColon(kind1, id1, kind2, id2);
    AbsorberHasColon(kind2, id2, kind1, id1);
  }

  lemma AbsorberHasColon(kind1: string, id1: string, kind2: string, id2: string)
    ensures Absorbs(kind1, id1, kind2, id2) ==> !ColonFree(kind2)
  {
  }

  /** The kind is not limited to the documented ones, so distinct channels can meet in one room. */
  lemma ChannelsCanCollide()
    ensures RoomOf(ChannelRef("party", "a:b")) == RoomOf(ChannelRef("party:a", "b"))
    ensures forall kind :: kind in DOCUMENTED_KINDS ==> ColonFree(kind)
  {
  }

  // ---- Client identifiers ----

  const WORD: nat := 0x1_0000_0000_0000_0000

  /** The identifier of the n-th connection (from 0): the counter is 64 bits wide and is incremented first. */
  function IdOf(n: nat): string {
    "c" + Format((n + 1) % WORD)
  }

  lemma IdsCollideEveryWord(m: nat, n: nat)
    ensures IdOf(m) == IdOf(n) <==> (m + 1) % 0x1_0000_0000_0000_0000 == (n + 1) % 0x1_0000_0000_0000_0000
  {
    if IdOf(m) == IdOf(n) {
      assert Format((m + 1) % WORD) == IdOf(m)[1..] == IdOf(n)[1..] == Format((n + 1) % WORD);
      FormatInjective((m + 1) % WORD, (n + 1) % WORD);
    }
  }

  /** The first 2^64 connections have distinct identifiers. */
  lemma IdsDistinct(m: nat, n: nat)
    requires m < 0x1_0000_0000_0000_0000 && n < 0x1_0000_0000_0000_0000 && IdOf(m) == IdOf(n)
    ensures m == n
  {
    IdsCollideEveryWord(m, n);
  }

  /** Identifiers count from "c1". */
  lemma IdsAreSpelled(n: nat)
    requires n + 1 < 0x1_0000_0000_0000_0000
    ensures IdOf(n) == "c" + Format(n + 1)
    ensures IdOf(0) == "c1"
  {
    assert Format(1) == "1";
  }

  /** The counter wraps: connection 2^64 gets the identifier of connection 0. */
  lemma IdsRepeat(n: nat)
    ensures IdOf(n + 0x1_0000_0000_0000_0000) == IdOf(n)
  {
  }
}
