/** The server's authoritative session: the connection list, the player
    registry keyed by a connection's id string, and the log of messages
    handed to the transport. Pure functions on a Session value specify each
    handler and loop; the NetworkServer class performs them in place. */
module Server {
  import opened Protocol

  /** One call of SendToClient: the message and the connection it goes to. */
  datatype Send<P, C> = Send(to: Connection, msg: Message<P, C>)

  datatype Session<P, C> = Session(
    connections: seq<Connection>,
    clientList: map<string, Player<P, C>>,
    sent: seq<Send<P, C>>)

  /** The registry key of a connection: its InternalId as a string. */
  function Key(c: Connection): string
  {
    IdString(c.internalId)
  }

  /** A new NetworkPlayer whose id is set to key. */
  function Fresh<P, C>(key: string, blank: Proxy<P, C>): Player<P, C>
  {
    Player(key, blank.pos, blank.color)
  }

  // ---------------------------------------------------------------------
  // Handlers

  /** OnConnect: append c, add the entry keyed by c's id string, and send
      the handshake reply. Dictionary.Add throws on a present key, hence the
      requires. */
  function Connected<P, C>(s: Session<P, C>, c: Connection, blank: Proxy<P, C>): Session<P, C>
    requires Key(c) !in s.clientList
  {
    var key := Key(c);
    Session(s.connections + [c],
            s.clientList[key := Fresh(key, blank)],
            s.sent + [Reply(c, blank)])
  }

  /** OnConnect appends c and adds exactly one entry, keyed by c's id string,
      whose id is that key; every other entry is unchanged, and the one
      reply goes to c carrying the same id. */
  lemma ConnectedSpec<P, C>(s: Session<P, C>, c: Connection, blank: Proxy<P, C>)
    requires Key(c) !in s.clientList
    ensures Connected(s, c, blank).connections == s.connections + [c]
    ensures Connected(s, c, blank).clientList.Keys == s.clientList.Keys + {Key(c)}
    ensures Connected(s, c, blank).clientList[Key(c)] == Fresh(Key(c), blank)
    ensures Connected(s, c, blank).clientList[Key(c)].id == Key(c)
    ensures forall k :: k in s.clientList ==> Connected(s, c, blank).clientList[k] == s.clientList[k]
    ensures |Connected(s, c, blank).sent| == |s.sent| + 1
    ensures Connected(s, c, blank).sent[..|s.sent|] == s.sent
    ensures Connected(s, c, blank).sent[|s.sent|].to == c
    ensures Connected(s, c, blank).sent[|s.sent|].msg == Handshake(Player(Key(c), blank.pos, blank.color))
  {
    assert (s.sent + [Reply(c, blank)])[..|s.sent|] == s.sent;
  }

  /** OnData: a PLAYER_UPDATE overwrites the position and colour of its
      player's entry (last writer wins); every other command changes nothing.
      The indexer throws on a missing key, hence the requires. */
  function Dispatched<P, C>(s: Session<P, C>, m: Message<P, C>): (r: Session<P, C>)
    requires m.PlayerUpdate? ==> m.player.id in s.clientList
    ensures r.connections == s.connections && r.sent == s.sent
    ensures r.clientList.Keys == s.clientList.Keys
    ensures !m.PlayerUpdate? ==> r == s
    ensures m.PlayerUpdate? ==>
      var id := m.player.id;
      && r.clientList[id].id == s.clientList[id].id
      && r.clientList[id].cubPos == m.player.cubPos
      && r.clientList[id].cubeColor == m.player.cubeColor
    ensures forall k :: k in s.clientList && !(m.PlayerUpdate? && k == m.player.id) ==>
      r.clientList[k] == s.clientList[k]
  {
    match m
    case PlayerUpdate(p) =>
      var e := s.clientList[p.id];
      s.(clientList := s.clientList[p.id := e.(cubPos := p.cubPos, cubeColor := p.cubeColor)])
    case _ => s
  }

  /** OnDisconnect(i): drop the entry of slot i's id and mark slot i as the
      default (not created) connection. Assigning through the indexer first
      means a missing key is not an error. */
  function Disconnected<P, C>(s: Session<P, C>, i: nat): (r: Session<P, C>)
    requires i < |s.connections|
    ensures |r.connections| == |s.connections|
    ensures !r.connections[i].isCreated
    ensures forall j :: 0 <= j < |s.connections| && j != i ==> r.connections[j] == s.connections[j]
    ensures r.clientList.Keys == s.clientList.Keys - {Key(s.connections[i])}
    ensures forall k :: k in r.clientList ==> r.clientList[k] == s.clientList[k]
    ensures r.sent == s.sent
  {
    var key := Key(s.connections[i]);
    Session(s.connections[i := DefaultConnection], s.clientList - {key}, s.sent)
  }

  // ---------------------------------------------------------------------
  // The cleanup loop

  /** The created connections of cs, in order. */
  function Created(cs: seq<Connection>): seq<Connection>
  {
    if cs == [] then []
    else (if cs[0].isCreated then [cs[0]] else []) + Created(cs[1..])
  }

  /** Created keeps each created connection as often as it occurs, and
      nothing else. */
  lemma {:induction false} CreatedCount(cs: seq<Connection>)
    ensures forall c :: multiset(Created(cs))[c] == if c.isCreated then multiset(cs)[c] else 0
    ensures forall j :: 0 <= j < |Created(cs)| ==> Created(cs)[j].isCreated
  {
    if cs != [] {
      assert cs == [cs[0]] + cs[1..];
      CreatedCount(cs[1..]);
    }
  }

  /** NativeList.RemoveAtSwapBack: the last element moves into slot i. */
  function RemoveAtSwapBack(cs: seq<Connection>, i: nat): (r: seq<Connection>)
    requires i < |cs|
    ensures |r| == |cs| - 1
  {
    cs[i := cs[|cs| - 1]][..|cs| - 1]
  }

  /** Swap-back removal drops exactly one occurrence of cs[i]. */
  lemma SwapBackMultiset(cs: seq<Connection>, i: nat)
    requires i < |cs|
    ensures multiset(RemoveAtSwapBack(cs, i)) + multiset{cs[i]} == multiset(cs)
  {
    var last := |cs| - 1;
    var r := RemoveAtSwapBack(cs, i);
    if i == last {
      assert cs == r + [cs[i]];
    } else {
      var a, b := cs[..i], cs[i + 1..last];
      assert cs == a + [cs[i]] + b + [cs[last]];
      assert r == a + [cs[last]] + b;
      assert multiset(cs) == multiset(a) + multiset{cs[i]} + multiset(b) + multiset{cs[last]};
      assert multiset(r) == multiset(a) + multiset{cs[last]} + multiset(b);
    }
  }

  /** Swap-back removal moves the last element into slot i and leaves every
      other slot where it was. */
  lemma SwapBackSlots(cs: seq<Connection>, i: nat)
    requires i < |cs|
    ensures forall j :: 0 <= j < |cs| - 1 && j != i ==> RemoveAtSwapBack(cs, i)[j] == cs[j]
    ensures i < |cs| - 1 ==> RemoveAtSwapBack(cs, i)[i] == cs[|cs| - 1]
  {
  }

  /** Swap-back removal drops exactly cs[i]: the last element fills slot i
      and every other slot stays where it was. */
  lemma SwapBackSpec(cs: seq<Connection>, i: nat)
    requires i < |cs|
    ensures multiset(RemoveAtSwapBack(cs, i)) + multiset{cs[i]} == multiset(cs)
    ensures forall j :: 0 <= j < |cs| - 1 && j != i ==> RemoveAtSwapBack(cs, i)[j] == cs[j]
    ensures i < |cs| - 1 ==> RemoveAtSwapBack(cs, i)[i] == cs[|cs| - 1]
  {
    SwapBackMultiset(cs, i);
    SwapBackSlots(cs, i);
  }

  /** The cleanup loop from index i on: a slot that is not created is
      replaced by the last one and looked at again; a created one is kept. */
  function CleanedFrom(cs: seq<Connection>, i: nat): seq<Connection>
    requires i <= |cs|
    decreases |cs| - i
  {
    if i == |cs| then cs
    else if !cs[i].isCreated then CleanedFrom(RemoveAtSwapBack(cs, i), i)
    else CleanedFrom(cs, i + 1)
  }

  /** Removing a slot that is not created keeps the created connections. */
  lemma SwapBackKeepsCreated(cs: seq<Connection>, i: nat)
    requires i < |cs| && !cs[i].isCreated
    ensures multiset(Created(RemoveAtSwapBack(cs, i))) == multiset(Created(cs))
  {
    var r := RemoveAtSwapBack(cs, i);
    SwapBackSpec(cs, i);
    CreatedCount(r);
    CreatedCount(cs);
    forall c ensures multiset(Created(r))[c] == multiset(Created(cs))[c] {
      if c.isCreated {
        assert c != cs[i];
        assert multiset(r)[c] == multiset(cs)[c];
      }
    }
  }

  /** A list whose every slot is created is its own created part. */
  lemma AllCreated(cs: seq<Connection>)
    requires forall j :: 0 <= j < |cs| ==> cs[j].isCreated
    ensures multiset(cs) == multiset(Created(cs))
  {
    CreatedCount(cs);
    forall c ensures multiset(cs)[c] == multiset(Created(cs))[c] {
    }
  }

  /** Cleaning with every slot below i already created leaves only created
      slots. */
  lemma {:induction false} CleanedAllCreated(cs: seq<Connection>, i: nat)
    requires i <= |cs|
    requires forall j :: 0 <= j < i ==> cs[j].isCreated
    ensures forall j :: 0 <= j < |CleanedFrom(cs, i)| ==> CleanedFrom(cs, i)[j].isCreated
    decreases |cs| - i
  {
    if i < |cs| {
      if !cs[i].isCreated {
        var cs' := RemoveAtSwapBack(cs, i);
        SwapBackSpec(cs, i);
        CleanedAllCreated(cs', i);
      } else {
        CleanedAllCreated(cs, i + 1);
      }
    }
  }

  /** Cleaning keeps exactly the created connections, counted with
      multiplicity. */
  lemma {:induction false} CleanedKeepsCreated(cs: seq<Connection>, i: nat)
    requires i <= |cs|
    requires forall j :: 0 <= j < i ==> cs[j].isCreated
    ensures multiset(CleanedFrom(cs, i)) == multiset(Created(cs))
    decreases |cs| - i
  {
    if i == |cs| {
      AllCreated(cs);
      assert CleanedFrom(cs, i) == cs;
    } else if !cs[i].isCreated {
      var cs' := RemoveAtSwapBack(cs, i);
      SwapBackSpec(cs, i);
      CleanedKeepsCreated(cs', i);
      SwapBackKeepsCreated(cs, i);
      calc {
        multiset(CleanedFrom(cs, i));
        multiset(CleanedFrom(cs', i));
        multiset(Created(cs'));
        multiset(Created(cs));
      }
    } else {
      CleanedKeepsCreated(cs, i + 1);
      assert CleanedFrom(cs, i) == CleanedFrom(cs, i + 1);
    }
  }

  /** After the whole cleanup loop: only created slots, exactly the created
      connections of cs counted with multiplicity, so the new length is the
      number of created slots. */
  lemma CleanedFromSpec(cs: seq<Connection>, i: nat)
    requires i <= |cs|
    requires forall j :: 0 <= j < i ==> cs[j].isCreated
    ensures forall j :: 0 <= j < |CleanedFrom(cs, i)| ==> CleanedFrom(cs, i)[j].isCreated
    ensures multiset(CleanedFrom(cs, i)) == multiset(Created(cs))
    ensures |CleanedFrom(cs, i)| == |Created(cs)|
  {
    CleanedAllCreated(cs, i);
    CleanedKeepsCreated(cs, i);
    SameMultisetSameLength(CleanedFrom(cs, i), Created(cs));
  }

  lemma SameMultisetSameLength(a: seq<Connection>, b: seq<Connection>)
    requires multiset(a) == multiset(b)
    ensures |a| == |b|
  {
    assert |a| == |multiset(a)|;
  }

  // ---------------------------------------------------------------------
  // The accept loop

  /** Driver.Accept() after k connections were accepted: the k-th pending
      connection, or the default connection once the queue is empty. */
  function Accept(pending: seq<Connection>, k: nat): Connection
  {
    if k < |pending| then pending[k] else DefaultConnection
  }

  /** The connections the accept loop takes: everything before the first
      default connection (or all, when there is none). */
  function AcceptedPrefix(pending: seq<Connection>): (r: seq<Connection>)
    ensures |r| <= |pending| && r == pending[..|r|]
    ensures forall j :: 0 <= j < |r| ==> r[j] != DefaultConnection
    ensures Accept(pending, |r|) == DefaultConnection
  {
    if pending == [] || pending[0] == DefaultConnection then []
    else [pending[0]] + AcceptedPrefix(pending[1..])
  }

  /** Every connection's key is absent from the registry and the keys are
      pairwise distinct, so no Dictionary.Add in OnConnect throws. */
  ghost predicate FreshKeys<P, C>(reg: map<string, Player<P, C>>, cs: seq<Connection>)
  {
    && (forall j :: 0 <= j < |cs| ==> Key(cs[j]) !in reg)
    && (forall j, k :: 0 <= j < k < |cs| ==> Key(cs[j]) != Key(cs[k]))
  }

  lemma FreshKeysTail<P, C>(reg: map<string, Player<P, C>>, reg': map<string, Player<P, C>>, cs: seq<Connection>)
    requires cs != [] && FreshKeys(reg, cs)
    requires reg'.Keys == reg.Keys + {Key(cs[0])}
    ensures FreshKeys(reg', cs[1..])
  {
    forall j | 0 <= j < |cs| - 1 ensures Key(cs[1..][j]) !in reg' {
      assert cs[1..][j] == cs[j + 1];
      assert Key(cs[0]) != Key(cs[j + 1]);
    }
  }

  /** The handshake reply OnConnect sends to c. */
  function Reply<P, C>(c: Connection, blank: Proxy<P, C>): Send<P, C>
  {
    Send(c, Handshake(Fresh(Key(c), blank)))
  }

  /** The handshake replies OnConnect sends to cs, in order. */
  function Handshakes<P, C>(cs: seq<Connection>, blank: Proxy<P, C>): seq<Send<P, C>>
    decreases |cs|
  {
    if cs == [] then [] else [Reply(cs[0], blank)] + Handshakes(cs[1..], blank)
  }

  /** The j-th reply goes to the j-th connection and carries its key. */
  lemma {:induction false} HandshakesAt<P, C>(cs: seq<Connection>, blank: Proxy<P, C>, j: nat)
    requires j < |cs|
    ensures |Handshakes(cs, blank)| == |cs|
    ensures Handshakes(cs, blank)[j] == Send(cs[j], Handshake(Fresh(Key(cs[j]), blank)))
    decreases |cs|
  {
    if j > 0 {
      HandshakesAt(cs[1..], blank, j - 1);
    } else if |cs| > 1 {
      HandshakesAt(cs[1..], blank, 0);
    }
  }

  /** The registry keys of cs. */
  function KeysOf(cs: seq<Connection>): set<string>
    decreases |cs|
  {
    if cs == [] then {} else {Key(cs[0])} + KeysOf(cs[1..])
  }

  /** OnConnect applied to each of cs in order. */
  function ConnectedAll<P, C>(s: Session<P, C>, cs: seq<Connection>, blank: Proxy<P, C>): Session<P, C>
    requires FreshKeys(s.clientList, cs)
    decreases |cs|
  {
    if cs == [] then s
    else
      var s' := Connected(s, cs[0], blank);
      FreshKeysTail(s.clientList, s'.clientList, cs);
      ConnectedAll(s', cs[1..], blank)
  }

  /** One turn of the accept loop: connect the next connection, then the rest. */
  lemma ConnectedAllUnfold<P, C>(s: Session<P, C>, cs: seq<Connection>, k: nat, blank: Proxy<P, C>)
    requires k < |cs| && FreshKeys(s.clientList, cs[k..])
    ensures Key(cs[k]) !in s.clientList
    ensures FreshKeys(Connected(s, cs[k], blank).clientList, cs[k + 1..])
    ensures ConnectedAll(s, cs[k..], blank) == ConnectedAll(Connected(s, cs[k], blank), cs[k + 1..], blank)
  {
    assert cs[k..][0] == cs[k] && cs[k..][1..] == cs[k + 1..];
    FreshKeysTail(s.clientList, Connected(s, cs[k], blank).clientList, cs[k..]);
  }

  /** The accept loop appends the accepted connections in order. */
  lemma {:induction false} ConnectedAllConnections<P, C>(s: Session<P, C>, cs: seq<Connection>, blank: Proxy<P, C>)
    requires FreshKeys(s.clientList, cs)
    ensures ConnectedAll(s, cs, blank).connections == s.connections + cs
    decreases |cs|
  {
    if cs != [] {
      var s' := Connected(s, cs[0], blank);
      FreshKeysTail(s.clientList, s'.clientList, cs);
      ConnectedAllConnections(s', cs[1..], blank);
      assert s.connections + cs == s'.connections + cs[1..];
    }
  }

  /** The accept loop sends each accepted connection its handshake reply, in
      acceptance order. */
  lemma {:induction false} ConnectedAllSent<P, C>(s: Session<P, C>, cs: seq<Connection>, blank: Proxy<P, C>)
    requires FreshKeys(s.clientList, cs)
    ensures ConnectedAll(s, cs, blank).sent == s.sent + Handshakes(cs, blank)
    decreases |cs|
  {
    if cs != [] {
      var s' := Connected(s, cs[0], blank);
      FreshKeysTail(s.clientList, s'.clientList, cs);
      ConnectedAllSent(s', cs[1..], blank);
      var h := Reply(cs[0], blank);
      var rest := Handshakes(cs[1..], blank);
      assert s'.sent == s.sent + [h];
      assert (s.sent + [h]) + rest == s.sent + ([h] + rest);
      assert ConnectedAll(s, cs, blank) == ConnectedAll(s', cs[1..], blank);
    }
  }

  /** The accept loop adds exactly the keys of the accepted connections. */
  lemma {:induction false} ConnectedAllKeys<P, C>(s: Session<P, C>, cs: seq<Connection>, blank: Proxy<P, C>)
    requires FreshKeys(s.clientList, cs)
    ensures ConnectedAll(s, cs, blank).clientList.Keys == s.clientList.Keys + KeysOf(cs)
    decreases |cs|
  {
    if cs != [] {
      var s' := Connected(s, cs[0], blank);
      FreshKeysTail(s.clientList, s'.clientList, cs);
      assert ConnectedAll(s, cs, blank) == ConnectedAll(s', cs[1..], blank);
      ConnectedAllKeys(s', cs[1..], blank);
    }
  }

  /** The accept loop leaves every entry it started with unchanged. */
  lemma {:induction false} ConnectedAllKeeps<P, C>(s: Session<P, C>, cs: seq<Connection>, blank: Proxy<P, C>, k: string)
    requires FreshKeys(s.clientList, cs) && k in s.clientList
    ensures k in ConnectedAll(s, cs, blank).clientList
    ensures ConnectedAll(s, cs, blank).clientList[k] == s.clientList[k]
    decreases |cs|
  {
    if cs != [] {
      var s' := Connected(s, cs[0], blank);
      FreshKeysTail(s.clientList, s'.clientList, cs);
      assert ConnectedAll(s, cs, blank) == ConnectedAll(s', cs[1..], blank);
      ConnectedAllKeeps(s', cs[1..], blank, k);
    }
  }

  /** Each accepted connection ends with a fresh entry named by its key. */
  lemma {:induction false} ConnectedAllFresh<P, C>(s: Session<P, C>, cs: seq<Connection>, blank: Proxy<P, C>, j: nat)
    requires FreshKeys(s.clientList, cs) && j < |cs|
    ensures Key(cs[j]) in ConnectedAll(s, cs, blank).clientList
    ensures ConnectedAll(s, cs, blank).clientList[Key(cs[j])] == Fresh(Key(cs[j]), blank)
    decreases |cs|
  {
    var s' := Connected(s, cs[0], blank);
    FreshKeysTail(s.clientList, s'.clientList, cs);
    assert ConnectedAll(s, cs, blank) == ConnectedAll(s', cs[1..], blank);
    if j == 0 {
      ConnectedAllKeeps(s', cs[1..], blank, Key(cs[0]));
    } else {
      assert cs[1..][j - 1] == cs[j];
      ConnectedAllFresh(s', cs[1..], blank, j - 1);
    }
  }

  /** After the accept loop the keys are the old ones plus those of the
      accepted connections; old entries are unchanged and each accepted
      connection has a fresh entry named by its key. */
  lemma ConnectedAllEntries<P, C>(s: Session<P, C>, cs: seq<Connection>, blank: Proxy<P, C>)
    requires FreshKeys(s.clientList, cs)
    ensures ConnectedAll(s, cs, blank).clientList.Keys == s.clientList.Keys + KeysOf(cs)
    ensures forall k :: k in s.clientList ==> ConnectedAll(s, cs, blank).clientList[k] == s.clientList[k]
    ensures forall j :: 0 <= j < |cs| ==>
      Key(cs[j]) in ConnectedAll(s, cs, blank).clientList &&
      ConnectedAll(s, cs, blank).clientList[Key(cs[j])] == Fresh(Key(cs[j]), blank)
  {
    ConnectedAllKeys(s, cs, blank);
    forall k | k in s.clientList
      ensures ConnectedAll(s, cs, blank).clientList[k] == s.clientList[k]
    {
      ConnectedAllKeeps(s, cs, blank, k);
    }
    forall j | 0 <= j < |cs|
      ensures Key(cs[j]) in ConnectedAll(s, cs, blank).clientList
      ensures ConnectedAll(s, cs, blank).clientList[Key(cs[j])] == Fresh(Key(cs[j]), blank)
    {
      ConnectedAllFresh(s, cs, blank, j);
    }
  }

  // ---------------------------------------------------------------------
  // The per-connection event drain

  /** One connection's events drained at slot i. A Data event is dispatched,
      a Disconnect disconnects slot i, a Connect is ignored. A PLAYER_UPDATE
      for an id with no entry makes the indexer throw: the exception leaves
      Update, so the drain stops there and reports true. */
  function Drained<P, C>(s: Session<P, C>, i: nat, evs: seq<Event<P, C>>): (r: (Session<P, C>, bool))
    requires i < |s.connections|
    ensures |r.0.connections| == |s.connections|
    ensures forall j :: 0 <= j < |s.connections| && j != i ==> r.0.connections[j] == s.connections[j]
    ensures r.0.clientList.Keys <= s.clientList.Keys
    ensures r.0.sent == s.sent
    decreases |evs|
  {
    if evs == [] then (s, false)
    else match evs[0]
      case Data(m) =>
        if m.PlayerUpdate? && m.player.id !in s.clientList then (s, true)
        else Drained(Dispatched(s, m), i, evs[1..])
      case Disconnect => Drained(Disconnected(s, i), i, evs[1..])
      case Connect => Drained(s, i, evs[1..])
  }

  /** The events a slot is given: the inbox entry for it, or none. */
  function EventsOf<P, C>(inbox: seq<seq<Event<P, C>>>, i: nat): seq<Event<P, C>>
  {
    if i < |inbox| then inbox[i] else []
  }

  /** The read loop from slot i on: drain each slot in turn, stopping at the
      first exception. */
  function ReadFrom<P, C>(s: Session<P, C>, inbox: seq<seq<Event<P, C>>>, i: nat): (r: (Session<P, C>, bool))
    requires i <= |s.connections|
    ensures |r.0.connections| == |s.connections|
    ensures forall j :: 0 <= j < i ==> r.0.connections[j] == s.connections[j]
    ensures r.0.clientList.Keys <= s.clientList.Keys
    ensures r.0.sent == s.sent
    decreases |s.connections| - i
  {
    if i == |s.connections| then (s, false)
    else
      var d := Drained(s, i, EventsOf(inbox, i));
      if d.1 then d else ReadFrom(d.0, inbox, i + 1)
  }

  // ---------------------------------------------------------------------
  // The snapshot

  /** players lists the registry's values once each, in the enumeration
      order given by the distinct keys order. */
  ghost predicate SnapshotWith<P, C>(reg: map<string, Player<P, C>>, players: seq<Player<P, C>>, order: seq<string>)
  {
    && |order| == |players|
    && (forall j, k :: 0 <= j < k < |order| ==> order[j] != order[k])
    && (forall k :: k in reg <==> k in order)
    && (forall j :: 0 <= j < |order| ==> order[j] in reg && players[j] == reg[order[j]])
  }

  lemma {:induction false} DistinctCard(order: seq<string>, keys: set<string>)
    requires forall j, k :: 0 <= j < k < |order| ==> order[j] != order[k]
    requires forall k :: k in keys <==> k in order
    ensures |keys| == |order|
    decreases |order|
  {
    if order != [] {
      var last := order[|order| - 1];
      var init := order[..|order| - 1];
      assert forall k :: k in keys - {last} <==> k in init by {
        forall k ensures k in keys - {last} <==> k in init {
          if k in order && k != last {
            var j :| 0 <= j < |order| && order[j] == k;
            assert j < |order| - 1;
            assert init[j] == k;
          }
        }
      }
      DistinctCard(init, keys - {last});
    }
  }

  /** A snapshot has exactly one player per registry entry; an empty
      registry gives no players. */
  lemma SnapshotSize<P, C>(reg: map<string, Player<P, C>>, players: seq<Player<P, C>>, order: seq<string>)
    requires SnapshotWith(reg, players, order)
    ensures |players| == |reg|
    ensures reg == map[] <==> players == []
  {
    DistinctCard(order, reg.Keys);
  }

  /** Every entry's id equals its key, which OnConnect establishes and no
      handler breaks. */
  ghost predicate WellKeyed<P, C>(reg: map<string, Player<P, C>>)
  {
    forall k :: k in reg ==> reg[k].id == k
  }

  /** In a well-keyed registry the snapshot's ids are the enumeration order. */
  lemma SnapshotIds<P, C>(reg: map<string, Player<P, C>>, players: seq<Player<P, C>>, order: seq<string>)
    requires WellKeyed(reg) && SnapshotWith(reg, players, order)
    ensures Ids(players) == order
  {
  }

  // ---------------------------------------------------------------------

  class NetworkServer<P, C> {
    /** m_Connections */
    var connections: seq<Connection>
    /** clientList */
    var clientList: map<string, Player<P, C>>
    /** The messages handed to SendToClient, oldest first. */
    var sent: seq<Send<P, C>>
    /** Position and colour of a new NetworkObjects.NetworkPlayer. */
    const blank: Proxy<P, C>

    function State(): Session<P, C>
      reads this
    {
      Session(connections, clientList, sent)
    }

    ghost predicate Valid()
      reads this
    {
      WellKeyed(clientList)
    }

    constructor (blank: Proxy<P, C>)
      ensures State() == Session([], map[], [])
      ensures this.blank == blank
      ensures Valid()
    {
      connections, clientList, sent := [], map[], [];
      this.blank := blank;
    }

    method OnConnect(c: Connection)
      requires Key(c) !in clientList
      modifies this
      ensures State() == Connected(old(State()), c, blank)
      ensures old(Valid()) ==> Valid()
    {
      connections := connections + [c];
      var key := Key(c);
      // Dictionary.Add of a new NetworkPlayer, then its id set to the key.
      clientList := clientList[key := Player("", blank.pos, blank.color)];
      clientList := clientList[key := clientList[key].(id := key)];
      sent := sent + [Send(c, Handshake(Fresh(key, blank)))];
    }

    method OnData(m: Message<P, C>)
      requires m.PlayerUpdate? ==> m.player.id in clientList
      modifies this
      ensures State() == Dispatched(old(State()), m)
      ensures old(Valid()) ==> Valid()
    {
      match m {
        case PlayerUpdate(p) =>
          clientList := clientList[p.id := clientList[p.id].(cubPos := p.cubPos)];
          clientList := clientList[p.id := clientList[p.id].(cubeColor := p.cubeColor)];
        case _ =>
      }
    }

    method OnDisconnect(i: nat)
      requires i < |connections|
      modifies this
      ensures State() == Disconnected(old(State()), i)
      ensures old(Valid()) ==> Valid()
    {
      var key := Key(connections[i]);
      clientList := clientList - {key};
      connections := connections[i := DefaultConnection];
    }

    /** The cleanup loop at the start of Update. */
    method CleanUpConnections()
      modifies this
      ensures connections == CleanedFrom(old(connections), 0)
      ensures forall j :: 0 <= j < |connections| ==> connections[j].isCreated
      ensures multiset(connections) == multiset(Created(old(connections)))
      ensures |connections| == |Created(old(connections))|
      ensures clientList == old(clientList) && sent == old(sent)
    {
      var i: int := 0;
      while i < |connections|
        invariant 0 <= i <= |connections|
        invariant CleanedFrom(connections, i) == CleanedFrom(old(connections), 0)
        invariant clientList == old(clientList) && sent == old(sent)
        decreases |connections| - i
      {
        if !connections[i].isCreated {
          connections := RemoveAtSwapBack(connections, i);
          i := i - 1;
        }
        i := i + 1;
      }
      CleanedFromSpec(old(connections), 0);
    }

    /** The accept loop of Update: pending is what successive Accept() calls
        return; the loop stops at the first default connection. */
    method AcceptNewConnections(pending: seq<Connection>) returns (accepted: nat)
      requires FreshKeys(clientList, AcceptedPrefix(pending))
      modifies this
      ensures accepted == |AcceptedPrefix(pending)|
      ensures State() == ConnectedAll(old(State()), AcceptedPrefix(pending), blank)
      ensures connections == old(connections) + AcceptedPrefix(pending)
      ensures sent == old(sent) + Handshakes(AcceptedPrefix(pending), blank)
      ensures clientList.Keys == old(clientList).Keys + KeysOf(AcceptedPrefix(pending))
      ensures old(Valid()) ==> Valid()
    {
      ghost var taken := AcceptedPrefix(pending);
      ConnectedAllConnections(State(), taken, blank);
      ConnectedAllSent(State(), taken, blank);
      ConnectedAllEntries(State(), taken, blank);
      accepted := 0;
      var c := Accept(pending, accepted);
      while c != DefaultConnection
        invariant accepted <= |taken|
        invariant c == Accept(pending, accepted)
        invariant FreshKeys(clientList, taken[accepted..])
        invariant ConnectedAll(State(), taken[accepted..], blank) == ConnectedAll(old(State()), taken, blank)
        invariant old(Valid()) ==> Valid()
        decreases |taken| - accepted
      {
        assert accepted < |taken| && taken[accepted] == c;
        ConnectedAllUnfold(State(), taken, accepted, blank);
        OnConnect(c);
        accepted := accepted + 1;
        c := Accept(pending, accepted);
      }
    }

    /** The read loop of Update: each slot's events are drained in turn;
        true when a handler threw and the rest of the frame was skipped. */
    /** The inner while loop of the read loop: drain slot i's events,
        stopping where the indexer throws. */
    method DrainSlot(i: nat, evs: seq<Event<P, C>>) returns (aborted: bool)
      requires i < |connections|
      modifies this
      ensures (State(), aborted) == Drained(old(State()), i, evs)
      ensures old(Valid()) ==> Valid()
    {
      var t := 0;
      while t < |evs|
        invariant t <= |evs| && i < |connections| == |old(connections)|
        invariant Drained(State(), i, evs[t..]) == Drained(old(State()), i, evs)
        invariant old(Valid()) ==> Valid()
        decreases |evs| - t
      {
        assert evs[t..][0] == evs[t] && evs[t..][1..] == evs[t + 1..];
        match evs[t] {
          case Data(m) =>
            if m.PlayerUpdate? && m.player.id !in clientList {
              return true;
            }
            OnData(m);
          case Disconnect =>
            OnDisconnect(i);
          case Connect =>
        }
        t := t + 1;
      }
      return false;
    }

    method ReadIncomingMessages(inbox: seq<seq<Event<P, C>>>) returns (aborted: bool)
      modifies this
      ensures (State(), aborted) == ReadFrom(old(State()), inbox, 0)
      ensures old(Valid()) ==> Valid()
    {
      var i := 0;
      while i < |connections|
        invariant i <= |connections| == |old(connections)|
        invariant ReadFrom(State(), inbox, i) == ReadFrom(old(State()), inbox, 0)
        invariant old(Valid()) ==> Valid()
        decreases |connections| - i
      {
        aborted := DrainSlot(i, EventsOf(inbox, i));
        if aborted {
          return;
        }
        i := i + 1;
      }
      return false;
    }

    /** One frame of Update: clean up, accept, then read. pending is what
        Accept() returns, inbox[i] the events slot i pops before Empty. */
    method Update(pending: seq<Connection>, inbox: seq<seq<Event<P, C>>>) returns (aborted: bool)
      requires FreshKeys(clientList, AcceptedPrefix(pending))
      modifies this
      ensures
        var cleaned := old(State()).(connections := CleanedFrom(old(connections), 0));
        (State(), aborted) == ReadFrom(ConnectedAll(cleaned, AcceptedPrefix(pending), blank), inbox, 0)
      ensures old(Valid()) ==> Valid()
    {
      CleanUpConnections();
      var _ := AcceptNewConnections(pending);
      aborted := ReadIncomingMessages(inbox);
    }

    /** The foreach over clientList in SendUpdateToAllClients: one player per
        entry, in an enumeration order of the keys that Dictionary leaves
        unspecified. */
    method BuildSnapshot() returns (players: seq<Player<P, C>>, ghost order: seq<string>)
      ensures SnapshotWith(clientList, players, order)
    {
      players, order := [], [];
      var rest := clientList.Keys;
      while rest != {}
        invariant |order| == |players|
        invariant forall j, k :: 0 <= j < k < |order| ==> order[j] != order[k]
        invariant forall k :: k in clientList <==> k in order || k in rest
        invariant forall j :: 0 <= j < |order| ==> order[j] !in rest
        invariant rest <= clientList.Keys
        invariant forall j :: 0 <= j < |order| ==> order[j] in clientList && players[j] == clientList[order[j]]
        decreases rest
      {
        var k :| k in rest;
        players := players + [clientList[k]];
        order := order + [k];
        rest := rest - {k};
      }
    }

    /** One step of the SendUpdateToAllClients coroutine: the snapshot is
        built once and the same message goes to every slot in order. */
    method SendUpdateToAllClients() returns (players: seq<Player<P, C>>, ghost order: seq<string>)
      modifies this`sent
      ensures SnapshotWith(clientList, players, order)
      ensures |sent| == |old(sent)| + |connections|
      ensures sent[..|old(sent)|] == old(sent)
      ensures forall j :: 0 <= j < |connections| ==>
        sent[|old(sent)| + j] == Send(connections[j], ServerUpdate(players))
    {
      players, order := BuildSnapshot();
      var i := 0;
      while i < |connections|
        invariant i <= |connections|
        invariant |sent| == |old(sent)| + i
        invariant sent[..|old(sent)|] == old(sent)
        invariant forall j :: 0 <= j < i ==> sent[|old(sent)| + j] == Send(connections[j], ServerUpdate(players))
      {
        sent := sent + [Send(connections[i], ServerUpdate(players))];
        i := i + 1;
      }
    }
  }
}
