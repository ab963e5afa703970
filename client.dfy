/** The client's mirror of the session: its own id learnt at the handshake,
    one cube per known player, the ids seen in the latest snapshot, and the
    log of messages handed to the transport. Pure functions on a Mirror value
    specify each handler; the NetworkClient class performs them in place. */
module Client {
  import opened Protocol

  datatype Mirror<P, C> = Mirror(
    connection: Connection,
    own: Option<string>,
    clientList: map<string, Proxy<P, C>>,
    seen: seq<string>,
    sent: seq<Message<P, C>>,
    timerStarts: nat)

  // ---------------------------------------------------------------------
  // HANDSHAKE

  /** The HANDSHAKE branch: learn the own id, then add a new cube for it.
      Dictionary.Add throws on a present key, hence the requires. */
  function Handshaken<P, C>(s: Mirror<P, C>, id: string, prefab: Proxy<P, C>): (r: Mirror<P, C>)
    requires id !in s.clientList
    ensures r.own == Some(id)
    ensures r.clientList.Keys == s.clientList.Keys + {id}
    ensures r.clientList[id] == prefab
    ensures forall k :: k in s.clientList ==> r.clientList[k] == s.clientList[k]
    ensures r.(own := s.own, clientList := s.clientList) == s
  {
    s.(own := Some(id), clientList := s.clientList[id := prefab])
  }

  // ---------------------------------------------------------------------
  // SERVER_UPDATE

  /** One turn of the merge loop: create an unknown player's cube, then move
      and recolour it unless it is the client's own. */
  function MergeOne<P, C>(reg: map<string, Proxy<P, C>>, own: Option<string>, p: Player<P, C>, prefab: Proxy<P, C>): map<string, Proxy<P, C>>
  {
    var reg1 := if p.id in reg then reg else reg[p.id := prefab];
    if Some(p.id) != own then reg1[p.id := Proxy(p.cubPos, p.cubeColor)] else reg1
  }

  /** The merge loop over the players of a snapshot, in order. */
  function Merged<P, C>(reg: map<string, Proxy<P, C>>, own: Option<string>, ps: seq<Player<P, C>>, prefab: Proxy<P, C>): map<string, Proxy<P, C>>
    decreases |ps|
  {
    if ps == [] then reg
    else MergeOne(Merged(reg, own, ps[..|ps| - 1], prefab), own, ps[|ps| - 1], prefab)
  }

  /** The SERVER_UPDATE branch: merge, then replace the seen list with the
      snapshot's ids, in snapshot order. */
  function ServerUpdated<P, C>(s: Mirror<P, C>, ps: seq<Player<P, C>>, prefab: Proxy<P, C>): (r: Mirror<P, C>)
    ensures r.seen == Ids(ps)
    ensures r.(clientList := s.clientList, seen := s.seen) == s
  {
    s.(clientList := Merged(s.clientList, s.own, ps, prefab), seen := Ids(ps))
  }

  /** j is the last position of its id in ps. */
  ghost predicate IsLast<P, C>(ps: seq<Player<P, C>>, j: int)
  {
    0 <= j < |ps| && forall j' :: j < j' < |ps| ==> ps[j'].id != ps[j].id
  }

  /** After the merge the keys are the old keys plus every snapshot id: the
      merge never removes. */
  lemma {:induction false} MergedKeys<P, C>(reg: map<string, Proxy<P, C>>, own: Option<string>, ps: seq<Player<P, C>>, prefab: Proxy<P, C>)
    ensures forall k :: k in Merged(reg, own, ps, prefab) <==> k in reg || k in Ids(ps)
    decreases |ps|
  {
    if ps != [] {
      var init := ps[..|ps| - 1];
      MergedKeys(reg, own, init, prefab);
      assert Ids(ps) == Ids(init) + [ps[|ps| - 1].id];
    }
  }

  /** An entry whose id is not in the snapshot is left as it was. */
  lemma {:induction false} MergedKeeps<P, C>(reg: map<string, Proxy<P, C>>, own: Option<string>, ps: seq<Player<P, C>>, prefab: Proxy<P, C>, k: string)
    requires k in reg && k !in Ids(ps)
    ensures k in Merged(reg, own, ps, prefab) && Merged(reg, own, ps, prefab)[k] == reg[k]
    decreases |ps|
  {
    if ps != [] {
      var init := ps[..|ps| - 1];
      assert Ids(ps) == Ids(init) + [ps[|ps| - 1].id];
      MergedKeeps(reg, own, init, prefab, k);
    }
  }

  /** An entry whose id is not the own id ends with the position and colour
      of that id's last occurrence in the snapshot. */
  lemma {:induction false} MergedLast<P, C>(reg: map<string, Proxy<P, C>>, own: Option<string>, ps: seq<Player<P, C>>, prefab: Proxy<P, C>, j: int)
    requires IsLast(ps, j) && Some(ps[j].id) != own
    ensures ps[j].id in Merged(reg, own, ps, prefab)
    ensures Merged(reg, own, ps, prefab)[ps[j].id] == Proxy(ps[j].cubPos, ps[j].cubeColor)
    decreases |ps|
  {
    var init := ps[..|ps| - 1];
    if j < |ps| - 1 {
      assert IsLast(init, j);
      MergedLast(reg, own, init, prefab, j);
    }
  }

  /** The client's own entry is never moved or recoloured by a snapshot. */
  lemma {:induction false} MergedOwn<P, C>(reg: map<string, Proxy<P, C>>, own: Option<string>, ps: seq<Player<P, C>>, prefab: Proxy<P, C>)
    requires own.Some? && own.value in reg
    ensures own.value in Merged(reg, own, ps, prefab)
    ensures Merged(reg, own, ps, prefab)[own.value] == reg[own.value]
    decreases |ps|
  {
    if ps != [] {
      MergedOwn(reg, own, ps[..|ps| - 1], prefab);
    }
  }

  /** A snapshot id met for the first time as the own id gets the new cube. */
  lemma {:induction false} MergedOwnNew<P, C>(reg: map<string, Proxy<P, C>>, own: Option<string>, ps: seq<Player<P, C>>, prefab: Proxy<P, C>)
    requires own.Some? && own.value !in reg && own.value in Ids(ps)
    ensures own.value in Merged(reg, own, ps, prefab)
    ensures Merged(reg, own, ps, prefab)[own.value] == prefab
    decreases |ps|
  {
    MergedKeys(reg, own, ps, prefab);
    var init := ps[..|ps| - 1];
    assert Ids(ps) == Ids(init) + [ps[|ps| - 1].id];
    MergedKeys(reg, own, init, prefab);
    if own.value in Ids(init) {
      MergedOwnNew(reg, own, init, prefab);
    }
  }

  /** Every id of a non-empty snapshot has a last occurrence. */
  lemma {:induction false} LastOccurrence<P, C>(ps: seq<Player<P, C>>, k: string) returns (j: int)
    requires k in Ids(ps)
    ensures IsLast(ps, j) && ps[j].id == k
    decreases |ps|
  {
    if ps[|ps| - 1].id == k {
      j := |ps| - 1;
    } else {
      var init := ps[..|ps| - 1];
      assert Ids(ps) == Ids(init) + [ps[|ps| - 1].id];
      j := LastOccurrence(init, k);
    }
  }

  /** Merging the same snapshot twice in a row is the same as merging it once. */
  lemma MergeIdempotent<P, C>(s: Mirror<P, C>, ps: seq<Player<P, C>>, prefab: Proxy<P, C>)
    ensures ServerUpdated(ServerUpdated(s, ps, prefab), ps, prefab) == ServerUpdated(s, ps, prefab)
  {
    var own := s.own;
    var once := Merged(s.clientList, own, ps, prefab);
    var twice := Merged(once, own, ps, prefab);
    MergedKeys(s.clientList, own, ps, prefab);
    MergedKeys(once, own, ps, prefab);
    forall k | k in once ensures twice[k] == once[k] {
      if k !in Ids(ps) {
        MergedKeeps(once, own, ps, prefab, k);
      } else if Some(k) != own {
        var j := LastOccurrence(ps, k);
        MergedLast(s.clientList, own, ps, prefab, j);
        MergedLast(once, own, ps, prefab, j);
      } else {
        MergedOwn(once, own, ps, prefab);
      }
    }
    assert twice == once;
  }

  // ---------------------------------------------------------------------
  // Received messages, the drop check, the self-report

  /** OnData: HANDSHAKE and SERVER_UPDATE as above; any other command
      (PLAYER_UPDATE included) changes nothing. */
  function Received<P, C>(s: Mirror<P, C>, m: Message<P, C>, prefab: Proxy<P, C>): (r: Mirror<P, C>)
    requires m.Handshake? ==> m.player.id !in s.clientList
    ensures !m.Handshake? && !m.ServerUpdate? ==> r == s
    ensures r.connection == s.connection && r.sent == s.sent && r.timerStarts == s.timerStarts
  {
    match m
    case Handshake(p) => Handshaken(s, p.id, prefab)
    case ServerUpdate(ps) => ServerUpdated(s, ps, prefab)
    case _ => s
  }

  /** CheckForDroppedPlayers, read as the filter it is meant to be: keep the
      entries whose id was in the latest snapshot. */
  function Dropped<P, C>(reg: map<string, Proxy<P, C>>, seen: seq<string>): (r: map<string, Proxy<P, C>>)
    ensures forall k :: k in r <==> k in reg && k in seen
    ensures forall k :: k in r ==> r[k] == reg[k]
  {
    map k | k in reg && k in seen :: reg[k]
  }

  /** A drop check right after a snapshot leaves exactly the snapshot's ids,
      so a player that was left out of it is gone. */
  lemma MergeThenDrop<P, C>(s: Mirror<P, C>, ps: seq<Player<P, C>>, prefab: Proxy<P, C>)
    ensures
      var r := ServerUpdated(s, ps, prefab);
      forall k :: k in Dropped(r.clientList, r.seen) <==> k in Ids(ps)
  {
    MergedKeys(s.clientList, s.own, ps, prefab);
  }

  /** The PLAYER_UPDATE of SendRepeatPlayerUpdate: the own id with the own
      cube's current position and colour. */
  function SelfReport<P, C>(s: Mirror<P, C>): (m: Message<P, C>)
    requires s.own.Some? && s.own.value in s.clientList
    ensures m.PlayerUpdate? && m.player.id == s.own.value
    ensures m.player.cubPos == s.clientList[s.own.value].pos
    ensures m.player.cubeColor == s.clientList[s.own.value].color
  {
    var id := s.own.value;
    PlayerUpdate(Player(id, s.clientList[id].pos, s.clientList[id].color))
  }

  // ---------------------------------------------------------------------
  // Connection events

  /** OnConnect: send a handshake carrying the connection's id string and
      start the three coroutines. */
  function Connected<P, C>(s: Mirror<P, C>, hello: Proxy<P, C>): (r: Mirror<P, C>)
    ensures r.sent == s.sent + [Handshake(Player(IdString(s.connection.internalId), hello.pos, hello.color))]
    ensures r.timerStarts == s.timerStarts + 1
    ensures r.(sent := s.sent, timerStarts := s.timerStarts) == s
  {
    s.(sent := s.sent + [Handshake(Player(IdString(s.connection.internalId), hello.pos, hello.color))],
       timerStarts := s.timerStarts + 1)
  }

  /** OnDisconnect resets only the connection. */
  function Disconnected<P, C>(s: Mirror<P, C>): (r: Mirror<P, C>)
    ensures !r.connection.isCreated
    ensures r.(connection := s.connection) == s
  {
    s.(connection := DefaultConnection)
  }

  /** The event drain of Update. A HANDSHAKE for an id that already has a
      cube sets the own id and then makes Dictionary.Add throw, which ends
      the frame: the drain stops there and reports true. */
  function Drained<P, C>(s: Mirror<P, C>, evs: seq<Event<P, C>>, prefab: Proxy<P, C>, hello: Proxy<P, C>): (Mirror<P, C>, bool)
    decreases |evs|
  {
    if evs == [] then (s, false)
    else match evs[0]
      case Connect => Drained(Connected(s, hello), evs[1..], prefab, hello)
      case Data(m) =>
        if m.Handshake? && m.player.id in s.clientList then (s.(own := Some(m.player.id)), true)
        else Drained(Received(s, m, prefab), evs[1..], prefab, hello)
      case Disconnect => Drained(Disconnected(s), evs[1..], prefab, hello)
  }

  /** Update up to the movement keys: nothing happens without a connection. */
  function Updated<P, C>(s: Mirror<P, C>, evs: seq<Event<P, C>>, prefab: Proxy<P, C>, hello: Proxy<P, C>): (r: (Mirror<P, C>, bool))
    ensures !s.connection.isCreated ==> r == (s, false)
  {
    if !s.connection.isCreated then (s, false) else Drained(s, evs, prefab, hello)
  }

  // ---------------------------------------------------------------------

  class NetworkClient<P, C> {
    /** m_Connection */
    var connection: Connection
    /** serverInternalId; None while it is still null. */
    var serverInternalId: Option<string>
    /** clientList: one cube per known player id. */
    var clientList: map<string, Proxy<P, C>>
    /** ServerListId */
    var serverListId: seq<string>
    /** The messages handed to SendToServer, oldest first. */
    var sent: seq<Message<P, C>>
    /** How many times OnConnect started the coroutines. */
    var timerStarts: nat
    /** Position and colour of Instantiate(prefab). */
    const prefab: Proxy<P, C>
    /** Position and colour put in the client's own handshake. */
    const hello: Proxy<P, C>

    function State(): Mirror<P, C>
      reads this
    {
      Mirror(connection, serverInternalId, clientList, serverListId, sent, timerStarts)
    }

    /** The state after the connect call of Start. */
    constructor (connection: Connection, prefab: Proxy<P, C>, hello: Proxy<P, C>)
      ensures State() == Mirror(connection, None, map[], [], [], 0)
      ensures this.prefab == prefab && this.hello == hello
    {
      this.connection := connection;
      serverInternalId, clientList, serverListId, sent, timerStarts := None, map[], [], [], 0;
      this.prefab, this.hello := prefab, hello;
    }

    method OnConnect()
      modifies this
      ensures State() == Connected(old(State()), hello)
    {
      sent := sent + [Handshake(Player(IdString(connection.internalId), hello.pos, hello.color))];
      timerStarts := timerStarts + 1;
    }

    /** The SERVER_UPDATE branch of OnData. */
    method MergeServerUpdate(players: seq<Player<P, C>>)
      modifies this
      ensures State() == ServerUpdated(old(State()), players, prefab)
    {
      var tempListId: seq<string> := [];
      var j := 0;
      while j < |players|
        invariant j <= |players|
        invariant tempListId == Ids(players[..j])
        invariant clientList == Merged(old(clientList), serverInternalId, players[..j], prefab)
        invariant State().(clientList := old(clientList)) == old(State())
      {
        var player := players[j];
        assert players[..j + 1][..j] == players[..j];
        tempListId := tempListId + [player.id];
        if player.id !in clientList {
          clientList := clientList[player.id := prefab];
        }
        if Some(player.id) != serverInternalId {
          clientList := clientList[player.id := Proxy(player.cubPos, player.cubeColor)];
        }
        j := j + 1;
      }
      assert players[..j] == players;
      serverListId := tempListId;
    }

    method OnData(m: Message<P, C>)
      requires m.Handshake? ==> m.player.id !in clientList
      modifies this
      ensures State() == Received(old(State()), m, prefab)
    {
      match m {
        case Handshake(p) =>
          serverInternalId := Some(p.id);
          clientList := clientList[p.id := prefab];
        case ServerUpdate(ps) =>
          MergeServerUpdate(ps);
        case _ =>
      }
    }

    method OnDisconnect()
      modifies this
      ensures State() == Disconnected(old(State()))
    {
      connection := DefaultConnection;
    }

    /** One turn of the CheckForDroppedPlayers coroutine. */
    method CheckForDroppedPlayers()
      modifies this`clientList
      ensures clientList == Dropped(old(clientList), serverListId)
      ensures clientList.Keys == old(clientList).Keys * (set k | k in serverListId)
    {
      var rest := clientList.Keys;
      while rest != {}
        invariant rest <= old(clientList).Keys
        invariant clientList == map k | k in old(clientList) && (k in rest || k in serverListId) :: old(clientList)[k]
        decreases rest
      {
        var k :| k in rest;
        if k !in serverListId {
          clientList := clientList - {k};
        }
        rest := rest - {k};
      }
    }

    /** One turn of the SendRepeatPlayerUpdate coroutine. */
    method SendRepeatPlayerUpdate()
      requires serverInternalId.Some? && serverInternalId.value in clientList
      modifies this`sent
      ensures sent == old(sent) + [SelfReport(State())]
    {
      var id := serverInternalId.value;
      var m := PlayerUpdate(Player(id, clientList[id].pos, clientList[id].color));
      sent := sent + [m];
    }

    /** Update up to the movement keys: evs is what PopEvent returns before
        Empty; true when a handler threw and the frame ended early. */
    method Update(evs: seq<Event<P, C>>) returns (aborted: bool)
      modifies this
      ensures (State(), aborted) == Updated(old(State()), evs, prefab, hello)
    {
      aborted := false;
      if !connection.isCreated {
        return;
      }
      var t := 0;
      while t < |evs|
        invariant t <= |evs|
        invariant Drained(State(), evs[t..], prefab, hello) == Drained(old(State()), evs, prefab, hello)
        decreases |evs| - t
      {
        assert evs[t..][0] == evs[t] && evs[t..][1..] == evs[t + 1..];
        match evs[t] {
          case Connect =>
            OnConnect();
          case Data(m) =>
            if m.Handshake? && m.player.id in clientList {
              serverInternalId := Some(m.player.id);
              aborted := true;
              return;
            }
            OnData(m);
          case Disconnect =>
            OnDisconnect();
        }
        t := t + 1;
      }
    }
  }
}
