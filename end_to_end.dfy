/** Properties that span both sides: a client's self-report lands in the
    server's registry, and a snapshot of that registry brings every other
    client's mirror into line with it. */
module EndToEnd {
  import opened Protocol
  import Server
  import Client

  /** The server applying a client's self-report stores that client's own
      position and colour under its id and touches no other entry. */
  lemma SelfReportApplied<P, C>(s: Server.Session<P, C>, a: Client.Mirror<P, C>)
    requires a.own.Some? && a.own.value in a.clientList && a.own.value in s.clientList
    ensures
      var id := a.own.value;
      var r := Server.Dispatched(s, Client.SelfReport(a));
      && r.clientList.Keys == s.clientList.Keys
      && r.clientList[id] == Player(s.clientList[id].id, a.clientList[id].pos, a.clientList[id].color)
      && forall k :: k in s.clientList && k != id ==> r.clientList[k] == s.clientList[k]
  {
  }

  /** Merging a snapshot of a well-keyed registry gives every player other
      than the client itself that player's server-side position and colour,
      and the next drop check leaves exactly the server's players. */
  lemma {:induction false} SnapshotMirrored<P, C>(
    reg: map<string, Player<P, C>>, players: seq<Player<P, C>>, order: seq<string>,
    b: Client.Mirror<P, C>, prefab: Proxy<P, C>)
    requires Server.WellKeyed(reg) && Server.SnapshotWith(reg, players, order)
    ensures
      var r := Client.ServerUpdated(b, players, prefab);
      && (forall k :: k in reg && Some(k) != b.own ==>
            k in r.clientList && r.clientList[k] == Proxy(reg[k].cubPos, reg[k].cubeColor))
      && (forall k :: k in Client.Dropped(r.clientList, r.seen) <==> k in reg)
  {
    Server.SnapshotIds(reg, players, order);
    Client.MergeThenDrop(b, players, prefab);
    forall k | k in reg && Some(k) != b.own
      ensures k in Client.ServerUpdated(b, players, prefab).clientList
      ensures Client.ServerUpdated(b, players, prefab).clientList[k] == Proxy(reg[k].cubPos, reg[k].cubeColor)
    {
      var j :| 0 <= j < |order| && order[j] == k;
      assert players[j] == reg[k];
      assert Client.IsLast(players, j);
      Client.MergedLast(b.clientList, b.own, players, prefab, j);
    }
  }

  /** The round trip of one player's movement: client A reports, the server
      stores it, the next snapshot carries it; client A's own cube is left as
      it is, while client B's cube for A shows A's reported position and colour. */
  lemma ReportRoundTrip<P, C>(
    s: Server.Session<P, C>, a: Client.Mirror<P, C>, b: Client.Mirror<P, C>,
    players: seq<Player<P, C>>, order: seq<string>, prefab: Proxy<P, C>)
    requires a.own.Some? && a.own.value in a.clientList && a.own.value in s.clientList
    requires Server.WellKeyed(s.clientList)
    requires b.own != a.own
    requires Server.SnapshotWith(Server.Dispatched(s, Client.SelfReport(a)).clientList, players, order)
    ensures
      var id := a.own.value;
      var ra := Client.ServerUpdated(a, players, prefab);
      var rb := Client.ServerUpdated(b, players, prefab);
      && id in ra.clientList && ra.clientList[id] == a.clientList[id]
      && id in rb.clientList && rb.clientList[id] == a.clientList[id]
  {
    var id := a.own.value;
    var reg := Server.Dispatched(s, Client.SelfReport(a)).clientList;
    assert Server.WellKeyed(reg);
    SnapshotMirrored(reg, players, order, b, prefab);
    Client.MergedOwn(a.clientList, a.own, players, prefab);
  }
}
