/** The server's session invariant: the registry holds exactly one entry per
    created connection, keyed by that connection's id string, provided the
    transport never hands out a live connection whose id is already live.
    Connect, data, disconnect and cleanup steps all keep it. */
module ServerInvariant {
  import opened Protocol
  import opened Server

  /** The registry keys of the created connections. */
  function CreatedKeys(cs: seq<Connection>): set<string>
  {
    set c | c in cs && c.isCreated :: Key(c)
  }

  /** Each created connection occurs once. A created connection is fixed by
      its internal id, so no two created slots share an id. */
  ghost predicate UniqueCreated(cs: seq<Connection>)
  {
    forall c :: c in cs && c.isCreated ==> multiset(cs)[c] == 1
  }

  ghost predicate Inv<P, C>(s: Session<P, C>)
  {
    && s.clientList.Keys == CreatedKeys(s.connections)
    && UniqueCreated(s.connections)
    && WellKeyed(s.clientList)
  }

  /** One thing that can happen to the session: a connection accepted, a
      message received, slot i disconnected, or the cleanup loop run. */
  datatype Step<P, C> =
    | AcceptStep(c: Connection)
    | DataStep(m: Message<P, C>)
    | DisconnectStep(i: nat)
    | CleanupStep

  /** What the handlers themselves demand (a throwing Add or indexer otherwise). */
  ghost predicate Defined<P, C>(s: Session<P, C>, st: Step<P, C>)
  {
    match st
    case AcceptStep(c) => Key(c) !in s.clientList
    case DataStep(m) => m.PlayerUpdate? ==> m.player.id in s.clientList
    case DisconnectStep(i) => i < |s.connections|
    case CleanupStep => true
  }

  /** What the transport guarantees: an accepted connection is live and its
      id differs from every live connection's; a disconnect is reported for
      a live slot; a client reports only its own, registered id. */
  ghost predicate Enabled<P, C>(s: Session<P, C>, st: Step<P, C>)
  {
    match st
    case AcceptStep(c) =>
      c.isCreated && forall d :: d in s.connections && d.isCreated ==> d.internalId != c.internalId
    case DataStep(m) => m.PlayerUpdate? ==> m.player.id in s.clientList
    case DisconnectStep(i) => i < |s.connections| && s.connections[i].isCreated
    case CleanupStep => true
  }

  ghost function Apply<P, C>(s: Session<P, C>, st: Step<P, C>, blank: Proxy<P, C>): Session<P, C>
    requires Defined(s, st)
  {
    match st
    case AcceptStep(c) => Connected(s, c, blank)
    case DataStep(m) => Dispatched(s, m)
    case DisconnectStep(i) => Disconnected(s, i)
    case CleanupStep => s.(connections := CleanedFrom(s.connections, 0))
  }

  /** Under the invariant, what the transport guarantees is enough for no
      handler to throw. */
  lemma EnabledIsDefined<P, C>(s: Session<P, C>, st: Step<P, C>)
    requires Inv(s) && Enabled(s, st)
    ensures Defined(s, st)
  {
    if st.AcceptStep? {
      var c := st.c;
      if Key(c) in s.clientList {
        var d :| d in s.connections && d.isCreated && Key(d) == Key(c);
        IdStringInjective(d.internalId, c.internalId);
        assert false;
      }
    }
  }

  lemma AcceptKeepsInv<P, C>(s: Session<P, C>, c: Connection, blank: Proxy<P, C>)
    requires Inv(s) && Enabled(s, AcceptStep(c)) && Key(c) !in s.clientList
    ensures Inv(Connected(s, c, blank))
  {
    var cs := s.connections;
    var cs' := cs + [c];
    assert c !in cs;
    assert CreatedKeys(cs') == CreatedKeys(cs) + {Key(c)} by {
      assert forall d :: d in cs' <==> d in cs || d == c;
    }
    assert multiset(cs') == multiset(cs) + multiset{c};
  }

  lemma DisconnectKeepsInv<P, C>(s: Session<P, C>, i: nat)
    requires Inv(s) && Enabled(s, DisconnectStep(i))
    ensures Inv(Disconnected(s, i))
  {
    var cs := s.connections;
    var gone := cs[i];
    var cs' := cs[i := DefaultConnection];
    assert multiset(cs') == multiset(cs)[gone := multiset(cs)[gone] - 1][DefaultConnection := multiset(cs)[DefaultConnection] + 1];
    assert multiset(cs')[gone] == 0;
    forall d | d in cs' && d.isCreated && Key(d) == Key(gone) ensures false {
      IdStringInjective(d.internalId, gone.internalId);
    }
    forall d | d in cs && d.isCreated && d != gone ensures d in cs' {
      var j :| 0 <= j < |cs| && cs[j] == d;
      assert cs'[j] == d;
    }
    assert CreatedKeys(cs') == CreatedKeys(cs) - {Key(gone)};
  }

  lemma CleanupKeepsInv<P, C>(s: Session<P, C>)
    requires Inv(s)
    ensures Inv(s.(connections := CleanedFrom(s.connections, 0)))
  {
    var cs := s.connections;
    var cs' := CleanedFrom(cs, 0);
    CleanedFromSpec(cs, 0);
    CreatedCount(cs);
    assert forall d :: d in cs' <==> d in cs && d.isCreated by {
      forall d ensures d in cs' <==> d in cs && d.isCreated {
        assert d in cs' <==> multiset(cs')[d] > 0;
        assert d in cs <==> multiset(cs)[d] > 0;
      }
    }
    assert CreatedKeys(cs') == CreatedKeys(cs);
  }

  lemma DataKeepsInv<P, C>(s: Session<P, C>, m: Message<P, C>)
    requires Inv(s) && (m.PlayerUpdate? ==> m.player.id in s.clientList)
    ensures Inv(Dispatched(s, m))
  {
  }

  /** Every enabled step keeps the invariant. */
  lemma StepKeepsInv<P, C>(s: Session<P, C>, st: Step<P, C>, blank: Proxy<P, C>)
    requires Inv(s) && Enabled(s, st)
    ensures Defined(s, st) && Inv(Apply(s, st, blank))
  {
    EnabledIsDefined(s, st);
    match st
    case AcceptStep(c) => AcceptKeepsInv(s, c, blank);
    case DataStep(m) => DataKeepsInv(s, m);
    case DisconnectStep(i) => DisconnectKeepsInv(s, i);
    case CleanupStep => CleanupKeepsInv(s);
  }

  /** Every step of steps is enabled where it happens. */
  ghost predicate Admissible<P, C>(s: Session<P, C>, steps: seq<Step<P, C>>, blank: Proxy<P, C>)
    decreases |steps|
  {
    steps == [] ||
    (Enabled(s, steps[0]) && Defined(s, steps[0]) && Admissible(Apply(s, steps[0], blank), steps[1..], blank))
  }

  ghost function Run<P, C>(s: Session<P, C>, steps: seq<Step<P, C>>, blank: Proxy<P, C>): Session<P, C>
    requires Admissible(s, steps, blank)
    decreases |steps|
  {
    if steps == [] then s else Run(Apply(s, steps[0], blank), steps[1..], blank)
  }

  /** A server that has just started holds the invariant. */
  lemma InitialInv<P, C>(s: Session<P, C>)
    requires s.connections == [] && s.clientList == map[]
    ensures Inv(s)
  {
  }

  /** Along every admissible run the registry keys stay exactly the id
      strings of the created connections. */
  lemma {:induction false} RunKeepsInv<P, C>(s: Session<P, C>, steps: seq<Step<P, C>>, blank: Proxy<P, C>)
    requires Inv(s) && Admissible(s, steps, blank)
    ensures Inv(Run(s, steps, blank))
    ensures Run(s, steps, blank).clientList.Keys == CreatedKeys(Run(s, steps, blank).connections)
    decreases |steps|
  {
    if steps != [] {
      StepKeepsInv(s, steps[0], blank);
      RunKeepsInv(Apply(s, steps[0], blank), steps[1..], blank);
    }
  }
}
