/** Values shared by the server and the client: the player record, the
    message envelope, transport connections and events, and the string form
    of a connection's internal id. Positions and colours are only ever copied,
    so they are the type parameters P and C throughout. */
module Protocol {

  datatype Option<T> = None | Some(value: T)

  /** NetworkObjects.NetworkPlayer: identity, position (cubPos), colour (cubeColor). */
  datatype Player<P, C> = Player(id: string, cubPos: P, cubeColor: C)

  /** A rendered cube, seen only through the position and colour it shows. */
  datatype Proxy<P, C> = Proxy(pos: P, color: C)

  /** The decoded message, one constructor per command; any other command is Unknown. */
  datatype Message<P, C> =
    | Handshake(player: Player<P, C>)
    | PlayerUpdate(player: Player<P, C>)
    | ServerUpdate(players: seq<Player<P, C>>)
    | Unknown

  /** A transport connection: its internal id and whether it is created (live). */
  datatype Connection = Connection(internalId: int, isCreated: bool)

  /** default(NetworkConnection): id 0, not created. */
  const DefaultConnection: Connection := Connection(0, false)

  /** A transport event other than Empty; a drain loop is given the events
      that the transport returns before it reports Empty. */
  datatype Event<P, C> = Connect | Data(msg: Message<P, C>) | Disconnect

  /** The ids of a list of players, in order. */
  function Ids<P, C>(players: seq<Player<P, C>>): (ids: seq<string>)
    ensures |ids| == |players|
    ensures forall j :: 0 <= j < |players| ==> ids[j] == players[j].id
  {
    seq(|players|, j requires 0 <= j < |players| => players[j].id)
  }

  // ---------------------------------------------------------------------
  // Int32.ToString() on a connection's InternalId, in decimal.

  predicate IsDigit(ch: char) { '0' <= ch <= '9' }

  function DigitChar(d: nat): (ch: char)
    requires d < 10
    ensures IsDigit(ch)
  {
    ('0' as int + d) as char
  }

  lemma DigitCharInjective(a: nat, b: nat)
    requires a < 10 && b < 10 && DigitChar(a) == DigitChar(b)
    ensures a == b
  {
    assert ('0' as int + a) == DigitChar(a) as int;
  }

  /** Decimal digits of n, most significant first, with no leading zero. */
  function NatToString(n: nat): (s: string)
    ensures |s| >= 1
    ensures (|s| == 1) == (n < 10)
    ensures forall j :: 0 <= j < |s| ==> IsDigit(s[j])
    decreases n
  {
    if n < 10 then [DigitChar(n)] else NatToString(n / 10) + [DigitChar(n % 10)]
  }

  /** The string that keys a connection's registry entry. */
  function IdString(n: int): (s: string)
    ensures |s| >= 1
    ensures (s[0] == '-') == (n < 0)
  {
    if n < 0 then "-" + NatToString(-n) else NatToString(n)
  }

  lemma {:induction false} NatToStringInjective(a: nat, b: nat)
    requires NatToString(a) == NatToString(b)
    ensures a == b
    decreases a
  {
    var s := NatToString(a);
    if a < 10 {
      assert b < 10;
      DigitCharInjective(a, b);
    } else {
      assert b >= 10;
      assert s == NatToString(a / 10) + [DigitChar(a % 10)];
      assert s == NatToString(b / 10) + [DigitChar(b % 10)];
      assert s[..|s| - 1] == NatToString(a / 10) == NatToString(b / 10);
      assert s[|s| - 1] == DigitChar(a % 10) == DigitChar(b % 10);
      NatToStringInjective(a / 10, b / 10);
      DigitCharInjective(a % 10, b % 10);
    }
  }

  /** Distinct internal ids give distinct registry keys. */
  lemma IdStringInjective(a: int, b: int)
    ensures IdString(a) == IdString(b) <==> a == b
  {
    if IdString(a) == IdString(b) {
      if a < 0 {
        assert b < 0;
        assert IdString(a)[1..] == NatToString(-a);
        assert IdString(b)[1..] == NatToString(-b);
        NatToStringInjective(-a, -b);
      } else {
        assert b >= 0;
        NatToStringInjective(a, b);
      }
    }
  }
}
