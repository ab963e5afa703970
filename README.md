# Session registries of a networked cube demo

This project models two registries in a small client–server multiplayer demo
and proves properties about them.

- **Server.** The server keeps the authoritative session. It holds the list of
  transport connections (`m_Connections`). It also holds the player registry
  (`clientList`), which maps a connection's id string to a player record: id,
  position and colour.
  - It answers each new connection with a handshake.
  - It applies each client's `PLAYER_UPDATE`.
  - It drops the entry of a connection that disconnects.
  - It compacts its connection list with swap-back removal.
  - It broadcasts a snapshot of the whole registry to every connection.
- **Client.** Each client mirrors the registry as one cube per player id.
  - It learns its own id from the handshake.
  - It merges every `SERVER_UPDATE` snapshot and records the snapshot's ids as
    the "seen" list.
  - It periodically drops cubes whose id is not in that list.
  - It periodically reports its own cube's position and colour.

Positions and colours are only ever copied, so they are the type parameters
`P` and `C`. A rendered cube is reduced to the `Proxy(pos, color)` it shows.

A connection is modelled as `Connection(internalId, isCreated)`, and
`default(NetworkConnection)` as `Connection(0, false)`. The registry key
`InternalId.ToString()` is the decimal rendering `IdString`, which is proved
injective.

Transport events and accepted connections are input sequences. Everything the
program hands to the transport is appended to a `sent` log.

Each file follows the program's structure:

- `protocol.dfy`: the shared message, player and connection values, and the
  id-string rendering.
- `server.dfy`: pure functions on a `Session` value that specify each handler
  and each loop of the server's `Update`. It also holds the `NetworkServer`
  class, whose methods perform those steps in place and are proved equal to
  the functions.
- `server_invariant.dfy`: the session invariant, which says the registry holds
  exactly one entry per created connection. It is proved along every run of
  enabled steps.
- `client.dfy`: the same arrangement for the client. A `Mirror` value is
  updated by the `NetworkClient` class.
- `end_to_end.dfy`: facts connecting the two sides. A client's self-report ends
  up in the registry, and a snapshot brings every other client's mirror into
  line with the registry.

A handler that the program lets throw (`Dictionary.Add` on a present key, the
indexer on a missing key) demands the opposite as a `requires`. Inside the
event-drain loops the same condition depends on earlier events. There the
model checks it, stops the loop and returns `aborted = true`. This stands for
the exception leaving `Update` and ending the frame.

Where the written program and its design description differ, the model
follows the program:
- On the server, a `PLAYER_UPDATE` for an id with no entry throws at the
  indexer. It is not silently dropped.
- On the client, `OnDisconnect` resets only the connection. It keeps the own
  id, the cubes and the seen list.

## Model

| member | source | states |
|---|---|---|
| Protocol.IdStringInjective | Assets/Scripts/NetworkServer.cs:68-69 | Two internal ids give the same key string if and only if they are equal. So the entries of live connections never collide. |
| Server.ConnectedSpec | Assets/Scripts/NetworkServer.cs:65-75 | OnConnect appends c to the connection list. It adds exactly one entry, keyed by c's id string, whose id is that key. Every other entry is unchanged. It sends one handshake to c carrying the same id. It requires the key to be absent. |
| Server.Dispatched | Assets/Scripts/NetworkServer.cs:84-106 | A PLAYER_UPDATE for P sets only P's position and colour (last writer wins). P's id, the key set and all other entries are unchanged. HANDSHAKE and unrecognised commands leave the whole session unchanged. It requires P to be a key. |
| Server.Disconnected | Assets/Scripts/NetworkServer.cs:109-115 | Removes exactly the entry keyed by slot i's id string and marks slot i as not created. The length, the other slots and the surviving entries are unchanged. |
| Server.SwapBackSpec | Assets/Scripts/NetworkServer.cs:127 | The list is one shorter, and its multiset loses exactly one occurrence of cs[i]. The last element moves into slot i, and every other slot is unchanged. |
| Server.CreatedCount | Assets/Scripts/NetworkServer.cs:124 | The created part of a list holds each created connection as often as the list does, and nothing else. |
| Server.CleanedFromSpec | Assets/Scripts/NetworkServer.cs:122-130 | After the cleanup loop every slot is created. The multiset of created connections is preserved, though swap-back may reorder them. The length equals the old number of created slots. |
| Server.AcceptedPrefix | Assets/Scripts/NetworkServer.cs:133-140 | The accepted connections are the transport's offers, in order, up to and excluding the first default connection. That connection stops the loop. |
| Server.ConnectedAllConnections | Assets/Scripts/NetworkServer.cs:133-140 | Running OnConnect over the accepted connections appends exactly them, in acceptance order. |
| Server.ConnectedAllSent | Assets/Scripts/NetworkServer.cs:133-140 | Running OnConnect over the accepted connections appends one handshake per connection, in acceptance order. |
| Server.HandshakesAt | Assets/Scripts/NetworkServer.cs:72-74 | The j-th handshake of the accept drain goes to the j-th accepted connection and carries that connection's id string. |
| Server.ConnectedAllEntries | Assets/Scripts/NetworkServer.cs:133-140 | After the accept drain the keys are the old keys plus the accepted connections' id strings. Old entries are unchanged, and each new entry is a fresh player whose id is its key. |
| Server.SnapshotSize | Assets/Scripts/NetworkServer.cs:38-42 | The snapshot has exactly one player per registry entry, so an empty registry gives an empty snapshot, and only an empty registry does. |
| Server.SnapshotIds | Assets/Scripts/NetworkServer.cs:38-42 | If every entry's id equals its key, the snapshot's ids are the registry keys in enumeration order, each exactly once. |
| Server.Drained | Assets/Scripts/NetworkServer.cs:149-163 | Draining slot i never adds an entry and never sends. It touches no slot but i and keeps the list length. |
| Server.ReadFrom | Assets/Scripts/NetworkServer.cs:145-164 | The read loop never adds an entry and never sends. It keeps the list length, and it leaves the slots before the starting index unchanged. |
| Server.NetworkServer.constructor | Assets/Scripts/NetworkServer.cs:17 | A server starts with no connections, an empty registry and nothing sent. |
| Server.NetworkServer.OnConnect | Assets/Scripts/NetworkServer.cs:65-75 | Changes the fields exactly as Connected does, and keeps every entry's id equal to its key. |
| Server.NetworkServer.OnData | Assets/Scripts/NetworkServer.cs:77-107 | Changes the fields exactly as Dispatched does, and keeps every entry's id equal to its key. |
| Server.NetworkServer.OnDisconnect | Assets/Scripts/NetworkServer.cs:109-115 | Changes the fields exactly as Disconnected does, and keeps every entry's id equal to its key. |
| Server.NetworkServer.CleanUpConnections | Assets/Scripts/NetworkServer.cs:122-130 | The swap-back loop with its `--i`. Afterwards every slot is created, the multiset of created connections is preserved, and the length is their count. The registry and the send log are unchanged. |
| Server.NetworkServer.AcceptNewConnections | Assets/Scripts/NetworkServer.cs:133-140 | Calls OnConnect once per accepted connection, in order, stopping at the first default connection. The connections, handshakes and new keys are exactly those of the accepted prefix. |
| Server.NetworkServer.DrainSlot | Assets/Scripts/NetworkServer.cs:150-163 | The inner loop for one slot changes the fields exactly as Drained does. It stops with true at the first PLAYER_UPDATE whose id has no entry. |
| Server.NetworkServer.ReadIncomingMessages | Assets/Scripts/NetworkServer.cs:145-164 | Drains every slot's events in slot order. A Data event is dispatched, a Disconnect event disconnects the slot, and anything else is ignored. It reports when a PLAYER_UPDATE for an unknown id threw. |
| Server.NetworkServer.Update | Assets/Scripts/NetworkServer.cs:117-168 | Runs cleanup, then the accept drain, then the read loop, in that order, and reports an escaping exception. |
| Server.NetworkServer.BuildSnapshot | Assets/Scripts/NetworkServer.cs:38-42 | Returns every registry value exactly once, in the enumeration order of the distinct keys. |
| Server.NetworkServer.SendUpdateToAllClients | Assets/Scripts/NetworkServer.cs:38-46 | Sends that same snapshot once to each connection, in list order, and appends nothing else to the send log. |
| ServerInvariant.InitialInv | Assets/Scripts/NetworkServer.cs:17 | An empty session satisfies the invariant. |
| ServerInvariant.EnabledIsDefined | Assets/Scripts/NetworkServer.cs:68 | Under the invariant, a fresh live connection with a new id never makes `clientList.Add` throw. A self-report under a registered id never makes the indexer throw. |
| ServerInvariant.AcceptKeepsInv | Assets/Scripts/NetworkServer.cs:67-68 | Accepting a live connection with a new id keeps the invariant: keys equal the created connections' id strings, each created connection occurs once, and every entry's id is its key. |
| ServerInvariant.DataKeepsInv | Assets/Scripts/NetworkServer.cs:90-97 | A dispatched message keeps the invariant. |
| ServerInvariant.DisconnectKeepsInv | Assets/Scripts/NetworkServer.cs:112-114 | Disconnecting a live slot keeps the invariant. |
| ServerInvariant.CleanupKeepsInv | Assets/Scripts/NetworkServer.cs:122-130 | The cleanup loop keeps the invariant. |
| ServerInvariant.StepKeepsInv | Assets/Scripts/NetworkServer.cs:65-130 | Every enabled connect, data, disconnect or cleanup step is free of exceptions and keeps the invariant. |
| ServerInvariant.RunKeepsInv | Assets/Scripts/NetworkServer.cs:67-68 | On every admissible sequence of steps, the registry key set stays exactly the set of id strings of the created connections. |
| Client.Handshaken | Assets/Scripts/NetworkClient.cs:106-112 | HANDSHAKE sets the own id to the message id and adds one new cube under it. Every other cube and field is unchanged. It requires the id to be absent. |
| Client.ServerUpdated | Assets/Scripts/NetworkClient.cs:124-141 | After SERVER_UPDATE the seen list is exactly the snapshot ids, in snapshot order. It replaces the old list rather than joining it, and only the cubes and the seen list change. |
| Client.MergedKeys | Assets/Scripts/NetworkClient.cs:126-133 | After the merge, the keys are exactly the old keys plus the snapshot ids. The merge never removes a cube. |
| Client.MergedKeeps | Assets/Scripts/NetworkClient.cs:126-139 | A cube whose id is not in the snapshot is kept unchanged. |
| Client.MergedLast | Assets/Scripts/NetworkClient.cs:134-138 | A cube for a snapshot id other than the own one shows the position and colour of that id's last occurrence in the snapshot. |
| Client.MergedOwn | Assets/Scripts/NetworkClient.cs:134-138 | The own cube's position and colour are never changed by a snapshot. |
| Client.MergedOwnNew | Assets/Scripts/NetworkClient.cs:130-133 | If the own id first appears in a snapshot, its cube is a new one from the prefab and is not moved. |
| Client.MergeIdempotent | Assets/Scripts/NetworkClient.cs:124-141 | Merging the same snapshot twice in a row gives the same cubes and the same seen list as merging it once. |
| Client.Received | Assets/Scripts/NetworkClient.cs:98-147 | Any command other than HANDSHAKE and SERVER_UPDATE, PLAYER_UPDATE included, changes nothing. No command touches the connection, the send log or the coroutine count. |
| Client.Dropped | Assets/Scripts/NetworkClient.cs:60-67 | The drop check keeps exactly the cubes whose id is in the seen list, unchanged. |
| Client.MergeThenDrop | Assets/Scripts/NetworkClient.cs:60-67 | A drop check right after a snapshot leaves exactly the snapshot's ids. A player left out of the snapshot loses its cube. |
| Client.SelfReport | Assets/Scripts/NetworkClient.cs:90-93 | The self-report is a PLAYER_UPDATE carrying the own id and the own cube's current position and colour. It requires the own id to have a cube. |
| Client.Connected | Assets/Scripts/NetworkClient.cs:40-55 | OnConnect sends one handshake carrying the connection's id string and the initial position and colour. It starts the coroutines once more and changes nothing else. |
| Client.Disconnected | Assets/Scripts/NetworkClient.cs:154-157 | OnDisconnect only resets the connection to a non-created one. The own id, cubes, seen list and send log are untouched. |
| Client.Updated | Assets/Scripts/NetworkClient.cs:167-170 | Without a created connection, Update changes nothing and reports no exception. |
| Client.NetworkClient.constructor | Assets/Scripts/NetworkClient.cs:24-30 | A client starts with a connection, no own id, no cubes, an empty seen list and nothing sent. |
| Client.NetworkClient.OnConnect | Assets/Scripts/NetworkClient.cs:40-55 | Changes the fields exactly as Connected does. |
| Client.NetworkClient.MergeServerUpdate | Assets/Scripts/NetworkClient.cs:124-141 | The foreach that builds tempListId and then replaces ServerListId. It changes the fields exactly as ServerUpdated does. |
| Client.NetworkClient.OnData | Assets/Scripts/NetworkClient.cs:98-147 | Changes the fields exactly as Received does. |
| Client.NetworkClient.OnDisconnect | Assets/Scripts/NetworkClient.cs:154-157 | Changes the fields exactly as Disconnected does. |
| Client.NetworkClient.CheckForDroppedPlayers | Assets/Scripts/NetworkClient.cs:60-67 | One pass of the drop check. The remaining keys are exactly the old keys intersected with ServerListId, and the surviving cubes are unchanged. |
| Client.NetworkClient.SendRepeatPlayerUpdate | Assets/Scripts/NetworkClient.cs:90-94 | One turn sends exactly the self-report. |
| Client.NetworkClient.Update | Assets/Scripts/NetworkClient.cs:167-192 | Returns at once without a connection. Otherwise it handles each event in turn as connect, data or disconnect. It stops, with the own id already set, where a repeated HANDSHAKE makes `Add` throw. |
| EndToEnd.SelfReportApplied | Assets/Scripts/NetworkServer.cs:90-97 | The server applying a client's self-report stores that client's own position and colour under its id, and changes no other entry. |
| EndToEnd.SnapshotMirrored | Assets/Scripts/NetworkClient.cs:124-141 | Merging a snapshot of a well-keyed registry gives every player except the client itself that player's server-side position and colour. The following drop check leaves exactly the server's players. |
| EndToEnd.ReportRoundTrip | Assets/Scripts/NetworkClient.cs:134-138 | When client A reports, the server stores the report and the next snapshot carries it. A's own cube is left as it is, and another client B's cube for A shows A's reported position and colour. |

## Left out

- The Unity Transport driver is not modelled: creation, Bind/Listen/Connect,
  ScheduleUpdate, the internals of Accept, PopEvent and PopEventForConnection,
  BeginSend/EndSend, and NativeList/NativeArray allocation and disposal
  (OnDestroy). Accepted connections and the events a slot or a client pops
  before `Empty` are input sequences. Sends are appended to a log.
- The ASCII and JsonUtility encoding and decoding of messages, and the
  NetworkMessages/NetworkObjects types, are not modelled. Messages are one
  abstract datatype, with `Unknown` standing for any other command.
- Coroutine scheduling is not modelled: the 0.2 s and 1 s waits, the
  `while (true)` loops, and the server's commented-out restart. Each coroutine
  body is one step method. On the client, starting the coroutines in OnConnect
  is only counted (`timerStarts`).
- Instantiate, Destroy, Renderer and transform are not modelled. A cube is its
  `Proxy(pos, color)`, and a new cube is the constant `prefab`.
- WASD movement (NetworkClient.cs:193-208) and ChangeColor
  (NetworkClient.cs:72-82) are left out. They are float arithmetic and
  randomness.
- The client's `Disconnect()` (NetworkClient.cs:149-152) is left out. It is
  never called.
- Debug.Log, the bind-failure message and `Assert.IsTrue` in the read loop are
  left out. They are logging only.
- Server.NetworkServer.BuildSnapshot: the Dictionary's enumeration order is
  not modelled. The contract holds for some order of the distinct keys,
  returned as a ghost value.
- Client.NetworkClient.CheckForDroppedPlayers: the source removes entries
  inside the `foreach` over the same dictionary. Depending on the runtime,
  this may throw. The model takes the intended filter: each key is visited
  once and removed when it is not in ServerListId.
- Server.ReadFrom and Server.Drained: their own contracts state only framing
  facts: no new keys, no sends, and other slots untouched.
  Server.NetworkServer.ReadIncomingMessages is proved equal to ReadFrom.
- Exceptions from `Dictionary.Add` or the indexer are `requires` on the
  handlers. Inside the drain loops they are a stop with `aborted = true`. What
  Unity does with the exception afterwards is not modelled.
