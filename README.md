# peerjs-dispatch: connection bookkeeping and state replication, modelled in Dafny

peerjs-dispatch lets a few peers share one reducer-managed state over
peer-to-peer data connections. One peer is the host. This project models the
deterministic core beneath the React and PeerJS glue, in two parts.

- **Connection and listener bookkeeping** (`src/hooks/usePeers.ts`). This
  covers the id sanitiser, the listener-list and connection-map reducers,
  broadcast recipient selection and the relay of inbound data. It also covers
  the client's host handshake and the reconnect counter. The reducers are pure
  functions (`peer_id.dfy`, `peers.dfy`). The hook itself is the class
  `Peers.PeerConnections`. Its fields are the connection map, the listener list,
  the `connected` flag, the reconnect counter and the pending timers. Its outbox
  records every send and every listener invocation. Each transport or timer
  event is a method.
- **The replication rule, in three iterations.** These are
  `src/hooks/useSyncReducer.tsx` (`sync_reducer.dfy`),
  `src/hooks/useGameState.tsx` (`game_state_provider.dfy`) and
  `src/hooks/useGameState.ts` (`lobby.dfy`). Each module takes the host and
  client reducers as parameters. Each has pure step functions (`Dispatch` and
  `Receive`, plus `HostEffect` for the host's snapshot effect in the two `.tsx`
  iterations; `useGameState.ts` has no such effect) that return the new state
  and the messages sent. A
  class holds the state and an outbox, and its methods are proved equal to
  those functions. Lemmas about the step functions state the multi-peer
  properties: the round trip of a client action, the catch-up of a newcomer
  after `hello`, and the echo behaviour of each iteration.

The three iterations stay separate because they differ:

- `useSyncReducer.tsx` sanitises ids. It applies an inbound update locally and
  forwards nothing.
- `useGameState.tsx` compares raw ids. It re-dispatches an inbound update, so in
  the model, whose handlers read the current state, a client echoes every host
  snapshot back to the host (`ClientEchoesSnapshot`).
- `useGameState.ts` takes the host from the first player of the cached lobby.
  It skips sending when `serverDispatch` is `false`, and its host also posts to
  the server. In the model, whose handlers read the current state, a
  `server.update` is echoed back and forth between host and client without end
  (`ServerUpdateEchoesForever`). In the code as written, the handler registered
  by `useGameState.ts` is registered once with `[]` dependencies, so it keeps
  the first render's closures (see "## Left out"). This iteration imports
  `usePeers` from `components/usePeers`, which is not part of this model; the
  model gives it the connection layer of `src/hooks/usePeers.ts`.

Where the code departs from the system's design intent, the model follows the
code:

- The reconnect counter is never reset.
- A host update is passed through the receiving reducer; it does not replace
  the state unconditionally. The lemmas therefore assume a reducer that adopts
  snapshots (`AdoptsSnapshots`, `AdoptsServerUpdates`) where they need one.
- The reconnect timer fires once per transition of `hasHostConnection` to false,
  not once per failed cycle.
- The host connection lookup goes through the object prototype
  (`src/hooks/usePeers.ts:71`). For a host id such as `toString` or
  `constructor`, it succeeds with no connection, even after the host key is
  deleted. The model keeps this through `Peers.InheritedNames`, so for such a
  host the reconnect effect never schedules a timer.
- The `hostDispatch` flag is declared in the two `.tsx` iterations but never
  read there.

The shared vocabulary (`Option` for `undefined`, subsequence, duplicate-free)
lives in `common.dfy`.

## Model

| member | source | states |
|---|---|---|
| `PeerId.SanitizeId` | src/hooks/usePeers.ts:4 | the result holds only ASCII letters and digits, is no longer than the input, and is a subsequence of it (original order kept) |
| `PeerId.SanitizeKeepsEveryAlnum` | src/hooks/usePeers.ts:4 | every letter or digit occurs in the result exactly as often as in the input; no other character occurs |
| `PeerId.SanitizeFixesExactlyAlnum` | src/hooks/usePeers.ts:4 | an id is unchanged by sanitising if and only if it already holds only letters and digits |
| `PeerId.SanitizeIdempotent` | src/hooks/useSyncReducer.tsx:10 | sanitising twice equals sanitising once |
| `PeerId.SanitizeConcat` | src/hooks/usePeers.ts:4 | sanitising distributes over concatenation |
| `PeerId.SanitizeDropsPunctuation` | src/hooks/usePeers.ts:4 | a string with no letter or digit sanitises to the empty id |
| `PeerId.SanitizeIgnoresSeparators` | src/hooks/usePeers.ts:4 | inserting punctuation into an id does not change its sanitised form, so both raw ids name one peer |
| `PeerId.SanitizeDropsSeparator` | src/hooks/usePeers.ts:4-5 | an alphanumeric id with punctuation inserted sanitises back to that id |
| `PeerId.SanitizeExamples` | src/hooks/usePeers.ts:4-5 | `a-b` and `ab` both give `ab`; `auth0|5f` gives `auth05f` |
| `Peers.Without` | src/hooks/usePeers.ts:36 | the filtered list omits the removed listener, is a subsequence of the original that is shorter by exactly the number of copies removed (so every copy of every other listener stays, in order), and equals the original when the listener is absent |
| `Peers.ListenerReducer` | src/hooks/usePeers.ts:32-39 | `add` appends at the end and leaves earlier listeners in place; `remove` drops every equal entry and exactly those, keeps every other copy in order, and is a no-op when absent |
| `Peers.AddThenRemoveListener` | src/hooks/useSyncReducer.tsx:187-190 | subscribing a listener and then unsubscribing it, as a listener effect and its cleanup do, restores the list |
| `Peers.ConnectionReducer` | src/hooks/usePeers.ts:40-52 | `add` maps the id to the ref, overwriting; `remove` deletes only that id; other entries unchanged; removing an absent id gives an equal map |
| `Peers.AddThenRemoveConnection` | src/hooks/usePeers.ts:162-190 | registering the host connection under a new key and removing it on close restores the map |
| `Peers.SendAll` | src/hooks/usePeers.ts:98 | one send of the payload per recipient, in recipient order |
| `Peers.NotifyAll` | src/hooks/usePeers.ts:147 | one invocation per listener with the payload, in list order |
| `Peers.BroadcastRecipients` | src/hooks/usePeers.ts:92-101 | the loop visits every connection key except the sender exactly once: duplicate-free, and a key is a recipient if and only if it is connected and differs from the sender |
| `Peers.NotifyListeners` | src/hooks/usePeers.ts:147 | the `forEach` loop invokes every listener once, in list order |
| `Peers.DistinctLength` | src/hooks/usePeers.ts:93 | a duplicate-free recipient list is as long as the set of its keys |
| `Peers.OnlyRecipient` | src/hooks/usePeers.ts:171 | when the host is the only other connection, the broadcast goes to the host alone |
| `Peers.PeerConnections.constructor` | src/hooks/usePeers.ts:54-70 | the own id and host id are sanitised, an absent host id stands for the default host, and everything starts empty, disconnected and at attempt 0 |
| `Peers.PeerConnections.AddListener` | src/hooks/usePeers.ts:81-85 | the listener list becomes the reducer's `add` result |
| `Peers.PeerConnections.RemoveListener` | src/hooks/usePeers.ts:86-90 | the listener list becomes the reducer's `remove` result |
| `Peers.PeerConnections.InternalBroadcast` | src/hooks/usePeers.ts:92-101 | one send of the payload to each connection other than `fromId` is appended to the outbox, and nothing else changes |
| `Peers.PeerConnections.Broadcast` | src/hooks/usePeers.ts:103 | every send appended goes to a connection other than the peer's own id |
| `Peers.PeerConnections.OnPeerOpen` | src/hooks/usePeers.ts:109-113 | the peer becomes connected |
| `Peers.PeerConnections.OnInboundOpen` | src/hooks/usePeers.ts:135-143 | on the host, an opened inbound connection is registered under the remote id |
| `Peers.PeerConnections.OnInboundData` | src/hooks/usePeers.ts:145-149 | data from peer P reaches every listener in list order and is then relayed to every connection except P |
| `Peers.PeerConnections.OnHostOpen` | src/hooks/usePeers.ts:162-176 | the host connection is stored under the host key, the host connection exists afterwards, and exactly one `hello` carrying the own id goes to the host |
| `Peers.PeerConnections.OnHostData` | src/hooks/usePeers.ts:177-179 | data from the host reaches every listener and is not relayed |
| `Peers.PeerConnections.OnHostClose` | src/hooks/usePeers.ts:182-190 | the host key is removed; the host lookup afterwards fails unless the host id is a property name every plain object inherits, such as `toString` |
| `Peers.PeerConnections.ReconnectEffect` | src/hooks/usePeers.ts:71-79 | the effect acts only when `hasHostConnection` changed since its last run, and schedules a timer only when the host lookup fails, which it never does for a host named like an inherited object property; the timer captures the current counter |
| `Peers.PeerConnections.FireReconnectTimer` | src/hooks/usePeers.ts:75-77 | a fired timer sets the counter to its captured value plus one; under the class invariant the counter never decreases, rises by at most one, and is never reset |
| `SyncReducer.SelectReducer` | src/hooks/useSyncReducer.tsx:124-129 | the host reducer is chosen when the sanitised host and peer ids are equal, otherwise the client reducer |
| `SyncReducer.HostRoleIgnoresPunctuation` | src/hooks/useSyncReducer.tsx:121-129 | host and peer ids that differ only by punctuation still select the host role |
| `SyncReducer.HostRoleStableUnderSanitizing` | src/hooks/useSyncReducer.tsx:124-128 | sanitising an id before it reaches the provider does not change the role |
| `SyncReducer.ForwardedActionArrivesUnchanged` | src/hooks/useSyncReducer.tsx:170-172 | a client's forwarded action, restamped with its envelope's timestamp, is the original action; the host applies exactly it and sends nothing |
| `SyncReducer.SnapshotIdempotent` | src/hooks/useSyncReducer.tsx:170-172 | with a reducer that adopts snapshots, a snapshot delivered twice gives the same state as once |
| `SyncReducer.ClientActionRoundTrip` | src/hooks/useSyncReducer.tsx:136-172 | a client's action is forwarded once, the host applies it and sends nothing back directly, the host effect broadcasts the result, and the client ends in the host's state |
| `SyncReducer.HelloBringsClientUpToDate` | src/hooks/useSyncReducer.tsx:173-182 | a hello leaves the state unchanged and broadcasts a snapshot of it stamped with the hello's timestamp, which the client adopts |
| `SyncReducer.SyncReducerProvider.constructor` | src/hooks/useSyncReducer.tsx:123-131 | ids are sanitised, the reducer is selected by role, and the state starts at the given value |
| `SyncReducer.SyncReducerProvider.ExternalDispatch` | src/hooks/useSyncReducer.tsx:136-147 | the state becomes the selected reducer applied to the old state and the action; a client appends one `syncstate.update` with the unmodified action and its timestamp; a host appends nothing |
| `SyncReducer.SyncReducerProvider.SnapshotEffect` | src/hooks/useSyncReducer.tsx:151-167 | the host appends one `syncstate.update` whose action is `host.update` with the whole current state; a client appends nothing; the state is unchanged |
| `SyncReducer.SyncReducerProvider.PeerListener` | src/hooks/useSyncReducer.tsx:169-186 | an update is applied locally with its timestamp replaced and nothing is sent; a hello leaves the state and broadcasts a snapshot; other kinds change nothing |
| `GameStateProvider.SelectReducer` | src/hooks/useGameState.tsx:111-113 | the host reducer is chosen exactly when the host id equals the peer id, with no sanitising |
| `GameStateProvider.PunctuationSplitsRoles` | src/hooks/useGameState.tsx:111-113 | for any ids `a + sep + b` and `a + b` with non-empty punctuation `sep`: both sanitise to the same peer id, yet either id as host and the other as peer selects the client reducer |
| `GameStateProvider.ClientEchoesSnapshot` | src/hooks/useGameState.tsx:143-146 | a client that receives the host's snapshot broadcasts that very message back |
| `GameStateProvider.HostAbsorbsUpdates` | src/hooks/useGameState.tsx:143-146 | the host applies an inbound update with its own reducer and forwards nothing; with a reducer that adopts snapshots, its own echoed snapshot leaves it unchanged |
| `GameStateProvider.ClientActionRoundTrip` | src/hooks/useGameState.tsx:120-146 | a client's forwarded action is applied by the host, whose snapshot the client adopts and echoes and the host absorbs; both end in the host's result |
| `GameStateProvider.HelloBringsClientUpToDate` | src/hooks/useGameState.tsx:147-155 | a hello leaves the state unchanged and broadcasts a snapshot of it, which a client adopts |
| `GameStateProvider.GameStateSyncProvider.constructor` | src/hooks/useGameState.tsx:111-115 | raw ids are kept, the reducer is selected by role, and the state starts at the given value |
| `GameStateProvider.GameStateSyncProvider.ExternalDispatch` | src/hooks/useGameState.tsx:120-130 | the state becomes the selected reducer's result; a client appends one `gamestate.update` with the unmodified action; a host appends nothing |
| `GameStateProvider.GameStateSyncProvider.SnapshotEffect` | src/hooks/useGameState.tsx:131-141 | the host appends one `host.update` snapshot of the whole state; a client appends nothing |
| `GameStateProvider.GameStateSyncProvider.PeerListener` | src/hooks/useGameState.tsx:143-159 | an update goes through the dispatch (applied locally, re-forwarded by a client); a hello broadcasts a snapshot; other kinds change nothing |
| `Lobby.HostId` | src/hooks/useGameState.ts:37 | the host id is the first player's id; it is absent when there is no lobby, no player list, no player, or an empty first id |
| `Lobby.HostIsFirstPlayer` | src/hooks/useGameState.ts:37-46 | a peer acts as server exactly when its non-empty id is the first player's id |
| `Lobby.DispatchSendRule` | src/hooks/useGameState.ts:44-73 | the lobby always becomes the selected reducer's result; `serverDispatch: false` sends nothing; otherwise the host broadcasts `server.update` and posts `host.update` with that same result, and a client broadcasts the unmodified action and never posts |
| `Lobby.HelloRebroadcastsLobby` | src/hooks/useGameState.ts:79-83 | a hello reaching the host leaves its lobby unchanged and makes it broadcast and post that lobby, with the handler reading the current lobby and connections |
| `Lobby.ClientActionRoundTrip` | src/hooks/useGameState.ts:44-78 | a client's broadcast action is reduced by the host, which broadcasts and posts the result; the client adopts it (the host's broadcast as the model's handlers send it) |
| `Lobby.ServerUpdateEchoesForever` | src/hooks/useGameState.ts:51-78 | in the model's handlers, which read the current state, the client adopts a `server.update` and broadcasts the identical message back; the host answers that with the same broadcast and post again |
| `Lobby.LobbySession.constructor` | src/hooks/useGameState.ts:30-34 | the session starts with the cached lobby, possibly not loaded, and an empty outbox |
| `Lobby.LobbySession.ExternalDispatch` | src/hooks/useGameState.ts:44-73 | the cached lobby is replaced by the step function's result unconditionally, and exactly that step's broadcasts and post are appended |
| `Lobby.LobbySession.PeerDispatch` | src/hooks/useGameState.ts:75-87 | a `lobby-action` is dispatched as it came; a hello dispatches `server.update` with the current lobby; other kinds change nothing |

## Left out

- Peer transport calls are not modelled. These are `new Peer`, `peer.on`, `peer.connect`, `conn.send`, `close`, `peer.off` and `disconnect`. A send is an outbox entry, and each transport event is a method call. Connection error events are not modelled either.
- The connection effect's re-run is not modelled as an operation (`src/hooks/usePeers.ts:120-202`). It re-runs when `connected`, the reconnect counter or the host changes. Its cleanup closes every connection and drops the `connection` handler; it then registers the handlers again or reconnects to the host. Only the handlers it installs are modelled.
- React scheduling is not modelled. Effects and fired timers are explicit method calls; the 2500 ms delay is reduced to first-in, first-out firing.
- Stale closures in listeners are not modelled. A listener captures the state of the render that registered it. The model's handlers read the current state; only the reconnect timer's captured counter is modelled.
  - `useGameState.ts` registers `peerDispatch` once, with `[]` dependencies (`src/hooks/useGameState.ts:89-92`). It keeps the first render's lobby, host id and `broadcast`. That `broadcast` comes from `components/usePeers` (`src/hooks/useGameState.ts:7`), which is not part of this model. Suppose it behaved like `src/hooks/usePeers.ts`, whose `broadcast` runs over that render's connection map, initially empty (`src/hooks/usePeers.ts:64`, `92-103`). Then nothing `peerDispatch` sends would reach a peer. `Lobby.ServerUpdateEchoesForever`, `Lobby.HelloRebroadcastsLobby` and the host step of `Lobby.ClientActionRoundTrip` describe the model's handlers, which read the current state.
  - The same capture applies to the client's `hello` (`src/hooks/usePeers.ts:171`). It is sent over the connection map captured when the connection effect ran, which is empty on the first connection. `Peers.PeerConnections.OnHostOpen` sends it over the map as updated by the open.
  - The client's host-data handler (`src/hooks/usePeers.ts:177-179`) calls the `listeners` captured when the connection effect ran. `GameStateProvider.ClientEchoesSnapshot` and `Peers.PeerConnections.OnHostData` describe the model's handler, which notifies the current listeners.
- Peers.BroadcastRecipients: leaves the order of sends open. The source visits connections in JavaScript object-key order, which the map does not record.
- The `return state` fallback of the two bookkeeping reducers is left out. It covers action types other than `add` and `remove`, which the declared action types exclude.
- The wire envelope's `action` field is required in the model, as in the declared message types. A `hello` carries an arbitrary action that is never read. An update without an action is not modelled.
- The concrete reducers are not part of this model; they are parameters. Properties that need a reducer to replace the state on a host update assume that explicitly.
- Lobby fetching (`useSWR`), the HTTP `POST` of `serverDispatch`, and its response are not modelled. The post is recorded as an `Output`.
- Convergence across arbitrary interleavings of several peers is not modelled; only single round trips are proved.
- The options object that `src/hooks/useSyncReducer.tsx:133` passes to `usePeers` is left out. `src/hooks/usePeers.ts:54` takes no third parameter.
- UI components, context providers and `console.log` output are left out.
