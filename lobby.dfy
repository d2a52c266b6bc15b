/** The replication rule of the `useLobby` iteration: the host is the first
    player of the cached lobby, a dispatch replaces the cached lobby with the
    selected reducer's result before deciding what to send, an action marked
    `serverDispatch: false` is sent nowhere, the host broadcasts the new lobby as
    `server.update` and posts it to the server as `host.update`, and a client
    broadcasts the action itself. Fetching the lobby and the HTTP post are not
    modelled; a post is recorded as an `Output`. */
module Lobby {
  import opened Common

  datatype Player = Player(id: string)

  /** The cached lobby: a player list that may be missing, and everything else. */
  datatype LobbyState<X> = LobbyState(players: Option<seq<Player>>, rest: X)

  /** An action payload: a whole lobby, possibly not loaded (`server.update`,
      `host.update`), or any other value. */
  datatype Body<X, P> = LobbyBody(lobby: Option<LobbyState<X>>) | ValueBody(value: P)

  datatype LobbyAction<X, P> = LobbyAction(kind: string, payload: Body<X, P>, serverDispatch: Option<bool>)

  datatype Message<X, P> = Message(kind: string, action: LobbyAction<X, P>)

  /** What a dispatch hands on: a broadcast to the peers, or a post of an action
      to the lobby's server endpoint. */
  datatype Output<X, P> =
    | Broadcast(message: Message<X, P>)
    | Post(lobbyCode: string, action: LobbyAction<X, P>)

  const LobbyActionKind: string := "lobby-action"
  const HelloKind: string := "hello"
  const ServerUpdateKind: string := "server.update"
  const HostUpdateKind: string := "host.update"

  type Reducer<!X, !P> = (Option<LobbyState<X>>, LobbyAction<X, P>) -> Option<LobbyState<X>>

  /** The host id: the first player's id; absent when the lobby is not loaded,
      has no player list or no players, or when that id is empty (`|| undefined`
      turns an empty id into `undefined`). */
  function HostId<X>(lobby: Option<LobbyState<X>>): (r: Option<string>)
    ensures r.Some? <==>
      && lobby.Some? && lobby.value.players.Some?
      && |lobby.value.players.value| > 0 && lobby.value.players.value[0].id != ""
    ensures r.Some? ==> r.value == lobby.value.players.value[0].id
  {
    match lobby
    case None => None
    case Some(l) =>
      match l.players
      case None => None
      case Some(ps) => if |ps| == 0 || ps[0].id == "" then None else Some(ps[0].id)
  }

  /** This peer acts as server exactly when its id is the host id. */
  predicate IsHost<X>(lobby: Option<LobbyState<X>>, myId: string) {
    HostId(lobby) == Some(myId)
  }

  /** Only the first player is ever the host, and a peer whose id is empty never
      is, even when the first player's id is empty too. */
  lemma HostIsFirstPlayer<X>(lobby: Option<LobbyState<X>>, myId: string)
    ensures IsHost(lobby, myId) <==>
      && myId != ""
      && lobby.Some? && lobby.value.players.Some? && |lobby.value.players.value| > 0
      && lobby.value.players.value[0].id == myId
  {
  }

  function ServerUpdate<X, P>(lobby: Option<LobbyState<X>>): LobbyAction<X, P> {
    LobbyAction(ServerUpdateKind, LobbyBody(lobby), None)
  }

  function HostUpdate<X, P>(lobby: Option<LobbyState<X>>): LobbyAction<X, P> {
    LobbyAction(HostUpdateKind, LobbyBody(lobby), None)
  }

  datatype Step<X, P> = Step(lobby: Option<LobbyState<X>>, sent: seq<Output<X, P>>)

  /** `externalDispatch`. */
  function Dispatch<X, P>(serverR: Reducer<X, P>, clientR: Reducer<X, P>, myId: string, lobbyCode: string,
                          lobby: Option<LobbyState<X>>, a: LobbyAction<X, P>): Step<X, P>
  {
    var next := if IsHost(lobby, myId) then serverR(lobby, a) else clientR(lobby, a);
    Step(next,
      if a.serverDispatch == Some(false) then []
      else if IsHost(lobby, myId) then
        [Broadcast(Message(LobbyActionKind, ServerUpdate(next))), Post(lobbyCode, HostUpdate(next))]
      else [Broadcast(Message(LobbyActionKind, a))])
  }

  /** `peerDispatch`: a lobby action is dispatched as it came, a hello
      dispatches `server.update` with the current lobby, anything else is
      ignored. */
  function Receive<X, P>(serverR: Reducer<X, P>, clientR: Reducer<X, P>, myId: string, lobbyCode: string,
                         lobby: Option<LobbyState<X>>, m: Message<X, P>): Step<X, P>
  {
    if m.kind == LobbyActionKind then Dispatch(serverR, clientR, myId, lobbyCode, lobby, m.action)
    else if m.kind == HelloKind then Dispatch(serverR, clientR, myId, lobbyCode, lobby, ServerUpdate(lobby))
    else Step(lobby, [])
  }

  /** The send rule: the cached lobby always becomes the selected reducer's
      result; nothing is sent for `serverDispatch: false`; otherwise the host
      broadcasts and posts that same result, and a client broadcasts the
      unmodified action and posts nothing. */
  lemma DispatchSendRule<X, P>(serverR: Reducer<X, P>, clientR: Reducer<X, P>, myId: string, lobbyCode: string,
                               lobby: Option<LobbyState<X>>, a: LobbyAction<X, P>)
    ensures var st := Dispatch(serverR, clientR, myId, lobbyCode, lobby, a);
      && st.lobby == (if IsHost(lobby, myId) then serverR(lobby, a) else clientR(lobby, a))
      && (a.serverDispatch == Some(false) ==> st.sent == [])
      && (a.serverDispatch != Some(false) && IsHost(lobby, myId) ==>
            st.sent == [Broadcast(Message(LobbyActionKind, ServerUpdate(st.lobby))), Post(lobbyCode, HostUpdate(st.lobby))])
      && (a.serverDispatch != Some(false) && !IsHost(lobby, myId) ==>
            st.sent == [Broadcast(Message(LobbyActionKind, a))])
      && (forall o :: o in st.sent && o.Post? ==> IsHost(lobby, myId))
  {
  }

  /** The reducer replaces the lobby with the payload of a `server.update`. */
  ghost predicate AdoptsServerUpdates<X(!new), P>(r: Reducer<X, P>) {
    forall l: Option<LobbyState<X>>, t: Option<LobbyState<X>> :: r(l, ServerUpdate(t)) == t
  }

  /** A hello reaching the host leaves its lobby as it is and makes it broadcast
      and post that lobby. */
  lemma HelloRebroadcastsLobby<X(!new), P>(serverR: Reducer<X, P>, clientR: Reducer<X, P>, myId: string, lobbyCode: string,
                                           lobby: Option<LobbyState<X>>, hello: Message<X, P>)
    requires hello.kind == HelloKind
    requires IsHost(lobby, myId)
    requires AdoptsServerUpdates(serverR)
    ensures Receive(serverR, clientR, myId, lobbyCode, lobby, hello)
      == Step(lobby, [Broadcast(Message(LobbyActionKind, ServerUpdate(lobby))), Post(lobbyCode, HostUpdate(lobby))])
  {
    assert serverR(lobby, ServerUpdate(lobby)) == lobby;
  }

  /** One round trip: a client at `c` dispatches `a` and broadcasts it; the host
      at `h` reduces it to `h1`, broadcasts `server.update` with `h1` and posts
      it; the client adopts `h1`. Both then hold `h1`. */
  lemma ClientActionRoundTrip<X(!new), P>(serverR: Reducer<X, P>, clientR: Reducer<X, P>, hostId: string, clientId: string,
                                          lobbyCode: string, h: Option<LobbyState<X>>, c: Option<LobbyState<X>>, a: LobbyAction<X, P>)
    requires IsHost(h, hostId) && !IsHost(c, clientId) && !IsHost(clientR(c, a), clientId)
    requires a.serverDispatch != Some(false)
    requires AdoptsServerUpdates(clientR)
    ensures Dispatch(serverR, clientR, clientId, lobbyCode, c, a).sent == [Broadcast(Message(LobbyActionKind, a))]
    ensures Receive(serverR, clientR, hostId, lobbyCode, h, Message(LobbyActionKind, a)).lobby == serverR(h, a)
    ensures Receive(serverR, clientR, hostId, lobbyCode, h, Message(LobbyActionKind, a)).sent
      == [Broadcast(Message(LobbyActionKind, ServerUpdate(serverR(h, a)))), Post(lobbyCode, HostUpdate(serverR(h, a)))]
    ensures Receive(serverR, clientR, clientId, lobbyCode, clientR(c, a), Message(LobbyActionKind, ServerUpdate(serverR(h, a)))).lobby
      == serverR(h, a)
  {
    var h1 := serverR(h, a);
    assert clientR(clientR(c, a), ServerUpdate(h1)) == h1;
  }

  /** A `server.update` never settles: the client adopts it and broadcasts the
      identical message back (its `serverDispatch` is absent), and the host,
      receiving that, keeps its lobby and broadcasts and posts it once more. */
  lemma ServerUpdateEchoesForever<X(!new), P>(serverR: Reducer<X, P>, clientR: Reducer<X, P>, hostId: string, clientId: string,
                                              lobbyCode: string, h: Option<LobbyState<X>>, c: Option<LobbyState<X>>)
    requires IsHost(h, hostId) && !IsHost(c, clientId)
    requires AdoptsServerUpdates(serverR) && AdoptsServerUpdates(clientR)
    ensures Receive(serverR, clientR, clientId, lobbyCode, c, Message(LobbyActionKind, ServerUpdate(h)))
      == Step(h, [Broadcast(Message(LobbyActionKind, ServerUpdate(h)))])
    ensures Receive(serverR, clientR, hostId, lobbyCode, h, Message(LobbyActionKind, ServerUpdate(h)))
      == Step(h, [Broadcast(Message(LobbyActionKind, ServerUpdate(h))), Post(lobbyCode, HostUpdate(h))])
  {
    assert clientR(c, ServerUpdate(h)) == h;
    assert serverR(h, ServerUpdate(h)) == h;
  }

  /** One `useLobby` instance: the lobby code, this peer's id, the two reducers,
      the cached lobby, and everything broadcast or posted. */
  class LobbySession<X, P> {
    const lobbyCode: string
    const myId: string
    const serverR: (Option<LobbyState<X>>, LobbyAction<X, P>) -> Option<LobbyState<X>>
    const clientR: (Option<LobbyState<X>>, LobbyAction<X, P>) -> Option<LobbyState<X>>
    var lobby: Option<LobbyState<X>>
    var outbox: seq<Output<X, P>>

    /** `initial` is whatever the lobby fetch has cached, possibly nothing yet. */
    constructor(lobbyCode: string, myId: string, initial: Option<LobbyState<X>>,
                serverR: (Option<LobbyState<X>>, LobbyAction<X, P>) -> Option<LobbyState<X>>,
                clientR: (Option<LobbyState<X>>, LobbyAction<X, P>) -> Option<LobbyState<X>>)
      ensures this.lobbyCode == lobbyCode && this.myId == myId
      ensures this.serverR == serverR && this.clientR == clientR
      ensures lobby == initial && outbox == []
    {
      this.lobbyCode := lobbyCode;
      this.myId := myId;
      this.serverR := serverR;
      this.clientR := clientR;
      lobby := initial;
      outbox := [];
    }

    /** The dispatch handed to consumers. */
    method ExternalDispatch(a: LobbyAction<X, P>)
      modifies this
      ensures lobby == Dispatch(serverR, clientR, myId, lobbyCode, old(lobby), a).lobby
      ensures outbox == old(outbox) + Dispatch(serverR, clientR, myId, lobbyCode, old(lobby), a).sent
    {
      var isHost := HostId(lobby) == Some(myId);
      var next := if isHost then serverR(lobby, a) else clientR(lobby, a);
      lobby := next;
      if a.serverDispatch != Some(false) {
        if isHost {
          outbox := outbox + [Broadcast(Message(LobbyActionKind, LobbyAction(ServerUpdateKind, LobbyBody(next), None)))];
          outbox := outbox + [Post(lobbyCode, LobbyAction(HostUpdateKind, LobbyBody(next), None))];
        } else {
          outbox := outbox + [Broadcast(Message(LobbyActionKind, a))];
        }
      }
    }

    /** The listener subscribed to the peer layer. */
    method PeerDispatch(m: Message<X, P>)
      modifies this
      ensures lobby == Receive(serverR, clientR, myId, lobbyCode, old(lobby), m).lobby
      ensures outbox == old(outbox) + Receive(serverR, clientR, myId, lobbyCode, old(lobby), m).sent
    {
      if m.kind == LobbyActionKind {
        ExternalDispatch(m.action);
      } else if m.kind == HelloKind {
        ExternalDispatch(LobbyAction(ServerUpdateKind, LobbyBody(lobby), None));
      }
    }
  }
}
