/** The replication rule of the `GameStateSyncProvider` iteration: ids are
    compared as given, without sanitising; an inbound update goes through the
    same dispatch as a local action, so a client forwards it to the host again. */
module GameStateProvider {
  import opened Common
  import opened PeerId

  /** An action payload: a whole game state (the payload of `host.update`) or
      any other value. */
  datatype Body<S, P> = StateBody(state: S) | ValueBody(value: P)

  datatype Action<S, P> = Action(kind: string, payload: Body<S, P>)

  /** The wire envelope handed to the peer layer's broadcast. */
  datatype Message<S, P> = Message(kind: string, clientId: Option<string>, action: Action<S, P>)

  const UpdateKind: string := "gamestate.update"
  const HelloKind: string := "hello"
  const HostUpdateKind: string := "host.update"

  type Reducer<!S, !P> = (S, Action<S, P>) -> S

  /** The host reducer is selected exactly when the host id equals this peer's
      id character for character. */
  function SelectReducer<S, P>(host: string, peerId: string, hostR: Reducer<S, P>, clientR: Reducer<S, P>): (r: Reducer<S, P>)
    ensures host == peerId ==> r == hostR
    ensures host != peerId ==> r == clientR
  {
    if host == peerId then hostR else clientR
  }

  /** Without sanitising, ids that differ only by inserted punctuation make
      different roles: with `a + sep + b` as host id and `a + b` as peer id the
      client reducer is selected, and so it is the other way round, although
      the connection layer sanitises both to the same peer id. */
  lemma PunctuationSplitsRoles<S, P>(a: string, sep: string, b: string,
                                     hostR: Reducer<S, P>, clientR: Reducer<S, P>)
    requires |sep| > 0 && forall i :: 0 <= i < |sep| ==> !IsAlnum(sep[i])
    ensures SanitizeId(a + sep + b) == SanitizeId(a + b)
    ensures SelectReducer(a + sep + b, a + b, hostR, clientR) == clientR
    ensures SelectReducer(a + b, a + sep + b, hostR, clientR) == clientR
  {
    assert |a + sep + b| != |a + b|;
    SanitizeIgnoresSeparators(a, sep, b);
  }

  function SnapshotAction<S, P>(s: S): Action<S, P> {
    Action(HostUpdateKind, StateBody(s))
  }

  /** The snapshot message the host broadcasts. */
  function Snapshot<S, P>(s: S): Message<S, P> {
    Message(UpdateKind, None, SnapshotAction(s))
  }

  /** The message a client sends for an action it dispatches. */
  function Forward<S, P>(a: Action<S, P>): Message<S, P> {
    Message(UpdateKind, None, a)
  }

  datatype Step<S, P> = Step(state: S, sent: seq<Message<S, P>>)

  /** `externalDispatch`: apply the action locally; a client also forwards it. */
  function Dispatch<S, P>(isHost: bool, r: Reducer<S, P>, s: S, a: Action<S, P>): Step<S, P> {
    Step(r(s, a), if isHost then [] else [Forward(a)])
  }

  /** The host effect. Its dependencies are the state and the list of connection
      keys, which is a fresh list on every render, so it runs after every render. */
  function HostEffect<S, P>(isHost: bool, s: S): seq<Message<S, P>> {
    if isHost then [Snapshot(s)] else []
  }

  /** `peerListener`: an update is dispatched as if local, a hello is answered
      with a snapshot whatever the role, anything else is ignored. */
  function Receive<S, P>(isHost: bool, r: Reducer<S, P>, s: S, m: Message<S, P>): Step<S, P> {
    if m.kind == UpdateKind then Dispatch(isHost, r, s, m.action)
    else if m.kind == HelloKind then Step(s, [Snapshot(s)])
    else Step(s, [])
  }

  ghost predicate AdoptsSnapshots<S(!new), P>(r: Reducer<S, P>) {
    forall s: S, t: S :: r(s, SnapshotAction(t)) == t
  }

  /** A client that receives the host's snapshot sends that very message back
      to the host. */
  lemma ClientEchoesSnapshot<S, P>(clientR: Reducer<S, P>, c: S, h: S)
    ensures Receive(false, clientR, c, Snapshot(h)).sent == [Snapshot(h)]
  {
  }

  /** The host applies an inbound update with its own reducer and forwards
      nothing; when its reducer adopts snapshots, its own echoed snapshot leaves
      it where it was. */
  lemma HostAbsorbsUpdates<S(!new), P>(hostR: Reducer<S, P>, h: S, m: Message<S, P>)
    requires m.kind == UpdateKind
    ensures Receive(true, hostR, h, m) == Step(hostR(h, m.action), [])
    ensures AdoptsSnapshots(hostR) ==> Receive(true, hostR, h, Snapshot(h)) == Step(h, [])
  {
    if AdoptsSnapshots(hostR) {
      assert hostR(h, SnapshotAction(h)) == h;
    }
  }

  /** One round trip: a client dispatches `a` from `c` and forwards it; the host
      at `h` applies it and its effect broadcasts a snapshot; the client adopts
      the snapshot and echoes it; the host absorbs the echo. Both end in the
      host's result. */
  lemma ClientActionRoundTrip<S(!new), P>(hostR: Reducer<S, P>, clientR: Reducer<S, P>, h: S, c: S, a: Action<S, P>)
    requires AdoptsSnapshots(clientR) && AdoptsSnapshots(hostR)
    ensures Dispatch(false, clientR, c, a) == Step(clientR(c, a), [Forward(a)])
    ensures Receive(true, hostR, h, Forward(a)) == Step(hostR(h, a), [])
    ensures HostEffect<S, P>(true, hostR(h, a)) == [Snapshot(hostR(h, a))]
    ensures Receive(false, clientR, clientR(c, a), Snapshot(hostR(h, a))) == Step(hostR(h, a), [Snapshot(hostR(h, a))])
    ensures Receive(true, hostR, hostR(h, a), Snapshot(hostR(h, a))) == Step(hostR(h, a), [])
  {
    var h1 := hostR(h, a);
    assert clientR(clientR(c, a), SnapshotAction(h1)) == h1;
    assert hostR(h1, SnapshotAction(h1)) == h1;
  }

  /** A newcomer's hello is answered with the current state, which a client
      whose reducer adopts snapshots takes over. */
  lemma HelloBringsClientUpToDate<S(!new), P>(hostR: Reducer<S, P>, clientR: Reducer<S, P>, h: S, c: S, hello: Message<S, P>)
    requires hello.kind == HelloKind
    requires AdoptsSnapshots(clientR)
    ensures Receive(true, hostR, h, hello) == Step(h, [Snapshot(h)])
    ensures Receive(false, clientR, c, Snapshot(h)).state == h
  {
    assert clientR(c, SnapshotAction(h)) == h;
  }

  /** One provider instance: the host id of its initial value, this peer's id,
      the reducer its role selects, the game state, and everything it has
      handed to the peer layer's broadcast. */
  class GameStateSyncProvider<S, P> {
    const host: string
    const peerId: string
    const reducer: (S, Action<S, P>) -> S
    var gameState: S
    var outbox: seq<Message<S, P>>

    constructor(host: string, peerId: string, value: S, hostR: (S, Action<S, P>) -> S, clientR: (S, Action<S, P>) -> S)
      ensures this.host == host && this.peerId == peerId
      ensures reducer == SelectReducer(host, peerId, hostR, clientR)
      ensures gameState == value && outbox == []
    {
      this.host := host;
      this.peerId := peerId;
      reducer := SelectReducer(host, peerId, hostR, clientR);
      gameState := value;
      outbox := [];
    }

    predicate IsHost() {
      host == peerId
    }

    /** The dispatch handed to consumers. */
    method ExternalDispatch(a: Action<S, P>)
      modifies this
      ensures gameState == Dispatch(IsHost(), reducer, old(gameState), a).state
      ensures outbox == old(outbox) + Dispatch(IsHost(), reducer, old(gameState), a).sent
    {
      gameState := reducer(gameState, a);
      if host != peerId {
        outbox := outbox + [Message(UpdateKind, None, a)];
      }
    }

    /** The snapshot effect, run after every render of the provider (its
        connection-key dependency is a fresh list each time). */
    method SnapshotEffect()
      modifies this
      ensures gameState == old(gameState)
      ensures outbox == old(outbox) + HostEffect(IsHost(), gameState)
    {
      if host == peerId {
        outbox := outbox + [Message(UpdateKind, None, Action(HostUpdateKind, StateBody(gameState)))];
      }
    }

    /** The listener subscribed to the peer layer. */
    method PeerListener(m: Message<S, P>)
      modifies this
      ensures gameState == Receive(IsHost(), reducer, old(gameState), m).state
      ensures outbox == old(outbox) + Receive(IsHost(), reducer, old(gameState), m).sent
    {
      if m.kind == UpdateKind {
        ExternalDispatch(m.action);
      } else if m.kind == HelloKind {
        outbox := outbox + [Message(UpdateKind, None, Action(HostUpdateKind, StateBody(gameState)))];
      }
    }
  }
}
