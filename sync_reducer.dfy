/** The replication rule of the `SyncReducerProvider` iteration: ids are
    sanitised, the role is fixed by comparing the host id of the initial value
    with this peer's id, a client forwards the raw action it dispatches, the host
    re-broadcasts a full-state `host.update` snapshot, and inbound updates are
    applied locally without being forwarded again. */
module SyncReducer {
  import opened Common
  import opened PeerId

  /** An action payload: a whole replicated state (the payload of `host.update`)
      or any other value. */
  datatype Body<S, P> = StateBody(state: S) | ValueBody(value: P)

  /** A reducer action; an absent timestamp is `undefined`. */
  datatype Action<S, P> = Action(kind: string, payload: Body<S, P>, timestamp: Option<string>)

  /** The wire envelope handed to the peer layer's broadcast. */
  datatype Message<S, P> =
    Message(kind: string, clientId: Option<string>, timestamp: Option<string>, action: Action<S, P>)

  const UpdateKind: string := "syncstate.update"
  const HelloKind: string := "hello"
  const HostUpdateKind: string := "host.update"

  type Reducer<!S, !P> = (S, Action<S, P>) -> S

  /** This peer is the host exactly when its sanitised id equals the sanitised
      host id. */
  predicate IsHostRole(hostIn: string, peerIdIn: string) {
    SanitizeId(hostIn) == SanitizeId(peerIdIn)
  }

  /** The reducer the provider runs: the host reducer for the host role, the
      client reducer otherwise. */
  function SelectReducer<S, P>(hostIn: string, peerIdIn: string, hostR: Reducer<S, P>, clientR: Reducer<S, P>): (r: Reducer<S, P>)
    ensures IsHostRole(hostIn, peerIdIn) ==> r == hostR
    ensures !IsHostRole(hostIn, peerIdIn) ==> r == clientR
  {
    if SanitizeId(hostIn) == SanitizeId(peerIdIn) then hostR else clientR
  }

  /** Ids that differ only by punctuation select the same role, so an
      identity-provider id such as `auth0|x` on one side and `auth0x` on the
      other still make this peer the host. */
  lemma HostRoleIgnoresPunctuation(a: string, sep: string, b: string, peerIdIn: string)
    requires forall i :: 0 <= i < |sep| ==> !IsAlnum(sep[i])
    ensures IsHostRole(a + sep + b, peerIdIn) <==> IsHostRole(a + b, peerIdIn)
    ensures IsHostRole(a + sep + b, a + b)
  {
    SanitizeIgnoresSeparators(a, sep, b);
  }

  /** Sanitising an id before it reaches the provider changes no role. */
  lemma HostRoleStableUnderSanitizing(hostIn: string, peerIdIn: string)
    ensures IsHostRole(SanitizeId(hostIn), SanitizeId(peerIdIn)) == IsHostRole(hostIn, peerIdIn)
  {
    SanitizeIdempotent(hostIn);
    SanitizeIdempotent(peerIdIn);
  }

  /** The `host.update` action carrying a whole state. */
  function SnapshotAction<S, P>(s: S, timestamp: Option<string>): Action<S, P> {
    Action(HostUpdateKind, StateBody(s), timestamp)
  }

  /** The snapshot message the host broadcasts: its action carries no
      timestamp of its own; the envelope carries `timestamp`. */
  function Snapshot<S, P>(s: S, timestamp: Option<string>): Message<S, P> {
    Message(UpdateKind, None, timestamp, SnapshotAction(s, None))
  }

  /** The message a client sends for an action it dispatches. */
  function Forward<S, P>(a: Action<S, P>): Message<S, P> {
    Message(UpdateKind, None, a.timestamp, a)
  }

  /** The new state and the messages broadcast by one handler. */
  datatype Step<S, P> = Step(state: S, sent: seq<Message<S, P>>)

  /** `externalDispatch`: apply the action locally; a client also forwards it. */
  function Dispatch<S, P>(isHost: bool, r: Reducer<S, P>, s: S, a: Action<S, P>): Step<S, P> {
    Step(r(s, a), if isHost then [] else [Forward(a)])
  }

  /** The host effect. Its dependencies are the state and the list of connection
      keys, which is a fresh list on every render, so it runs after every render. */
  function HostEffect<S, P>(isHost: bool, s: S): seq<Message<S, P>> {
    if isHost then [Snapshot(s, None)] else []
  }

  /** `peerListener`: an update is applied locally, its action restamped with the
      envelope's timestamp; a hello is answered with a snapshot of the current
      state whatever the role; anything else is ignored. */
  function Receive<S, P>(r: Reducer<S, P>, s: S, m: Message<S, P>): Step<S, P> {
    if m.kind == UpdateKind then Step(r(s, m.action.(timestamp := m.timestamp)), [])
    else if m.kind == HelloKind then Step(s, [Snapshot(s, m.timestamp)])
    else Step(s, [])
  }

  /** The reducer replaces the whole state with the payload of a `host.update`. */
  ghost predicate AdoptsSnapshots<S(!new), P>(r: Reducer<S, P>) {
    forall s: S, t: S, ts: Option<string> :: r(s, SnapshotAction(t, ts)) == t
  }

  /** A client's forwarded action reaches the host unmodified: restamping it
      with the envelope's timestamp gives the action back, the host applies
      exactly that, and sends nothing in reply. */
  lemma ForwardedActionArrivesUnchanged<S, P>(r: Reducer<S, P>, s: S, a: Action<S, P>)
    ensures Receive(r, s, Forward(a)) == Step(r(s, a), [])
  {
  }

  /** A snapshot delivered twice gives the same state as delivered once. */
  lemma SnapshotIdempotent<S(!new), P>(r: Reducer<S, P>, s: S, t: S, ts: Option<string>)
    requires AdoptsSnapshots(r)
    ensures Receive(r, s, Snapshot(t, ts)).state == t
    ensures Receive(r, Receive(r, s, Snapshot(t, ts)).state, Snapshot(t, ts)) == Receive(r, s, Snapshot(t, ts))
  {
    assert r(s, SnapshotAction(t, ts)) == t;
    assert r(t, SnapshotAction(t, ts)) == t;
  }

  /** One round trip: a client dispatches `a` from state `c` and forwards it;
      the host, at `h`, applies it with its own reducer and then broadcasts a
      snapshot; the client adopts it. Both end in the host's result. */
  lemma ClientActionRoundTrip<S(!new), P>(hostR: Reducer<S, P>, clientR: Reducer<S, P>, h: S, c: S, a: Action<S, P>)
    requires AdoptsSnapshots(clientR)
    ensures Dispatch(false, clientR, c, a).sent == [Forward(a)]
    ensures Receive(hostR, h, Forward(a)) == Step(hostR(h, a), [])
    ensures HostEffect<S, P>(true, hostR(h, a)) == [Snapshot(hostR(h, a), None)]
    ensures Receive(clientR, clientR(c, a), Snapshot(hostR(h, a), None)) == Step(hostR(h, a), [])
  {
    var c1 := clientR(c, a);
    var h1 := hostR(h, a);
    assert clientR(c1, SnapshotAction(h1, None)) == h1;
  }

  /** A newcomer's hello makes the host answer with its current state, stamped
      with the hello's timestamp; the host's state is unchanged and the client
      adopts the host's state. */
  lemma HelloBringsClientUpToDate<S(!new), P>(hostR: Reducer<S, P>, clientR: Reducer<S, P>, h: S, c: S, hello: Message<S, P>)
    requires hello.kind == HelloKind
    requires AdoptsSnapshots(clientR)
    ensures Receive(hostR, h, hello) == Step(h, [Snapshot(h, hello.timestamp)])
    ensures Receive(clientR, c, Snapshot(h, hello.timestamp)).state == h
  {
    assert clientR(c, SnapshotAction(h, hello.timestamp)) == h;
  }

  /** One provider instance: its sanitised ids, the reducer its role selects,
      the replicated state, and everything it has handed to the peer layer's
      broadcast. */
  class SyncReducerProvider<S, P> {
    const host: string
    const peerId: string
    const reducer: (S, Action<S, P>) -> S
    var syncState: S
    var outbox: seq<Message<S, P>>

    constructor(hostIn: string, peerIdIn: string, value: S, hostR: (S, Action<S, P>) -> S, clientR: (S, Action<S, P>) -> S)
      ensures host == SanitizeId(hostIn) && peerId == SanitizeId(peerIdIn)
      ensures reducer == SelectReducer(hostIn, peerIdIn, hostR, clientR)
      ensures syncState == value && outbox == []
    {
      host := SanitizeId(hostIn);
      peerId := SanitizeId(peerIdIn);
      reducer := SelectReducer(hostIn, peerIdIn, hostR, clientR);
      syncState := value;
      outbox := [];
    }

    predicate IsHost() {
      host == peerId
    }

    /** The dispatch handed to consumers. */
    method ExternalDispatch(a: Action<S, P>)
      modifies this
      ensures syncState == Dispatch(IsHost(), reducer, old(syncState), a).state
      ensures outbox == old(outbox) + Dispatch(IsHost(), reducer, old(syncState), a).sent
    {
      syncState := reducer(syncState, a);
      if host != peerId {
        outbox := outbox + [Message(UpdateKind, None, a.timestamp, a)];
      }
    }

    /** The snapshot effect, run after every render of the provider (its
        connection-key dependency is a fresh list each time). */
    method SnapshotEffect()
      modifies this
      ensures syncState == old(syncState)
      ensures outbox == old(outbox) + HostEffect(IsHost(), syncState)
    {
      if host == peerId {
        outbox := outbox + [Message(UpdateKind, None, None, Action(HostUpdateKind, StateBody(syncState), None))];
      }
    }

    /** The listener subscribed to the peer layer. */
    method PeerListener(m: Message<S, P>)
      modifies this
      ensures syncState == Receive(reducer, old(syncState), m).state
      ensures outbox == old(outbox) + Receive(reducer, old(syncState), m).sent
    {
      if m.kind == UpdateKind {
        syncState := reducer(syncState, m.action.(timestamp := m.timestamp));
      } else if m.kind == HelloKind {
        outbox := outbox + [Message(UpdateKind, None, m.timestamp, Action(HostUpdateKind, StateBody(syncState), None))];
      }
    }
  }
}
