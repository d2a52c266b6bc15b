/** Connection and listener bookkeeping of one peer: the `usePeers` hook.
    The transport (opening peers and connections, sending, closing) is not
    modelled; a send is recorded as an `Effect` in an outbox, and each event the
    transport or a timer delivers is a method call. */
module Peers {
  import opened Common
  import opened PeerId

  /** A listener callback; JavaScript compares callbacks by identity, modelled
      here as a handle. */
  type ListenerId = nat

  /** A transport data connection, identified by its object identity. */
  type ConnRef = nat

  datatype ListenerAction<L> = AddListener(listener: L) | RemoveListener(listener: L)

  datatype ConnectionAction<R> =
    | AddConnection(id: string, ref: R)
    | RemoveConnection(id: string, ref: R)

  /** What travels over a data connection: the greeting a client sends when its
      host connection opens, or any other data. */
  datatype Payload<D> = Hello(clientId: string) | Data(body: D)

  /** One observable effect: a send on the connection keyed `to`, or one
      listener invoked with a payload. */
  datatype Effect<D> =
    | Send(to: string, payload: Payload<D>)
    | Notify(listener: ListenerId, payload: Payload<D>)

  /** `s` with every occurrence of `x` filtered out. */
  function Without<L(==)>(s: seq<L>, x: L): (r: seq<L>)
    ensures x !in r
    ensures IsSubsequence(r, s)
    ensures forall y :: y in s && y != x ==> y in r
    ensures |r| == |s| - multiset(s)[x]
    ensures x !in s ==> r == s
  {
    if s == [] then []
    else
      assert s == [s[0]] + s[1..];
      if s[0] == x then Without(s[1..], x)
      else [s[0]] + Without(s[1..], x)
  }

  /** The listener list reducer: `add` appends at the end and keeps the earlier
      listeners in place; `remove` drops every entry equal to the payload, keeps
      all others in order, and changes nothing when it is absent. */
  function ListenerReducer<L(==)>(state: seq<L>, action: ListenerAction<L>): (r: seq<L>)
    ensures action.AddListener? ==>
      |r| == |state| + 1 && r[..|state|] == state && r[|state|] == action.listener
    ensures action.RemoveListener? ==>
      && action.listener !in r
      && IsSubsequence(r, state)
      && (forall y :: y in state && y != action.listener ==> y in r)
      && |r| == |state| - multiset(state)[action.listener]
    ensures action.RemoveListener? && action.listener !in state ==> r == state
  {
    match action
    case AddListener(f) => state + [f]
    case RemoveListener(f) => Without(state, f)
  }

  /** Filtering distributes over concatenation. */
  lemma {:induction false} WithoutConcat<L>(s: seq<L>, t: seq<L>, x: L)
    ensures Without(s + t, x) == Without(s, x) + Without(t, x)
  {
    if s == [] {
      assert s + t == t;
    } else {
      assert (s + t)[0] == s[0];
      assert (s + t)[1..] == s[1..] + t;
      WithoutConcat(s[1..], t, x);
    }
  }

  /** Subscribing a listener and then unsubscribing it (a listener effect and its
      cleanup) restores the list, provided it was not already subscribed. */
  lemma AddThenRemoveListener<L>(state: seq<L>, f: L)
    requires f !in state
    ensures ListenerReducer(ListenerReducer(state, AddListener(f)), RemoveListener(f)) == state
  {
    WithoutConcat(state, [f], f);
    assert Without([f], f) == [];
  }

  /** The connection map reducer: `add` maps `id` to `ref`, overwriting any
      earlier entry; `remove` deletes `id` alone, and removing an absent id gives
      an equal map; every other entry is unchanged either way. */
  function ConnectionReducer<R>(state: map<string, R>, action: ConnectionAction<R>): (r: map<string, R>)
    ensures action.AddConnection? ==>
      r.Keys == state.Keys + {action.id} && r[action.id] == action.ref
    ensures action.RemoveConnection? ==> r.Keys == state.Keys - {action.id}
    ensures forall k :: k in state && k != action.id ==> k in r && r[k] == state[k]
    ensures action.RemoveConnection? && action.id !in state ==> r == state
  {
    match action
    case AddConnection(id, ref) => state[id := ref]
    case RemoveConnection(id, _) => state - {id}
  }

  /** Registering a connection under a new key and then removing that key
      restores the map. */
  lemma AddThenRemoveConnection<R>(state: map<string, R>, id: string, ref: R, other: R)
    requires id !in state
    ensures ConnectionReducer(ConnectionReducer(state, AddConnection(id, ref)), RemoveConnection(id, other)) == state
  {
    var added := ConnectionReducer(state, AddConnection(id, ref));
    var removed := ConnectionReducer(added, RemoveConnection(id, other));
    assert removed.Keys == state.Keys;
  }

  /** One send of `p` to each id of `recipients`, in that order. */
  function SendAll<D>(recipients: seq<string>, p: Payload<D>): (r: seq<Effect<D>>)
    ensures |r| == |recipients|
    ensures forall i :: 0 <= i < |r| ==> r[i] == Send(recipients[i], p)
  {
    if recipients == [] then [] else [Send(recipients[0], p)] + SendAll(recipients[1..], p)
  }

  /** One invocation of each listener with `p`, in list order. */
  function NotifyAll<D>(listeners: seq<ListenerId>, p: Payload<D>): (r: seq<Effect<D>>)
    ensures |r| == |listeners|
    ensures forall i :: 0 <= i < |r| ==> r[i] == Notify(listeners[i], p)
  {
    if listeners == [] then [] else [Notify(listeners[0], p)] + NotifyAll(listeners[1..], p)
  }

  /** The connections `internalBroadcast(fromId, _)` sends to: every key of the
      map except `fromId`, each exactly once. The visiting order is whichever the
      map yields. */
  method BroadcastRecipients<R>(connections: map<string, R>, fromId: string) returns (recipients: seq<string>)
    ensures NoDuplicates(recipients)
    ensures forall k :: k in recipients <==> k in connections && k != fromId
  {
    recipients := [];
    var remaining := connections.Keys;
    ghost var sent: set<string> := {};
    while remaining != {}
      invariant remaining <= connections.Keys
      invariant sent == (connections.Keys - remaining) - {fromId}
      invariant forall k :: k in recipients <==> k in sent
      invariant NoDuplicates(recipients)
      decreases |remaining|
    {
      var k :| k in remaining;
      if k != fromId {
        NoDuplicatesSnoc(recipients, k);
        recipients := recipients + [k];
        sent := sent + {k};
      }
      remaining := remaining - {k};
    }
  }

  /** Appending an element not yet present keeps a sequence duplicate-free. */
  lemma NoDuplicatesSnoc<T>(s: seq<T>, k: T)
    requires NoDuplicates(s) && k !in s
    ensures NoDuplicates(s + [k])
  {
    assert forall i :: 0 <= i < |s| ==> (s + [k])[i] == s[i];
  }

  /** The `listeners.forEach(f => f(data))` loop. */
  method NotifyListeners<D>(listeners: seq<ListenerId>, data: Payload<D>) returns (effects: seq<Effect<D>>)
    ensures effects == NotifyAll(listeners, data)
  {
    effects := [];
    var i := 0;
    while i < |listeners|
      invariant 0 <= i <= |listeners|
      invariant effects == NotifyAll(listeners[..i], data)
    {
      NotifyAllSnoc(listeners[..i], listeners[i], data);
      assert listeners[..i + 1] == listeners[..i] + [listeners[i]];
      effects := effects + [Notify(listeners[i], data)];
      i := i + 1;
    }
    assert listeners[..i] == listeners;
  }

  lemma NotifyAllSnoc<D>(ls: seq<ListenerId>, l: ListenerId, p: Payload<D>)
    ensures NotifyAll(ls + [l], p) == NotifyAll(ls, p) + [Notify(l, p)]
  {
  }

  /** A duplicate-free sequence is as long as the set of its elements. */
  lemma {:induction false} DistinctLength<T>(rs: seq<T>, elems: set<T>)
    requires NoDuplicates(rs)
    requires forall k :: k in rs <==> k in elems
    ensures |rs| == |elems|
  {
    if rs != [] {
      assert forall k :: k in rs[1..] <==> k in elems - {rs[0]} by {
        forall k
          ensures k in rs[1..] <==> k in elems - {rs[0]}
        {
          if k in rs[1..] {
            var j :| 1 <= j < |rs| && rs[j] == k;
          }
          if k in elems - {rs[0]} {
            var j :| 0 <= j < |rs| && rs[j] == k;
            assert j != 0;
          }
        }
      }
      DistinctLength(rs[1..], elems - {rs[0]});
    }
  }

  /** A duplicate-free sequence whose elements are exactly `h` is `[h]`. */
  lemma OnlyRecipient(rs: seq<string>, h: string)
    requires NoDuplicates(rs)
    requires forall k :: k in rs <==> k == h
    ensures rs == [h]
  {
    DistinctLength(rs, {h});
    assert rs[0] in rs;
  }

  /** The alphanumeric property names that every plain object inherits from
      the object prototype; a key lookup on the connection object finds them
      even when no such key was ever stored. */
  const InheritedNames: set<string> :=
    {"constructor", "hasOwnProperty", "isPrototypeOf", "propertyIsEnumerable",
     "toLocaleString", "toString", "valueOf"}

  /** Timer values in firing order never decrease. */
  ghost predicate Ordered(t: seq<nat>) {
    forall i, j :: 0 <= i < j < |t| ==> t[i] <= t[j]
  }

  /** One peer's connection manager: its sanitised id and host id, the open
      connections by id, the subscribed listeners, the reconnect counter, and
      an outbox of everything it has sent or delivered. */
  class PeerConnections<D> {
    const id: string
    const host: string
    var connected: bool
    var connections: map<string, ConnRef>
    var listeners: seq<ListenerId>
    var reconnectAttempt: nat
    /** The counter value each scheduled reconnect timer captured when it was
        set, in firing order (every timer has the same delay). */
    var pendingTimers: seq<nat>
    /** `hasHostConnection` as of the reconnect effect's last run. */
    var reconnectEffectDep: Option<bool>
    var outbox: seq<Effect<D>>

    /** A client only ever registers its host connection; a pending timer
        captured a counter value at most one below the current one, and at most
        the current one. */
    ghost predicate Valid()
      reads this
    {
      && (id != host ==> connections.Keys <= {host})
      && Ordered(pendingTimers)
      && forall i :: 0 <= i < |pendingTimers| ==>
           pendingTimers[i] <= reconnectAttempt <= pendingTimers[i] + 1
    }

    /** `hostIn` absent stands for the default host. */
    constructor(myPeerId: string, hostIn: Option<string>)
      ensures Valid()
      ensures id == SanitizeId(myPeerId)
      ensures host == if hostIn.Some? then SanitizeId(hostIn.value) else DefaultHost
      ensures !connected && connections == map[] && listeners == []
      ensures reconnectAttempt == 0 && pendingTimers == [] && reconnectEffectDep == None
      ensures outbox == []
    {
      id := SanitizeId(myPeerId);
      host := SanitizeId(if hostIn.Some? then hostIn.value else DefaultHost);
      connected := false;
      connections := map[];
      listeners := [];
      reconnectAttempt := 0;
      pendingTimers := [];
      reconnectEffectDep := None;
      outbox := [];
      SanitizeIdempotent("auth0|5f245f6c32cea302211421b0");
    }

    /** Whether looking the host key up in the connection object gives a
        connection. The lookup also finds the methods every plain object
        inherits, so for a host named like one of them it always succeeds. */
    predicate HasHostConnection()
      reads this
    {
      host in connections || host in InheritedNames
    }

    method AddListener(f: ListenerId)
      requires Valid()
      modifies this`listeners
      ensures Valid()
      ensures listeners == ListenerReducer(old(listeners), ListenerAction.AddListener(f))
    {
      listeners := ListenerReducer(listeners, ListenerAction.AddListener(f));
    }

    method RemoveListener(f: ListenerId)
      requires Valid()
      modifies this`listeners
      ensures Valid()
      ensures listeners == ListenerReducer(old(listeners), ListenerAction.RemoveListener(f))
    {
      listeners := ListenerReducer(listeners, ListenerAction.RemoveListener(f));
    }

    /** Sends `payload` once to every connection except the one keyed `fromId`. */
    method InternalBroadcast(fromId: string, payload: Payload<D>) returns (recipients: seq<string>)
      requires Valid()
      modifies this`outbox
      ensures Valid()
      ensures NoDuplicates(recipients)
      ensures forall k :: k in recipients <==> k in connections && k != fromId
      ensures outbox == old(outbox) + SendAll(recipients, payload)
    {
      recipients := BroadcastRecipients(connections, fromId);
      outbox := outbox + SendAll(recipients, payload);
    }

    /** The public broadcast: never sends to this peer's own id. */
    method Broadcast(payload: Payload<D>) returns (recipients: seq<string>)
      requires Valid()
      modifies this`outbox
      ensures Valid()
      ensures NoDuplicates(recipients)
      ensures forall k :: k in recipients <==> k in connections && k != id
      ensures outbox == old(outbox) + SendAll(recipients, payload)
      ensures forall e :: e in outbox[|old(outbox)|..] ==> e.Send? && e.to != id
    {
      recipients := InternalBroadcast(id, payload);
      forall e | e in outbox[|old(outbox)|..]
        ensures e.Send? && e.to != id
      {
        var i :| 0 <= i < |recipients| && e == SendAll(recipients, payload)[i];
        assert recipients[i] in recipients;
      }
    }

    /** The transport reports that this peer's own identity is registered. */
    method OnPeerOpen()
      requires Valid()
      modifies this`connected
      ensures Valid() && connected
    {
      connected := true;
    }

    /** Host side: an inbound connection from `remoteId` reports open. */
    method OnInboundOpen(remoteId: string, ref: ConnRef)
      requires Valid() && connected && id == host
      modifies this`connections
      ensures Valid()
      ensures connections == ConnectionReducer(old(connections), AddConnection(remoteId, ref))
    {
      connections := ConnectionReducer(connections, AddConnection(remoteId, ref));
    }

    /** Host side: data arrives on the inbound connection from `remoteId`. Every
        listener sees it, in list order; then it is relayed to every other
        connection. */
    method OnInboundData(remoteId: string, data: Payload<D>) returns (recipients: seq<string>)
      requires Valid() && connected && id == host
      modifies this`outbox
      ensures Valid()
      ensures NoDuplicates(recipients)
      ensures forall k :: k in recipients <==> k in connections && k != remoteId
      ensures outbox == old(outbox) + NotifyAll(listeners, data) + SendAll(recipients, data)
    {
      var notified := NotifyListeners(listeners, data);
      outbox := outbox + notified;
      recipients := InternalBroadcast(remoteId, data);
    }

    /** Client side: the connection to the host reports open. It is registered
        under the host key, and a single `hello` carrying this peer's id goes to
        the host. */
    method OnHostOpen(ref: ConnRef)
      requires Valid() && connected && id != host
      modifies this`connections, this`outbox
      ensures Valid()
      ensures connections == old(connections)[host := ref]
      ensures HasHostConnection()
      ensures outbox == old(outbox) + [Send(host, Hello(id))]
    {
      connections := ConnectionReducer(connections, AddConnection(host, ref));
      var recipients := InternalBroadcast(id, Hello(id));
      OnlyRecipient(recipients, host);
    }

    /** Client side: data from the host goes to every listener and nowhere else. */
    method OnHostData(data: Payload<D>)
      requires Valid() && connected && id != host
      modifies this`outbox
      ensures Valid()
      ensures outbox == old(outbox) + NotifyAll(listeners, data)
    {
      var notified := NotifyListeners(listeners, data);
      outbox := outbox + notified;
    }

    /** Client side: the connection to the host closes and its key is removed. */
    method OnHostClose(ref: ConnRef)
      requires Valid() && connected && id != host
      modifies this`connections
      ensures Valid()
      ensures connections == old(connections) - {host}
      ensures HasHostConnection() <==> host in InheritedNames
    {
      connections := ConnectionReducer(connections, RemoveConnection(host, ref));
    }

    /** The reconnect effect, run after a render. It does its work only when
        `hasHostConnection` differs from its last run (or on the first run), and
        then schedules a timer only when there is no host connection; the timer
        captures the counter as it is now. */
    method ReconnectEffect()
      requires Valid()
      modifies this`pendingTimers, this`reconnectEffectDep
      ensures Valid()
      ensures reconnectEffectDep == Some(HasHostConnection())
      ensures pendingTimers ==
        if old(reconnectEffectDep) != Some(HasHostConnection()) && !HasHostConnection()
        then old(pendingTimers) + [reconnectAttempt]
        else old(pendingTimers)
    {
      var has := HasHostConnection();
      if reconnectEffectDep != Some(has) {
        reconnectEffectDep := Some(has);
        if !has {
          pendingTimers := pendingTimers + [reconnectAttempt];
        }
      }
    }

    /** The earliest pending reconnect timer fires and sets the counter to one
        more than the value it captured. The counter never decreases and grows by
        at most one per fired timer; nothing resets it. */
    method FireReconnectTimer()
      requires Valid()
      modifies this`reconnectAttempt, this`pendingTimers
      ensures Valid()
      ensures old(reconnectAttempt) <= reconnectAttempt <= old(reconnectAttempt) + 1
      ensures old(pendingTimers) == [] ==>
        reconnectAttempt == old(reconnectAttempt) && pendingTimers == []
      ensures old(pendingTimers) != [] ==>
        reconnectAttempt == old(pendingTimers)[0] + 1 && pendingTimers == old(pendingTimers)[1..]
    {
      if pendingTimers != [] {
        reconnectAttempt := pendingTimers[0] + 1;
        pendingTimers := pendingTimers[1..];
      }
    }
  }
}
