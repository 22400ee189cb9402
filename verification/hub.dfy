/**
 * The broadcast hub (backend/websocket/handler.go) as a state machine: a
 * registry of clients, each with a buffered `send` channel of capacity 256,
 * driven one request at a time by register, unregister and broadcast. A
 * broadcast never blocks: a client whose channel is full is closed and
 * dropped. The JSON encoder and the map iteration order are parameters.
 */
module Hub {
  import opened Wrappers
  import opened Bytes
  import opened Models

  /** The identity of a `*Client`. */
  type ClientId = nat

  /** One serialized message. */
  type Payload = seq<byte>

  /** The capacity `ServeWs` gives every client's `send` channel. */
  const SendCapacity: nat := 256

  /** A buffered Go channel: queued messages, capacity, and whether it was closed. */
  datatype Channel = Channel(buffer: seq<Payload>, capacity: nat, closed: bool)

  /** `registry` holds the keys of `Hub.clients`; `channels` every client's channel, registered or not. */
  datatype HubState = HubState(registry: set<ClientId>, channels: map<ClientId, Channel>)

  /**
   * The hub's invariant: every registered client has an open channel, and no
   * channel holds more than its capacity of 256.
   */
  predicate Valid(h: HubState) {
    && (forall c | c in h.registry :: c in h.channels && !h.channels[c].closed)
    && (forall c | c in h.channels :: h.channels[c].capacity == SendCapacity)
    && (forall c | c in h.channels :: |h.channels[c].buffer| <= h.channels[c].capacity)
  }

  /** `NewHub`: no clients and no channels yet. */
  function Initial(): (r: HubState)
    ensures Valid(r)
    ensures forall c :: c !in r.registry && c !in r.channels
  {
    HubState({}, map[])
  }

  /** `close(ch)`: closing a closed channel panics in Go, so it is excluded here. */
  function Close(ch: Channel): (r: Channel)
    requires !ch.closed
    ensures r.closed && r.buffer == ch.buffer && r.capacity == ch.capacity
  {
    ch.(closed := true)
  }

  /** `ServeWs` makes a client with a new empty channel of capacity 256 and `Run` registers it. */
  function Register(h: HubState, c: ClientId): (r: HubState)
    requires c !in h.channels
    ensures c in r.registry && c in r.channels
    ensures r.channels[c] == Channel([], SendCapacity, false)
    ensures forall d | d != c :: (d in r.registry <==> d in h.registry)
    ensures forall d | d != c :: (d in r.channels <==> d in h.channels)
    ensures forall d | d != c && d in h.channels :: r.channels[d] == h.channels[d]
    ensures Valid(h) ==> Valid(r)
  {
    HubState(h.registry + {c}, h.channels[c := Channel([], SendCapacity, false)])
  }

  /** Unregistering a registered client removes it and closes its channel; anyone else is left alone. */
  function Unregister(h: HubState, c: ClientId): (r: HubState)
    requires Valid(h)
    ensures Valid(r)
    ensures c !in r.registry
    ensures c !in h.registry ==> r == h
    ensures c in h.registry ==> r.channels == h.channels[c := Close(h.channels[c])]
    ensures forall d | d != c :: (d in r.registry <==> d in h.registry)
    ensures r.channels.Keys == h.channels.Keys
  {
    if c in h.registry then HubState(h.registry - {c}, h.channels[c := Close(h.channels[c])])
    else h
  }

  /** A second unregister of the same client is a no-op, so its channel is never closed twice. */
  lemma UnregisterIdempotent(h: HubState, c: ClientId)
    requires Valid(h)
    ensures Unregister(Unregister(h, c), c) == Unregister(h, c)
  {
  }

  predicate HasRoom(ch: Channel) {
    |ch.buffer| < ch.capacity
  }

  /**
   * The non-blocking send of one broadcast. Messages already queued stay
   * in place, the payload is added after them when there is room, and the
   * channel ends up closed exactly when it was full.
   */
  function Offer(ch: Channel, p: Payload): (r: Channel)
    requires !ch.closed
    ensures r.capacity == ch.capacity
    ensures |ch.buffer| <= ch.capacity ==> |r.buffer| <= r.capacity
    ensures |r.buffer| == |ch.buffer| + (if HasRoom(ch) then 1 else 0)
    ensures r.buffer[..|ch.buffer|] == ch.buffer
    ensures HasRoom(ch) ==> r.buffer[|ch.buffer|] == p
    ensures r.closed <==> !HasRoom(ch)
  {
    if HasRoom(ch) then ch.(buffer := ch.buffer + [p]) else Close(ch)
  }

  /** One iteration of the broadcast loop, for client `c`. */
  function Deliver(h: HubState, c: ClientId, p: Payload): (r: HubState)
    requires Valid(h) && c in h.registry
    ensures Valid(r)
    ensures r.channels == h.channels[c := Offer(h.channels[c], p)]
    ensures r.registry == if HasRoom(h.channels[c]) then h.registry else h.registry - {c}
  {
    var ch := h.channels[c];
    if HasRoom(ch) then HubState(h.registry, h.channels[c := Offer(ch, p)])
    else HubState(h.registry - {c}, h.channels[c := Offer(ch, p)])
  }

  predicate NoDuplicates(s: seq<ClientId>) {
    forall i, j | 0 <= i < j < |s| :: s[i] != s[j]
  }

  /** `order` visits each client of `clients` exactly once, as a Go map range does. */
  predicate Enumerates(order: seq<ClientId>, clients: set<ClientId>) {
    && NoDuplicates(order)
    && (forall i | 0 <= i < |order| :: order[i] in clients)
    && (forall c | c in clients :: c in order)
  }

  /** The broadcast loop over the clients still `pending`, in the given order. */
  function BroadcastOver(h: HubState, p: Payload, pending: seq<ClientId>): (r: HubState)
    requires Valid(h)
    requires NoDuplicates(pending)
    requires forall i | 0 <= i < |pending| :: pending[i] in h.registry
    ensures Valid(r)
    ensures r.channels.Keys == h.channels.Keys
    ensures r.registry <= h.registry
    decreases |pending|
  {
    if pending == [] then h
    else
      var h' := Deliver(h, pending[0], p);
      assert forall i | 0 <= i < |pending[1..]| :: pending[1..][i] == pending[i + 1];
      BroadcastOver(h', p, pending[1..])
  }

  /**
   * Each client's outcome depends only on its own channel: a visited client
   * is offered the payload and stays registered iff it had room; every
   * other client is left as it was.
   */
  lemma {:induction false} BroadcastOverEffect(h: HubState, p: Payload, pending: seq<ClientId>)
    requires Valid(h)
    requires NoDuplicates(pending)
    requires forall i | 0 <= i < |pending| :: pending[i] in h.registry
    ensures var r := BroadcastOver(h, p, pending);
      && (forall c | c in h.channels ::
            r.channels[c] == (if c in pending then Offer(h.channels[c], p) else h.channels[c]))
      && (forall c :: c in r.registry <==> c in h.registry && (c !in pending || HasRoom(h.channels[c])))
    decreases |pending|
  {
    if pending != [] {
      var c, later := pending[0], pending[1..];
      var h' := Deliver(h, c, p);
      assert forall i | 0 <= i < |later| :: later[i] == pending[i + 1];
      assert c !in later;
      assert forall d :: d in pending <==> d == c || d in later;
      BroadcastOverEffect(h', p, later);
    }
  }

  /**
   * `broadcastEvent`: serialize once; if that fails nothing changes;
   * otherwise every registered client with room gets the payload at the end
   * of its queue and every client with a full queue is closed and dropped.
   * `order` is the map's iteration order.
   */
  function Broadcast(h: HubState, e: Event, serialize: Event -> Option<Payload>, order: seq<ClientId>): (r: HubState)
    requires Valid(h)
    requires Enumerates(order, h.registry)
    ensures Valid(r)
    ensures serialize(e).None? ==> r == h
    ensures r.registry <= h.registry
    ensures r.channels.Keys == h.channels.Keys
    ensures forall c | c in h.channels && c !in h.registry :: r.channels[c] == h.channels[c]
    ensures serialize(e).Some? ==> forall c | c in h.registry ::
      if HasRoom(h.channels[c])
      then c in r.registry && r.channels[c].buffer == h.channels[c].buffer + [serialize(e).value]
           && !r.channels[c].closed
      else c !in r.registry && r.channels[c].closed && r.channels[c].buffer == h.channels[c].buffer
  {
    match serialize(e)
    case None => h
    case Some(p) =>
      BroadcastOverEffect(h, p, order);
      BroadcastOver(h, p, order)
  }

  /** The outcome for one client `c` of the broadcast loop over all registered clients. */
  lemma BroadcastOverAt(h: HubState, p: Payload, order: seq<ClientId>, c: ClientId)
    requires Valid(h) && Enumerates(order, h.registry)
    requires c in h.channels
    ensures c in BroadcastOver(h, p, order).channels
    ensures BroadcastOver(h, p, order).channels[c]
         == (if c in h.registry then Offer(h.channels[c], p) else h.channels[c])
    ensures c in BroadcastOver(h, p, order).registry <==> c in h.registry && HasRoom(h.channels[c])
  {
    BroadcastOverEffect(h, p, order);
    assert c in order <==> c in h.registry;
  }

  /** Two loops over the same clients, in any two orders, end in the same state. */
  lemma BroadcastOverOrderIndependent(h: HubState, p: Payload, o1: seq<ClientId>, o2: seq<ClientId>)
    requires Valid(h)
    requires Enumerates(o1, h.registry) && Enumerates(o2, h.registry)
    ensures BroadcastOver(h, p, o1) == BroadcastOver(h, p, o2)
  {
    var r1, r2 := BroadcastOver(h, p, o1), BroadcastOver(h, p, o2);
    forall c | c in h.channels
      ensures r1.channels[c] == r2.channels[c] && (c in r1.registry <==> c in r2.registry)
    {
      BroadcastOverAt(h, p, o1, c);
      BroadcastOverAt(h, p, o2, c);
    }
    SameMaps(r1.channels, r2.channels);
    SameSets(r1.registry, r2.registry, h.channels.Keys);
  }

  lemma SameMaps<K, V>(m1: map<K, V>, m2: map<K, V>)
    requires m1.Keys == m2.Keys
    requires forall k | k in m1 :: m1[k] == m2[k]
    ensures m1 == m2
  {
  }

  lemma SameSets<K>(s1: set<K>, s2: set<K>, universe: set<K>)
    requires s1 <= universe && s2 <= universe
    requires forall k | k in universe :: k in s1 <==> k in s2
    ensures s1 == s2
  {
  }

  /** The map's iteration order does not matter. */
  lemma BroadcastOrderIndependent(h: HubState, e: Event, serialize: Event -> Option<Payload>,
                                  o1: seq<ClientId>, o2: seq<ClientId>)
    requires Valid(h)
    requires Enumerates(o1, h.registry) && Enumerates(o2, h.registry)
    ensures Broadcast(h, e, serialize, o1) == Broadcast(h, e, serialize, o2)
  {
    if serialize(e).Some? {
      BroadcastOverOrderIndependent(h, serialize(e).value, o1, o2);
    }
  }

  /**
   * With a decoder that inverts the encoder, a registered client with room
   * finds the published event itself at the end of its queue.
   */
  lemma PublishedEventArrivesIntact(h: HubState, e: Event, serialize: Event -> Option<Payload>,
                                    deserialize: Payload -> Option<Event>, order: seq<ClientId>, c: ClientId)
    requires Valid(h) && Enumerates(order, h.registry)
    requires forall x | serialize(x).Some? :: deserialize(serialize(x).value) == Some(x)
    requires serialize(e).Some?
    requires c in h.registry && HasRoom(h.channels[c])
    ensures c in Broadcast(h, e, serialize, order).registry
    ensures var q := Broadcast(h, e, serialize, order).channels[c].buffer;
      q != [] && deserialize(q[|q| - 1]) == Some(e)
  {
  }

  /** `writePump` takes the oldest queued message; a closed channel still yields what it holds. */
  function Take(h: HubState, c: ClientId): (r: (HubState, Payload))
    requires c in h.channels && h.channels[c].buffer != []
    ensures r.1 == h.channels[c].buffer[0]
    ensures c in r.0.channels && r.0.channels[c].buffer == h.channels[c].buffer[1..]
    ensures r.0.registry == h.registry && r.0.channels.Keys == h.channels.Keys
    ensures forall d | d in h.channels && d != c :: r.0.channels[d] == h.channels[d]
    ensures Valid(h) ==> Valid(r.0)
  {
    var ch := h.channels[c];
    (HubState(h.registry, h.channels[c := ch.(buffer := ch.buffer[1..])]), ch.buffer[0])
  }

  /**
   * The requests the hub's control loop selects among, and a client's
   * `writePump` receiving one queued message.
   */
  datatype Request =
    | RegisterClient(client: ClientId)
    | UnregisterClient(client: ClientId)
    | Publish(event: Event)
    | Drain(client: ClientId)

  /**
   * What the caller guarantees: a registered client is always a new one,
   * the range order is a real one, and a receive only completes on a
   * channel holding a message.
   */
  predicate Admissible(h: HubState, req: Request, order: seq<ClientId>) {
    match req
    case RegisterClient(c) => c !in h.channels
    case UnregisterClient(_) => true
    case Publish(_) => Enumerates(order, h.registry)
    case Drain(c) => c in h.channels && h.channels[c].buffer != []
  }

  /**
   * One turn of `Run`'s select loop or of a `writePump`. Every turn keeps the
   * hub's invariant and forgets no channel. Nothing is ever sent on a closed
   * channel: it stays closed and can only lose messages from its front.
   */
  function Step(h: HubState, req: Request, serialize: Event -> Option<Payload>, order: seq<ClientId>): (r: HubState)
    requires Valid(h) && Admissible(h, req, order)
    ensures Valid(r)
    ensures r.channels.Keys >= h.channels.Keys
    ensures !req.Drain? ==> forall c | c in h.channels && h.channels[c].closed :: r.channels[c] == h.channels[c]
    ensures forall c | c in h.channels && h.channels[c].closed ::
      var before, after := h.channels[c].buffer, r.channels[c].buffer;
      && r.channels[c].closed
      && |after| <= |before|
      && after == before[|before| - |after|..]
  {
    match req
    case RegisterClient(c) => Register(h, c)
    case UnregisterClient(c) => Unregister(h, c)
    case Publish(e) => Broadcast(h, e, serialize, order)
    case Drain(c) => Take(h, c).0
  }
}
