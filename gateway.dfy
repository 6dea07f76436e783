/**
 * The room gateway of the relay: `create_room` and the per-connection dispatch
 * of the websocket endpoint, over the key store and the room registry.
 *
 * A room is joinable while its meta key `room:<id>:meta` exists in the store.
 * Every code path of the endpoint is one event: creating a room, a join, one
 * received message (a `msg`, a `burn_signal`, or anything else) and a
 * disconnect. What the endpoint sends is recorded in an outbox of
 * `(handle, message)` pairs, in sending order.
 *
 * `World` is the value view of the gateway's state, with one function per
 * event; `Gateway` is the object whose methods drive the store and registry
 * objects in place.
 */
module RoomGateway {
  import opened Wrappers
  import opened EphemeralStore
  import opened RoomRegistry

  /** A created room lives for one hour. */
  const RoomTtl: int := 3600

  /** The text of the error sent to a connection that joins a missing room. */
  const RoomGone: string := "Room expired or does not exist"

  /** The store key whose existence makes a room joinable. */
  function MetaKey(roomId: string): (k: string)
    ensures |k| == |roomId| + 10
    ensures k[..5] == "room:" && k[5..5 + |roomId|] == roomId && k[5 + |roomId|..] == ":meta"
  {
    "room:" + roomId + ":meta"
  }

  /** Distinct rooms have distinct meta keys, so one room's key operations never touch another room's. */
  lemma MetaKeyInjective(a: string, b: string)
    requires MetaKey(a) == MetaKey(b)
    ensures a == b
  {
    calc {
      a;
      MetaKey(a)[5..5 + |a|];
      MetaKey(b)[5..5 + |b|];
      b;
    }
  }

  /** The JSON text `{"created_at": t}` stored under a meta key; its content is never read back. */
  datatype Meta = CreatedAt(at: int)

  /**
   * A JSON object received from a connection: its `type` field, which must be
   * present, and the optional `payload` and `sender` fields.
   */
  datatype Inbound = Inbound(kind: string, payload: Option<string>, sender: Option<string>)

  /** The JSON objects the endpoint sends. */
  datatype Outbound =
    | Error(message: string)
    | Msg(payload: string, sender: string, timestamp: int)
    | BurnAll

  /** A received message carries what the endpoint needs: a `msg` without a payload raises a `KeyError`. */
  predicate WellFormed(data: Inbound) {
    data.kind == "msg" ==> data.payload.Some?
  }

  /** The sender name of a relayed message: the given one, or "Anonymous" when the field is absent. */
  function SenderOf(data: Inbound): (r: string)
    ensures data.sender.None? ==> r == "Anonymous"
    ensures data.sender.Some? ==> r == data.sender.value
  {
    if data.sender.Some? then data.sender.value else "Anonymous"
  }

  /** The envelope a `msg` is relayed in: the payload untouched, the sender or "Anonymous", the server's clock. */
  function Envelope(data: Inbound, now: int): (r: Outbound)
    requires data.payload.Some?
    ensures r.Msg? && r.payload == data.payload.value && r.timestamp == now
    ensures data.sender.Some? ==> r.sender == data.sender.value
    ensures data.sender.None? ==> r.sender == "Anonymous"
  {
    Msg(data.payload.value, SenderOf(data), now)
  }

  datatype World<H(==)> = World(store: Store<Meta>, registry: Registry<H>, outbox: seq<(H, Outbound)>) {

    ghost predicate Valid() {
      store.Valid() && registry.Valid()
    }

    /** Whether a join of `roomId` at `now` is admitted: its meta key exists. */
    function Joinable(roomId: string, now: int): (r: bool)
      ensures r <==> MetaKey(roomId) in store.data && !store.Expired(MetaKey(roomId), now)
    {
      store.Exists(MetaKey(roomId), now)
    }

    /**
     * The room can no longer be joined from `t0` on: its meta key is gone, or its
     * deadline lies before `t0`.
     */
    predicate ClosedFrom(roomId: string, t0: int) {
      MetaKey(roomId) !in store.data
      || (MetaKey(roomId) in store.ttls && store.ttls[MetaKey(roomId)] < t0)
    }

    /** `create_room` with the fresh id `roomId`: write the meta key with a one-hour deadline. */
    function CreateRoom(roomId: string, now: int): (w: World<H>)
      ensures w.store == store.Set(MetaKey(roomId), CreatedAt(now), Some(RoomTtl), now)
      ensures w.registry == registry && w.outbox == outbox
      ensures Valid() ==> w.Valid()
    {
      World(store.Set(MetaKey(roomId), CreatedAt(now), Some(RoomTtl), now), registry, outbox)
    }

    /**
     * A connection `h` opening room `roomId` at `now`: when the meta key does not exist
     * it receives exactly the error reply and nothing is registered; otherwise it is
     * appended to the room's members and nothing is sent.
     */
    function Join(roomId: string, h: H, now: int): (w: World<H>)
      ensures w.store == store.Evict(MetaKey(roomId), now)
      ensures Joinable(roomId, now) ==> w.registry == registry.Connect(roomId, h) && w.outbox == outbox
      ensures !Joinable(roomId, now) ==> w.registry == registry && w.outbox == outbox + [(h, Error(RoomGone))]
      ensures Valid() ==> w.Valid()
    {
      var store' := store.Evict(MetaKey(roomId), now);
      if Joinable(roomId, now) then World(store', registry.Connect(roomId, h), outbox)
      else World(store', registry, outbox + [(h, Error(RoomGone))])
    }

    /**
     * A `msg` from a member: every member of the room receives
     * the envelope once per list entry, in list order; the sender is not excluded. The store and the membership
     * are not consulted or changed: whether the room still exists is not re-checked.
     */
    function Relay(roomId: string, data: Inbound, now: int): (w: World<H>)
      requires data.payload.Some?
      ensures w.store == store && w.registry == registry
      ensures |w.outbox| == |outbox| + |registry.Members(roomId)| && w.outbox[..|outbox|] == outbox
      ensures forall i :: 0 <= i < |registry.Members(roomId)| ==>
        w.outbox[|outbox| + i] == (registry.Members(roomId)[i], Msg(data.payload.value, SenderOf(data), now))
    {
      World(store, registry, outbox + Fanout(registry.Members(roomId), Envelope(data, now)))
    }

    /**
     * A `burn_signal`: the meta key is deleted first, then every current member is
     * sent `burn_all`; nobody is removed from the room.
     */
    function Burn(roomId: string): (w: World<H>)
      ensures w.store == store.Delete(MetaKey(roomId)) && w.registry == registry
      ensures |w.outbox| == |outbox| + |registry.Members(roomId)| && w.outbox[..|outbox|] == outbox
      ensures forall i :: 0 <= i < |registry.Members(roomId)| ==>
        w.outbox[|outbox| + i] == (registry.Members(roomId)[i], BurnAll)
      ensures Valid() ==> w.Valid()
    {
      World(store.Delete(MetaKey(roomId)), registry, outbox + Fanout(registry.Members(roomId), BurnAll))
    }

    /** One received JSON object, dispatched on its `type`; an unrecognised type changes nothing and sends nothing. */
    function Receive(roomId: string, data: Inbound, now: int): (w: World<H>)
      requires WellFormed(data)
      ensures data.kind == "msg" ==> w == Relay(roomId, data, now)
      ensures data.kind == "burn_signal" ==> w == Burn(roomId)
      ensures data.kind != "msg" && data.kind != "burn_signal" ==> w == this
      ensures Valid() ==> w.Valid()
    {
      if data.kind == "msg" then Relay(roomId, data, now)
      else if data.kind == "burn_signal" then Burn(roomId)
      else this
    }

    /** A connection closing: it leaves the room's list; the meta key is not touched. */
    function Leave(roomId: string, h: H): (w: World<H>)
      requires registry.CanDisconnect(roomId, h)
      ensures w.store == store && w.outbox == outbox
      ensures w.registry == registry.Disconnect(roomId, h)
      ensures Valid() ==> w.Valid()
    {
      World(store, registry.Disconnect(roomId, h), outbox)
    }
  }

  /** The events the gateway reacts to, one per code path of the endpoint. */
  datatype Event<H> =
    | CreateRoomEvent(roomId: string, now: int)
    | JoinEvent(roomId: string, h: H, now: int)
    | ReceiveEvent(roomId: string, data: Inbound, now: int)
    | DisconnectEvent(roomId: string, h: H)

  /** An event the endpoint processes without raising. */
  predicate Enabled<H(==)>(w: World<H>, e: Event<H>) {
    match e
    case ReceiveEvent(_, data, _) => WellFormed(data)
    case DisconnectEvent(roomId, h) => w.registry.CanDisconnect(roomId, h)
    case _ => true
  }

  function Step<H(==)>(w: World<H>, e: Event<H>): (w': World<H>)
    requires Enabled(w, e)
    ensures w.Valid() ==> w'.Valid()
    ensures w.outbox <= w'.outbox
  {
    match e
    case CreateRoomEvent(roomId, now) => w.CreateRoom(roomId, now)
    case JoinEvent(roomId, h, now) => w.Join(roomId, h, now)
    case ReceiveEvent(roomId, data, now) => w.Receive(roomId, data, now)
    case DisconnectEvent(roomId, h) => w.Leave(roomId, h)
  }

  /** Every event of `es`, in order, is processed without raising. */
  predicate Runs<H(==)>(w: World<H>, es: seq<Event<H>>)
    decreases |es|
  {
    es == [] || (Enabled(w, es[0]) && Runs(Step(w, es[0]), es[1..]))
  }

  /**
   * The state after processing `es` in order, as the receive loop does: the invariants
   * hold throughout and nothing sent is ever taken back.
   */
  function Run<H(==)>(w: World<H>, es: seq<Event<H>>): (w': World<H>)
    requires Runs(w, es)
    ensures w.Valid() ==> w'.Valid()
    ensures w.outbox <= w'.outbox
    decreases |es|
  {
    if es == [] then w else Run(Step(w, es[0]), es[1..])
  }

  /**
   * Once a room's meta key is gone, no event except creating that same room brings it
   * back; the store and registry invariants hold throughout.
   */
  lemma {:induction false} ClosedRoomStaysClosed<H>(w: World<H>, roomId: string, es: seq<Event<H>>)
    requires w.Valid() && MetaKey(roomId) !in w.store.data
    requires Runs(w, es)
    requires forall i :: 0 <= i < |es| ==> !(es[i].CreateRoomEvent? && es[i].roomId == roomId)
    ensures Run(w, es).Valid() && MetaKey(roomId) !in Run(w, es).store.data
    decreases |es|
  {
    if es != [] {
      var w1 := Step(w, es[0]);
      if es[0].CreateRoomEvent? {
        if MetaKey(es[0].roomId) == MetaKey(roomId) {
          MetaKeyInjective(es[0].roomId, roomId);
        }
      }
      assert MetaKey(roomId) !in w1.store.data;
      ClosedRoomStaysClosed(w1, roomId, es[1..]);
    }
  }

  /**
   * A room that cannot be joined from `t0` on stays so under any events that do not
   * create it again, whatever clock values they carry: eviction and deletion only
   * remove its key, and writes of other rooms never touch it.
   */
  lemma {:induction false} ExpiredRoomStaysClosed<H>(w: World<H>, roomId: string, t0: int,
                                                     es: seq<Event<H>>, now: int)
    requires w.ClosedFrom(roomId, t0)
    requires Runs(w, es)
    requires forall i :: 0 <= i < |es| ==> !(es[i].CreateRoomEvent? && es[i].roomId == roomId)
    ensures Run(w, es).ClosedFrom(roomId, t0)
    ensures t0 <= now ==> !Run(w, es).Joinable(roomId, now)
    decreases |es|
  {
    if es != [] {
      var w1 := Step(w, es[0]);
      if es[0].CreateRoomEvent? {
        if MetaKey(es[0].roomId) == MetaKey(roomId) {
          MetaKeyInjective(es[0].roomId, roomId);
        }
      }
      assert w1.ClosedFrom(roomId, t0);
      ExpiredRoomStaysClosed(w1, roomId, t0, es[1..], now);
    }
  }

  /**
   * A room created at `t` and never created again rejects every join after `t + 3600`
   * with exactly the error reply, whatever happens in between.
   */
  lemma ExpiredRoomRejectsLaterJoins<H>(w: World<H>, roomId: string, t: int,
                                        es: seq<Event<H>>, h: H, now: int)
    requires Runs(w.CreateRoom(roomId, t), es)
    requires forall i :: 0 <= i < |es| ==> !(es[i].CreateRoomEvent? && es[i].roomId == roomId)
    requires now > t + RoomTtl
    ensures var w' := Run(w.CreateRoom(roomId, t), es);
      !w'.Joinable(roomId, now)
      && w'.Join(roomId, h, now).registry == w'.registry
      && w'.Join(roomId, h, now).outbox == w'.outbox + [(h, Error(RoomGone))]
  {
    ExpiredRoomStaysClosed(w.CreateRoom(roomId, t), roomId, t + RoomTtl + 1, es, now);
  }

  /** A join of a room whose meta key is gone gets exactly the error reply and changes nothing else. */
  lemma JoinOfClosedRoomRejected<H>(w: World<H>, roomId: string, h: H, now: int)
    requires w.Valid() && MetaKey(roomId) !in w.store.data
    ensures !w.Joinable(roomId, now)
    ensures w.Join(roomId, h, now) == World(w.store, w.registry, w.outbox + [(h, Error(RoomGone))])
  {
  }

  /**
   * After a `burn_signal` for a room, every later join of it is rejected with the error
   * reply, whatever else happens in between, as long as that room is not created anew.
   */
  lemma BurnRejectsLaterJoins<H>(w: World<H>, roomId: string, burn: Inbound, t: int,
                                     es: seq<Event<H>>, h: H, now: int)
    requires w.Valid() && burn.kind == "burn_signal"
    requires Runs(w.Receive(roomId, burn, t), es)
    requires forall i :: 0 <= i < |es| ==> !(es[i].CreateRoomEvent? && es[i].roomId == roomId)
    ensures var w' := Run(w.Receive(roomId, burn, t), es);
      w'.Join(roomId, h, now) == World(w'.store, w'.registry, w'.outbox + [(h, Error(RoomGone))])
  {
    ClosedRoomStaysClosed(w.Receive(roomId, burn, t), roomId, es);
    JoinOfClosedRoomRejected(Run(w.Receive(roomId, burn, t), es), roomId, h, now);
  }

  /** Right after `create_room` at `t`, the room admits a join exactly at the times up to and including `t + 3600`. */
  lemma CreatedRoomJoinableForTtl<H>(w: World<H>, roomId: string, t: int, now: int)
    ensures w.CreateRoom(roomId, t).Joinable(roomId, now) <==> now <= t + RoomTtl
  {
    ExpiryBoundary(w.store, MetaKey(roomId), CreatedAt(t), RoomTtl, t, now);
  }

  /**
   * An event that leaves room `roomId` open until `deadline`: it does not create the
   * room again, does not burn it, and a join of it carries a clock at or before the
   * deadline. A join whose clock is past the deadline evicts the meta key, and
   * `time.time()` may go backwards, so a later join at an earlier clock would then be
   * rejected.
   */
  predicate KeepsOpen<H>(e: Event<H>, roomId: string, deadline: int) {
    match e
    case CreateRoomEvent(id, _) => id != roomId
    case JoinEvent(id, _, n) => id == roomId ==> n <= deadline
    case ReceiveEvent(id, data, _) => id == roomId ==> data.kind != "burn_signal"
    case DisconnectEvent(_, _) => true
  }

  /** The room's meta key holds `v` and its deadline is `deadline`. */
  predicate OpenUntil<H>(w: World<H>, roomId: string, v: Meta, deadline: int) {
    MetaKey(roomId) in w.store.data && w.store.data[MetaKey(roomId)] == v
    && MetaKey(roomId) in w.store.ttls && w.store.ttls[MetaKey(roomId)] == deadline
  }

  /**
   * A room whose meta key holds `v` until `deadline` keeps that value and that deadline
   * under any events that keep it open.
   */
  lemma {:induction false} OpenRoomStaysOpen<H>(w: World<H>, roomId: string, v: Meta, deadline: int,
                                                es: seq<Event<H>>)
    requires OpenUntil(w, roomId, v, deadline)
    requires Runs(w, es)
    requires forall i :: 0 <= i < |es| ==> KeepsOpen(es[i], roomId, deadline)
    ensures OpenUntil(Run(w, es), roomId, v, deadline)
    decreases |es|
  {
    if es != [] {
      assert KeepsOpen(es[0], roomId, deadline);
      var id := es[0].roomId;
      if id != roomId && MetaKey(id) == MetaKey(roomId) {
        MetaKeyInjective(id, roomId);
      }
      var w1 := Step(w, es[0]);
      assert OpenUntil(w1, roomId, v, deadline);
      assert forall i :: 0 <= i < |es[1..]| ==> KeepsOpen(es[1..][i], roomId, deadline) by {
        forall i | 0 <= i < |es[1..]| ensures KeepsOpen(es[1..][i], roomId, deadline) {
          assert es[1..][i] == es[i + 1];
        }
      }
      OpenRoomStaysOpen(w1, roomId, v, deadline, es[1..]);
    }
  }

  /**
   * A room created at `t` admits a join exactly up to and including `t + 3600`, after
   * any events that keep it open until then; its meta key still holds `CreatedAt(t)`.
   */
  lemma CreatedRoomStaysJoinable<H>(w: World<H>, roomId: string, t: int, es: seq<Event<H>>, now: int)
    requires Runs(w.CreateRoom(roomId, t), es)
    requires forall i :: 0 <= i < |es| ==> KeepsOpen(es[i], roomId, t + RoomTtl)
    ensures Run(w.CreateRoom(roomId, t), es).Joinable(roomId, now) <==> now <= t + RoomTtl
    ensures MetaKey(roomId) in Run(w.CreateRoom(roomId, t), es).store.data
         && Run(w.CreateRoom(roomId, t), es).store.data[MetaKey(roomId)] == CreatedAt(t)
  {
    OpenRoomStaysOpen(w.CreateRoom(roomId, t), roomId, CreatedAt(t), t + RoomTtl, es);
  }

  /**
   * A burn removes nobody: members keep receiving relayed messages afterwards, and a
   * second burn raises nothing and sends `burn_all` to every member again.
   */
  lemma BurnKeepsRelaying<H>(w: World<H>, roomId: string, data: Inbound, now: int)
    requires data.payload.Some?
    ensures w.Burn(roomId).registry == w.registry
    ensures w.Burn(roomId).Relay(roomId, data, now).outbox
         == w.Burn(roomId).outbox + Fanout(w.registry.Members(roomId), Envelope(data, now))
    ensures w.Burn(roomId).Burn(roomId).store == w.Burn(roomId).store
    ensures w.Burn(roomId).Burn(roomId).outbox
         == w.outbox + Fanout(w.registry.Members(roomId), BurnAll) + Fanout(w.registry.Members(roomId), BurnAll)
  {
  }

  /** A relayed message reaches every member of the room once per list entry; the sender is not excluded. */
  lemma RelayReachesEveryMember<H>(w: World<H>, roomId: string, data: Inbound, now: int, h: H)
    requires data.payload.Some?
    ensures var sent := w.Relay(roomId, data, now).outbox[|w.outbox|..];
      multiset(sent)[(h, Envelope(data, now))] == multiset(w.registry.Members(roomId))[h]
  {
    var sent := w.Relay(roomId, data, now).outbox[|w.outbox|..];
    assert sent == Fanout(w.registry.Members(roomId), Envelope(data, now));
    FanoutCount(w.registry.Members(roomId), Envelope(data, now), h);
  }

  /**
   * The relay's reference scenario, with handles 1 and 2 for the two clients and 3 for a
   * late joiner: room "r1" is created, both clients join, client 1 sends "hello" as
   * "Alice", then burns the room; both clients get the message and `burn_all`, and the
   * late join gets the error reply.
   */
  lemma ReferenceScenario(t: int)
    ensures
      var w0 := World(Store(map[], map[]), Registry(map[]), []);
      var w1 := w0.CreateRoom("r1", t).Join("r1", 1, t).Join("r1", 2, t);
      var w2 := w1.Receive("r1", Inbound("msg", Some("hello"), Some("Alice")), t + 1);
      var w3 := w2.Receive("r1", Inbound("burn_signal", None, None), t + 2).Join("r1", 3, t + 3);
      w3.outbox == [(1, Msg("hello", "Alice", t + 1)), (2, Msg("hello", "Alice", t + 1)),
                    (1, BurnAll), (2, BurnAll), (3, Error(RoomGone))]
      && w3.registry.Members("r1") == [1, 2]
  {
  }

  /** The gateway object: the store, the registry, and the record of what has been sent. */
  class Gateway<H(==)> {
    const store: MockRedis<Meta>
    const manager: ConnectionManager<H>
    var outbox: seq<(H, Outbound)>

    ghost predicate Valid()
      reads this, store, manager
    {
      store.Valid() && manager.Valid()
    }

    /** The current state as a `World` value. */
    function State(): World<H>
      reads this, store, manager
    {
      World(store.State(), manager.State(), outbox)
    }

    constructor ()
      ensures Valid() && fresh(store) && fresh(manager)
      ensures State() == World(Store(map[], map[]), Registry(map[]), [])
    {
      store := new MockRedis();
      manager := new ConnectionManager();
      outbox := [];
    }

    /** `create_room`: the fresh id `roomId` stands for the generated UUID and is returned. */
    method CreateRoom(roomId: string, now: int) returns (id: string)
      requires Valid()
      modifies store
      ensures Valid()
      ensures id == roomId
      ensures State() == old(State()).CreateRoom(roomId, now)
    {
      store.Set(MetaKey(roomId), CreatedAt(now), Some(RoomTtl), now);
      id := roomId;
    }

    /** The existence check at the start of the endpoint, then either the error reply or `connect`. */
    method Join(roomId: string, h: H, now: int)
      requires Valid()
      modifies this, store, manager
      ensures Valid()
      ensures State() == old(State()).Join(roomId, h, now)
    {
      var live := store.Exists(MetaKey(roomId), now);
      if !live {
        outbox := outbox + [(h, Error(RoomGone))];
        return;
      }
      manager.Connect(h, roomId);
    }

    /** One iteration of the endpoint's receive loop. */
    method Receive(roomId: string, data: Inbound, now: int)
      requires Valid() && WellFormed(data)
      modifies this, store
      ensures Valid()
      ensures State() == old(State()).Receive(roomId, data, now)
    {
      if data.kind == "msg" {
        var sent := manager.Broadcast(Envelope(data, now), roomId);
        outbox := outbox + sent;
      } else if data.kind == "burn_signal" {
        store.Delete(MetaKey(roomId));
        var sent := manager.Broadcast(BurnAll, roomId);
        outbox := outbox + sent;
      }
    }

    /** The `WebSocketDisconnect` handler. */
    method Disconnect(roomId: string, h: H)
      requires Valid() && manager.State().CanDisconnect(roomId, h)
      modifies manager
      ensures Valid()
      ensures State() == old(State()).Leave(roomId, h)
    {
      manager.Disconnect(h, roomId);
    }
  }
}
