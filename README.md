# Ephemeral room core of the SHADOW_CHAT relay, in Dafny

This project models the room core of a small chat relay (`server.py`). Clients
create a short-lived room, join it over a websocket, relay opaque payloads to
every member, and can "burn" the room so that nobody can join it any more.

The core has three layers, one module each:

- `EphemeralStore` (`store.dfy`) models `MockRedis`, the in-memory fallback
  key/value store. Values live in `data` and deadlines live in `ttls`. Expiry is
  lazy: `get` and `exists` compare the clock with the deadline using a strict
  `>`, and evict an expired key from both maps. `Store<V>` is the value view of
  the two maps, with one function per operation. The class `MockRedis<V>`
  updates the two maps in place, and each of its methods is proved to reach
  exactly the state (and return exactly the result) its function describes.
- `RoomRegistry` (`registry.dfy`) models `ConnectionManager`, a map from room id
  to the list of connection handles, in join order. `connect` appends a handle.
  `disconnect` removes its first occurrence, as Python's `list.remove` does, and
  drops rooms whose list becomes empty. `broadcast` walks the list. Handles are
  an opaque type parameter. One send is recorded as the pair `(handle, message)`.
- `RoomGateway` (`gateway.dfy`) models `create_room` and the websocket endpoint.
  Each code path is one event: creating a room, a join, one received JSON object
  (`msg`, `burn_signal` or any other type), and a disconnect. `World<H>` is the
  value view of the store, the registry and the outbox of sent messages. The
  class `Gateway<H>` drives a `MockRedis` and a `ConnectionManager` object. The
  functions `Step` and `Run` replay a sequence of events, so lemmas can talk
  about what happens after a burn.

The model follows the code, including these behaviours a reader might not expect:

- A join is admitted up to and including the instant `created + 3600`, because
  the code tests `now > deadline`.
- A burn removes nobody. Members keep receiving relayed messages after a burn,
  and a second burn sends `burn_all` again.
- `broadcast` has no per-member failure handling.
- `set` without a deadline keeps an earlier deadline of the same key. A stale
  deadline can therefore hide a freshly written value
  (`SetWithoutDeadlineKeepsExpiry`).

The wall clock is an integer parameter `now`. The UUID of a new room is a
parameter `roomId`. The JSON text stored under the meta key is the opaque value
`CreatedAt(now)`.

## Model

| member | source | states |
|---|---|---|
| `EphemeralStore.Truthy` | server.py:39 | Python's truth test on `ex`: true exactly when `ex` is present and not `0`, so both `None` and `0` mean "no deadline". |
| `EphemeralStore.Store.Set` | server.py:37-40 | The key holds the new value. A truthy `ex` sets the deadline `now + ex`. `None` or `0` leaves `ttls` exactly as it was. No other key changes. The invariant "every key in `ttls` is in `data`" is preserved. |
| `EphemeralStore.Store.Delete` | server.py:48-52 | The key is in neither map afterwards. Every other key is unchanged. Deleting an absent key is a no-op. The invariant is preserved. |
| `EphemeralStore.Store.Expired` | server.py:43-56 | The lazy-expiry test of `get` and `exists`. A key without a deadline never expires. A key with one has expired exactly when its deadline is strictly before `now`. |
| `EphemeralStore.Store.Evict` | server.py:42-58 | This is the state after a `get` or `exists`. An expired key (deadline strictly before `now`) is removed from both maps. Otherwise nothing changes. The key is never left expired. The invariant is preserved. |
| `EphemeralStore.Store.Get` | server.py:42-46 | Returns a value exactly when the key holds one and its deadline, if any, has not passed. That value is the stored one. |
| `EphemeralStore.Store.Exists` | server.py:54-58 | True exactly when the key holds a value and is not expired. |
| `EphemeralStore.Store.Expire` | server.py:60-62 | A key holding a value gets the deadline `now + seconds`. For a key not in `data` it is a no-op. `data` never changes. The invariant is preserved. |
| `EphemeralStore.ExpiryBoundary` | server.py:37-58 | After `set(k, v, ex)` with `ex != 0` at `t`, `get` returns `v` and `exists` returns true exactly when `now <= t + ex`. Later, both report absence and evict `k` from both maps. Up to the deadline the state is untouched. |
| `EphemeralStore.SetWithoutDeadlineKeepsExpiry` | server.py:37-40 | `set` without a truthy `ex` on a key whose old deadline has passed still leaves the key invisible to `get` and `exists`. |
| `EphemeralStore.DeleteIdempotent` | server.py:48-52 | Deleting twice is the same as deleting once. |
| `EphemeralStore.EvictIsUnobservable` | server.py:42-58 | The eviction done by `get`/`exists` never changes what `get` returns for any key at the same instant. |
| `EphemeralStore.MockRedis.constructor` | server.py:33-35 | Both maps start empty. |
| `EphemeralStore.MockRedis.Set` | server.py:37-40 | The in-place update reaches `Store.Set` of the old state and keeps the invariant. |
| `EphemeralStore.MockRedis.Get` | server.py:42-46 | Returns `Store.Get` of the old state. The new state is `Store.Evict` of the old one. |
| `EphemeralStore.MockRedis.Delete` | server.py:48-52 | The in-place update reaches `Store.Delete` of the old state. |
| `EphemeralStore.MockRedis.Exists` | server.py:54-58 | Returns `Store.Exists` of the old state. The new state is `Store.Evict` of the old one. |
| `EphemeralStore.MockRedis.Expire` | server.py:60-62 | The in-place update reaches `Store.Expire` of the old state. |
| `RoomRegistry.IndexOf` | server.py:87 | The position `list.remove` acts on: an occurrence of `x` with no earlier occurrence. |
| `RoomRegistry.RemoveFirst` | server.py:87 | `list.remove(x)` is one element shorter. It keeps every element before the first `x` and shifts every element after it down by one. |
| `RoomRegistry.RemoveFirstMultiset` | server.py:87 | `list.remove(x)` takes away exactly one copy of `x` and nothing else. |
| `RoomRegistry.RemoveAppended` | server.py:83-87 | Removing a handle that was appended last and occurs nowhere else gives back the earlier list. |
| `RoomRegistry.Fanout` | server.py:91-94 | The sends of one broadcast: one per list entry, in list order, each carrying the message. |
| `RoomRegistry.FanoutCount` | server.py:91-94 | Each handle receives the message as many times as it occurs in the room's list. |
| `RoomRegistry.Registry.Connect` | server.py:79-83 | The room's list becomes the old list (or the empty list) followed by the handle. Other rooms are unchanged. No room maps to an empty list. |
| `RoomRegistry.Registry.CanDisconnect` | server.py:86-87 | `disconnect` runs without raising exactly when the room has no entry or the handle occurs somewhere in the room's list, which is what `list.remove` needs. |
| `RoomRegistry.Registry.Disconnect` | server.py:85-89 | An unknown room is a no-op. Otherwise the room's list loses the first occurrence of the handle. The room's entry survives exactly when the list had more than one element. Other rooms are unchanged. No room maps to an empty list. |
| `RoomRegistry.DisconnectRemovesOne` | server.py:85-89 | `disconnect` takes exactly one copy of the handle out of the room's members. |
| `RoomRegistry.ConnectThenDisconnect` | server.py:79-89 | Disconnecting a handle just after connecting it, when it was not already in the room, restores the registry exactly. That includes dropping a room entry that `connect` created. |
| `RoomRegistry.ConnectionManager.constructor` | server.py:76-77 | The registry starts empty. |
| `RoomRegistry.ConnectionManager.Connect` | server.py:79-83 | The in-place update reaches `Registry.Connect` of the old state. |
| `RoomRegistry.ConnectionManager.Disconnect` | server.py:85-89 | The caller must not ask to remove a handle absent from a known room, where `list.remove` raises. The in-place update reaches `Registry.Disconnect` of the old state. |
| `RoomRegistry.ConnectionManager.Broadcast` | server.py:91-94 | Sends the message once per entry of the room's list, to that entry's handle, in list order. It sends nothing for a room without an entry and changes no membership. |
| `RoomGateway.MetaKey` | server.py:102 | The meta key is `room:` followed by the room id and `:meta`. |
| `RoomGateway.MetaKeyInjective` | server.py:102 | Distinct room ids have distinct meta keys. |
| `RoomGateway.SenderOf` | server.py:135 | The relayed sender is the given `sender`, or "Anonymous" when the field is absent. |
| `RoomGateway.Envelope` | server.py:132-137 | The relayed object is a `msg` carrying the payload unchanged, the sender or "Anonymous", and the server clock at relay time. |
| `RoomGateway.World.Joinable` | server.py:108 | A join is admitted exactly when the meta key holds a value and its deadline has not strictly passed. |
| `RoomGateway.World.CreateRoom` | server.py:98-103 | Only the store changes: it becomes `set` of the meta key with `CreatedAt(now)` and a 3600-second deadline. |
| `RoomGateway.World.Join` | server.py:106-114 | If the meta key does not exist, exactly the error "Room expired or does not exist" is sent to the joining handle and nothing is registered. Otherwise the handle is appended to the room and nothing is sent. Either way the store sees the lazy eviction of `exists`. |
| `RoomGateway.World.Relay` | server.py:120-137 | Every member receives the payload, the sender name or "Anonymous", and the server clock, in list order. The sender is not excluded. Store and membership are unchanged, and room existence is not re-checked. |
| `RoomGateway.World.Burn` | server.py:139-143 | The meta key is deleted. Every current member is sent `burn_all`, in list order. Membership is unchanged. |
| `RoomGateway.World.Receive` | server.py:116-143 | Dispatches on `type`: `msg` relays, `burn_signal` burns, and any other type changes nothing and sends nothing. |
| `RoomGateway.World.Leave` | server.py:145-146 | The registry loses the handle as in `disconnect`. Store and outbox are unchanged. |
| `RoomGateway.Step` | server.py:98-146 | Every event the endpoint processes without raising preserves the store and registry invariants, and only appends to what has been sent. |
| `RoomGateway.Run` | server.py:116-146 | Processing a sequence of events, as the receive loop does, preserves the store and registry invariants, and what has been sent is a prefix of what is sent afterwards. |
| `RoomGateway.ClosedRoomStaysClosed` | server.py:98-146 | Once a room's meta key is gone, no sequence of events brings it back unless it creates that same room again. |
| `RoomGateway.ExpiredRoomStaysClosed` | server.py:98-146 | If a room's meta key is gone or its deadline is before `t0`, that stays true under any events that do not create the room again, whatever their clock values. No join at or after `t0` is admitted. |
| `RoomGateway.ExpiredRoomRejectsLaterJoins` | server.py:98-114 | A room created at `t` and never created again rejects every join after `t + 3600`, whatever happens in between. The join gets exactly the error reply and registers nothing. |
| `RoomGateway.JoinOfClosedRoomRejected` | server.py:106-112 | A join of a room whose meta key is gone sends exactly the error reply and leaves store and registry unchanged. |
| `RoomGateway.BurnRejectsLaterJoins` | server.py:106-143 | After a `burn_signal`, every later join of that room is rejected with exactly the error reply, whatever happens in between, unless the same room is created again. |
| `RoomGateway.CreatedRoomJoinableForTtl` | server.py:98-108 | Right after `create_room` at `t`, the room admits a join exactly when `now <= t + 3600`. |
| `RoomGateway.OpenRoomStaysOpen` | server.py:98-146 | While no event creates the room again, burns it, or joins it with a clock past its deadline, the meta key keeps its value and its deadline. |
| `RoomGateway.CreatedRoomStaysJoinable` | server.py:98-114 | After `create_room` at `t` and any such events, a join is admitted exactly when `now <= t + 3600`, and the meta key still holds `CreatedAt(t)`. |
| `RoomGateway.BurnKeepsRelaying` | server.py:132-143 | A burn leaves membership unchanged, and relayed messages still reach every member afterwards. A second burn leaves the store as the first left it and sends `burn_all` to every member again. |
| `RoomGateway.RelayReachesEveryMember` | server.py:132-137 | Each member receives the relayed envelope exactly as many times as it occurs in the room's list. The sender is not excluded. |
| `RoomGateway.ReferenceScenario` | server.py:98-143 | Room "r1" is created, clients 1 and 2 join, 1 sends "hello" as "Alice", then burns the room, and client 3 joins late. Clients 1 and 2 each get the message and then `burn_all`, in that order. Client 3 gets exactly the error reply, and the room's members stay `[1, 2]`. |
| `RoomGateway.Gateway.constructor` | server.py:71-96 | The store and the registry start empty and nothing has been sent. |
| `RoomGateway.Gateway.CreateRoom` | server.py:98-103 | Returns the supplied room id. The new state is `World.CreateRoom` of the old one. |
| `RoomGateway.Gateway.Join` | server.py:106-114 | The new state, outbox included, is `World.Join` of the old one. |
| `RoomGateway.Gateway.Receive` | server.py:116-143 | One iteration of the receive loop. The new state is `World.Receive` of the old one. |
| `RoomGateway.Gateway.Disconnect` | server.py:145-146 | The new state is `World.Leave` of the old one. |

## Left out

- FastAPI plumbing (server.py:14-29) is HTTP and file I/O and is not modelled: the app object, the CORS middleware and the `index.html` route.
- The real Redis client and its start-up probe (server.py:64-71) are a foreign library chosen at import time. Only the `MockRedis` semantics are modelled.
- `accept`, `send_json`, `receive_json`, `close` and `async`/`await` are not modelled. A send is a pair appended to the outbox, and the receive loop is one `Receive` event per JSON object. Concurrency and interleaving between sessions are out of scope.
- The websocket `close` after the error reply on a rejected join is not modelled.
- `RoomRegistry.ConnectionManager.Broadcast` does not model a `send_json` that raises part-way through the list. The model assumes every send succeeds.
- The `uuid.uuid4()` room id is a parameter. Its probabilistic uniqueness cannot be verified, and `create_room` does not check it.
- `time.time()` is an integer clock parameter, so timestamps are integers rather than floats.
- The `created_at` JSON text is the opaque value `CreatedAt(now)`.
- A received object always has a `type` here. The `KeyError` for a missing `type` is not modelled.
- A `msg` without `payload` raises a `KeyError`. It is excluded by the precondition `WellFormed`.
- `sender` is an optional string. A JSON `null` sender, which Python would pass through as `None`, is not modelled.
- A JSON `null` or non-string `payload`, and a non-string `sender`, are not modelled. The code relays them unchanged, but here payloads and senders are strings, and an absent payload stands only for the missing key.
- A `ValueError` from `list.remove` for a handle absent from a known room is excluded by a precondition (`CanDisconnect`).
- Exceptions other than `WebSocketDisconnect`, which end a session without deregistering it, are not modelled.
- The `uvicorn` entry point and the `PORT`/`REDIS_URL` environment reads (server.py:64-66, 148-152) are not modelled.
