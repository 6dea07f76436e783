/**
 * The room registry of the relay (`ConnectionManager`): a map from room id to
 * the list of connection handles joined to that room, in join order.
 *
 * Handles are opaque (a type parameter that only supports equality); sending a
 * message to a handle is recorded as the pair `(handle, message)`.
 * `Registry` is the value view of the map with one function per operation;
 * `ConnectionManager` is the object whose methods update the map in place.
 */
module RoomRegistry {

  /** The position of the first occurrence of `x` in `s`, as Python's `list.index` finds it. */
  function IndexOf<T(==)>(s: seq<T>, x: T): (i: nat)
    requires x in s
    ensures i < |s| && s[i] == x
    ensures forall k :: 0 <= k < i ==> s[k] != x
  {
    if s[0] == x then 0 else 1 + IndexOf(s[1..], x)
  }

  /** Python's `list.remove(x)`: drop the first occurrence of `x`, keep the order of the rest. */
  function RemoveFirst<T(==)>(s: seq<T>, x: T): (r: seq<T>)
    requires x in s
    ensures |r| == |s| - 1
    ensures forall k {:trigger r[k]} :: 0 <= k < |r| ==> r[k] == if k < IndexOf(s, x) then s[k] else s[k + 1]
  {
    if s[0] == x then s[1..]
    else
      var rest, j := RemoveFirst(s[1..], x), IndexOf(s[1..], x);
      assert IndexOf(s, x) == 1 + j;
      [s[0]] + rest
  }

  /** `list.remove` takes away exactly one copy of `x` and nothing else. */
  lemma {:induction false} RemoveFirstMultiset<T>(s: seq<T>, x: T)
    requires x in s
    ensures multiset(RemoveFirst(s, x)) == multiset(s) - multiset{x}
  {
    assert s == [s[0]] + s[1..];
    if s[0] != x {
      RemoveFirstMultiset(s[1..], x);
    }
  }

  /** Removing the first `h` from a list that ends in its only `h` gives back the rest. */
  lemma RemoveAppended<T>(m: seq<T>, h: T)
    requires h !in m
    ensures RemoveFirst(m + [h], h) == m
  {
    assert IndexOf(m + [h], h) == |m|;
    var r := RemoveFirst(m + [h], h);
    forall k | 0 <= k < |m|
      ensures r[k] == m[k]
    {
      assert (m + [h])[k] == m[k];
    }
  }

  /** The sends of one broadcast: `m` to each handle of `members`, in list order. */
  function Fanout<H, M>(members: seq<H>, m: M): (r: seq<(H, M)>)
    ensures |r| == |members|
    ensures forall i :: 0 <= i < |r| ==> r[i] == (members[i], m)
  {
    if members == [] then [] else [(members[0], m)] + Fanout(members[1..], m)
  }

  /** A broadcast reaches each handle exactly as many times as it occurs in the list: once per entry. */
  lemma {:induction false} FanoutCount<H, M>(members: seq<H>, m: M, h: H)
    ensures multiset(Fanout(members, m))[(h, m)] == multiset(members)[h]
  {
    if members != [] {
      FanoutCount(members[1..], m, h);
      assert members == [members[0]] + members[1..];
    }
  }

  datatype Registry<H(==)> = Registry(rooms: map<string, seq<H>>) {

    /** The registry's invariant: no room maps to an empty list. */
    ghost predicate Valid() {
      forall room :: room in rooms ==> rooms[room] != []
    }

    /** The handles joined to `room`, in join order; none when the room has no entry. */
    function Members(room: string): seq<H> {
      if room in rooms then rooms[room] else []
    }

    /** `connect`: append `h` to the room's list, creating the list when the room has no entry. */
    function Connect(room: string, h: H): (r: Registry<H>)
      ensures room in r.rooms && r.Members(room) == Members(room) + [h]
      ensures r.rooms - {room} == rooms - {room}
      ensures Valid() ==> r.Valid()
    {
      Registry(rooms[room := Members(room) + [h]])
    }

    /** What `disconnect` needs to return normally: `list.remove` raises when the handle is not in a known room's list. */
    function CanDisconnect(room: string, h: H): (r: bool)
      ensures r <==> (room in rooms ==> exists i :: 0 <= i < |rooms[room]| && rooms[room][i] == h)
    {
      room in rooms ==> h in rooms[room]
    }

    /**
     * `disconnect`: remove one occurrence of `h` from the room's list and drop the
     * room's entry when the list becomes empty; an unknown room is left alone.
     */
    function Disconnect(room: string, h: H): (r: Registry<H>)
      requires CanDisconnect(room, h)
      ensures room !in rooms ==> r == this
      ensures room in rooms ==> r.Members(room) == RemoveFirst(rooms[room], h)
      ensures room in r.rooms <==> |Members(room)| > 1
      ensures r.rooms - {room} == rooms - {room}
      ensures Valid() ==> r.Valid()
    {
      if room !in rooms then this
      else
        var rest := RemoveFirst(rooms[room], h);
        if rest == [] then Registry(rooms - {room}) else Registry(rooms[room := rest])
    }
  }

  /** `disconnect` takes exactly one copy of the handle out of the room's members. */
  lemma DisconnectRemovesOne<H>(reg: Registry<H>, room: string, h: H)
    requires reg.CanDisconnect(room, h)
    ensures multiset(reg.Disconnect(room, h).Members(room)) == multiset(reg.Members(room)) - multiset{h}
  {
    if room in reg.rooms {
      RemoveFirstMultiset(reg.rooms[room], h);
    }
  }

  /**
   * `disconnect` undoes `connect` for a handle that was not already in the room:
   * the room's list, or the absence of an entry, is restored exactly.
   */
  lemma ConnectThenDisconnect<H>(reg: Registry<H>, room: string, h: H)
    requires reg.Valid() && h !in reg.Members(room)
    ensures reg.Connect(room, h).Disconnect(room, h) == reg
  {
    var m := reg.Members(room);
    assert room in reg.rooms ==> m != [];
    RemoveAppended(m, h);
    var c := Registry(reg.rooms[room := m + [h]]);
    var d := if m == [] then Registry(c.rooms - {room}) else Registry(c.rooms[room := m]);
    assert d == reg;
    assert c == reg.Connect(room, h);
    assert c.Disconnect(room, h) == d;
  }

  /** The in-place room registry. */
  class ConnectionManager<H(==)> {
    var activeConnections: map<string, seq<H>>

    /** The current registry as a `Registry` value. */
    function State(): Registry<H>
      reads this
    {
      Registry(activeConnections)
    }

    ghost predicate Valid()
      reads this
    {
      State().Valid()
    }

    constructor ()
      ensures Valid()
      ensures State() == Registry(map[])
    {
      activeConnections := map[];
    }

    method Connect(h: H, roomId: string)
      requires Valid()
      modifies this
      ensures Valid()
      ensures State() == old(State()).Connect(roomId, h)
    {
      if roomId !in activeConnections {
        activeConnections := activeConnections[roomId := []];
      }
      activeConnections := activeConnections[roomId := activeConnections[roomId] + [h]];
    }

    method Disconnect(h: H, roomId: string)
      requires Valid()
      requires State().CanDisconnect(roomId, h)
      modifies this
      ensures Valid()
      ensures State() == old(State()).Disconnect(roomId, h)
    {
      if roomId in activeConnections {
        activeConnections := activeConnections[roomId := RemoveFirst(activeConnections[roomId], h)];
        if activeConnections[roomId] == [] {
          activeConnections := activeConnections - {roomId};
        }
      }
    }

    /**
     * `broadcast`: send `message` to every handle of the room's list, in list order,
     * one send per entry; nothing for a room without an entry. Membership is not changed.
     */
    method Broadcast<M>(message: M, roomId: string) returns (sent: seq<(H, M)>)
      ensures roomId !in activeConnections ==> sent == []
      ensures sent == Fanout(State().Members(roomId), message)
    {
      sent := [];
      if roomId in activeConnections {
        var connections := activeConnections[roomId];
        var i := 0;
        while i < |connections|
          invariant 0 <= i <= |connections|
          invariant |sent| == i
          invariant forall j :: 0 <= j < i ==> sent[j] == (connections[j], message)
        {
          sent := sent + [(connections[i], message)];
          i := i + 1;
        }
      }
    }
  }
}
