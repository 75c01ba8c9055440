/**
 * The request handlers that pair two users in a room and relay their
 * signaling traffic, with the datastore as a map from room names to room
 * values and the channel service as a log of attempted sends.
 *
 * Whether a datastore call fails is an input of each handler (`getFails`,
 * `putFails`, `delFails`); a read of a name that is not stored fails as well.
 */
module Signaling {
  import opened Rooms
  import opened ClientIds

  datatype Option<T> = None | Some(value: T)

  /** What a channel send carries: a status word or a relayed JSON value. */
  datatype Payload<J> = Status(text: string) | Json(value: J)

  /** One attempted channel send, addressed by client identity. */
  datatype Delivery<J> = Delivery(to: string, payload: Payload<J>)

  class Coordinator<J> {
    var store: map<string, RoomState>
    var sent: seq<Delivery<J>>

    /** Every stored room keeps the room invariant and has at least one occupant. */
    ghost predicate Valid()
      reads this
    {
      forall name | name in store :: store[name].Valid() && store[name].Occupancy() > 0
    }

    constructor ()
      ensures store == map[] && sent == []
      ensures Valid()
    {
      store, sent := map[], [];
    }

    /** Reads a room; on failure the record keeps its zero value. */
    method GetRoom(name: string, getFails: bool) returns (room: Room, ok: bool)
      ensures fresh(room)
      ensures ok <==> !getFails && name in store
      ensures room.State() == if ok then store[name] else Vacant
    {
      room := new Room();
      ok := !getFails && name in store;
      if ok {
        room.Load(store[name]);
      }
    }

    method PutRoom(name: string, room: Room, putFails: bool) returns (ok: bool)
      modifies this`store
      ensures ok == !putFails
      ensures store == if ok then old(store)[name := room.State()] else old(store)
    {
      ok := !putFails;
      if ok {
        store := store[name := room.State()];
      }
    }

    method DelRoom(name: string, delFails: bool) returns (ok: bool)
      modifies this`store
      ensures ok == !delFails
      ensures store == if ok then old(store) - {name} else old(store)
    {
      ok := !delFails;
      if ok {
        store := store - {name};
      }
    }

    /** Records an attempted send; a failed delivery is only logged, so it changes nothing else. */
    method Send(to: string, payload: Payload<J>)
      modifies this`sent
      ensures sent == old(sent) + [Delivery(to, payload)]
    {
      sent := sent + [Delivery(to, payload)];
    }

    /**
     * A user asks for a room page. Any failed read creates a fresh room holding
     * the user; a room with one occupant takes the user in; a full room is
     * rejected. `token` is the client identity a channel is opened for, or None
     * when the handler stops first. A stored room with no occupant matches no
     * case and still yields a token.
     */
    method Join(roomName: string, userName: string, getFails: bool, putFails: bool)
      returns (token: Option<string>)
      modifies this
      ensures sent == old(sent)
      ensures (getFails || roomName !in old(store)) && putFails ==>
        store == old(store) && token == None
      ensures (getFails || roomName !in old(store)) && !putFails ==>
        && store == old(store)[roomName := RoomState(userName, "", false, false)]
        && token == Some(MakeClientId(roomName, userName))
      ensures !getFails && roomName in old(store) && old(store)[roomName].Occupancy() == 1 && putFails ==>
        store == old(store) && token == None
      ensures !getFails && roomName in old(store) && old(store)[roomName].Occupancy() == 1 && !putFails ==>
        && store == old(store)[roomName := old(store)[roomName].WithUser(userName)]
        && token == Some(MakeClientId(roomName, userName))
      ensures !getFails && roomName in old(store) && old(store)[roomName].Occupancy() == 2 ==>
        store == old(store) && token == None
      ensures !getFails && roomName in old(store) && old(store)[roomName].Occupancy() == 0 ==>
        store == old(store) && token == Some(MakeClientId(roomName, userName))
      ensures old(Valid()) && !getFails && roomName in old(store) ==> old(store)[roomName].Occupancy() > 0
      ensures old(Valid()) && userName != "" ==> Valid()
    {
      var room, ok := GetRoom(roomName, getFails);
      if !ok {
        var created := new Room();
        created.AddUser(userName);
        var saved := PutRoom(roomName, created, putFails);
        if !saved {
          return None;
        }
      } else {
        var n := room.Occupants();
        if n == 1 {
          room.AddUser(userName);
          var saved := PutRoom(roomName, room, putFails);
          if !saved {
            return None;
          }
        } else if n == 2 {
          return None;
        }
        // `Main`'s final `else if err != nil` branch tests the read error again;
        // it is nil here, so that branch is never taken.
      }
      token := Some(MakeClientId(roomName, userName));
    }

    /**
     * The channel service reports that `from` attached. The user is marked
     * connected and, once that is saved, both occupants are told "connected":
     * first the other occupant, then the user.
     */
    method Connected(from: string, getFails: bool, putFails: bool)
      requires Separator in from
      modifies this
      ensures var (roomName, user) := ParseClientId(from);
        getFails || roomName !in old(store) || putFails ==>
          store == old(store) && sent == old(sent)
      ensures var (roomName, user) := ParseClientId(from);
        !getFails && roomName in old(store) && !putFails ==>
          var after := old(store)[roomName].WithConnected(user);
          && store == old(store)[roomName := after]
          && sent == old(sent) + [Delivery(MakeClientId(roomName, after.OtherUser(user)), Status("connected")),
                                  Delivery(MakeClientId(roomName, user), Status("connected"))]
      ensures old(Valid()) && ParseClientId(from).1 != "" ==> Valid()
    {
      var (roomName, userName) := ParseClientId(from);
      var room, ok := GetRoom(roomName, getFails);
      if ok {
        room.ConnectUser(userName);
        var saved := PutRoom(roomName, room, putFails);
        if saved {
          var otherUser := room.State().OtherUser(userName);
          Send(MakeClientId(roomName, otherUser), Status("connected"));
          Send(MakeClientId(roomName, userName), Status("connected"));
        }
      }
    }

    /**
     * The user behind `from` leaves. A room left empty is deleted and nobody is
     * told; otherwise the room is saved and "disconnected" is sent first to the
     * identity built from the other occupant as seen AFTER the removal, then to
     * the user. For a non-empty user who was in the room that other occupant is
     * "", so the first notice goes to "@" + room rather than to the peer.
     */
    method Disconnected(from: string, getFails: bool, putFails: bool, delFails: bool)
      requires Separator in from
      modifies this
      ensures var (roomName, user) := ParseClientId(from);
        getFails || roomName !in old(store) ==> store == old(store) && sent == old(sent)
      ensures var (roomName, user) := ParseClientId(from);
        !getFails && roomName in old(store) && old(store)[roomName].WithoutUser(user).Occupancy() == 0 ==>
          && sent == old(sent)
          && store == if delFails then old(store) else old(store) - {roomName}
      ensures var (roomName, user) := ParseClientId(from);
        !getFails && roomName in old(store) && old(store)[roomName].WithoutUser(user).Occupancy() > 0 ==>
          var after := old(store)[roomName].WithoutUser(user);
          if putFails then store == old(store) && sent == old(sent)
          else
            && store == old(store)[roomName := after]
            && sent == old(sent) + [Delivery(MakeClientId(roomName, after.OtherUser(user)), Status("disconnected")),
                                    Delivery(MakeClientId(roomName, user), Status("disconnected"))]
      ensures var (roomName, user) := ParseClientId(from);
        && !getFails && !putFails && roomName in old(store) && user != ""
        && (user == old(store)[roomName].user1 || user == old(store)[roomName].user2)
        && old(store)[roomName].WithoutUser(user).Occupancy() > 0
        ==> |sent| == |old(sent)| + 2 && sent[|old(sent)|].to == MakeClientId(roomName, "")
      ensures old(Valid()) ==> Valid()
    {
      var (roomName, userName) := ParseClientId(from);
      var room, ok := GetRoom(roomName, getFails);
      if ok {
        var empty := room.RemoveUser(userName);
        if empty {
          var deleted := DelRoom(roomName, delFails);
        } else {
          var saved := PutRoom(roomName, room, putFails);
          if saved {
            var otherUser := room.State().OtherUser(userName);
            Send(MakeClientId(roomName, otherUser), Status("disconnected"));
            Send(MakeClientId(roomName, userName), Status("disconnected"));
          }
        }
      }
    }

    /**
     * A client posts a signaling message. `msg` is None when the body could not
     * be read or decoded as JSON, and then nothing happens. Otherwise the value
     * is sent unchanged, once, to the other occupant; a failed read is only
     * logged and the zero room is used, which addresses the send to "@" + room.
     */
    method OnMessage(from: string, msg: Option<J>, getFails: bool)
      requires Separator in from
      modifies this
      ensures store == old(store)
      ensures msg == None ==> sent == old(sent)
      ensures var (roomName, user) := ParseClientId(from);
        msg.Some? ==>
          var room := if !getFails && roomName in store then store[roomName] else Vacant;
          sent == old(sent) + [Delivery(MakeClientId(roomName, room.OtherUser(user)), Json(msg.value))]
      ensures var (roomName, user) := ParseClientId(from);
        msg.Some? && (getFails || roomName !in store) ==>
          sent == old(sent) + [Delivery(MakeClientId(roomName, ""), Json(msg.value))]
    {
      var (roomName, userName) := ParseClientId(from);
      if msg == None {
        return;
      }
      var room, ok := GetRoom(roomName, getFails);
      var otherUser := room.State().OtherUser(userName);
      Send(MakeClientId(roomName, otherUser), Json(msg.value));
    }
  }

  /** Three joins on a fresh room name: created, paired, then rejected as full. */
  method JoinLifeCycle(room: string, u1: string, u2: string, u3: string)
    requires u1 != "" && u2 != ""
  {
    var c := new Coordinator<string>();
    var t1 := c.Join(room, u1, false, false);
    assert c.store[room] == RoomState(u1, "", false, false) && c.store[room].Occupancy() == 1;
    var t2 := c.Join(room, u2, false, false);
    assert c.store[room] == RoomState(u1, u2, false, false) && c.store[room].Occupancy() == 2;
    var t3 := c.Join(room, u3, false, false);
    assert t1.Some? && t2.Some? && t3 == None && c.store[room].Occupancy() == 2;
  }

  /** In a paired room, the first user connects: both occupants are told, the peer first. */
  method ConnectInPairedRoom(room: string, u1: string, u2: string)
    requires Separator !in room && Separator !in u1 && u1 != "" && u2 != "" && u1 != u2
  {
    var c := new Coordinator<string>();
    c.store := map[room := RoomState(u1, u2, false, false)];
    var id1, id2 := MakeClientId(room, u1), MakeClientId(room, u2);
    ClientIdRoundTrip(room, u1);
    c.Connected(id1, false, false);
    assert c.store[room] == RoomState(u1, u2, true, false);
    assert c.sent == [Delivery(id2, Status("connected")), Delivery(id1, Status("connected"))];
  }

  /** In a paired room, a message from the first user reaches the second unchanged and nobody else. */
  method RelayInPairedRoom(room: string, u1: string, u2: string, msg: string)
    requires Separator !in room && Separator !in u1 && u1 != "" && u2 != "" && u1 != u2
  {
    var c := new Coordinator<string>();
    c.store := map[room := RoomState(u1, u2, true, true)];
    var id1, id2 := MakeClientId(room, u1), MakeClientId(room, u2);
    ClientIdRoundTrip(room, u1);
    c.OnMessage(id1, Some(msg), false);
    assert c.sent == [Delivery(id2, Json(msg))];
  }

  /**
   * Both users leave a paired room: the first leave keeps the room and sends
   * its first notice to "@" + room; the second deletes the room silently.
   */
  method LeavePairedRoom(room: string, u1: string, u2: string)
    requires Separator !in room && Separator !in u1 && Separator !in u2
    requires u1 != "" && u2 != "" && u1 != u2
  {
    var c := new Coordinator<string>();
    c.store := map[room := RoomState(u1, u2, true, false)];
    var id1, id2 := MakeClientId(room, u1), MakeClientId(room, u2);
    ClientIdRoundTrip(room, u1);
    ClientIdRoundTrip(room, u2);
    c.Disconnected(id1, false, false, false);
    assert c.store[room] == RoomState("", u2, false, false);
    assert c.sent == [Delivery(MakeClientId(room, ""), Status("disconnected")),
                      Delivery(id1, Status("disconnected"))];
    var sentBefore := c.sent;
    c.Disconnected(id2, false, false, false);
    assert room !in c.store && c.sent == sentBefore;
  }
}
