/**
 * The pairing state of one named room: two user slots (the empty string
 * marks an empty slot) and one "connected" flag per slot.
 *
 * RoomState is the value the datastore keeps under the room's name; Room is
 * the in-memory record a request handler loads and updates in place.
 */
module Rooms {

  datatype RoomState = RoomState(user1: string, user2: string, connected1: bool, connected2: bool)
  {
    /** The room invariant: a slot marked connected holds a user. */
    predicate Valid() {
      (connected1 ==> user1 != "") && (connected2 ==> user2 != "")
    }

    /** The number of non-empty slots. */
    function Occupancy(): (n: nat)
      ensures n <= 2
      ensures n == 0 <==> user1 == "" && user2 == ""
      ensures n == 2 <==> user1 != "" && user2 != ""
    {
      (if user1 != "" then 1 else 0) + (if user2 != "" then 1 else 0)
    }

    /** The occupant of the slot that `user` does not hold; "" for a user not in the room. */
    function OtherUser(user: string): (other: string)
      ensures user1 != user2 && user == user1 ==> other == user2
      ensures user1 != user2 && user == user2 ==> other == user1
      ensures user == user1 && user == user2 ==> other == user
      ensures user != user1 && user != user2 ==> other == ""
    {
      if user == user2 then user1
      else if user == user1 then user2
      else ""
    }

    /** The room after `user` takes the first empty slot; a full room is unchanged. */
    function WithUser(user: string): (r: RoomState)
      ensures r.connected1 == connected1 && r.connected2 == connected2
      ensures user1 != "" ==> r.user1 == user1
      ensures user2 != "" ==> r.user2 == user2
      ensures user1 == "" ==> r.user1 == user && r.user2 == user2
      ensures user1 != "" && user2 == "" ==> r.user2 == user
      ensures Occupancy() == 2 ==> r == this
      ensures user != "" && Occupancy() < 2 ==> r.Occupancy() == Occupancy() + 1
      ensures Valid() ==> r.Valid()
    {
      if user1 == "" then this.(user1 := user)
      else if user2 == "" then this.(user2 := user)
      else this
    }

    /** The room after every slot holding `user` is cleared together with its flag. */
    function WithoutUser(user: string): (r: RoomState)
      ensures user1 == user ==> r.user1 == "" && !r.connected1
      ensures user2 == user ==> r.user2 == "" && !r.connected2
      ensures user1 != user ==> r.user1 == user1 && r.connected1 == connected1
      ensures user2 != user ==> r.user2 == user2 && r.connected2 == connected2
      ensures user != "" && user != user1 && user != user2 ==> r == this
      ensures r.Occupancy() <= Occupancy()
      ensures Valid() ==> r.Valid()
    {
      var r := if user == user2 then this.(user2 := "", connected2 := false) else this;
      if user == r.user1 then r.(user1 := "", connected1 := false) else r
    }

    /** The room after every slot holding `user` is marked connected. */
    function WithConnected(user: string): (r: RoomState)
      ensures r.user1 == user1 && r.user2 == user2
      ensures r.connected1 <==> connected1 || user == user1
      ensures r.connected2 <==> connected2 || user == user2
      ensures r.Occupancy() == Occupancy()
      ensures Valid() && user != "" ==> r.Valid()
    {
      var r := if user == user1 then this.(connected1 := true) else this;
      if user == r.user2 then r.(connected2 := true) else r
    }
  }

  /** The zero value of a room: both slots empty, nobody connected. */
  const Vacant := RoomState("", "", false, false)

  /** The record a handler works on; its methods change it in place. */
  class Room {
    var user1: string
    var user2: string
    var connected1: bool
    var connected2: bool

    /** The value this record would be stored as. */
    function State(): RoomState
      reads this
    {
      RoomState(user1, user2, connected1, connected2)
    }

    /** A zero-valued record, as allocated before the datastore fills it. */
    constructor ()
      ensures State() == Vacant
    {
      user1, user2 := "", "";
      connected1, connected2 := false, false;
    }

    /** Overwrites every field with a stored value (what a successful datastore read does). */
    method Load(s: RoomState)
      modifies this
      ensures State() == s
    {
      user1, user2 := s.user1, s.user2;
      connected1, connected2 := s.connected1, s.connected2;
    }

    method AddUser(user: string)
      modifies this
      ensures State() == old(State()).WithUser(user)
    {
      if user1 == "" {
        user1 := user;
      } else if user2 == "" {
        user2 := user;
      }
    }

    /** Clears the slots holding `user`; `empty` says whether the room should now be deleted. */
    method RemoveUser(user: string) returns (empty: bool)
      modifies this
      ensures State() == old(State()).WithoutUser(user)
      ensures empty <==> user1 == "" && user2 == ""
    {
      if user == user2 {
        user2 := "";
        connected2 := false;
      }
      if user == user1 {
        user1 := "";
        connected1 := false;
      }
      var n := Occupants();
      empty := n == 0;
    }

    method ConnectUser(user: string)
      modifies this
      ensures State() == old(State()).WithConnected(user)
    {
      if user == user1 {
        connected1 := true;
      }
      if user == user2 {
        connected2 := true;
      }
    }

    /** Counts the non-empty slots. */
    method Occupants() returns (n: int)
      ensures n == State().Occupancy()
      ensures 0 <= n <= 2
      ensures n == 0 <==> user1 == "" && user2 == ""
    {
      n := 0;
      if user1 != "" {
        n := n + 1;
      }
      if user2 != "" {
        n := n + 1;
      }
    }
  }
}
