/** ApplyOCP.java.java: rooms, availability-only booking strategies and a booking
    manager that records every in-range request. */
module Ocp {
  import FoodOrders

  /** A hotel guest; only the name is ever read. */
  datatype Customer = Customer(name: string)

  class Room {
    const roomNumber: int
    var isAvailable: bool

    /** A new room keeps its number and is available. */
    constructor (roomNumber: int)
      ensures this.roomNumber == roomNumber && isAvailable
    {
      this.roomNumber := roomNumber;
      isAvailable := true;
    }

    /** Books an available room; on a booked room nothing changes. */
    method BookRoom() returns (booked: bool)
      modifies this
      ensures booked == old(isAvailable)
      ensures !isAvailable
    {
      if !isAvailable {
        booked := false;
      } else {
        isAvailable := false;
        booked := true;
      }
    }

    /** Makes the room available, whatever its state. */
    method VacateRoom()
      modifies this
      ensures isAvailable
    {
      isAvailable := true;
    }
  }

  /** The two `RoomBooking` subclasses. They differ only in the message printed:
      neither looks at the customer. */
  datatype RoomBooking = StandardRoomBooking | VipRoomBooking
  {
    /** Books the room iff it is available, for any customer; a booked room is
        left as it was. */
    method BookRoom(room: Room, customer: Customer) returns (confirmed: bool)
      modifies room
      ensures confirmed == old(room.isAvailable)
      ensures !room.isAvailable
    {
      if room.isAvailable {
        var _ := room.BookRoom();
        confirmed := true;
      } else {
        confirmed := false;
      }
    }
  }

  datatype Outcome = InvalidRoomNumber | Booked | NotBooked

  class BookingManager {
    var rooms: seq<Room>
    var bookings: map<int, Customer>
    const roomBookingStrategy: RoomBooking

    /** Room `i + 1` sits at index `i`, and every recorded booking names a room
        that exists (so `checkout` never looks outside the list). */
    ghost predicate Valid()
      reads this
    {
      && (forall i :: 0 <= i < |rooms| ==> rooms[i].roomNumber == i + 1)
      && (forall n :: n in bookings ==> 1 <= n <= |rooms|)
    }

    /** Rooms 1..numRooms in order, all available, and no bookings. */
    constructor (numRooms: int, bookingStrategy: RoomBooking)
      ensures Valid()
      ensures |rooms| == (if numRooms < 0 then 0 else numRooms)
      ensures forall i :: 0 <= i < |rooms| ==> fresh(rooms[i]) && rooms[i].isAvailable
      ensures bookings == map[] && roomBookingStrategy == bookingStrategy
    {
      var rs: seq<Room> := [];
      var i := 1;
      while i <= numRooms
        invariant 1 <= i <= (if numRooms < 0 then 1 else numRooms + 1)
        invariant |rs| == i - 1
        invariant forall k :: 0 <= k < |rs| ==> rs[k].roomNumber == k + 1 && fresh(rs[k]) && rs[k].isAvailable
      {
        var room := new Room(i);
        rs := rs + [room];
        i := i + 1;
      }
      rooms := rs;
      bookings := map[];
      roomBookingStrategy := bookingStrategy;
    }

    /** An out-of-range number changes nothing. An in-range number books the room
        if it is available and records the customer for it in any case, replacing
        the guest of a room that was already booked. */
    method BookRoom(roomNumber: int, customer: Customer) returns (outcome: Outcome)
      requires Valid()
      modifies this`bookings, rooms
      ensures Valid()
      ensures outcome == (if !(1 <= roomNumber <= |rooms|) then InvalidRoomNumber
                          else if old(rooms[roomNumber - 1].isAvailable) then Booked else NotBooked)
      ensures bookings == (if outcome == InvalidRoomNumber then old(bookings)
                           else old(bookings)[roomNumber := customer])
      ensures forall i :: 0 <= i < |rooms| ==>
                rooms[i].isAvailable == (old(rooms[i].isAvailable) && !(outcome != InvalidRoomNumber && i == roomNumber - 1))
    {
      if roomNumber < 1 || roomNumber > |rooms| {
        return InvalidRoomNumber;
      }
      var room := rooms[roomNumber - 1];
      var confirmed := roomBookingStrategy.BookRoom(room, customer);
      bookings := bookings[roomNumber := customer];
      outcome := if confirmed then Booked else NotBooked;
    }

    /** With a recorded booking, vacates that room and forgets the booking;
        otherwise nothing changes. */
    method Checkout(roomNumber: int) returns (found: bool)
      requires Valid()
      modifies this`bookings, rooms
      ensures Valid()
      ensures found == (roomNumber in old(bookings))
      ensures bookings == old(bookings) - {roomNumber}
      ensures forall i :: 0 <= i < |rooms| ==>
                rooms[i].isAvailable == (old(rooms[i].isAvailable) || (found && i == roomNumber - 1))
    {
      found := roomNumber in bookings;
      if found {
        rooms[roomNumber - 1].VacateRoom();
        bookings := bookings - {roomNumber};
      }
    }
  }

  class FoodOrder {
    var orders: map<string, int>

    constructor ()
      ensures orders == map[]
    {
      orders := map[];
    }

    /** Adds `quantity` to what has been ordered of `item`; other items keep theirs. */
    method AddItem(item: string, quantity: int)
      modifies this
      ensures orders == FoodOrders.AddItem(old(orders), item, quantity)
    {
      orders := FoodOrders.AddItem(orders, item, quantity);
    }
  }

  /** A second request for a booked room is turned away, yet it replaces the first
      guest in the booking map; checkout then vacates the room on the second
      guest's record. */
  method RejectedRequestReplacesGuest() returns (second: Outcome, recordedGuest: Customer, found: bool, availableAfter: bool)
    ensures second == NotBooked && recordedGuest == Customer("Bob")
    ensures found && availableAfter
  {
    var manager := new BookingManager(10, StandardRoomBooking);
    var first := manager.BookRoom(4, Customer("Alice"));
    second := manager.BookRoom(4, Customer("Bob"));
    recordedGuest := manager.bookings[4];
    found := manager.Checkout(4);
    availableAfter := manager.rooms[3].isAvailable;
  }
}
