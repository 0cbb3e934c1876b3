/** LSP.java: rooms, eligibility rules, policy-gated booking strategies and a
    booking manager that records every in-range request. */
module Lsp {
  import Strings
  import FoodOrders

  /** A hotel guest; only the name is ever read (age and contact number are stored
      and never used). */
  datatype Customer = Customer(name: string)

  class Room {
    const roomNumber: int
    var isAvailable: bool

    /** A new room keeps its number and is available. */
    constructor (roomNumber: int)
      ensures this.roomNumber == roomNumber && isAvailable
    {
      this.roomNumber := roomNumber;
      isAvailable := true;
    }

    /** Books an available room; on a booked room nothing changes. `booked` tells
        which of the two messages is printed. */
    method BookRoom() returns (booked: bool)
      modifies this
      ensures booked == old(isAvailable)
      ensures !isAvailable
    {
      if !isAvailable {
        booked := false;
      } else {
        isAvailable := false;
        booked := true;
      }
    }

    /** Makes the room available, whatever its state; doing it twice is the same
        as doing it once. */
    method VacateRoom()
      modifies this
      ensures isAvailable
    {
      isAvailable := true;
    }
  }

  /** The `BookingEligibility` implementations. */
  datatype Eligibility = AllCustomersAllowed | OnlyVipAllowed
  {
    /** Total and side-effect free: anyone may book under `AllCustomersAllowed`
        (an empty name too); under `OnlyVipAllowed` exactly the names that begin
        with "VIP". */
    function IsEligible(customer: Customer): (eligible: bool)
      ensures this == AllCustomersAllowed ==> eligible
      ensures this == OnlyVipAllowed ==>
                (eligible <==> |customer.name| >= 3 && customer.name[..3] == "VIP")
    {
      match this
      case AllCustomersAllowed => true
      case OnlyVipAllowed =>
        Strings.StartsWithIsPrefix(customer.name, "VIP");
        Strings.StartsWith(customer.name, "VIP")
    }
  }

  /** The two `RoomBooking` subclasses; each fixes its policy in its constructor. */
  datatype RoomBooking = StandardRoomBooking | VipRoomBooking
  {
    /** The policy the strategy is built with: the standard strategy accepts every
        customer, the VIP strategy exactly the names that begin with "VIP". */
    function Eligibility(): (policy: Eligibility)
      ensures forall customer :: policy.IsEligible(customer)
                                 <==> this == StandardRoomBooking
                                      || (|customer.name| >= 3 && customer.name[..3] == "VIP")
    {
      match this
      case StandardRoomBooking => AllCustomersAllowed
      case VipRoomBooking => OnlyVipAllowed
    }

    /** Books the room iff it is available and the policy accepts the customer:
        the standard strategy books any available room for anyone, the VIP strategy
        only for a "VIP" name. Otherwise the room is left as it was. */
    method BookRoom(room: Room, customer: Customer) returns (confirmed: bool)
      modifies room
      ensures confirmed == (old(room.isAvailable)
                            && (this == StandardRoomBooking
                                || (|customer.name| >= 3 && customer.name[..3] == "VIP")))
      ensures room.isAvailable == (old(room.isAvailable) && !confirmed)
    {
      if room.isAvailable && Eligibility().IsEligible(customer) {
        var _ := room.BookRoom();
        confirmed := true;
      } else {
        confirmed := false;
      }
    }
  }

  datatype Outcome = InvalidRoomNumber | Booked | NotBooked

  class BookingManager {
    var rooms: seq<Room>
    var bookings: map<int, Customer>
    const roomBookingStrategy: RoomBooking

    /** Room `i + 1` sits at index `i` (so the rooms are distinct objects), and every
        recorded booking names a room that exists. */
    ghost predicate Valid()
      reads this
    {
      && (forall i :: 0 <= i < |rooms| ==> rooms[i].roomNumber == i + 1)
      && (forall n :: n in bookings ==> 1 <= n <= |rooms|)
    }

    /** Rooms 1..numRooms in order, all available, and no bookings. */
    constructor (numRooms: int, bookingStrategy: RoomBooking)
      ensures Valid()
      ensures |rooms| == (if numRooms < 0 then 0 else numRooms)
      ensures forall i :: 0 <= i < |rooms| ==> fresh(rooms[i]) && rooms[i].isAvailable
      ensures bookings == map[] && roomBookingStrategy == bookingStrategy
    {
      var rs: seq<Room> := [];
      var i := 1;
      while i <= numRooms
        invariant 1 <= i <= (if numRooms < 0 then 1 else numRooms + 1)
        invariant |rs| == i - 1
        invariant forall k :: 0 <= k < |rs| ==> rs[k].roomNumber == k + 1 && fresh(rs[k]) && rs[k].isAvailable
      {
        var room := new Room(i);
        rs := rs + [room];
        i := i + 1;
      }
      rooms := rs;
      bookings := map[];
      roomBookingStrategy := bookingStrategy;
    }

    /** An out-of-range number changes nothing. An in-range number runs the strategy
        on that room and then records the customer for it whether or not the
        strategy booked the room, replacing any earlier guest. */
    method BookRoom(roomNumber: int, customer: Customer) returns (outcome: Outcome)
      requires Valid()
      modifies this`bookings, rooms
      ensures Valid()
      ensures outcome == (if !(1 <= roomNumber <= |rooms|) then InvalidRoomNumber
                          else if old(rooms[roomNumber - 1].isAvailable)
                                  && roomBookingStrategy.Eligibility().IsEligible(customer)
                          then Booked else NotBooked)
      ensures bookings == (if outcome == InvalidRoomNumber then old(bookings)
                           else old(bookings)[roomNumber := customer])
      ensures forall i :: 0 <= i < |rooms| ==>
                rooms[i].isAvailable == (old(rooms[i].isAvailable) && !(outcome == Booked && i == roomNumber - 1))
    {
      if roomNumber < 1 || roomNumber > |rooms| {
        return InvalidRoomNumber;
      }
      var room := rooms[roomNumber - 1];
      var confirmed := roomBookingStrategy.BookRoom(room, customer);
      bookings := bookings[roomNumber := customer];
      outcome := if confirmed then Booked else NotBooked;
    }

    /** With a recorded booking, vacates that room and forgets the booking;
        otherwise nothing changes. */
    method Checkout(roomNumber: int) returns (found: bool)
      requires Valid()
      modifies this`bookings, rooms
      ensures Valid()
      ensures found == (roomNumber in old(bookings))
      ensures bookings == old(bookings) - {roomNumber}
      ensures forall i :: 0 <= i < |rooms| ==>
                rooms[i].isAvailable == (old(rooms[i].isAvailable) || (found && i == roomNumber - 1))
    {
      found := roomNumber in bookings;
      if found {
        rooms[roomNumber - 1].VacateRoom();
        bookings := bookings - {roomNumber};
      }
    }
  }

  class FoodOrder {
    var orders: map<string, int>

    constructor ()
      ensures orders == map[]
    {
      orders := map[];
    }

    /** Adds `quantity` to what has been ordered of `item`; other items keep theirs. */
    method AddItem(item: string, quantity: int)
      modifies this
      ensures orders == FoodOrders.AddItem(old(orders), item, quantity)
    {
      orders := FoodOrders.AddItem(orders, item, quantity);
    }
  }

  /** On the VIP manager, a customer whose name lacks the prefix is turned away but
      is still recorded as the guest of the room, which stays available; the same
      room then books for a "VIP" name. */
  method RejectedVipRequestIsRecorded() returns (first: Outcome, recordedGuest: Customer, stillAvailable: bool, second: Outcome)
    ensures first == NotBooked && recordedGuest == Customer("Bob") && stillAvailable
    ensures second == Booked
  {
    var vipManager := new BookingManager(5, VipRoomBooking);
    first := vipManager.BookRoom(1, Customer("Bob"));
    recordedGuest := vipManager.bookings[1];
    stillAvailable := vipManager.rooms[0].isAvailable;
    second := vipManager.BookRoom(1, Customer("VIP-Bob"));
  }
}
