/** HotelManagementSystem.java: rooms and a booking manager that records a booking
    only when the room was actually booked, with the two room listings. */
module Hotel {
  import FoodOrders

  /** A hotel guest; only the name is ever read. */
  datatype Customer = Customer(name: string)

  class Room {
    const roomNumber: int
    var isAvailable: bool

    /** A new room keeps its number and is available. */
    constructor (roomNumber: int)
      ensures this.roomNumber == roomNumber && isAvailable
    {
      this.roomNumber := roomNumber;
      isAvailable := true;
    }

    /** Books an available room; on a booked room nothing changes. */
    method BookRoom() returns (booked: bool)
      modifies this
      ensures booked == old(isAvailable)
      ensures !isAvailable
    {
      if !isAvailable {
        booked := false;
      } else {
        isAvailable := false;
        booked := true;
      }
    }

    /** Makes the room available, whatever its state. */
    method VacateRoom()
      modifies this
      ensures isAvailable
    {
      isAvailable := true;
    }
  }

  /** One line of the full room listing: a room number and whether it is free. */
  datatype RoomStatus = RoomStatus(roomNumber: int, available: bool)

  /** The numbers of the available rooms, for an availability list whose index `i`
      describes room `i + 1`. */
  function AvailableNumbers(available: seq<bool>): seq<int>
    decreases |available|
  {
    if available == [] then []
    else
      var last := |available| - 1;
      AvailableNumbers(available[..last]) + (if available[last] then [last + 1] else [])
  }

  /** The available-room listing holds exactly the numbers of the free rooms, each
      once, in increasing order. */
  lemma {:induction false} AvailableNumbersExact(available: seq<bool>)
    ensures forall n :: n in AvailableNumbers(available) <==> 1 <= n <= |available| && available[n - 1]
    ensures forall i, j :: 0 <= i < j < |AvailableNumbers(available)| ==>
              AvailableNumbers(available)[i] < AvailableNumbers(available)[j]
    decreases |available|
  {
    if available != [] {
      var last := |available| - 1;
      var init := available[..last];
      AvailableNumbersExact(init);
      var before := AvailableNumbers(init);
      var numbers := AvailableNumbers(available);
      assert numbers == before + (if available[last] then [last + 1] else []);
      forall i, j | 0 <= i < j < |numbers| ensures numbers[i] < numbers[j] {
        if j >= |before| {
          assert numbers[i] == before[i] && before[i] in before;
        }
      }
    }
  }

  datatype Outcome = InvalidRoomNumber | Booked | AlreadyBooked

  class BookingManager {
    var rooms: seq<Room>
    var bookings: map<int, Customer>

    /** Room `i + 1` sits at index `i`, and a room number has a booking exactly
        when it names an existing room that is booked. */
    ghost predicate Valid()
      reads this, rooms
    {
      && (forall i :: 0 <= i < |rooms| ==> rooms[i].roomNumber == i + 1)
      && (forall n :: n in bookings ==> 1 <= n <= |rooms|)
      && (forall i :: 0 <= i < |rooms| ==> (i + 1 in bookings <==> !rooms[i].isAvailable))
    }

    /** The availability of the rooms, in room-number order. */
    ghost function Availability(): (available: seq<bool>)
      reads this, rooms
      ensures |available| == |rooms|
      ensures forall i :: 0 <= i < |rooms| ==> available[i] == rooms[i].isAvailable
    {
      var rs := rooms;
      seq(|rs|, i requires 0 <= i < |rs| reads rs => rs[i].isAvailable)
    }

    /** Rooms 1..numRooms in order, all available, and no bookings. */
    constructor (numRooms: int)
      ensures Valid()
      ensures |rooms| == (if numRooms < 0 then 0 else numRooms)
      ensures forall i :: 0 <= i < |rooms| ==> fresh(rooms[i]) && rooms[i].isAvailable
      ensures bookings == map[]
    {
      var rs: seq<Room> := [];
      var i := 1;
      while i <= numRooms
        invariant 1 <= i <= (if numRooms < 0 then 1 else numRooms + 1)
        invariant |rs| == i - 1
        invariant forall k :: 0 <= k < |rs| ==> rs[k].roomNumber == k + 1 && fresh(rs[k]) && rs[k].isAvailable
      {
        var room := new Room(i);
        rs := rs + [room];
        i := i + 1;
      }
      rooms := rs;
      bookings := map[];
    }

    /** An out-of-range number changes nothing. An available room is booked and the
        customer recorded for it; a booked room keeps its state and its guest. */
    method BookRoom(roomNumber: int, customer: Customer) returns (outcome: Outcome)
      requires Valid()
      modifies this`bookings, rooms
      ensures Valid()
      ensures outcome == (if !(1 <= roomNumber <= |rooms|) then InvalidRoomNumber
                          else if old(rooms[roomNumber - 1].isAvailable) then Booked else AlreadyBooked)
      ensures bookings == (if outcome == Booked then old(bookings)[roomNumber := customer] else old(bookings))
      ensures forall i :: 0 <= i < |rooms| ==>
                rooms[i].isAvailable == (old(rooms[i].isAvailable) && !(outcome == Booked && i == roomNumber - 1))
    {
      if roomNumber < 1 || roomNumber > |rooms| {
        return InvalidRoomNumber;
      }
      var room := rooms[roomNumber - 1];
      if room.isAvailable {
        var _ := room.BookRoom();
        bookings := bookings[roomNumber := customer];
        outcome := Booked;
      } else {
        outcome := AlreadyBooked;
      }
    }

    /** With a recorded booking, vacates that room and forgets the booking;
        otherwise nothing changes. */
    method Checkout(roomNumber: int) returns (found: bool)
      requires Valid()
      modifies this`bookings, rooms
      ensures Valid()
      ensures found == (roomNumber in old(bookings))
      ensures bookings == old(bookings) - {roomNumber}
      ensures forall i :: 0 <= i < |rooms| ==>
                rooms[i].isAvailable == (old(rooms[i].isAvailable) || (found && i == roomNumber - 1))
    {
      found := roomNumber in bookings;
      if found {
        rooms[roomNumber - 1].VacateRoom();
        bookings := bookings - {roomNumber};
      }
    }

    /** `displayRoomDetails`: one line per room, in room-number order. */
    method RoomDetails() returns (details: seq<RoomStatus>)
      requires Valid()
      ensures |details| == |rooms|
      ensures forall i :: 0 <= i < |rooms| ==> details[i] == RoomStatus(i + 1, rooms[i].isAvailable)
    {
      details := [];
      var i := 0;
      while i < |rooms|
        invariant 0 <= i <= |rooms|
        invariant |details| == i
        invariant forall k :: 0 <= k < i ==> details[k] == RoomStatus(k + 1, rooms[k].isAvailable)
      {
        var room := rooms[i];
        details := details + [RoomStatus(room.roomNumber, room.isAvailable)];
        i := i + 1;
      }
    }

    /** `displayAvailableRooms`: the numbers of the free rooms, in increasing order,
        each once. */
    method AvailableRooms() returns (numbers: seq<int>)
      requires Valid()
      ensures numbers == AvailableNumbers(Availability())
      ensures forall n :: n in numbers <==> 1 <= n <= |rooms| && rooms[n - 1].isAvailable
      ensures forall i, j :: 0 <= i < j < |numbers| ==> numbers[i] < numbers[j]
    {
      numbers := [];
      var i := 0;
      while i < |rooms|
        invariant 0 <= i <= |rooms|
        invariant numbers == AvailableNumbers(Availability()[..i])
      {
        assert Availability()[..i + 1][..i] == Availability()[..i];
        var room := rooms[i];
        if room.isAvailable {
          numbers := numbers + [room.roomNumber];
        }
        i := i + 1;
      }
      assert Availability()[..|rooms|] == Availability();
      AvailableNumbersExact(Availability());
    }
  }

  class FoodOrder {
    var orders: map<string, int>

    constructor ()
      ensures orders == map[]
    {
      orders := map[];
    }

    /** Adds `quantity` to what has been ordered of `item`; other items keep theirs. */
    method AddItem(item: string, quantity: int)
      modifies this
      ensures orders == FoodOrders.AddItem(old(orders), item, quantity)
    {
      orders := FoodOrders.AddItem(orders, item, quantity);
    }
  }

  /** The available-room listings of three rooms with room 2 booked and with none booked. */
  lemma ListingsOfThreeRooms()
    ensures AvailableNumbers([true, false, true]) == [1, 3]
    ensures AvailableNumbers([true, true, true]) == [1, 2, 3]
  {
    assert [true, false, true][..2] == [true, false] && [true, false][..1] == [true] && [true][..0] == [];
    assert [true, true, true][..2] == [true, true] && [true, true][..1] == [true];
  }

  /** Three rooms: booking room 2 leaves rooms 1 and 3 listed as available, and room
      numbers 0 and 4 are refused. */
  method ThreeRoomBooking() returns (low: Outcome, high: Outcome, booked: Outcome, afterBooking: seq<int>)
    ensures low == InvalidRoomNumber && high == InvalidRoomNumber && booked == Booked
    ensures afterBooking == [1, 3]
  {
    var manager := new BookingManager(3);
    booked := manager.BookRoom(2, Customer("Alice"));
    low := manager.BookRoom(0, Customer("Bob"));
    high := manager.BookRoom(4, Customer("Bob"));
    assert manager.rooms[0].isAvailable && !manager.rooms[1].isAvailable && manager.rooms[2].isAvailable;
    afterBooking := manager.AvailableRooms();
    ghost var available := manager.Availability();
    assert |available| == 3 && available[0] && !available[1] && available[2];
    assert available == [true, false, true];
    ListingsOfThreeRooms();
  }

  /** Three rooms, room 2 booked: checking out restores [1, 2, 3] as available, and a
      second checkout of room 2 finds no booking. */
  method ThreeRoomCheckout() returns (checkedOut: bool, checkedOutAgain: bool, afterCheckout: seq<int>)
    ensures checkedOut && !checkedOutAgain && afterCheckout == [1, 2, 3]
  {
    var manager := new BookingManager(3);
    var _ := manager.BookRoom(2, Customer("Alice"));
    checkedOut := manager.Checkout(2);
    checkedOutAgain := manager.Checkout(2);
    assert manager.rooms[0].isAvailable && manager.rooms[1].isAvailable && manager.rooms[2].isAvailable;
    afterCheckout := manager.AvailableRooms();
    ghost var available := manager.Availability();
    assert |available| == 3 && available[0] && available[1] && available[2];
    assert available == [true, true, true];
    ListingsOfThreeRooms();
  }
}
