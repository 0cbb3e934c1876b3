/** ISP.java: rooms, eligibility rules and booking strategies whose policies are
    fixed by their own field initialisers. */
module Isp {
  import Strings
  import FoodOrders

  /** A hotel guest; only the name is ever read. */
  datatype Customer = Customer(name: string)

  class Room {
    const roomNumber: int
    var isAvailable: bool

    /** A new room keeps its number and is available. */
    constructor (roomNumber: int)
      ensures this.roomNumber == roomNumber && isAvailable
    {
      this.roomNumber := roomNumber;
      isAvailable := true;
    }

    /** Books an available room for `customer` (whose name is only printed); on a
        booked room nothing changes. */
    method BookRoom(customer: Customer) returns (booked: bool)
      modifies this
      ensures booked == old(isAvailable)
      ensures !isAvailable
    {
      if !isAvailable {
        booked := false;
      } else {
        isAvailable := false;
        booked := true;
      }
    }

    /** Makes the room available, whatever its state. */
    method VacateRoom()
      modifies this
      ensures isAvailable
    {
      isAvailable := true;
    }
  }

  /** The `BookingEligibility` implementations. */
  datatype Eligibility = AllCustomersAllowed | OnlyVipAllowed
  {
    /** Anyone may book under `AllCustomersAllowed`; under `OnlyVipAllowed`
        exactly the names that begin with "VIP". */
    function IsEligible(customer: Customer): (eligible: bool)
      ensures this == AllCustomersAllowed ==> eligible
      ensures this == OnlyVipAllowed ==>
                (eligible <==> |customer.name| >= 3 && customer.name[..3] == "VIP")
    {
      match this
      case AllCustomersAllowed => true
      case OnlyVipAllowed =>
        Strings.StartsWithIsPrefix(customer.name, "VIP");
        Strings.StartsWith(customer.name, "VIP")
    }
  }

  /** The two `RoomBooking` implementations, each with a hard-wired policy. */
  datatype RoomBooking = StandardRoomBooking | VipRoomBooking
  {
    /** The policy the strategy is built with: the standard strategy accepts every
        customer, the VIP strategy exactly the names that begin with "VIP". */
    function Eligibility(): (policy: Eligibility)
      ensures forall customer :: policy.IsEligible(customer)
                                 <==> this == StandardRoomBooking
                                      || (|customer.name| >= 3 && customer.name[..3] == "VIP")
    {
      match this
      case StandardRoomBooking => AllCustomersAllowed
      case VipRoomBooking => OnlyVipAllowed
    }

    /** Books the room iff it is available and the policy accepts the customer:
        the standard strategy books any available room for anyone, the VIP strategy
        only for a "VIP" name. Otherwise the room is left as it was. */
    method BookRoom(room: Room, customer: Customer) returns (confirmed: bool)
      modifies room
      ensures confirmed == (old(room.isAvailable)
                            && (this == StandardRoomBooking
                                || (|customer.name| >= 3 && customer.name[..3] == "VIP")))
      ensures room.isAvailable == (old(room.isAvailable) && !confirmed)
    {
      if room.isAvailable && Eligibility().IsEligible(customer) {
        var _ := room.BookRoom(customer);
        confirmed := true;
      } else {
        confirmed := false;
      }
    }
  }

  class FoodOrder {
    var orders: map<string, int>

    constructor ()
      ensures orders == map[]
    {
      orders := map[];
    }

    /** Adds `quantity` to what has been ordered of `item`; other items keep theirs. */
    method AddItem(item: string, quantity: int)
      modifies this
      ensures orders == FoodOrders.AddItem(old(orders), item, quantity)
    {
      orders := FoodOrders.AddItem(orders, item, quantity);
    }
  }

  /** The VIP room refuses a plain name and leaves the room free, accepts a "VIP"
      name, refuses a second booking, and is free again after it is vacated. */
  method VipRoomSequence() returns (plain: bool, vip: bool, again: bool, freeAfterVacate: bool)
    ensures !plain && vip && !again && freeAfterVacate
  {
    var vipRoom := new Room(2);
    assert "Bob"[0] != "VIP"[0];
    plain := VipRoomBooking.BookRoom(vipRoom, Customer("Bob"));
    vip := VipRoomBooking.BookRoom(vipRoom, Customer("VIP-Bob"));
    again := VipRoomBooking.BookRoom(vipRoom, Customer("VIP-Ann"));
    vipRoom.VacateRoom();
    freeAfterVacate := vipRoom.isAvailable;
  }
}
