/** Dependencyinjection.java: rooms behind `RoomOperations`, eligibility rules,
    one booking procedure parametrised by an injected policy, and the injector
    that binds each booking kind to its policy. */
module Dip {
  import Strings
  import FoodOrders

  /** A hotel guest; only the name is ever read. */
  datatype Customer = Customer(name: string)

  /** The `Room` implementation of `RoomOperations`. */
  class Room {
    const roomNumber: int
    var isAvailable: bool

    /** A new room keeps its number and is available. */
    constructor (roomNumber: int)
      ensures this.roomNumber == roomNumber && isAvailable
    {
      this.roomNumber := roomNumber;
      isAvailable := true;
    }

    /** Books an available room for `customer` (whose name is only printed); on a
        booked room nothing changes. */
    method BookRoom(customer: Customer) returns (booked: bool)
      modifies this
      ensures booked == old(isAvailable)
      ensures !isAvailable
    {
      if !isAvailable {
        booked := false;
      } else {
        isAvailable := false;
        booked := true;
      }
    }

    /** Makes the room available, whatever its state. */
    method VacateRoom()
      modifies this
      ensures isAvailable
    {
      isAvailable := true;
    }
  }

  /** The `BookingEligibility` implementations. */
  datatype Eligibility = AllCustomersAllowed | OnlyVipAllowed
  {
    /** Anyone may book under `AllCustomersAllowed`; under `OnlyVipAllowed`
        exactly the names that begin with "VIP". */
    function IsEligible(customer: Customer): (eligible: bool)
      ensures this == AllCustomersAllowed ==> eligible
      ensures this == OnlyVipAllowed ==>
                (eligible <==> |customer.name| >= 3 && customer.name[..3] == "VIP")
    {
      match this
      case AllCustomersAllowed => true
      case OnlyVipAllowed =>
        Strings.StartsWithIsPrefix(customer.name, "VIP");
        Strings.StartsWith(customer.name, "VIP")
    }
  }

  /** `StandardRoomBooking` and `VIPRoomBooking`: both take their policy from the
      caller and inherit `AbstractRoomBooking.bookRoom` unchanged. */
  datatype RoomBooking = StandardRoomBooking(eligibility: Eligibility) | VipRoomBooking(eligibility: Eligibility)
  {
    /** `AbstractRoomBooking.bookRoom`: books the room iff it is available and the
        injected policy accepts the customer; otherwise the room is left as it was. */
    method BookRoom(room: Room, customer: Customer) returns (confirmed: bool)
      modifies room
      ensures confirmed == (old(room.isAvailable) && eligibility.IsEligible(customer))
      ensures room.isAvailable == (old(room.isAvailable) && !confirmed)
    {
      if room.isAvailable && eligibility.IsEligible(customer) {
        var _ := room.BookRoom(customer);
        confirmed := true;
      } else {
        confirmed := false;
      }
    }
  }

  class FoodOrder {
    var orders: map<string, int>

    constructor ()
      ensures orders == map[]
    {
      orders := map[];
    }

    /** Adds `quantity` to what has been ordered of `item`; other items keep theirs. */
    method AddItem(item: string, quantity: int)
      modifies this
      ensures orders == FoodOrders.AddItem(old(orders), item, quantity)
    {
      orders := FoodOrders.AddItem(orders, item, quantity);
    }
  }

  /** `DependencyInjector.provideRoom`: a fresh available room with that number. */
  method ProvideRoom(roomNumber: int) returns (room: Room)
    ensures fresh(room) && room.roomNumber == roomNumber && room.isAvailable
  {
    room := new Room(roomNumber);
  }

  /** `DependencyInjector.provideStandardRoomBooking`: a standard booking that
      accepts every customer. */
  function ProvideStandardRoomBooking(): (booking: RoomBooking)
    ensures booking.StandardRoomBooking?
    ensures forall customer :: booking.eligibility.IsEligible(customer)
  {
    StandardRoomBooking(AllCustomersAllowed)
  }

  /** `DependencyInjector.provideVIPRoomBooking`: a VIP booking that accepts exactly
      the customers whose name begins with "VIP". */
  function ProvideVipRoomBooking(): (booking: RoomBooking)
    ensures booking.VipRoomBooking?
    ensures forall customer :: booking.eligibility.IsEligible(customer)
                               <==> |customer.name| >= 3 && customer.name[..3] == "VIP"
  {
    VipRoomBooking(OnlyVipAllowed)
  }

  /** `DependencyInjector.provideFoodOrder`: a fresh, empty order. */
  method ProvideFoodOrder() returns (order: FoodOrder)
    ensures fresh(order) && order.orders == map[]
  {
    order := new FoodOrder();
  }

  /** With the injected bindings, the VIP room turns away "Bob" and books for
      "VIP-Bob", while the standard room books for anyone once. */
  method InjectedBookings() returns (bob: bool, vipBob: bool, standard: bool, standardAgain: bool)
    ensures !bob && vipBob && standard && !standardAgain
  {
    var standardRoom := ProvideRoom(1);
    var vipRoom := ProvideRoom(2);
    var standardBooking := ProvideStandardRoomBooking();
    var vipBooking := ProvideVipRoomBooking();
    bob := vipBooking.BookRoom(vipRoom, Customer("Bob"));
    vipBob := vipBooking.BookRoom(vipRoom, Customer("VIP-Bob"));
    standard := standardBooking.BookRoom(standardRoom, Customer(""));
    standardAgain := standardBooking.BookRoom(standardRoom, Customer("Alice"));
  }
}
