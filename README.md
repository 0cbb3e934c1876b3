# Hotel booking core, modelled in Dafny

The repository holds five near-copies of a console hotel application, each
re-telling the same booking workflow through a different object-oriented design
principle. Underneath the menu loop each copy has the same small sequential core,
and that core is what this project models:

- a **room** with one availability flag that starts `true`; booking clears it only
  when it is set, vacating always sets it;
- **eligibility rules**: "all customers allowed" (always true) and "only VIP
  allowed" (the customer's name begins with `"VIP"`, Java's `startsWith`);
- **booking strategies** that check availability (and, in three of the copies,
  eligibility) and book the room only when the checks pass;
- a **booking manager** holding rooms numbered 1..N, built in a loop, and a
  `bookings` map from room number to customer that is updated in place;
- the **food order** tally, a map from item to quantity updated with
  `getOrDefault(item, 0) + quantity`.

Each Java file declares its own `Room`, `Customer`, ... classes, so each file is
one Dafny module:

| module | file | what it adds |
|---|---|---|
| `Lsp` | `lsp.dfy` | policy-gated strategies; manager that records every in-range request |
| `Dip` | `dependency_injection.dfy` | one booking procedure parametrised by an injected policy; the injector's bindings |
| `Isp` | `isp.dfy` | strategies with hard-wired policies |
| `Hotel` | `hotel_management_system.dfy` | manager that records a booking only when the room was booked; room listings |
| `Ocp` | `apply_ocp.dfy` | availability-only strategies; manager that records every in-range request |
| `Strings` | `strings.dfy` | Java's `startsWith` as a character-by-character predicate |
| `FoodOrders` | `food_orders.dfy` | the food-order map update as a value, and accumulation over many orders |

Rooms, managers and food orders are classes whose methods change their fields in
place (`modifies`), with `ensures` giving the whole new state in terms of the old.
A manager's `rooms` is a `seq<Room>` and its `bookings` a `map<int, Customer>`; its
`Valid()` says room `i + 1` sits at index `i` (which also makes the rooms distinct
objects) and every booking key names an existing room. In `Hotel`, `Valid()` also
says a room number has a booking exactly when that room is booked; the constructor
establishes this and `BookRoom` and `Checkout` preserve it. Eligibility rules and
strategies are datatypes (tagged variants) in place of Java's interfaces and
subclasses. The Java `void` methods print which branch they took; the model returns
that branch as a value (`booked`, `confirmed`, `found`, an `Outcome`), which does not
change what state is updated.

A reader might expect a rejected request never to reach the booking map. In
`LSP.java:142-143` and `ApplyOCP.java.java:103-104`, `bookings.put` runs after the
strategy whatever the strategy decided. So under the VIP strategy a turned-away
customer is recorded as the guest of a room that stays available, and a second
request for a booked room replaces the first guest. `Lsp.RejectedVipRequestIsRecorded`
and `Ocp.RejectedRequestReplacesGuest` show both. `HotelManagementSystem.java:72-74`
records a booking only when the room was booked.

## Model

| member | source | states |
|---|---|---|
| `Strings.StartsWithIsPrefix` | LSP.java:72 | the character-by-character `startsWith` test holds exactly when the prefix is no longer than the string and equals the string's leading slice |
| `FoodOrders.AddItem` | LSP.java:165-167 | adding an item keeps every old key and adds the item; the item's quantity grows by the amount (from 0 when new); every other item keeps its quantity |
| `FoodOrders.AddItemsAccumulates` | ISP.java:131-133 | after any sequence of additions, each item's quantity is its starting quantity plus the sum of the amounts ordered of it |
| `FoodOrders.AddItemCommutes` | Dependencyinjection.java:130-132 | two additions give the same tally in either order |
| `Lsp.Room.constructor` | LSP.java:10-13 | a new room keeps the given number and is available |
| `Lsp.Room.BookRoom` | LSP.java:23-30 | reports whether the room was available; afterwards it is booked, so a booked room is unchanged |
| `Lsp.Room.VacateRoom` | LSP.java:32-35 | the room is available afterwards whatever its state, so vacating twice is the same as once |
| `Lsp.Eligibility.IsEligible` | LSP.java:61-74 | all-customers is true for every customer, empty name included; VIP-only is true exactly when the name has at least 3 characters and begins with "VIP" |
| `Lsp.RoomBooking.Eligibility` | LSP.java:88-108 | the standard strategy's policy (set by its constructor) accepts every customer; the VIP strategy's accepts exactly the names beginning with "VIP" |
| `Lsp.RoomBooking.BookRoom` | LSP.java:94-118 | books iff the room was available and the customer passes the strategy's policy (anyone for standard, a "VIP" name for VIP); otherwise the room is unchanged |
| `Lsp.BookingManager.constructor` | LSP.java:127-134 | rooms 1..numRooms in order (none when numRooms is below 1), all fresh and available; empty bookings; the given strategy |
| `Lsp.BookingManager.BookRoom` | LSP.java:136-144 | out of range: nothing changes; in range: the room is booked iff it was available and the customer eligible, and bookings[n] becomes the customer either way; other rooms unchanged; keys stay in range |
| `Lsp.BookingManager.Checkout` | LSP.java:146-154 | found iff n has a booking; then room n becomes available and n is removed; otherwise nothing changes; keys stay in range, so the room lookup is in range |
| `Lsp.FoodOrder.constructor` | LSP.java:161-163 | a new order is empty |
| `Lsp.FoodOrder.AddItem` | LSP.java:165-167 | the tally becomes `FoodOrders.AddItem` of the old tally |
| `Lsp.RejectedVipRequestIsRecorded` | LSP.java:111-144 | on a VIP manager, "Bob" is turned away yet recorded as the guest of room 1, which stays available; "VIP-Bob" then books it |
| `Dip.Room.constructor` | Dependencyinjection.java:15-18 | a new room keeps the given number and is available |
| `Dip.Room.BookRoom` | Dependencyinjection.java:30-37 | reports whether the room was available; afterwards it is booked |
| `Dip.Room.VacateRoom` | Dependencyinjection.java:40-43 | the room is available afterwards whatever its state |
| `Dip.Eligibility.IsEligible` | Dependencyinjection.java:69-81 | all-customers is always true; VIP-only is true exactly when the name begins with "VIP" |
| `Dip.RoomBooking.BookRoom` | Dependencyinjection.java:97-117 | for either subclass, books iff the room was available and the injected policy accepts the customer; otherwise the room is unchanged |
| `Dip.ProvideRoom` | Dependencyinjection.java:159-161 | a fresh available room with the given number |
| `Dip.ProvideStandardRoomBooking` | Dependencyinjection.java:163-165 | a standard booking whose policy accepts every customer |
| `Dip.ProvideVipRoomBooking` | Dependencyinjection.java:167-169 | a VIP booking whose policy accepts exactly the names beginning with "VIP" |
| `Dip.ProvideFoodOrder` | Dependencyinjection.java:171-173 | a fresh, empty food order |
| `Dip.FoodOrder.constructor` | Dependencyinjection.java:127 | a new order is empty |
| `Dip.FoodOrder.AddItem` | Dependencyinjection.java:130-132 | the tally becomes `FoodOrders.AddItem` of the old tally |
| `Dip.InjectedBookings` | Dependencyinjection.java:185-211 | with the injected bindings the VIP room refuses "Bob" and books for "VIP-Bob"; the standard room books for an empty name and then refuses a second booking |
| `Isp.Room.constructor` | ISP.java:19-22 | a new room keeps the given number and is available |
| `Isp.Room.BookRoom` | ISP.java:34-41 | reports whether the room was available; afterwards it is booked |
| `Isp.Room.VacateRoom` | ISP.java:43-46 | the room is available afterwards whatever its state |
| `Isp.Eligibility.IsEligible` | ISP.java:72-85 | all-customers is always true; VIP-only is true exactly when the name begins with "VIP" |
| `Isp.RoomBooking.Eligibility` | ISP.java:93-108 | the standard strategy's field-initialised policy accepts every customer; the VIP strategy's accepts exactly the names beginning with "VIP" |
| `Isp.RoomBooking.BookRoom` | ISP.java:93-117 | standard books any available room for anyone; VIP books iff the room is available and the name begins with "VIP"; otherwise the room is unchanged |
| `Isp.FoodOrder.constructor` | ISP.java:128 | a new order is empty |
| `Isp.FoodOrder.AddItem` | ISP.java:131-133 | the tally becomes `FoodOrders.AddItem` of the old tally |
| `Isp.VipRoomSequence` | ISP.java:107-117 | the VIP room refuses "Bob", books for "VIP-Bob", refuses a second booking, and is free after vacating |
| `Hotel.Room.constructor` | HotelManagementSystem.java:8-11 | a new room keeps the given number and is available |
| `Hotel.Room.BookRoom` | HotelManagementSystem.java:21-28 | reports whether the room was available; afterwards it is booked |
| `Hotel.Room.VacateRoom` | HotelManagementSystem.java:30-33 | the room is available afterwards whatever its state |
| `Hotel.AvailableNumbersExact` | HotelManagementSystem.java:100-107 | the available-room listing contains exactly the numbers of the free rooms, in strictly increasing order |
| `Hotel.BookingManager.constructor` | HotelManagementSystem.java:58-64 | rooms 1..numRooms in order, all fresh and available; empty bookings; "booked iff recorded" holds |
| `Hotel.BookingManager.BookRoom` | HotelManagementSystem.java:66-78 | out of range: nothing changes; available room: booked and bookings[n] := customer; booked room: room and existing entry unchanged; "booked iff recorded" is preserved |
| `Hotel.BookingManager.Checkout` | HotelManagementSystem.java:80-88 | found iff n has a booking; then room n becomes available and n is removed; otherwise nothing changes; "booked iff recorded" is preserved |
| `Hotel.BookingManager.RoomDetails` | HotelManagementSystem.java:91-97 | one entry per room, in room-number order, with that room's number and availability |
| `Hotel.BookingManager.AvailableRooms` | HotelManagementSystem.java:100-107 | the filter of the availability list; exactly the free room numbers, strictly increasing |
| `Hotel.FoodOrder.constructor` | HotelManagementSystem.java:114-116 | a new order is empty |
| `Hotel.FoodOrder.AddItem` | HotelManagementSystem.java:118-120 | the tally becomes `FoodOrders.AddItem` of the old tally |
| `Hotel.ThreeRoomBooking` | HotelManagementSystem.java:66-107 | with three rooms, booking room 2 leaves [1, 3] available; room numbers 0 and 4 are refused |
| `Hotel.ThreeRoomCheckout` | HotelManagementSystem.java:80-107 | after booking and checking out room 2, [1, 2, 3] are available and a second checkout finds no booking |
| `Ocp.Room.constructor` | ApplyOCP.java.java:8-11 | a new room keeps the given number and is available |
| `Ocp.Room.BookRoom` | ApplyOCP.java.java:21-28 | reports whether the room was available; afterwards it is booked |
| `Ocp.Room.VacateRoom` | ApplyOCP.java.java:30-33 | the room is available afterwards whatever its state |
| `Ocp.RoomBooking.BookRoom` | ApplyOCP.java.java:42-65 | both strategies book iff the room is available, for any customer; a booked room is unchanged |
| `Ocp.BookingManager.constructor` | ApplyOCP.java.java:88-95 | rooms 1..numRooms in order, all fresh and available; empty bookings; the given strategy |
| `Ocp.BookingManager.BookRoom` | ApplyOCP.java.java:97-105 | out of range: nothing changes; in range: the room is booked if available and bookings[n] becomes the customer either way, replacing an earlier guest |
| `Ocp.BookingManager.Checkout` | ApplyOCP.java.java:107-115 | found iff n has a booking; then room n becomes available and n is removed; otherwise nothing changes; keys stay within [1, N] |
| `Ocp.FoodOrder.constructor` | ApplyOCP.java.java:121-123 | a new order is empty |
| `Ocp.FoodOrder.AddItem` | ApplyOCP.java.java:125-127 | the tally becomes `FoodOrders.AddItem` of the old tally |
| `Ocp.RejectedRequestReplacesGuest` | ApplyOCP.java.java:97-115 | a second request for booked room 4 is turned away but replaces the first guest; checkout then vacates the room |

## Left out

- Every `main` method: the Scanner-driven menu loops, input parsing and closing the scanner are console I/O. The scenario methods above stand in for a few menu sequences.
- All `System.out.println` output. The model returns the branch taken as a value instead.
- `Billing.generateBill`: it only prints; its one computation adds a fixed example charge of 500.
- `FoodOrder.displayOrder`: it prints the map in hash order.
- `Customer.age` and `Customer.contactNumber`: stored, never read. `Customer` keeps only the name.
- `DependencyInjector.provideBilling`, and the Java interfaces (`RoomOperations`, `RoomBooking`, `BookingEligibility`, `FoodOrderable`, `Billable`) as types: strategies and policies are datatypes, and the strategies take a `Room` directly.
- Java `int` overflow: quantities and room numbers are unbounded integers, so `addItem` does not wrap at 2^31.
- Concurrency: the code is single-threaded, and so is the model.
