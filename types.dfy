/** The entities of the booking application. Dates are day numbers; strings that
    the application leaves undefined or empty (an unsaved booking's id, a missing
    invoice id) are the empty string, which JavaScript treats as false. */
module Types {
  import opened Calendar
  import opened Seqs

  datatype BookingStatus = Confirmed | Pending | Cancelled | CheckedIn | CheckedOut

  /** The value the enum member carries, as it is written to the log. */
  function StatusName(s: BookingStatus): string
  {
    match s
    case Confirmed => "CONFIRMED"
    case Pending => "PENDING"
    case Cancelled => "CANCELLED"
    case CheckedIn => "CHECKED_IN"
    case CheckedOut => "CHECKED_OUT"
  }

  datatype ServiceType = Rental | Meal | Pickup | Custom

  /** A service the guesthouse offers, with its unit price. */
  datatype ServiceDefinition = ServiceDefinition(id: string, name: string, defaultPrice: int, kind: ServiceType)

  /** A service attached to a booking. Its billed day count is derived, not stored. */
  datatype BookedService = BookedService(
    id: string,
    serviceId: string,
    name: string,
    startDate: Day,
    endDate: Day,
    price: int,
    basePrice: int,
    quantity: int)

  datatype Room = Room(
    id: string,
    name: string,
    kind: string,
    capacity: int,
    baseCapacity: int,
    extraPersonPrice: int,
    price: int,
    color: string,
    hasBathroom: bool,
    description: string,
    building: string,
    roomNumber: string)

  datatype Booking = Booking(
    id: string,
    roomId: string,
    guestName: string,
    guestCount: int,
    startDate: Day,
    endDate: Day,
    status: BookingStatus,
    guestPhone: string,
    notes: string,
    amount: int,
    bookedServices: seq<BookedService>,
    invoiceId: string)

  /** What the booking dialog is opened with: a blank draft, a quick-book gesture
      on an empty calendar cell, or an existing booking. */
  datatype BookingSeed = Blank | QuickBook(roomId: string, startDate: Day) | Existing(booking: Booking)

  /** `rooms.find(r => r.id === id)`. */
  function FindRoom(rooms: seq<Room>, id: string): (r: Option<Room>)
    ensures r.None? <==> forall i :: 0 <= i < |rooms| ==> rooms[i].id != id
    ensures r.Some? ==> r.value in rooms && r.value.id == id
    ensures r.Some? ==> exists i :: 0 <= i < |rooms| && rooms[i] == r.value && forall j :: 0 <= j < i ==> rooms[j].id != id
  {
    Find(rooms, (x: Room) => x.id == id)
  }

  /** `services.find(s => s.id === id)`. */
  function FindService(services: seq<ServiceDefinition>, id: string): (r: Option<ServiceDefinition>)
    ensures r.None? <==> forall i :: 0 <= i < |services| ==> services[i].id != id
    ensures r.Some? ==> r.value in services && r.value.id == id
  {
    Find(services, (x: ServiceDefinition) => x.id == id)
  }

  function Max(a: int, b: int): int { if a >= b then a else b }

  function Min(a: int, b: int): int { if a <= b then a else b }
}
