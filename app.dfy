/** The application's state: the room, service and booking lists, and whether the
    booking dialog is open and with what. Every handler replaces a list with one
    built by append, `map` or `filter`. */
module App {
  import opened Calendar
  import opened Seqs
  import opened Types
  import BookingModal

  /** `handleSaveBooking`'s list: the booking replaces every entry with its id when
      there is one, and is appended otherwise. */
  function UpsertBooking(bookings: seq<Booking>, b: Booking): seq<Booking>
  {
    match Find(bookings, (x: Booking) => x.id == b.id)
    case Some(_) => Replace(bookings, (x: Booking) => x.id == b.id, b)
    case None => bookings + [b]
  }

  /** `bookings.filter(b => b.id !== id)`. */
  function RemoveBooking(bookings: seq<Booking>, id: string): seq<Booking>
  {
    Filter(bookings, (x: Booking) => x.id != id)
  }

  /** `rooms.map(r => r.id === room.id ? room : r)`. */
  function ReplaceRoom(rooms: seq<Room>, room: Room): seq<Room>
  {
    Replace(rooms, (x: Room) => x.id == room.id, room)
  }

  /** `rooms.filter(r => r.id !== id)`. */
  function RemoveRoom(rooms: seq<Room>, id: string): seq<Room>
  {
    Filter(rooms, (x: Room) => x.id != id)
  }

  /** Saving a booking whose id is listed replaces it in place: same length, and
      every entry with another id is untouched. */
  lemma UpsertExisting(bookings: seq<Booking>, b: Booking, k: nat)
    requires k < |bookings| && bookings[k].id == b.id
    ensures var r := UpsertBooking(bookings, b);
      && |r| == |bookings|
      && (forall i :: 0 <= i < |bookings| ==> r[i] == if bookings[i].id == b.id then b else bookings[i])
  {
    var found := Find(bookings, (x: Booking) => x.id == b.id);
    if found.None? {
      assert false;
    }
  }

  /** Saving a booking whose id is not listed appends it at the end. */
  lemma UpsertNew(bookings: seq<Booking>, b: Booking)
    requires forall i :: 0 <= i < |bookings| ==> bookings[i].id != b.id
    ensures UpsertBooking(bookings, b) == bookings + [b]
  {
  }

  /** After a save, looking the id up finds the saved booking. */
  lemma UpsertThenFind(bookings: seq<Booking>, b: Booking)
    ensures Find(UpsertBooking(bookings, b), (x: Booking) => x.id == b.id) == Some(b)
  {
    var r := UpsertBooking(bookings, b);
    var p := (x: Booking) => x.id == b.id;
    match Find(bookings, p)
    case Some(_) =>
      var k :| 0 <= k < |bookings| && p(bookings[k]);
      assert p(r[k]);
      FindOnlyValue(r, p, b);
    case None =>
      assert p(r[|bookings|]);
      FindOnlyValue(r, p, b);
  }

  /** Saving the same booking twice leaves the list as saving it once. */
  lemma UpsertIdempotent(bookings: seq<Booking>, b: Booking)
    ensures UpsertBooking(UpsertBooking(bookings, b), b) == UpsertBooking(bookings, b)
  {
    var once := UpsertBooking(bookings, b);
    UpsertThenFind(bookings, b);
    var p := (x: Booking) => x.id == b.id;
    assert UpsertBooking(once, b) == Replace(once, p, b);
    ReplaceIdempotent(bookings, p, b);
    if Find(bookings, p).None? {
      forall i | 0 <= i < |once| ensures Replace(once, p, b)[i] == once[i] {
        if i < |bookings| {
          assert !p(once[i]);
        }
      }
    }
  }

  /** Deleting removes exactly the bookings with that id and keeps the rest in order. */
  lemma RemoveBookingSpec(bookings: seq<Booking>, id: string)
    ensures var r := RemoveBooking(bookings, id);
      && (forall i :: 0 <= i < |r| ==> r[i].id != id && r[i] in bookings)
      && (forall i :: 0 <= i < |bookings| && bookings[i].id != id ==> bookings[i] in r)
      && (forall a, b :: a + b == bookings ==> r == RemoveBooking(a, id) + RemoveBooking(b, id))
  {
    forall a, b | a + b == bookings
      ensures RemoveBooking(bookings, id) == RemoveBooking(a, id) + RemoveBooking(b, id)
    {
      FilterConcat(a, b, (x: Booking) => x.id != id);
    }
  }

  /** Deleting an id that is not listed changes nothing. */
  lemma RemoveAbsentBooking(bookings: seq<Booking>, id: string)
    requires forall i :: 0 <= i < |bookings| ==> bookings[i].id != id
    ensures RemoveBooking(bookings, id) == bookings
  {
    FilterAllPass(bookings, (x: Booking) => x.id != id);
  }

  /** Updating a room replaces the entries with its id and no others. */
  lemma ReplaceRoomSpec(rooms: seq<Room>, room: Room)
    ensures var r := ReplaceRoom(rooms, room);
      && |r| == |rooms|
      && (forall i :: 0 <= i < |rooms| && rooms[i].id != room.id ==> r[i] == rooms[i])
      && (forall i :: 0 <= i < |rooms| && rooms[i].id == room.id ==> r[i] == room)
      && ((forall i :: 0 <= i < |rooms| ==> rooms[i].id != room.id) ==> r == rooms)
  {
    if forall i :: 0 <= i < |rooms| ==> rooms[i].id != room.id {
      ReplaceNoMatch(rooms, (x: Room) => x.id == room.id, room);
    }
  }

  /** The application's state fields. */
  class AppState {
    var rooms: seq<Room>
    var services: seq<ServiceDefinition>
    var bookings: seq<Booking>
    var isModalOpen: bool
    /** What the dialog is opened with; `None` before the first opening. */
    var editingBooking: Option<BookingSeed>

    constructor (rooms: seq<Room>, services: seq<ServiceDefinition>, bookings: seq<Booking>)
      ensures this.rooms == rooms && this.services == services && this.bookings == bookings
      ensures !isModalOpen && editingBooking == None
    {
      this.rooms := rooms;
      this.services := services;
      this.bookings := bookings;
      isModalOpen := false;
      editingBooking := None;
    }

    /** `handleAddBooking`: `Blank` stands for the call without pre-data, which seeds
        `{ bookedServices: [] }`; the quick-book gesture passes a room and a day. */
    method HandleAddBooking(preData: BookingSeed)
      requires !preData.Existing?
      modifies this
      ensures editingBooking == Some(preData) && isModalOpen
      ensures rooms == old(rooms) && services == old(services) && bookings == old(bookings)
    {
      editingBooking := Some(preData);
      isModalOpen := true;
    }

    /** `handleEditBooking`: opens the dialog on an existing booking. */
    method HandleEditBooking(b: Booking)
      modifies this
      ensures editingBooking == Some(Existing(b)) && isModalOpen
      ensures rooms == old(rooms) && services == old(services) && bookings == old(bookings)
    {
      editingBooking := Some(Existing(b));
      isModalOpen := true;
    }

    /** The dialog, mounted afresh each time it opens, over the current rooms and services.
        Once every room has been deleted the mount throws and there is no form (`null`). */
    method OpenModal(today: Day) returns (form: BookingModal.BookingForm?)
      requires isModalOpen && editingBooking.Some?
      ensures form == null <==> |rooms| == 0
      ensures form != null ==> fresh(form) && form.rooms == rooms && form.services == services && form.AmountCurrent()
      ensures form != null && !editingBooking.value.Existing? ==> form.draft.bookedServices == [] && form.draft.id == ""
      ensures form != null && editingBooking.value.Existing? ==>
        form.draft == editingBooking.value.booking.(amount := form.draft.amount)
    {
      form := BookingModal.OpenBookingForm(rooms, services, today, editingBooking.value);
    }

    /** `handleSaveBooking`: upsert by id, then close the dialog. */
    method HandleSaveBooking(b: Booking)
      modifies this
      ensures bookings == UpsertBooking(old(bookings), b)
      ensures !isModalOpen
      ensures rooms == old(rooms) && services == old(services) && editingBooking == old(editingBooking)
    {
      bookings := UpsertBooking(bookings, b);
      isModalOpen := false;
    }

    /** `handleDeleteBooking`: removes the bookings with that id, then closes the dialog. */
    method HandleDeleteBooking(id: string)
      modifies this
      ensures bookings == RemoveBooking(old(bookings), id)
      ensures !isModalOpen
      ensures rooms == old(rooms) && services == old(services) && editingBooking == old(editingBooking)
    {
      bookings := RemoveBooking(bookings, id);
      isModalOpen := false;
    }

    /** The dialog's close button. */
    method CloseModal()
      modifies this
      ensures !isModalOpen
      ensures rooms == old(rooms) && services == old(services) && bookings == old(bookings) && editingBooking == old(editingBooking)
    {
      isModalOpen := false;
    }

    /** `handleAddRoom`. */
    method HandleAddRoom(room: Room)
      modifies this
      ensures rooms == old(rooms) + [room]
      ensures services == old(services) && bookings == old(bookings)
      ensures isModalOpen == old(isModalOpen) && editingBooking == old(editingBooking)
    {
      rooms := rooms + [room];
    }

    /** `handleUpdateRoom`. */
    method HandleUpdateRoom(room: Room)
      modifies this
      ensures rooms == ReplaceRoom(old(rooms), room)
      ensures services == old(services) && bookings == old(bookings)
      ensures isModalOpen == old(isModalOpen) && editingBooking == old(editingBooking)
    {
      rooms := ReplaceRoom(rooms, room);
    }

    /** `handleDeleteRoom`: the confirmation dialog's answer is `confirmed`. The
        room's bookings stay in the list. */
    method HandleDeleteRoom(roomId: string, confirmed: bool)
      modifies this
      ensures rooms == if confirmed then RemoveRoom(old(rooms), roomId) else old(rooms)
      ensures services == old(services) && bookings == old(bookings)
      ensures isModalOpen == old(isModalOpen) && editingBooking == old(editingBooking)
    {
      if confirmed {
        rooms := RemoveRoom(rooms, roomId);
      }
    }

    /** `handleUpdateServices`: the catalogue is replaced wholesale. */
    method HandleUpdateServices(updated: seq<ServiceDefinition>)
      modifies this
      ensures services == updated
      ensures rooms == old(rooms) && bookings == old(bookings)
      ensures isModalOpen == old(isModalOpen) && editingBooking == old(editingBooking)
    {
      services := updated;
    }
  }
}
