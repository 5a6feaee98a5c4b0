/** The audit log of database commands the application would issue. Each command
    is recorded as its action, its table and its parameter list; the statement
    text itself is not modelled. The log is newest-first: every record is put at
    the front, and records are never removed. */
module DbOrchestrator {
  import opened Calendar
  import opened Types

  datatype SqlAction = Insert | Update | Delete

  datatype Table = MasterItem | Rooms | InvRoom | Reservation | Invoice | InvItemDB

  /** A bound parameter: text, a number, a date, or JavaScript's `undefined`. */
  datatype Param = Text(s: string) | Number(n: int) | Date(day: Day) | Undefined

  datatype SqlCommand = SqlCommand(action: SqlAction, table: Table, params: seq<Param>)

  /** The key the InvRoom rows of a booking are stored under. */
  function InvRoomKey(bookingId: string): (k: string)
    ensures |k| == |bookingId| + 3 && k[3..] == bookingId
  {
    "IR-" + bookingId
  }

  function ServiceTypeName(t: ServiceType): string
  {
    match t
    case Rental => "rental"
    case Meal => "meal"
    case Pickup => "pickup"
    case Custom => "custom"
  }

  // ---------------------------------------------------------------------------
  // The records each operation emits, oldest first

  function MasterInsert(s: ServiceDefinition): SqlCommand
  {
    SqlCommand(Insert, MasterItem, [Text(s.id), Text(s.name), Number(s.defaultPrice), Text(ServiceTypeName(s.kind))])
  }

  /** `syncServicesMaster`: clear the catalogue table, then one insert per service. */
  function MasterSyncRecords(services: seq<ServiceDefinition>): seq<SqlCommand>
  {
    if services == [] then [SqlCommand(Delete, MasterItem, [])]
    else MasterSyncRecords(services[..|services| - 1]) + [MasterInsert(services[|services| - 1])]
  }

  /** 1 + n records: the delete first, then the inserts in catalogue order. */
  lemma {:induction false} MasterSyncShape(services: seq<ServiceDefinition>)
    ensures var r := MasterSyncRecords(services);
      && |r| == 1 + |services|
      && r[0] == SqlCommand(Delete, MasterItem, [])
      && forall i :: 0 <= i < |services| ==> r[i + 1] == MasterInsert(services[i])
  {
    if services != [] {
      MasterSyncShape(services[..|services| - 1]);
    }
  }

  function Flag(b: bool): Param
  {
    Number(if b then 1 else 0)
  }

  /** `syncRoom`: one insert for a new room, one update for an existing one. */
  function RoomRecord(room: Room, isNew: bool): SqlCommand
  {
    if isNew then
      SqlCommand(Insert, Rooms, [Text(room.id), Text(room.name), Text(room.kind), Number(room.capacity), Number(room.baseCapacity),
                                 Number(room.extraPersonPrice), Number(room.price), Text(room.color), Flag(room.hasBathroom),
                                 Text(room.description), Text(room.building), Text(room.roomNumber)])
    else
      SqlCommand(Update, Rooms, [Text(room.name), Text(room.kind), Number(room.capacity), Number(room.baseCapacity),
                                 Number(room.extraPersonPrice), Number(room.price), Text(room.color), Flag(room.hasBathroom),
                                 Text(room.description), Text(room.building), Text(room.roomNumber), Text(room.id)])
  }

  function DeleteRoomRecord(id: string): SqlCommand
  {
    SqlCommand(Delete, Rooms, [Text(id)])
  }

  /** `syncService`: one invoice item. The item's `days` is never set, so it is logged as `undefined`. */
  function ServiceRecord(s: BookedService, invoiceId: string): SqlCommand
  {
    SqlCommand(Insert, InvItemDB, [Text(s.id), Text(invoiceId), Text(s.serviceId), Text(s.name), Number(s.price),
                                   Number(s.quantity), Date(s.startDate), Date(s.endDate), Undefined])
  }

  /** The records of `bookedServices.forEach(s => syncService(s, invoiceId))`. */
  function ServiceRecords(services: seq<BookedService>, invoiceId: string): seq<SqlCommand>
  {
    if services == [] then []
    else ServiceRecords(services[..|services| - 1], invoiceId) + [ServiceRecord(services[|services| - 1], invoiceId)]
  }

  /** One item per service, in list order. */
  lemma {:induction false} ServiceRecordsShape(services: seq<BookedService>, invoiceId: string)
    ensures var r := ServiceRecords(services, invoiceId);
      && |r| == |services|
      && forall i :: 0 <= i < |services| ==> r[i] == ServiceRecord(services[i], invoiceId)
  {
    if services != [] {
      ServiceRecordsShape(services[..|services| - 1], invoiceId);
    }
  }

  /** The records `syncBooking` emits before its service loop. */
  function BookingHeaderRecords(b: Booking, isNew: bool, room: Room): seq<SqlCommand>
  {
    var key := InvRoomKey(b.id);
    if isNew then
      [ SqlCommand(Insert, InvRoom, [Text(key), Text(room.id), Text(room.name), Number(room.price), Number(room.capacity)]),
        SqlCommand(Insert, Reservation, [Text(b.id), Text(b.roomId), Text(b.guestName), Number(b.guestCount), Date(b.startDate),
                                         Date(b.endDate), Text(StatusName(b.status)), Number(b.amount), Text(b.invoiceId)]),
        SqlCommand(Insert, Invoice, [Text(b.invoiceId), Text(b.id), Text(key), Number(b.amount), Text("DRAFT")]) ]
    else
      [ SqlCommand(Update, InvRoom, [Text(room.id), Text(room.name), Number(room.price), Text(key)]),
        SqlCommand(Update, Reservation, [Text(b.roomId), Text(b.guestName), Number(b.guestCount), Date(b.startDate),
                                         Date(b.endDate), Text(StatusName(b.status)), Number(b.amount), Text(b.id)]),
        SqlCommand(Update, Invoice, [Number(b.amount), Text(b.invoiceId)]),
        SqlCommand(Delete, InvItemDB, [Text(b.invoiceId)]) ]
  }

  function BookingSyncRecords(b: Booking, isNew: bool, room: Room): seq<SqlCommand>
  {
    BookingHeaderRecords(b, isNew, room) + ServiceRecords(b.bookedServices, b.invoiceId)
  }

  /** `deleteBooking`: the reservation and its InvRoom row, then, when the booking
      has an invoice, the invoice's items and the invoice. */
  function DeleteBookingRecords(id: string, invoiceId: string): seq<SqlCommand>
  {
    [SqlCommand(Delete, Reservation, [Text(id)]), SqlCommand(Delete, InvRoom, [Text(InvRoomKey(id))])]
    + (if invoiceId != "" then [SqlCommand(Delete, InvItemDB, [Text(invoiceId)]), SqlCommand(Delete, Invoice, [Text(invoiceId)])] else [])
  }

  // ---------------------------------------------------------------------------
  // Properties of the emitted records

  /** A new booking emits InvRoom, Reservation and a draft Invoice for the booking's
      amount, all keyed by the booking, then one item per service in list order. */
  lemma NewBookingRecords(b: Booking, room: Room)
    ensures var r := BookingSyncRecords(b, true, room);
      && |r| == 3 + |b.bookedServices|
      && r[0].action == Insert && r[0].table == InvRoom && r[0].params[0] == Text("IR-" + b.id)
      && r[1].action == Insert && r[1].table == Reservation && r[1].params[0] == Text(b.id)
      && r[2] == SqlCommand(Insert, Invoice, [Text(b.invoiceId), Text(b.id), Text("IR-" + b.id), Number(b.amount), Text("DRAFT")])
      && (forall i :: 0 <= i < |b.bookedServices| ==> r[3 + i] == ServiceRecord(b.bookedServices[i], b.invoiceId))
  {
    ServiceRecordsShape(b.bookedServices, b.invoiceId);
  }

  /** An existing booking updates InvRoom, Reservation and the Invoice total, clears
      the invoice's items and re-inserts one per service in list order. */
  lemma UpdatedBookingRecords(b: Booking, room: Room)
    ensures var r := BookingSyncRecords(b, false, room);
      && |r| == 4 + |b.bookedServices|
      && r[0].action == Update && r[0].table == InvRoom && r[0].params[3] == Text("IR-" + b.id)
      && r[1].action == Update && r[1].table == Reservation && r[1].params[7] == Text(b.id)
      && r[2] == SqlCommand(Update, Invoice, [Number(b.amount), Text(b.invoiceId)])
      && r[3] == SqlCommand(Delete, InvItemDB, [Text(b.invoiceId)])
      && (forall i :: 0 <= i < |b.bookedServices| ==> r[4 + i] == ServiceRecord(b.bookedServices[i], b.invoiceId))
  {
    ServiceRecordsShape(b.bookedServices, b.invoiceId);
  }

  /** Deleting a booking emits two records without an invoice and four with one; the
      items go before the invoice they belong to. */
  lemma DeleteBookingRecordsSpec(id: string, invoiceId: string)
    ensures var r := DeleteBookingRecords(id, invoiceId);
      && |r| == (if invoiceId == "" then 2 else 4)
      && r[1] == SqlCommand(Delete, InvRoom, [Text("IR-" + id)])
      && (invoiceId != "" ==> r[2].table == InvItemDB && r[3].table == Invoice)
      && (forall i :: 0 <= i < |r| ==> r[i].action == Delete)
  {
  }

  // ---------------------------------------------------------------------------
  // Newest-first order

  /** A chronological sequence of records as the log holds them, newest first. */
  function Reversed(s: seq<SqlCommand>): (r: seq<SqlCommand>)
    ensures |r| == |s|
  {
    if s == [] then [] else [s[|s| - 1]] + Reversed(s[..|s| - 1])
  }

  /** The log's entry `i` is the `i`-th most recent record. */
  lemma {:induction false} ReversedIndex(s: seq<SqlCommand>)
    ensures forall i :: 0 <= i < |s| ==> Reversed(s)[i] == s[|s| - 1 - i]
  {
    if s != [] {
      ReversedIndex(s[..|s| - 1]);
    }
  }

  lemma ReversedSnoc(s: seq<SqlCommand>, x: SqlCommand)
    ensures Reversed(s + [x]) == [x] + Reversed(s)
  {
    assert (s + [x])[..|s|] == s;
  }

  /** Putting one more record on top of a logged batch is logging the longer batch. */
  lemma PushBatch(batch: seq<SqlCommand>, x: SqlCommand, log: seq<SqlCommand>)
    ensures [x] + (Reversed(batch) + log) == Reversed(batch + [x]) + log
  {
    ReversedSnoc(batch, x);
    assert [x] + (Reversed(batch) + log) == ([x] + Reversed(batch)) + log;
  }

  /** The log-side view of emitting two batches one after the other. */
  lemma {:induction false} ReversedConcat(a: seq<SqlCommand>, b: seq<SqlCommand>)
    ensures Reversed(a + b) == Reversed(b) + Reversed(a)
    decreases |b|
  {
    if b == [] {
      assert a + b == a;
    } else {
      var init := b[..|b| - 1];
      var last := b[|b| - 1];
      assert a + b == (a + init) + [last];
      assert b == init + [last];
      ReversedSnoc(a + init, last);
      ReversedSnoc(init, last);
      ReversedConcat(a, init);
    }
  }

  /** The single log the application appends to. */
  class DBOrchestrator {
    var sqlLog: seq<SqlCommand>

    constructor ()
      ensures sqlLog == []
    {
      sqlLog := [];
    }

    /** `getLog`. */
    method GetLog() returns (log: seq<SqlCommand>)
      ensures log == sqlLog
    {
      log := sqlLog;
    }

    /** `log`: the record becomes the newest entry and the rest of the log is kept. */
    method Log(c: SqlCommand)
      modifies this
      ensures sqlLog == [c] + old(sqlLog)
      ensures sqlLog[0] == c && sqlLog[1..] == old(sqlLog)
    {
      sqlLog := [c] + sqlLog;
    }

    method SyncServicesMaster(services: seq<ServiceDefinition>)
      modifies this
      ensures sqlLog == Reversed(MasterSyncRecords(services)) + old(sqlLog)
    {
      Log(SqlCommand(Delete, MasterItem, []));
      assert services[..0] == [];
      var i := 0;
      while i < |services|
        invariant 0 <= i <= |services|
        invariant sqlLog == Reversed(MasterSyncRecords(services[..i])) + old(sqlLog)
      {
        var rec := MasterInsert(services[i]);
        assert MasterSyncRecords(services[..i + 1]) == MasterSyncRecords(services[..i]) + [rec] by {
          assert services[..i + 1][..i] == services[..i];
        }
        PushBatch(MasterSyncRecords(services[..i]), rec, old(sqlLog));
        Log(rec);
        i := i + 1;
      }
      assert services[..i] == services;
    }

    method SyncRoom(room: Room, isNew: bool)
      modifies this
      ensures sqlLog == [RoomRecord(room, isNew)] + old(sqlLog)
    {
      Log(RoomRecord(room, isNew));
    }

    method DeleteRoom(id: string)
      modifies this
      ensures sqlLog == [DeleteRoomRecord(id)] + old(sqlLog)
    {
      Log(DeleteRoomRecord(id));
    }

    method SyncService(s: BookedService, invoiceId: string)
      modifies this
      ensures sqlLog == [ServiceRecord(s, invoiceId)] + old(sqlLog)
    {
      Log(ServiceRecord(s, invoiceId));
    }

    /** The `forEach` over a booking's services. */
    method SyncServices(services: seq<BookedService>, invoiceId: string)
      modifies this
      ensures sqlLog == Reversed(ServiceRecords(services, invoiceId)) + old(sqlLog)
    {
      assert services[..0] == [];
      var i := 0;
      while i < |services|
        invariant 0 <= i <= |services|
        invariant sqlLog == Reversed(ServiceRecords(services[..i], invoiceId)) + old(sqlLog)
      {
        var rec := ServiceRecord(services[i], invoiceId);
        assert ServiceRecords(services[..i + 1], invoiceId) == ServiceRecords(services[..i], invoiceId) + [rec] by {
          assert services[..i + 1][..i] == services[..i];
        }
        PushBatch(ServiceRecords(services[..i], invoiceId), rec, old(sqlLog));
        SyncService(services[i], invoiceId);
        i := i + 1;
      }
      assert services[..i] == services;
    }

    /** The records `syncBooking` logs before its service loop. */
    method SyncBookingHeader(b: Booking, isNew: bool, room: Room)
      modifies this
      ensures sqlLog == Reversed(BookingHeaderRecords(b, isNew, room)) + old(sqlLog)
    {
      var h := BookingHeaderRecords(b, isNew, room);
      ReversedIndex(h);
      if isNew {
        Log(h[0]);
        Log(h[1]);
        Log(h[2]);
        assert Reversed(h) == [h[2], h[1], h[0]];
      } else {
        Log(h[0]);
        Log(h[1]);
        Log(h[2]);
        Log(h[3]);
        assert Reversed(h) == [h[3], h[2], h[1], h[0]];
      }
    }

    method SyncBooking(b: Booking, isNew: bool, room: Room)
      modifies this
      ensures sqlLog == Reversed(BookingSyncRecords(b, isNew, room)) + old(sqlLog)
    {
      var header := BookingHeaderRecords(b, isNew, room);
      SyncBookingHeader(b, isNew, room);
      SyncServices(b.bookedServices, b.invoiceId);
      var items := ServiceRecords(b.bookedServices, b.invoiceId);
      ReversedConcat(header, items);
      assert Reversed(items) + (Reversed(header) + old(sqlLog)) == (Reversed(items) + Reversed(header)) + old(sqlLog);
    }

    method DeleteBooking(id: string, invoiceId: string)
      modifies this
      ensures sqlLog == Reversed(DeleteBookingRecords(id, invoiceId)) + old(sqlLog)
    {
      Log(SqlCommand(Delete, Reservation, [Text(id)]));
      Log(SqlCommand(Delete, InvRoom, [Text(InvRoomKey(id))]));
      if invoiceId != "" {
        Log(SqlCommand(Delete, InvItemDB, [Text(invoiceId)]));
        Log(SqlCommand(Delete, Invoice, [Text(invoiceId)]));
      }
      ReversedIndex(DeleteBookingRecords(id, invoiceId));
    }
  }

  /** After any batch, the newest log entry is the batch's last record and the
      previous log is kept below it, so the log only grows. */
  lemma BatchOnTop(batch: seq<SqlCommand>, before: seq<SqlCommand>)
    requires |batch| > 0
    ensures var after := Reversed(batch) + before;
      && after[0] == batch[|batch| - 1]
      && after[|batch|..] == before
      && |after| == |batch| + |before|
  {
    ReversedIndex(batch);
  }
}
