/** The booking dialog: night and weekday counting, the pricing of a stay and of
    its booked services, the status action offered for a booking, and the edit
    session whose `amount` field the dialog recomputes on every change. */
module BookingModal {
  import opened Calendar
  import opened Seqs
  import opened Types

  // ---------------------------------------------------------------------------
  // Counting nights and weekdays

  /** `getDayDiff`: the nights from `start` to `end`, never negative. */
  function DayDiff(start: Day, end: Day): (n: nat)
    ensures n >= end - start
    ensures n == 0 || n == end - start
  {
    if end > start then end - start else 0
  }

  /** Monday to Friday. */
  predicate IsWeekday(d: Day)
  {
    Weekday(d) != 0 && Weekday(d) != 6
  }

  /** The number of days in `[start, end)` that are Monday to Friday. */
  function WeekdaysIn(start: Day, end: Day): nat
    decreases end - start
  {
    if end <= start then 0
    else WeekdaysIn(start, end - 1) + (if IsWeekday(end - 1) then 1 else 0)
  }

  /** `getWeekdaysCount`: steps a date from `start` to `end` and counts the weekdays. */
  method GetWeekdaysCount(start: Day, end: Day) returns (count: nat)
    ensures count == WeekdaysIn(start, end)
  {
    count := 0;
    var curr := start;
    while curr < end
      invariant start <= curr
      invariant start <= end ==> curr <= end
      invariant end < start ==> curr == start
      invariant count == WeekdaysIn(start, curr)
      decreases end - curr
    {
      var day := Weekday(curr);
      if day != 0 && day != 6 {
        count := count + 1;
      }
      curr := curr + 1;
    }
  }

  /** There are never more weekdays than nights, and none in an empty or inverted range. */
  lemma {:induction false} WeekdaysAtMostNights(start: Day, end: Day)
    ensures WeekdaysIn(start, end) <= DayDiff(start, end)
    ensures end <= start ==> WeekdaysIn(start, end) == 0
    decreases end - start
  {
    if end > start {
      WeekdaysAtMostNights(start, end - 1);
    }
  }

  /** Weekday counts add up over adjacent ranges. */
  lemma {:induction false} WeekdaysSplit(start: Day, mid: Day, end: Day)
    requires start <= mid <= end
    ensures WeekdaysIn(start, end) == WeekdaysIn(start, mid) + WeekdaysIn(mid, end)
    decreases end - mid
  {
    if end > mid {
      WeekdaysSplit(start, mid, end - 1);
    }
  }

  /** Any seven consecutive days hold exactly five weekdays. */
  lemma WeekdaysInAWeek(start: Day)
    ensures WeekdaysIn(start, start + 7) == 5
  {
    WeekdayStep(start);
    WeekdayStep(start + 1);
    WeekdayStep(start + 2);
    WeekdayStep(start + 3);
    WeekdayStep(start + 4);
    WeekdayStep(start + 5);
    assert WeekdaysIn(start, start) == 0;
    assert WeekdaysIn(start, start + 1) == (if IsWeekday(start) then 1 else 0);
    assert WeekdaysIn(start, start + 2) == WeekdaysIn(start, start + 1) + (if IsWeekday(start + 1) then 1 else 0);
    assert WeekdaysIn(start, start + 3) == WeekdaysIn(start, start + 2) + (if IsWeekday(start + 2) then 1 else 0);
    assert WeekdaysIn(start, start + 4) == WeekdaysIn(start, start + 3) + (if IsWeekday(start + 3) then 1 else 0);
    assert WeekdaysIn(start, start + 5) == WeekdaysIn(start, start + 4) + (if IsWeekday(start + 4) then 1 else 0);
    assert WeekdaysIn(start, start + 6) == WeekdaysIn(start, start + 5) + (if IsWeekday(start + 5) then 1 else 0);
    assert WeekdaysIn(start, start + 7) == WeekdaysIn(start, start + 6) + (if IsWeekday(start + 6) then 1 else 0);
  }

  /** `k` whole weeks hold exactly `5 k` weekdays. */
  lemma {:induction false} WeekdaysInWeeks(start: Day, k: nat)
    ensures WeekdaysIn(start, start + 7 * k) == 5 * k
  {
    if k > 0 {
      WeekdaysInWeeks(start, k - 1);
      WeekdaysSplit(start, start + 7 * (k - 1), start + 7 * k);
      WeekdaysInAWeek(start + 7 * (k - 1));
    }
  }

  // ---------------------------------------------------------------------------
  // Pricing

  /** The days a booked service is billed for: a meal bills each weekday of its
      range, every other service each night with a minimum of one. */
  function BilledDays(isMeal: bool, start: Day, end: Day): (n: nat)
    ensures isMeal ==> n <= DayDiff(start, end)
    ensures !isMeal ==> n >= 1 && n >= DayDiff(start, end)
    ensures !isMeal && end > start ==> n == end - start
  {
    WeekdaysAtMostNights(start, end);
    if isMeal then WeekdaysIn(start, end) else if DayDiff(start, end) >= 1 then DayDiff(start, end) else 1
  }

  /** `def?.type === 'meal'` for the definition a booked service refers to; an
      unknown definition bills like a non-meal service. */
  function IsMealService(services: seq<ServiceDefinition>, serviceId: string): bool
  {
    match FindService(services, serviceId)
    case Some(def) => def.kind == Meal
    case None => false
  }

  /** Unit price times billed days times quantity. */
  function ServicePrice(basePrice: int, isMeal: bool, start: Day, end: Day, quantity: int): int
  {
    basePrice * BilledDays(isMeal, start, end) * quantity
  }

  /** A booked service whose price is the one its own fields determine. */
  predicate PricedService(services: seq<ServiceDefinition>, s: BookedService)
  {
    s.price == ServicePrice(s.basePrice, IsMealService(services, s.serviceId), s.startDate, s.endDate, s.quantity)
  }

  predicate AllPriced(services: seq<ServiceDefinition>, booked: seq<BookedService>)
  {
    forall i :: 0 <= i < |booked| ==> PricedService(services, booked[i])
  }

  /** `bookedServices.reduce((acc, s) => acc + s.price, 0)`. */
  function SumPrices(booked: seq<BookedService>): int
  {
    if booked == [] then 0 else SumPrices(booked[..|booked| - 1]) + booked[|booked| - 1].price
  }

  lemma SumPricesAppend(booked: seq<BookedService>, s: BookedService)
    ensures SumPrices(booked + [s]) == SumPrices(booked) + s.price
  {
    assert (booked + [s])[..|booked|] == booked;
  }

  /** The price of a stay when `baseline` guests are covered by the room's price:
      zero for an unknown room, otherwise the nightly rate plus a surcharge for
      every guest above the baseline, per night, plus the booked services. */
  function TotalAmount(rooms: seq<Room>, roomId: string, start: Day, end: Day, guestCount: int,
                       booked: seq<BookedService>, extraPrice: int, baseline: int): int
  {
    match FindRoom(rooms, roomId)
    case None => 0
    case Some(room) =>
      var nights := DayDiff(start, end);
      var extraGuests := Max(0, guestCount - baseline);
      (room.price + extraGuests * extraPrice) * nights + SumPrices(booked)
  }

  /** A room id no room has prices the stay at zero. */
  lemma UnknownRoomIsFree(rooms: seq<Room>, roomId: string, start: Day, end: Day, guestCount: int,
                          booked: seq<BookedService>, extraPrice: int, baseline: int)
    requires forall i :: 0 <= i < |rooms| ==> rooms[i].id != roomId
    ensures TotalAmount(rooms, roomId, start, end, guestCount, booked, extraPrice, baseline) == 0
  {
  }

  /** Otherwise the stay is rated by the first room with that id, the one `find`
      returns: its nightly rate plus the surcharge, per night, plus the services. */
  lemma TotalAmountSpec(rooms: seq<Room>, roomId: string, start: Day, end: Day, guestCount: int,
                        booked: seq<BookedService>, extraPrice: int, baseline: int, i: nat)
    requires i < |rooms| && rooms[i].id == roomId
    requires forall j :: 0 <= j < i ==> rooms[j].id != roomId
    ensures TotalAmount(rooms, roomId, start, end, guestCount, booked, extraPrice, baseline)
         == (rooms[i].price + Max(0, guestCount - baseline) * extraPrice) * DayDiff(start, end) + SumPrices(booked)
  {
    FindFirst(rooms, (x: Room) => x.id == roomId, i);
  }

  /** `calculateTotalAmount` as written: the surcharge starts with the second guest. */
  function CalculateTotalAmount(rooms: seq<Room>, roomId: string, start: Day, end: Day, guestCount: int,
                                booked: seq<BookedService>, extraPrice: int): int
  {
    TotalAmount(rooms, roomId, start, end, guestCount, booked, extraPrice, 1)
  }

  /** For a known room the amount is the room total plus the service total, the two
      figures the dialog shows beside it. */
  lemma TotalIsRoomPlusServices(rooms: seq<Room>, roomId: string, start: Day, end: Day, guestCount: int,
                                booked: seq<BookedService>, extraPrice: int, baseline: int)
    requires FindRoom(rooms, roomId).Some?
    ensures TotalAmount(rooms, roomId, start, end, guestCount, booked, extraPrice, baseline)
         == TotalAmount(rooms, roomId, start, end, guestCount, [], extraPrice, baseline) + SumPrices(booked)
  {
  }

  /** Longer stays never cost less, when neither the rate nor the surcharge is negative. */
  lemma TotalMonotoneInNights(rooms: seq<Room>, roomId: string, start: Day, end1: Day, end2: Day, guestCount: int,
                              booked: seq<BookedService>, extraPrice: int, baseline: int)
    requires end1 <= end2 && extraPrice >= 0
    requires forall i :: 0 <= i < |rooms| && rooms[i].id == roomId ==> rooms[i].price >= 0
    ensures TotalAmount(rooms, roomId, start, end1, guestCount, booked, extraPrice, baseline)
         <= TotalAmount(rooms, roomId, start, end2, guestCount, booked, extraPrice, baseline)
  {
    match FindRoom(rooms, roomId)
    case None =>
    case Some(room) =>
      var rate := room.price + Max(0, guestCount - baseline) * extraPrice;
      assert rate >= 0;
      assert DayDiff(start, end1) <= DayDiff(start, end2);
      MulMonotone(rate, DayDiff(start, end1), DayDiff(start, end2));
  }

  /** More guests never cost less, when the surcharge is not negative. */
  lemma TotalMonotoneInGuests(rooms: seq<Room>, roomId: string, start: Day, end: Day, guests1: int, guests2: int,
                              booked: seq<BookedService>, extraPrice: int, baseline: int)
    requires guests1 <= guests2 && extraPrice >= 0
    ensures TotalAmount(rooms, roomId, start, end, guests1, booked, extraPrice, baseline)
         <= TotalAmount(rooms, roomId, start, end, guests2, booked, extraPrice, baseline)
  {
    match FindRoom(rooms, roomId)
    case None =>
    case Some(room) =>
      var n := DayDiff(start, end);
      MulMonotone(extraPrice, Max(0, guests1 - baseline), Max(0, guests2 - baseline));
      MulMonotone(n, room.price + Max(0, guests1 - baseline) * extraPrice, room.price + Max(0, guests2 - baseline) * extraPrice);
  }

  lemma MulMonotone(a: int, x: int, y: int)
    requires a >= 0 && x <= y
    ensures a * x <= a * y && x * a <= y * a
  {
    assert a * y - a * x == a * (y - x);
  }

  /** The per-head rate only matters when the stay has surcharged guests and nights:
      two rates give the same amount exactly when they are equal or when one of those is missing. */
  lemma ExtraPriceMattersIff(rooms: seq<Room>, roomId: string, start: Day, end: Day, guestCount: int,
                             booked: seq<BookedService>, extra1: int, extra2: int, baseline: int)
    ensures TotalAmount(rooms, roomId, start, end, guestCount, booked, extra1, baseline)
         == TotalAmount(rooms, roomId, start, end, guestCount, booked, extra2, baseline)
        <==> extra1 == extra2 || FindRoom(rooms, roomId).None? || guestCount <= baseline || end <= start
  {
    match FindRoom(rooms, roomId)
    case None =>
    case Some(room) =>
      var k := Max(0, guestCount - baseline);
      var n := DayDiff(start, end);
      Distribute(room.price, k, n, extra1, extra2);
      if k != 0 && n != 0 && extra1 != extra2 {
        NonzeroProduct(k, n, extra1 - extra2);
      }
  }

  lemma Distribute(p: int, k: int, n: int, e1: int, e2: int)
    ensures (p + k * e1) * n - (p + k * e2) * n == k * n * (e1 - e2)
  {
  }

  lemma NonzeroProduct(a: int, b: int, c: int)
    requires a != 0 && b != 0 && c != 0
    ensures a * b * c != 0
  {
    assert a * b != 0;
  }

  // ---------------------------------------------------------------------------
  // Status actions

  /** Which action the dialog's main button offers. */
  datatype ActionLabel = RegisterNew | ConfirmReservation | CheckIn | CheckOut | UpdateDetails

  datatype ActionConfig = ActionConfig(action: ActionLabel, status: BookingStatus)

  /** `getActionConfig`: the action offered for a draft with id `id` (empty when unsaved)
      and status `status`, and the status that saving through it records. */
  function GetActionConfig(id: string, status: BookingStatus): ActionConfig
  {
    if id == "" then ActionConfig(RegisterNew, Pending)
    else match status
      case Pending => ActionConfig(ConfirmReservation, Confirmed)
      case Confirmed => ActionConfig(CheckIn, CheckedIn)
      case CheckedIn => ActionConfig(CheckOut, CheckedOut)
      case _ => ActionConfig(UpdateDetails, status)
  }

  /** Position of a status on the forward path; Cancelled is off the path. */
  function Stage(s: BookingStatus): int
  {
    match s
    case Pending => 0
    case Confirmed => 1
    case CheckedIn => 2
    case CheckedOut => 3
    case Cancelled => -1
  }

  /** For a saved booking the button moves exactly one stage forward, or keeps a
      terminal status; it never cancels and never skips or goes back. */
  lemma ActionIsOneStep(id: string, status: BookingStatus)
    requires id != ""
    ensures var next := GetActionConfig(id, status).status;
      && (next == status <==> status == CheckedOut || status == Cancelled)
      && (next != status ==> Stage(next) == Stage(status) + 1)
      && (next == Cancelled ==> status == Cancelled)
  {
  }

  /** Pressing the button repeatedly, starting from an unsaved draft, walks
      Pending, Confirmed, CheckedIn, CheckedOut and then stays at CheckedOut. */
  lemma ActionWalk(id: string)
    requires id != ""
    ensures var s0 := GetActionConfig("", Pending).status;
      var s1 := GetActionConfig(id, s0).status;
      var s2 := GetActionConfig(id, s1).status;
      var s3 := GetActionConfig(id, s2).status;
      [s0, s1, s2, s3] == [Pending, Confirmed, CheckedIn, CheckedOut]
      && GetActionConfig(id, s3).status == CheckedOut
  {
  }

  /** The booking the form's submit hands to its caller: the offered status, and the
      draft's own id, or, when unsaved, one minted as `b-` and the clock reading `stamp`.
      Either way the id is never empty, so the booking is stored as a saved one. */
  function SubmittedBooking(draft: Booking, stamp: string): (b: Booking)
    ensures b.id != ""
    ensures draft.id != "" ==> b.id == draft.id
    ensures draft.id == "" ==> |b.id| >= 2 && b.id[..2] == "b-" && b.status == Pending
    ensures b.status == GetActionConfig(draft.id, draft.status).status
    ensures b.(id := draft.id, status := draft.status) == draft
  {
    var id := if draft.id != "" then draft.id else "b-" + stamp;
    assert draft.id == "" ==> id[..2] == "b-";
    draft.(status := GetActionConfig(draft.id, draft.status).status, id := id)
  }

  /** The browser's constraint validation, which runs before the form's `onSubmit`: the
      guest name is `required`, and each check-out date input has `min` set to its
      check-in, for the stay and for every booked service. */
  predicate SubmitAllowed(draft: Booking)
  {
    && draft.guestName != ""
    && draft.startDate <= draft.endDate
    && forall i :: 0 <= i < |draft.bookedServices| ==>
         draft.bookedServices[i].startDate <= draft.bookedServices[i].endDate
  }

  // ---------------------------------------------------------------------------
  // Opening the dialog

  /** The dialog's initial form state before a seed is merged in. */
  function InitialDraft(firstRoomId: string, today: Day): Booking
  {
    Booking("", firstRoomId, "", 1, today, today + 1, Pending, "", "", 0, [], "")
  }

  /** `{ ...formData, ...booking, bookedServices: booking.bookedServices || [] }`. */
  function MergeSeed(base: Booking, seed: BookingSeed): (merged: Booking)
    ensures seed.Blank? ==> merged == base.(bookedServices := [])
    ensures seed.QuickBook? ==> merged == base.(roomId := seed.roomId, startDate := seed.startDate, bookedServices := [])
    ensures seed.Existing? ==> merged == seed.booking
  {
    match seed
    case Blank => base.(bookedServices := [])
    case QuickBook(roomId, startDate) => base.(roomId := roomId, startDate := startDate, bookedServices := [])
    case Existing(b) => b
  }

  /** The per-head rate the dialog starts with: that of the draft's room, or of the first
      room, which is only looked at when the draft names no room. */
  function InitialExtraPrice(rooms: seq<Room>, merged: Booking): int
    requires merged.roomId != "" || |rooms| > 0
  {
    match FindRoom(rooms, if merged.roomId != "" then merged.roomId else rooms[0].id)
    case Some(room) => room.extraPersonPrice
    case None => 0
  }

  /** `guestCount || 1`. */
  function OrOne(n: int): int
  {
    if n != 0 then n else 1
  }

  /** A requested guest count capped at the capacity of the draft's room, when that room is known. */
  function CapToRoom(rooms: seq<Room>, roomId: string, value: int): (g: int)
    ensures g <= value
    ensures forall r :: FindRoom(rooms, roomId) == Some(r) ==> g <= r.capacity
  {
    match FindRoom(rooms, roomId)
    case Some(room) => if value > room.capacity then room.capacity else value
    case None => value
  }

  /** A patch to one booked service: the fields the dialog's service editor sets. */
  datatype ServicePatch = ServicePatch(startDate: Option<Day>, endDate: Option<Day>, basePrice: Option<int>, quantity: Option<int>)

  function ApplyPatch(s: BookedService, patch: ServicePatch): BookedService
  {
    s.(startDate := if patch.startDate.Some? then patch.startDate.value else s.startDate,
       endDate := if patch.endDate.Some? then patch.endDate.value else s.endDate,
       basePrice := if patch.basePrice.Some? then patch.basePrice.value else s.basePrice,
       quantity := if patch.quantity.Some? then patch.quantity.value else s.quantity)
  }

  /** A booked service with its price recomputed from its own fields. */
  function Repriced(services: seq<ServiceDefinition>, s: BookedService): (r: BookedService)
    ensures PricedService(services, r)
    ensures r.(price := s.price) == s
  {
    s.(price := ServicePrice(s.basePrice, IsMealService(services, s.serviceId), s.startDate, s.endDate, s.quantity))
  }

  /** `updateServiceDetail`'s list: every entry with id `id` patched and repriced. */
  function UpdateServiceList(services: seq<ServiceDefinition>, booked: seq<BookedService>, id: string, patch: ServicePatch): seq<BookedService>
  {
    seq(|booked|, i requires 0 <= i < |booked| =>
      if booked[i].id == id then Repriced(services, ApplyPatch(booked[i], patch)) else booked[i])
  }

  /** Updating a service leaves the list's length and every other entry alone, and
      the updated entry carries the patched fields and a price derived from them. */
  lemma UpdateServiceListSpec(services: seq<ServiceDefinition>, booked: seq<BookedService>, id: string, patch: ServicePatch)
    ensures var r := UpdateServiceList(services, booked, id, patch);
      && |r| == |booked|
      && (forall i :: 0 <= i < |booked| && booked[i].id != id ==> r[i] == booked[i])
      && (forall i :: 0 <= i < |booked| && booked[i].id == id ==>
            r[i].(price := booked[i].price) == ApplyPatch(booked[i], patch) && PricedService(services, r[i]))
      && (AllPriced(services, booked) ==> AllPriced(services, r))
  {
  }

  /** Applying the same service edit twice is applying it once. */
  lemma UpdateServiceListIdempotent(services: seq<ServiceDefinition>, booked: seq<BookedService>, id: string, patch: ServicePatch)
    ensures UpdateServiceList(services, UpdateServiceList(services, booked, id, patch), id, patch)
         == UpdateServiceList(services, booked, id, patch)
  {
    var once := UpdateServiceList(services, booked, id, patch);
    var twice := UpdateServiceList(services, once, id, patch);
    forall i | 0 <= i < |booked| ensures twice[i] == once[i] {
      if booked[i].id == id {
        assert ApplyPatch(once[i], patch) == ApplyPatch(booked[i], patch).(price := once[i].price);
      }
    }
  }

  /** The dialog's edit session: the booking draft and the adjustable per-head rate. */
  class BookingForm {
    const rooms: seq<Room>
    const services: seq<ServiceDefinition>
    var draft: Booking
    var customExtraPrice: int

    /** The shown amount is the price of the shown fields. */
    predicate AmountCurrent()
      reads this
    {
      draft.amount == CalculateTotalAmount(rooms, draft.roomId, draft.startDate, draft.endDate,
                                           draft.guestCount, draft.bookedServices, customExtraPrice)
    }

    /** Every booked service's price is the one its own fields determine. */
    predicate ServicesPriced()
      reads this
    {
      AllPriced(services, draft.bookedServices)
    }

    /** Opening the dialog: default fields, then the seed merged in, then the price. The
        default fields read the first room, so a form exists only over a non-empty room
        list; `OpenBookingForm` is the mount that also covers the empty one. */
    constructor (rooms: seq<Room>, services: seq<ServiceDefinition>, today: Day, seed: BookingSeed)
      requires |rooms| > 0
      ensures this.rooms == rooms && this.services == services
      ensures var merged := MergeSeed(InitialDraft(rooms[0].id, today), seed);
        && draft == merged.(amount := draft.amount)
        && customExtraPrice == InitialExtraPrice(rooms, merged)
      ensures AmountCurrent()
    {
      this.rooms := rooms;
      this.services := services;
      var merged := MergeSeed(InitialDraft(rooms[0].id, today), seed);
      var extra := InitialExtraPrice(rooms, merged);
      customExtraPrice := extra;
      draft := merged.(amount := CalculateTotalAmount(rooms, merged.roomId, merged.startDate, merged.endDate,
                                                      merged.guestCount, merged.bookedServices, extra));
    }

    /** Reprices the draft with the given per-head rate. */
    method Recompute(extraPrice: int)
      modifies this
      ensures draft == old(draft).(amount := CalculateTotalAmount(rooms, draft.roomId, draft.startDate, draft.endDate,
                                                                  draft.guestCount, draft.bookedServices, extraPrice))
      ensures customExtraPrice == old(customExtraPrice)
    {
      draft := draft.(amount := CalculateTotalAmount(rooms, draft.roomId, draft.startDate, draft.endDate,
                                                     draft.guestCount, draft.bookedServices, extraPrice));
    }

    method HandleGuestNameChange(name: string)
      modifies this
      ensures draft == old(draft).(guestName := name, amount := draft.amount)
      ensures customExtraPrice == old(customExtraPrice)
      ensures AmountCurrent()
      ensures old(ServicesPriced()) ==> ServicesPriced()
    {
      draft := draft.(guestName := name);
      Recompute(customExtraPrice);
    }

    /** A new check-in date moves the check-out date to the following day. */
    method HandleStartDateChange(start: Day)
      modifies this
      ensures draft == old(draft).(startDate := start, endDate := start + 1, amount := draft.amount)
      ensures customExtraPrice == old(customExtraPrice)
      ensures AmountCurrent()
      ensures DayDiff(draft.startDate, draft.endDate) == 1
      ensures old(ServicesPriced()) ==> ServicesPriced()
    {
      draft := draft.(startDate := start, endDate := start + 1);
      Recompute(customExtraPrice);
    }

    /** A check-out date before the check-in date pulls the check-in date back to it. */
    method HandleEndDateChange(end: Day)
      modifies this
      ensures draft == old(draft).(endDate := end, startDate := draft.startDate, amount := draft.amount)
      ensures draft.startDate == if end < old(draft.startDate) then end else old(draft.startDate)
      ensures draft.startDate <= draft.endDate
      ensures customExtraPrice == old(customExtraPrice)
      ensures AmountCurrent()
      ensures old(ServicesPriced()) ==> ServicesPriced()
    {
      var start := if end < draft.startDate then end else draft.startDate;
      draft := draft.(endDate := end, startDate := start);
      Recompute(customExtraPrice);
    }

    /** Choosing a room takes over its per-head rate and caps the guest count at its
        capacity. As in the source, the amount is recomputed with the rate that was
        in effect before the change. */
    method HandleRoomChange(roomId: string)
      modifies this
      ensures draft == old(draft).(roomId := roomId, guestCount := CapToRoom(rooms, roomId, old(draft.guestCount)), amount := draft.amount)
      ensures customExtraPrice == match FindRoom(rooms, roomId)
                                  case Some(room) => room.extraPersonPrice
                                  case None => old(customExtraPrice)
      ensures draft.amount == CalculateTotalAmount(rooms, draft.roomId, draft.startDate, draft.endDate,
                                                   draft.guestCount, draft.bookedServices, old(customExtraPrice))
      ensures old(ServicesPriced()) ==> ServicesPriced()
    {
      var staleExtra := customExtraPrice;
      draft := draft.(roomId := roomId, guestCount := CapToRoom(rooms, roomId, draft.guestCount));
      var room := FindRoom(rooms, roomId);
      if room.Some? {
        customExtraPrice := room.value.extraPersonPrice;
      }
      Recompute(staleExtra);
    }

    /** A guest count requested by the − and + buttons, capped at the room's capacity. */
    method HandleGuestCountChange(value: int)
      modifies this
      ensures draft == old(draft).(guestCount := CapToRoom(rooms, old(draft.roomId), value), amount := draft.amount)
      ensures customExtraPrice == old(customExtraPrice)
      ensures AmountCurrent()
      ensures old(ServicesPriced()) ==> ServicesPriced()
    {
      draft := draft.(guestCount := CapToRoom(rooms, draft.roomId, value));
      Recompute(customExtraPrice);
    }

    /** The minus button. */
    method DecrementGuests()
      modifies this
      ensures draft == old(draft).(guestCount := CapToRoom(rooms, old(draft.roomId), Max(1, OrOne(old(draft.guestCount)) - 1)), amount := draft.amount)
      ensures (forall r :: FindRoom(rooms, draft.roomId) == Some(r) ==> r.capacity >= 1) ==> draft.guestCount >= 1
      ensures customExtraPrice == old(customExtraPrice)
      ensures AmountCurrent()
      ensures old(ServicesPriced()) ==> ServicesPriced()
    {
      HandleGuestCountChange(Max(1, OrOne(draft.guestCount) - 1));
    }

    /** The plus button: one more guest, up to the room's capacity (ten for an unknown or zero-capacity room). */
    method IncrementGuests()
      modifies this
      ensures var limit := match FindRoom(rooms, old(draft.roomId))
                           case Some(room) => if room.capacity != 0 then room.capacity else 10
                           case None => 10;
        draft == old(draft).(guestCount := CapToRoom(rooms, old(draft.roomId), Min(limit, OrOne(old(draft.guestCount)) + 1)), amount := draft.amount)
      ensures old(draft.guestCount) >= 0 && (forall r :: FindRoom(rooms, draft.roomId) == Some(r) ==> r.capacity >= 1)
              ==> draft.guestCount >= 1
      ensures customExtraPrice == old(customExtraPrice)
      ensures AmountCurrent()
      ensures old(ServicesPriced()) ==> ServicesPriced()
    {
      var limit := match FindRoom(rooms, draft.roomId)
                   case Some(room) => if room.capacity != 0 then room.capacity else 10
                   case None => 10;
      HandleGuestCountChange(Min(limit, OrOne(draft.guestCount) + 1));
    }

    /** `handleExtraPriceChange`: a new per-head rate, and the amount at that rate. */
    method HandleExtraPriceChange(extraPrice: int)
      modifies this
      ensures customExtraPrice == extraPrice
      ensures draft == old(draft).(amount := draft.amount)
      ensures AmountCurrent()
      ensures old(ServicesPriced()) ==> ServicesPriced()
    {
      customExtraPrice := extraPrice;
      Recompute(extraPrice);
    }

    /** `addService`: appends the service, billed over the stay's dates, for each guest. */
    method AddService(serviceId: string, newId: string)
      modifies this
      ensures FindService(services, serviceId).None? ==> draft == old(draft)
      ensures FindService(services, serviceId).Some? ==>
        var def := FindService(services, serviceId).value;
        var quantity := OrOne(old(draft.guestCount));
        var price := def.defaultPrice * BilledDays(def.kind == Meal, old(draft.startDate), old(draft.endDate)) * quantity;
        && draft == old(draft).(bookedServices := old(draft.bookedServices)
             + [BookedService(newId, def.id, def.name, old(draft.startDate), old(draft.endDate), price, def.defaultPrice, quantity)],
             amount := draft.amount)
        && AmountCurrent()
      ensures customExtraPrice == old(customExtraPrice)
      ensures old(ServicesPriced()) ==> ServicesPriced()
    {
      var found := FindService(services, serviceId);
      if found.None? {
        return;
      }
      var def := found.value;
      var quantity := OrOne(draft.guestCount);
      var sDate, eDate := draft.startDate, draft.endDate;
      var price;
      if def.kind == Meal {
        var weekdays := GetWeekdaysCount(sDate, eDate);
        price := def.defaultPrice * weekdays * quantity;
      } else {
        var days := Max(1, DayDiff(sDate, eDate));
        price := def.defaultPrice * days * quantity;
      }
      var added := BookedService(newId, def.id, def.name, sDate, eDate, price, def.defaultPrice, quantity);
      assert IsMealService(services, added.serviceId) == (def.kind == Meal);
      draft := draft.(bookedServices := draft.bookedServices + [added]);
      Recompute(customExtraPrice);
    }

    /** `updateServiceDetail`: patches the services with that id and reprices them. */
    method UpdateServiceDetail(id: string, patch: ServicePatch)
      modifies this
      ensures draft == old(draft).(bookedServices := UpdateServiceList(services, old(draft.bookedServices), id, patch), amount := draft.amount)
      ensures customExtraPrice == old(customExtraPrice)
      ensures AmountCurrent()
      ensures old(ServicesPriced()) ==> ServicesPriced()
    {
      UpdateServiceListSpec(services, draft.bookedServices, id, patch);
      draft := draft.(bookedServices := UpdateServiceList(services, draft.bookedServices, id, patch));
      Recompute(customExtraPrice);
    }

    /** The delete button of a booked service. */
    method RemoveService(id: string)
      modifies this
      ensures draft == old(draft).(bookedServices := Filter(old(draft.bookedServices), (s: BookedService) => s.id != id), amount := draft.amount)
      ensures customExtraPrice == old(customExtraPrice)
      ensures AmountCurrent()
      ensures old(ServicesPriced()) ==> ServicesPriced()
    {
      draft := draft.(bookedServices := Filter(draft.bookedServices, (s: BookedService) => s.id != id));
      Recompute(customExtraPrice);
    }

    /** The submit button: nothing is saved while the browser's validation fails;
        otherwise the draft with the offered status and a definite id. */
    method Submit(stamp: string) returns (r: Option<Booking>)
      ensures r.None? <==> !SubmitAllowed(draft)
      ensures r.Some? ==> r.value == SubmittedBooking(draft, stamp)
      ensures r.Some? ==> r.value.id != "" && r.value.guestName != "" && r.value.startDate <= r.value.endDate
    {
      if !SubmitAllowed(draft) {
        return None;
      }
      r := Some(SubmittedBooking(draft, stamp));
    }
  }

  /** Mounting the dialog. With no rooms the initial state's read of the first room
      throws and no form exists, written `null`; otherwise the constructor's form. */
  method OpenBookingForm(rooms: seq<Room>, services: seq<ServiceDefinition>, today: Day, seed: BookingSeed)
    returns (form: BookingForm?)
    ensures form == null <==> |rooms| == 0
    ensures form != null ==>
      && fresh(form)
      && form.rooms == rooms && form.services == services
      && form.AmountCurrent()
      && var merged := MergeSeed(InitialDraft(rooms[0].id, today), seed);
        form.draft == merged.(amount := form.draft.amount) && form.customExtraPrice == InitialExtraPrice(rooms, merged)
  {
    if |rooms| == 0 {
      form := null;
    } else {
      form := new BookingForm(rooms, services, today, seed);
    }
  }
}
