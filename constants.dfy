/** The sample rooms, services and bookings the application starts with, and what
    the pricing and the dashboard make of them. */
module Fixtures {
  import opened Calendar
  import opened Seqs
  import opened Types
  import BookingModal
  import Dashboard

  const ROOM_101: Room := Room("101", "스탠다드 오션", "트윈", 3, 2, 20000, 80000, "bg-blue-100 border-blue-300 text-blue-800",
                              true, "바다가 한눈에 보이는 아늑한 트윈룸입니다.", "A동", "101호")
  const ROOM_102: Room := Room("102", "스탠다드 가든", "트윈", 2, 2, 0, 75000, "bg-green-100 border-green-300 text-green-800",
                              true, "정원 전망의 조용한 객실입니다.", "A동", "102호")
  const ROOM_201: Room := Room("201", "디럭스 스위트", "퀸", 2, 2, 0, 120000, "bg-purple-100 border-purple-300 text-purple-800",
                              true, "최고급 침구와 넓은 공간을 자랑하는 스위트룸입니다.", "B동", "201호")
  const ROOM_202: Room := Room("202", "패밀리 로프트", "복층", 6, 4, 25000, 150000, "bg-orange-100 border-orange-300 text-orange-800",
                              true, "가족 단위 여행객에게 적합한 넓은 복층 객실입니다.", "B동", "202호")
  const ROOM_203: Room := Room("203", "미니멀리스트 팟", "싱글", 1, 1, 0, 50000, "bg-gray-100 border-gray-300 text-gray-800",
                              false, "1인 여행자를 위한 실속형 공용 욕실 이용 객실입니다.", "C동", "101호")

  const ROOMS: seq<Room> := [ROOM_101, ROOM_102, ROOM_201, ROOM_202, ROOM_203]

  const INITIAL_SERVICES: seq<ServiceDefinition> := [
    ServiceDefinition("s1", "렌트카", 50000, Rental),
    ServiceDefinition("s2", "식사 (조식)", 10000, Meal),
    ServiceDefinition("s3", "공항 픽업", 30000, Pickup)
  ]

  /** 2024-05-01, the first day of the sample bookings' month (`SampleDates` shows
      it is that date). */
  const MAY_1_2024: Day := 19844

  const B1: Booking := Booking("b1", "101", "김민수", 2, MAY_1_2024 + 19, MAY_1_2024 + 22, Confirmed, "", "", 240000, [], "")
  const B2: Booking := Booking("b2", "201", "이서연", 2, MAY_1_2024 + 20, MAY_1_2024 + 21, CheckedIn, "", "", 120000, [], "")
  const B3: Booking := Booking("b3", "202", "박준호", 5, MAY_1_2024 + 23, MAY_1_2024 + 25, Pending, "", "", 350000, [], "")

  const INITIAL_BOOKINGS: seq<Booking> := [B1, B2, B3]

  /** The sample dates are 2024-05-20 to 05-23, 05-21 to 05-22 and 05-24 to 05-26,
      and 2024-05-20 was a Monday. */
  lemma SampleDates()
    ensures B1.startDate == DayOf(CivilDate(2024, 5, 20)) == 19863 && B1.endDate == DayOf(CivilDate(2024, 5, 23))
    ensures B2.startDate == DayOf(CivilDate(2024, 5, 21)) && B2.endDate == DayOf(CivilDate(2024, 5, 22))
    ensures B3.startDate == DayOf(CivilDate(2024, 5, 24)) && B3.endDate == DayOf(CivilDate(2024, 5, 26))
    ensures MAY_1_2024 == DayOf(CivilDate(2024, 5, 1)) && MAY_1_2024 + 31 == DayOf(CivilDate(2024, 6, 1))
    ensures Weekday(B1.startDate) == 1
  {
  }

  /** Looking up the rooms of the sample bookings: the 1st, 3rd and 4th rooms. */
  lemma SampleRoomLookups()
    ensures FindRoom(ROOMS, "101") == Some(ROOM_101)
    ensures FindRoom(ROOMS, "201") == Some(ROOM_201)
    ensures FindRoom(ROOMS, "202") == Some(ROOM_202)
  {
    LookupAt(0, "101");
    LookupAt(2, "201");
    LookupAt(3, "202");
  }

  /** A room whose id no earlier room has is the one the lookup finds. */
  lemma LookupAt(k: nat, id: string)
    requires k < |ROOMS| && ROOMS[k].id == id
    requires forall j :: 0 <= j < k ==> ROOMS[j].id != id
    ensures FindRoom(ROOMS, id) == Some(ROOMS[k])
  {
    FindFirst(ROOMS, (x: Room) => x.id == id, k);
  }

  /** The sample room ids are unique and every room's capacity covers its included guests. */
  lemma SampleRoomsConsistent()
    ensures forall i, j :: 0 <= i < j < |ROOMS| ==> ROOMS[i].id != ROOMS[j].id
    ensures forall i :: 0 <= i < |ROOMS| ==> 1 <= ROOMS[i].baseCapacity <= ROOMS[i].capacity
  {
    assert ROOMS[0].id[0] == '1' && ROOMS[1].id[0] == '1';
    assert ROOMS[2].id[0] == '2' && ROOMS[3].id[0] == '2' && ROOMS[4].id[0] == '2';
    assert ROOMS[0].id[2] != ROOMS[1].id[2];
    assert ROOMS[2].id[2] != ROOMS[3].id[2] && ROOMS[2].id[2] != ROOMS[4].id[2] && ROOMS[3].id[2] != ROOMS[4].id[2];
  }

  /** Every sample booking names a listed room, fits in it, and ends after it starts. */
  lemma SampleBookingsFit()
    ensures FindRoom(ROOMS, B1.roomId) == Some(ROOM_101) && 1 <= B1.guestCount <= ROOM_101.capacity && B1.startDate < B1.endDate
    ensures FindRoom(ROOMS, B2.roomId) == Some(ROOM_201) && 1 <= B2.guestCount <= ROOM_201.capacity && B2.startDate < B2.endDate
    ensures FindRoom(ROOMS, B3.roomId) == Some(ROOM_202) && 1 <= B3.guestCount <= ROOM_202.capacity && B3.startDate < B3.endDate
  {
    SampleRoomLookups();
  }

  /** The rule the stored sample amounts follow: extra guests are those above the
      room's included guests, charged at the room's per-head rate. */
  function StoredAmountRule(b: Booking): int
  {
    match FindRoom(ROOMS, b.roomId)
    case None => 0
    case Some(room) =>
      BookingModal.TotalAmount(ROOMS, b.roomId, b.startDate, b.endDate, b.guestCount, b.bookedServices,
                               room.extraPersonPrice, room.baseCapacity)
  }

  lemma AmountsOfB1()
    ensures StoredAmountRule(B1) == 240000 && ReopenedAmount(B1) == 300000
  {
    FindHead(ROOMS, (x: Room) => x.id == "101");
    assert BookingModal.SumPrices([]) == 0;
  }

  lemma AmountsOfB2()
    ensures StoredAmountRule(B2) == 120000 && ReopenedAmount(B2) == 120000
  {
    LookupAt(2, "201");
    assert BookingModal.SumPrices([]) == 0;
  }

  lemma AmountsOfB3()
    ensures StoredAmountRule(B3) == 350000 && ReopenedAmount(B3) == 500000
  {
    LookupAt(3, "202");
    assert BookingModal.SumPrices([]) == 0;
  }

  /** The stored sample amounts follow that rule: b1 is 80000 x 3 nights, b3 is
      (150000 + 25000 x 1) x 2 nights. */
  lemma SampleAmountsUseBaseCapacity()
    ensures B1.amount == StoredAmountRule(B1) == 240000
    ensures B2.amount == StoredAmountRule(B2) == 120000
    ensures B3.amount == StoredAmountRule(B3) == 350000
  {
    AmountsOfB1();
    AmountsOfB2();
    AmountsOfB3();
  }

  /** The amount the dialog recomputes when a sample booking is opened, with one
      included guest and the room's own per-head rate. */
  function ReopenedAmount(b: Booking): int
  {
    BookingModal.CalculateTotalAmount(ROOMS, b.roomId, b.startDate, b.endDate, b.guestCount, b.bookedServices,
                                      BookingModal.InitialExtraPrice(ROOMS, b))
  }

  /** Opening b1 reprices it to 300000 and b3 to 500000; b2, whose room has no
      per-head rate, keeps its 120000. */
  lemma ReopeningReprices()
    ensures ReopenedAmount(B1) == 300000 && ReopenedAmount(B1) != B1.amount
    ensures ReopenedAmount(B2) == 120000 && ReopenedAmount(B2) == B2.amount
    ensures ReopenedAmount(B3) == 500000 && ReopenedAmount(B3) != B3.amount
  {
    AmountsOfB1();
    AmountsOfB2();
    AmountsOfB3();
  }

  /** A stay over the whole of May 2024, 2024-05-01 to 2024-06-01. */
  const WHOLE_MAY: Booking := Booking("x", "101", "", 1, MAY_1_2024, MAY_1_2024 + 31, Confirmed, "", "", 0, [], "")

  /** The window as written counts 30 of its 31 nights, so the chart shows 97%
      for a room booked every night of May; the whole-month window counts 31 and 100%. */
  lemma WholeMayOccupancy()
    ensures WHOLE_MAY.startDate == DayOf(CivilDate(2024, 5, 1)) && WHOLE_MAY.endDate == DayOf(CivilDate(2024, 6, 1))
    ensures Dashboard.MonthNightsAsWritten(WHOLE_MAY, 2024, 5) == 30
    ensures Dashboard.MonthNights(WHOLE_MAY, 2024, 5) == 31
    ensures Dashboard.Rate(Dashboard.MonthFilter, 30, DaysInMonth(2024, 5)) == 97
    ensures Dashboard.Rate(Dashboard.MonthFilter, 31, DaysInMonth(2024, 5)) == 100
    ensures Dashboard.OccupiedNights(Dashboard.MonthFilter, [WHOLE_MAY], "101", 2024, 5) == 30
    ensures Dashboard.IntendedOccupiedNights(Dashboard.MonthFilter, [WHOLE_MAY], "101", 2024, 5) == 31
  {
    assert Dashboard.RoomBookings([WHOLE_MAY], "101") == [WHOLE_MAY];
    assert [WHOLE_MAY][..0] == [];
    var first := MonthStart(2024, 5);
    assert Dashboard.SumNights(Dashboard.MonthFilter, [WHOLE_MAY], first, first + 30) == Dashboard.MonthNightsAsWritten(WHOLE_MAY, 2024, 5);
    assert Dashboard.SumNights(Dashboard.MonthFilter, [WHOLE_MAY], first, first + 31) == Dashboard.MonthNights(WHOLE_MAY, 2024, 5);
  }

  /** In month mode for May 2024 all three sample bookings are shown, one per status. */
  lemma SampleMayStats()
    ensures Dashboard.DisplayBookings(INITIAL_BOOKINGS, Dashboard.MonthFilter, 2024, 5) == INITIAL_BOOKINGS
    ensures Dashboard.ComputeStats(INITIAL_BOOKINGS) == Dashboard.Stats(3, 1, 1, 1)
  {
    var s := INITIAL_BOOKINGS;
    FilterAllPass(s, (b: Booking) => Dashboard.TouchesMonth(b, 2024, 5));
    assert s[1..][1..] == s[2..] && s[2..][1..] == [];
    WithStatusOfSample(Pending);
    WithStatusOfSample(Confirmed);
    WithStatusOfSample(CheckedIn);
  }

  /** The sample bookings of one status, listed in order. */
  lemma WithStatusOfSample(st: BookingStatus)
    ensures |Dashboard.WithStatus(INITIAL_BOOKINGS, st)|
         == (if B1.status == st then 1 else 0) + (if B2.status == st then 1 else 0) + (if B3.status == st then 1 else 0)
  {
    var s := INITIAL_BOOKINGS;
    var p := (b: Booking) => b.status == st;
    assert s[1..][1..] == s[2..] && s[2..][1..] == [];
    FilterHead(s, p);
    FilterHead(s[1..], p);
    FilterHead(s[2..], p);
  }
}
