# Guesthouse booking manager — a Dafny model

This project models the booking logic of a small guesthouse management web
application. The application keeps three lists: rooms, the catalogue of extra
services, and bookings. It lets staff do the following:

- open a booking dialog that prices a stay and its booked services and moves
  the booking through its statuses (pending, confirmed, checked in, checked out);
- see the rooms on a 31-day timeline and on a six-week month grid, and start a
  quick booking by clicking a free cell;
- read a dashboard of monthly counts and per-room occupancy rates;
- edit the room list and the service catalogue;
- record every change as database commands in an audit log.

The model is split into one module per part of the application:

| module | file | what it holds |
|---|---|---|
| `Calendar` | calendar.dfy | day numbers, weekdays, civil dates, the `YYYY-MM-DD` strings the components compare |
| `Seqs` | seqs.dfy | `find`, `filter` and element-wise replacement, with their laws |
| `Types` | types.dfy | booking status, service type, service, booked service, room, booking |
| `BookingModal` | booking_modal.dfy | night and weekday counting, pricing, status actions, and the dialog's edit session as a class |
| `App` | app.dfy | the application state as a class, and its list updates |
| `DbOrchestrator` | db_orchestrator.dfy | the audit log as a class, and the records each operation emits |
| `Dashboard` | dashboard_stats.dfy | month filter, counts, card lists, occupancy |
| `GuesthouseCalendar` | guesthouse_calendar.dfy | the 31-day timeline |
| `SimpleGridCalendar` | simple_grid_calendar.dfy | the 42-day month grid |
| `RoomSettings` | room_settings.dfy | the room and service forms as a class |
| `Fixtures` | constants.dfy | the sample rooms, services and bookings, and what the model makes of them |

Dates are whole day numbers: day 0 is 1970-01-01, and `Weekday` is
`Date.getDay`. Bookings store `YYYY-MM-DD` strings and the components compare
and prefix-test those strings. `Calendar.ISOOrder` and
`Calendar.MonthPrefixIsInMonth` prove that, for four-digit years, those string
tests are the day-number tests the model uses. An empty string id stands for
JavaScript's "no id" (`null`, `undefined` or `''`, which are all falsy).

## Model

| member | source | states |
|---|---|---|
| `Calendar.WeekdayStep` | components/BookingModal.tsx:49-53 | stepping a date one day moves its weekday on by one, wrapping Saturday to Sunday, and weekdays repeat every seven days |
| `Calendar.DayOfOrder` | components/GuesthouseCalendar.tsx:17-22 | day numbers order valid civil dates chronologically and tell them apart |
| `Calendar.InMonthIff` | components/DashboardStats.tsx:21-24 | the day-number range of a month holds exactly the dates of that year and month |
| `Calendar.ISOOrder` | components/GuesthouseCalendar.tsx:17-22 | for four-digit years, `<` on the zero-padded `YYYY-MM-DD` strings is chronological order, and equal strings are equal dates |
| `Calendar.MonthPrefixIsInMonth` | components/DashboardStats.tsx:24-33 | a date string starts with `YYYY-MM` exactly when the date lies in that month |
| `Calendar.NatToStringRoundTrip` | components/SimpleGridCalendar.tsx:61 | `String(n)` writes only decimal digits, and reading them back gives `n` |
| `Seqs.Find` | components/BookingModal.tsx:127 | `find` returns nothing exactly when no element matches; otherwise it returns the first match |
| `Seqs.Filter` | App.tsx:44 | `filter` keeps only elements that pass, keeps every element that passes, and never lengthens the list |
| `Seqs.FilterConcat` | App.tsx:44 | filtering distributes over concatenation, so the kept elements stay in order |
| `Seqs.FilterIdempotent` | components/RoomSettings.tsx:66-68 | filtering twice by the same test is filtering once |
| `Seqs.Replace` | App.tsx:69 | the `map` that swaps matching elements keeps the length and replaces exactly the matching elements |
| `Seqs.ReplaceIdempotent` | App.tsx:36 | replacing twice with the same element is replacing once, for any element |
| `Types.FindRoom` | components/BookingModal.tsx:58 | the room lookup finds nothing exactly when no room has the id; otherwise it finds the first room with that id |
| `BookingModal.DayDiff` | components/BookingModal.tsx:38-43 | the night count is never negative, is `end - start` when that is positive, and 0 otherwise |
| `BookingModal.GetWeekdaysCount` | components/BookingModal.tsx:45-55 | the stepping loop counts the Monday-to-Friday days in `[start, end)` |
| `BookingModal.WeekdaysAtMostNights` | components/BookingModal.tsx:45-55 | there are never more weekdays than nights, and none in an empty or inverted range |
| `BookingModal.WeekdaysSplit` | components/BookingModal.tsx:45-55 | weekday counts add up over adjacent ranges |
| `BookingModal.WeekdaysInAWeek` | components/BookingModal.tsx:45-55 | any seven consecutive days hold exactly five weekdays |
| `BookingModal.WeekdaysInWeeks` | components/BookingModal.tsx:45-55 | `k` whole weeks hold exactly `5k` weekdays |
| `BookingModal.BilledDays` | components/BookingModal.tsx:134-141 | a meal is billed for its weekdays, never more than the nights; any other service is billed for its nights, at least one |
| `BookingModal.SumPricesAppend` | components/BookingModal.tsx:63 | appending a service adds its price to the services total |
| `BookingModal.UnknownRoomIsFree` | components/BookingModal.tsx:58-59 | a stay in a room id no room has costs 0 |
| `BookingModal.TotalAmountSpec` | components/BookingModal.tsx:57-65 | for the first room with the id, the amount is `(price + max(0, guests - baseline) * extraPrice) * nights + the service prices` |
| `BookingModal.TotalIsRoomPlusServices` | components/BookingModal.tsx:365-373 | for a known room, the amount is the room total plus the service total, the two figures the dialog shows |
| `BookingModal.TotalMonotoneInNights` | components/BookingModal.tsx:57-65 | with non-negative rates, a longer stay never costs less |
| `BookingModal.TotalMonotoneInGuests` | components/BookingModal.tsx:57-65 | with a non-negative per-head rate, more guests never cost less |
| `BookingModal.ExtraPriceMattersIff` | components/BookingModal.tsx:57-65 | two per-head rates give the same amount exactly when they are equal, the room is unknown, nobody is surcharged, or there are no nights |
| `BookingModal.ActionIsOneStep` | components/BookingModal.tsx:187-200 | for a saved booking, the offered status is one stage forward; CHECKED_OUT and CANCELLED map to themselves; the button never cancels |
| `BookingModal.ActionWalk` | components/BookingModal.tsx:187-200 | pressing the button repeatedly from a new booking walks PENDING, CONFIRMED, CHECKED_IN, CHECKED_OUT, and then stays at CHECKED_OUT |
| `BookingModal.SubmittedBooking` | components/BookingModal.tsx:226 | the submitted id is never empty: submit keeps an existing id, and an unsaved draft gets a minted `b-` id; the status becomes the offered action's status (PENDING for an unsaved draft); no other field changes |
| `BookingModal.MergeSeed` | components/BookingModal.tsx:67-74 | opening with no seed or a quick-book seed gives an empty service list; opening an existing booking takes all of its fields |
| `BookingModal.CapToRoom` | components/BookingModal.tsx:100-111 | a requested guest count is never raised and never exceeds the capacity of a known room |
| `BookingModal.Repriced` | components/BookingModal.tsx:165-173 | a repriced service's price is the one its own fields determine; nothing else about it changes |
| `BookingModal.UpdateServiceListSpec` | components/BookingModal.tsx:162-184 | updating keeps the length and every entry with another id; the updated entry has the patched fields and a derived price |
| `BookingModal.UpdateServiceListIdempotent` | components/BookingModal.tsx:162-177 | applying the same service edit twice is applying it once |
| `BookingModal.BookingForm.constructor` | components/BookingModal.tsx:24-36 | over a non-empty room list, opening the dialog merges the seed into the defaults, takes the room's per-head rate, and leaves the amount current |
| `BookingModal.OpenBookingForm` | components/BookingModal.tsx:24-36 | the mount yields a form exactly when there is a room (with none, the read of `rooms[0].id` at line 26 throws), and that form is the constructor's |
| `BookingModal.BookingForm.Recompute` | components/BookingModal.tsx:113 | only the amount changes, to the price of the current fields |
| `BookingModal.BookingForm.HandleGuestNameChange` | components/BookingModal.tsx:85-87 | a plain field edit changes that field and leaves the amount current |
| `BookingModal.BookingForm.HandleStartDateChange` | components/BookingModal.tsx:89-94 | a new check-in date sets check-out to the next day, so the stay is one night; the amount stays current |
| `BookingModal.BookingForm.HandleEndDateChange` | components/BookingModal.tsx:96-98 | a check-out date before check-in pulls check-in back to it, so check-in never follows check-out; the amount stays current |
| `BookingModal.BookingForm.HandleRoomChange` | components/BookingModal.tsx:100-106 | the room's per-head rate is taken over and guests are capped at its capacity; the amount uses the rate from before the change |
| `BookingModal.BookingForm.HandleGuestCountChange` | components/BookingModal.tsx:108-111 | a requested guest count (from the ± buttons) is capped at the room's capacity; the amount stays current |
| `BookingModal.BookingForm.DecrementGuests` | components/BookingModal.tsx:238 | the minus button never goes below one guest |
| `BookingModal.BookingForm.IncrementGuests` | components/BookingModal.tsx:243 | the plus button adds a guest up to the room's capacity, or up to 10 without one; at least one guest is left |
| `BookingModal.BookingForm.HandleExtraPriceChange` | components/BookingModal.tsx:118-124 | a new per-head rate reprices the draft at that rate and changes nothing else |
| `BookingModal.BookingForm.AddService` | components/BookingModal.tsx:126-160 | an unknown service changes nothing; otherwise one entry is appended with `basePrice = defaultPrice`, `quantity = guests or 1`, and the price of the billed days |
| `BookingModal.BookingForm.UpdateServiceDetail` | components/BookingModal.tsx:162-184 | the service list becomes the updated list, and the amount stays current |
| `BookingModal.BookingForm.RemoveService` | components/BookingModal.tsx:344 | the delete button drops the services with that id, and the amount stays current |
| `BookingModal.BookingForm.Submit` | components/BookingModal.tsx:226-389 | nothing is saved exactly when the browser's validation fails (an empty guest name at line 232, a check-out before its check-in at lines 280 and 323); otherwise the saved booking is `SubmittedBooking` of the draft, with a non-empty id and name and check-in no later than check-out |
| `App.UpsertExisting` | App.tsx:33-36 | saving a listed id replaces that entry in place; the length and every other entry are unchanged |
| `App.UpsertNew` | App.tsx:37-38 | saving an unlisted id appends it at the end |
| `App.UpsertThenFind` | App.tsx:33-41 | after a save, looking the id up finds the saved booking |
| `App.UpsertIdempotent` | App.tsx:33-41 | saving the same booking twice gives the list saving it once gives |
| `App.RemoveBookingSpec` | App.tsx:43-46 | deleting removes exactly the bookings with that id and keeps the rest in order |
| `App.RemoveAbsentBooking` | App.tsx:43-46 | deleting an unlisted id changes nothing |
| `App.ReplaceRoomSpec` | App.tsx:68-70 | updating a room replaces the entries with its id and no others; an unlisted id changes nothing |
| `App.AppState.constructor` | App.tsx:15-21 | the state starts with the given lists and the dialog closed |
| `App.AppState.HandleAddBooking` | App.tsx:23-26 | the dialog opens on the given seed, which defaults to empty pre-data |
| `App.AppState.HandleEditBooking` | App.tsx:28-31 | the dialog opens on the booking |
| `App.AppState.OpenModal` | App.tsx:263-272 | with no rooms left the mount fails and there is no form; otherwise the dialog is mounted over the current rooms and services with a current amount, and without an existing booking its draft has no id and no services |
| `App.AppState.HandleSaveBooking` | App.tsx:33-41 | the booking list becomes the upsert of the saved booking, and the dialog closes |
| `App.AppState.HandleDeleteBooking` | App.tsx:43-46 | the bookings with that id are removed, and the dialog closes |
| `App.AppState.CloseModal` | App.tsx:271 | only the dialog flag changes |
| `App.AppState.HandleAddRoom` | App.tsx:64-66 | the room is appended, and nothing else changes |
| `App.AppState.HandleUpdateRoom` | App.tsx:68-70 | the rooms with that id are replaced, and nothing else changes |
| `App.AppState.HandleDeleteRoom` | App.tsx:72-76 | the room is removed only when confirmed; the bookings are untouched |
| `App.AppState.HandleUpdateServices` | App.tsx:78-80 | the catalogue is replaced wholesale |
| `DbOrchestrator.InvRoomKey` | dbOrchestrator.ts:63 | the InvRoom key is `IR-` followed by the booking id |
| `DbOrchestrator.MasterSyncShape` | dbOrchestrator.ts:32-40 | catalogue sync emits 1 + n records: the DELETE first, then one INSERT per service, in catalogue order |
| `DbOrchestrator.ServiceRecordsShape` | dbOrchestrator.ts:85-87 | the service loop emits one invoice item per booked service, in list order |
| `DbOrchestrator.NewBookingRecords` | dbOrchestrator.ts:65-87 | a new booking emits InvRoom, Reservation, a DRAFT Invoice for the booking's amount, then one item per service: 3 + n records |
| `DbOrchestrator.UpdatedBookingRecords` | dbOrchestrator.ts:88-110 | an existing booking emits updates of InvRoom, Reservation and the Invoice total, a DELETE of its items, then one item per service: 4 + n records |
| `DbOrchestrator.DeleteBookingRecordsSpec` | dbOrchestrator.ts:121-128 | deleting emits 2 records without an invoice and 4 with one, all deletes, and the items go before their invoice |
| `DbOrchestrator.ReversedIndex` | dbOrchestrator.ts:22-29 | log entry `i` is the `i`-th most recent record |
| `DbOrchestrator.ReversedConcat` | dbOrchestrator.ts:62-111 | logging two batches in turn puts the second on top of the first |
| `DbOrchestrator.BatchOnTop` | dbOrchestrator.ts:22-29 | after a batch, the newest entry is the batch's last record and the previous log lies below it unchanged, so the log only grows |
| `DbOrchestrator.DBOrchestrator.constructor` | dbOrchestrator.ts:16 | the log starts empty |
| `DbOrchestrator.DBOrchestrator.GetLog` | dbOrchestrator.ts:18-20 | returns the log's contents |
| `DbOrchestrator.DBOrchestrator.Log` | dbOrchestrator.ts:22-29 | the record becomes entry 0 and the old log is the tail |
| `DbOrchestrator.DBOrchestrator.SyncServicesMaster` | dbOrchestrator.ts:32-40 | the catalogue-sync records are logged newest first on top of the old log |
| `DbOrchestrator.DBOrchestrator.SyncRoom` | dbOrchestrator.ts:43-55 | exactly one record is logged: an INSERT for a new room, otherwise an UPDATE |
| `DbOrchestrator.DBOrchestrator.DeleteRoom` | dbOrchestrator.ts:58-60 | exactly one DELETE is logged |
| `DbOrchestrator.DBOrchestrator.SyncService` | dbOrchestrator.ts:113-119 | exactly one invoice item is logged |
| `DbOrchestrator.DBOrchestrator.SyncServices` | dbOrchestrator.ts:107-109 | the item records of all services are logged in list order |
| `DbOrchestrator.DBOrchestrator.SyncBookingHeader` | dbOrchestrator.ts:65-106 | the three (new) or four (existing) header records are logged in order |
| `DbOrchestrator.DBOrchestrator.SyncBooking` | dbOrchestrator.ts:62-111 | the booking-sync records are logged newest first on top of the old log |
| `DbOrchestrator.DBOrchestrator.DeleteBooking` | dbOrchestrator.ts:121-128 | the booking-delete records are logged newest first on top of the old log |
| `Dashboard.DisplayBookings` | components/DashboardStats.tsx:30-33 | 'all' mode shows every booking; month mode shows exactly the bookings that start or end in the month |
| `Dashboard.WithStatus` | components/DashboardStats.tsx:38-40 | the status filter keeps exactly the bookings of that status |
| `Dashboard.ComputeStats` | components/DashboardStats.tsx:35-42 | the total is the number shown, and the three status counts never add up to more |
| `Dashboard.ActiveBookingList` | components/DashboardStats.tsx:69-76 | no card gives nothing, the total card everything shown, and a status card exactly that status |
| `Dashboard.CardMatchesList` | components/DashboardStats.tsx:35-42 | the list a card opens has as many entries as the card shows |
| `Dashboard.ClampedNightsCounts` | components/DashboardStats.tsx:55-59 | the clipped overlap, floored at 0, is exactly the number of booked nights inside the window |
| `Dashboard.MonthNights` | components/DashboardStats.tsx:45-59 | a booking's nights within the month never exceed the month's length |
| `Dashboard.MonthNightsMeaning` | components/DashboardStats.tsx:45-59 | month-mode nights are exactly the booked nights of the month; the window as written misses the last one whenever it is booked |
| `Dashboard.FullMonthBooking` | components/DashboardStats.tsx:46 | a booking over the whole month occupies every night of it, and the window as written reports one night less |
| `Dashboard.RoomBookingsSpec` | components/DashboardStats.tsx:50 | a room's chart counts exactly its own bookings that are not cancelled |
| `Dashboard.RoomBookingsIsFilter` | components/DashboardStats.tsx:50 | the counted list is the `filter` of the bookings, in order and with multiplicity |
| `Dashboard.SumNightsNonNegative` | components/DashboardStats.tsx:59 | in month mode a room's night count is never negative |
| `Dashboard.SumNightsAtLeast` | components/DashboardStats.tsx:51-59 | in month mode a room's count is at least what any one of its bookings adds |
| `Dashboard.AllModeIgnoresWindow` | components/DashboardStats.tsx:60-62 | in 'all' mode the count does not depend on the month window |
| `Dashboard.WidenByOneNight` | components/DashboardStats.tsx:55-59 | widening the month window by one night adds one for every booking covering that night |
| `Dashboard.CorrectedCountAddsLastNight` | components/DashboardStats.tsx:45-46 | the whole-month count is the count as written plus the number of the room's counted bookings that cover the month's last night |
| `Dashboard.AllModeCountsAgree` | components/DashboardStats.tsx:45-62 | in 'all' mode the count as written and the whole-month count agree |
| `Dashboard.IgnoredBooking` | components/DashboardStats.tsx:50 | a cancelled booking, or one of another room, leaves a room's count unchanged |
| `Dashboard.RoundHalfUp` | components/DashboardStats.tsx:64 | the result is the nearest integer to the quotient, halves rounding up |
| `Dashboard.RateBounds` | components/DashboardStats.tsx:64 | a month-mode rate lies in 0..100, is 100 for a fully booked month, and is 0 for an empty month |
| `Dashboard.RoomOccupancy` | components/DashboardStats.tsx:50-63 | a room's count is the sum over its counted bookings, in month mode clamped to the window it is given |
| `Dashboard.AddUpNights` | components/DashboardStats.tsx:51-63 | the `forEach` adds up each booking's nights, in month mode clamped to the window and skipping non-positive overlaps |
| `Dashboard.OccupancyData` | components/DashboardStats.tsx:44-67 | one chart entry per room, in room order, with the room's name, colour and the rate of its count over the window as written, which ends at the start of the month's last day |
| `Dashboard.IntendedOccupancyData` | components/DashboardStats.tsx:44-67 | the chart over the whole-month window: one entry per room, in room order, with the room's name and colour |
| `Dashboard.FullMonthCounted` | components/DashboardStats.tsx:50-59 | over the whole-month window, a live booking spanning the month makes its room's count at least the month's length |
| `Dashboard.IntendedChartFullMonth` | components/DashboardStats.tsx:45-64 | over the whole-month window, a room with a live booking spanning the month shows 100% |
| `GuesthouseCalendar.Days` | components/GuesthouseCalendar.tsx:24-28 | the timeline is 31 consecutive days from its start day |
| `GuesthouseCalendar.WeekendsComplementWeekdays` | components/GuesthouseCalendar.tsx:43-46 | weekend days are exactly the non-weekdays, and in any range the two counts add up to the nights |
| `GuesthouseCalendar.StringCoverage` | components/GuesthouseCalendar.tsx:50 | the cell's string test `start <= day < end` is the same test on day numbers |
| `GuesthouseCalendar.DayListSpec` | components/GuesthouseCalendar.tsx:48-53 | a cell's list holds exactly the room's bookings that cover the day |
| `GuesthouseCalendar.CheckingInIff` | components/GuesthouseCalendar.tsx:54 | a check-in is reported exactly when a covering booking starts that day |
| `GuesthouseCalendar.NeverCheckingOut` | components/GuesthouseCalendar.tsx:50-55 | a check-out is never reported, since every covering booking ends after the day |
| `GuesthouseCalendar.QuickBookGate` | components/GuesthouseCalendar.tsx:135-138 | a click starts a quick booking exactly when no booking of the room, of any status, covers the day |
| `GuesthouseCalendar.BarVisibleIff` | components/GuesthouseCalendar.tsx:151-153 | a bar is drawn exactly when the booking ends no earlier than the first shown day and starts at most 31 days after it |
| `GuesthouseCalendar.OccupiedCellHasBar` | components/GuesthouseCalendar.tsx:135-153 | every booking that covers a shown cell gets a bar |
| `SimpleGridCalendar.CalendarDays` | components/SimpleGridCalendar.tsx:28-32 | the grid is 42 consecutive days from its start |
| `SimpleGridCalendar.CalendarStartIsSunday` | components/SimpleGridCalendar.tsx:24-26 | the grid starts on the Sunday on or before the 1st, and the 1st falls in its first week |
| `SimpleGridCalendar.GridColumnsAreWeekdays` | components/SimpleGridCalendar.tsx:34 | cell `i` falls on weekday `i % 7`, under the column headers Sunday to Saturday |
| `SimpleGridCalendar.GridContainsMonth` | components/SimpleGridCalendar.tsx:24-32 | every day of the month is a cell of the grid |
| `SimpleGridCalendar.WeeksPartitionGrid` | components/SimpleGridCalendar.tsx:98-138 | the six 7-day slices, side by side, are the grid, and each starts on a Sunday |
| `SimpleGridCalendar.BookingStatesSpec` | components/SimpleGridCalendar.tsx:36-46 | a cell lists exactly the room's bookings with `start <= day <= end`, and flags check-in and check-out by equality |
| `SimpleGridCalendar.GridAddsCheckoutDay` | components/SimpleGridCalendar.tsx:40 | the grid shows a booking on the timeline's days plus its check-out day |
| `SimpleGridCalendar.SegmentShape` | components/SimpleGridCalendar.tsx:162-181 | start only: the right half; end only: the left half with no name; both: the centred 40%; neither: the full cell |
| `SimpleGridCalendar.SegmentLabel` | components/SimpleGridCalendar.tsx:194-197 | a full segment shows the whole name, a partial one its first character, and a check-out segment nothing |
| `SimpleGridCalendar.DurationTextDeterminesNights` | components/SimpleGridCalendar.tsx:57-62 | two stays have the same `N박 M일` text exactly when they have the same number of nights |
| `RoomSettings.DefaultRoomForm` | components/RoomSettings.tsx:50-52 | the reset room form has an empty name and `1 <= baseCapacity <= capacity` |
| `RoomSettings.DefaultServiceForm` | components/RoomSettings.tsx:63 | the reset service form has an empty name, price 10 and type custom |
| `RoomSettings.SubmittedRoom` | components/RoomSettings.tsx:41-46 | while editing, the submitted room carries the edited id; otherwise it carries a fresh `r-` id; its other fields are the form's |
| `RoomSettings.NewService` | components/RoomSettings.tsx:58-61 | the new catalogue entry has a fresh `s-` id and the form's fields |
| `RoomSettings.RemoveService` | components/RoomSettings.tsx:66-68 | deleting keeps exactly the services with another id |
| `RoomSettings.SaveUnchangedRoom` | components/RoomSettings.tsx:170 | with unique ids, saving a listed room unedited leaves the room list as it was |
| `RoomSettings.EditOfDeletedRoomIsLost` | components/RoomSettings.tsx:41-43 | submitting an edit of a room deleted meanwhile changes no room |
| `RoomSettings.RoomSettingsForm.constructor` | components/RoomSettings.tsx:16-26 | the forms start at their defaults, with no room being edited |
| `RoomSettings.RoomSettingsForm.ResetRoomForm` | components/RoomSettings.tsx:50-53 | the room form returns to its defaults and no room is being edited |
| `RoomSettings.RoomSettingsForm.StartEditRoom` | components/RoomSettings.tsx:170 | the form takes the room's fields and that room is being edited |
| `RoomSettings.RoomSettingsForm.EditRoomForm` | components/RoomSettings.tsx:90-144 | a room input replaces the form's fields and nothing else |
| `RoomSettings.RoomSettingsForm.HandleRoomSubmit` | components/RoomSettings.tsx:38-48 | an empty name changes nothing; otherwise the room is updated while editing, or added, and the form resets |
| `RoomSettings.RoomSettingsForm.EditServiceForm` | components/RoomSettings.tsx:191-199 | a service input replaces the service form's fields and nothing else |
| `RoomSettings.RoomSettingsForm.HandleServiceSubmit` | components/RoomSettings.tsx:55-64 | an empty name changes nothing; otherwise exactly one entry is appended to the catalogue and the form resets |
| `RoomSettings.RoomSettingsForm.HandleDeleteService` | components/RoomSettings.tsx:66-68 | the catalogue loses exactly the entries with that id |
| `RoomSettings.RoomSettingsForm.DeleteRoom` | components/RoomSettings.tsx:171 | the delete button removes the room only when confirmed |
| `Fixtures.SampleDates` | constants.ts:54-77 | the sample dates are the stated days of May 2024, and 2024-05-20 was a Monday |
| `Fixtures.SampleRoomLookups` | constants.ts:4-40 | the sample bookings' rooms are the 1st, 3rd and 4th listed rooms |
| `Fixtures.SampleRoomsConsistent` | constants.ts:4-40 | the sample room ids are unique, and each capacity covers the included guests |
| `Fixtures.SampleBookingsFit` | constants.ts:48-82 | each sample booking names a listed room, fits in it, and ends after it starts |
| `Fixtures.SampleAmountsUseBaseCapacity` | constants.ts:57-79 | the stored sample amounts surcharge guests above the room's included guests |
| `Fixtures.ReopeningReprices` | components/BookingModal.tsx:80 | opening b1 reprices it to 300000 and b3 to 500000; b2 keeps 120000 |
| `Fixtures.WholeMayOccupancy` | components/DashboardStats.tsx:45-64 | a room booked every night of May 2024 is counted 30 nights and 97% by the chart as written, against 31 nights and 100% over the whole month |
| `Fixtures.SampleMayStats` | components/DashboardStats.tsx:30-42 | in May 2024 all three sample bookings are shown, one per status |

## Code versus fixtures

The pricing code and the sample data disagree about who pays the surcharge.

- `calculateTotalAmount` surcharges every guest after the first
  (components/BookingModal.tsx:61).
- The stored sample amounts surcharge only guests above the room's
  `baseCapacity`:
  - b1 is 80000 × 3 nights for 2 guests in a room that includes 2 (constants.ts:57);
  - b3 is (150000 + 25000 × 1) × 2 nights for 5 guests in a room that includes 4 (constants.ts:79).

`BookingModal.TotalAmount` therefore takes the number of included guests as a
parameter. `BookingModal.CalculateTotalAmount` fixes it at 1, as the code
does. `Fixtures.SampleAmountsUseBaseCapacity` shows that the samples follow
`baseCapacity`. `Fixtures.ReopeningReprices` shows the consequence: opening a
sample booking recomputes its amount (components/BookingModal.tsx:80), so
b1 shows 300000 and b3 shows 500000.

Two behaviours look like oversights. The model follows the code in both:

- The quick-book gate treats a cancelled booking as occupying its cells
  (`GuesthouseCalendar.QuickBookGate`), while the occupancy chart skips
  cancelled bookings (components/DashboardStats.tsx:50).
- On a room change the amount uses the per-head rate from before the change
  (`BookingModal.BookingForm.HandleRoomChange`).

## Left out

- JavaScript `Date` semantics are left out. Dates are whole day numbers in one
  fixed time zone. This covers:
  - `new Date("YYYY-MM-DD")` parsing as UTC while `getDay`, `setDate` and `new Date(y, m, d)` are local: away from UTC the dashboard's `Math.ceil` can add a partial day;
  - the quick book's `toISOString` (App.tsx:218), which is UTC and can shift the date;
  - the time of day: `selectedDate` carries the current clock time, so the calendar's
    bar offsets (components/GuesthouseCalendar.tsx:151) are fractional and, away from
    UTC, a booking whose check-out is the first shown day can be skipped although
    `GuesthouseCalendar.BarVisibleIff` says it is drawn;
  - in the dialog, west of UTC: the start-date handler (components/BookingModal.tsx:89-93)
    sets check-out equal to check-in instead of one day later, so
    `BookingModal.BookingForm.HandleStartDateChange`'s one-night stay does not hold there,
    and `getWeekdaysCount` (components/BookingModal.tsx:46-51) gives each day the weekday
    of the day before, which shifts meal billing;
  - `toLocaleDateString` labels;
  - `changeDate`, `changeMonth` and `goToToday` navigation (App.tsx:48-62).
- Empty or invalid date strings (the `!start || !end` guard of
  components/BookingModal.tsx:39, `NaN` dates) are left out: every modelled date
  is a day number.
- Prices are integers. The room form's defaults 15.00 and 70.00 become 15 and
  70. Floating-point arithmetic, including the rate's `Math.round` of a float,
  is not modelled.
- `Dashboard.RoundHalfUp`: this is `Math.round` on an exact quotient. A rate
  `nights × 100 / daysInMonth` with 28 to 31 days never falls exactly on a
  half, so no rounding direction question arises there.
- `Date.now()` ids (components/BookingModal.tsx:144, 226;
  components/RoomSettings.tsx:45, 60) are parameters (`newId`, `stamp`). Log timestamps (dbOrchestrator.ts:26) and `console.log` are left
  out.
- `window.confirm` (App.tsx:73) is the `confirmed` parameter.
- React scheduling: each handler is one atomic step on the state.
  `useState`/`useEffect` batching is not modelled beyond the stale per-head
  rate above.
- `DbOrchestrator.DBOrchestrator.GetLog`: returns the log's contents. The
  source returns the live array, so a caller could alias and mutate it; that
  aliasing is not modelled.
- `DBOrchestrator` is static, with one log per program. The model is one
  instance of a class.
- The log records a command's action, table and parameters. The SQL statement
  text is not modelled. Booleans are logged as 1 or 0, statuses by their enum
  value, and a booked service's never-set `days` as `undefined`.
- `BookedService.days` (types.ts:28) is never set. The billed days are derived
  (`BookingModal.BilledDays`) instead of stored.
- A booking's `invoiceId` is never generated: the log records whatever the
  booking carries (dbOrchestrator.ts:75-108).
- Opening the dialog with no rooms throws at components/BookingModal.tsx:26.
  `BookingModal.BookingForm.constructor` requires a room, since no form
  exists then; `BookingModal.OpenBookingForm` and `App.AppState.OpenModal`
  model the failure as the absence of a form (`null`), not as an exception
  that unwinds the page. `BookingModal.InitialExtraPrice` requires a room
  only when the draft names none, which is when the code reads `rooms[0]`.
- `hoveredRoom` and `hoveredRoomId` are display-only state.
- JSX, CSS classes, colours, icons, status styling, the colour palette and
  the rem bar geometry (components/GuesthouseCalendar.tsx:155-156, float
  arithmetic) are left out.
- components/GeminiAssistant.tsx (a network call to a language-model
  service), components/TechnicalSpec.tsx (static markup and a log view) and
  components/HelpGuide.tsx (a slide pager) are not part of this model.
- Number inputs (`Number(e.target.value)`) are whatever integers the caller
  passes. The room form does not check `baseCapacity <= capacity`, and
  neither does the model.

## Findings

| source | as written | input that shows it | evidently intended | confidence | as-written member | corrected member |
|---|---|---|---|---|---|---|
| components/DashboardStats.tsx:46 | the month window ends at `new Date(year, month + 1, 0)`, midnight at the start of the month's last day, so the last night is never counted | a booking of one room from 2024-05-01 to 2024-06-01: 30 nights and a 97% rate | the window ends at the 1st of the next month: 31 nights, 100% | high (derived from the code; not executed) | `Dashboard.OccupancyData` (with `Dashboard.RoomOccupancy` and `Dashboard.MonthNightsAsWritten`; shown by `Dashboard.FullMonthBooking` and `Fixtures.WholeMayOccupancy`) | `Dashboard.IntendedOccupancyData` (over `Dashboard.MonthNights`; proved in `Dashboard.MonthNightsMeaning`, `Dashboard.IntendedChartFullMonth` and `Dashboard.CorrectedCountAddsLastNight`) |
