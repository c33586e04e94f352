# Barbershop booking: scheduling, waitlist, loyalty and revenue

A Dafny model of the core of a barbershop booking application. Customers pick
a service, a barber (or "any professional"), a day and one of the half-hour
times offered, or join the day's waitlist. Staff use an admin area to:

- run the day calendar (book on a client's behalf, block whole days or time
  ranges, take payment, cancel);
- edit the catalog of services and products, the subscription packages, the
  barbers and the subscribers;
- read a dashboard of revenue, appointment counts and commissions.

The model covers the following:

- **Records** (`Types`): services/products, packages, subscribers, barbers with
  their commission table, client accounts, waitlist entries, notifications,
  block rules and appointments.
- **Clock**: "HH:MM" times read into minutes with JavaScript's
  `split(':').map(Number)` semantics, where NaN is `None`. Also the zero-padded
  time and date labels, and the weekday of a "YYYY-MM-DD" key in the
  proleptic Gregorian calendar.
- **Availability**: the central booking predicate, a function over a snapshot
  of the block rules, the appointments and the catalog.
- **Storage**: the stored collections as a `Store` class with `seq` fields. It
  holds the waitlist auto-promotion that runs after a cancellation and the
  loyalty XP award.
- **Booking**: the customer page's offered times, booking and joining the
  waitlist.
- **AdminAppointments**: the admin calendar. It has the day grid, the block
  rule marking a grid cell, booking, blocking, payment and cancellation.
- **Dashboard**: the role-filtered figures, rankings, revenue by kind of item
  and the monthly commissions.
- **Catalog, Packages, Barbers, Subscribers**: the admin list pages, with
  commission previews, stock value, subscriber statistics, and the id-keyed
  upsert and delete of **Records**.

Money is `real`, so there is no floating-point rounding. Ids, the current
instant, today's date, whether a date is today, this week or this month,
`confirm()` answers, and the signed-in role and user id are all parameters.

Block lookup differs between the two sides of the app. The admin calendar tests
only a cell's start against a slot rule, while booking tests the request's
whole range for overlap. `AdminAppointments.MarkedCellIsRefused` and
`AdminAppointments.CalendarMissesPartialOverlap` state both directions.

The item commission rate also differs. The commission preview of the catalog
pages ignores an item rate of 0, while the dashboard applies it;
`Catalog.PreviewAgreesWithDashboard` states exactly when the two agree.

## Model

| member | source | states |
|---|---|---|
| Types.CommissionRates.ForItem | types.ts:46-50 | a barber's commission table has exactly the three rates, and the rate for an item's kind is the service or the product one |
| Types.FindService | utils/storage.ts:184 | a catalog lookup returns an item of the list with that id, and returns nothing exactly when no item has the id |
| Records.Replace | pages/admin/Services.tsx:64-65 | replacing by id keeps the length, puts the new record at every position whose id matches and leaves every other position as it was |
| Records.Remove | pages/admin/Services.tsx:78 | deleting by id keeps exactly the records with another id |
| Records.LookupAfterReplace | pages/admin/Services.tsx:61-68 | after replacing, the replaced id finds the new record (when it was present) and every other id finds what it found before |
| Records.LookupAfterAppend | pages/admin/Services.tsx:61-68 | after appending, ids already present find what they found; a new id finds the appended record exactly when it is its id |
| Records.RemoveLookup | pages/admin/Services.tsx:75-82 | after deleting an id nothing has that id, and every other id finds what it found before |
| Records.RemoveAbsentId | pages/admin/Services.tsx:78 | deleting an id no record has leaves the list as it was |
| Records.RemoveConcat | pages/admin/Services.tsx:78 | deleting splits over the parts of a list, and a single record stays exactly when its id differs: the survivors keep their order and multiplicity |
| Records.RemoveTwice | pages/admin/Services.tsx:75-82 | deleting the same id twice is deleting it once |
| Clock.Plus | utils/storage.ts:303 | adding a duration to a start time is NaN exactly when the start is NaN |
| Clock.ShowNat | pages/BookingPage.tsx:91 | `n.toString()` is a non-empty numeral whose value is n |
| Clock.PadStart2Value | pages/admin/Appointments.tsx:13 | zero-padding a numeral to two digits keeps its value |
| Clock.ToMinutesOfNumerals | utils/storage.ts:298-301 | two numerals joined by ':' read as hours times 60 plus minutes |
| Clock.HhmmRoundTrip | pages/BookingPage.tsx:91 | a time formatted as zero-padded "HH:MM" reads back as its number of minutes |
| Clock.HhmmShape | pages/BookingPage.tsx:91 | hours and minutes below 100 format as two digits, ':', two digits |
| Clock.IsHhmmParses | types.ts:111-112 | every "HH:MM" time reads as a number, never NaN |
| Clock.ParseDateKey | utils/storage.ts:296 | a date key is read only when it names a real calendar day |
| Clock.DayOfWeek | utils/storage.ts:297 | the weekday of a calendar day lies in 0..6 |
| Clock.WeekDayOf | utils/storage.ts:296-297 | a date key has a weekday in 0..6 exactly when it names a real calendar day, and is NaN otherwise |
| Clock.NextDay | utils/storage.ts:296-297 | the day after a calendar day is a calendar day |
| Clock.DayOfWeekNext | utils/storage.ts:296-297 | consecutive calendar days, across month and year ends and leap days, have consecutive weekdays |
| Clock.KnownSunday | utils/storage.ts:296-297 | 7 January 2024, a Sunday, is weekday 0, as `getDay()` numbers it, and so is the key built from it |
| Clock.WeekDayOfNextKey | utils/storage.ts:296-297 | the keys of consecutive calendar days have consecutive weekdays modulo 7 |
| Clock.DateKeyRoundTrip | pages/admin/Appointments.tsx:19-24 | the "YYYY-MM-DD" key built from a four-digit year, month + 1 and day has ten characters and reads back as that date |
| Availability.BlockedByRules | utils/storage.ts:305-330 | the rule loop refuses the request exactly when some rule refuses it |
| Availability.DurationOf | utils/storage.ts:338-340 | an existing appointment lasts its service's duration, or 30 minutes when the service is missing |
| Availability.AnyConflict | utils/storage.ts:333-344 | the appointments refuse the request exactly when one of them holds the barber's chair that day and strictly overlaps it |
| Availability.IsTimeSlotAvailable | utils/storage.ts:293-345 | a request is available exactly when no rule for the barber (or "all") on the date closes the day or strictly overlaps it, and no non-cancelled appointment of the barber on the date strictly overlaps it |
| Availability.DayBlockRefusesAll | utils/storage.ts:305-321 | a whole-day rule for the barber or for all that falls on the date refuses every request, whatever is booked |
| Availability.SlotRuleRefusesExactlyOverlaps | utils/storage.ts:322-329 | a complete slot rule on the date refuses a request exactly when `reqStart < ruleEnd && ruleStart < reqEnd` |
| Availability.InertRule | utils/storage.ts:305-330 | adding a rule that does not refuse the request leaves availability unchanged |
| Availability.IncompleteOrElsewhereRuleIsInert | utils/storage.ts:305-329 | a slot rule lacking a start or an end, and a rule for another barber or another day, never refuses anything |
| Availability.InertAppointment | utils/storage.ts:333-344 | adding an appointment that does not conflict with the request leaves availability unchanged |
| Availability.HarmlessAppointments | utils/storage.ts:333-344 | cancelled appointments, other barbers', other dates' and back-to-back ones never make a slot unavailable |
| Availability.BookedStartIsTaken | utils/storage.ts:333-344 | a live appointment takes its own start time away from every request of positive length |
| Availability.AvailableBookingKeepsConflictFree | utils/storage.ts:293-345 | booking an appointment whose slot was found available keeps a schedule free of double bookings |
| Storage.TopReached | utils/storage.ts:273-279 | the index found is the highest threshold the XP reaches, or -1 when it reaches none |
| Storage.ComputeLevel | utils/storage.ts:271-280 | the descending scan with `break` yields the level of the highest threshold reached (index + 2), 1 below the first threshold, and the current level for an empty table |
| Storage.LevelReachedMeaning | utils/storage.ts:271-280 | the scanned level is 1 below the first threshold, otherwise 2 plus the index of the highest threshold reached |
| Storage.LevelMonotone | utils/storage.ts:271-280 | more XP never yields a lower scanned level |
| Storage.Awarded | utils/storage.ts:268-287 | a client's award adds `xpPerService` XP and one visit, sets the level to the higher of the current level and the level the new XP reaches, and changes nothing else |
| Storage.FirstServiceReachesLevelTwo | utils/storage.ts:60-63 | under the initial table a new client's first service brings 100 XP and level 2 |
| Storage.SelectWaitlistEntry | utils/storage.ts:172-196 | the promotion loop picks the first entry of the date's queue (oldest first) that asks for the barber or "any", whose service exists, and for which the freed slot is available |
| Storage.QueueMembers | utils/storage.ts:172-175 | the queue holds exactly the waitlist entries for the cancelled date |
| Storage.NextInLineSound | utils/storage.ts:178-197 | the promoted entry is for the date and fits the slot, and nothing is promoted exactly when no entry for the date fits |
| Storage.NextInLineIsOldest | utils/storage.ts:172-175 | first in, first out: no fitting entry for the date was created before the promoted one |
| Storage.NextInLineBreaksTiesByListOrder | utils/storage.ts:172-175 | the sort is stable: among fitting entries created at the same instant, the one earliest in the waitlist is promoted |
| Storage.Promoted | utils/storage.ts:200-211 | the promoted appointment takes the cancelled barber, date and time, the entry's service and client, is confirmed and costs the service's price |
| Storage.PromotionKeepsConflictFree | utils/storage.ts:191-213 | a promotion never creates a double booking |
| Storage.Store.constructor | utils/storage.ts:60-63 | an empty store holds no records and the initial level table |
| Storage.Store.SaveAppointment | utils/storage.ts:104-108 | the appointment is appended |
| Storage.Store.UpdateAppointments | utils/storage.ts:109-111 | the appointments are replaced by the given list |
| Storage.Store.AddToWaitlist | utils/storage.ts:159-163 | the entry is appended to the waitlist |
| Storage.Store.RemoveFromWaitlist | utils/storage.ts:164-167 | exactly the entries with the id leave the waitlist, the others keep their order |
| Storage.Store.AddNotification | utils/storage.ts:241-246 | the notification is appended |
| Storage.Store.SaveBlockedTime | utils/storage.ts:253-257 | the block rule is appended |
| Storage.Store.RemoveBlockedTime | utils/storage.ts:258-261 | exactly the rules with the id are removed, the others keep their order |
| Storage.Store.CheckWaitlistAfterCancellation | utils/storage.ts:170-233 | with no fitting entry nothing changes; otherwise exactly one appointment for the next-in-line entry is appended, that entry leaves the waitlist and one notification is added |
| Storage.Store.AwardXpToClient | utils/storage.ts:264-291 | only the clients with the id are awarded; every other client is left unchanged and in place |
| Booking.HasPassedMeansNotLater | pages/BookingPage.tsx:89 | on today the filter drops exactly the times at or before the current minute |
| Booking.KeptLength | pages/BookingPage.tsx:87-97 | at most two candidates per hour are offered |
| Booking.KeptMembers | pages/BookingPage.tsx:87-97 | a time is kept exactly when it is an accepted h:00 or h:30 candidate of an enumerated hour |
| Booking.KeptAscending | pages/BookingPage.tsx:87-97 | the kept times are strictly ascending |
| Booking.TimeSlots | pages/BookingPage.tsx:77-98 | nothing is offered until a barber, a date and a service are chosen; then the offered times are the accepted candidates, hour by hour |
| Booking.OfferedMembers | pages/BookingPage.tsx:80-96 | at most 24 times are offered, exactly the 08:00..19:30 half-hours that have not passed and that the availability predicate accepts for the service's duration |
| Booking.OfferedAscending | pages/BookingPage.tsx:80-96 | the offered times are strictly ascending |
| Booking.AnyProfessionalIgnoresBarbersBookings | pages/BookingPage.tsx:362 | with "any professional" availability is checked under the id "any", so no real barber's appointment makes a time unavailable |
| Booking.CustomerBooking | pages/BookingPage.tsx:112-123 | the booked appointment is pending, at the chosen date and time, for the chosen service and barber at the service's price, linked to the signed-in client when there is one |
| Booking.HandleBookingSubmit | pages/BookingPage.tsx:109-125 | without a service or a barber nothing happens; otherwise exactly that appointment is appended |
| Booking.WaitlistRequest | pages/BookingPage.tsx:141-149 | the entry carries the client, service and date, and the chosen barber's id or "any" |
| Booking.HandleJoinWaitlist | pages/BookingPage.tsx:136-150 | without a name, a phone or a service nothing happens; otherwise exactly that entry is appended |
| Booking.AnyEntryFitsEveryBarber | pages/BookingPage.tsx:146 | an entry without a barber, or with "any professional", is stored under "any"; for any appointment cancelled on its date, whoever its barber, the entry passes the barber test and fits exactly when its service exists and the freed slot is available for that service's duration |
| AdminAppointments.MinuteNumerals | pages/admin/Appointments.tsx:13-14 | the minute labels "00" and "30" read as 0 and 30, and are how 0 and 30 zero-pad |
| AdminAppointments.HourLabel | pages/admin/Appointments.tsx:13-14 | a padded hour label with two minute digits is a well-formed time of that many minutes |
| AdminAppointments.GenerateDaySlots | pages/admin/Appointments.tsx:10-17 | the grid has 26 cells; the cells of hour h (8 to 20) are exactly its zero-padded labels "HH:00" and "HH:30", in that order; and the k-th cell is a well-formed time 30k minutes after 08:00 |
| AdminAppointments.CellMinutes | pages/admin/Appointments.tsx:13-14 | a cell's label is a well-formed time that reads as its minutes after 08:00 |
| AdminAppointments.GridMinutes | pages/admin/Appointments.tsx:10-17 | a grid labelled hour by hour holds the time 30k minutes after 08:00 at index k |
| AdminAppointments.DaySlotsAscending | pages/admin/Appointments.tsx:10-17 | the grid is strictly ascending in 30-minute steps |
| AdminAppointments.GetBlockRule | pages/admin/Appointments.tsx:101-132 | the rule returned is the first in list order that marks the cell (for the barber or all, on the day, closing the day or holding the cell's start), and nothing is returned exactly when no rule marks it |
| AdminAppointments.MarkedCellIsRefused | pages/admin/Appointments.tsx:101-132 | a cell the calendar marks as blocked is refused to every request of positive length starting there |
| AdminAppointments.CalendarMissesPartialOverlap | pages/admin/Appointments.tsx:124-127 | the converse fails: a 09:00-10:00 block refuses a one-hour 08:30 request while the calendar leaves the 08:30 cell unmarked |
| AdminAppointments.OverlapRefused | utils/storage.ts:322-329 | a request overlapping a single slot rule's range on its day is refused |
| AdminAppointments.CalculateTotal | pages/admin/Appointments.tsx:222-227 | the total is 0 with nothing selected, else the price plus extras less the discount, never below 0, plus the tip |
| AdminAppointments.Names | pages/admin/Appointments.tsx:232 | the extras note lists each extra's name in order |
| AdminAppointments.CompletedWith | pages/admin/Appointments.tsx:234-242 | a paid appointment is completed at the total with the method, discount, tip and extras note, and nothing else changes |
| AdminAppointments.PaidValueIsCharged | pages/admin/Appointments.tsx:234-242 | revenue reports count a paid appointment at exactly the total charged |
| AdminAppointments.HandleCompletePayment | pages/admin/Appointments.tsx:229-248 | only the appointments with the selected id are completed, and the linked client, if any, earns XP; nothing happens with nothing selected |
| AdminAppointments.AdminBooking | pages/admin/Appointments.tsx:155-166 | the admin's booking is confirmed on the selected day at the form's time, for the form's client, service and barber, at the service's price or 0 when it is missing |
| AdminAppointments.HandleSaveBooking | pages/admin/Appointments.tsx:153-170 | without a client name, a service and a barber nothing happens; otherwise exactly that appointment is appended |
| AdminAppointments.NewBlock | pages/admin/Appointments.tsx:174-184 | a block carries a date exactly when single, a weekday exactly when recurring, a range exactly when slot-scoped, and the reason "Bloqueio" when none was typed |
| AdminAppointments.NewBlockWellFormed | types.ts:104-114 | a block made from a complete form on a real weekday is well formed |
| AdminAppointments.NewDayBlockClosesDay | pages/admin/Appointments.tsx:173-188 | a new whole-day block closes the selected day for its barber, or for everyone |
| AdminAppointments.HandleCreateBlock | pages/admin/Appointments.tsx:173-188 | exactly that block is stored |
| AdminAppointments.HandleDeleteBlock | pages/admin/Appointments.tsx:190-199 | once confirmed the block is removed, otherwise nothing changes |
| AdminAppointments.CancelById | pages/admin/Appointments.tsx:252 | cancelling keeps the length, marks every appointment with the id cancelled and leaves the others unchanged |
| AdminAppointments.FreedSlotFitsShorterRequest | utils/storage.ts:187-196 | in a schedule without double bookings, the slot of a cancelled appointment fits any request of no greater length at its time that no rule refuses |
| AdminAppointments.HandleCancelAppointment | pages/admin/Appointments.tsx:250-260 | once confirmed, only the selected appointment is cancelled and then the waitlist promotion runs on that schedule; otherwise nothing changes |
| Dashboard.RelevantApps | pages/admin/Dashboard.tsx:41-47 | a barber with a user id sees exactly their own appointments, anyone else all of them |
| Dashboard.RelevantBarbers | pages/admin/Dashboard.tsx:41-47 | a barber with a user id sees only their own record, anyone else all barbers |
| Dashboard.RevenueTodayByBarber | pages/admin/Dashboard.tsx:59-63 | the ranking is a permutation of the per-barber totals of today's completed appointments |
| Dashboard.RevenueRanking | pages/admin/Dashboard.tsx:59-63 | the revenue ranking has one row per barber, highest total first, with equal totals in barber-list order |
| Dashboard.CountRanking | pages/admin/Dashboard.tsx:70-73 | the count ranking has one row per barber, highest count of the month first, with equal counts in barber-list order |
| Dashboard.CountMonthByBarber | pages/admin/Dashboard.tsx:70-73 | the count ranking is a permutation of each barber's count of active appointments this month |
| Dashboard.RevenueSources | pages/admin/Dashboard.tsx:76-88 | each completed appointment's value goes to its item's kind; items missing from the catalog add nothing, and the subscription bucket stays 0 |
| Dashboard.TotalRevenueIsCatalogRevenue | pages/admin/Dashboard.tsx:96 | the all-time total is the value of the completed appointments whose item is in the catalog |
| Dashboard.BarberRate | pages/admin/Dashboard.tsx:118 | the barber's rate for a kind of item, or 0 without a commission table |
| Dashboard.CommissionRate | pages/admin/Dashboard.tsx:115-121 | the item's own rate whenever it is set, even to 0; otherwise the barber's rate for the item's kind, the service kind when the item is missing |
| Dashboard.CommissionAddsUp | pages/admin/Dashboard.tsx:104-126 | a barber's month commission is exactly the sum of the breakdown, which has nothing under subscriptions |
| Dashboard.BarberMonthFor | pages/admin/Dashboard.tsx:100-135 | the `forEach` yields the month's sales, commission, commission by kind and count of completed appointments for the barber |
| Dashboard.MonthlyCommissions | pages/admin/Dashboard.tsx:99-135 | one row per active barber, in list order, and only active barbers of the list appear |
| Dashboard.Stats | pages/admin/Dashboard.tsx:38-148 | every figure, computed from the role-filtered appointments and barbers: revenue from completed appointments, counts without cancelled or blocked ones, and the rankings, sources and commissions above |
| Dashboard.OwnFiguresOnly | pages/admin/Dashboard.tsx:44-47 | for a barber signed in, other barbers' appointments change no figure, and only their own record is used |
| Catalog.CurrentUser | pages/admin/Services.tsx:24-28 | only a non-admin with a user id has a current user, a barber of the list with that id |
| Catalog.PreviewRate | pages/admin/Services.tsx:37-39 | the preview uses the item's rate only when it is set and above 0, else the barber's rate for the kind |
| Catalog.CalculateCommission | pages/admin/Products.tsx:41-49 | the preview commission is 0 without a current user, else price times the preview rate over 100 |
| Catalog.PreviewAgreesWithDashboard | pages/admin/Services.tsx:34-42 | the preview and the dashboard apply the same rate to an item exactly when the item's rate is unset, above 0, or equal to the barber's |
| Catalog.ServiceFromForm | pages/admin/Services.tsx:48-59 | a saved service is of the service kind, lasts 30 minutes and has rate 0 when those fields are empty, and has cost and stock 0 |
| Catalog.ProductFromForm | pages/admin/Products.tsx:55-66 | a saved product is of the product kind, takes no chair time, and has cost, stock and rate 0 when those fields are empty |
| Catalog.EmptyRateFieldMeansNoCommission | pages/admin/Services.tsx:58 | an item saved with an empty rate field earns no commission on the dashboard while its preview shows the barber's rate |
| Catalog.SaveItem | pages/admin/Services.tsx:61-70 | an edited item is replaced in place, a new one appended, and every other id finds what it found before |
| Catalog.HandleSaveService | pages/admin/Services.tsx:44-73 | the built service replaces the edited one or is appended |
| Catalog.HandleSaveProduct | pages/admin/Products.tsx:51-80 | the built product replaces the edited one or is appended |
| Catalog.HandleDeleteItem | pages/admin/Products.tsx:82-89 | once confirmed the items with the id are gone and every other id finds what it found before; otherwise nothing changes |
| Catalog.ProfitIsPerProduct | pages/admin/Products.tsx:34-39 | the potential profit is the sum over products of price minus cost times stock |
| Packages.SubscriptionRate | pages/admin/Packages.tsx:38 | the barber's subscription rate, or 0 without a commission table |
| Packages.PackageCommission | pages/admin/Packages.tsx:36-40 | 0 without a current user, else the price times the subscription rate over 100 |
| Packages.PackageFromForm | pages/admin/Packages.tsx:45-54 | a saved package carries exactly the form's name, price, monthly limit and ticked services |
| Packages.HandleSavePackage | pages/admin/Packages.tsx:42-65 | the edited package is replaced in place or a new one appended; every other id finds what it found before |
| Packages.HandleDeletePackage | pages/admin/Packages.tsx:67-73 | once confirmed the package is gone and every other id finds what it found before |
| Barbers.OpenForm | pages/admin/Barbers.tsx:26-46 | a barber stored without a commission table is edited with 50/15/10; a new form is empty, active and has that table |
| Barbers.Merge | pages/admin/Barbers.tsx:53 | the form's present fields override the stored barber's |
| Barbers.NewBarber | pages/admin/Barbers.tsx:55-58 | a new barber takes the form's fields under a fresh id |
| Barbers.OpenAndSaveFillsDefaultRates | pages/admin/Barbers.tsx:29-53 | opening a barber and saving untouched gives it back, with the default table when it had none |
| Barbers.NewFormDefaults | pages/admin/Barbers.tsx:32-44 | a barber added through an untouched form is active with the default table |
| Barbers.HandleSave | pages/admin/Barbers.tsx:48-64 | without a name nothing changes; an edit merges into the barber with the id in place; a new barber is appended |
| Barbers.MergeKeepsId | pages/admin/Barbers.tsx:51-53 | merging a form opened on a barber keeps the barber's id |
| Barbers.EditTouchesOnlyThatBarber | pages/admin/Barbers.tsx:51-53 | an edit leaves the barbers with other ids as they were and in their order |
| Barbers.HandleDelete | pages/admin/Barbers.tsx:66-72 | once confirmed the barber with the id is gone; otherwise nothing changes |
| Subscribers.VisibleSubscribers | pages/admin/Subscribers.tsx:39-42 | an admin sees every subscriber, anyone else exactly those linked to their user id |
| Subscribers.CountGroupsPartition | pages/admin/Subscribers.tsx:46-48 | every subscriber is counted in exactly one of the three groups |
| Subscribers.AddToBarberKeys | pages/admin/Subscribers.tsx:62 | one turn of the loop keeps a key for exactly the barbers seen so far |
| Subscribers.AddToBarberSums | pages/admin/Subscribers.tsx:62-66 | one turn of the loop keeps each key at the revenue of that barber's active subscribers seen so far |
| Subscribers.Stats | pages/admin/Subscribers.tsx:45-83 | the group counts, the revenue of active subscribers, the revenue of the others, the average ticket (0 with none active), and per linked barber the revenue of their active subscribers |
| Subscribers.RevenueSplitsAll | pages/admin/Subscribers.tsx:51-70 | collected plus pending revenue is the package price of every visible subscriber |
| Subscribers.SumSplitsByBarber | pages/admin/Subscribers.tsx:55-67 | a revenue splits into the sums over distinct barbers plus the rest |
| Subscribers.BarberRevenueAddsUp | pages/admin/Subscribers.tsx:55-67 | the per-barber revenues, each key taken once, add up to the total collected revenue |
| Subscribers.SelectedBarberId | pages/admin/Subscribers.tsx:136 | an admin links the chosen barber; anyone else is forced to their own id, or "any" |
| Subscribers.NewSubscriber | pages/admin/Subscribers.tsx:138-149 | a paid registration is active with the package price as payment now; otherwise pending with 0 and no payment date |
| Subscribers.HandleCreateSubscriber | pages/admin/Subscribers.tsx:127-155 | exactly the new subscriber is appended |
| Subscribers.CreatedSubscriberCounts | pages/admin/Subscribers.tsx:127-155 | a barber sees the subscriber they register, and a paid one adds its package price to the collected revenue |
| Subscribers.WithStatus | pages/admin/Subscribers.tsx:161-166 | the status changes, payment amount and date change only when the new status is active, nothing else changes |
| Subscribers.HandleUpdateStatus | pages/admin/Subscribers.tsx:157-175 | without a selected subscriber nothing changes; otherwise only the subscriber with that id is updated |
| Subscribers.UpdateStatusTouchesOnlyOne | pages/admin/Subscribers.tsx:157-170 | the others are left unchanged and in place, the updated one keeps its id, and repeating the update changes nothing |
| Subscribers.HandleDeleteSubscriber | pages/admin/Subscribers.tsx:185-191 | once confirmed the subscriber with the id is gone; otherwise nothing changes |

## Left out

- Persistence in the browser's storage, JSON encoding, and data export, import, backup and restore: the store is an object holding the lists.
- Rendering, modals, form state, `alert`, the browser `Notification` API and console output: presentation only.
- Id generation and the clock: ids, the current instant, today's date and the current hour and minute are parameters. The booking page's today uses UTC and its hour the local time; the model takes the comparison against a given today and now.
- The dashboard's `isToday`, `isThisWeek` and `isThisMonth` depend on the clock and are parameters; `isThisWeek` even mutates its `Date`.
- `confirm()` is a boolean parameter of the delete and cancel handlers.
- Floating-point money, rounding and currency formatting: money is exact `real`.
- JavaScript's `Number` on text other than digit runs (signs, spaces, decimals, exponents): such text reads as NaN here.
- Timestamps are the instants they denote, as integers; string formatting of instants is not modelled.
- Date keys are read only when strictly "YYYY-MM-DD" with a real calendar day; `Date`'s rollover of days such as "2024-02-30" is not modelled, and such keys have no weekday.
- Block rule and status values outside their declared unions can only arrive through imported data and are not representable.
- `barberRevenue` keys that name `Object.prototype` members (such as "constructor") behave differently in JavaScript; keys are plain map keys here.
- The admin calendar works on its page's copy of the lists, reloaded after every action; the model reads and writes the store directly.
- `getNotifications` (reading and sorting one client's notifications), `handlePromoteWaitlist`, `handleAddExtra` and `handleRemoveExtra`: form and view state around the modelled operations.
- WhatsApp reminder links (month rollover, URL encoding) and the case-insensitive subscriber search.
- WeekDayOf: its own contract gives only when a key has a weekday and its range; which weekday it is (0 for Sunday, as `getDay()` numbers them) is stated by `KnownSunday` and `WeekDayOfNextKey` together.
- Remove: its own contract states which records survive; their order and multiplicity are stated by `RemoveConcat`, and deleting an absent id by `RemoveAbsentId`.
- The login, session roles, routing, levels, settings and backup pages; seed data except the initial level table.
