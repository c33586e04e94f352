/**
 * The admin calendar: the half-hour grid of a day, the block rule that marks
 * a grid cell, and the actions taken from it — booking on behalf of a
 * client, creating and removing blocks, taking payment and cancelling.
 *
 * The page keeps copies of the stored lists and reloads them after every
 * action, so the actions here read and write the store directly. The
 * selected day arrives as its date key and its weekday (0-6).
 */
module AdminAppointments {
  import opened Wrappers
  import opened Types
  import opened Clock
  import opened Seqs
  import opened Availability
  import opened Storage

  // ---------------------------------------------------------------------------
  // The day grid

  /** "00" and "30" read as 0 and 30 minutes, and are how 0 and 30 format. */
  lemma MinuteNumerals()
    ensures AllDigits("00") && DigitsValue("00") == 0
    ensures AllDigits("30") && DigitsValue("30") == 30
    ensures PadStart2(ShowNat(0)) == "00" && PadStart2(ShowNat(30)) == "30"
  {
    assert "00"[..1] == "0" && "0"[..0] == "";
    assert "30"[..1] == "3" && "3"[..0] == "";
    assert ShowNat(0) == "0";
    assert ShowNat(30) == ShowNat(3) + "0" == "30";
  }

  /** An hour label followed by ':' and two minute digits is a well-formed time with that many minutes. */
  lemma HourLabel(h: nat, mm: string)
    requires h < 100 && |mm| == 2 && AllDigits(mm)
    ensures IsHhmm(PadStart2(ShowNat(h)) + ":" + mm)
    ensures ToMinutes(PadStart2(ShowNat(h)) + ":" + mm) == Some(h * 60 + DigitsValue(mm))
  {
    ShowNatLength(h);
    PadStart2Value(ShowNat(h));
    ToMinutesOfNumerals(PadStart2(ShowNat(h)), mm);
  }

  /** Where hour h's cell at `half` half-hours past the hour sits in the day grid. */
  function CellIndex(h: nat, half: nat): int {
    2 * (h - 8) + half
  }

  /** `generateDaySlots`: 08:00, 08:30, ..., 20:30. */
  method GenerateDaySlots() returns (slots: seq<string>)
    ensures |slots| == 26
    ensures forall h: nat, half: nat :: 8 <= h < 21 && half < 2 ==> slots[CellIndex(h, half)] == Hhmm(h, 30 * half)
    ensures forall k :: 0 <= k < |slots| ==> IsHhmm(slots[k]) && ToMinutes(slots[k]) == Some(480 + 30 * k)
  {
    MinuteNumerals();
    slots := [];
    var h := 8;
    while h < 21
      invariant 8 <= h <= 21
      invariant |slots| == 2 * (h - 8)
      invariant forall h': nat, half: nat :: 8 <= h' < h && half < 2 ==> slots[CellIndex(h', half)] == Hhmm(h', 30 * half)
    {
      var hour := PadStart2(ShowNat(h));
      assert hour + ":00" == hour + ":" + "00" == Hhmm(h, 30 * 0);
      assert hour + ":30" == hour + ":" + "30" == Hhmm(h, 30 * 1);
      slots := slots + [hour + ":00"];
      slots := slots + [hour + ":30"];
      h := h + 1;
    }
    GridMinutes(slots);
  }

  /** The cell of hour h at `half` half-hours past it is a well-formed time that many minutes after 08:00. */
  lemma CellMinutes(h: nat, half: nat)
    requires 8 <= h < 21 && half < 2
    ensures IsHhmm(Hhmm(h, 30 * half)) && ToMinutes(Hhmm(h, 30 * half)) == Some(480 + 30 * CellIndex(h, half))
  {
    HhmmShape(h, 30 * half);
    HhmmRoundTrip(h, 30 * half);
  }

  /** A grid labelled hour by hour holds, at index k, the time 30k minutes after 08:00. */
  lemma GridMinutes(slots: seq<string>)
    requires |slots| == 26
    requires forall h: nat, half: nat :: 8 <= h < 21 && half < 2 ==> slots[CellIndex(h, half)] == Hhmm(h, 30 * half)
    ensures forall k :: 0 <= k < |slots| ==> IsHhmm(slots[k]) && ToMinutes(slots[k]) == Some(480 + 30 * k)
  {
    forall k | 0 <= k < |slots|
      ensures IsHhmm(slots[k]) && ToMinutes(slots[k]) == Some(480 + 30 * k)
    {
      var h: nat, half: nat := 8 + k / 2, k % 2;
      assert CellIndex(h, half) == k;
      CellMinutes(h, half);
    }
  }

  /** The grid is strictly ascending in 30-minute steps. */
  lemma DaySlotsAscending(slots: seq<string>, i: nat, j: nat)
    requires forall k :: 0 <= k < |slots| ==> ToMinutes(slots[k]) == Some(480 + 30 * k)
    requires i < j < |slots|
    ensures Lt(ToMinutes(slots[i]), ToMinutes(slots[j]))
    ensures ToMinutes(slots[j]).value - ToMinutes(slots[i]).value == 30 * (j - i)
  {
  }

  // ---------------------------------------------------------------------------
  // The block rule that marks a grid cell

  /**
   * One `find` test: the rule is for the barber (or all), falls on the day,
   * and either closes the day or is a complete slot rule whose range holds
   * the cell's start: `slotMin >= start && slotMin < end`.
   */
  predicate MarksCell(rule: BlockedTime, dateKey: string, weekDay: int, slotMin: Num, barberId: string) {
    && AppliesTo(rule, barberId)
    && FallsOn(rule, dateKey, Some(weekDay))
    && (|| rule.scope == Day
        || (HasRange(rule) && Le(RuleStart(rule), slotMin) && Lt(slotMin, RuleEnd(rule))))
  }

  function MarksCellAt(dateKey: string, weekDay: int, time: string, barberId: string): BlockedTime -> bool {
    (rule: BlockedTime) => MarksCell(rule, dateKey, weekDay, ToMinutes(time), barberId)
  }

  /** `getBlockRule(time, barberId)`: the first rule, in list order, that marks the cell. */
  function GetBlockRule(rules: seq<BlockedTime>, dateKey: string, weekDay: int, time: string, barberId: string)
    : (r: Option<BlockedTime>)
    ensures r.Some? ==> r.value in rules && MarksCell(r.value, dateKey, weekDay, ToMinutes(time), barberId)
    ensures r.Some? ==> exists i :: 0 <= i < |rules| && rules[i] == r.value
                          && forall k :: 0 <= k < i ==> !MarksCell(rules[k], dateKey, weekDay, ToMinutes(time), barberId)
    ensures r.None? <==> forall rule :: rule in rules ==> !MarksCell(rule, dateKey, weekDay, ToMinutes(time), barberId)
  {
    var found := FirstWhere(rules, MarksCellAt(dateKey, weekDay, time, barberId));
    if found.Some? then
      var i := FirstIndex(rules, MarksCellAt(dateKey, weekDay, time, barberId));
      assert rules[i] == found.value;
      found
    else found
  }

  /**
   * The calendar is never more permissive than booking: a cell the calendar
   * marks as blocked is refused to every request of positive length starting
   * there.
   */
  lemma MarkedCellIsRefused(
    rules: seq<BlockedTime>, apps: seq<Appointment>, services: seq<Service>,
    dateKey: string, weekDay: int, time: string, barberId: string, durationMinutes: int)
    requires WeekDayOf(dateKey) == Some(weekDay)
    requires GetBlockRule(rules, dateKey, weekDay, time, barberId).Some?
    requires durationMinutes > 0
    ensures !IsTimeSlotAvailable(rules, apps, services, barberId, dateKey, time, durationMinutes)
  {
    var rule := GetBlockRule(rules, dateKey, weekDay, time, barberId).value;
    var i :| 0 <= i < |rules| && rules[i] == rule;
    assert RuleBlocks(rules[i], barberId, dateKey, WeekDayOf(dateKey),
                      RequestStart(time), RequestEnd(time, durationMinutes));
  }

  /**
   * The converse fails: a slot block 09:00-10:00 refuses a one-hour request
   * at 08:30, yet the calendar shows the 08:30 cell as free, because it
   * tests only the cell's start.
   */
  lemma CalendarMissesPartialOverlap(dateKey: string, barberId: string)
    ensures var rule := BlockedTime("block", barberId, Single, Slot, Some(dateKey), None,
                                    Some(Hhmm(9, 0)), Some(Hhmm(10, 0)), None);
            && GetBlockRule([rule], dateKey, 0, Hhmm(8, 30), barberId).None?
            && !IsTimeSlotAvailable([rule], [], [], barberId, dateKey, Hhmm(8, 30), 60)
  {
    var rule := BlockedTime("block", barberId, Single, Slot, Some(dateKey), None,
                            Some(Hhmm(9, 0)), Some(Hhmm(10, 0)), None);
    HhmmRoundTrip(9, 0);
    HhmmRoundTrip(8, 30);
    assert !MarksCell(rule, dateKey, 0, ToMinutes(Hhmm(8, 30)), barberId);
    HhmmRoundTrip(10, 0);
    OverlapRefused(rule, dateKey, barberId, Hhmm(8, 30), 60);
  }

  /** A request that overlaps a slot rule's range, on its day and for its barber, is refused. */
  lemma OverlapRefused(rule: BlockedTime, dateKey: string, barberId: string, time: string, durationMinutes: int)
    requires rule.barberId == barberId && rule.kind == Single && rule.scope == Slot && rule.date == Some(dateKey)
    requires Truthy(rule.startTime) && Truthy(rule.endTime)
    requires ToMinutes(rule.startTime.value).Some? && ToMinutes(rule.endTime.value).Some? && ToMinutes(time).Some?
    requires ToMinutes(time).value < ToMinutes(rule.endTime.value).value
    requires ToMinutes(rule.startTime.value).value < ToMinutes(time).value + durationMinutes
    ensures !IsTimeSlotAvailable([rule], [], [], barberId, dateKey, time, durationMinutes)
  {
    assert HasRange(rule);
    assert [rule][0] == rule;
    assert RuleBlocks(rule, barberId, dateKey, WeekDayOf(dateKey), RequestStart(time), RequestEnd(time, durationMinutes));
  }

  // ---------------------------------------------------------------------------
  // Payment

  function PriceOf(s: Service): real {
    s.price
  }

  /**
   * `calculateTotal`: the appointment's price plus the extras, less the
   * discount but never below zero, plus the tip; 0 with nothing selected.
   */
  function CalculateTotal(selected: Option<Appointment>, extras: seq<Service>, discount: real, tip: real): (total: real)
    ensures selected.None? ==> total == 0.0
    ensures selected.Some? ==> total >= tip
    ensures selected.Some? && selected.value.totalPrice + Sum(extras, PriceOf) >= discount ==>
              total == selected.value.totalPrice + Sum(extras, PriceOf) - discount + tip
    ensures selected.Some? && selected.value.totalPrice + Sum(extras, PriceOf) < discount ==> total == tip
  {
    match selected
    case None => 0.0
    case Some(app) =>
      var beforeTip := app.totalPrice + Sum(extras, PriceOf) - discount;
      (if beforeTip >= 0.0 then beforeTip else 0.0) + tip
  }

  /** `parts.join(sep)`. */
  function Join(parts: seq<string>, sep: string): string {
    if parts == [] then ""
    else if |parts| == 1 then parts[0]
    else parts[0] + sep + Join(parts[1..], sep)
  }

  function Names(items: seq<Service>): (names: seq<string>)
    ensures |names| == |items| && forall i :: 0 <= i < |items| ==> names[i] == items[i].name
  {
    seq(|items|, i requires 0 <= i < |items| => items[i].name)
  }

  /** The note appended for extras: " | Extras: a, b", or nothing without extras. */
  function ExtrasNote(extras: seq<Service>): string {
    if |extras| > 0 then " | Extras: " + Join(Names(extras), ", ") else ""
  }

  datatype PaymentForm = PaymentForm(payMethod: PaymentMethod, discount: real, tip: real, extras: seq<Service>)

  function HasAppId(id: string): Appointment -> bool {
    (a: Appointment) => a.id == id
  }

  /** The appointment as paid: completed, with the payment details and the charged total. */
  function CompletedWith(a: Appointment, pay: PaymentForm, total: real): (r: Appointment)
    ensures r.status == Completed && r.finalPrice == Some(total) && r.paymentMethod == Some(pay.payMethod)
    ensures r.discount == Some(pay.discount) && r.tip == Some(pay.tip)
    ensures r.notes == Some(a.notes.GetOr("") + ExtrasNote(pay.extras))
    ensures r.(status := a.status, finalPrice := a.finalPrice, paymentMethod := a.paymentMethod,
               discount := a.discount, tip := a.tip, notes := a.notes) == a
  {
    a.(status := Completed, paymentMethod := Some(pay.payMethod), discount := Some(pay.discount),
       tip := Some(pay.tip), finalPrice := Some(total), notes := Some(a.notes.GetOr("") + ExtrasNote(pay.extras)))
  }

  function CompleteWith(pay: PaymentForm, total: real): Appointment -> Appointment {
    (a: Appointment) => CompletedWith(a, pay, total)
  }

  /** Revenue reports count a paid appointment at exactly the total charged. */
  lemma PaidValueIsCharged(a: Appointment, pay: PaymentForm, total: real)
    ensures CompletedWith(a, pay, total).Value() == total
    ensures CompletedWith(a, pay, total).status == Completed
  {
  }

  /**
   * `handleCompletePayment`: the selected appointment (by id) becomes
   * completed at the computed total; a client account linked to it earns
   * XP. Nothing happens with no appointment selected.
   */
  method HandleCompletePayment(store: Store, selected: Option<Appointment>, pay: PaymentForm)
    modifies store`appointments, store`clients
    ensures selected.None? ==> store.appointments == old(store.appointments) && store.clients == old(store.clients)
    ensures selected.Some? ==>
              store.appointments == MapWhere(old(store.appointments), HasAppId(selected.value.id),
                                             CompleteWith(pay, CalculateTotal(selected, pay.extras, pay.discount, pay.tip)))
    ensures selected.Some? && Truthy(selected.value.clientId) ==>
              store.clients == MapWhere(old(store.clients), HasClientId(selected.value.clientId.value),
                                        AwardUnder(store.levelConfig))
    ensures selected.Some? && !Truthy(selected.value.clientId) ==> store.clients == old(store.clients)
  {
    if selected.None? {
      return;
    }
    var app := selected.value;
    var total := CalculateTotal(selected, pay.extras, pay.discount, pay.tip);
    store.UpdateAppointments(MapWhere(store.appointments, HasAppId(app.id), CompleteWith(pay, total)));
    if app.clientId.Some? && app.clientId.value != "" {
      store.AwardXpToClient(app.clientId.value);
    }
  }

  // ---------------------------------------------------------------------------
  // Booking and blocking

  datatype BookingForm = BookingForm(clientName: string, clientPhone: string, serviceId: string, barberId: string, time: string)

  /** The appointment the admin books from the form on the selected day. */
  function AdminBooking(form: BookingForm, services: seq<Service>, dateKey: string, id: string, now: int)
    : (a: Appointment)
    ensures a.status == Confirmed && a.date == dateKey && a.time == form.time
    ensures a.serviceId == form.serviceId && a.barberId == form.barberId
    ensures a.client == ClientContact(form.clientName, form.clientPhone) && a.clientId.None?
    ensures FindService(services, form.serviceId).Some? ==> a.totalPrice == FindService(services, form.serviceId).value.price
    ensures FindService(services, form.serviceId).None? ==> a.totalPrice == 0.0
  {
    var price := match FindService(services, form.serviceId) case Some(s) => s.price case None => 0.0;
    Appointment(id, form.serviceId, form.barberId, dateKey, form.time,
                ClientContact(form.clientName, form.clientPhone), None, Confirmed, price,
                None, None, None, None, None, now)
  }

  /** `handleSaveBooking`: nothing without a client name, a service and a barber; otherwise one confirmed appointment. */
  method HandleSaveBooking(store: Store, form: BookingForm, dateKey: string, id: string, now: int)
    modifies store`appointments
    ensures form.clientName == "" || form.serviceId == "" || form.barberId == "" ==>
              store.appointments == old(store.appointments)
    ensures form.clientName != "" && form.serviceId != "" && form.barberId != "" ==>
              store.appointments == old(store.appointments) + [AdminBooking(form, store.services, dateKey, id, now)]
  {
    if form.clientName == "" || form.serviceId == "" || form.barberId == "" {
      return;
    }
    store.SaveAppointment(AdminBooking(form, store.services, dateKey, id, now));
  }

  datatype BlockForm = BlockForm(kind: BlockKind, scope: BlockScope, barberId: string,
                                 startTime: string, endTime: string, reason: string)

  /**
   * The block created from the form: a date only for a single block, a
   * weekday only for a recurring one, a range only for a slot block, and the
   * reason "Bloqueio" when none was typed.
   */
  function NewBlock(form: BlockForm, dateKey: string, weekDay: int, id: string): (b: BlockedTime)
    ensures b.id == id && b.barberId == form.barberId && b.kind == form.kind && b.scope == form.scope
    ensures b.date.Some? <==> form.kind == Single
    ensures b.date.Some? ==> b.date.value == dateKey
    ensures b.weekDay.Some? <==> form.kind == Recurring
    ensures b.weekDay.Some? ==> b.weekDay.value == weekDay
    ensures b.startTime.Some? <==> form.scope == Slot
    ensures b.endTime.Some? <==> form.scope == Slot
    ensures form.scope == Slot ==> b.startTime == Some(form.startTime) && b.endTime == Some(form.endTime)
    ensures b.reason == Some(if form.reason == "" then "Bloqueio" else form.reason)
  {
    BlockedTime(id, form.barberId, form.kind, form.scope,
                if form.kind == Single then Some(dateKey) else None,
                if form.kind == Recurring then Some(weekDay) else None,
                if form.scope == Slot then Some(form.startTime) else None,
                if form.scope == Slot then Some(form.endTime) else None,
                Some(if form.reason == "" then "Bloqueio" else form.reason))
  }

  /** A block made from a complete form on a real weekday has the shape the record promises. */
  lemma NewBlockWellFormed(form: BlockForm, dateKey: string, weekDay: int, id: string)
    requires form.barberId != "" && 0 <= weekDay < 7
    requires form.scope == Slot ==> IsHhmm(form.startTime) && IsHhmm(form.endTime)
    ensures NewBlock(form, dateKey, weekDay, id).WellFormed()
  {
  }

  /**
   * A whole-day block created on the selected day closes that day for its
   * barber (or for everyone), whichever kind it is.
   */
  lemma NewDayBlockClosesDay(
    blocked: seq<BlockedTime>, apps: seq<Appointment>, services: seq<Service>,
    form: BlockForm, dateKey: string, weekDay: int, id: string,
    barberId: string, time: string, durationMinutes: int)
    requires WeekDayOf(dateKey) == Some(weekDay)
    requires form.scope == Day && (form.barberId == AllBarbers || form.barberId == barberId)
    ensures !IsTimeSlotAvailable(blocked + [NewBlock(form, dateKey, weekDay, id)], apps, services,
                                 barberId, dateKey, time, durationMinutes)
  {
    var b := NewBlock(form, dateKey, weekDay, id);
    DayBlockRefusesAll(blocked + [b], apps, services, barberId, dateKey, time, durationMinutes, b);
  }

  /** `handleCreateBlock`. */
  method HandleCreateBlock(store: Store, form: BlockForm, dateKey: string, weekDay: int, id: string)
    modifies store`blockedTimes
    ensures store.blockedTimes == old(store.blockedTimes) + [NewBlock(form, dateKey, weekDay, id)]
  {
    store.SaveBlockedTime(NewBlock(form, dateKey, weekDay, id));
  }

  /** `handleDeleteBlock`: removes the block once the user confirms. */
  method HandleDeleteBlock(store: Store, id: string, confirmed: bool)
    modifies store`blockedTimes
    ensures confirmed ==> store.blockedTimes == Filter(old(store.blockedTimes), NotBlock(id))
    ensures !confirmed ==> store.blockedTimes == old(store.blockedTimes)
  {
    if confirmed {
      store.RemoveBlockedTime(id);
    }
  }

  // ---------------------------------------------------------------------------
  // Cancellation

  function CancelIt(a: Appointment): Appointment {
    a.(status := Cancelled)
  }

  /** The appointments with every one carrying the id marked cancelled. */
  function CancelById(apps: seq<Appointment>, id: string): (r: seq<Appointment>)
    ensures |r| == |apps|
    ensures forall i :: 0 <= i < |apps| ==> r[i] == if apps[i].id == id then apps[i].(status := Cancelled) else apps[i]
  {
    MapWhere(apps, HasAppId(id), CancelIt)
  }

  /**
   * The slot a cancelled appointment held fits any request starting at the
   * same time that is no longer than it, when the schedule had no double
   * bookings and no block rule refuses the request.
   */
  lemma FreedSlotFitsShorterRequest(
    blocked: seq<BlockedTime>, apps: seq<Appointment>, services: seq<Service>,
    cancelled: Appointment, durationMinutes: int)
    requires ConflictFree(apps, services)
    requires cancelled in apps && cancelled.status != Cancelled && StartOf(cancelled).Some?
    requires durationMinutes <= DurationOf(cancelled, services)
    requires IsTimeSlotAvailable(blocked, [], services, cancelled.barberId, cancelled.date, cancelled.time, durationMinutes)
    ensures IsTimeSlotAvailable(blocked, CancelById(apps, cancelled.id), services,
                                cancelled.barberId, cancelled.date, cancelled.time, durationMinutes)
  {
    var after := CancelById(apps, cancelled.id);
    var reqStart := RequestStart(cancelled.time);
    var reqEnd := RequestEnd(cancelled.time, durationMinutes);
    var i :| 0 <= i < |apps| && apps[i] == cancelled;
    forall j | 0 <= j < |after|
      ensures !Conflicts(after[j], services, cancelled.barberId, cancelled.date, reqStart, reqEnd)
    {
      if apps[j].id != cancelled.id {
        assert j != i;
      }
    }
  }

  /** `handleCancelAppointment`: once confirmed, cancel the selected appointment, then run waitlist promotion. */
  method HandleCancelAppointment(store: Store, selected: Option<Appointment>, confirmed: bool,
                                 appId: string, noticeId: string, now: int)
    modifies store`appointments, store`waitlist, store`notifications
    ensures selected.None? || !confirmed ==>
              && store.appointments == old(store.appointments)
              && store.waitlist == old(store.waitlist)
              && store.notifications == old(store.notifications)
    ensures selected.Some? && confirmed ==>
              var afterCancel := CancelById(old(store.appointments), selected.value.id);
              var next := NextInLine(old(store.waitlist), selected.value, store.blockedTimes, afterCancel, store.services);
              && (next.None? ==>
                    store.appointments == afterCancel && store.waitlist == old(store.waitlist)
                    && store.notifications == old(store.notifications))
              && (next.Some? ==>
                    && FindService(store.services, next.value.serviceId).Some?
                    && store.appointments == afterCancel
                         + [Promoted(next.value, FindService(store.services, next.value.serviceId).value,
                                     selected.value, appId, now)]
                    && store.waitlist == Filter(old(store.waitlist), NotEntry(next.value.id))
                    && store.notifications == old(store.notifications)
                         + [PromotionNotice(next.value, selected.value, noticeId, now)])
  {
    if selected.None? || !confirmed {
      return;
    }
    store.UpdateAppointments(CancelById(store.appointments, selected.value.id));
    store.CheckWaitlistAfterCancellation(selected.value, appId, noticeId, now);
  }
}
