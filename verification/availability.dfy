/**
 * Whether a barber can take a request of `durationMinutes` starting at
 * `time` on `date`: the central booking predicate. A request is refused when
 *   - a block rule for the barber (or for "all") falls on the date and closes
 *     the whole day;
 *   - such a rule closes a time range that strictly overlaps the request;
 *   - a non-cancelled appointment of the same barber on the same date strictly
 *     overlaps the request (an appointment whose service has left the catalog
 *     is taken to last 30 minutes).
 * The predicate reads a snapshot of the block rules, the appointments and the
 * catalog.
 */
module Availability {
  import opened Wrappers
  import opened Types
  import opened Clock
  import Seqs

  // ---------------------------------------------------------------------------
  // Block rules

  /** The rule is for this barber, or for every barber. */
  predicate AppliesTo(rule: BlockedTime, barberId: string) {
    rule.barberId == AllBarbers || rule.barberId == barberId
  }

  /**
   * A single rule falls on its own date key; a recurring rule on its weekday.
   * A missing weekday (undefined) or an unreadable date (NaN) never matches.
   */
  predicate FallsOn(rule: BlockedTime, date: string, weekDay: Num) {
    match rule.kind
    case Single => rule.date == Some(date)
    case Recurring => rule.weekDay.Some? && weekDay == Some(rule.weekDay.value)
  }

  /** A slot rule whose start and end are both present and non-empty. */
  predicate HasRange(rule: BlockedTime) {
    rule.scope == Slot && Truthy(rule.startTime) && Truthy(rule.endTime)
  }

  function RuleStart(rule: BlockedTime): Num
    requires HasRange(rule)
  {
    ToMinutes(rule.startTime.value)
  }

  function RuleEnd(rule: BlockedTime): Num
    requires HasRange(rule)
  {
    ToMinutes(rule.endTime.value)
  }

  /** One turn of the rule loop refuses the request. */
  predicate RuleBlocks(rule: BlockedTime, barberId: string, date: string, weekDay: Num, reqStart: Num, reqEnd: Num) {
    && AppliesTo(rule, barberId)
    && FallsOn(rule, date, weekDay)
    && (|| rule.scope == Day
        || (HasRange(rule) && Lt(reqStart, RuleEnd(rule)) && Lt(RuleStart(rule), reqEnd)))
  }

  /** The rule loop: it returns early as soon as one rule refuses the request. */
  function BlockedByRules(rules: seq<BlockedTime>, barberId: string, date: string, weekDay: Num, reqStart: Num, reqEnd: Num): (b: bool)
    ensures b <==> exists i :: 0 <= i < |rules| && RuleBlocks(rules[i], barberId, date, weekDay, reqStart, reqEnd)
  {
    if rules == [] then false
    else
      RuleBlocks(rules[0], barberId, date, weekDay, reqStart, reqEnd)
      || (assert forall i :: 0 < i < |rules| ==> rules[i] == rules[1..][i - 1];
          BlockedByRules(rules[1..], barberId, date, weekDay, reqStart, reqEnd))
  }

  // ---------------------------------------------------------------------------
  // Appointments

  /** How long an existing appointment lasts: its service's duration, or 30 minutes. */
  function DurationOf(app: Appointment, services: seq<Service>): (d: int)
    ensures FindService(services, app.serviceId).None? ==> d == 30
    ensures FindService(services, app.serviceId).Some? ==> d == FindService(services, app.serviceId).value.durationMinutes
  {
    match FindService(services, app.serviceId)
    case Some(s) => s.durationMinutes
    case None => 30
  }

  function StartOf(app: Appointment): Num {
    ToMinutes(app.time)
  }

  function EndOf(app: Appointment, services: seq<Service>): Num {
    Plus(StartOf(app), DurationOf(app, services))
  }

  /** The appointment holds this barber's chair on this date. */
  predicate Occupies(app: Appointment, barberId: string, date: string) {
    app.barberId == barberId && app.date == date && app.status != Cancelled
  }

  /** `reqStart < existingEnd && reqEnd > existingStart`. */
  predicate Overlaps(app: Appointment, services: seq<Service>, reqStart: Num, reqEnd: Num) {
    Lt(reqStart, EndOf(app, services)) && Lt(StartOf(app), reqEnd)
  }

  predicate Conflicts(app: Appointment, services: seq<Service>, barberId: string, date: string, reqStart: Num, reqEnd: Num) {
    Occupies(app, barberId, date) && Overlaps(app, services, reqStart, reqEnd)
  }

  /** `appointments.filter(same barber, date, not cancelled).some(overlaps)`. */
  function AnyConflict(apps: seq<Appointment>, services: seq<Service>, barberId: string, date: string, reqStart: Num, reqEnd: Num): (b: bool)
    ensures b <==> exists i :: 0 <= i < |apps| && Conflicts(apps[i], services, barberId, date, reqStart, reqEnd)
  {
    if apps == [] then false
    else
      Conflicts(apps[0], services, barberId, date, reqStart, reqEnd)
      || (assert forall i :: 0 < i < |apps| ==> apps[i] == apps[1..][i - 1];
          AnyConflict(apps[1..], services, barberId, date, reqStart, reqEnd))
  }

  // ---------------------------------------------------------------------------
  // The predicate

  /** The request `[time, time + durationMinutes)` in minutes past midnight; NaN when unreadable. */
  function RequestStart(time: string): Num {
    ToMinutes(time)
  }

  function RequestEnd(time: string, durationMinutes: int): Num {
    Plus(ToMinutes(time), durationMinutes)
  }

  /** `storage.isTimeSlotAvailable(barberId, date, time, durationMinutes)`. */
  function IsTimeSlotAvailable(
    blocked: seq<BlockedTime>, apps: seq<Appointment>, services: seq<Service>,
    barberId: string, date: string, time: string, durationMinutes: int): (ok: bool)
    ensures ok <==>
      && (forall i :: 0 <= i < |blocked| ==>
            !RuleBlocks(blocked[i], barberId, date, WeekDayOf(date), RequestStart(time), RequestEnd(time, durationMinutes)))
      && (forall j :: 0 <= j < |apps| ==>
            !Conflicts(apps[j], services, barberId, date, RequestStart(time), RequestEnd(time, durationMinutes)))
  {
    var reqStart := RequestStart(time);
    var reqEnd := RequestEnd(time, durationMinutes);
    !BlockedByRules(blocked, barberId, date, WeekDayOf(date), reqStart, reqEnd)
    && !AnyConflict(apps, services, barberId, date, reqStart, reqEnd)
  }

  // ---------------------------------------------------------------------------
  // Properties

  /** A whole-day block for the barber (or for all) on the date refuses every request, whatever is booked. */
  lemma DayBlockRefusesAll(
    blocked: seq<BlockedTime>, apps: seq<Appointment>, services: seq<Service>,
    barberId: string, date: string, time: string, durationMinutes: int, rule: BlockedTime)
    requires rule in blocked && rule.scope == Day
    requires AppliesTo(rule, barberId) && FallsOn(rule, date, WeekDayOf(date))
    ensures !IsTimeSlotAvailable(blocked, apps, services, barberId, date, time, durationMinutes)
  {
    var i :| 0 <= i < |blocked| && blocked[i] == rule;
    assert RuleBlocks(blocked[i], barberId, date, WeekDayOf(date), RequestStart(time), RequestEnd(time, durationMinutes));
  }

  /** On its own, a complete slot rule that falls on the date refuses exactly the requests that strictly overlap it. */
  lemma SlotRuleRefusesExactlyOverlaps(
    services: seq<Service>, barberId: string, date: string, time: string, durationMinutes: int, rule: BlockedTime)
    requires HasRange(rule) && AppliesTo(rule, barberId) && FallsOn(rule, date, WeekDayOf(date))
    ensures !IsTimeSlotAvailable([rule], [], services, barberId, date, time, durationMinutes)
            <==> Lt(RequestStart(time), RuleEnd(rule)) && Lt(RuleStart(rule), RequestEnd(time, durationMinutes))
  {
    assert [rule][0] == rule;
  }

  /** Adding a rule that cannot refuse the request changes nothing. */
  lemma {:induction false} InertRule(
    blocked: seq<BlockedTime>, apps: seq<Appointment>, services: seq<Service>,
    barberId: string, date: string, time: string, durationMinutes: int, rule: BlockedTime)
    requires !RuleBlocks(rule, barberId, date, WeekDayOf(date), RequestStart(time), RequestEnd(time, durationMinutes))
    ensures IsTimeSlotAvailable(blocked + [rule], apps, services, barberId, date, time, durationMinutes)
            == IsTimeSlotAvailable(blocked, apps, services, barberId, date, time, durationMinutes)
  {
    var all := blocked + [rule];
    assert forall i :: 0 <= i < |blocked| ==> all[i] == blocked[i];
    assert all[|blocked|] == rule;
  }

  /**
   * A slot rule without a start or an end, and a rule for another barber or
   * another date, never refuses anything.
   */
  lemma IncompleteOrElsewhereRuleIsInert(
    blocked: seq<BlockedTime>, apps: seq<Appointment>, services: seq<Service>,
    barberId: string, date: string, time: string, durationMinutes: int, rule: BlockedTime)
    requires || (rule.scope == Slot && !HasRange(rule))
             || !AppliesTo(rule, barberId)
             || !FallsOn(rule, date, WeekDayOf(date))
    ensures IsTimeSlotAvailable(blocked + [rule], apps, services, barberId, date, time, durationMinutes)
            == IsTimeSlotAvailable(blocked, apps, services, barberId, date, time, durationMinutes)
  {
    InertRule(blocked, apps, services, barberId, date, time, durationMinutes, rule);
  }

  /** Adding an appointment that does not conflict with the request changes nothing. */
  lemma {:induction false} InertAppointment(
    blocked: seq<BlockedTime>, apps: seq<Appointment>, services: seq<Service>,
    barberId: string, date: string, time: string, durationMinutes: int, app: Appointment)
    requires !Conflicts(app, services, barberId, date, RequestStart(time), RequestEnd(time, durationMinutes))
    ensures IsTimeSlotAvailable(blocked, apps + [app], services, barberId, date, time, durationMinutes)
            == IsTimeSlotAvailable(blocked, apps, services, barberId, date, time, durationMinutes)
  {
    var all := apps + [app];
    assert forall j :: 0 <= j < |apps| ==> all[j] == apps[j];
    assert all[|apps|] == app;
  }

  /**
   * Cancelled appointments, other barbers' appointments, appointments on
   * other dates and back-to-back appointments (one ends exactly when the
   * other starts) never make a slot unavailable.
   */
  lemma HarmlessAppointments(
    blocked: seq<BlockedTime>, apps: seq<Appointment>, services: seq<Service>,
    barberId: string, date: string, time: string, durationMinutes: int, app: Appointment)
    requires || app.status == Cancelled
             || app.barberId != barberId
             || app.date != date
             || (RequestStart(time).Some? && EndOf(app, services) == RequestStart(time))
             || (StartOf(app).Some? && StartOf(app) == RequestEnd(time, durationMinutes))
    ensures IsTimeSlotAvailable(blocked, apps + [app], services, barberId, date, time, durationMinutes)
            == IsTimeSlotAvailable(blocked, apps, services, barberId, date, time, durationMinutes)
  {
    InertAppointment(blocked, apps, services, barberId, date, time, durationMinutes, app);
  }

  /** A booked appointment takes its own start time away from every request of positive length. */
  lemma BookedStartIsTaken(
    blocked: seq<BlockedTime>, apps: seq<Appointment>, services: seq<Service>,
    time: string, durationMinutes: int, app: Appointment)
    requires app in apps && app.status != Cancelled
    requires ToMinutes(time).Some? && ToMinutes(app.time) == ToMinutes(time)
    requires DurationOf(app, services) > 0 && durationMinutes > 0
    ensures !IsTimeSlotAvailable(blocked, apps, services, app.barberId, app.date, time, durationMinutes)
  {
    var j :| 0 <= j < |apps| && apps[j] == app;
    assert Conflicts(apps[j], services, app.barberId, app.date, RequestStart(time), RequestEnd(time, durationMinutes));
  }

  // ---------------------------------------------------------------------------
  // A schedule without double bookings

  /** Two live appointments of the same barber on the same date whose times strictly overlap. */
  predicate Clash(a: Appointment, b: Appointment, services: seq<Service>) {
    && a.barberId == b.barberId && a.date == b.date
    && a.status != Cancelled && b.status != Cancelled
    && Lt(StartOf(a), EndOf(b, services)) && Lt(StartOf(b), EndOf(a, services))
  }

  predicate ConflictFree(apps: seq<Appointment>, services: seq<Service>) {
    forall i, j :: 0 <= i < j < |apps| ==> !Clash(apps[i], apps[j], services)
  }

  /**
   * Booking an appointment whose own slot was found available keeps a
   * schedule free of double bookings.
   */
  lemma AvailableBookingKeepsConflictFree(
    blocked: seq<BlockedTime>, apps: seq<Appointment>, services: seq<Service>, app: Appointment)
    requires ConflictFree(apps, services)
    requires IsTimeSlotAvailable(blocked, apps, services, app.barberId, app.date, app.time, DurationOf(app, services))
    ensures ConflictFree(apps + [app], services)
  {
    var all := apps + [app];
    forall i, j | 0 <= i < j < |all| ensures !Clash(all[i], all[j], services) {
      if j < |apps| {
        assert all[i] == apps[i] && all[j] == apps[j];
      } else {
        assert all[i] == apps[i] && all[j] == app;
        assert !Conflicts(apps[i], services, app.barberId, app.date,
                          RequestStart(app.time), RequestEnd(app.time, DurationOf(app, services)));
      }
    }
  }
}
