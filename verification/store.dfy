/**
 * The application's storage: every collection the pages read and write, the
 * waitlist auto-promotion that runs after a cancellation, and loyalty XP.
 *
 * The browser's key-value storage becomes a `Store` object whose fields are
 * the stored lists; reading a list is reading the field and writing it back
 * is assigning the field.
 */
module Storage {
  import opened Wrappers
  import opened Types
  import opened Seqs
  import opened Availability

  // ---------------------------------------------------------------------------
  // Loyalty levels

  /** The level table the application starts with. */
  const InitialLevelConfig: LevelConfig := LevelConfig(100, [100, 300, 600, 1000, 1500, 2100, 2800, 3600, 5000])

  /** The largest index whose threshold `xp` reaches, or -1 when it reaches none. */
  function TopReached(xp: int, levels: seq<int>): (r: int)
    ensures -1 <= r < |levels|
    ensures r >= 0 ==> xp >= levels[r]
    ensures forall j :: r < j < |levels| ==> xp < levels[j]
  {
    if levels == [] then -1
    else if xp >= levels[|levels| - 1] then |levels| - 1
    else TopReached(xp, levels[..|levels| - 1])
  }

  /**
   * The level the descending scan settles on, before the "never lower"
   * maximum: 1 below the first threshold, otherwise 2 plus the index of the
   * highest threshold reached; the current level when the table is empty.
   */
  function LevelReached(xp: int, levels: seq<int>, current: int): int {
    if |levels| > 0 && xp < levels[0] then 1
    else if TopReached(xp, levels) >= 0 then TopReached(xp, levels) + 2
    else current
  }

  /** The scan of `awardXpToClient`: from the highest threshold down, stop at the first one reached. */
  method ComputeLevel(xp: int, levels: seq<int>, current: int) returns (newLevel: int)
    ensures newLevel == LevelReached(xp, levels, current)
  {
    newLevel := current;
    var i := |levels| - 1;
    while i >= 0
      invariant -1 <= i < |levels|
      invariant forall j :: i < j < |levels| ==> xp < levels[j]
      invariant newLevel == current
    {
      if xp >= levels[i] {
        newLevel := i + 2;
        break;
      }
      i := i - 1;
    }
    if |levels| > 0 && xp < levels[0] {
      newLevel := 1;
    }
  }

  /**
   * What the scan yields: 1 below the first threshold; otherwise, when some
   * threshold is reached, one more than the number of thresholds up to and
   * including the highest one reached; otherwise the current level.
   */
  lemma LevelReachedMeaning(xp: int, levels: seq<int>, current: int)
    ensures |levels| > 0 && xp < levels[0] ==> LevelReached(xp, levels, current) == 1
    ensures |levels| > 0 && xp >= levels[0] ==>
              var k := LevelReached(xp, levels, current) - 2;
              0 <= k < |levels| && xp >= levels[k] && forall j :: k < j < |levels| ==> xp < levels[j]
    ensures |levels| == 0 ==> LevelReached(xp, levels, current) == current
  {
  }

  /** With a non-empty table, more XP never gives a lower level. */
  lemma LevelMonotone(xp1: int, xp2: int, levels: seq<int>, current: int)
    requires |levels| > 0 && xp1 <= xp2
    ensures LevelReached(xp1, levels, current) <= LevelReached(xp2, levels, current)
  {
    if xp1 >= levels[0] {
      var k1 := TopReached(xp1, levels);
      assert xp2 >= levels[k1];
    }
  }

  function Max(a: int, b: int): int {
    if a >= b then a else b
  }

  /**
   * One completed service: XP grows, the visit is counted, and the level is
   * the higher of the current one and the one the new XP reaches, so it
   * never goes down.
   */
  function Awarded(c: ClientAccount, config: LevelConfig): (r: ClientAccount)
    ensures r.xp == c.xp + config.xpPerService
    ensures r.totalAppointments == c.totalAppointments + 1
    ensures r.level >= c.level && r.level >= LevelReached(r.xp, config.levels, c.level)
    ensures r.level == c.level || r.level == LevelReached(r.xp, config.levels, c.level)
    ensures r.(xp := c.xp, level := c.level, totalAppointments := c.totalAppointments) == c
  {
    var newXp := c.xp + config.xpPerService;
    c.(xp := newXp,
       level := Max(c.level, LevelReached(newXp, config.levels, c.level)),
       totalAppointments := c.totalAppointments + 1)
  }

  /** A new client's first service under the initial table brings 100 XP and level 2. */
  lemma FirstServiceReachesLevelTwo(c: ClientAccount)
    requires c.xp == 0 && c.level == 1
    ensures Awarded(c, InitialLevelConfig).xp == 100
    ensures Awarded(c, InitialLevelConfig).level == 2
  {
    var levels := InitialLevelConfig.levels;
    assert levels[0] == 100;
    assert forall j :: 0 < j < |levels| ==> 100 < levels[j];
    var r := TopReached(100, levels);
    assert r >= 0 ==> levels[r] <= 100;
    assert r == 0;
  }

  function HasClientId(id: string): ClientAccount -> bool {
    (c: ClientAccount) => c.id == id
  }

  function AwardUnder(config: LevelConfig): ClientAccount -> ClientAccount {
    (c: ClientAccount) => Awarded(c, config)
  }

  // ---------------------------------------------------------------------------
  // Waitlist promotion

  /** The waitlist id of "any professional". */
  const AnyBarber: string := "any"

  function OnDate(date: string): WaitlistEntry -> bool {
    (e: WaitlistEntry) => e.date == date
  }

  function CreatedAt(e: WaitlistEntry): real {
    e.createdAt as real
  }

  /** The entries waiting for `date`, oldest first; entries created at the same instant keep their list order. */
  function Queue(waitlist: seq<WaitlistEntry>, date: string): seq<WaitlistEntry> {
    SortBy(Filter(waitlist, OnDate(date)), CreatedAt)
  }

  /**
   * The entry can take the freed slot: it accepts the cancelled barber (or
   * any barber), its service is in the catalog, and the cancelled barber is
   * available at the cancelled time for that service's duration.
   */
  predicate Fits(e: WaitlistEntry, cancelled: Appointment,
                 blocked: seq<BlockedTime>, apps: seq<Appointment>, services: seq<Service>) {
    && (e.barberId == AnyBarber || e.barberId == cancelled.barberId)
    && FindService(services, e.serviceId).Some?
    && IsTimeSlotAvailable(blocked, apps, services, cancelled.barberId, cancelled.date, cancelled.time,
                           FindService(services, e.serviceId).value.durationMinutes)
  }

  function FitsFor(cancelled: Appointment, blocked: seq<BlockedTime>, apps: seq<Appointment>, services: seq<Service>)
    : WaitlistEntry -> bool
  {
    (e: WaitlistEntry) => Fits(e, cancelled, blocked, apps, services)
  }

  /** The entry promoted into the slot freed by `cancelled`, if any. */
  function NextInLine(waitlist: seq<WaitlistEntry>, cancelled: Appointment,
                      blocked: seq<BlockedTime>, apps: seq<Appointment>, services: seq<Service>): Option<WaitlistEntry> {
    FirstWhere(Queue(waitlist, cancelled.date), FitsFor(cancelled, blocked, apps, services))
  }

  /** The promotion loop, up to the point where it books: the first entry of the queue that fits. */
  method SelectWaitlistEntry(waitlist: seq<WaitlistEntry>, cancelled: Appointment,
                             blocked: seq<BlockedTime>, apps: seq<Appointment>, services: seq<Service>)
    returns (chosen: Option<WaitlistEntry>)
    ensures chosen == NextInLine(waitlist, cancelled, blocked, apps, services)
  {
    var queue := SortBy(Filter(waitlist, OnDate(cancelled.date)), CreatedAt);
    ghost var fits := FitsFor(cancelled, blocked, apps, services);
    var i := 0;
    while i < |queue|
      invariant 0 <= i <= |queue|
      invariant forall k :: 0 <= k < i ==> !fits(queue[k])
    {
      var entry := queue[i];
      // entries asking for another barber, or for a service no longer offered, are skipped
      if entry.barberId == AnyBarber || entry.barberId == cancelled.barberId {
        var service := FindService(services, entry.serviceId);
        if service.Some? && IsTimeSlotAvailable(blocked, apps, services, cancelled.barberId, cancelled.date,
                                                cancelled.time, service.value.durationMinutes) {
          FirstWhereAt(queue, fits, i);
          return Some(entry);
        }
      }
      assert !fits(queue[i]);
      NoneBeforeStep(queue, fits, i);
      i := i + 1;
    }
    assert forall k :: 0 <= k < |queue| ==> !fits(queue[k]);
    chosen := None;
  }

  /** The queue holds exactly the entries for the date. */
  lemma QueueMembers(waitlist: seq<WaitlistEntry>, date: string, e: WaitlistEntry)
    ensures e in Queue(waitlist, date) <==> e in waitlist && e.date == date
  {
    var dated := Filter(waitlist, OnDate(date));
    assert e in Queue(waitlist, date) <==> e in multiset(Queue(waitlist, date));
    assert e in dated <==> e in multiset(dated);
  }

  /**
   * Promotion picks an entry for the cancelled date that fits the slot, and
   * picks none only when no entry for that date fits.
   */
  lemma NextInLineSound(waitlist: seq<WaitlistEntry>, cancelled: Appointment,
                        blocked: seq<BlockedTime>, apps: seq<Appointment>, services: seq<Service>)
    ensures var next := NextInLine(waitlist, cancelled, blocked, apps, services);
            && (next.Some? ==>
                  next.value in waitlist && next.value.date == cancelled.date
                  && Fits(next.value, cancelled, blocked, apps, services))
            && (next.None? <==>
                  forall e :: e in waitlist && e.date == cancelled.date ==> !Fits(e, cancelled, blocked, apps, services))
  {
    var next := NextInLine(waitlist, cancelled, blocked, apps, services);
    if next.Some? {
      QueueMembers(waitlist, cancelled.date, next.value);
    }
    forall e | e in waitlist && e.date == cancelled.date
      ensures e in Queue(waitlist, cancelled.date)
    {
      QueueMembers(waitlist, cancelled.date, e);
    }
  }

  /** First in, first out: no fitting entry for the date was created before the promoted one. */
  lemma NextInLineIsOldest(waitlist: seq<WaitlistEntry>, cancelled: Appointment,
                           blocked: seq<BlockedTime>, apps: seq<Appointment>, services: seq<Service>,
                           other: WaitlistEntry)
    requires NextInLine(waitlist, cancelled, blocked, apps, services).Some?
    requires other in waitlist && other.date == cancelled.date && Fits(other, cancelled, blocked, apps, services)
    ensures NextInLine(waitlist, cancelled, blocked, apps, services).value.createdAt <= other.createdAt
  {
    QueueMembers(waitlist, cancelled.date, other);
    SortBySorted(Filter(waitlist, OnDate(cancelled.date)), CreatedAt);
    FirstWhereSortedIsLeast(Queue(waitlist, cancelled.date), FitsFor(cancelled, blocked, apps, services), CreatedAt, other);
  }

  function CreatedAtIs(t: real): WaitlistEntry -> bool {
    (e: WaitlistEntry) => CreatedAt(e) == t
  }

  function FitsAtOn(date: string, t: real, fits: WaitlistEntry -> bool): WaitlistEntry -> bool {
    (e: WaitlistEntry) => e.date == date && CreatedAt(e) == t && fits(e)
  }

  function FitsAt(t: real, fits: WaitlistEntry -> bool): WaitlistEntry -> bool {
    (e: WaitlistEntry) => CreatedAt(e) == t && fits(e)
  }

  /**
   * Entries created at the same instant are served in list order: the
   * promoted entry is the first entry in the whole waitlist that is for the
   * date, was created at its instant and fits.
   */
  lemma NextInLineBreaksTiesByListOrder(waitlist: seq<WaitlistEntry>, cancelled: Appointment,
                                        blocked: seq<BlockedTime>, apps: seq<Appointment>, services: seq<Service>)
    requires NextInLine(waitlist, cancelled, blocked, apps, services).Some?
    ensures var c := NextInLine(waitlist, cancelled, blocked, apps, services).value;
            NextInLine(waitlist, cancelled, blocked, apps, services)
              == FirstWhere(waitlist, FitsAtOn(cancelled.date, CreatedAt(c), FitsFor(cancelled, blocked, apps, services)))
  {
    var fits := FitsFor(cancelled, blocked, apps, services);
    var date := cancelled.date;
    var dated := Filter(waitlist, OnDate(date));
    var queue := SortBy(dated, CreatedAt);
    var c := FirstWhere(queue, fits).value;
    var t := CreatedAt(c);
    // Among the entries created at `t`, `c` is still the first that fits.
    FirstWhereSurvivesFilter(queue, CreatedAtIs(t), fits);
    // Sorting keeps the entries created at `t` in list order.
    SortByStable(dated, CreatedAt, CreatedAtIs(t), t);
    // Finding among those entries is finding by the conjunction.
    FirstWhereFilter(dated, CreatedAtIs(t), fits, FitsAt(t, fits));
    FirstWhereFilter(waitlist, OnDate(date), FitsAt(t, fits), FitsAtOn(date, t, fits));
  }

  // ---------------------------------------------------------------------------
  // Records written by the promotion

  const WaitlistNote: string := "Agendamento automático via Lista de Espera"

  /** The appointment booked for a promoted entry: the cancelled slot, the entry's client and service. */
  function Promoted(e: WaitlistEntry, service: Service, cancelled: Appointment, id: string, now: int): (a: Appointment)
    ensures a.barberId == cancelled.barberId && a.date == cancelled.date && a.time == cancelled.time
    ensures a.serviceId == e.serviceId && a.client == ClientContact(e.clientName, e.clientPhone)
    ensures a.status == Confirmed && a.totalPrice == service.price && a.clientId.None?
  {
    Appointment(id, e.serviceId, cancelled.barberId, cancelled.date, cancelled.time,
                ClientContact(e.clientName, e.clientPhone), None, Confirmed, service.price,
                None, None, None, None, Some(WaitlistNote), now)
  }

  function PromotionNotice(e: WaitlistEntry, cancelled: Appointment, id: string, now: int): Notification {
    Notification(id, None, "Lista de Espera Ativada",
                 "Agendamento automático realizado para " + e.clientName + " às " + cancelled.time + ".",
                 false, now, Success)
  }

  function NotEntry(id: string): WaitlistEntry -> bool {
    (w: WaitlistEntry) => w.id != id
  }

  function NotBlock(id: string): BlockedTime -> bool {
    (b: BlockedTime) => b.id != id
  }

  /**
   * The promoted appointment fits the schedule: when the schedule had no
   * double booking, it still has none after the promotion.
   */
  lemma PromotionKeepsConflictFree(waitlist: seq<WaitlistEntry>, cancelled: Appointment,
                                   blocked: seq<BlockedTime>, apps: seq<Appointment>, services: seq<Service>,
                                   id: string, now: int)
    requires ConflictFree(apps, services)
    requires NextInLine(waitlist, cancelled, blocked, apps, services).Some?
    ensures var e := NextInLine(waitlist, cancelled, blocked, apps, services).value;
            FindService(services, e.serviceId).Some? &&
            ConflictFree(apps + [Promoted(e, FindService(services, e.serviceId).value, cancelled, id, now)], services)
  {
    NextInLineSound(waitlist, cancelled, blocked, apps, services);
    var e := NextInLine(waitlist, cancelled, blocked, apps, services).value;
    var a := Promoted(e, FindService(services, e.serviceId).value, cancelled, id, now);
    assert DurationOf(a, services) == FindService(services, e.serviceId).value.durationMinutes;
    AvailableBookingKeepsConflictFree(blocked, apps, services, a);
  }

  // ---------------------------------------------------------------------------
  // The store

  class Store {
    var services: seq<Service>
    var packages: seq<Package>
    var subscribers: seq<Subscriber>
    var barbers: seq<Barber>
    var appointments: seq<Appointment>
    var clients: seq<ClientAccount>
    var levelConfig: LevelConfig
    var waitlist: seq<WaitlistEntry>
    var notifications: seq<Notification>
    var blockedTimes: seq<BlockedTime>

    /** Empty collections and the initial level table. */
    constructor ()
      ensures services == [] && packages == [] && subscribers == [] && barbers == []
      ensures appointments == [] && clients == [] && waitlist == [] && notifications == []
      ensures blockedTimes == [] && levelConfig == InitialLevelConfig
    {
      services, packages, subscribers, barbers := [], [], [], [];
      appointments, clients, waitlist, notifications, blockedTimes := [], [], [], [], [];
      levelConfig := InitialLevelConfig;
    }

    method SaveAppointment(a: Appointment)
      modifies this`appointments
      ensures appointments == old(appointments) + [a]
    {
      appointments := appointments + [a];
    }

    method UpdateAppointments(apps: seq<Appointment>)
      modifies this`appointments
      ensures appointments == apps
    {
      appointments := apps;
    }

    method AddToWaitlist(e: WaitlistEntry)
      modifies this`waitlist
      ensures waitlist == old(waitlist) + [e]
    {
      waitlist := waitlist + [e];
    }

    /** Every entry with the id leaves the waitlist; the others keep their order. */
    method RemoveFromWaitlist(id: string)
      modifies this`waitlist
      ensures waitlist == Filter(old(waitlist), NotEntry(id))
      ensures forall w :: w in waitlist <==> w in old(waitlist) && w.id != id
    {
      waitlist := Filter(waitlist, NotEntry(id));
    }

    method AddNotification(n: Notification)
      modifies this`notifications
      ensures notifications == old(notifications) + [n]
    {
      notifications := notifications + [n];
    }

    method SaveBlockedTime(b: BlockedTime)
      modifies this`blockedTimes
      ensures blockedTimes == old(blockedTimes) + [b]
    {
      blockedTimes := blockedTimes + [b];
    }

    method RemoveBlockedTime(id: string)
      modifies this`blockedTimes
      ensures blockedTimes == Filter(old(blockedTimes), NotBlock(id))
      ensures forall b :: b in blockedTimes <==> b in old(blockedTimes) && b.id != id
    {
      blockedTimes := Filter(blockedTimes, NotBlock(id));
    }

    /**
     * After `cancelled` has been marked cancelled: book the first waitlist
     * entry for its date (oldest first) that fits the freed slot, drop that
     * entry from the waitlist and leave a notification; do nothing when no
     * entry fits.
     */
    method CheckWaitlistAfterCancellation(cancelled: Appointment, appId: string, noticeId: string, now: int)
      modifies this`appointments, this`waitlist, this`notifications
      ensures var next := NextInLine(old(waitlist), cancelled, blockedTimes, old(appointments), services);
              && (next.None? ==>
                    appointments == old(appointments) && waitlist == old(waitlist)
                    && notifications == old(notifications))
              && (next.Some? ==>
                    && FindService(services, next.value.serviceId).Some?
                    && appointments == old(appointments)
                         + [Promoted(next.value, FindService(services, next.value.serviceId).value, cancelled, appId, now)]
                    && waitlist == Filter(old(waitlist), NotEntry(next.value.id))
                    && notifications == old(notifications) + [PromotionNotice(next.value, cancelled, noticeId, now)])
    {
      var chosen := SelectWaitlistEntry(waitlist, cancelled, blockedTimes, appointments, services);
      if chosen.Some? {
        var entry := chosen.value;
        assert FitsFor(cancelled, blockedTimes, appointments, services)(entry);
        var service := FindService(services, entry.serviceId).value;
        // saveAppointment, removeFromWaitlist, addNotification
        appointments := appointments + [Promoted(entry, service, cancelled, appId, now)];
        waitlist := Filter(waitlist, NotEntry(entry.id));
        notifications := notifications + [PromotionNotice(entry, cancelled, noticeId, now)];
      }
    }

    /** The client with the id earns one service's XP; everyone else is unchanged. */
    method AwardXpToClient(clientId: string)
      modifies this`clients
      ensures clients == MapWhere(old(clients), HasClientId(clientId), AwardUnder(levelConfig))
    {
      ghost var expected := MapWhere(clients, HasClientId(clientId), AwardUnder(levelConfig));
      var updated: seq<ClientAccount> := [];
      var i := 0;
      while i < |clients|
        invariant 0 <= i <= |clients|
        invariant clients == old(clients)
        invariant updated == expected[..i]
      {
        var c := clients[i];
        var next := c;
        if c.id == clientId {
          var newXp := c.xp + levelConfig.xpPerService;
          var newLevel := ComputeLevel(newXp, levelConfig.levels, c.level);
          next := c.(xp := newXp, level := Max(c.level, newLevel), totalAppointments := c.totalAppointments + 1);
          assert next == Awarded(c, levelConfig);
        }
        assert next == expected[i];
        PrefixStep(expected, i);
        updated := updated + [next];
        i := i + 1;
      }
      assert expected[..|clients|] == expected;
      clients := updated;
    }
  }
}
