/**
 * The customer booking page: the times offered for a service, barber and
 * day, booking one of them, and joining the day's waitlist.
 *
 * The offered times read a snapshot of the block rules, the appointments
 * and the catalog. Whether the chosen day is today, and the current hour and
 * minute, are parameters.
 */
module Booking {
  import opened Wrappers
  import opened Types
  import opened Clock
  import opened Seqs
  import opened Availability
  import opened Storage

  /** The barber id that "any professional" books under. */
  const AnyProfessional: string := "any"

  // ---------------------------------------------------------------------------
  // The offered times
  //
  // The customer's candidates are the times h:00 and h:30 for every hour h
  // from 8 to 19, that is 08:00, 08:30, ..., 19:30.

  /** The today filter: on today, a time at or before the current minute has passed. */
  predicate HasPassed(isToday: bool, currentHour: int, currentMinutes: int, h: int, m: int) {
    isToday && (h < currentHour || (h == currentHour && m <= currentMinutes))
  }

  /** With a real clock reading, the today filter drops exactly the times not later than now. */
  lemma HasPassedMeansNotLater(currentHour: int, currentMinutes: int, h: int, m: int)
    requires 0 <= currentMinutes < 60 && 0 <= m < 60
    ensures HasPassed(true, currentHour, currentMinutes, h, m) <==> h * 60 + m <= currentHour * 60 + currentMinutes
  {
    if h < currentHour {
      assert h * 60 + m < (h + 1) * 60 <= currentHour * 60;
    } else if h > currentHour {
      assert currentHour * 60 + currentMinutes < (currentHour + 1) * 60 <= h * 60;
    }
  }

  /** The candidate h:m is offered: it has not passed, and the availability predicate accepts it. */
  predicate Offers(blocked: seq<BlockedTime>, apps: seq<Appointment>, services: seq<Service>,
                   barberId: string, date: string, durationMinutes: int,
                   isToday: bool, currentHour: int, currentMinutes: int, h: nat, m: nat) {
    && !HasPassed(isToday, currentHour, currentMinutes, h, m)
    && IsTimeSlotAvailable(blocked, apps, services, barberId, date, Hhmm(h, m), durationMinutes)
  }

  function OffersAt(blocked: seq<BlockedTime>, apps: seq<Appointment>, services: seq<Service>,
                    barberId: string, date: string, durationMinutes: int,
                    isToday: bool, currentHour: int, currentMinutes: int): (nat, nat) -> bool {
    (h: nat, m: nat) => Offers(blocked, apps, services, barberId, date, durationMinutes, isToday, currentHour, currentMinutes, h, m)
  }

  /** The candidate h:m, if `keep` accepts it. */
  function KeptAt(keep: (nat, nat) -> bool, h: nat, m: nat): seq<string> {
    if keep(h, m) then [Hhmm(h, m)] else []
  }

  /** The accepted candidates of the hours from 8 up to, not including, h, in order. */
  function Kept(keep: (nat, nat) -> bool, h: nat): seq<string> {
    if h <= 8 then [] else Kept(keep, h - 1) + KeptAt(keep, h - 1, 0) + KeptAt(keep, h - 1, 30)
  }

  lemma {:induction false} KeptLength(keep: (nat, nat) -> bool, h: nat)
    requires 8 <= h
    ensures |Kept(keep, h)| <= 2 * (h - 8)
  {
    if h > 8 {
      KeptLength(keep, h - 1);
    }
  }

  /** A time is kept iff it is an accepted candidate of an hour from 8 up to h. */
  lemma {:induction false} KeptMembers(keep: (nat, nat) -> bool, h: nat)
    ensures forall t :: t in Kept(keep, h) <==>
              exists hh: nat, mm: nat :: 8 <= hh < h && (mm == 0 || mm == 30) && t == Hhmm(hh, mm) && keep(hh, mm)
  {
    if h > 8 {
      KeptMembers(keep, h - 1);
      forall t | t in Kept(keep, h)
        ensures exists hh: nat, mm: nat :: 8 <= hh < h && (mm == 0 || mm == 30) && t == Hhmm(hh, mm) && keep(hh, mm)
      {
        if t in KeptAt(keep, h - 1, 0) {
          assert t == Hhmm(h - 1, 0) && keep(h - 1, 0);
        } else if t in KeptAt(keep, h - 1, 30) {
          assert t == Hhmm(h - 1, 30) && keep(h - 1, 30);
        }
      }
      forall hh: nat, mm: nat | 8 <= hh < h && (mm == 0 || mm == 30) && keep(hh, mm)
        ensures Hhmm(hh, mm) in Kept(keep, h)
      {
        if hh == h - 1 {
          assert Hhmm(hh, mm) in KeptAt(keep, h - 1, mm);
        }
      }
    }
  }

  /** Every time of `ts` reads as a number of minutes below `bound`. */
  ghost predicate TimesBelow(ts: seq<string>, bound: int) {
    forall i :: 0 <= i < |ts| ==> ToMinutes(ts[i]).Some? && ToMinutes(ts[i]).value < bound
  }

  ghost predicate TimesAscending(ts: seq<string>) {
    forall i, j :: 0 <= i < j < |ts| ==> Lt(ToMinutes(ts[i]), ToMinutes(ts[j]))
  }

  /** Appending at most one time of `v` minutes after times below `v` keeps them ascending. */
  lemma AppendLater(ts: seq<string>, extra: seq<string>, v: int, next: int)
    requires TimesBelow(ts, v) && TimesAscending(ts)
    requires |extra| <= 1 && (|extra| == 1 ==> ToMinutes(extra[0]) == Some(v))
    requires v < next
    ensures TimesBelow(ts + extra, next) && TimesAscending(ts + extra)
  {
  }

  /** The accepted candidates of hour `hr`, `t0` at hr:00 and `t30` at hr:30, come after every earlier one, in order. */
  lemma AppendHour(before: seq<string>, atHour: seq<string>, atHalf: seq<string>, hr: nat, t0: string, t30: string)
    requires TimesBelow(before, hr * 60) && TimesAscending(before)
    requires ToMinutes(t0) == Some(hr * 60) && ToMinutes(t30) == Some(hr * 60 + 30)
    requires atHour == [] || atHour == [t0]
    requires atHalf == [] || atHalf == [t30]
    ensures TimesBelow(before + atHour + atHalf, (hr + 1) * 60) && TimesAscending(before + atHour + atHalf)
  {
    AppendLater(before, atHour, hr * 60, hr * 60 + 30);
    AppendLater(before + atHour, atHalf, hr * 60 + 30, (hr + 1) * 60);
  }

  /** The two candidates of an hour, in minutes. */
  lemma HalfHours(hr: nat)
    ensures ToMinutes(Hhmm(hr, 0)) == Some(hr * 60) && ToMinutes(Hhmm(hr, 30)) == Some(hr * 60 + 30)
  {
    HhmmRoundTrip(hr, 0);
    HhmmRoundTrip(hr, 30);
  }

  /** The kept times are strictly ascending and earlier than h:00. */
  lemma {:induction false} KeptAscending(keep: (nat, nat) -> bool, h: nat)
    ensures TimesBelow(Kept(keep, h), h * 60) && TimesAscending(Kept(keep, h))
  {
    if h > 8 {
      KeptAscending(keep, h - 1);
      var hr := h - 1;
      HalfHours(hr);
      AppendHour(Kept(keep, hr), KeptAt(keep, hr, 0), KeptAt(keep, hr, 30), hr, Hhmm(hr, 0), Hhmm(hr, 30));
    }
  }

  /**
   * `timeSlots`: nothing until a barber, a date and a service are chosen;
   * then every candidate that has not passed and that the availability
   * predicate accepts for the service's duration, in order.
   */
  method TimeSlots(blocked: seq<BlockedTime>, apps: seq<Appointment>, services: seq<Service>,
                   barber: Option<Barber>, date: string, service: Option<Service>,
                   isToday: bool, currentHour: int, currentMinutes: int)
    returns (slots: seq<string>)
    ensures barber.None? || date == "" || service.None? ==> slots == []
    ensures barber.Some? && date != "" && service.Some? ==>
              slots == Kept(OffersAt(blocked, apps, services, barber.value.id, date, service.value.durationMinutes,
                                     isToday, currentHour, currentMinutes), 20)
  {
    if barber.None? || date == "" || service.None? {
      return [];
    }
    var barberId := barber.value.id;
    var duration := service.value.durationMinutes;
    ghost var keep := OffersAt(blocked, apps, services, barberId, date, duration, isToday, currentHour, currentMinutes);
    slots := [];
    var h := 8;
    while h < 20
      invariant 8 <= h <= 20
      invariant slots == Kept(keep, h)
    {
      var m := 0;
      while m < 60
        invariant m == 0 || m == 30 || m == 60
        invariant m == 0 ==> slots == Kept(keep, h)
        invariant m == 30 ==> slots == Kept(keep, h) + KeptAt(keep, h, 0)
        invariant m == 60 ==> slots == Kept(keep, h + 1)
      {
        if isToday && (h < currentHour || (h == currentHour && m <= currentMinutes)) {
          m := m + 30;
          continue;
        }
        var time := Hhmm(h, m);
        if IsTimeSlotAvailable(blocked, apps, services, barberId, date, time, duration) {
          slots := slots + [time];
        }
        m := m + 30;
      }
      h := h + 1;
    }
  }

  /** The customer is offered at most the 24 candidates, exactly those that have not passed and are available. */
  lemma OfferedMembers(
    blocked: seq<BlockedTime>, apps: seq<Appointment>, services: seq<Service>,
    barberId: string, date: string, durationMinutes: int,
    isToday: bool, currentHour: int, currentMinutes: int, t: string)
    ensures var r := Kept(OffersAt(blocked, apps, services, barberId, date, durationMinutes, isToday, currentHour, currentMinutes), 20);
            && |r| <= 24
            && (t in r <==>
                  exists h: nat, m: nat :: 8 <= h < 20 && (m == 0 || m == 30) && t == Hhmm(h, m) &&
                    Offers(blocked, apps, services, barberId, date, durationMinutes, isToday, currentHour, currentMinutes, h, m))
  {
    var keep := OffersAt(blocked, apps, services, barberId, date, durationMinutes, isToday, currentHour, currentMinutes);
    KeptLength(keep, 20);
    KeptMembers(keep, 20);
    if t in Kept(keep, 20) {
      var h: nat, m: nat :| 8 <= h < 20 && (m == 0 || m == 30) && t == Hhmm(h, m) && keep(h, m);
      assert Offers(blocked, apps, services, barberId, date, durationMinutes, isToday, currentHour, currentMinutes, h, m);
    } else {
      forall h: nat, m: nat | 8 <= h < 20 && (m == 0 || m == 30) && t == Hhmm(h, m)
        ensures !Offers(blocked, apps, services, barberId, date, durationMinutes, isToday, currentHour, currentMinutes, h, m)
      {
        assert !keep(h, m);
      }
    }
  }

  /** The offered times are strictly ascending. */
  lemma OfferedAscending(
    blocked: seq<BlockedTime>, apps: seq<Appointment>, services: seq<Service>,
    barberId: string, date: string, durationMinutes: int,
    isToday: bool, currentHour: int, currentMinutes: int)
    ensures var r := Kept(OffersAt(blocked, apps, services, barberId, date, durationMinutes, isToday, currentHour, currentMinutes), 20);
            forall i, j :: 0 <= i < j < |r| ==> Lt(ToMinutes(r[i]), ToMinutes(r[j]))
  {
    KeptAscending(OffersAt(blocked, apps, services, barberId, date, durationMinutes, isToday, currentHour, currentMinutes), 20);
  }

  /**
   * Booking with "any professional" checks availability under the id
   * "any": appointments held by real barbers never make a time unavailable
   * for it, so every such appointment is ignored.
   */
  lemma AnyProfessionalIgnoresBarbersBookings(
    blocked: seq<BlockedTime>, apps: seq<Appointment>, services: seq<Service>,
    date: string, time: string, durationMinutes: int)
    requires forall a :: a in apps ==> a.barberId != AnyProfessional
    ensures IsTimeSlotAvailable(blocked, apps, services, AnyProfessional, date, time, durationMinutes)
            <==> IsTimeSlotAvailable(blocked, [], services, AnyProfessional, date, time, durationMinutes)
  {
    forall i | 0 <= i < |apps|
      ensures !Conflicts(apps[i], services, AnyProfessional, date, RequestStart(time), RequestEnd(time, durationMinutes))
    {
      assert apps[i] in apps;
    }
  }

  // ---------------------------------------------------------------------------
  // Booking and the waitlist

  /** The request the customer submits: pending, for the chosen time, at the service's price. */
  function CustomerBooking(service: Service, barber: Barber, date: string, time: string,
                           client: ClientContact, currentClient: Option<ClientAccount>, id: string, now: int)
    : (a: Appointment)
    ensures a.status == AppointmentStatus.Pending && a.date == date && a.time == time
    ensures a.serviceId == service.id && a.barberId == barber.id && a.client == client
    ensures a.totalPrice == service.price && a.finalPrice.None?
    ensures currentClient.Some? ==> a.clientId == Some(currentClient.value.id)
    ensures currentClient.None? ==> a.clientId.None?
  {
    Appointment(id, service.id, barber.id, date, time, client,
                if currentClient.Some? then Some(currentClient.value.id) else None,
                AppointmentStatus.Pending, service.price, None, None, None, None, None, now)
  }

  /** `handleBookingSubmit`: nothing without a service and a barber; otherwise exactly one pending appointment. */
  method HandleBookingSubmit(store: Store, service: Option<Service>, barber: Option<Barber>, date: string, time: string,
                             client: ClientContact, currentClient: Option<ClientAccount>, id: string, now: int)
    modifies store`appointments
    ensures service.None? || barber.None? ==> store.appointments == old(store.appointments)
    ensures service.Some? && barber.Some? ==>
              store.appointments == old(store.appointments)
                + [CustomerBooking(service.value, barber.value, date, time, client, currentClient, id, now)]
  {
    if service.None? || barber.None? {
      return;
    }
    store.SaveAppointment(CustomerBooking(service.value, barber.value, date, time, client, currentClient, id, now));
  }

  /** The waitlist entry: the chosen barber's id, or "any" when none (or one without an id) is chosen. */
  function WaitlistRequest(client: ClientContact, service: Service, barber: Option<Barber>, date: string, id: string, now: int)
    : (e: WaitlistEntry)
    ensures e.clientName == client.name && e.clientPhone == client.phone
    ensures e.serviceId == service.id && e.date == date && e.createdAt == now
    ensures barber.Some? && barber.value.id != "" ==> e.barberId == barber.value.id
    ensures barber.None? || barber.value.id == "" ==> e.barberId == AnyBarber
  {
    var barberId := if barber.Some? && barber.value.id != "" then barber.value.id else AnyBarber;
    WaitlistEntry(id, client.name, client.phone, service.id, barberId, date, now)
  }

  /** `handleJoinWaitlist`: nothing without a name, a phone and a service; otherwise one entry. */
  method HandleJoinWaitlist(store: Store, client: ClientContact, service: Option<Service>, barber: Option<Barber>,
                            date: string, id: string, now: int)
    modifies store`waitlist
    ensures client.name == "" || client.phone == "" || service.None? ==> store.waitlist == old(store.waitlist)
    ensures client.name != "" && client.phone != "" && service.Some? ==>
              store.waitlist == old(store.waitlist) + [WaitlistRequest(client, service.value, barber, date, id, now)]
  {
    if client.name == "" || client.phone == "" || service.None? {
      return;
    }
    store.AddToWaitlist(WaitlistRequest(client, service.value, barber, date, id, now));
  }

  /**
   * An entry joined without a barber, or with "any professional", is
   * considered for every cancelled appointment on its date: it passes the
   * promotion's barber test whoever the cancelled appointment's barber is,
   * so it fits exactly when its service exists and the freed slot has room
   * for it.
   */
  lemma AnyEntryFitsEveryBarber(client: ClientContact, service: Service, barber: Option<Barber>,
                                date: string, id: string, now: int, cancelled: Appointment,
                                blocked: seq<BlockedTime>, apps: seq<Appointment>, services: seq<Service>)
    requires barber.None? || barber.value.id == AnyProfessional
    requires cancelled.date == date
    ensures var e := WaitlistRequest(client, service, barber, date, id, now);
            && e.barberId == AnyBarber
            && OnDate(cancelled.date)(e)
            && (Fits(e, cancelled, blocked, apps, services) <==>
                  && FindService(services, e.serviceId).Some?
                  && IsTimeSlotAvailable(blocked, apps, services, cancelled.barberId, cancelled.date, cancelled.time,
                                         FindService(services, e.serviceId).value.durationMinutes))
  {
  }
}
