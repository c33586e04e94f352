/**
 * The subscribers page (pages/admin/Subscribers.tsx): who sees which
 * subscribers, the revenue figures over them, and registering, updating
 * the payment status of, and deleting a subscriber.
 *
 * Today's date and the current instant (as the strings `toISOString()`
 * gives) and new ids are parameters.
 */
module Subscribers {
  import opened Wrappers
  import opened Types
  import opened Seqs
  import opened Records
  import opened Storage

  /** `visibleSubscribers`: an admin sees every subscriber, anyone else those linked to their user id. */
  function VisibleSubscribers(subscribers: seq<Subscriber>, isAdmin: bool, userId: Option<string>): (r: seq<Subscriber>)
    ensures isAdmin ==> r == subscribers
    ensures !isAdmin ==> forall s :: s in r <==> s in subscribers && userId == Some(s.barberId)
  {
    if isAdmin then subscribers else Filter(subscribers, LinkedTo(userId))
  }

  function LinkedTo(userId: Option<string>): Subscriber -> bool {
    (s: Subscriber) => userId == Some(s.barberId)
  }

  // ---------------------------------------------------------------------------
  // Statistics

  predicate IsActiveSub(s: Subscriber) {
    s.status == Active
  }

  predicate IsInactiveSub(s: Subscriber) {
    s.status == Inactive || s.status == Overdue
  }

  predicate IsPendingSub(s: Subscriber) {
    s.status == SubscriberStatus.Pending || s.status == Expiring
  }

  /** The three count groups split the subscribers: each is counted in exactly one. */
  lemma {:induction false} CountGroupsPartition(subs: seq<Subscriber>)
    ensures |Filter(subs, IsActiveSub)| + |Filter(subs, IsInactiveSub)| + |Filter(subs, IsPendingSub)| == |subs|
  {
    if subs != [] {
      CountGroupsPartition(subs[1..]);
    }
  }

  /** `pkg?.price || 0`: the price of a subscriber's package, or 0 when it is unknown. */
  function PackagePrice(packages: seq<Package>, sub: Subscriber): real {
    match Lookup(packages, PackageId, sub.packageId)
    case Some(pkg) => pkg.price
    case None => 0.0
  }

  function PriceOf(packages: seq<Package>): Subscriber -> real {
    (s: Subscriber) => PackagePrice(packages, s)
  }

  /** What a subscriber adds to `totalRevenue`. */
  function ActivePrice(packages: seq<Package>): Subscriber -> real {
    (s: Subscriber) => if s.status == Active then PackagePrice(packages, s) else 0.0
  }

  /** What a subscriber adds to `potentialRevenue`. */
  function PendingPrice(packages: seq<Package>): Subscriber -> real {
    (s: Subscriber) => if s.status != Active then PackagePrice(packages, s) else 0.0
  }

  function OfBarber(barberId: string): Subscriber -> bool {
    (s: Subscriber) => s.barberId == barberId
  }

  datatype SubscriberStats = SubscriberStats(
    activeCount: int,
    inactiveCount: int,
    pendingCount: int,
    totalRevenue: real,
    potentialRevenue: real,
    avgTicket: real,
    barberRevenue: map<string, real>)

  /**
   * `barberRevenue` over a list of subscribers: a key for every barber a
   * subscriber is linked to, holding the revenue of that barber's active
   * subscribers.
   */
  ghost predicate RevenueByBarber(m: map<string, real>, subs: seq<Subscriber>, packages: seq<Package>) {
    KeyedByBarber(m, subs) && SummedByBarber(m, subs, packages)
  }

  /** A key for every barber some subscriber of the list is linked to, and no other. */
  ghost predicate KeyedByBarber(m: map<string, real>, subs: seq<Subscriber>) {
    forall b :: b in m <==> exists s :: s in subs && s.barberId == b
  }

  /** Each key holds the revenue of that barber's active subscribers. */
  ghost predicate SummedByBarber(m: map<string, real>, subs: seq<Subscriber>, packages: seq<Package>) {
    forall b :: b in m ==> m[b] == Sum(Filter(subs, OfBarber(b)), ActivePrice(packages))
  }

  /** One turn of the `forEach`: open the barber's entry at 0, then add an active subscriber's price. */
  function AddToBarber(m: map<string, real>, sub: Subscriber, packages: seq<Package>): map<string, real> {
    var withEntry := if sub.barberId !in m then m[sub.barberId := 0.0] else m;
    if sub.status == Active then withEntry[sub.barberId := withEntry[sub.barberId] + PackagePrice(packages, sub)] else withEntry
  }

  lemma AddToBarberKeys(m: map<string, real>, visible: seq<Subscriber>, i: nat, packages: seq<Package>)
    requires i < |visible|
    requires KeyedByBarber(m, visible[..i])
    ensures KeyedByBarber(AddToBarber(m, visible[i], packages), visible[..i + 1])
  {
    var sub := visible[i];
    var m' := AddToBarber(m, sub, packages);
    assert visible[..i + 1] == visible[..i] + [sub];
    forall b ensures b in m' <==> exists s :: s in visible[..i + 1] && s.barberId == b {
      if b in m' && b != sub.barberId {
        var s :| s in visible[..i] && s.barberId == b;
        assert s in visible[..i + 1];
      }
    }
  }

  lemma AddToBarberSums(m: map<string, real>, visible: seq<Subscriber>, i: nat, packages: seq<Package>)
    requires i < |visible|
    requires KeyedByBarber(m, visible[..i])
    requires SummedByBarber(m, visible[..i], packages)
    ensures SummedByBarber(AddToBarber(m, visible[i], packages), visible[..i + 1], packages)
  {
    var m' := AddToBarber(m, visible[i], packages);
    forall b | b in m' ensures m'[b] == Sum(Filter(visible[..i + 1], OfBarber(b)), ActivePrice(packages)) {
      if b in m {
        AddToBarberSumAt(visible, i, packages, b, m[b], m'[b]);
      } else {
        FilterNone(visible[..i], OfBarber(b));
        AddToBarberSumAt(visible, i, packages, b, 0.0, m'[b]);
      }
    }
  }

  /** The entry of barber `b` before and after one turn of the `forEach`. */
  lemma AddToBarberSumAt(visible: seq<Subscriber>, i: nat, packages: seq<Package>, b: string, before: real, after: real)
    requires i < |visible|
    requires before == Sum(Filter(visible[..i], OfBarber(b)), ActivePrice(packages))
    requires after == before + (if visible[i].barberId == b && visible[i].status == Active
                                then PackagePrice(packages, visible[i]) else 0.0)
    ensures after == Sum(Filter(visible[..i + 1], OfBarber(b)), ActivePrice(packages))
  {
    FilterSumStep(visible, i, OfBarber(b), ActivePrice(packages));
  }

  /**
   * `stats`: the group counts, the revenue of active subscriptions (in
   * total and per linked barber), the revenue still to collect from the
   * others, and the average ticket.
   */
  method Stats(visible: seq<Subscriber>, packages: seq<Package>) returns (st: SubscriberStats)
    ensures st.activeCount == |Filter(visible, IsActiveSub)|
    ensures st.inactiveCount == |Filter(visible, IsInactiveSub)|
    ensures st.pendingCount == |Filter(visible, IsPendingSub)|
    ensures st.totalRevenue == Sum(visible, ActivePrice(packages))
    ensures st.potentialRevenue == Sum(visible, PendingPrice(packages))
    ensures st.avgTicket == if st.activeCount > 0 then st.totalRevenue / st.activeCount as real else 0.0
    ensures forall b :: b in st.barberRevenue <==> exists s :: s in visible && s.barberId == b
    ensures forall b :: b in st.barberRevenue ==>
              st.barberRevenue[b] == Sum(Filter(visible, OfBarber(b)), ActivePrice(packages))
  {
    var activeSubs := Filter(visible, IsActiveSub);
    var inactiveSubs := Filter(visible, IsInactiveSub);
    var pendingSubs := Filter(visible, IsPendingSub);
    var totalRevenue := 0.0;
    var potentialRevenue := 0.0;
    var barberRevenue: map<string, real> := map[];
    for i := 0 to |visible|
      invariant totalRevenue == Sum(visible[..i], ActivePrice(packages))
      invariant potentialRevenue == Sum(visible[..i], PendingPrice(packages))
      invariant RevenueByBarber(barberRevenue, visible[..i], packages)
    {
      var sub := visible[i];
      var price := PackagePrice(packages, sub);
      SumStep(visible, i, ActivePrice(packages));
      SumStep(visible, i, PendingPrice(packages));
      AddToBarberKeys(barberRevenue, visible, i, packages);
      AddToBarberSums(barberRevenue, visible, i, packages);
      if sub.status == Active {
        totalRevenue := totalRevenue + price;
      } else {
        potentialRevenue := potentialRevenue + price;
      }
      barberRevenue := AddToBarber(barberRevenue, sub, packages);
    }
    assert visible[..|visible|] == visible;
    var avgTicket := if |activeSubs| > 0 then totalRevenue / |activeSubs| as real else 0.0;
    st := SubscriberStats(|activeSubs|, |inactiveSubs|, |pendingSubs|, totalRevenue, potentialRevenue, avgTicket,
                          barberRevenue);
  }

  /** Collected and still-to-collect revenue together are the package prices of all the subscribers. */
  lemma RevenueSplitsAll(visible: seq<Subscriber>, packages: seq<Package>)
    ensures Sum(visible, ActivePrice(packages)) + Sum(visible, PendingPrice(packages)) == Sum(visible, PriceOf(packages))
  {
    forall s ensures PriceOf(packages)(s) == ActivePrice(packages)(s) + PendingPrice(packages)(s) {
    }
    SumAdd(visible, ActivePrice(packages), PendingPrice(packages), PriceOf(packages));
  }

  /** The per-barber sums over a list of barber ids. */
  function SumByBarber(subs: seq<Subscriber>, f: Subscriber -> real, ids: seq<string>): real {
    if ids == [] then 0.0 else Sum(Filter(subs, OfBarber(ids[0])), f) + SumByBarber(subs, f, ids[1..])
  }

  function OfNone(ids: seq<string>): Subscriber -> bool {
    (s: Subscriber) => s.barberId !in ids
  }

  function NotOfBarber(barberId: string): Subscriber -> bool {
    (s: Subscriber) => s.barberId != barberId
  }

  predicate Distinct(ids: seq<string>) {
    forall i, j :: 0 <= i < j < |ids| ==> ids[i] != ids[j]
  }

  /** A sum is the sums over distinct barbers plus the sum over the subscribers of no listed barber. */
  lemma {:induction false} SumSplitsByBarber(subs: seq<Subscriber>, f: Subscriber -> real, ids: seq<string>)
    requires Distinct(ids)
    ensures Sum(subs, f) == SumByBarber(subs, f, ids) + Sum(Filter(subs, OfNone(ids)), f)
  {
    if ids == [] {
      FilterAll(subs, OfNone(ids));
    } else {
      var b := ids[0];
      var rest := ids[1..];
      assert Distinct(rest);
      SumSplitsByBarber(subs, f, rest);
      assert b !in rest by {
        forall j | 0 <= j < |rest| ensures rest[j] != b {
          assert rest[j] == ids[j + 1];
        }
      }
      assert ids == [b] + rest;
      var others := Filter(subs, OfNone(rest));
      forall x ensures NotOfBarber(b)(x) == !OfBarber(b)(x) {
      }
      SumPartition(others, f, OfBarber(b), NotOfBarber(b));
      forall x ensures OfBarber(b)(x) == (OfNone(rest)(x) && OfBarber(b)(x)) {
      }
      FilterFilter(subs, OfNone(rest), OfBarber(b), OfBarber(b));
      forall x ensures OfNone(ids)(x) == (OfNone(rest)(x) && NotOfBarber(b)(x)) {
      }
      FilterFilter(subs, OfNone(rest), NotOfBarber(b), OfNone(ids));
    }
  }

  /** The values of a map at a list of its keys, added up. */
  function SumValues(m: map<string, real>, ids: seq<string>): real
    requires forall b :: b in ids ==> b in m
  {
    if ids == [] then 0.0 else m[ids[0]] + SumValues(m, ids[1..])
  }

  /**
   * The `barberRevenue` values add up to `totalRevenue`: summing the map
   * over its keys, each taken once, gives the revenue of the active
   * subscribers.
   */
  lemma BarberRevenueAddsUp(visible: seq<Subscriber>, packages: seq<Package>, m: map<string, real>, ids: seq<string>)
    requires Distinct(ids)
    requires forall b :: b in m <==> b in ids
    requires forall b :: b in m <==> exists s :: s in visible && s.barberId == b
    requires forall b :: b in m ==> m[b] == Sum(Filter(visible, OfBarber(b)), ActivePrice(packages))
    ensures SumValues(m, ids) == Sum(visible, ActivePrice(packages))
  {
    SumSplitsByBarber(visible, ActivePrice(packages), ids);
    SumValuesByBarber(visible, packages, m, ids);
    forall s | s in visible ensures !OfNone(ids)(s) {
      assert s.barberId in m;
    }
    FilterNone(visible, OfNone(ids));
  }

  lemma {:induction false} SumValuesByBarber(visible: seq<Subscriber>, packages: seq<Package>, m: map<string, real>,
                                             ids: seq<string>)
    requires forall b :: b in ids ==> b in m
    requires forall b :: b in m ==> m[b] == Sum(Filter(visible, OfBarber(b)), ActivePrice(packages))
    ensures SumValues(m, ids) == SumByBarber(visible, ActivePrice(packages), ids)
  {
    if ids != [] {
      assert ids[0] in ids;
      assert forall b :: b in ids[1..] ==> b in ids;
      SumValuesByBarber(visible, packages, m, ids[1..]);
    }
  }

  // ---------------------------------------------------------------------------
  // Registering, updating and deleting

  datatype SubscriberForm = SubscriberForm(
    name: string,
    phone: string,
    packageId: string,
    barberId: string,
    dueDay: int,
    isPaid: bool)

  /** The barber a new subscriber is linked to: the admin's choice, else the signed-in user, else "any". */
  function SelectedBarberId(form: SubscriberForm, isAdmin: bool, userId: Option<string>): (id: string)
    ensures isAdmin ==> id == form.barberId
    ensures !isAdmin && Truthy(userId) ==> id == userId.value
    ensures !isAdmin && !Truthy(userId) ==> id == "any"
  {
    if isAdmin then form.barberId else if Truthy(userId) then userId.value else "any"
  }

  /**
   * The subscriber `handleCreateSubscriber` registers: active and paid the
   * package price when marked paid, pending and paid 0 otherwise.
   */
  function NewSubscriber(form: SubscriberForm, packages: seq<Package>, isAdmin: bool, userId: Option<string>,
                         id: string, today: string, nowIso: string): (s: Subscriber)
    ensures s.id == id && s.packageId == form.packageId && s.startDate == today && s.dueDay == form.dueDay
    ensures s.barberId == SelectedBarberId(form, isAdmin, userId)
    ensures form.isPaid ==> s.status == Active && s.lastPaymentAmount == Some(PackagePrice(packages, s))
                            && s.lastPaymentDate == Some(nowIso)
    ensures !form.isPaid ==> s.status == SubscriberStatus.Pending && s.lastPaymentAmount == Some(0.0)
                             && s.lastPaymentDate.None?
  {
    var pkgPrice := match Lookup(packages, PackageId, form.packageId) case Some(pkg) => pkg.price case None => 0.0;
    Subscriber(id, form.name, form.phone, form.packageId, SelectedBarberId(form, isAdmin, userId), today, form.dueDay,
               if form.isPaid then Active else SubscriberStatus.Pending,
               Some(if form.isPaid then pkgPrice else 0.0),
               if form.isPaid then Some(nowIso) else None,
               None)
  }

  /** `handleCreateSubscriber`: the new subscriber goes at the end of the list. */
  method HandleCreateSubscriber(store: Store, form: SubscriberForm, isAdmin: bool, userId: Option<string>,
                                id: string, today: string, nowIso: string)
    modifies store`subscribers
    ensures store.subscribers == old(store.subscribers) + [NewSubscriber(form, store.packages, isAdmin, userId, id, today, nowIso)]
  {
    var newSub := NewSubscriber(form, store.packages, isAdmin, userId, id, today, nowIso);
    store.subscribers := store.subscribers + [newSub];
  }

  /**
   * A barber who registers a subscriber sees them afterwards, and a paid
   * registration adds the package price to the collected revenue.
   */
  lemma CreatedSubscriberCounts(subs: seq<Subscriber>, form: SubscriberForm, packages: seq<Package>,
                                userId: Option<string>, id: string, today: string, nowIso: string)
    ensures var s := NewSubscriber(form, packages, false, userId, id, today, nowIso);
            && (Truthy(userId) ==> s in VisibleSubscribers(subs + [s], false, userId))
            && Sum(subs + [s], ActivePrice(packages)) ==
                 Sum(subs, ActivePrice(packages)) + (if form.isPaid then PackagePrice(packages, s) else 0.0)
  {
    var s := NewSubscriber(form, packages, false, userId, id, today, nowIso);
    SumConcat(subs, [s], ActivePrice(packages));
    assert Sum([s], ActivePrice(packages)) == ActivePrice(packages)(s) + Sum([s][1..], ActivePrice(packages));
  }

  /** The edit dialog's change to one subscriber: a payment is recorded only when the new status is active. */
  function WithStatus(s: Subscriber, status: SubscriberStatus, amount: real, nowIso: string): (r: Subscriber)
    ensures r.status == status && r.id == s.id
    ensures status == Active ==> r.lastPaymentAmount == Some(amount) && r.lastPaymentDate == Some(nowIso)
    ensures status != Active ==> r.lastPaymentAmount == s.lastPaymentAmount && r.lastPaymentDate == s.lastPaymentDate
    ensures r.(status := s.status, lastPaymentAmount := s.lastPaymentAmount, lastPaymentDate := s.lastPaymentDate) == s
  {
    s.(status := status,
       lastPaymentAmount := if status == Active then Some(amount) else s.lastPaymentAmount,
       lastPaymentDate := if status == Active then Some(nowIso) else s.lastPaymentDate)
  }

  function SetStatus(status: SubscriberStatus, amount: real, nowIso: string): Subscriber -> Subscriber {
    (s: Subscriber) => WithStatus(s, status, amount, nowIso)
  }

  /** `handleUpdateStatus`: without a selected subscriber nothing changes; otherwise only that one is updated. */
  method HandleUpdateStatus(store: Store, selected: Option<Subscriber>, status: SubscriberStatus, amount: real,
                            nowIso: string)
    modifies store`subscribers
    ensures selected.None? ==> store.subscribers == old(store.subscribers)
    ensures selected.Some? ==>
              store.subscribers == MapWhere(old(store.subscribers), IdMatches(SubscriberId, selected.value.id),
                                            SetStatus(status, amount, nowIso))
  {
    if selected.None? {
      return;
    }
    store.subscribers := MapWhere(store.subscribers, IdMatches(SubscriberId, selected.value.id),
                                  SetStatus(status, amount, nowIso));
  }

  /**
   * Updating a subscriber's status leaves every other subscriber as it was
   * and in its place, and the updated one keeps its id; updating twice in a
   * row with the same values is the same as once.
   */
  lemma UpdateStatusTouchesOnlyOne(subs: seq<Subscriber>, id: string, status: SubscriberStatus, amount: real,
                                   nowIso: string)
    ensures var r := MapWhere(subs, IdMatches(SubscriberId, id), SetStatus(status, amount, nowIso));
            && Filter(r, IdDiffers(SubscriberId, id)) == Filter(subs, IdDiffers(SubscriberId, id))
            && MapWhere(r, IdMatches(SubscriberId, id), SetStatus(status, amount, nowIso)) == r
  {
    var picked := IdMatches(SubscriberId, id);
    var update := SetStatus(status, amount, nowIso);
    forall x ensures IdDiffers(SubscriberId, id)(x) == !picked(x) {
    }
    StatusKeepsId(id, status, amount, nowIso);
    FilterMapWhere(subs, picked, IdDiffers(SubscriberId, id), update);
    var r := MapWhere(subs, picked, update);
    var r2 := MapWhere(r, picked, update);
    forall i | 0 <= i < |r| ensures r2[i] == r[i] {
      if picked(subs[i]) {
        assert update(r[i]) == r[i];
      }
    }
  }

  lemma StatusKeepsId(id: string, status: SubscriberStatus, amount: real, nowIso: string)
    ensures forall x :: IdMatches(SubscriberId, id)(x) ==> IdMatches(SubscriberId, id)(SetStatus(status, amount, nowIso)(x))
  {
    forall x: Subscriber | IdMatches(SubscriberId, id)(x)
      ensures IdMatches(SubscriberId, id)(SetStatus(status, amount, nowIso)(x))
    {
      var u := WithStatus(x, status, amount, nowIso);
      assert SetStatus(status, amount, nowIso)(x) == u;
      assert SubscriberId(x) == id;
      assert u.id == x.id;
      assert SubscriberId(u) == id;
      assert IdMatches(SubscriberId, id)(u);
    }
  }

  /** `handleDeleteSubscriber`: once confirmed, the subscriber with the id is gone and the others stay. */
  method HandleDeleteSubscriber(store: Store, id: string, confirmed: bool)
    modifies store`subscribers
    ensures confirmed ==> store.subscribers == Remove(old(store.subscribers), SubscriberId, id)
    ensures confirmed ==> Lookup(store.subscribers, SubscriberId, id).None?
    ensures !confirmed ==> store.subscribers == old(store.subscribers)
  {
    if confirmed {
      var subscribers := store.subscribers;
      store.subscribers := Remove(subscribers, SubscriberId, id);
      RemoveLookup(subscribers, SubscriberId, id, id);
    }
  }
}
