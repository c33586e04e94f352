/**
 * The admin dashboard's figures: revenue today (in total and per barber),
 * appointment counts, revenue by kind of item, and each active barber's
 * sales and commission for the month.
 *
 * Whether a date is today, in this week or in this month depends on the
 * clock, so the three tests are parameters. The signed-in role and user id
 * are parameters too.
 */
module Dashboard {
  import opened Wrappers
  import opened Types
  import opened Seqs

  // ---------------------------------------------------------------------------
  // What a figure is computed from

  function BarberIdIs(id: string): Appointment -> bool {
    (a: Appointment) => a.barberId == id
  }

  function IdIs(id: string): Barber -> bool {
    (b: Barber) => b.id == id
  }

  /** A barber (not an admin) with a user id sees only their own appointments. */
  function RelevantApps(apps: seq<Appointment>, isAdmin: bool, userId: Option<string>): (r: seq<Appointment>)
    ensures !isAdmin && Truthy(userId) ==> forall a :: a in r <==> a in apps && a.barberId == userId.value
    ensures isAdmin || !Truthy(userId) ==> r == apps
  {
    if !isAdmin && Truthy(userId) then Filter(apps, BarberIdIs(userId.value)) else apps
  }

  /** ... and only their own record. */
  function RelevantBarbers(barbers: seq<Barber>, isAdmin: bool, userId: Option<string>): (r: seq<Barber>)
    ensures !isAdmin && Truthy(userId) ==> forall b :: b in r <==> b in barbers && b.id == userId.value
    ensures isAdmin || !Truthy(userId) ==> r == barbers
  {
    if !isAdmin && Truthy(userId) then Filter(barbers, IdIs(userId.value)) else barbers
  }

  /** Revenue counts only completed (paid) appointments. */
  predicate IsCompleted(a: Appointment) {
    a.status == Completed
  }

  /** Appointment counts leave out cancelled appointments and blocks. */
  predicate IsActiveApp(a: Appointment) {
    a.status != Cancelled && a.status != Blocked
  }

  function OnDays(days: string -> bool): Appointment -> bool {
    (a: Appointment) => days(a.date)
  }

  /** An appointment's value: `finalPrice ?? totalPrice`. */
  function ValueOf(a: Appointment): real {
    a.Value()
  }

  // ---------------------------------------------------------------------------
  // Per-barber rankings

  datatype BarberTotal = BarberTotal(id: string, name: string, total: real)

  datatype BarberCount = BarberCount(id: string, name: string, count: int)

  function TotalsFor(barbers: seq<Barber>, todayApps: seq<Appointment>): (r: seq<BarberTotal>)
    ensures |r| == |barbers|
    ensures forall i :: 0 <= i < |barbers| ==>
              r[i] == BarberTotal(barbers[i].id, barbers[i].name, Sum(Filter(todayApps, BarberIdIs(barbers[i].id)), ValueOf))
  {
    seq(|barbers|, i requires 0 <= i < |barbers| =>
      BarberTotal(barbers[i].id, barbers[i].name, Sum(Filter(todayApps, BarberIdIs(barbers[i].id)), ValueOf)))
  }

  function DescendingTotal(t: BarberTotal): real {
    -t.total
  }

  /** `revenueTodayByBarber`: every barber's takings today, highest first. */
  function RevenueTodayByBarber(barbers: seq<Barber>, todayApps: seq<Appointment>): (r: seq<BarberTotal>)
    ensures multiset(r) == multiset(TotalsFor(barbers, todayApps))
  {
    SortBy(TotalsFor(barbers, todayApps), DescendingTotal)
  }

  function TotalIs(k: real): BarberTotal -> bool {
    (t: BarberTotal) => t.total == k
  }

  /**
   * The ranking lists every barber once, highest total first, and barbers
   * with equal totals keep the order of the barber list (the sort is stable).
   */
  lemma RevenueRanking(barbers: seq<Barber>, todayApps: seq<Appointment>, k: real)
    ensures var r := RevenueTodayByBarber(barbers, todayApps);
            && |r| == |barbers|
            && (forall i, j :: 0 <= i < j < |r| ==> r[i].total >= r[j].total)
            && Filter(r, TotalIs(k)) == Filter(TotalsFor(barbers, todayApps), TotalIs(k))
  {
    var unsorted := TotalsFor(barbers, todayApps);
    var r := RevenueTodayByBarber(barbers, todayApps);
    assert |r| == |multiset(r)| == |multiset(unsorted)| == |unsorted|;
    SortBySorted(unsorted, DescendingTotal);
    forall i, j | 0 <= i < j < |r| ensures r[i].total >= r[j].total {
      assert DescendingTotal(r[i]) <= DescendingTotal(r[j]);
    }
    SortByStable(unsorted, DescendingTotal, TotalIs(k), -k);
  }

  function InMonthFor(id: string, isThisMonth: string -> bool): Appointment -> bool {
    (a: Appointment) => a.barberId == id && isThisMonth(a.date)
  }

  function CountsFor(barbers: seq<Barber>, activeApps: seq<Appointment>, isThisMonth: string -> bool)
    : (r: seq<BarberCount>)
    ensures |r| == |barbers|
    ensures forall i :: 0 <= i < |barbers| ==>
              r[i] == BarberCount(barbers[i].id, barbers[i].name, |Filter(activeApps, InMonthFor(barbers[i].id, isThisMonth))|)
  {
    seq(|barbers|, i requires 0 <= i < |barbers| =>
      BarberCount(barbers[i].id, barbers[i].name, |Filter(activeApps, InMonthFor(barbers[i].id, isThisMonth))|))
  }

  function DescendingCount(c: BarberCount): real {
    -(c.count as real)
  }

  /** `countMonthByBarber`: every barber's appointment count this month, highest first. */
  function CountMonthByBarber(barbers: seq<Barber>, activeApps: seq<Appointment>, isThisMonth: string -> bool)
    : (r: seq<BarberCount>)
    ensures multiset(r) == multiset(CountsFor(barbers, activeApps, isThisMonth))
  {
    SortBy(CountsFor(barbers, activeApps, isThisMonth), DescendingCount)
  }

  function CountIs(k: int): BarberCount -> bool {
    (c: BarberCount) => c.count == k
  }

  lemma CountRanking(barbers: seq<Barber>, activeApps: seq<Appointment>, isThisMonth: string -> bool, k: int)
    ensures var r := CountMonthByBarber(barbers, activeApps, isThisMonth);
            && |r| == |barbers|
            && (forall i, j :: 0 <= i < j < |r| ==> r[i].count >= r[j].count)
            && Filter(r, CountIs(k)) == Filter(CountsFor(barbers, activeApps, isThisMonth), CountIs(k))
  {
    var unsorted := CountsFor(barbers, activeApps, isThisMonth);
    var r := CountMonthByBarber(barbers, activeApps, isThisMonth);
    assert |r| == |multiset(r)| == |multiset(unsorted)| == |unsorted|;
    SortBySorted(unsorted, DescendingCount);
    forall i, j | 0 <= i < j < |r| ensures r[i].count >= r[j].count {
      assert DescendingCount(r[i]) <= DescendingCount(r[j]);
    }
    SortByStable(unsorted, DescendingCount, CountIs(k), -(k as real));
  }

  // ---------------------------------------------------------------------------
  // Revenue by kind of item

  /** The kind of the catalog item an appointment is for, if the catalog has it. */
  function SourceOf(services: seq<Service>, a: Appointment): Option<ItemType> {
    match FindService(services, a.serviceId)
    case Some(s) => Some(s.itemType)
    case None => None
  }

  /** The amount an appointment adds to the bucket of kind t. */
  function ValueIn(services: seq<Service>, t: ItemType): Appointment -> real {
    (a: Appointment) => if SourceOf(services, a) == Some(t) then a.Value() else 0.0
  }

  /** Amounts per kind: services, products and subscriptions. */
  datatype Breakdown = Breakdown(service: real, product: real, subscription: real)
  {
    function Total(): real {
      service + product + subscription
    }
  }

  /**
   * `revenueSources`: each completed appointment's value goes to the bucket
   * of its item's kind; an appointment for an item missing from the catalog
   * adds nothing, and no item is of the subscription kind.
   */
  method RevenueSources(completedApps: seq<Appointment>, services: seq<Service>) returns (sources: Breakdown)
    ensures sources.service == Sum(completedApps, ValueIn(services, ServiceItem))
    ensures sources.product == Sum(completedApps, ValueIn(services, ProductItem))
    ensures sources.subscription == 0.0
  {
    sources := Breakdown(0.0, 0.0, 0.0);
    for i := 0 to |completedApps|
      invariant sources.service == Sum(completedApps[..i], ValueIn(services, ServiceItem))
      invariant sources.product == Sum(completedApps[..i], ValueIn(services, ProductItem))
      invariant sources.subscription == 0.0
    {
      var app := completedApps[i];
      SumStep(completedApps, i, ValueIn(services, ServiceItem));
      SumStep(completedApps, i, ValueIn(services, ProductItem));
      var service := FindService(services, app.serviceId);
      var val := app.Value();
      if service.Some? {
        match service.value.itemType
        case ServiceItem => sources := sources.(service := sources.service + val);
        case ProductItem => sources := sources.(product := sources.product + val);
      }
    }
    assert completedApps[..|completedApps|] == completedApps;
  }

  predicate InCatalog(services: seq<Service>, a: Appointment) {
    FindService(services, a.serviceId).Some?
  }

  function InCatalogOf(services: seq<Service>): Appointment -> bool {
    (a: Appointment) => InCatalog(services, a)
  }

  function CatalogValue(services: seq<Service>): Appointment -> real {
    (a: Appointment) => if InCatalog(services, a) then a.Value() else 0.0
  }

  /**
   * `totalRevenueAllTime`, the sum of the three buckets, is the value of the
   * completed appointments whose item is in the catalog.
   */
  lemma TotalRevenueIsCatalogRevenue(completedApps: seq<Appointment>, services: seq<Service>)
    ensures Sum(completedApps, ValueIn(services, ServiceItem)) + Sum(completedApps, ValueIn(services, ProductItem)) + 0.0
            == Sum(Filter(completedApps, InCatalogOf(services)), ValueOf)
  {
    forall a: Appointment ensures CatalogValue(services)(a) == ValueIn(services, ServiceItem)(a) + ValueIn(services, ProductItem)(a) {
      var item := FindService(services, a.serviceId);
      assert CatalogValue(services)(a) == if InCatalog(services, a) then a.Value() else 0.0;
      assert ValueIn(services, ServiceItem)(a) == if SourceOf(services, a) == Some(ServiceItem) then a.Value() else 0.0;
      assert ValueIn(services, ProductItem)(a) == if SourceOf(services, a) == Some(ProductItem) then a.Value() else 0.0;
      if item.Some? {
        assert InCatalog(services, a);
        assert SourceOf(services, a) == Some(item.value.itemType);
        match item.value.itemType
        case ServiceItem => assert ValueIn(services, ProductItem)(a) == 0.0;
        case ProductItem => assert ValueIn(services, ServiceItem)(a) == 0.0;
      } else {
        assert SourceOf(services, a) == None;
      }
    }
    SumAdd(completedApps, ValueIn(services, ServiceItem), ValueIn(services, ProductItem), CatalogValue(services));
    SumFilterZero(completedApps, CatalogValue(services), InCatalogOf(services));
    SumAgree(Filter(completedApps, InCatalogOf(services)), CatalogValue(services), ValueOf);
  }

  // ---------------------------------------------------------------------------
  // Monthly commissions

  /** The kind an appointment is commissioned as: its item's, or service when the item is missing. */
  function KindOf(item: Option<Service>): ItemType {
    if item.Some? then item.value.itemType else ServiceItem
  }

  /** `b.commissionRates ? b.commissionRates[kind] : 0`: the barber's own rate for a kind of item. */
  function BarberRate(barber: Barber, kind: ItemType): (rate: real)
    ensures barber.commissionRates.None? ==> rate == 0.0
    ensures barber.commissionRates.Some? && kind == ServiceItem ==> rate == barber.commissionRates.value.service
    ensures barber.commissionRates.Some? && kind == ProductItem ==> rate == barber.commissionRates.value.product
  {
    if barber.commissionRates.Some? then barber.commissionRates.value.ForItem(kind) else 0.0
  }

  /**
   * The dashboard's commission rate: the item's own rate whenever it is
   * set, even to 0; otherwise the barber's rate for the item's kind (the
   * service kind when the item is missing from the catalog).
   */
  function CommissionRate(item: Option<Service>, barber: Barber): (rate: real)
    ensures item.Some? && item.value.commissionRate.Some? ==> rate == item.value.commissionRate.value
    ensures item.Some? && item.value.commissionRate.None? ==> rate == BarberRate(barber, item.value.itemType)
    ensures item.None? ==> rate == BarberRate(barber, ServiceItem)
  {
    var barberCategoryRate := BarberRate(barber, KindOf(item));
    if item.Some? && item.value.commissionRate.Some? then item.value.commissionRate.value else barberCategoryRate
  }

  /** `value * rate / 100`: the commission on a value at a percentage rate. */
  function Percent(value: real, rate: real): real {
    value * rate / 100.0
  }

  function CommissionOf(services: seq<Service>, barber: Barber): Appointment -> real {
    (a: Appointment) => Percent(a.Value(), CommissionRate(FindService(services, a.serviceId), barber))
  }

  function CommissionIn(services: seq<Service>, barber: Barber, t: ItemType): Appointment -> real {
    (a: Appointment) => if KindOf(FindService(services, a.serviceId)) == t then CommissionOf(services, barber)(a) else 0.0
  }

  datatype BarberMonth = BarberMonth(barber: Barber, monthSales: real, monthCommission: real,
                                     breakdown: Breakdown, appsCount: int)

  /** One barber's month: sales, commission, commission by kind, and the number of completed appointments. */
  function MonthRow(barber: Barber, completedApps: seq<Appointment>, services: seq<Service>, isThisMonth: string -> bool)
    : BarberMonth
  {
    var apps := Filter(completedApps, InMonthFor(barber.id, isThisMonth));
    BarberMonth(barber, Sum(apps, ValueOf), Sum(apps, CommissionOf(services, barber)),
                Breakdown(Sum(apps, CommissionIn(services, barber, ServiceItem)),
                          Sum(apps, CommissionIn(services, barber, ProductItem)), 0.0),
                |apps|)
  }

  /** A barber's commission is exactly the sum of the breakdown, and nothing is commissioned as a subscription. */
  lemma CommissionAddsUp(barber: Barber, completedApps: seq<Appointment>, services: seq<Service>, isThisMonth: string -> bool)
    ensures var row := MonthRow(barber, completedApps, services, isThisMonth);
            row.monthCommission == row.breakdown.Total() && row.breakdown.subscription == 0.0
  {
    var apps := Filter(completedApps, InMonthFor(barber.id, isThisMonth));
    SumAdd(apps, CommissionIn(services, barber, ServiceItem), CommissionIn(services, barber, ProductItem),
           CommissionOf(services, barber));
  }

  /** The `forEach` over one barber's completed appointments of the month. */
  method BarberMonthFor(barber: Barber, completedApps: seq<Appointment>, services: seq<Service>, isThisMonth: string -> bool)
    returns (row: BarberMonth)
    ensures row == MonthRow(barber, completedApps, services, isThisMonth)
  {
    var bAppsMonth := Filter(completedApps, InMonthFor(barber.id, isThisMonth));
    var totalCommission := 0.0;
    var totalSales := 0.0;
    var breakdown := Breakdown(0.0, 0.0, 0.0);
    for i := 0 to |bAppsMonth|
      invariant totalSales == Sum(bAppsMonth[..i], ValueOf)
      invariant totalCommission == Sum(bAppsMonth[..i], CommissionOf(services, barber))
      invariant breakdown.service == Sum(bAppsMonth[..i], CommissionIn(services, barber, ServiceItem))
      invariant breakdown.product == Sum(bAppsMonth[..i], CommissionIn(services, barber, ProductItem))
      invariant breakdown.subscription == 0.0
    {
      var app := bAppsMonth[i];
      SumStep(bAppsMonth, i, ValueOf);
      SumStep(bAppsMonth, i, CommissionOf(services, barber));
      SumStep(bAppsMonth, i, CommissionIn(services, barber, ServiceItem));
      SumStep(bAppsMonth, i, CommissionIn(services, barber, ProductItem));
      var service := FindService(services, app.serviceId);
      var price := app.Value();
      totalSales := totalSales + price;
      var kind := KindOf(service);
      var rate := CommissionRate(service, barber);
      var commVal := Percent(price, rate);
      totalCommission := totalCommission + commVal;
      match kind
      case ServiceItem => breakdown := breakdown.(service := breakdown.service + commVal);
      case ProductItem => breakdown := breakdown.(product := breakdown.product + commVal);
    }
    assert bAppsMonth[..|bAppsMonth|] == bAppsMonth;
    row := BarberMonth(barber, totalSales, totalCommission, breakdown, |bAppsMonth|);
  }

  predicate IsActiveBarber(b: Barber) {
    b.active
  }

  /** `monthlyCommissions`: one row per active barber, in the barber list's order. */
  method MonthlyCommissions(barbers: seq<Barber>, completedApps: seq<Appointment>, services: seq<Service>,
                            isThisMonth: string -> bool)
    returns (rows: seq<BarberMonth>)
    ensures |rows| == |Filter(barbers, IsActiveBarber)|
    ensures forall i :: 0 <= i < |rows| ==>
              rows[i] == MonthRow(Filter(barbers, IsActiveBarber)[i], completedApps, services, isThisMonth)
    ensures forall row :: row in rows ==> row.barber in barbers && row.barber.active
  {
    var active := Filter(barbers, IsActiveBarber);
    rows := [];
    for i := 0 to |active|
      invariant |rows| == i
      invariant forall j :: 0 <= j < i ==> rows[j] == MonthRow(active[j], completedApps, services, isThisMonth)
    {
      var row := BarberMonthFor(active[i], completedApps, services, isThisMonth);
      rows := rows + [row];
    }
    forall row | row in rows ensures row.barber in barbers && row.barber.active {
      var j :| 0 <= j < |rows| && rows[j] == row;
      assert active[j] in active;
    }
  }

  // ---------------------------------------------------------------------------
  // All figures

  datatype DashboardStats = DashboardStats(
    revenueTodayTotal: real,
    revenueTodayByBarber: seq<BarberTotal>,
    countToday: int,
    countWeek: int,
    countMonth: int,
    countMonthByBarber: seq<BarberCount>,
    revenueSources: Breakdown,
    totalRevenueAllTime: real,
    monthlyCommissions: seq<BarberMonth>)

  /** `stats`, for the role and user signed in. */
  method Stats(apps: seq<Appointment>, services: seq<Service>, allBarbers: seq<Barber>,
               isAdmin: bool, userId: Option<string>,
               isToday: string -> bool, isThisWeek: string -> bool, isThisMonth: string -> bool)
    returns (st: DashboardStats)
    ensures var relevant := RelevantApps(apps, isAdmin, userId);
            var barbers := RelevantBarbers(allBarbers, isAdmin, userId);
            var completed := Filter(relevant, IsCompleted);
            var active := Filter(relevant, IsActiveApp);
            && st.revenueTodayTotal == Sum(Filter(completed, OnDays(isToday)), ValueOf)
            && st.revenueTodayByBarber == RevenueTodayByBarber(barbers, Filter(completed, OnDays(isToday)))
            && st.countToday == |Filter(active, OnDays(isToday))|
            && st.countWeek == |Filter(active, OnDays(isThisWeek))|
            && st.countMonth == |Filter(active, OnDays(isThisMonth))|
            && st.countMonthByBarber == CountMonthByBarber(barbers, active, isThisMonth)
            && st.revenueSources.service == Sum(completed, ValueIn(services, ServiceItem))
            && st.revenueSources.product == Sum(completed, ValueIn(services, ProductItem))
            && st.revenueSources.subscription == 0.0
            && st.totalRevenueAllTime == Sum(Filter(completed, InCatalogOf(services)), ValueOf)
            && |st.monthlyCommissions| == |Filter(barbers, IsActiveBarber)|
            && (forall i :: 0 <= i < |st.monthlyCommissions| ==>
                  st.monthlyCommissions[i] == MonthRow(Filter(barbers, IsActiveBarber)[i], completed, services, isThisMonth))
  {
    var relevantApps := RelevantApps(apps, isAdmin, userId);
    var relevantBarbers := RelevantBarbers(allBarbers, isAdmin, userId);
    var completedApps := Filter(relevantApps, IsCompleted);
    var allActiveApps := Filter(relevantApps, IsActiveApp);
    var todayApps := Filter(completedApps, OnDays(isToday));
    var sources := RevenueSources(completedApps, services);
    TotalRevenueIsCatalogRevenue(completedApps, services);
    var monthly := MonthlyCommissions(relevantBarbers, completedApps, services, isThisMonth);
    st := DashboardStats(
      Sum(todayApps, ValueOf),
      RevenueTodayByBarber(relevantBarbers, todayApps),
      |Filter(allActiveApps, OnDays(isToday))|,
      |Filter(allActiveApps, OnDays(isThisWeek))|,
      |Filter(allActiveApps, OnDays(isThisMonth))|,
      CountMonthByBarber(relevantBarbers, allActiveApps, isThisMonth),
      sources,
      sources.service + sources.product + sources.subscription,
      monthly);
  }

  /**
   * For a barber signed in with a user id, every figure comes from that
   * barber's own appointments and record: other barbers' appointments can
   * be added or changed without changing any figure.
   */
  lemma OwnFiguresOnly(apps: seq<Appointment>, others: seq<Appointment>, allBarbers: seq<Barber>, userId: string)
    requires userId != ""
    requires forall a :: a in others ==> a.barberId != userId
    ensures RelevantApps(apps + others, false, Some(userId)) == RelevantApps(apps, false, Some(userId))
    ensures forall b :: b in RelevantBarbers(allBarbers, false, Some(userId)) ==> b.id == userId
  {
    FilterConcat(apps, others, BarberIdIs(userId));
    FilterNone(others, BarberIdIs(userId));
  }
}
