/**
 * The admin catalog pages: services (pages/admin/Services.tsx) and products
 * (pages/admin/Products.tsx). Both edit the one list of catalog items, show
 * a signed-in barber the commission they would earn on each item, and the
 * product page totals the value of the stock.
 *
 * A submitted form is an `ItemForm`: a numeric field left empty is `None`
 * (the pages replace an empty field by a default with `|| default`), and
 * numbers are already parsed.
 */
module Catalog {
  import opened Wrappers
  import opened Types
  import opened Seqs
  import opened Records
  import opened Storage
  import Dashboard

  // ---------------------------------------------------------------------------
  // Commission preview

  /** `currentUser`: the signed-in barber's record; an admin has none. */
  function CurrentUser(barbers: seq<Barber>, isAdmin: bool, userId: Option<string>): (me: Option<Barber>)
    ensures me.Some? ==> !isAdmin && Truthy(userId) && me.value in barbers && me.value.id == userId.value
    ensures isAdmin || !Truthy(userId) ==> me.None?
  {
    if !isAdmin && Truthy(userId) then Lookup(barbers, BarberId, userId.value) else None
  }

  /**
   * The preview's rate: the item's own rate only when it is set and above
   * 0; otherwise the barber's rate for the page's kind of item.
   */
  function PreviewRate(item: Service, barber: Barber, kind: ItemType): (rate: real)
    ensures item.commissionRate.Some? && item.commissionRate.value > 0.0 ==> rate == item.commissionRate.value
    ensures item.commissionRate.None? || item.commissionRate.value <= 0.0 ==> rate == Dashboard.BarberRate(barber, kind)
  {
    if item.commissionRate.Some? && item.commissionRate.value > 0.0 then item.commissionRate.value
    else Dashboard.BarberRate(barber, kind)
  }

  /** `calculateCommission`: nothing without a signed-in barber, else price times the preview rate. */
  function CalculateCommission(item: Service, currentUser: Option<Barber>, kind: ItemType): (commission: real)
    ensures currentUser.None? ==> commission == 0.0
    ensures currentUser.Some? ==>
              commission == Dashboard.Percent(item.price, PreviewRate(item, currentUser.value, kind))
  {
    if currentUser.None? then 0.0 else Dashboard.Percent(item.price, PreviewRate(item, currentUser.value, kind))
  }

  /**
   * The preview and the dashboard apply the same rate to an item except
   * when its own rate is set to 0 or less and differs from the barber's:
   * the preview then falls back to the barber's rate, the dashboard keeps
   * the item's.
   */
  lemma PreviewAgreesWithDashboard(item: Service, barber: Barber)
    ensures PreviewRate(item, barber, item.itemType) == Dashboard.CommissionRate(Some(item), barber) <==>
            (|| item.commissionRate.None?
             || item.commissionRate.value > 0.0
             || item.commissionRate.value == Dashboard.BarberRate(barber, item.itemType))
  {
  }

  // ---------------------------------------------------------------------------
  // Saving and deleting items

  datatype ItemForm = ItemForm(
    name: string,
    price: real,
    durationMinutes: Option<int>,
    description: string,
    imageUrl: string,
    commissionRate: Option<real>,
    costPrice: Option<real>,
    stock: Option<int>)

  /** The id a saved item gets: the edited item's, or a fresh one. */
  function SavedId(editing: Option<Service>, newId: string): string {
    if editing.Some? then editing.value.id else newId
  }

  /**
   * The service `handleSaveService` builds: 30 minutes and a commission rate
   * of 0 when those fields are empty, and no cost or stock.
   */
  function ServiceFromForm(form: ItemForm, id: string): (s: Service)
    ensures s.id == id && s.name == form.name && s.price == form.price && s.itemType == ServiceItem
    ensures s.durationMinutes == if form.durationMinutes.Some? then form.durationMinutes.value else 30
    ensures s.commissionRate == Some(if form.commissionRate.Some? then form.commissionRate.value else 0.0)
    ensures s.costPrice == Some(0.0) && s.stock == Some(0)
    ensures s.WellFormed()
  {
    Service(id, form.name, form.price, form.durationMinutes.GetOr(30), Some(form.description), ServiceItem,
            Some(form.commissionRate.GetOr(0.0)), Some(form.imageUrl), Some(0.0), Some(0))
  }

  /**
   * The product `handleSaveProduct` builds: no chair time, and cost, stock
   * and commission rate 0 when those fields are empty.
   */
  function ProductFromForm(form: ItemForm, id: string): (p: Service)
    ensures p.id == id && p.name == form.name && p.price == form.price && p.itemType == ProductItem
    ensures p.durationMinutes == 0
    ensures p.costPrice == Some(if form.costPrice.Some? then form.costPrice.value else 0.0)
    ensures p.stock == Some(if form.stock.Some? then form.stock.value else 0)
    ensures p.commissionRate == Some(if form.commissionRate.Some? then form.commissionRate.value else 0.0)
    ensures p.WellFormed()
  {
    Service(id, form.name, form.price, 0, Some(form.description), ProductItem,
            Some(form.commissionRate.GetOr(0.0)), Some(form.imageUrl),
            Some(form.costPrice.GetOr(0.0)), Some(form.stock.GetOr(0)))
  }

  /**
   * An item saved with its rate field left empty is stored with rate 0:
   * the dashboard pays no commission on it, while the preview shows the
   * barber's own rate.
   */
  lemma EmptyRateFieldMeansNoCommission(form: ItemForm, id: string, barber: Barber)
    requires form.commissionRate.None?
    ensures Dashboard.CommissionRate(Some(ServiceFromForm(form, id)), barber) == 0.0
    ensures Dashboard.CommissionRate(Some(ProductFromForm(form, id)), barber) == 0.0
    ensures PreviewRate(ServiceFromForm(form, id), barber, ServiceItem) == Dashboard.BarberRate(barber, ServiceItem)
    ensures PreviewRate(ProductFromForm(form, id), barber, ProductItem) == Dashboard.BarberRate(barber, ProductItem)
  {
  }

  /**
   * The common end of `handleSaveService` and `handleSaveProduct`: the
   * edited item is replaced where it stands, a new one is appended, and
   * looking up any other id finds what it found before.
   */
  method SaveItem(store: Store, editing: bool, item: Service)
    modifies store`services
    ensures editing ==> store.services == Replace(old(store.services), ServiceId, item.id, item)
    ensures !editing ==> store.services == old(store.services) + [item]
    ensures editing && FindService(old(store.services), item.id).Some? ==> FindService(store.services, item.id) == Some(item)
    ensures !editing && FindService(old(store.services), item.id).None? ==> FindService(store.services, item.id) == Some(item)
    ensures forall other :: other != item.id ==> FindService(store.services, other) == FindService(old(store.services), other)
  {
    var allItems := store.services;
    if editing {
      store.services := Replace(allItems, ServiceId, item.id, item);
      forall other | true
        ensures other != item.id ==> FindService(store.services, other) == FindService(allItems, other)
      {
        LookupAfterReplace(allItems, ServiceId, item, other);
      }
      LookupAfterReplace(allItems, ServiceId, item, item.id);
    } else {
      store.services := allItems + [item];
      forall other | true
        ensures other != item.id ==> FindService(store.services, other) == FindService(allItems, other)
      {
        LookupAfterAppend(allItems, ServiceId, item, other);
      }
      LookupAfterAppend(allItems, ServiceId, item, item.id);
    }
  }

  /** `handleSaveService`. */
  method HandleSaveService(store: Store, editing: Option<Service>, form: ItemForm, newId: string)
    modifies store`services
    ensures var item := ServiceFromForm(form, SavedId(editing, newId));
            && (editing.Some? ==> store.services == Replace(old(store.services), ServiceId, item.id, item))
            && (editing.None? ==> store.services == old(store.services) + [item])
  {
    var newService := ServiceFromForm(form, SavedId(editing, newId));
    SaveItem(store, editing.Some?, newService);
  }

  /** `handleSaveProduct`. */
  method HandleSaveProduct(store: Store, editing: Option<Service>, form: ItemForm, newId: string)
    modifies store`services
    ensures var item := ProductFromForm(form, SavedId(editing, newId));
            && (editing.Some? ==> store.services == Replace(old(store.services), ServiceId, item.id, item))
            && (editing.None? ==> store.services == old(store.services) + [item])
  {
    var newProduct := ProductFromForm(form, SavedId(editing, newId));
    SaveItem(store, editing.Some?, newProduct);
  }

  /**
   * `handleDeleteService` and `handleDeleteProduct`: once confirmed, the
   * items with the id are gone and every other id finds what it found
   * before; otherwise nothing changes.
   */
  method HandleDeleteItem(store: Store, id: string, confirmed: bool)
    modifies store`services
    ensures confirmed ==> store.services == Remove(old(store.services), ServiceId, id)
    ensures confirmed ==> FindService(store.services, id).None?
    ensures confirmed ==> forall other :: other != id ==> FindService(store.services, other) == FindService(old(store.services), other)
    ensures !confirmed ==> store.services == old(store.services)
  {
    if confirmed {
      var allItems := store.services;
      store.services := Remove(allItems, ServiceId, id);
      forall other | true
        ensures other != id ==> FindService(store.services, other) == FindService(allItems, other)
      {
        RemoveLookup(allItems, ServiceId, id, other);
      }
    }
  }

  // ---------------------------------------------------------------------------
  // Stock value

  predicate IsProduct(s: Service) {
    s.itemType == ProductItem
  }

  /** The product page lists the catalog's products. */
  function Products(services: seq<Service>): seq<Service> {
    Filter(services, IsProduct)
  }

  function StockOf(p: Service): real {
    p.stock.GetOr(0) as real
  }

  /** `(p.costPrice || 0) * (p.stock || 0)`. */
  function StockCost(p: Service): real {
    p.costPrice.GetOr(0.0) * StockOf(p)
  }

  /** `p.price * (p.stock || 0)`. */
  function StockRevenue(p: Service): real {
    p.price * StockOf(p)
  }

  /** What selling a product's whole stock would earn over its cost. */
  function StockProfit(p: Service): real {
    (p.price - p.costPrice.GetOr(0.0)) * StockOf(p)
  }

  datatype ProductStats = ProductStats(totalStockCost: real, potentialRevenue: real, potentialProfit: real)

  /** `productStats`. */
  function ComputeProductStats(products: seq<Service>): ProductStats {
    var totalStockCost := Sum(products, StockCost);
    var potentialRevenue := Sum(products, StockRevenue);
    ProductStats(totalStockCost, potentialRevenue, potentialRevenue - totalStockCost)
  }

  /** The potential profit is the sum, product by product, of price minus cost times stock. */
  lemma ProfitIsPerProduct(products: seq<Service>)
    ensures ComputeProductStats(products).potentialProfit == Sum(products, StockProfit)
  {
    forall p ensures StockRevenue(p) == StockProfit(p) + StockCost(p) {
      var c := p.costPrice.GetOr(0.0);
      var n := StockOf(p);
      assert (p.price - c) * n + c * n == p.price * n;
    }
    SumAdd(products, StockProfit, StockCost, StockRevenue);
  }
}
