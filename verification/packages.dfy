/**
 * The subscription packages page (pages/admin/Packages.tsx): a package
 * bundles services for a monthly price, a signed-in barber sees the
 * commission a subscription would earn them, and the admin edits the list.
 */
module Packages {
  import opened Wrappers
  import opened Types
  import opened Records
  import opened Storage
  import Dashboard

  /** `commissionRates?.subscription || 0`: the barber's subscription rate. */
  function SubscriptionRate(barber: Barber): (rate: real)
    ensures barber.commissionRates.Some? ==> rate == barber.commissionRates.value.subscription
    ensures barber.commissionRates.None? ==> rate == 0.0
  {
    if barber.commissionRates.Some? then barber.commissionRates.value.subscription else 0.0
  }

  /** `calculateCommission`: nothing without a signed-in barber, else the price at the subscription rate. */
  function PackageCommission(price: real, currentUser: Option<Barber>): (commission: real)
    ensures currentUser.None? ==> commission == 0.0
    ensures currentUser.Some? ==> commission == Dashboard.Percent(price, SubscriptionRate(currentUser.value))
  {
    if currentUser.None? then 0.0 else Dashboard.Percent(price, SubscriptionRate(currentUser.value))
  }

  datatype PackageForm = PackageForm(name: string, description: string, price: real, monthlyLimit: int,
                                     serviceIds: seq<string>)

  /** The package `handleSavePackage` builds: exactly the form's fields and ticked services. */
  function PackageFromForm(form: PackageForm, id: string): (p: Package)
    ensures p.id == id && p.name == form.name && p.description == form.description
    ensures p.price == form.price && p.monthlyLimit == form.monthlyLimit && p.serviceIds == form.serviceIds
  {
    Package(id, form.name, form.description, form.price, form.monthlyLimit, form.serviceIds)
  }

  /**
   * `handleSavePackage`: the edited package is replaced where it stands, a
   * new one is appended, and looking up any other id finds what it found
   * before.
   */
  method HandleSavePackage(store: Store, editing: Option<Package>, form: PackageForm, newId: string)
    modifies store`packages
    ensures var pkg := PackageFromForm(form, if editing.Some? then editing.value.id else newId);
            && (editing.Some? ==> store.packages == Replace(old(store.packages), PackageId, pkg.id, pkg))
            && (editing.None? ==> store.packages == old(store.packages) + [pkg])
            && (editing.Some? && Lookup(old(store.packages), PackageId, pkg.id).Some? ==>
                  Lookup(store.packages, PackageId, pkg.id) == Some(pkg))
            && (editing.None? && Lookup(old(store.packages), PackageId, pkg.id).None? ==>
                  Lookup(store.packages, PackageId, pkg.id) == Some(pkg))
            && (forall other :: other != pkg.id ==>
                  Lookup(store.packages, PackageId, other) == Lookup(old(store.packages), PackageId, other))
  {
    var newPkg := PackageFromForm(form, if editing.Some? then editing.value.id else newId);
    var packages := store.packages;
    if editing.Some? {
      store.packages := Replace(packages, PackageId, newPkg.id, newPkg);
      forall other | true
        ensures other != newPkg.id ==> Lookup(store.packages, PackageId, other) == Lookup(packages, PackageId, other)
      {
        LookupAfterReplace(packages, PackageId, newPkg, other);
      }
      LookupAfterReplace(packages, PackageId, newPkg, newPkg.id);
    } else {
      store.packages := packages + [newPkg];
      forall other | true
        ensures other != newPkg.id ==> Lookup(store.packages, PackageId, other) == Lookup(packages, PackageId, other)
      {
        LookupAfterAppend(packages, PackageId, newPkg, other);
      }
      LookupAfterAppend(packages, PackageId, newPkg, newPkg.id);
    }
  }

  /** `handleDeletePackage`: once confirmed, the package with the id is gone and the others stay. */
  method HandleDeletePackage(store: Store, id: string, confirmed: bool)
    modifies store`packages
    ensures confirmed ==> store.packages == Remove(old(store.packages), PackageId, id)
    ensures confirmed ==> Lookup(store.packages, PackageId, id).None?
    ensures confirmed ==> forall other :: other != id ==>
              Lookup(store.packages, PackageId, other) == Lookup(old(store.packages), PackageId, other)
    ensures !confirmed ==> store.packages == old(store.packages)
  {
    if confirmed {
      var packages := store.packages;
      store.packages := Remove(packages, PackageId, id);
      forall other | true
        ensures other != id ==> Lookup(store.packages, PackageId, other) == Lookup(packages, PackageId, other)
      {
        RemoveLookup(packages, PackageId, id, other);
      }
      RemoveLookup(packages, PackageId, id, id);
    }
  }
}
