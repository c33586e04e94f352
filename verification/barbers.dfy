/**
 * The staff page (pages/admin/Barbers.tsx): the admin opens a barber's
 * record in a form (a barber stored without a commission table gets the
 * default one), edits it, and saves it back into the list; a new barber
 * is appended; a barber can be deleted.
 */
module Barbers {
  import opened Wrappers
  import opened Types
  import opened Seqs
  import opened Records
  import opened Storage

  /** 50% on services, 15% on products, 10% on subscriptions. */
  const DefaultRates := CommissionRates(50.0, 15.0, 10.0)

  /**
   * The form's state, a partial barber: a field that is `None` is absent
   * and leaves the stored value alone when merged. The form is opened on a
   * stored barber with its id, and on a new barber without one.
   */
  datatype BarberForm = BarberForm(
    id: Option<string>,
    name: string,
    description: Option<string>,
    photoUrl: string,
    phone: string,
    commissionRates: Option<CommissionRates>,
    active: bool,
    username: Option<string>,
    password: Option<string>)

  /**
   * `handleOpenModal`: a stored barber's fields with the default commission
   * table filled in when it has none, or an empty active barber with the
   * default table and the given placeholder photo.
   */
  function OpenForm(barber: Option<Barber>, placeholderPhoto: string): (form: BarberForm)
    ensures form.commissionRates.Some?
    ensures barber.Some? ==> form.id == Some(barber.value.id) && form.name == barber.value.name
    ensures barber.Some? && barber.value.commissionRates.Some? ==> form.commissionRates == barber.value.commissionRates
    ensures barber.Some? && barber.value.commissionRates.None? ==> form.commissionRates == Some(DefaultRates)
    ensures barber.None? ==> form.id.None? && form.name == "" && form.active && form.commissionRates == Some(DefaultRates)
  {
    match barber
    case Some(b) =>
      var safeRates := b.commissionRates.GetOr(DefaultRates);
      BarberForm(Some(b.id), b.name, b.description, b.photoUrl, b.phone, Some(safeRates), b.active, b.username, b.password)
    case None =>
      BarberForm(None, "", Some(""), placeholderPhoto, "", Some(DefaultRates), true, Some(""), Some(""))
  }

  /** A present form field, or else the stored one. */
  function Or<T>(field: Option<T>, stored: Option<T>): Option<T> {
    if field.Some? then field else stored
  }

  /** `{ ...b, ...formData }`: the form's present fields over the stored barber's. */
  function Merge(b: Barber, form: BarberForm): (r: Barber)
    ensures r.id == form.id.GetOr(b.id) && r.name == form.name && r.active == form.active
    ensures r.commissionRates == Or(form.commissionRates, b.commissionRates)
  {
    Barber(form.id.GetOr(b.id), form.name, Or(form.description, b.description), form.photoUrl, form.phone,
           Or(form.commissionRates, b.commissionRates), form.active, Or(form.username, b.username),
           Or(form.password, b.password))
  }

  /** `{ id: crypto.randomUUID(), ...formData }`. */
  function NewBarber(form: BarberForm, newId: string): (r: Barber)
    ensures r.id == form.id.GetOr(newId) && r.name == form.name && r.active == form.active
    ensures r.commissionRates == form.commissionRates
  {
    Barber(form.id.GetOr(newId), form.name, form.description, form.photoUrl, form.phone, form.commissionRates,
           form.active, form.username, form.password)
  }

  /**
   * Opening a barber and saving the form untouched gives the barber back,
   * except that one stored without a commission table now has the default.
   */
  lemma OpenAndSaveFillsDefaultRates(b: Barber, placeholderPhoto: string)
    ensures Merge(b, OpenForm(Some(b), placeholderPhoto)) ==
            b.(commissionRates := Some(if b.commissionRates.Some? then b.commissionRates.value else DefaultRates))
  {
    var rates := if b.commissionRates.Some? then b.commissionRates.value else DefaultRates;
    var form := OpenForm(Some(b), placeholderPhoto);
    assert form == BarberForm(Some(b.id), b.name, b.description, b.photoUrl, b.phone, Some(rates), b.active,
                              b.username, b.password);
  }

  /** A barber added through an untouched new form is active with the default table under the new id. */
  lemma NewFormDefaults(newId: string, placeholderPhoto: string)
    ensures var r := NewBarber(OpenForm(None, placeholderPhoto), newId);
            r.id == newId && r.active && r.commissionRates == Some(DefaultRates)
  {
  }

  function MergeWith(form: BarberForm): Barber -> Barber {
    (b: Barber) => Merge(b, form)
  }

  /**
   * `handleSave`: nothing happens without a name; an edit merges the form
   * into the barber with the edited id, in place; a new barber is appended.
   */
  method HandleSave(store: Store, editing: Option<Barber>, form: BarberForm, newId: string)
    modifies store`barbers
    ensures form.name == "" ==> store.barbers == old(store.barbers)
    ensures form.name != "" && editing.Some? ==>
              store.barbers == MapWhere(old(store.barbers), IdMatches(BarberId, editing.value.id), MergeWith(form))
    ensures form.name != "" && editing.None? ==> store.barbers == old(store.barbers) + [NewBarber(form, newId)]
  {
    if form.name == "" {
      return;
    }
    var barbers := store.barbers;
    if editing.Some? {
      store.barbers := MapWhere(barbers, IdMatches(BarberId, editing.value.id), MergeWith(form));
    } else {
      store.barbers := barbers + [NewBarber(form, newId)];
    }
  }

  /** A form opened on a barber carries that barber's id into the merge. */
  lemma MergeKeepsId(form: BarberForm, id: string)
    requires form.id == Some(id)
    ensures forall x :: IdMatches(BarberId, id)(x) ==> IdMatches(BarberId, id)(MergeWith(form)(x))
  {
    forall x: Barber | IdMatches(BarberId, id)(x) ensures IdMatches(BarberId, id)(MergeWith(form)(x)) {
      var m := Merge(x, form);
      assert MergeWith(form)(x) == m;
      assert m.id == id;
      assert BarberId(m) == id;
      assert IdMatches(BarberId, id)(m);
    }
  }

  /**
   * Saving a form opened on the edited barber changes only that barber:
   * the barbers with other ids are left as they were and in their order,
   * and the merged record keeps the id.
   */
  lemma EditTouchesOnlyThatBarber(barbers: seq<Barber>, editing: Barber, form: BarberForm)
    requires form.id == Some(editing.id)
    ensures var r := MapWhere(barbers, IdMatches(BarberId, editing.id), MergeWith(form));
            && Filter(r, IdDiffers(BarberId, editing.id)) == Filter(barbers, IdDiffers(BarberId, editing.id))
            && (forall i :: 0 <= i < |r| && barbers[i].id == editing.id ==> r[i].id == editing.id)
  {
    var picked := IdMatches(BarberId, editing.id);
    forall x ensures IdDiffers(BarberId, editing.id)(x) == !picked(x) {
    }
    MergeKeepsId(form, editing.id);
    FilterMapWhere(barbers, picked, IdDiffers(BarberId, editing.id), MergeWith(form));
  }

  /** `handleDelete`: once confirmed, the barbers with the id are gone and the others stay in order. */
  method HandleDelete(store: Store, id: string, confirmed: bool)
    modifies store`barbers
    ensures confirmed ==> store.barbers == Remove(old(store.barbers), BarberId, id)
    ensures confirmed ==> Lookup(store.barbers, BarberId, id).None?
    ensures !confirmed ==> store.barbers == old(store.barbers)
  {
    if confirmed {
      var barbers := store.barbers;
      store.barbers := Remove(barbers, BarberId, id);
      RemoveLookup(barbers, BarberId, id, id);
    }
  }
}
