/**
 * The id-keyed list edits every admin page performs on the collection it
 * manages: replace the record with an id (`list.map(x => x.id === id ? y : x)`),
 * append a new record (`list.push(y)`), and delete by id
 * (`list.filter(x => x.id !== id)`), with what each does to looking a record
 * up by its id (`list.find(x => x.id === id)`).
 *
 * `idOf` reads a record's id, so one definition serves services, products,
 * packages, barbers and subscribers alike.
 */
module Records {
  import opened Wrappers
  import opened Seqs

  function IdMatches<T>(idOf: T -> string, id: string): T -> bool {
    (x: T) => idOf(x) == id
  }

  function IdDiffers<T>(idOf: T -> string, id: string): T -> bool {
    (x: T) => idOf(x) != id
  }

  /** `list.find(x => x.id === id)`. */
  function Lookup<T(!new)>(s: seq<T>, idOf: T -> string, id: string): Option<T> {
    FirstWhere(s, IdMatches(idOf, id))
  }

  /** `list.map(x => x.id === id ? y : x)`. */
  function Replace<T>(s: seq<T>, idOf: T -> string, id: string, y: T): (r: seq<T>)
    ensures |r| == |s|
    ensures forall i :: 0 <= i < |s| ==> r[i] == if idOf(s[i]) == id then y else s[i]
  {
    ReplaceWhere(s, IdMatches(idOf, id), y)
  }

  /** `list.filter(x => x.id !== id)`. */
  function Remove<T(!new)>(s: seq<T>, idOf: T -> string, id: string): (r: seq<T>)
    ensures forall x :: x in r <==> x in s && idOf(x) != id
  {
    Filter(s, IdDiffers(idOf, id))
  }

  /** Deleting an id no record has changes nothing. */
  lemma RemoveAbsentId<T(!new)>(s: seq<T>, idOf: T -> string, id: string)
    requires forall x :: x in s ==> idOf(x) != id
    ensures Remove(s, idOf, id) == s
  {
    FilterAll(s, IdDiffers(idOf, id));
  }

  /**
   * Deleting works record by record and keeps the survivors in their order
   * and multiplicity: a list's parts are deleted from separately, and a
   * single record stays exactly when its id differs.
   */
  lemma RemoveConcat<T(!new)>(a: seq<T>, b: seq<T>, idOf: T -> string, id: string)
    ensures Remove(a + b, idOf, id) == Remove(a, idOf, id) + Remove(b, idOf, id)
    ensures forall x :: Remove([x], idOf, id) == if idOf(x) != id then [x] else []
  {
    FilterConcat(a, b, IdDiffers(idOf, id));
    forall x ensures Remove([x], idOf, id) == if idOf(x) != id then [x] else [] {
      assert [x][1..] == [];
    }
  }

  /**
   * Replacing the record with `y`'s id by `y`: looking that id up now gives
   * `y` (when a record had it), and every other id finds what it found before.
   */
  lemma {:induction false} LookupAfterReplace<T(!new)>(s: seq<T>, idOf: T -> string, y: T, other: string)
    ensures Lookup(Replace(s, idOf, idOf(y), y), idOf, idOf(y)) == if Lookup(s, idOf, idOf(y)).Some? then Some(y) else None
    ensures other != idOf(y) ==> Lookup(Replace(s, idOf, idOf(y), y), idOf, other) == Lookup(s, idOf, other)
  {
    if s != [] {
      var r := Replace(s, idOf, idOf(y), y);
      LookupAfterReplace(s[1..], idOf, y, other);
      assert r[1..] == Replace(s[1..], idOf, idOf(y), y);
    }
  }

  /** Appending `y`: ids already present find what they found; a new id finds `y` exactly when it is `y`'s. */
  lemma {:induction false} LookupAfterAppend<T(!new)>(s: seq<T>, idOf: T -> string, y: T, id: string)
    ensures Lookup(s + [y], idOf, id) ==
              if Lookup(s, idOf, id).Some? then Lookup(s, idOf, id)
              else if idOf(y) == id then Some(y)
              else None
  {
    if s == [] {
      assert s + [y] == [y];
    } else {
      LookupAfterAppend(s[1..], idOf, y, id);
      assert (s + [y])[1..] == s[1..] + [y];
    }
  }

  /** Deleting an id: it no longer finds anything, and every other id finds what it found before. */
  lemma RemoveLookup<T(!new)>(s: seq<T>, idOf: T -> string, id: string, other: string)
    ensures Lookup(Remove(s, idOf, id), idOf, id) == None
    ensures other != id ==> Lookup(Remove(s, idOf, id), idOf, other) == Lookup(s, idOf, other)
  {
    if other != id && Lookup(s, idOf, other).Some? {
      FirstWhereSurvivesFilter(s, IdDiffers(idOf, id), IdMatches(idOf, other));
    }
  }

  /** Deleting keeps the surviving records in their order: deleting again changes nothing. */
  lemma RemoveTwice<T(!new)>(s: seq<T>, idOf: T -> string, id: string)
    ensures Remove(Remove(s, idOf, id), idOf, id) == Remove(s, idOf, id)
  {
    FilterAll(Remove(s, idOf, id), IdDiffers(idOf, id));
  }
}
