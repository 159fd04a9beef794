/** The favorites store of public/script.js: a set of artwork ids kept in the
    browser's local storage as one JSON array under a fixed key. Reading
    builds a `Set` from the array (first occurrences, in order); toggling
    adds or deletes one id and rewrites the whole array. */
module Favorites {
  import opened Base

  const FAV_KEY := "met_gallery_favorites_v1"

  /** `new Set(list)` listed in iteration order: each id once, at the place
      of its first occurrence. */
  function ToSet(list: seq<int>): (r: seq<int>)
    ensures NoDup(r)
    ensures forall x :: x in r <==> x in list
  {
    if |list| == 0 then []
    else
      var r := ToSet(list[..|list| - 1]);
      var x := list[|list| - 1];
      assert forall y :: y in list <==> y in list[..|list| - 1] || y == x;
      if x in r then r else r + [x]
  }

  /** A list without duplicates reads back as itself, order included. */
  lemma {:induction false} ToSetOfNoDup(list: seq<int>)
    requires NoDup(list)
    ensures ToSet(list) == list
  {
    if |list| > 0 {
      var init := list[..|list| - 1];
      ToSetOfNoDup(init);
      assert list[|list| - 1] !in init;
      assert init + [list[|list| - 1]] == list;
    }
  }

  /** `set.delete(id)`: the others stay, in their order. */
  function Without(favs: seq<int>, id: int): seq<int> {
    Filter(favs, x => x != id)
  }

  /** The set after `toggleFavorite(id)`: deleted when present, otherwise
      added at the end of the iteration order. */
  function Toggled(favs: seq<int>, id: int): seq<int> {
    if id in favs then Without(favs, id) else favs + [id]
  }

  lemma WithoutMember(favs: seq<int>, id: int, x: int)
    ensures x in Without(favs, id) <==> x in favs && x != id
  {
    FilterMember(favs, y => y != id, x);
  }

  /** Toggling flips the membership of `id`, leaves every other id as it
      was, and keeps the list free of duplicates. */
  lemma ToggleFlips(favs: seq<int>, id: int)
    requires NoDup(favs)
    ensures NoDup(Toggled(favs, id))
    ensures id in Toggled(favs, id) <==> id !in favs
    ensures forall other :: other != id ==> (other in Toggled(favs, id) <==> other in favs)
  {
    forall x {
      WithoutMember(favs, id, x);
    }
    if id in favs {
      FilterNoDup(favs, y => y != id);
    }
  }

  /** Toggling twice restores the set. When the id was absent, even the
      stored order comes back; when it was present it returns at the end. */
  lemma ToggleTwice(favs: seq<int>, id: int)
    requires NoDup(favs)
    ensures forall x :: x in Toggled(Toggled(favs, id), id) <==> x in favs
    ensures id !in favs ==> Toggled(Toggled(favs, id), id) == favs
    ensures id in favs ==> Toggled(Toggled(favs, id), id) == Without(favs, id) + [id]
  {
    ToggleFlips(favs, id);
    ToggleFlips(Toggled(favs, id), id);
    if id !in favs {
      FilterAppend(favs, [id], y => y != id);
      FilterAllKept(favs, y => y != id);
      assert Filter([id], y => y != id) == [];
    } else {
      WithoutMember(favs, id, id);
    }
  }

  /** The value behind the storage key. */
  class FavoritesStore {
    /** The JSON array stored under `FAV_KEY`, or `None` when the key is absent. */
    var stored: Option<seq<int>>

    constructor(initial: Option<seq<int>>)
      ensures stored == initial
    {
      stored := initial;
    }

    /** `getFavorites()`: a missing key reads as the empty set. */
    function Favorites(): (r: seq<int>)
      reads this
      ensures NoDup(r)
      ensures stored.None? ==> r == []
      ensures stored.Some? ==> forall x :: x in r <==> x in stored.value
    {
      ToSet(if stored.Some? then stored.value else [])
    }

    /** `isFavorite(id)`. */
    predicate IsFavorite(id: int)
      reads this
    {
      id in Favorites()
    }

    /** `toggleFavorite(id)`: flips `id` and rewrites the whole list. */
    method Toggle(id: int)
      modifies this
      ensures stored == Some(Toggled(old(Favorites()), id))
      ensures Favorites() == Toggled(old(Favorites()), id)
      ensures IsFavorite(id) <==> !old(IsFavorite(id))
      ensures forall other :: other != id ==> (IsFavorite(other) <==> old(IsFavorite(other)))
    {
      var favorites := Favorites();
      ToggleFlips(favorites, id);
      var updated := Toggled(favorites, id);
      stored := Some(updated);
      ToSetOfNoDup(updated);
    }
  }
}
