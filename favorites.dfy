/**
 * The favourites list of src/components/VehicleSearch.jsx: toggling a
 * vehicle id, and the copy of the list kept in local storage.
 */
module Favorites {

  const FavoritesKey := "whipsly-favorites"

  /** `favorites.filter(id => id !== vehicleId)`. */
  function RemoveAll(favorites: seq<int>, vehicleId: int): (r: seq<int>)
    ensures |r| <= |favorites|
  {
    if favorites == [] then []
    else
      var n := |favorites| - 1;
      RemoveAll(favorites[..n], vehicleId) + (if favorites[n] == vehicleId then [] else [favorites[n]])
  }

  /** The new list of `toggleFavorite(vehicleId)`. */
  function Toggled(favorites: seq<int>, vehicleId: int): seq<int> {
    if vehicleId in favorites then RemoveAll(favorites, vehicleId) else favorites + [vehicleId]
  }

  // ---------------------------------------------------------------------
  // The filter

  /** The filter works entry by entry: it distributes over concatenation. */
  lemma {:induction false} RemoveAllAppend(a: seq<int>, b: seq<int>, vehicleId: int)
    ensures RemoveAll(a + b, vehicleId) == RemoveAll(a, vehicleId) + RemoveAll(b, vehicleId)
    decreases |b|
  {
    if b == [] {
      assert a + b == a;
    } else {
      var n := |b| - 1;
      RemoveAllAppend(a, b[..n], vehicleId);
      var ab := a + b;
      assert ab[..|ab| - 1] == a + b[..n];
      assert ab[|ab| - 1] == b[n];
      var tail := if b[n] == vehicleId then [] else [b[n]];
      assert RemoveAll(ab, vehicleId) == RemoveAll(a + b[..n], vehicleId) + tail;
      assert RemoveAll(b, vehicleId) == RemoveAll(b[..n], vehicleId) + tail;
    }
  }

  /** Every copy of the id goes and every other entry keeps its count. */
  lemma {:induction false} RemoveAllCounts(favorites: seq<int>, vehicleId: int)
    ensures multiset(RemoveAll(favorites, vehicleId)) == multiset(favorites)[vehicleId := 0]
  {
    if favorites != [] {
      var n := |favorites| - 1;
      RemoveAllCounts(favorites[..n], vehicleId);
      assert favorites == favorites[..n] + [favorites[n]];
    }
  }

  /** A list without the id passes the filter unchanged. */
  lemma {:induction false} RemoveAllAbsent(favorites: seq<int>, vehicleId: int)
    requires vehicleId !in favorites
    ensures RemoveAll(favorites, vehicleId) == favorites
  {
    if favorites != [] {
      var n := |favorites| - 1;
      assert vehicleId !in favorites[..n];
      RemoveAllAbsent(favorites[..n], vehicleId);
      assert favorites == favorites[..n] + [favorites[n]];
    }
  }

  // ---------------------------------------------------------------------
  // Toggling

  /** An absent id is appended at the end, the other entries untouched. */
  lemma ToggleAbsent(favorites: seq<int>, vehicleId: int)
    requires vehicleId !in favorites
    ensures var r := Toggled(favorites, vehicleId);
      |r| == |favorites| + 1 && r[..|favorites|] == favorites && r[|favorites|] == vehicleId
  {
    var r := Toggled(favorites, vehicleId);
    assert r[..|favorites|] == favorites;
  }

  /** A present id loses every copy; the other entries keep their counts
      (and, by `RemoveAllAppend`, their order). */
  lemma TogglePresent(favorites: seq<int>, vehicleId: int)
    requires vehicleId in favorites
    ensures vehicleId !in Toggled(favorites, vehicleId)
    ensures forall x :: x != vehicleId ==>
      multiset(Toggled(favorites, vehicleId))[x] == multiset(favorites)[x]
  {
    RemoveAllCounts(favorites, vehicleId);
    assert multiset(Toggled(favorites, vehicleId))[vehicleId] == 0;
  }

  /** Toggling an absent id twice gives the list back. */
  lemma ToggleTwiceAbsent(favorites: seq<int>, vehicleId: int)
    requires vehicleId !in favorites
    ensures Toggled(Toggled(favorites, vehicleId), vehicleId) == favorites
  {
    var once := favorites + [vehicleId];
    assert vehicleId in once;
    RemoveAllAppend(favorites, [vehicleId], vehicleId);
    RemoveAllAbsent(favorites, vehicleId);
    assert RemoveAll([vehicleId], vehicleId) == [];
  }

  /** Toggling a present id twice leaves a single copy, moved to the end. */
  lemma ToggleTwicePresent(favorites: seq<int>, vehicleId: int)
    requires vehicleId in favorites
    ensures Toggled(Toggled(favorites, vehicleId), vehicleId) == RemoveAll(favorites, vehicleId) + [vehicleId]
  {
    TogglePresent(favorites, vehicleId);
  }

  /** The component's favourites state and the storage it writes. */
  class FavoritesList {
    var favorites: seq<int>
    var storage: map<string, seq<int>>

    /** The mount effect: the stored list, `[]` when there is none. */
    constructor (storage: map<string, seq<int>>)
      ensures this.storage == storage
      ensures favorites == if FavoritesKey in storage then storage[FavoritesKey] else []
    {
      this.storage := storage;
      favorites := if FavoritesKey in storage then storage[FavoritesKey] else [];
    }

    /** `toggleFavorite(vehicleId)`: the new list becomes the state and is
        written to storage. */
    method ToggleFavorite(vehicleId: int)
      modifies this
      ensures favorites == Toggled(old(favorites), vehicleId)
      ensures storage == old(storage)[FavoritesKey := favorites]
    {
      var newFavorites := if vehicleId in favorites then RemoveAll(favorites, vehicleId)
                          else favorites + [vehicleId];
      favorites := newFavorites;
      storage := storage[FavoritesKey := newFavorites];
    }
  }
}
