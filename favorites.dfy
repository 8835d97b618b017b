/**
 * The favourite sounds: a set of sound ids kept in insertion order, as a
 * JavaScript `Set` iterates, with the callbacks told of every change.
 * Persistence is not modelled; every save is taken to succeed.
 */
module Favorites {
  import opened Types
  import opened Seqs
  import opened Listeners

  class FavoritesService {
    /** The ids of `this.favorites`, in the set's iteration order. */
    var favorites: seq<string>
    var listeners: seq<ListenerId>
    /** Every callback invocation so far, oldest first. */
    ghost var deliveries: seq<Delivery<seq<string>>>

    ghost predicate Valid()
      reads this
    {
      Distinct(favorites)
    }

    /** A fresh service: no favourites and no callbacks. */
    constructor ()
      ensures Valid()
      ensures favorites == [] && listeners == [] && deliveries == []
    {
      favorites := [];
      listeners := [];
      deliveries := [];
    }

    /** `getFavorites()`: a copy of the set. */
    function GetFavorites(): set<string>
      reads this
    {
      Elements(favorites)
    }

    /** `getFavoritesArray()`: the ids in iteration order. */
    function GetFavoritesArray(): (r: seq<string>)
      reads this
      requires Valid()
      ensures Distinct(r) && Elements(r) == GetFavorites()
    {
      favorites
    }

    /** `getFavoritesCount()`: the size of the set, which is the length of the array. */
    function GetFavoritesCount(): (n: nat)
      reads this
      requires Valid()
      ensures n == |GetFavorites()| && n == |GetFavoritesArray()|
    {
      DistinctCard(favorites);
      |favorites|
    }

    /** `isFavorite(id)`: membership in the set. */
    function IsFavorite(id: string): bool
      reads this
    {
      id in favorites
    }

    /** `addFavorite(id)`: adds the id (nothing changes if present), then notifies. */
    method AddFavorite(id: string)
      requires Valid()
      modifies this
      ensures Valid()
      ensures favorites == SetAdd(old(favorites), id)
      ensures GetFavorites() == old(GetFavorites()) + {id} && IsFavorite(id)
      ensures old(IsFavorite(id)) ==> favorites == old(favorites)
      ensures listeners == old(listeners)
      ensures deliveries == old(deliveries) + Broadcast(listeners, favorites)
    {
      favorites := SetAdd(favorites, id);
      NotifyListeners();
    }

    /** `removeFavorite(id)`: deletes the id (nothing changes if absent), then notifies. */
    method RemoveFavorite(id: string)
      requires Valid()
      modifies this
      ensures Valid()
      ensures favorites == SetDelete(old(favorites), id)
      ensures GetFavorites() == old(GetFavorites()) - {id} && !IsFavorite(id)
      ensures !old(IsFavorite(id)) ==> GetFavorites() == old(GetFavorites())
      ensures listeners == old(listeners)
      ensures deliveries == old(deliveries) + Broadcast(listeners, favorites)
    {
      favorites := SetDelete(favorites, id);
      NotifyListeners();
    }

    /** `toggleFavorite(id)`: flips membership and returns the new membership. */
    method ToggleFavorite(id: string) returns (isNowFavorite: bool)
      requires Valid()
      modifies this
      ensures Valid()
      ensures isNowFavorite == !old(IsFavorite(id)) && isNowFavorite == IsFavorite(id)
      ensures GetFavorites() == if isNowFavorite then old(GetFavorites()) + {id} else old(GetFavorites()) - {id}
      ensures listeners == old(listeners)
      ensures deliveries == old(deliveries) + Broadcast(listeners, favorites)
    {
      if id in favorites {
        RemoveFavorite(id);
        isNowFavorite := false;
      } else {
        AddFavorite(id);
        isNowFavorite := true;
      }
    }

    /** `clearFavorites()`: empties the set, then notifies. */
    method ClearFavorites()
      requires Valid()
      modifies this
      ensures Valid()
      ensures favorites == [] && GetFavorites() == {} && GetFavoritesCount() == 0
      ensures listeners == old(listeners)
      ensures deliveries == old(deliveries) + Broadcast(listeners, [])
    {
      favorites := [];
      NotifyListeners();
    }

    /** `addListener(l)`: registers `l` and calls it at once with the current set. */
    method AddListener(l: ListenerId)
      modifies this`listeners, this`deliveries
      ensures listeners == old(listeners) + [l]
      ensures deliveries == old(deliveries) + [Delivery(l, favorites)]
    {
      listeners := listeners + [l];
      deliveries := deliveries + [Delivery(l, favorites)];
    }

    /** `removeListener(l)`: drops the first registration of `l`, if there is one. */
    method RemoveListener(l: ListenerId)
      modifies this`listeners
      ensures listeners == RemoveFirst(old(listeners), l)
    {
      listeners := RemoveFirst(listeners, l);
    }

    /** `notifyListeners()`: every callback receives a copy of the set. */
    method NotifyListeners()
      modifies this`deliveries
      ensures deliveries == old(deliveries) + Broadcast(listeners, favorites)
    {
      deliveries := deliveries + Broadcast(listeners, favorites);
    }
  }

  /**
   * Toggling an id that is not a favourite twice restores the array exactly,
   * order included.
   */
  lemma {:induction false} ToggleTwiceRestores(s: seq<string>, id: string)
    requires id !in s
    ensures SetDelete(SetAdd(s, id), id) == s
  {
    if s != [] {
      ToggleTwiceRestores(s[1..], id);
      assert (s + [id])[1..] == s[1..] + [id];
    }
  }

  /**
   * Toggling a favourite twice restores the set, but the id moves to the
   * back of the iteration order.
   */
  lemma ToggleTwiceReorders(s: seq<string>, id: string)
    requires id in s
    ensures Elements(SetAdd(SetDelete(s, id), id)) == Elements(s)
    ensures SetAdd(SetDelete(s, id), id) == SetDelete(s, id) + [id]
  {
  }
}
