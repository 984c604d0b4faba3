/** useFavoritesStore: the saved location ids, in the order they were added. */
module Favorites {
  import opened Seqs

  /** `favorites.filter(id => id !== locationId)`: every occurrence of `id` removed,
      everything else kept with its multiplicity. */
  function Without(s: seq<string>, id: string): (r: seq<string>)
    ensures id !in r
    ensures multiset(r) == multiset(s)[id := 0]
  {
    WithoutCounts(s, id);
    Filter(s, (x: string) => x != id)
  }

  lemma {:induction false} WithoutCounts(s: seq<string>, id: string)
    ensures multiset(Filter(s, (x: string) => x != id)) == multiset(s)[id := 0]
  {
    if |s| > 0 {
      WithoutCounts(s[1..], id);
      assert s == [s[0]] + s[1..];
    }
  }

  /** Removing distributes over concatenation, so the kept ids stay in order. */
  lemma WithoutKeepsOrder(a: seq<string>, b: seq<string>, id: string)
    ensures Without(a + b, id) == Without(a, id) + Without(b, id)
  {
    FilterAppend(a, b, (x: string) => x != id);
  }

  /** Removing an id that is not there changes nothing. */
  lemma WithoutAbsent(s: seq<string>, id: string)
    requires id !in s
    ensures Without(s, id) == s
  {
    FilterAll(s, (x: string) => x != id);
  }

  /** The list after toggleFavorite(id): the id removed if it was present, else appended. */
  function Toggled(s: seq<string>, id: string): (r: seq<string>)
    ensures id !in s ==> r == s + [id]
    ensures id in s ==> id !in r && multiset(r) == multiset(s)[id := 0]
  {
    if id in s then Without(s, id) else s + [id]
  }

  /** Toggling flips the membership of `id` and of no other id. */
  lemma ToggleFlips(s: seq<string>, id: string, other: string)
    ensures id in Toggled(s, id) <==> id !in s
    ensures other != id ==> (other in Toggled(s, id) <==> other in s)
  {
    if id in s && other != id {
      assert other in s <==> multiset(s)[other] > 0;
      assert other in Without(s, id) <==> multiset(Without(s, id))[other] > 0;
    }
  }

  /** On an absent id, toggling appends it and keeps the rest as it was. */
  lemma ToggleAbsentAppends(s: seq<string>, id: string)
    requires id !in s
    ensures Toggled(s, id) == s + [id]
  {
  }

  /** On a present id, toggling removes every occurrence of it and keeps the
      other ids, each as often as before and in their old order. */
  lemma TogglePresentRemoves(s: seq<string>, id: string)
    requires id in s
    ensures Toggled(s, id) == Without(s, id)
    ensures id !in Toggled(s, id)
    ensures multiset(Toggled(s, id)) == multiset(s)[id := 0]
    ensures |Toggled(s, id)| < |s|
  {
    assert multiset(s)[id] > 0;
    assert |multiset(Without(s, id))| < |multiset(s)|;
  }

  /** Toggling twice, starting from an absent id, restores the list exactly. */
  lemma {:induction false} ToggleTwiceRestores(s: seq<string>, id: string)
    requires id !in s
    ensures Toggled(Toggled(s, id), id) == s
  {
    assert Toggled(s, id) == s + [id];
    assert id in s + [id];
    WithoutKeepsOrder(s, [id], id);
    WithoutAbsent(s, id);
    assert Without([id], id) == [];
  }

  predicate NoDuplicates(s: seq<string>)
  {
    forall i, j :: 0 <= i < j < |s| ==> s[i] != s[j]
  }

  lemma {:induction false} WithoutNoDuplicates(s: seq<string>, id: string)
    requires NoDuplicates(s)
    ensures NoDuplicates(Without(s, id))
  {
    if |s| > 0 {
      var t := s[1..];
      assert NoDuplicates(t) by {
        forall i, j | 0 <= i < j < |t| ensures t[i] != t[j] {
          assert t[i] == s[i + 1] && t[j] == s[j + 1];
        }
      }
      WithoutNoDuplicates(t, id);
      assert s[0] !in t by {
        forall k | 0 <= k < |t| ensures t[k] != s[0] {
          assert t[k] == s[k + 1];
        }
      }
      assert s[0] !in Without(t, id) by {
        assert multiset(t)[s[0]] == 0;
        assert multiset(Without(t, id))[s[0]] == 0;
      }
      assert Without(s, id) == if s[0] != id then [s[0]] + Without(t, id) else Without(t, id);
    }
  }

  /** Toggling keeps a duplicate-free list duplicate-free. */
  lemma ToggleKeepsNoDuplicates(s: seq<string>, id: string)
    requires NoDuplicates(s)
    ensures NoDuplicates(Toggled(s, id))
  {
    if id in s {
      WithoutNoDuplicates(s, id);
    }
  }

  /** addFavorite alone does not: adding an id that is already saved repeats it. */
  lemma AddCanDuplicate(s: seq<string>, id: string)
    requires id in s
    ensures !NoDuplicates(s + [id])
  {
    var k :| 0 <= k < |s| && s[k] == id;
    assert (s + [id])[k] == (s + [id])[|s|];
  }

  class FavoritesStore {
    var favorites: seq<string>

    constructor ()
      ensures favorites == []
    {
      favorites := [];
    }

    /** addFavorite(locationId): appended unconditionally. */
    method AddFavorite(id: string)
      modifies this
      ensures favorites == old(favorites) + [id]
    {
      favorites := favorites + [id];
    }

    /** removeFavorite(locationId). */
    method RemoveFavorite(id: string)
      modifies this
      ensures favorites == Without(old(favorites), id)
    {
      favorites := Without(favorites, id);
    }

    /** isFavorite(locationId). */
    function IsFavorite(id: string): (r: bool)
      reads this
      ensures r <==> exists i :: 0 <= i < |favorites| && favorites[i] == id
    {
      id in favorites
    }

    /** toggleFavorite(locationId): reads the list, then removes or adds. */
    method ToggleFavorite(id: string)
      modifies this
      ensures favorites == Toggled(old(favorites), id)
      ensures IsFavorite(id) <==> !old(IsFavorite(id))
      ensures forall other :: other != id ==> (IsFavorite(other) <==> old(IsFavorite(other)))
      ensures NoDuplicates(old(favorites)) ==> NoDuplicates(favorites)
    {
      ghost var before := favorites;
      if id in favorites {
        RemoveFavorite(id);
      } else {
        AddFavorite(id);
      }
      forall other | other != id
        ensures other in favorites <==> other in before
      {
        ToggleFlips(before, id, other);
      }
      ToggleFlips(before, id, id);
      if NoDuplicates(before) {
        ToggleKeepsNoDuplicates(before, id);
      }
    }

    /** clearFavorites(). */
    method ClearFavorites()
      modifies this
      ensures favorites == []
    {
      favorites := [];
    }
  }

  /** Toggling an unsaved id twice leaves the store as it was. */
  method ToggleTwice(store: FavoritesStore, id: string)
    requires !store.IsFavorite(id)
    modifies store
    ensures store.favorites == old(store.favorites)
  {
    store.ToggleFavorite(id);
    store.ToggleFavorite(id);
    ToggleTwiceRestores(old(store.favorites), id);
  }
}
