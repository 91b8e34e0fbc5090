/** The favourites store (src/contexts/FavoritesContext.tsx): the `favorites`
    state array of (accommodation, user) entries. The current user, which the
    source reads from local storage on every call, is a parameter; a missing or
    empty user id (`!currentUser.id`) is None or Some(""). */
module FavoritesContext {
  import opened Wrappers
  import opened Seqs

  /** The accommodation fields a caller passes (`Omit<Favorite, 'userId'>`). */
  datatype Accommodation = Accommodation(id: string, name: string, location: string,
                                         price: real, rating: real, image: string)

  datatype Favorite = Favorite(item: Accommodation, userId: string)

  /** `currentUser.id` is truthy. */
  predicate SignedIn(user: Option<string>) {
    user.Some? && user.value != ""
  }

  predicate IsEntry(f: Favorite, id: string, userId: string) {
    f.item.id == id && f.userId == userId
  }

  /** No (accommodation, user) pair is stored twice. */
  predicate NoDuplicatePairs(favs: seq<Favorite>) {
    forall i, j :: 0 <= i < j < |favs| ==> !IsEntry(favs[j], favs[i].item.id, favs[i].userId)
  }

  /** isFavorite: the current user has an entry for this accommodation. */
  function IsFavorite(favs: seq<Favorite>, id: string, user: Option<string>): (b: bool)
    ensures b <==> SignedIn(user) && exists i :: 0 <= i < |favs| && IsEntry(favs[i], id, user.value)
  {
    SignedIn(user) && exists i :: 0 <= i < |favs| && IsEntry(favs[i], id, user.value)
  }

  /** The state update of addToFavorites: append unless the pair is already stored. */
  function WithFavorite(favs: seq<Favorite>, a: Accommodation, user: Option<string>): (r: seq<Favorite>)
    ensures !SignedIn(user) || IsFavorite(favs, a.id, user) ==> r == favs
    ensures SignedIn(user) && !IsFavorite(favs, a.id, user) ==> r == favs + [Favorite(a, user.value)]
  {
    if !SignedIn(user) then favs
    else if exists i :: 0 <= i < |favs| && IsEntry(favs[i], a.id, user.value) then favs
    else favs + [Favorite(a, user.value)]
  }

  predicate NotEntry(id: string, user: string, f: Favorite) {
    !IsEntry(f, id, user)
  }

  /** The state update of removeFromFavorites: drop the current user's entries for this id. */
  function WithoutFavorite(favs: seq<Favorite>, id: string, user: Option<string>): (r: seq<Favorite>)
    ensures !SignedIn(user) ==> r == favs
    ensures SignedIn(user) ==> IsSubsequence(r, favs)
    ensures SignedIn(user) ==> forall k :: 0 <= k < |favs| ==> (favs[k] in r <==> !IsEntry(favs[k], id, user.value))
    ensures SignedIn(user) ==> forall k :: 0 <= k < |r| ==> !IsEntry(r[k], id, user.value)
  {
    if !SignedIn(user) then favs
    else
      FilterIsSubsequence(favs, (f: Favorite) => NotEntry(id, user.value, f));
      Filter(favs, (f: Favorite) => NotEntry(id, user.value, f))
  }

  /** getUserFavorites: this user's entries, in stored order. */
  function GetUserFavorites(favs: seq<Favorite>, userId: string): (r: seq<Favorite>)
    ensures IsSubsequence(r, favs)
    ensures forall k :: 0 <= k < |r| ==> r[k].userId == userId
    ensures forall k :: 0 <= k < |favs| && favs[k].userId == userId ==> favs[k] in r
  {
    FilterIsSubsequence(favs, (f: Favorite) => f.userId == userId);
    Filter(favs, (f: Favorite) => f.userId == userId)
  }

  /** After adding, the accommodation is a favourite of the signed-in user. */
  lemma AddedIsFavorite(favs: seq<Favorite>, a: Accommodation, user: Option<string>)
    requires SignedIn(user)
    ensures IsFavorite(WithFavorite(favs, a, user), a.id, user)
  {
    if !IsFavorite(favs, a.id, user) {
      assert IsEntry(WithFavorite(favs, a, user)[|favs|], a.id, user.value);
    }
  }

  /** Adding never stores a pair twice. */
  lemma {:induction false} AddKeepsPairsUnique(favs: seq<Favorite>, a: Accommodation, user: Option<string>)
    requires NoDuplicatePairs(favs)
    ensures NoDuplicatePairs(WithFavorite(favs, a, user))
  {
    var r := WithFavorite(favs, a, user);
    if SignedIn(user) && !IsFavorite(favs, a.id, user) {
      forall i, j | 0 <= i < j < |r|
        ensures !IsEntry(r[j], r[i].item.id, r[i].userId)
      {
        if j == |favs| {
          assert !IsEntry(favs[i], a.id, user.value);
        }
      }
    }
  }

  lemma {:induction false} TailKeepsPairsUnique(favs: seq<Favorite>)
    requires favs != [] && NoDuplicatePairs(favs)
    ensures NoDuplicatePairs(favs[1..])
    ensures forall k :: 1 <= k < |favs| ==> !IsEntry(favs[k], favs[0].item.id, favs[0].userId)
  {
    var tail := favs[1..];
    forall i, j | 0 <= i < j < |tail|
      ensures !IsEntry(tail[j], tail[i].item.id, tail[i].userId)
    {
      assert tail[i] == favs[i + 1] && tail[j] == favs[j + 1];
    }
  }

  /** A unique list stays unique with an entry in front whose pair none of its elements has. */
  lemma {:induction false} ConsKeepsPairsUnique(x: Favorite, rest: seq<Favorite>)
    requires NoDuplicatePairs(rest)
    requires forall k :: 0 <= k < |rest| ==> !IsEntry(rest[k], x.item.id, x.userId)
    ensures NoDuplicatePairs([x] + rest)
  {
    var r := [x] + rest;
    forall i, j | 0 <= i < j < |r|
      ensures !IsEntry(r[j], r[i].item.id, r[i].userId)
    {
      assert r[j] == rest[j - 1];
      if i > 0 {
        assert r[i] == rest[i - 1];
      }
    }
  }

  /** Filtering keeps pairs unique. */
  lemma {:induction false} FilterKeepsPairsUnique(favs: seq<Favorite>, p: Favorite -> bool)
    requires NoDuplicatePairs(favs)
    ensures NoDuplicatePairs(Filter(favs, p))
  {
    if favs != [] {
      var tail := favs[1..];
      TailKeepsPairsUnique(favs);
      FilterKeepsPairsUnique(tail, p);
      if p(favs[0]) {
        var rest := Filter(tail, p);
        forall k | 0 <= k < |rest|
          ensures !IsEntry(rest[k], favs[0].item.id, favs[0].userId)
        {
          var m :| 0 <= m < |tail| && tail[m] == rest[k];
          assert favs[m + 1] == rest[k];
        }
        ConsKeepsPairsUnique(favs[0], rest);
      }
    }
  }

  /** Removing keeps pairs unique. */
  lemma RemoveKeepsPairsUnique(favs: seq<Favorite>, id: string, user: Option<string>)
    requires NoDuplicatePairs(favs)
    ensures NoDuplicatePairs(WithoutFavorite(favs, id, user))
  {
    if SignedIn(user) {
      FilterKeepsPairsUnique(favs, (f: Favorite) => NotEntry(id, user.value, f));
    }
  }

  /** After removing, the accommodation is no longer the user's favourite. */
  lemma RemovedIsNotFavorite(favs: seq<Favorite>, id: string, user: Option<string>)
    ensures !IsFavorite(WithoutFavorite(favs, id, user), id, user) || !SignedIn(user)
  {
  }

  /** Adding an accommodation the user already has leaves the list unchanged. */
  lemma AddingTwiceIsAddingOnce(favs: seq<Favorite>, a: Accommodation, user: Option<string>)
    ensures WithFavorite(WithFavorite(favs, a, user), a, user) == WithFavorite(favs, a, user)
  {
    if SignedIn(user) {
      AddedIsFavorite(favs, a, user);
    }
  }

  class FavoritesStore {
    var favorites: seq<Favorite>

    ghost predicate Valid()
      reads this
    {
      NoDuplicatePairs(favorites)
    }

    constructor ()
      ensures Valid() && favorites == []
    {
      favorites := [];
    }

    method AddToFavorites(a: Accommodation, currentUser: Option<string>)
      requires Valid()
      modifies this
      ensures Valid()
      ensures favorites == WithFavorite(old(favorites), a, currentUser)
    {
      AddKeepsPairsUnique(favorites, a, currentUser);
      if !SignedIn(currentUser) {
        return;
      }
      var present := exists i :: 0 <= i < |favorites| && IsEntry(favorites[i], a.id, currentUser.value);
      if !present {
        favorites := favorites + [Favorite(a, currentUser.value)];
      }
    }

    method RemoveFromFavorites(id: string, currentUser: Option<string>)
      requires Valid()
      modifies this
      ensures Valid()
      ensures favorites == WithoutFavorite(old(favorites), id, currentUser)
    {
      RemoveKeepsPairsUnique(favorites, id, currentUser);
      if !SignedIn(currentUser) {
        return;
      }
      favorites := Filter(favorites, (f: Favorite) => NotEntry(id, currentUser.value, f));
    }
  }
}
