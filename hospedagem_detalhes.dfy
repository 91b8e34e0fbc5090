/** The accommodation page (src/pages/HospedagemDetalhes.tsx): the photo
    carousel, the guest and night steppers, the price box, and the favourite and
    booking buttons. The page shows one fixed accommodation (id 1, three photos,
    up to 6 guests, R$ 320 a night). `isAuthenticated` (AuthContext) and the
    favourites' current user (local storage) are parameters. */
module HospedagemDetalhes {
  import opened Wrappers
  import opened FavoritesContext

  const ImageCount: int := 3
  const MaxGuests: int := 6
  const Price: int := 320
  /** The fixed "Taxa de serviço" line of the price box. */
  const ServiceFee: int := 50

  /** The favourite entry the page stores (`addToFavorites({...})`). */
  const Item: Accommodation := Accommodation("1", "Chalé das Montanhas", "Serra da Mantiqueira", 320.0, 4.9, "accommodation-1.jpg")

  // ---- Carousel ----

  /** nextImage: one forward, wrapping from the last photo to the first. */
  function NextIndex(prev: int, n: int): (i: int)
    ensures 0 <= prev < n ==> 0 <= i < n
    ensures 0 <= prev < n - 1 ==> i == prev + 1
  {
    if prev == n - 1 then 0 else prev + 1
  }

  /** prevImage: one back, wrapping from the first photo to the last. */
  function PrevIndex(prev: int, n: int): (i: int)
    ensures 0 <= prev < n ==> 0 <= i < n
    ensures 0 < prev < n ==> i == prev - 1
  {
    if prev == 0 then n - 1 else prev - 1
  }

  /** Back undoes forward and forward undoes back. */
  lemma PrevUndoesNext(i: int, n: int)
    requires 0 <= i < n
    ensures PrevIndex(NextIndex(i, n), n) == i
    ensures NextIndex(PrevIndex(i, n), n) == i
  {
  }

  /** `k` presses of the forward arrow. */
  function NextTimes(i: int, k: nat, n: int): int
  {
    if k == 0 then i else NextIndex(NextTimes(i, k - 1, n), n)
  }

  /** Before the last photo is passed, `k` presses move `k` photos on. */
  lemma {:induction false} NextTimesWithinRange(i: int, k: nat, n: int)
    requires 0 <= i && i + k < n
    ensures NextTimes(i, k, n) == i + k
  {
    if k > 0 {
      NextTimesWithinRange(i, k - 1, n);
    }
  }

  lemma {:induction false} NextTimesAdd(i: int, a: nat, b: nat, n: int)
    ensures NextTimes(i, a + b, n) == NextTimes(NextTimes(i, a, n), b, n)
  {
    if b > 0 {
      NextTimesAdd(i, a, b - 1, n);
    }
  }

  /** As many forward presses as there are photos come back to the starting photo. */
  lemma FullTurnReturns(i: int, n: int)
    requires 0 <= i < n
    ensures NextTimes(i, n, n) == i
  {
    NextTimesWithinRange(i, n - i - 1, n);
    assert NextTimes(i, n - i, n) == 0;
    NextTimesAdd(i, n - i, i, n);
    if i > 0 {
      NextTimesWithinRange(0, i, n);
    }
  }

  // ---- Steppers and price ----

  /** The "-" buttons of both steppers: `Math.max(1, guests - 1)` and `Math.max(1, nights - 1)`. */
  function OneLess(n: int): (r: int)
    ensures r >= 1
    ensures n > 1 ==> r == n - 1
    ensures n <= 1 ==> r == 1
  {
    if n - 1 < 1 then 1 else n - 1
  }

  /** The guests "+" button: `Math.min(maxGuests, guests + 1)`. */
  function MoreGuests(g: int, maxGuests: int): (r: int)
    ensures r <= maxGuests
    ensures g < maxGuests ==> r == g + 1
  {
    if g + 1 < maxGuests then g + 1 else maxGuests
  }

  /** totalPrice + 50, the "Total" line. */
  function DisplayedTotal(nights: int): (t: int)
    ensures nights >= 1 ==> t >= Price + ServiceFee
  {
    Price * nights + ServiceFee
  }

  /** One more night adds one nightly price to the total. */
  lemma ExtraNightCostsOnePrice(nights: int)
    ensures DisplayedTotal(nights + 1) == DisplayedTotal(nights) + Price
  {
  }

  // ---- Favourite ----

  /** What handleFavorite does to the favourites of a signed-in page: remove when already
      a favourite, add otherwise. */
  function FavoriteUpdate(favs: seq<Favorite>, user: Option<string>): (r: seq<Favorite>)
    ensures IsFavorite(favs, Item.id, user) ==> r == WithoutFavorite(favs, Item.id, user)
    ensures !IsFavorite(favs, Item.id, user) ==> r == WithFavorite(favs, Item, user)
  {
    if IsFavorite(favs, Item.id, user) then WithoutFavorite(favs, Item.id, user) else WithFavorite(favs, Item, user)
  }

  /** For a signed-in user the heart flips the favourite state; pressing it twice restores it. */
  lemma FavoriteFlips(favs: seq<Favorite>, user: Option<string>)
    requires SignedIn(user)
    ensures IsFavorite(FavoriteUpdate(favs, user), Item.id, user) == !IsFavorite(favs, Item.id, user)
  {
    if !IsFavorite(favs, Item.id, user) {
      AddedIsFavorite(favs, Item, user);
    } else {
      RemovedIsNotFavorite(favs, Item.id, user);
    }
  }

  class DetailsPage {
    var currentImageIndex: int
    var guests: int
    var nights: int
    var authModalOpen: bool
    var bookingFlowOpen: bool

    /** The ranges the carousel and the steppers keep. */
    ghost predicate Valid()
      reads this
    {
      0 <= currentImageIndex < ImageCount && 1 <= guests <= MaxGuests && nights >= 1
    }

    constructor ()
      ensures Valid()
      ensures currentImageIndex == 0 && guests == 2 && nights == 3
      ensures !authModalOpen && !bookingFlowOpen
    {
      currentImageIndex, guests, nights := 0, 2, 3;
      authModalOpen, bookingFlowOpen := false, false;
    }

    method NextImage()
      requires Valid()
      modifies this
      ensures Valid()
      ensures currentImageIndex == NextIndex(old(currentImageIndex), ImageCount)
      ensures guests == old(guests) && nights == old(nights)
      ensures authModalOpen == old(authModalOpen) && bookingFlowOpen == old(bookingFlowOpen)
    {
      currentImageIndex := NextIndex(currentImageIndex, ImageCount);
    }

    method PrevImage()
      requires Valid()
      modifies this
      ensures Valid()
      ensures currentImageIndex == PrevIndex(old(currentImageIndex), ImageCount)
      ensures guests == old(guests) && nights == old(nights)
      ensures authModalOpen == old(authModalOpen) && bookingFlowOpen == old(bookingFlowOpen)
    {
      currentImageIndex := PrevIndex(currentImageIndex, ImageCount);
    }

    method DecrementGuests()
      requires Valid()
      modifies this
      ensures Valid()
      ensures guests == OneLess(old(guests))
      ensures currentImageIndex == old(currentImageIndex) && nights == old(nights)
      ensures authModalOpen == old(authModalOpen) && bookingFlowOpen == old(bookingFlowOpen)
    {
      guests := OneLess(guests);
    }

    method IncrementGuests()
      requires Valid()
      modifies this
      ensures Valid()
      ensures guests == MoreGuests(old(guests), MaxGuests)
      ensures currentImageIndex == old(currentImageIndex) && nights == old(nights)
      ensures authModalOpen == old(authModalOpen) && bookingFlowOpen == old(bookingFlowOpen)
    {
      guests := MoreGuests(guests, MaxGuests);
    }

    method DecrementNights()
      requires Valid()
      modifies this
      ensures Valid()
      ensures nights == OneLess(old(nights))
      ensures currentImageIndex == old(currentImageIndex) && guests == old(guests)
      ensures authModalOpen == old(authModalOpen) && bookingFlowOpen == old(bookingFlowOpen)
    {
      nights := OneLess(nights);
    }

    method IncrementNights()
      requires Valid()
      modifies this
      ensures Valid()
      ensures nights == old(nights) + 1
      ensures currentImageIndex == old(currentImageIndex) && guests == old(guests)
      ensures authModalOpen == old(authModalOpen) && bookingFlowOpen == old(bookingFlowOpen)
    {
      nights := nights + 1;
    }

    /** handleFavorite: without a session only the sign-in dialog opens and the favourites
        stay as they are; with one the entry is removed or added. */
    method HandleFavorite(store: FavoritesStore, isAuthenticated: bool, currentUser: Option<string>)
      requires store.Valid()
      modifies this, store
      ensures store.Valid()
      ensures !isAuthenticated ==> authModalOpen && store.favorites == old(store.favorites)
      ensures isAuthenticated ==> authModalOpen == old(authModalOpen) &&
                                  store.favorites == FavoriteUpdate(old(store.favorites), currentUser)
      ensures currentImageIndex == old(currentImageIndex) && guests == old(guests) && nights == old(nights)
      ensures bookingFlowOpen == old(bookingFlowOpen)
    {
      if !isAuthenticated {
        authModalOpen := true;
        return;
      }
      var favorited := IsFavorite(store.favorites, Item.id, currentUser);
      if favorited {
        store.RemoveFromFavorites(Item.id, currentUser);
      } else {
        store.AddToFavorites(Item, currentUser);
      }
    }

    /** handleBookNow: the booking wizard opens only with a session; otherwise the sign-in dialog. */
    method HandleBookNow(isAuthenticated: bool)
      modifies this
      ensures !isAuthenticated ==> authModalOpen && bookingFlowOpen == old(bookingFlowOpen)
      ensures isAuthenticated ==> bookingFlowOpen && authModalOpen == old(authModalOpen)
      ensures currentImageIndex == old(currentImageIndex) && guests == old(guests) && nights == old(nights)
    {
      if !isAuthenticated {
        authModalOpen := true;
        return;
      }
      bookingFlowOpen := true;
    }
  }
}
