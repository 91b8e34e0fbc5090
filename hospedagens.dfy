/** The public accommodation list (src/pages/Hospedagens.tsx): a search over
    name and location and a minimum-guests choice. `selectedGuests` is the
    select's text value ("" for any number), read with parseInt. */
module Hospedagens {
  import opened Wrappers
  import opened Seqs
  import opened Text
  import opened Js

  datatype Listing = Listing(id: int, name: string, image: string, location: string, rating: real,
                             reviewCount: int, price: int, maxGuests: int, amenities: seq<string>,
                             featured: bool)

  /** The search term occurs, ignoring case, in the name or the location. */
  predicate MatchesSearch(a: Listing, term: string) {
    ContainsIgnoringCase(a.name, term) || ContainsIgnoringCase(a.location, term)
  }

  /** `selectedGuests === "" || maxGuests >= parseInt(selectedGuests)`; a NaN threshold
      lets nothing through. */
  predicate MatchesGuests(a: Listing, selectedGuests: string) {
    selectedGuests == "" ||
    (ParseInt(selectedGuests).Some? && a.maxGuests >= ParseInt(selectedGuests).value)
  }

  predicate Shown(term: string, selectedGuests: string, a: Listing) {
    MatchesSearch(a, term) && MatchesGuests(a, selectedGuests)
  }

  /** filteredAccommodations: the matching accommodations in list order. */
  function FilteredAccommodations(all: seq<Listing>, term: string, selectedGuests: string): (r: seq<Listing>)
    ensures IsSubsequence(r, all)
    ensures forall k :: 0 <= k < |r| ==> MatchesSearch(r[k], term) && MatchesGuests(r[k], selectedGuests)
    ensures forall i :: 0 <= i < |all| && MatchesSearch(all[i], term) && MatchesGuests(all[i], selectedGuests) ==>
              all[i] in r
  {
    FilterIsSubsequence(all, (x: Listing) => Shown(term, selectedGuests, x));
    Filter(all, (x: Listing) => Shown(term, selectedGuests, x))
  }

  /** An empty search with any number of guests lists everything. */
  lemma {:induction false} UnfilteredShowsAll(all: seq<Listing>)
    ensures FilteredAccommodations(all, "", "") == all
  {
    forall i | 0 <= i < |all|
      ensures Shown("", "", all[i])
    {
      EmptyTermMatches(all[i].name);
    }
    FilterAll(all, (x: Listing) => Shown("", "", x));
  }

  /** For the select's values ("2", "4", "6", "8", any decimal number), an accommodation
      passes exactly when it takes at least that many guests. */
  lemma GuestThreshold(a: Listing, t: nat)
    ensures MatchesGuests(a, DecimalString(t)) <==> a.maxGuests >= t
  {
    DecimalStringValue(t);
    DigitPrefixOfDigits(DecimalString(t));
  }

  /** The digit prefix of a digit string is the string itself. */
  lemma {:induction false} DigitPrefixOfDigits(s: string)
    requires AllDigits(s)
    ensures DigitPrefix(s) == s
  {
    if s != [] {
      DigitPrefixOfDigits(s[1..]);
      assert [s[0]] + s[1..] == s;
    }
  }

  /** A higher threshold lists a sub-list of what a lower one lists. */
  lemma HigherThresholdNarrows(all: seq<Listing>, term: string, low: nat, high: nat)
    requires low <= high
    ensures IsSubsequence(FilteredAccommodations(all, term, DecimalString(high)),
                          FilteredAccommodations(all, term, DecimalString(low)))
  {
    forall a: Listing
      ensures Shown(term, DecimalString(high), a) ==> Shown(term, DecimalString(low), a)
    {
      GuestThreshold(a, low);
      GuestThreshold(a, high);
    }
    FilterStronger(all, (x: Listing) => Shown(term, DecimalString(low), x),
                   (x: Listing) => Shown(term, DecimalString(high), x));
  }
}
