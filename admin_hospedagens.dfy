/** The admin accommodation list (src/pages/AdminHospedagens.tsx): a search over
    name and location, and the "Ativas" card. The functions take any list;
    `Accommodations` is the page's constant one. */
module AdminHospedagens {
  import opened Seqs
  import opened Text

  datatype AdminListing = AdminListing(id: int, name: string, location: string, maxGuests: int, price: int,
                                       status: string, bookings: int, rating: real, image: string)

  const Accommodations: seq<AdminListing> := [
    AdminListing(1, "Chalé das Montanhas", "Serra da Mantiqueira", 6, 320, "ativo", 12, 4.9, "/placeholder.svg"),
    AdminListing(2, "Casa de Vidro", "Vale Encantado", 4, 450, "ativo", 8, 4.8, "/placeholder.svg"),
    AdminListing(3, "Refúgio de Pedra", "Picos da Serra", 8, 380, "manutenção", 15, 4.9, "/placeholder.svg")
  ]

  predicate Matches(term: string, a: AdminListing) {
    ContainsIgnoringCase(a.name, term) || ContainsIgnoringCase(a.location, term)
  }

  /** filteredAccommodations: the accommodations whose name or location holds the term, ignoring case. */
  function FilteredAccommodations(all: seq<AdminListing>, term: string): (r: seq<AdminListing>)
    ensures IsSubsequence(r, all)
    ensures forall k :: 0 <= k < |r| ==> Matches(term, r[k])
    ensures forall i :: 0 <= i < |all| && Matches(term, all[i]) ==> all[i] in r
  {
    FilterIsSubsequence(all, (x: AdminListing) => Matches(term, x));
    Filter(all, (x: AdminListing) => Matches(term, x))
  }

  lemma {:induction false} EmptySearchShowsAll(all: seq<AdminListing>)
    ensures FilteredAccommodations(all, "") == all
  {
    forall i | 0 <= i < |all|
      ensures Matches("", all[i])
    {
      EmptyTermMatches(all[i].name);
    }
    FilterAll(all, (x: AdminListing) => Matches("", x));
  }

  /** The "Ativas" card: the accommodations with status "ativo". */
  function ActiveCount(all: seq<AdminListing>): (n: nat)
    ensures n <= |all|
  {
    Count(all, (x: AdminListing) => x.status == "ativo")
  }

  /** Every accommodation is active or not: the active and inactive counts make up the "Total" card. */
  lemma {:induction false} ActivePlusInactiveIsTotal(all: seq<AdminListing>)
    ensures ActiveCount(all) + Count(all, (x: AdminListing) => x.status != "ativo") == |all|
  {
    if all != [] {
      ActivePlusInactiveIsTotal(all[1..]);
    }
  }

  /** The page shows 3 accommodations, 2 of them active. */
  lemma PageFigures()
    ensures |Accommodations| == 3 && ActiveCount(Accommodations) == 2
  {
  }
}
