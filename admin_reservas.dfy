/** The reservation list of the admin panel (src/pages/AdminReservas.tsx): the
    search and status filter over the page's reservation list, and the figures
    of its summary cards. The functions take any list; `Reservations` is the
    page's own constant one. */
module AdminReservas {
  import opened Seqs
  import opened Text

  datatype AdminReservation = AdminReservation(
    id: string, guest: string, email: string, phone: string, accommodation: string,
    checkIn: string, checkOut: string, guests: int, nights: int, totalValue: int,
    status: string, paymentStatus: string, createdAt: string)

  const Reservations: seq<AdminReservation> := [
    AdminReservation("RS001234", "Maria Silva", "maria@email.com", "(11) 99999-9999", "Chalé das Montanhas",
                     "2024-12-15", "2024-12-18", 4, 3, 1010, "confirmada", "pago", "2024-12-01"),
    AdminReservation("RS001235", "João Santos", "joao@email.com", "(11) 88888-8888", "Casa de Vidro",
                     "2024-12-20", "2024-12-22", 2, 2, 950, "pendente", "pendente", "2024-12-02"),
    AdminReservation("RS001236", "Ana Costa", "ana@email.com", "(11) 77777-7777", "Refúgio de Pedra",
                     "2024-12-25", "2024-12-28", 6, 3, 1190, "confirmada", "pago", "2024-12-03"),
    AdminReservation("RS001237", "Pedro Lima", "pedro@email.com", "(11) 66666-6666", "Vila dos Pássaros",
                     "2024-12-10", "2024-12-12", 3, 2, 610, "cancelada", "estornado", "2024-11-28")
  ]

  /** The search term occurs, ignoring case, in the guest's name, the code or the accommodation. */
  predicate MatchesSearch(r: AdminReservation, term: string) {
    ContainsIgnoringCase(r.guest, term) || ContainsIgnoringCase(r.id, term) ||
    ContainsIgnoringCase(r.accommodation, term)
  }

  /** "todas" lets every status through; any other value must equal the status. */
  predicate MatchesStatus(r: AdminReservation, statusFilter: string) {
    statusFilter == "todas" || r.status == statusFilter
  }

  predicate Shown(term: string, statusFilter: string, r: AdminReservation) {
    MatchesSearch(r, term) && MatchesStatus(r, statusFilter)
  }

  /** filteredReservations: the matching reservations, in list order. */
  function FilteredReservations(rs: seq<AdminReservation>, term: string, statusFilter: string): (r: seq<AdminReservation>)
    ensures IsSubsequence(r, rs)
    ensures forall k :: 0 <= k < |r| ==> MatchesSearch(r[k], term) && MatchesStatus(r[k], statusFilter)
    ensures forall i :: 0 <= i < |rs| && MatchesSearch(rs[i], term) && MatchesStatus(rs[i], statusFilter) ==> rs[i] in r
  {
    FilterIsSubsequence(rs, (x: AdminReservation) => Shown(term, statusFilter, x));
    Filter(rs, (x: AdminReservation) => Shown(term, statusFilter, x))
  }

  /** With no search term and "todas", the whole list is shown. */
  lemma {:induction false} UnfilteredShowsAll(rs: seq<AdminReservation>)
    ensures FilteredReservations(rs, "", "todas") == rs
  {
    forall i | 0 <= i < |rs|
      ensures Shown("", "todas", rs[i])
    {
      EmptyTermMatches(rs[i].guest);
    }
    FilterAll(rs, (x: AdminReservation) => Shown("", "todas", x));
  }

  /** Narrowing the status from "todas" to one value keeps a sub-list. */
  lemma StatusNarrows(rs: seq<AdminReservation>, term: string, status: string)
    ensures IsSubsequence(FilteredReservations(rs, term, status), FilteredReservations(rs, term, "todas"))
  {
    FilterStronger(rs, (x: AdminReservation) => Shown(term, "todas", x), (x: AdminReservation) => Shown(term, status, x));
  }

  function CountStatus(rs: seq<AdminReservation>, status: string): (n: nat)
    ensures n <= |rs|
  {
    Count(rs, (x: AdminReservation) => x.status == status)
  }

  /** The "Confirmadas" and "Pendentes" cards together count at most the "Total de Reservas" card. */
  lemma ConfirmedAndPendingWithinTotal(rs: seq<AdminReservation>)
    ensures CountStatus(rs, "confirmada") + CountStatus(rs, "pendente") <= |rs|
  {
    CountDisjoint(rs, (x: AdminReservation) => x.status == "confirmada", (x: AdminReservation) => x.status == "pendente");
  }

  function SumValues(rs: seq<AdminReservation>): int {
    if rs == [] then 0 else rs[0].totalValue + SumValues(rs[1..])
  }

  /** "Receita Total": the total value of the reservations whose payment status is "pago". */
  function Revenue(rs: seq<AdminReservation>): (total: int)
    ensures (forall i :: 0 <= i < |rs| ==> rs[i].totalValue >= 0) ==> total >= 0
  {
    RevenueNonNegative(rs);
    SumValues(Filter(rs, (x: AdminReservation) => x.paymentStatus == "pago"))
  }

  lemma {:induction false} SumNonNegative(rs: seq<AdminReservation>)
    requires forall i :: 0 <= i < |rs| ==> rs[i].totalValue >= 0
    ensures SumValues(rs) >= 0
  {
    if rs != [] {
      SumNonNegative(rs[1..]);
    }
  }

  lemma RevenueNonNegative(rs: seq<AdminReservation>)
    ensures (forall i :: 0 <= i < |rs| ==> rs[i].totalValue >= 0) ==>
              SumValues(Filter(rs, (x: AdminReservation) => x.paymentStatus == "pago")) >= 0
  {
    if forall i :: 0 <= i < |rs| ==> rs[i].totalValue >= 0 {
      SumNonNegative(Filter(rs, (x: AdminReservation) => x.paymentStatus == "pago"));
    }
  }

  lemma {:induction false} SumConcat(a: seq<AdminReservation>, b: seq<AdminReservation>)
    ensures SumValues(a + b) == SumValues(a) + SumValues(b)
  {
    if a != [] {
      SumConcat(a[1..], b);
      assert (a + b)[1..] == a[1..] + b;
    } else {
      assert a + b == b;
    }
  }

  /** Revenue adds up over a split list, and one reservation contributes its value exactly
      when it is paid: together these determine the figure. */
  lemma RevenueAdds(a: seq<AdminReservation>, b: seq<AdminReservation>)
    ensures Revenue(a + b) == Revenue(a) + Revenue(b)
  {
    var p := (x: AdminReservation) => x.paymentStatus == "pago";
    FilterConcat(a, b, p);
    SumConcat(Filter(a, p), Filter(b, p));
  }

  lemma RevenueOfOne(r: AdminReservation)
    ensures Revenue([r]) == if r.paymentStatus == "pago" then r.totalValue else 0
  {
    var p := (x: AdminReservation) => x.paymentStatus == "pago";
    assert [r][1..] == [];
    assert Filter([r], p) == if p(r) then [r] else [];
    assert SumValues([r]) == r.totalValue + SumValues([]);
  }

  /** The page's cards show 4 reservations, 2 confirmed, 1 pending and R$ 2200 of revenue. */
  lemma PageFigures()
    ensures |Reservations| == 4
    ensures CountStatus(Reservations, "confirmada") == 2 && CountStatus(Reservations, "pendente") == 1
    ensures Revenue(Reservations) == 2200
  {
    var rs := Reservations;
    assert rs == [rs[0]] + [rs[1]] + [rs[2]] + [rs[3]];
    RevenueAdds([rs[0]] + [rs[1]] + [rs[2]], [rs[3]]);
    RevenueAdds([rs[0]] + [rs[1]], [rs[2]]);
    RevenueAdds([rs[0]], [rs[1]]);
    RevenueOfOne(rs[0]);
    RevenueOfOne(rs[1]);
    RevenueOfOne(rs[2]);
    RevenueOfOne(rs[3]);
  }
}
