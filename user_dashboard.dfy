/** The guest's dashboard (src/pages/UserDashboard.tsx): the signed-in user's
    reservations split into the "reservas" and "historico" tabs, the payments
    derived from them, and the user's favourites. The signed-in user (AuthContext)
    is a parameter: None when nobody is signed in. */
module UserDashboard {
  import opened Wrappers
  import opened Seqs
  import opened Text
  import opened ReservationContext
  import opened FavoritesContext

  datatype User = User(id: string, email: string)

  /** `user ? getUserReservations(user.email) : []`. */
  function UserReservations(rs: seq<Reservation>, user: Option<User>): (r: seq<Reservation>)
    ensures user.None? ==> r == []
    ensures user.Some? ==> r == GetUserReservations(rs, user.value.email)
  {
    if user.Some? then GetUserReservations(rs, user.value.email) else []
  }

  predicate IsActive(r: Reservation) {
    r.data.status == Confirmada || r.data.status == Pendente
  }

  predicate IsCancelled(r: Reservation) {
    r.data.status == Cancelada
  }

  /** The "reservas" tab: confirmed and pending reservations. */
  function Reservas(ur: seq<Reservation>): (r: seq<Reservation>)
    ensures IsSubsequence(r, ur)
    ensures forall k :: 0 <= k < |r| ==> IsActive(r[k])
  {
    FilterIsSubsequence(ur, IsActive);
    Filter(ur, IsActive)
  }

  /** The "historico" tab: cancelled reservations. */
  function Historico(ur: seq<Reservation>): (r: seq<Reservation>)
    ensures IsSubsequence(r, ur)
    ensures forall k :: 0 <= k < |r| ==> IsCancelled(r[k])
  {
    FilterIsSubsequence(ur, IsCancelled);
    Filter(ur, IsCancelled)
  }

  /** With three statuses, every reservation lies in exactly one of the two tabs. */
  lemma {:induction false} TabsPartition(ur: seq<Reservation>)
    ensures forall i :: 0 <= i < |ur| ==> (ur[i] in Reservas(ur) <==> ur[i] !in Historico(ur))
    ensures |Reservas(ur)| + |Historico(ur)| == |ur|
  {
    if ur != [] {
      TabsPartition(ur[1..]);
      assert Reservas(ur) == (if IsActive(ur[0]) then [ur[0]] else []) + Reservas(ur[1..]);
      assert Historico(ur) == (if IsCancelled(ur[0]) then [ur[0]] else []) + Historico(ur[1..]);
    }
  }

  datatype Payment = Payment(id: string, reservaId: string, accommodation: string, date: int,
                             amount: real, payMethod: string, status: string)

  /** The text of a payment status in the source's union type. */
  function PaymentStatusName(ps: PaymentStatus): string {
    match ps
    case Pago => "pago"
    case PagamentoPendente => "pendente"
    case Estornado => "estornado"
  }

  /** One payment entry (its `method` field is `payMethod` here): `PAG` and the code's last three characters; PIX only for "pix";
      "pago" shown as "aprovado", any other status as it is. */
  function PaymentOf(r: Reservation): (p: Payment)
    ensures |p.id| >= 3 && p.id[..3] == "PAG" && p.reservaId == r.id
    ensures |p.id| == 3 + (if |r.id| < 3 then |r.id| else 3)
    ensures r.id == r.id[..|r.id| - (|p.id| - 3)] + p.id[3..]
    ensures p.payMethod == "PIX" <==> r.data.paymentMethod == "pix"
    ensures r.data.paymentStatus == Pago ==> p.status == "aprovado"
    ensures r.data.paymentStatus != Pago ==> p.status == PaymentStatusName(r.data.paymentStatus)
    ensures p.accommodation == r.data.accommodationName && p.date == r.createdAt && p.amount == r.data.total
  {
    var suffix := SliceFromEnd(r.id, 3);
    assert ("PAG" + suffix)[..3] == "PAG" && ("PAG" + suffix)[3..] == suffix;
    Payment("PAG" + suffix, r.id, r.data.accommodationName, r.createdAt, r.data.total,
            if r.data.paymentMethod == "pix" then "PIX" else "Cartão de Crédito",
            if r.data.paymentStatus == Pago then "aprovado" else PaymentStatusName(r.data.paymentStatus))
  }

  /** pagamentos: one payment per reservation, in the same order. */
  function Pagamentos(ur: seq<Reservation>): (ps: seq<Payment>)
    ensures |ps| == |ur|
    ensures forall i :: 0 <= i < |ur| ==> ps[i] == PaymentOf(ur[i]) && ps[i].reservaId == ur[i].id
  {
    seq(|ur|, i requires 0 <= i < |ur| => PaymentOf(ur[i]))
  }

  /** Payment codes repeat whenever two reservation codes share their last three characters. */
  lemma SharedSuffixSharesPaymentId(a: Reservation, b: Reservation)
    requires |a.id| >= 3 && |b.id| >= 3 && a.id[|a.id| - 3..] == b.id[|b.id| - 3..]
    ensures PaymentOf(a).id == PaymentOf(b).id
  {
    var pa, pb := PaymentOf(a).id, PaymentOf(b).id;
    assert pa[3..] == a.id[|a.id| - 3..];
    assert pb[3..] == b.id[|b.id| - 3..];
    assert pa == pa[..3] + pa[3..] && pb == pb[..3] + pb[3..];
  }

  /** `user ? getUserFavorites(user.id) : []`. */
  function Favoritos(favs: seq<Favorite>, user: Option<User>): (r: seq<Favorite>)
    ensures user.None? ==> r == []
    ensures user.Some? ==> r == GetUserFavorites(favs, user.value.id)
  {
    if user.Some? then GetUserFavorites(favs, user.value.id) else []
  }
}
