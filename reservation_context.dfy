/** The client-side reservation store (src/contexts/ReservationContext.tsx):
    the `reservations` state array, which `addReservation` and the two status
    updates replace with a new array, and the lookups over it. The clock reads
    (`Date.now()` for the code, `new Date()` for `createdAt`) are parameters;
    `createdAt` is kept as the millisecond time its ISO string encodes. */
module ReservationContext {
  import opened Wrappers
  import opened Seqs
  import opened Text
  import opened Js

  datatype Status = Confirmada | Pendente | Cancelada
  datatype PaymentStatus = Pago | PagamentoPendente | Estornado

  /** What a caller passes to addReservation: every field but `id` and `createdAt`.
      Amounts are JavaScript numbers, kept here as reals. */
  datatype ReservationData = ReservationData(
    accommodationId: int, accommodationName: string, accommodationImage: string, location: string,
    checkIn: string, checkOut: string, guests: int, nights: int,
    pricePerNight: real, subtotal: real, serviceFee: real, total: real,
    guestName: string, email: string, phone: string, document: string, specialRequests: Option<string>,
    paymentMethod: string, status: Status, paymentStatus: PaymentStatus, amenities: seq<string>)

  datatype Reservation = Reservation(id: string, createdAt: int, data: ReservationData)

  /** `RS${Date.now().toString().slice(-6)}`: "RS" and the last six digits of the clock. */
  function NewId(clock: nat): (id: string)
    ensures |id| >= 3 && |id| <= 8 && id[..2] == "RS" && AllDigits(id[2..])
    ensures DecimalValue(id[2..]) == clock % 1000000
    ensures clock >= 100000 ==> |id| == 8
  {
    var digits := SliceFromEnd(DecimalString(clock), 6);
    assert ("RS" + digits)[2..] == digits;
    DecimalSuffixValue(clock, 6);
    assert Pow10(6) == 1000000;
    assert Pow10(5) == 100000;
    LargeDecimalIsLong(clock, 5);
    "RS" + digits
  }

  /** getReservationById (and getReservation, which is the same `find`). */
  function GetReservationById(rs: seq<Reservation>, id: string): (r: Option<Reservation>)
    ensures r.None? <==> forall i :: 0 <= i < |rs| ==> rs[i].id != id
    ensures r.Some? ==> exists i :: 0 <= i < |rs| && rs[i] == r.value && r.value.id == id &&
                                    forall j :: 0 <= j < i ==> rs[j].id != id
  {
    Find(rs, (x: Reservation) => x.id == id)
  }

  /** `guestName.split(' ').pop()`: the text after the last space. */
  function LastToken(name: string): (t: string)
    ensures ' ' !in t
    ensures ' ' !in name ==> t == name
  {
    var parts := Split(name, ' ');
    if ' ' in name then parts[|parts| - 1]
    else
      SplitWord(name, ' ');
      parts[|parts| - 1]
  }

  /** The reservation code equals `code` and the surname equals `lastName`, both ignoring case. */
  predicate CodeAndNameMatch(r: Reservation, code: string, lastName: string) {
    Lower(r.id) == Lower(code) && Lower(LastToken(r.data.guestName)) == Lower(lastName)
  }

  /** getReservationByCodeAndName: the first reservation matching code and surname. */
  function GetReservationByCodeAndName(rs: seq<Reservation>, code: string, lastName: string): (r: Option<Reservation>)
    ensures r.None? <==> forall i :: 0 <= i < |rs| ==> !CodeAndNameMatch(rs[i], code, lastName)
    ensures r.Some? ==> exists i :: 0 <= i < |rs| && rs[i] == r.value && CodeAndNameMatch(r.value, code, lastName) &&
                                    forall j :: 0 <= j < i ==> !CodeAndNameMatch(rs[j], code, lastName)
  {
    Find(rs, (x: Reservation) => CodeAndNameMatch(x, code, lastName))
  }

  /** The surname is the word after the guest name's last space. */
  lemma LastTokenAfterSpace(first: string, last: string)
    requires ' ' !in last
    ensures LastToken(first + " " + last) == last
  {
    SplitLast(first, last, ' ');
  }

  /** Looking up with the code and surname in lower case finds the same reservation. */
  lemma {:induction false} CodeAndNameIgnoreCase(rs: seq<Reservation>, code: string, lastName: string)
    ensures GetReservationByCodeAndName(rs, Lower(code), Lower(lastName)) == GetReservationByCodeAndName(rs, code, lastName)
  {
    LowerIdempotent(code);
    LowerIdempotent(lastName);
    FindAgrees(rs, (x: Reservation) => CodeAndNameMatch(x, Lower(code), Lower(lastName)),
               (x: Reservation) => CodeAndNameMatch(x, code, lastName));
  }

  predicate HasEmail(r: Reservation, email: string) {
    Lower(r.data.email) == Lower(email)
  }

  /** getUserReservations: the reservations with this e-mail (ignoring case),
      newest first. */
  function GetUserReservations(rs: seq<Reservation>, email: string): (r: seq<Reservation>)
    ensures multiset(r) == multiset(Filter(rs, (x: Reservation) => HasEmail(x, email)))
    ensures forall k :: 0 <= k < |r| ==> HasEmail(r[k], email) && r[k] in rs
    ensures forall i :: 0 <= i < |rs| && HasEmail(rs[i], email) ==> rs[i] in r
    ensures forall i, j :: 0 <= i < j < |r| ==> r[i].createdAt >= r[j].createdAt
  {
    var mine := Filter(rs, (x: Reservation) => HasEmail(x, email));
    var sorted := SortBy(mine, (x: Reservation) => -x.createdAt);
    SameElements(sorted, mine);
    sorted
  }

  /** The `map` of updateReservationStatus: entries with this id get the new status. */
  function WithStatus(rs: seq<Reservation>, id: string, status: Status): (r: seq<Reservation>)
    ensures |r| == |rs|
    ensures forall i :: 0 <= i < |rs| ==>
              r[i].id == rs[i].id && r[i].createdAt == rs[i].createdAt &&
              r[i].data.(status := rs[i].data.status) == rs[i].data &&
              r[i].data.status == (if rs[i].id == id then status else rs[i].data.status)
  {
    seq(|rs|, i requires 0 <= i < |rs| =>
      if rs[i].id == id then rs[i].(data := rs[i].data.(status := status)) else rs[i])
  }

  /** The `map` of updatePaymentStatus: entries with this id get the new payment status. */
  function WithPaymentStatus(rs: seq<Reservation>, id: string, paymentStatus: PaymentStatus): (r: seq<Reservation>)
    ensures |r| == |rs|
    ensures forall i :: 0 <= i < |rs| ==>
              r[i].id == rs[i].id && r[i].createdAt == rs[i].createdAt &&
              r[i].data.(paymentStatus := rs[i].data.paymentStatus) == rs[i].data &&
              r[i].data.paymentStatus == (if rs[i].id == id then paymentStatus else rs[i].data.paymentStatus)
  {
    seq(|rs|, i requires 0 <= i < |rs| =>
      if rs[i].id == id then rs[i].(data := rs[i].data.(paymentStatus := paymentStatus)) else rs[i])
  }

  /** After a status update, looking the id up finds the same reservation with the new status. */
  lemma {:induction false} StatusUpdateIsVisible(rs: seq<Reservation>, id: string, status: Status)
    ensures var before := GetReservationById(rs, id);
            var after := GetReservationById(WithStatus(rs, id, status), id);
            after.Some? == before.Some? &&
            (before.Some? ==> after.value == before.value.(data := before.value.data.(status := status)))
  {
    var w := WithStatus(rs, id, status);
    var p := (x: Reservation) => x.id == id;
    var before := FindIndex(rs, p);
    var after := FindIndex(w, p);
    assert forall i :: 0 <= i < |rs| ==> (w[i].id == id <==> rs[i].id == id);
    if before.Some? {
      assert after.Some? && after.value == before.value;
    }
  }

  /** Setting the same status twice is the same as setting it once. */
  lemma StatusUpdateIdempotent(rs: seq<Reservation>, id: string, status: Status)
    ensures WithStatus(WithStatus(rs, id, status), id, status) == WithStatus(rs, id, status)
  {
  }

  /** A status update leaves the payment statuses alone, and the reverse. */
  lemma {:induction false} UpdatesAreIndependent(rs: seq<Reservation>, id: string, status: Status, ps: PaymentStatus)
    ensures WithPaymentStatus(WithStatus(rs, id, status), id, ps) == WithStatus(WithPaymentStatus(rs, id, ps), id, status)
  {
    var a := WithPaymentStatus(WithStatus(rs, id, status), id, ps);
    var b := WithStatus(WithPaymentStatus(rs, id, ps), id, status);
    assert |a| == |b|;
    forall i | 0 <= i < |a|
      ensures a[i] == b[i]
    {
    }
  }

  class ReservationStore {
    var reservations: seq<Reservation>

    /** The provider starts with no reservations (before anything is loaded from storage). */
    constructor ()
      ensures reservations == []
    {
      reservations := [];
    }

    /** addReservation: one reservation appended, carrying the new code and creation time. */
    method AddReservation(data: ReservationData, clock: nat, createdAt: int) returns (id: string)
      modifies this
      ensures id == NewId(clock)
      ensures reservations == old(reservations) + [Reservation(id, createdAt, data)]
    {
      id := NewId(clock);
      reservations := reservations + [Reservation(id, createdAt, data)];
    }

    method UpdateReservationStatus(id: string, status: Status)
      modifies this
      ensures reservations == WithStatus(old(reservations), id, status)
    {
      reservations := WithStatus(reservations, id, status);
    }

    method UpdatePaymentStatus(id: string, paymentStatus: PaymentStatus)
      modifies this
      ensures reservations == WithPaymentStatus(old(reservations), id, paymentStatus)
    {
      reservations := WithPaymentStatus(reservations, id, paymentStatus);
    }
  }

  /** An appended reservation is found by its code unless an earlier one has the same code. */
  lemma {:induction false} AddedIsFound(rs: seq<Reservation>, r: Reservation)
    requires forall i :: 0 <= i < |rs| ==> rs[i].id != r.id
    ensures GetReservationById(rs + [r], r.id) == Some(r)
  {
    var s := rs + [r];
    assert s[|rs|] == r;
    assert forall i :: 0 <= i < |rs| ==> s[i] == rs[i];
  }
}
