/** The reservation lookup page (src/pages/ConsultarReserva.tsx): the form
    guard, the lookup through the reservation store, and the status labels. */
module ConsultarReserva {
  import opened Wrappers
  import opened ReservationContext

  datatype SearchOutcome = MissingFields | Found(r: Reservation) | NotFound

  /** getStatusLabel: the four English status names get Portuguese labels; anything else is shown as is. */
  function StatusLabel(status: string): (shown: string)
    ensures status == "confirmed" ==> shown == "Confirmada"
    ensures status == "pending" ==> shown == "Pendente"
    ensures status == "cancelled" ==> shown == "Cancelada"
    ensures status == "completed" ==> shown == "Concluída"
    ensures status !in {"confirmed", "pending", "cancelled", "completed"} ==> shown == status
  {
    match status
    case "confirmed" => "Confirmada"
    case "pending" => "Pendente"
    case "cancelled" => "Cancelada"
    case "completed" => "Concluída"
    case _ => status
  }

  /** The text of a stored status in the store's union type. */
  function StatusName(s: Status): string {
    match s
    case Confirmada => "confirmada"
    case Pendente => "pendente"
    case Cancelada => "cancelada"
  }

  /** The store keeps Portuguese status names, which the switch does not list: a found
      reservation's status is shown exactly as stored. */
  lemma StoredStatusesShowAsStored(s: Status)
    ensures StatusLabel(StatusName(s)) == StatusName(s)
  {
  }

  class LookupPage {
    var reservationCode: string
    var lastName: string
    var reservation: Option<Reservation>

    constructor ()
      ensures reservationCode == "" && lastName == "" && reservation.None?
    {
      reservationCode, lastName, reservation := "", "", None;
    }

    /** handleSearch over the store's reservations `rs`. With either field empty nothing is
        looked up and the shown reservation stays; otherwise the first reservation with that
        code and surname is shown, or none. */
    method HandleSearch(rs: seq<Reservation>) returns (outcome: SearchOutcome)
      modifies this
      ensures reservationCode == old(reservationCode) && lastName == old(lastName)
      ensures outcome.MissingFields? <==> old(reservationCode) == "" || old(lastName) == ""
      ensures outcome.MissingFields? ==> reservation == old(reservation)
      ensures !outcome.MissingFields? ==>
                reservation == GetReservationByCodeAndName(rs, old(reservationCode), old(lastName))
      ensures outcome.Found? <==> !outcome.MissingFields? && reservation.Some?
      ensures outcome.Found? ==> reservation == Some(outcome.r)
    {
      if reservationCode == "" || lastName == "" {
        return MissingFields;
      }
      reservation := GetReservationByCodeAndName(rs, reservationCode, lastName);
      if reservation.Some? {
        outcome := Found(reservation.value);
      } else {
        outcome := NotFound;
      }
    }
  }

  /** A reservation just added under a guest's name is found by its code and the surname. */
  lemma {:induction false} NewReservationIsFound(rs: seq<Reservation>, r: Reservation, first: string, last: string)
    requires r.data.guestName == first + " " + last && ' ' !in last
    requires forall i :: 0 <= i < |rs| ==> !CodeAndNameMatch(rs[i], r.id, last)
    ensures GetReservationByCodeAndName(rs + [r], r.id, last) == Some(r)
  {
    LastTokenAfterSpace(first, last);
    var s := rs + [r];
    assert s[|rs|] == r;
    assert forall i :: 0 <= i < |rs| ==> s[i] == rs[i];
  }
}
