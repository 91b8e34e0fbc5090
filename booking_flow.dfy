/** The five-step booking wizard (src/components/BookingFlow.tsx). The
    wizard's state hooks are the fields of a `BookingWizard`; the handlers are
    its methods, and `nights`, the amounts and the `canProceed*` guards are
    functions of that state. A calendar date is its day number (what
    `differenceInDays` compares) with the ISO text `toISOString` gives it. */
module BookingFlow {
  import opened Wrappers
  import opened ReservationContext

  datatype Step = Dates | Guests | Details | Payment | Confirmation

  /** `stepOrder` in handleNext and handlePrevious. */
  const StepOrder: seq<Step> := [Dates, Guests, Details, Payment, Confirmation]

  /** `stepOrder.indexOf(step)`. */
  function StepIndex(s: Step): (i: nat)
    ensures i < |StepOrder| && StepOrder[i] == s
  {
    match s
    case Dates => 0
    case Guests => 1
    case Details => 2
    case Payment => 3
    case Confirmation => 4
  }

  /** handleNext: the following step, or the same one at the end. */
  function NextStep(s: Step): (r: Step)
    ensures StepIndex(s) < |StepOrder| - 1 ==> StepIndex(r) == StepIndex(s) + 1
    ensures s == Confirmation ==> r == s
  {
    var i := StepIndex(s);
    if i < |StepOrder| - 1 then StepOrder[i + 1] else s
  }

  /** handlePrevious: the preceding step, or the same one at the start. */
  function PreviousStep(s: Step): (r: Step)
    ensures StepIndex(s) > 0 ==> StepIndex(r) == StepIndex(s) - 1
    ensures s == Dates ==> r == s
  {
    var i := StepIndex(s);
    if i > 0 then StepOrder[i - 1] else s
  }

  /** Going forward and back returns to the step, except from the last one. */
  lemma PreviousUndoesNext(s: Step)
    requires s != Confirmation
    ensures PreviousStep(NextStep(s)) == s
  {
  }

  /** Going back and forward returns to the step, except from the first one. */
  lemma NextUndoesPrevious(s: Step)
    requires s != Dates
    ensures NextStep(PreviousStep(s)) == s
  {
  }

  /** Four steps forward from any step end at the confirmation. */
  lemma {:induction false} FourStepsReachConfirmation(s: Step)
    ensures NextStep(NextStep(NextStep(NextStep(s)))) == Confirmation
  {
  }

  datatype CalendarDate = CalendarDate(day: int, iso: string)

  datatype Accommodation = Accommodation(id: int, name: string, location: string, price: real,
                                         maxGuests: int, image: string, amenities: seq<string>)

  datatype GuestDetails = GuestDetails(name: string, email: string, phone: string, document: string,
                                       specialRequests: string)

  datatype CardData = CardData(number: string, name: string, expiry: string, cvv: string)

  /** `checkIn && checkOut ? differenceInDays(checkOut, checkIn) : 0`. */
  function Nights(checkIn: Option<CalendarDate>, checkOut: Option<CalendarDate>): (n: int)
    ensures checkIn.None? || checkOut.None? ==> n == 0
    ensures checkIn.Some? && checkOut.Some? ==> n + checkIn.value.day == checkOut.value.day
  {
    if checkIn.Some? && checkOut.Some? then checkOut.value.day - checkIn.value.day else 0
  }

  /** The amounts of the summary: subtotal, service fee (10%) and total,
      with 5% off the total for pix. Exact reals: no floating-point rounding. */
  function Subtotal(nights: int, price: real): (s: real)
    ensures nights == 0 || price == 0.0 ==> s == 0.0
    ensures nights >= 0 && price >= 0.0 ==> s >= 0.0
    ensures nights >= 1 && price >= 0.0 ==> s >= price
  {
    nights as real * price
  }

  /** The service fee is a tenth of the subtotal, so with it the subtotal grows by 10%. */
  function ServiceFee(subtotal: real): (f: real)
    ensures subtotal + f == subtotal * 1.1
    ensures subtotal >= 0.0 ==> 0.0 <= f <= subtotal
  {
    subtotal * 0.1
  }

  /** The charged total is 110% of the subtotal, or 104.5% with the pix discount; never
      less than the subtotal. */
  function ChargedTotal(subtotal: real, paymentMethod: string): (t: real)
    ensures paymentMethod == "pix" ==> t == subtotal * 1.045
    ensures paymentMethod != "pix" ==> t == subtotal * 1.1
    ensures subtotal >= 0.0 ==> t >= subtotal
  {
    var total := subtotal + ServiceFee(subtotal);
    if paymentMethod == "pix" then total * 0.95 else total
  }

  /** The dates step is done once both dates are picked and the check-out is later. */
  function CanProceedFromDates(checkIn: Option<CalendarDate>, checkOut: Option<CalendarDate>): (ok: bool)
    ensures ok <==> checkIn.Some? && checkOut.Some? && checkIn.value.day < checkOut.value.day
  {
    checkIn.Some? && checkOut.Some? && Nights(checkIn, checkOut) > 0
  }

  /** The guests step is done with between one guest and the accommodation's maximum. */
  function CanProceedFromGuests(guests: int, maxGuests: int): (ok: bool)
    ensures ok <==> 1 <= guests <= maxGuests
    ensures ok ==> maxGuests >= 1
  {
    guests > 0 && guests <= maxGuests
  }

  /** Every field of a form is non-empty. */
  predicate Filled(fields: seq<string>) {
    forall i :: 0 <= i < |fields| ==> fields[i] != ""
  }

  /** The details step is done once every field of the guest form is filled. */
  function CanProceedFromDetails(d: GuestDetails): (ok: bool)
    ensures ok <==> Filled([d.name, d.email, d.phone, d.document])
  {
    var fields := [d.name, d.email, d.phone, d.document];
    assert Filled(fields) <==> fields[0] != "" && fields[1] != "" && fields[2] != "" && fields[3] != "";
    d.name != "" && d.email != "" && d.phone != "" && d.document != ""
  }

  /** The payment step needs a method and accepted terms, and the whole card unless
      the method is pix. */
  function CanProceedFromPayment(paymentMethod: string, acceptTerms: bool, card: CardData): (ok: bool)
    ensures ok ==> paymentMethod != "" && acceptTerms
    ensures ok && paymentMethod != "pix" ==> Filled([card.number, card.name, card.expiry, card.cvv])
    ensures paymentMethod == "pix" ==> (ok <==> acceptTerms)
  {
    paymentMethod != "" && acceptTerms &&
    (paymentMethod == "pix" || (card.number != "" && card.name != "" && card.expiry != "" && card.cvv != ""))
  }

  /** The "Continuar" button is shown on the first three steps and disabled
      while that step's guard fails: it is enabled exactly on a step whose own
      guard holds. */
  function ContinueEnabled(step: Step, checkIn: Option<CalendarDate>, checkOut: Option<CalendarDate>,
                           guests: int, maxGuests: int, details: GuestDetails): (ok: bool)
    ensures ok <==> (step == Dates && CanProceedFromDates(checkIn, checkOut)) ||
                    (step == Guests && CanProceedFromGuests(guests, maxGuests)) ||
                    (step == Details && CanProceedFromDetails(details))
  {
    (step == Dates || step == Guests || step == Details) &&
    !(step == Dates && !CanProceedFromDates(checkIn, checkOut)) &&
    !(step == Guests && !CanProceedFromGuests(guests, maxGuests)) &&
    !(step == Details && !CanProceedFromDetails(details))
  }

  /** Leaving each of the first three steps needs that step's data. */
  lemma ContinueNeedsStepData(step: Step, checkIn: Option<CalendarDate>, checkOut: Option<CalendarDate>,
                              guests: int, maxGuests: int, details: GuestDetails)
    requires ContinueEnabled(step, checkIn, checkOut, guests, maxGuests, details)
    ensures step != Payment && step != Confirmation
    ensures step == Dates ==> Nights(checkIn, checkOut) > 0
    ensures step == Guests ==> 1 <= guests <= maxGuests
    ensures step == Details ==> details.name != "" && details.email != "" && details.phone != "" && details.document != ""
  {
  }

  /** The reservation handleConfirmBooking records: the stay, the guest's
      details, the amounts, status `confirmada` and payment status `pago`. */
  function BookingRecord(a: Accommodation, checkIn: CalendarDate, checkOut: CalendarDate, guests: int,
                         d: GuestDetails, paymentMethod: string): (r: ReservationData)
    ensures r.status == Confirmada && r.paymentStatus == Pago
    ensures r.nights == checkOut.day - checkIn.day && r.checkIn == checkIn.iso && r.checkOut == checkOut.iso
    ensures r.subtotal == r.nights as real * a.price && r.pricePerNight == a.price
    ensures paymentMethod != "pix" ==> r.total == r.subtotal * 1.1
    ensures paymentMethod == "pix" ==> r.total == r.subtotal * 1.045
    ensures r.guestName == d.name && r.email == d.email && r.accommodationId == a.id && r.guests == guests
  {
    var nights := Nights(Some(checkIn), Some(checkOut));
    var subtotal := Subtotal(nights, a.price);
    ReservationData(a.id, a.name, a.image, a.location, checkIn.iso, checkOut.iso, guests, nights,
                    a.price, subtotal, ServiceFee(subtotal), ChargedTotal(subtotal, paymentMethod),
                    d.name, d.email, d.phone, d.document, Some(d.specialRequests), paymentMethod,
                    Confirmada, Pago, a.amenities)
  }

  class BookingWizard {
    var currentStep: Step
    var checkIn: Option<CalendarDate>
    var checkOut: Option<CalendarDate>
    var guests: int
    var guestDetails: GuestDetails
    var paymentMethod: string
    var cardData: CardData
    var acceptTerms: bool
    var bookingId: string
    const accommodation: Accommodation

    /** The initial state; `userName` and `userEmail` are the signed-in user's
        name and e-mail (`user?.name || ""`). */
    constructor (accommodation: Accommodation, userName: string, userEmail: string)
      ensures this.accommodation == accommodation && IsReset(userName, userEmail)
    {
      this.accommodation := accommodation;
      currentStep := Dates;
      checkIn := None;
      checkOut := None;
      guests := 2;
      guestDetails := GuestDetails(userName, userEmail, "", "", "");
      paymentMethod := "";
      cardData := CardData("", "", "", "");
      acceptTerms := false;
      bookingId := "";
    }

    /** The state resetBooking restores. */
    ghost predicate IsReset(userName: string, userEmail: string)
      reads this
    {
      currentStep == Dates && checkIn.None? && checkOut.None? && guests == 2 &&
      guestDetails == GuestDetails(userName, userEmail, "", "", "") && paymentMethod == "" &&
      cardData == CardData("", "", "", "") && !acceptTerms && bookingId == ""
    }

    method HandleNext()
      modifies this`currentStep
      ensures currentStep == NextStep(old(currentStep))
    {
      var i := StepIndex(currentStep);
      if i < |StepOrder| - 1 {
        currentStep := StepOrder[i + 1];
      }
    }

    method HandlePrevious()
      modifies this`currentStep
      ensures currentStep == PreviousStep(old(currentStep))
    {
      var i := StepIndex(currentStep);
      if i > 0 {
        currentStep := StepOrder[i - 1];
      }
    }

    /** A click on "Continuar": handleNext runs only when the button is enabled. */
    method ClickContinue()
      modifies this`currentStep
      ensures old(ContinueEnabled(currentStep, checkIn, checkOut, guests, accommodation.maxGuests, guestDetails)) ==>
                currentStep == NextStep(old(currentStep))
      ensures !old(ContinueEnabled(currentStep, checkIn, checkOut, guests, accommodation.maxGuests, guestDetails)) ==>
                currentStep == old(currentStep)
    {
      if ContinueEnabled(currentStep, checkIn, checkOut, guests, accommodation.maxGuests, guestDetails) {
        HandleNext();
      }
    }

    /** handleConfirmBooking (after the simulated delay): records the
        reservation in the store and moves to the confirmation. With a date
        missing, `checkIn!.toISOString()` throws, the error is caught and
        nothing changes. */
    method HandleConfirmBooking(store: ReservationStore, clock: nat, createdAt: int)
      modifies this`bookingId, this`currentStep, store
      ensures old(checkIn.None? || checkOut.None?) ==>
                currentStep == old(currentStep) && bookingId == old(bookingId) &&
                store.reservations == old(store.reservations)
      ensures old(checkIn.Some? && checkOut.Some?) ==>
                currentStep == Confirmation && bookingId == NewId(clock) &&
                store.reservations == old(store.reservations) +
                  [Reservation(bookingId, createdAt,
                               BookingRecord(accommodation, old(checkIn.value), old(checkOut.value), guests,
                                             guestDetails, paymentMethod))]
    {
      if checkIn.None? || checkOut.None? {
        return;
      }
      var data := BookingRecord(accommodation, checkIn.value, checkOut.value, guests, guestDetails, paymentMethod);
      var id := store.AddReservation(data, clock, createdAt);
      bookingId := id;
      currentStep := Confirmation;
    }

    /** A click on "Confirmar Reserva", shown on the payment step and enabled
        only when the payment guard holds. */
    method ClickConfirm(store: ReservationStore, clock: nat, createdAt: int)
      modifies this`bookingId, this`currentStep, store
      ensures !old(currentStep == Payment && CanProceedFromPayment(paymentMethod, acceptTerms, cardData)) ==>
                currentStep == old(currentStep) && store.reservations == old(store.reservations)
      ensures old(currentStep == Payment && CanProceedFromPayment(paymentMethod, acceptTerms, cardData) &&
                  checkIn.Some? && checkOut.Some?) ==>
                currentStep == Confirmation && |store.reservations| == |old(store.reservations)| + 1 &&
                store.reservations[|old(store.reservations)|].data.status == Confirmada &&
                store.reservations[|old(store.reservations)|].data.paymentStatus == Pago
    {
      if currentStep == Payment && CanProceedFromPayment(paymentMethod, acceptTerms, cardData) {
        HandleConfirmBooking(store, clock, createdAt);
      }
    }

    method ResetBooking(userName: string, userEmail: string)
      modifies this
      ensures IsReset(userName, userEmail)
    {
      currentStep := Dates;
      checkIn := None;
      checkOut := None;
      guests := 2;
      guestDetails := GuestDetails(userName, userEmail, "", "", "");
      paymentMethod := "";
      cardData := CardData("", "", "", "");
      acceptTerms := false;
      bookingId := "";
    }
  }

  /** An enabled confirm button means a payment method is chosen, the terms are
      accepted, and the method is pix or every card field is filled in. */
  lemma ConfirmNeedsPayment(paymentMethod: string, acceptTerms: bool, card: CardData)
    requires CanProceedFromPayment(paymentMethod, acceptTerms, card)
    ensures paymentMethod != "" && acceptTerms
    ensures paymentMethod != "pix" ==> card.number != "" && card.name != "" && card.expiry != "" && card.cvv != ""
  {
  }
}
