/** The reservation routes of the MySQL backend (api/routes/reservations.js):
    the conjunctive list filters, the availability query, guarded create,
    partial update by COALESCE, lookup and delete. */
module MysqlReservations {
  import opened Wrappers
  import opened Js
  import opened MysqlStore

  /* ---------- GET /api/reservations ---------- */

  /** Query-string parameters; None when absent. An empty string is given but falsy. */
  datatype ListQuery = ListQuery(hotelId: Option<string>, status: Option<string>, guestEmail: Option<string>)

  /** A query parameter that the handler uses (`if (param)`). */
  predicate Given(p: Option<string>) { p.Some? && p.value != "" }

  predicate MatchesHotel(r: Reservation, q: ListQuery) {
    Given(q.hotelId) ==> IdOf(Str(q.hotelId.value)) == Some(r.hotelId)
  }

  predicate MatchesStatus(r: Reservation, q: ListQuery) {
    Given(q.status) ==> r.status == Str(q.status.value)
  }

  predicate MatchesEmail(r: Reservation, q: ListQuery) {
    Given(q.guestEmail) ==> r.guestEmail == Str(q.guestEmail.value)
  }

  /** The inner JOINs keep only reservations whose hotel and room type exist. */
  predicate Joined(hotels: map<nat, Hotel>, roomTypes: map<nat, RoomType>, r: Reservation) {
    r.hotelId in hotels && r.roomTypeId in roomTypes
  }

  /** The ids of the rows the list query returns (ORDER BY created_at is not modelled). */
  function ListReservations(hotels: map<nat, Hotel>, roomTypes: map<nat, RoomType>,
                            reservations: map<nat, Reservation>, q: ListQuery): (ids: set<nat>)
    ensures ids <= reservations.Keys
  {
    set id | id in reservations && Joined(hotels, roomTypes, reservations[id]) &&
             MatchesHotel(reservations[id], q) && MatchesStatus(reservations[id], q) &&
             MatchesEmail(reservations[id], q)
  }

  /** With no filter given, every joined reservation is listed. */
  lemma ListWithoutFilters(hotels: map<nat, Hotel>, roomTypes: map<nat, RoomType>,
                           reservations: map<nat, Reservation>, q: ListQuery)
    requires !Given(q.hotelId) && !Given(q.status) && !Given(q.guestEmail)
    ensures ListReservations(hotels, roomTypes, reservations, q) ==
            set id | id in reservations && Joined(hotels, roomTypes, reservations[id])
  {
  }

  /** The three filters are conjunctive: the result is the intersection of the
      results of the three single-filter queries. */
  lemma ListIsConjunctive(hotels: map<nat, Hotel>, roomTypes: map<nat, RoomType>,
                          reservations: map<nat, Reservation>, q: ListQuery)
    ensures ListReservations(hotels, roomTypes, reservations, q) ==
            ListReservations(hotels, roomTypes, reservations, ListQuery(q.hotelId, None, None)) *
            ListReservations(hotels, roomTypes, reservations, ListQuery(None, q.status, None)) *
            ListReservations(hotels, roomTypes, reservations, ListQuery(None, None, q.guestEmail))
  {
  }

  /** Adding a filter can only shrink the result. */
  lemma ListFilterNarrows(hotels: map<nat, Hotel>, roomTypes: map<nat, RoomType>,
                          reservations: map<nat, Reservation>, q: ListQuery, status: string)
    ensures ListReservations(hotels, roomTypes, reservations, q.(status := Some(status))) <=
            ListReservations(hotels, roomTypes, reservations, q.(status := None))
  {
  }

  /* ---------- GET /api/reservations/availability/:hotel_id/:room_type_id ---------- */

  /** The three interval clauses of the availability query. */
  predicate ClausesHold(r: Reservation, checkIn: int, checkOut: int) {
    (r.checkIn <= checkIn && r.checkOut > checkIn) ||
    (r.checkIn < checkOut && r.checkOut >= checkOut) ||
    (r.checkIn >= checkIn && r.checkOut <= checkOut)
  }

  /** `status IN ('confirmed', 'pending')`. */
  predicate Holds(r: Reservation) {
    r.status == Str("confirmed") || r.status == Str("pending")
  }

  /** A reservation the availability query counts against the requested stay. */
  predicate Conflicts(r: Reservation, hotel: Option<nat>, room: Option<nat>, checkIn: int, checkOut: int) {
    hotel == Some(r.hotelId) && room == Some(r.roomTypeId) && Holds(r) && ClausesHold(r, checkIn, checkOut)
  }

  /** The ids the availability query selects: every stored reservation that conflicts, and no other. */
  function ConflictIds(reservations: map<nat, Reservation>, hotel: Option<nat>, room: Option<nat>,
                       checkIn: int, checkOut: int): (ids: set<nat>)
    ensures ids <= reservations.Keys
    ensures forall id :: id in reservations && Conflicts(reservations[id], hotel, room, checkIn, checkOut) ==> id in ids
    ensures forall id :: id in ids ==> Conflicts(reservations[id], hotel, room, checkIn, checkOut)
  {
    set id | id in reservations && Conflicts(reservations[id], hotel, room, checkIn, checkOut)
  }

  lemma NoConflictIds(reservations: map<nat, Reservation>, hotel: Option<nat>, room: Option<nat>,
                      checkIn: int, checkOut: int)
    ensures |ConflictIds(reservations, hotel, room, checkIn, checkOut)| == 0 <==>
            forall id :: id in reservations ==> !Conflicts(reservations[id], hotel, room, checkIn, checkOut)
  {
    var ids := ConflictIds(reservations, hotel, room, checkIn, checkOut);
    if forall id :: id in reservations ==> !Conflicts(reservations[id], hotel, room, checkIn, checkOut) {
      assert ids == {};
    } else {
      var id :| id in reservations && Conflicts(reservations[id], hotel, room, checkIn, checkOut);
      assert id in ids;
    }
  }

  datatype Availability = Availability(available: bool, conflicting: nat)

  datatype AvailabilityError = DatesRequired

  /** The availability handler: path parameters as text, query dates as day
      numbers (None when a date is absent or empty). */
  function CheckAvailability(reservations: map<nat, Reservation>, hotelParam: string, roomParam: string,
                             checkIn: Option<int>, checkOut: Option<int>): (r: Result<Availability, AvailabilityError>)
    ensures r.Err? <==> checkIn.None? || checkOut.None?
    ensures r.Ok? ==> (r.value.conflicting ==
      |ConflictIds(reservations, IdOf(Str(hotelParam)), IdOf(Str(roomParam)), checkIn.value, checkOut.value)|)
    ensures r.Ok? ==> (r.value.available <==>
      forall id :: id in reservations ==>
        !Conflicts(reservations[id], IdOf(Str(hotelParam)), IdOf(Str(roomParam)), checkIn.value, checkOut.value))
  {
    if checkIn.None? || checkOut.None? then Err(DatesRequired)
    else
      var ids := ConflictIds(reservations, IdOf(Str(hotelParam)), IdOf(Str(roomParam)), checkIn.value, checkOut.value);
      NoConflictIds(reservations, IdOf(Str(hotelParam)), IdOf(Str(roomParam)), checkIn.value, checkOut.value);
      Ok(Availability(|ids| == 0, |ids|))
  }

  /** For well-formed stays the three clauses are exactly half-open interval overlap. */
  lemma ClausesAreHalfOpenOverlap(r: Reservation, checkIn: int, checkOut: int)
    requires r.checkIn < r.checkOut && checkIn < checkOut
    ensures ClausesHold(r, checkIn, checkOut) <==> r.checkIn < checkOut && r.checkOut > checkIn
  {
  }

  /** A stay that ends on the requested check-in day, or starts on the requested
      check-out day, does not conflict. */
  lemma BackToBackStaysDoNotConflict(r: Reservation, checkIn: int, checkOut: int)
    requires r.checkIn < r.checkOut && checkIn < checkOut
    requires r.checkOut == checkIn || r.checkIn == checkOut
    ensures !ClausesHold(r, checkIn, checkOut)
  {
  }

  /** Cancelled and completed reservations never count. */
  lemma ReleasedStaysNeverConflict(r: Reservation, hotel: Option<nat>, room: Option<nat>, checkIn: int, checkOut: int)
    requires r.status == Str("cancelled") || r.status == Str("completed")
    ensures !Conflicts(r, hotel, room, checkIn, checkOut)
  {
  }

  /** The third clause alone makes an empty stay conflict with a stay that ends
      on its day: the equivalence above needs the stored stay to be well formed. */
  lemma EmptyStoredStayConflicts(r: Reservation, checkIn: int, checkOut: int)
    requires r.checkIn == r.checkOut == checkOut && checkIn < checkOut
    ensures ClausesHold(r, checkIn, checkOut)
    ensures !(r.checkIn < checkOut && r.checkOut > checkIn)
  {
  }

  /* ---------- GET /api/reservations/:id ---------- */

  datatype LookupError = NotFound

  function GetReservation(hotels: map<nat, Hotel>, roomTypes: map<nat, RoomType>,
                          reservations: map<nat, Reservation>, idParam: string): (r: Result<Reservation, LookupError>)
    ensures r.Ok? <==> exists id :: IdOf(Str(idParam)) == Some(id) && id in reservations &&
                                   Joined(hotels, roomTypes, reservations[id])
    ensures r.Ok? ==> r.value == reservations[IdOf(Str(idParam)).value]
  {
    match IdOf(Str(idParam))
    case None => Err(NotFound)
    case Some(id) =>
      if id in reservations && Joined(hotels, roomTypes, reservations[id]) then Ok(reservations[id])
      else Err(NotFound)
  }

  /* ---------- POST /api/reservations ---------- */

  /** The fields of the request body the handler reads; dates are day numbers,
      None when absent or empty. */
  datatype CreateBody = CreateBody(
    hotelId: JsVal, roomTypeId: JsVal, guestName: JsVal, guestEmail: JsVal,
    guestPhone: JsVal, guestDocument: JsVal, checkIn: Option<int>, checkOut: Option<int>,
    numberOfGuests: JsVal, totalAmount: JsVal, specialRequests: JsVal)

  /** The reasons for a 400 answer, in the order the handler checks them. */
  datatype CreateError = MissingFields | HotelNotFound | RoomTypeNotFound | CheckInInPast | CheckOutNotAfterCheckIn

  predicate RequiredPresent(b: CreateBody) {
    Truthy(b.hotelId) && Truthy(b.roomTypeId) && Truthy(b.guestName) && Truthy(b.guestEmail) &&
    b.checkIn.Some? && b.checkOut.Some? && Truthy(b.totalAmount)
  }

  predicate HotelFound(hotels: map<nat, Hotel>, b: CreateBody) {
    IdOf(b.hotelId).Some? && IdOf(b.hotelId).value in hotels
  }

  /** `SELECT id FROM room_types WHERE id = ? AND hotel_id = ?`. */
  predicate RoomTypeFound(roomTypes: map<nat, RoomType>, b: CreateBody) {
    IdOf(b.roomTypeId).Some? && IdOf(b.roomTypeId).value in roomTypes &&
    Some(roomTypes[IdOf(b.roomTypeId).value].hotelId) == IdOf(b.hotelId)
  }

  /** The row the INSERT writes. */
  function NewRow(b: CreateBody, statusDefault: JsVal, now: int): (r: Reservation)
    requires IdOf(b.hotelId).Some? && IdOf(b.roomTypeId).Some? && b.checkIn.Some? && b.checkOut.Some?
    ensures r.numberOfGuests == (if Truthy(b.numberOfGuests) then b.numberOfGuests else Num(1))
    ensures r.status == statusDefault
    ensures r.checkIn == b.checkIn.value && r.checkOut == b.checkOut.value
    ensures r.hotelId == IdOf(b.hotelId).value && r.roomTypeId == IdOf(b.roomTypeId).value
    ensures r.guestName == b.guestName && r.guestEmail == b.guestEmail && r.totalAmount == b.totalAmount
    ensures r.guestPhone == AsColumn(b.guestPhone) && r.guestDocument == AsColumn(b.guestDocument)
    ensures r.specialRequests == AsColumn(b.specialRequests)
    ensures r.createdAt == now && r.updatedAt == now
  {
    Reservation(IdOf(b.hotelId).value, IdOf(b.roomTypeId).value, b.guestName, b.guestEmail,
                AsColumn(b.guestPhone), AsColumn(b.guestDocument), b.checkIn.value, b.checkOut.value,
                Or(b.numberOfGuests, Num(1)), b.totalAmount, statusDefault,
                AsColumn(b.specialRequests), now, now)
  }

  /** The checks of the create handler, in order; `today` is the server's date.
      The existing reservations are not an input: availability is not consulted. */
  function ValidateCreate(hotels: map<nat, Hotel>, roomTypes: map<nat, RoomType>, b: CreateBody,
                          today: int): (r: Result<(), CreateError>)
    ensures r == Err(MissingFields) <==> !RequiredPresent(b)
    ensures r == Err(HotelNotFound) <==> RequiredPresent(b) && !HotelFound(hotels, b)
    ensures r == Err(RoomTypeNotFound) <==>
              RequiredPresent(b) && HotelFound(hotels, b) && !RoomTypeFound(roomTypes, b)
    ensures r == Err(CheckInInPast) <==>
              RequiredPresent(b) && HotelFound(hotels, b) && RoomTypeFound(roomTypes, b) &&
              b.checkIn.value < today
    ensures r.Ok? <==>
              RequiredPresent(b) && HotelFound(hotels, b) && RoomTypeFound(roomTypes, b) &&
              today <= b.checkIn.value < b.checkOut.value
  {
    if !RequiredPresent(b) then Err(MissingFields)
    else if !HotelFound(hotels, b) then Err(HotelNotFound)
    else if !RoomTypeFound(roomTypes, b) then Err(RoomTypeNotFound)
    else if b.checkIn.value < today then Err(CheckInInPast)
    else if b.checkOut.value <= b.checkIn.value then Err(CheckOutNotAfterCheckIn)
    else Ok(())
  }

  /** A total of 0 counts as a missing field. */
  lemma ZeroTotalIsMissing(hotels: map<nat, Hotel>, roomTypes: map<nat, RoomType>, b: CreateBody, today: int)
    requires b.totalAmount == Num(0)
    ensures ValidateCreate(hotels, roomTypes, b, today) == Err(MissingFields)
  {
  }

  /** Creation accepts a stay that the availability query reports as taken: a
      body that passes the checks passes them whatever reservations hold its room. */
  lemma CreateIgnoresAvailability(hotels: map<nat, Hotel>, roomTypes: map<nat, RoomType>,
                                  reservations: map<nat, Reservation>, b: CreateBody, today: int,
                                  hotelParam: string, roomParam: string, taken: nat)
    requires RequiredPresent(b) && HotelFound(hotels, b) && RoomTypeFound(roomTypes, b)
    requires today <= b.checkIn.value < b.checkOut.value
    requires IdOf(Str(hotelParam)) == IdOf(b.hotelId) && IdOf(Str(roomParam)) == IdOf(b.roomTypeId)
    requires taken in reservations &&
             Conflicts(reservations[taken], IdOf(b.hotelId), IdOf(b.roomTypeId), b.checkIn.value, b.checkOut.value)
    ensures ValidateCreate(hotels, roomTypes, b, today).Ok?
    ensures CheckAvailability(reservations, hotelParam, roomParam, b.checkIn, b.checkOut).Ok?
    ensures !CheckAvailability(reservations, hotelParam, roomParam, b.checkIn, b.checkOut).value.available
  {
  }

  /** POST /api/reservations. On success exactly one row is added. */
  method CreateReservation(db: Database, b: CreateBody, today: int, now: int) returns (res: Result<nat, CreateError>)
    requires db.Valid()
    modifies db`reservations, db`nextReservationId
    ensures db.Valid()
    ensures res.Ok? <==> ValidateCreate(db.hotels, db.roomTypes, b, today).Ok?
    ensures res.Err? ==> res.error == ValidateCreate(db.hotels, db.roomTypes, b, today).error &&
                         db.reservations == old(db.reservations)
    ensures res.Ok? ==> res.value !in old(db.reservations) &&
                        db.reservations == old(db.reservations)[res.value := NewRow(b, db.statusDefault, now)]
  {
    var v := ValidateCreate(db.hotels, db.roomTypes, b, today);
    if v.Err? {
      return Err(v.error);
    }
    var id := db.InsertReservation(NewRow(b, db.statusDefault, now));
    return Ok(id);
  }

  /* ---------- PUT /api/reservations/:id ---------- */

  datatype UpdateBody = UpdateBody(
    guestName: JsVal, guestEmail: JsVal, guestPhone: JsVal, guestDocument: JsVal,
    checkIn: Option<int>, checkOut: Option<int>, numberOfGuests: JsVal, totalAmount: JsVal,
    status: JsVal, specialRequests: JsVal)

  datatype UpdateError = UpdateNotFound | InvalidStatus | UpdateCheckOutNotAfterCheckIn

  predicate ValidStatus(v: JsVal) {
    v == Str("pending") || v == Str("confirmed") || v == Str("cancelled") || v == Str("completed")
  }

  /** `COALESCE(?, column)` for a date column. */
  function CoalesceDate(d: Option<int>, stored: int): (r: int)
    ensures d.None? ==> r == stored
    ensures d.Some? ==> r == d.value
  {
    if d.Some? then d.value else stored
  }

  /** The row after the UPDATE: every column the body names keeps its stored value
      when the body's value is NULL and takes the body's value otherwise; hotel,
      room type and creation time are never touched. */
  function ApplyUpdate(old_: Reservation, b: UpdateBody, now: int): (r: Reservation)
    ensures r.hotelId == old_.hotelId && r.roomTypeId == old_.roomTypeId && r.createdAt == old_.createdAt
    ensures r.updatedAt == now
    ensures r.guestName == Coalesce(b.guestName, old_.guestName)
    ensures r.guestEmail == Coalesce(b.guestEmail, old_.guestEmail)
    ensures r.guestPhone == Coalesce(b.guestPhone, old_.guestPhone)
    ensures r.guestDocument == Coalesce(b.guestDocument, old_.guestDocument)
    ensures r.checkIn == CoalesceDate(b.checkIn, old_.checkIn)
    ensures r.checkOut == CoalesceDate(b.checkOut, old_.checkOut)
    ensures r.numberOfGuests == Coalesce(b.numberOfGuests, old_.numberOfGuests)
    ensures r.totalAmount == Coalesce(b.totalAmount, old_.totalAmount)
    ensures r.status == Coalesce(b.status, old_.status)
    ensures r.specialRequests == Coalesce(b.specialRequests, old_.specialRequests)
  {
    old_.(guestName := Coalesce(b.guestName, old_.guestName),
          guestEmail := Coalesce(b.guestEmail, old_.guestEmail),
          guestPhone := Coalesce(b.guestPhone, old_.guestPhone),
          guestDocument := Coalesce(b.guestDocument, old_.guestDocument),
          checkIn := CoalesceDate(b.checkIn, old_.checkIn),
          checkOut := CoalesceDate(b.checkOut, old_.checkOut),
          numberOfGuests := Coalesce(b.numberOfGuests, old_.numberOfGuests),
          totalAmount := Coalesce(b.totalAmount, old_.totalAmount),
          status := Coalesce(b.status, old_.status),
          specialRequests := Coalesce(b.specialRequests, old_.specialRequests),
          updatedAt := now)
  }

  /** An update whose fields are all null changes nothing but the update time. */
  lemma EmptyUpdateKeepsRow(old_: Reservation, now: int)
    ensures ApplyUpdate(old_, UpdateBody(Undefined, Null, Undefined, Null, None, None, Undefined,
                                         Null, Undefined, Null), now) == old_.(updatedAt := now)
  {
  }

  /** An update that gives every column replaces all of them; hotel, room type
      and creation time still stay. */
  lemma FullUpdateReplacesRow(old_: Reservation, b: UpdateBody, now: int)
    requires !IsNullish(b.guestName) && !IsNullish(b.guestEmail) && !IsNullish(b.guestPhone) &&
             !IsNullish(b.guestDocument) && b.checkIn.Some? && b.checkOut.Some? &&
             !IsNullish(b.numberOfGuests) && !IsNullish(b.totalAmount) && !IsNullish(b.status) &&
             !IsNullish(b.specialRequests)
    ensures ApplyUpdate(old_, b, now) ==
              Reservation(old_.hotelId, old_.roomTypeId, b.guestName, b.guestEmail, b.guestPhone, b.guestDocument,
                          b.checkIn.value, b.checkOut.value, b.numberOfGuests, b.totalAmount, b.status,
                          b.specialRequests, old_.createdAt, now)
  {
  }

  /** Applying the same update twice is the same as applying it once. */
  lemma ApplyUpdateIdempotent(old_: Reservation, b: UpdateBody, now: int)
    ensures ApplyUpdate(ApplyUpdate(old_, b, now), b, now) == ApplyUpdate(old_, b, now)
  {
  }

  /** The checks of the update handler, in order. */
  function ValidateUpdate(reservations: map<nat, Reservation>, idParam: string, b: UpdateBody): (r: Result<nat, UpdateError>)
    ensures r == Err(UpdateNotFound) <==> IdOf(Str(idParam)).None? || IdOf(Str(idParam)).value !in reservations
    ensures r == Err(InvalidStatus) <==>
              IdOf(Str(idParam)).Some? && IdOf(Str(idParam)).value in reservations &&
              Truthy(b.status) && !ValidStatus(b.status)
    ensures r.Ok? <==>
              IdOf(Str(idParam)).Some? && IdOf(Str(idParam)).value in reservations &&
              (Truthy(b.status) ==> ValidStatus(b.status)) &&
              (b.checkIn.Some? && b.checkOut.Some? ==> b.checkIn.value < b.checkOut.value)
    ensures r.Ok? ==> Some(r.value) == IdOf(Str(idParam))
  {
    match IdOf(Str(idParam))
    case None => Err(UpdateNotFound)
    case Some(id) =>
      if id !in reservations then Err(UpdateNotFound)
      else if Truthy(b.status) && !ValidStatus(b.status) then Err(InvalidStatus)
      else if b.checkIn.Some? && b.checkOut.Some? && b.checkOut.value <= b.checkIn.value then
        Err(UpdateCheckOutNotAfterCheckIn)
      else Ok(id)
  }

  /** Any allowed status may replace any other: there is no transition rule. */
  lemma AnyStatusMayFollowAny(reservations: map<nat, Reservation>, idParam: string, b: UpdateBody)
    requires IdOf(Str(idParam)).Some? && IdOf(Str(idParam)).value in reservations
    requires ValidStatus(b.status) && b.checkIn.None? && b.checkOut.None?
    ensures ValidateUpdate(reservations, idParam, b).Ok?
    ensures ApplyUpdate(reservations[IdOf(Str(idParam)).value], b, 0).status == b.status
  {
  }

  /** The date check runs only when both dates are sent, so an update that sends
      only a check-out date before the stored check-in passes and stores a stay
      that ends before it starts. */
  lemma UpdateCanInvertStay(reservations: map<nat, Reservation>, idParam: string, b: UpdateBody, now: int)
    requires IdOf(Str(idParam)).Some? && IdOf(Str(idParam)).value in reservations
    requires !Truthy(b.status) || ValidStatus(b.status)
    requires b.checkIn.None? && b.checkOut.Some? &&
             b.checkOut.value < reservations[IdOf(Str(idParam)).value].checkIn
    ensures ValidateUpdate(reservations, idParam, b).Ok?
    ensures ApplyUpdate(reservations[IdOf(Str(idParam)).value], b, now).checkOut <
            ApplyUpdate(reservations[IdOf(Str(idParam)).value], b, now).checkIn
  {
  }

  /** A falsy status such as "" passes validation, and COALESCE stores it. */
  lemma EmptyStatusIsStored(reservations: map<nat, Reservation>, idParam: string, b: UpdateBody)
    requires IdOf(Str(idParam)).Some? && IdOf(Str(idParam)).value in reservations
    requires b.status == Str("") && b.checkIn.None?
    ensures ValidateUpdate(reservations, idParam, b).Ok?
    ensures ApplyUpdate(reservations[IdOf(Str(idParam)).value], b, 0).status == Str("")
  {
  }

  /** PUT /api/reservations/:id: only the addressed row changes. */
  method UpdateReservation(db: Database, idParam: string, b: UpdateBody, now: int) returns (res: Result<nat, UpdateError>)
    requires db.Valid()
    modifies db`reservations
    ensures db.Valid()
    ensures res == ValidateUpdate(old(db.reservations), idParam, b)
    ensures res.Err? ==> db.reservations == old(db.reservations)
    ensures res.Ok? ==> db.reservations == old(db.reservations)[res.value := ApplyUpdate(old(db.reservations)[res.value], b, now)]
  {
    res := ValidateUpdate(db.reservations, idParam, b);
    if res.Ok? {
      db.reservations := db.reservations[res.value := ApplyUpdate(db.reservations[res.value], b, now)];
    }
  }

  /* ---------- DELETE /api/reservations/:id ---------- */

  /** DELETE /api/reservations/:id: exactly the addressed row is removed. */
  method DeleteReservation(db: Database, idParam: string) returns (res: Result<nat, LookupError>)
    requires db.Valid()
    modifies db`reservations
    ensures db.Valid()
    ensures res.Err? <==> IdOf(Str(idParam)).None? || IdOf(Str(idParam)).value !in old(db.reservations)
    ensures res.Err? ==> db.reservations == old(db.reservations)
    ensures res.Ok? ==> Some(res.value) == IdOf(Str(idParam)) &&
                        db.reservations == old(db.reservations) - {res.value}
  {
    var id := IdOf(Str(idParam));
    if id.None? || id.value !in db.reservations {
      return Err(NotFound);
    }
    db.reservations := db.reservations - {id.value};
    return Ok(id.value);
  }
}
