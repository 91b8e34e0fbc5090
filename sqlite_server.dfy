/** The handlers of api/sqlite-server.js over the SQLite store: lookups through
    inner JOINs, inserts without validation, the field-by-field merge of PUT
    hotel, the full overwrite of PUT room, the COALESCE merge and status checks
    of PUT and PATCH reservation, and deletes that refuse while rows refer to
    the target. */
module SqliteServer {
  import opened Wrappers
  import opened Js
  import opened SqliteStore

  datatype SqliteError = NotFound | InvalidStatus | HasRoomTypes | HasReservations | ServerError

  datatype HotelBody = HotelBody(
    name: JsVal, address: JsVal, city: JsVal, state: JsVal, zipCode: JsVal,
    phone: JsVal, email: JsVal, website: JsVal, description: JsVal, amenities: JsVal)

  datatype RoomBody = RoomBody(
    hotelId: JsVal, name: JsVal, description: JsVal, sizeSqm: JsVal, bedType: JsVal,
    bedCount: JsVal, maxOccupancy: JsVal, amenities: JsVal, bathroomType: JsVal,
    smokingAllowed: JsVal, pricePerNight: JsVal)

  datatype ReservationBody = ReservationBody(
    hotelId: JsVal, roomTypeId: JsVal, guestName: JsVal, guestEmail: JsVal,
    guestPhone: JsVal, guestDocument: JsVal, checkIn: JsVal, checkOut: JsVal,
    numberOfGuests: JsVal, totalAmount: JsVal, specialRequests: JsVal, status: JsVal)

  /* ---------- reads through JOINs ---------- */

  /** `amenities ? JSON.parse(amenities) : []`. */
  function ParsedAmenities(a: Option<JsVal>): (r: JsVal)
    ensures a.None? ==> r == Arr([])
    ensures a.Some? ==> r == a.value
  {
    if a.Some? then a.value else Arr([])
  }

  /** The room types an inner JOIN with hotels keeps. */
  function JoinedRoomTypes(hotels: map<nat, SHotel>, roomTypes: map<nat, SRoomType>): (ids: set<nat>)
    ensures ids <= roomTypes.Keys
    ensures forall id :: id in roomTypes ==>
              (id in ids <==> IdOf(roomTypes[id].hotelId).Some? && IdOf(roomTypes[id].hotelId).value in hotels)
  {
    set id | id in roomTypes && IdOf(roomTypes[id].hotelId).Some? && IdOf(roomTypes[id].hotelId).value in hotels
  }

  /** GET /api/hotels/:hotelId/rooms: the joined room types whose hotel is the parameter. */
  function RoomTypesOfHotelRoute(hotels: map<nat, SHotel>, roomTypes: map<nat, SRoomType>, hotelParam: string): (ids: set<nat>)
    ensures ids <= JoinedRoomTypes(hotels, roomTypes)
    ensures forall id :: id in ids ==> IdOf(roomTypes[id].hotelId) == IdOf(Str(hotelParam))
    ensures forall id :: (id in JoinedRoomTypes(hotels, roomTypes) &&
                          IdOf(roomTypes[id].hotelId) == IdOf(Str(hotelParam))) ==> id in ids
    ensures IdOf(Str(hotelParam)).None? || IdOf(Str(hotelParam)).value !in hotels ==> ids == {}
  {
    set id | id in JoinedRoomTypes(hotels, roomTypes) && IdOf(roomTypes[id].hotelId) == IdOf(Str(hotelParam))
  }

  /** The reservations the JOIN with hotels and room types keeps. */
  predicate ReservationJoined(hotels: map<nat, SHotel>, roomTypes: map<nat, SRoomType>, r: SReservation) {
    IdOf(r.hotelId).Some? && IdOf(r.hotelId).value in hotels &&
    IdOf(r.roomTypeId).Some? && IdOf(r.roomTypeId).value in roomTypes
  }

  /** GET /api/reservations (the handler that answers it): every joined reservation. */
  function JoinedReservations(hotels: map<nat, SHotel>, roomTypes: map<nat, SRoomType>,
                              reservations: map<nat, SReservation>): (ids: set<nat>)
    ensures ids <= reservations.Keys
    ensures forall id :: id in reservations ==> (id in ids <==> ReservationJoined(hotels, roomTypes, reservations[id]))
  {
    set id | id in reservations && ReservationJoined(hotels, roomTypes, reservations[id])
  }

  /** In a linked store the JOINs lose nothing. */
  lemma {:induction false} LinkedJoinsKeepAll(hotels: map<nat, SHotel>, roomTypes: map<nat, SRoomType>,
                                              reservations: map<nat, SReservation>)
    requires Linked(hotels, roomTypes, reservations)
    ensures JoinedRoomTypes(hotels, roomTypes) == roomTypes.Keys
    ensures JoinedReservations(hotels, roomTypes, reservations) == reservations.Keys
  {
    assert forall id :: id in roomTypes ==> id in JoinedRoomTypes(hotels, roomTypes);
    assert forall id :: id in reservations ==> id in JoinedReservations(hotels, roomTypes, reservations);
  }

  function GetHotel(hotels: map<nat, SHotel>, idParam: string): (r: Result<SHotel, SqliteError>)
    ensures r.Ok? <==> IdOf(Str(idParam)).Some? && IdOf(Str(idParam)).value in hotels
    ensures r.Ok? ==> r.value == hotels[IdOf(Str(idParam)).value]
    ensures r.Err? ==> r.error == NotFound
  {
    var id := IdOf(Str(idParam));
    if id.Some? && id.value in hotels then Ok(hotels[id.value]) else Err(NotFound)
  }

  /** GET /api/rooms/:id: 404 also for a room type whose hotel is missing. */
  function GetRoomType(hotels: map<nat, SHotel>, roomTypes: map<nat, SRoomType>, idParam: string): (r: Result<SRoomType, SqliteError>)
    ensures r.Ok? <==> IdOf(Str(idParam)).Some? && IdOf(Str(idParam)).value in JoinedRoomTypes(hotels, roomTypes)
    ensures r.Ok? ==> r.value == roomTypes[IdOf(Str(idParam)).value]
    ensures r.Err? ==> r.error == NotFound
  {
    var id := IdOf(Str(idParam));
    if id.Some? && id.value in JoinedRoomTypes(hotels, roomTypes) then Ok(roomTypes[id.value]) else Err(NotFound)
  }

  /** GET /api/reservations/:id: 404 also for a reservation whose hotel or room type is missing. */
  function GetReservation(hotels: map<nat, SHotel>, roomTypes: map<nat, SRoomType>,
                          reservations: map<nat, SReservation>, idParam: string): (r: Result<SReservation, SqliteError>)
    ensures r.Ok? <==> IdOf(Str(idParam)).Some? && IdOf(Str(idParam)).value in reservations &&
                       ReservationJoined(hotels, roomTypes, reservations[IdOf(Str(idParam)).value])
    ensures r.Ok? ==> r.value == reservations[IdOf(Str(idParam)).value]
    ensures r.Err? ==> r.error == NotFound
  {
    var id := IdOf(Str(idParam));
    if id.Some? && id.value in reservations && ReservationJoined(hotels, roomTypes, reservations[id.value])
    then Ok(reservations[id.value]) else Err(NotFound)
  }

  /* ---------- creates: no validation beyond the schema ---------- */

  /** POST /api/hotels: the values as sent, amenities `|| []`. */
  function NewHotel(b: HotelBody, now: int): (h: SHotel)
    ensures h.amenities == Some(if Truthy(b.amenities) then b.amenities else Arr([]))
    ensures h.name == AsColumn(b.name) && h.address == AsColumn(b.address) && h.city == AsColumn(b.city)
    ensures h.state == AsColumn(b.state) && h.description == AsColumn(b.description)
    ensures h.zipCode == AsColumn(b.zipCode) && h.phone == AsColumn(b.phone)
    ensures h.email == AsColumn(b.email) && h.website == AsColumn(b.website)
    ensures h.createdAt == now && h.updatedAt == now
  {
    SHotel(AsColumn(b.name), AsColumn(b.address), AsColumn(b.city), AsColumn(b.state), AsColumn(b.zipCode),
           AsColumn(b.phone), AsColumn(b.email), AsColumn(b.website), AsColumn(b.description),
           Some(Or(b.amenities, Arr([]))), now, now)
  }

  /** POST /api/hotels: one insert, or a server error from a NOT NULL column. */
  method CreateHotel(db: SqliteDatabase, b: HotelBody, now: int) returns (res: Result<nat, SqliteError>)
    requires db.Valid()
    modifies db`hotels, db`nextHotelId
    ensures db.Valid()
    ensures res.Ok? <==> HotelNotNull(NewHotel(b, now))
    ensures res.Err? ==> res.error == ServerError && db.hotels == old(db.hotels)
    ensures res.Ok? ==> res.value !in old(db.hotels) && db.hotels == old(db.hotels)[res.value := NewHotel(b, now)]
  {
    var row := NewHotel(b, now);
    if !HotelNotNull(row) {
      return Err(ServerError);
    }
    var id := db.InsertHotel(row);
    return Ok(id);
  }

  /** The room row POST and PUT write: every value as sent, amenities `|| []`,
      the smoking flag by truthiness. */
  function RoomFromBody(b: RoomBody, created: int, now: int): (r: SRoomType)
    ensures r.hotelId == AsColumn(b.hotelId) && r.name == AsColumn(b.name)
    ensures r.bedCount == AsColumn(b.bedCount) && r.maxOccupancy == AsColumn(b.maxOccupancy)
    ensures r.amenities == (if Truthy(b.amenities) then b.amenities else Arr([]))
    ensures r.smokingAllowed == (if Truthy(b.smokingAllowed) then 1 else 0)
    ensures r.description == AsColumn(b.description) && r.sizeSqm == AsColumn(b.sizeSqm)
    ensures r.bedType == AsColumn(b.bedType) && r.bathroomType == AsColumn(b.bathroomType)
    ensures r.pricePerNight == AsColumn(b.pricePerNight)
    ensures r.createdAt == created && r.updatedAt == now
  {
    SRoomType(AsColumn(b.hotelId), AsColumn(b.name), AsColumn(b.description), AsColumn(b.sizeSqm),
              AsColumn(b.bedType), AsColumn(b.bedCount), AsColumn(b.maxOccupancy), Or(b.amenities, Arr([])),
              AsColumn(b.bathroomType), if Truthy(b.smokingAllowed) then 1 else 0, AsColumn(b.pricePerNight),
              created, now)
  }

  /** The hotel a written room row is joined with, if it exists. */
  predicate HotelExists(hotels: map<nat, SHotel>, v: JsVal) {
    IdOf(v).Some? && IdOf(v).value in hotels
  }

  /** POST /api/rooms: the row is inserted whatever `hotel_id` names; when the
      JOIN then finds no hotel, reading the missing row fails and the client
      gets a server error although the room type was written. */
  method CreateRoomType(db: SqliteDatabase, b: RoomBody, now: int) returns (res: Result<nat, SqliteError>, written: Option<nat>)
    requires db.Valid()
    modifies db`roomTypes, db`nextRoomTypeId
    ensures db.Valid()
    ensures written.None? <==> !RoomTypeNotNull(RoomFromBody(b, now, now))
    ensures written.None? ==> res == Err(ServerError) && db.roomTypes == old(db.roomTypes)
    ensures written.Some? ==> written.value !in old(db.roomTypes) &&
                              db.roomTypes == old(db.roomTypes)[written.value := RoomFromBody(b, now, now)]
    ensures written.Some? ==> (res.Ok? <==> HotelExists(db.hotels, b.hotelId))
    ensures res.Ok? ==> Some(res.value) == written
    ensures res.Err? ==> res.error == ServerError
  {
    var row := RoomFromBody(b, now, now);
    if !RoomTypeNotNull(row) {
      return Err(ServerError), None;
    }
    var id := db.InsertRoomType(row);
    if !HotelExists(db.hotels, row.hotelId) {
      return Err(ServerError), Some(id);
    }
    return Ok(id), Some(id);
  }

  /** POST /api/reservations: the values as sent, status 'pending' only when absent. */
  function NewReservation(b: ReservationBody, now: int): (r: SReservation)
    ensures r.status == (if b.status.Undefined? then Str("pending") else b.status)
    ensures r.hotelId == AsColumn(b.hotelId) && r.roomTypeId == AsColumn(b.roomTypeId)
    ensures r.checkIn == AsColumn(b.checkIn) && r.checkOut == AsColumn(b.checkOut)
    ensures r.totalAmount == AsColumn(b.totalAmount) && r.numberOfGuests == AsColumn(b.numberOfGuests)
    ensures r.guestName == AsColumn(b.guestName) && r.guestEmail == AsColumn(b.guestEmail)
    ensures r.guestPhone == AsColumn(b.guestPhone) && r.guestDocument == AsColumn(b.guestDocument)
    ensures r.specialRequests == AsColumn(b.specialRequests)
    ensures r.createdAt == now && r.updatedAt == now
  {
    SReservation(AsColumn(b.hotelId), AsColumn(b.roomTypeId), AsColumn(b.guestName), AsColumn(b.guestEmail),
                 AsColumn(b.guestPhone), AsColumn(b.guestDocument), AsColumn(b.checkIn), AsColumn(b.checkOut),
                 AsColumn(b.numberOfGuests), AsColumn(b.totalAmount), AsColumn(b.specialRequests),
                 if b.status.Undefined? then Str("pending") else b.status, now, now)
  }

  /** POST /api/reservations: inserted without any check on hotel, room,
      dates, guests or availability; only NOT NULL columns can refuse it. The
      answer is 201 even when the JOIN finds nothing to return. */
  method CreateReservation(db: SqliteDatabase, b: ReservationBody, now: int) returns (res: Result<nat, SqliteError>)
    requires db.Valid()
    modifies db`reservations, db`nextReservationId
    ensures db.Valid()
    ensures res.Ok? <==> ReservationNotNull(NewReservation(b, now))
    ensures res.Err? ==> res.error == ServerError && db.reservations == old(db.reservations)
    ensures res.Ok? ==> res.value !in old(db.reservations) &&
                        db.reservations == old(db.reservations)[res.value := NewReservation(b, now)]
  {
    var row := NewReservation(b, now);
    if !ReservationNotNull(row) {
      return Err(ServerError);
    }
    var id := db.InsertReservation(row);
    return Ok(id);
  }

  /** A reservation naming a hotel that does not exist is accepted whenever its
      NOT NULL columns are given, and the row then breaks the store's referential links. */
  lemma {:induction false} CreateAcceptsUnknownHotel(hotels: map<nat, SHotel>, roomTypes: map<nat, SRoomType>,
                                                     reservations: map<nat, SReservation>, b: ReservationBody,
                                                     key: nat, now: int)
    requires !IsNullish(b.hotelId) && !IsNullish(b.roomTypeId) && !IsNullish(b.guestName) &&
             !IsNullish(b.guestEmail) && !IsNullish(b.checkIn) && !IsNullish(b.checkOut) &&
             !IsNullish(b.numberOfGuests) && !IsNullish(b.totalAmount)
    requires IdOf(b.hotelId).None? || IdOf(b.hotelId).value !in hotels
    ensures ReservationNotNull(NewReservation(b, now))
    ensures !Linked(hotels, roomTypes, reservations[key := NewReservation(b, now)])
  {
    assert key in reservations[key := NewReservation(b, now)];
  }

  /* ---------- PUT /api/hotels/:id: merge ---------- */

  /** Each field the body leaves undefined keeps its stored value; each field it
      supplies, `null` included, replaces it. Stored amenities that are NULL
      become `[]`. */
  function MergeHotel(stored: SHotel, b: HotelBody, now: int): (h: SHotel)
    ensures b.name.Undefined? ==> h.name == stored.name
    ensures !b.name.Undefined? ==> h.name == b.name
    ensures b.address.Undefined? ==> h.address == stored.address
    ensures !b.address.Undefined? ==> h.address == b.address
    ensures b.city.Undefined? ==> h.city == stored.city
    ensures !b.city.Undefined? ==> h.city == b.city
    ensures b.state.Undefined? ==> h.state == stored.state
    ensures !b.state.Undefined? ==> h.state == b.state
    ensures b.zipCode.Undefined? ==> h.zipCode == stored.zipCode
    ensures !b.zipCode.Undefined? ==> h.zipCode == b.zipCode
    ensures b.phone.Undefined? ==> h.phone == stored.phone
    ensures !b.phone.Undefined? ==> h.phone == b.phone
    ensures b.email.Undefined? ==> h.email == stored.email
    ensures !b.email.Undefined? ==> h.email == b.email
    ensures b.website.Undefined? ==> h.website == stored.website
    ensures !b.website.Undefined? ==> h.website == b.website
    ensures b.description.Undefined? ==> h.description == stored.description
    ensures !b.description.Undefined? ==> h.description == b.description
    ensures h.amenities == Some(if b.amenities.Undefined? then ParsedAmenities(stored.amenities) else b.amenities)
    ensures h.createdAt == stored.createdAt && h.updatedAt == now
  {
    SHotel(IfDefined(b.name, stored.name), IfDefined(b.address, stored.address), IfDefined(b.city, stored.city),
           IfDefined(b.state, stored.state), IfDefined(b.zipCode, stored.zipCode), IfDefined(b.phone, stored.phone),
           IfDefined(b.email, stored.email), IfDefined(b.website, stored.website),
           IfDefined(b.description, stored.description),
           Some(IfDefined(b.amenities, ParsedAmenities(stored.amenities))), stored.createdAt, now)
  }

  /** Merging the same body twice is merging it once. */
  lemma {:induction false} MergeHotelIdempotent(stored: SHotel, b: HotelBody, now: int)
    ensures MergeHotel(MergeHotel(stored, b, now), b, now) == MergeHotel(stored, b, now)
  {
  }

  /** An empty body changes nothing but the timestamp (and a NULL amenities column, which becomes `[]`). */
  lemma {:induction false} EmptyMergeKeepsHotel(stored: SHotel, now: int)
    requires stored.amenities.Some?
    ensures var e := HotelBody(Undefined, Undefined, Undefined, Undefined, Undefined,
                               Undefined, Undefined, Undefined, Undefined, Undefined);
            MergeHotel(stored, e, now) == stored.(updatedAt := now)
  {
  }

  /** A merged row keeps the NOT NULL columns filled unless the body nulls one. */
  lemma {:induction false} MergeKeepsNotNull(stored: SHotel, b: HotelBody, now: int)
    requires HotelNotNull(stored)
    requires !b.name.Null? && !b.address.Null? && !b.city.Null?
    ensures HotelNotNull(MergeHotel(stored, b, now))
  {
  }

  /** PUT /api/hotels/:id: 404 for a missing hotel, a server error when the merge
      nulls a NOT NULL column, otherwise the merged row. */
  method UpdateHotel(db: SqliteDatabase, idParam: string, b: HotelBody, now: int) returns (res: Result<nat, SqliteError>)
    requires db.Valid()
    modifies db`hotels
    ensures db.Valid()
    ensures res == Err(NotFound) <==> IdOf(Str(idParam)).None? || IdOf(Str(idParam)).value !in old(db.hotels)
    ensures res == Err(ServerError) <==> IdOf(Str(idParam)).Some? && IdOf(Str(idParam)).value in old(db.hotels) &&
                                          !HotelNotNull(MergeHotel(old(db.hotels)[IdOf(Str(idParam)).value], b, now))
    ensures res.Err? ==> db.hotels == old(db.hotels)
    ensures res.Ok? ==> Some(res.value) == IdOf(Str(idParam)) &&
                        db.hotels == old(db.hotels)[res.value := MergeHotel(old(db.hotels)[res.value], b, now)]
  {
    var id := IdOf(Str(idParam));
    if id.None? || id.value !in db.hotels {
      return Err(NotFound);
    }
    var row := MergeHotel(db.hotels[id.value], b, now);
    if !HotelNotNull(row) {
      return Err(ServerError);
    }
    db.hotels := db.hotels[id.value := row];
    return Ok(id.value);
  }

  /* ---------- PUT /api/rooms/:id: overwrite ---------- */

  /** PUT /api/rooms/:id: 404 for a missing room; otherwise every column,
      hotel_id included, is overwritten from the body (no merge). When the
      written hotel_id names no hotel the update stays but the answer is a
      server error. */
  method UpdateRoomType(db: SqliteDatabase, idParam: string, b: RoomBody, now: int) returns (res: Result<nat, SqliteError>)
    requires db.Valid()
    modifies db`roomTypes
    ensures db.Valid()
    ensures res == Err(NotFound) <==> IdOf(Str(idParam)).None? || IdOf(Str(idParam)).value !in old(db.roomTypes)
    ensures res == Err(NotFound) || !RoomTypeNotNull(RoomFromBody(b, 0, now)) ==> db.roomTypes == old(db.roomTypes)
    ensures res.Ok? ==> Some(res.value) == IdOf(Str(idParam)) && HotelExists(db.hotels, b.hotelId)
    ensures res != Err(NotFound) && RoomTypeNotNull(RoomFromBody(b, 0, now)) ==>
              var id := IdOf(Str(idParam)).value;
              db.roomTypes == old(db.roomTypes)[id := RoomFromBody(b, old(db.roomTypes)[id].createdAt, now)] &&
              (res.Ok? <==> HotelExists(db.hotels, b.hotelId))
    ensures res.Err? ==> res.error in {NotFound, ServerError}
  {
    var id := IdOf(Str(idParam));
    if id.None? || id.value !in db.roomTypes {
      return Err(NotFound);
    }
    var row := RoomFromBody(b, db.roomTypes[id.value].createdAt, now);
    if !RoomTypeNotNull(row) {
      return Err(ServerError);
    }
    db.roomTypes := db.roomTypes[id.value := row];
    if !HotelExists(db.hotels, row.hotelId) {
      return Err(ServerError);
    }
    return Ok(id.value);
  }

  /* ---------- PUT and PATCH /api/reservations/:id ---------- */

  /** The statuses this server accepts; 'completed' is not one of them. */
  predicate SqliteStatus(v: JsVal) {
    v == Str("pending") || v == Str("confirmed") || v == Str("cancelled")
  }

  /** Every field, hotel and room type included, is `COALESCE(?, column)`. */
  function CoalesceReservation(stored: SReservation, b: ReservationBody, now: int): (r: SReservation)
    ensures r.hotelId == Coalesce(b.hotelId, stored.hotelId) && r.roomTypeId == Coalesce(b.roomTypeId, stored.roomTypeId)
    ensures r.guestName == Coalesce(b.guestName, stored.guestName) && r.guestEmail == Coalesce(b.guestEmail, stored.guestEmail)
    ensures r.checkIn == Coalesce(b.checkIn, stored.checkIn) && r.checkOut == Coalesce(b.checkOut, stored.checkOut)
    ensures r.guestPhone == Coalesce(b.guestPhone, stored.guestPhone)
    ensures r.guestDocument == Coalesce(b.guestDocument, stored.guestDocument)
    ensures r.numberOfGuests == Coalesce(b.numberOfGuests, stored.numberOfGuests)
    ensures r.totalAmount == Coalesce(b.totalAmount, stored.totalAmount)
    ensures r.specialRequests == Coalesce(b.specialRequests, stored.specialRequests)
    ensures r.status == Coalesce(b.status, stored.status)
    ensures r.createdAt == stored.createdAt && r.updatedAt == now
    ensures ReservationNotNull(stored) ==> ReservationNotNull(r)
  {
    SReservation(Coalesce(b.hotelId, stored.hotelId), Coalesce(b.roomTypeId, stored.roomTypeId),
                 Coalesce(b.guestName, stored.guestName), Coalesce(b.guestEmail, stored.guestEmail),
                 Coalesce(b.guestPhone, stored.guestPhone), Coalesce(b.guestDocument, stored.guestDocument),
                 Coalesce(b.checkIn, stored.checkIn), Coalesce(b.checkOut, stored.checkOut),
                 Coalesce(b.numberOfGuests, stored.numberOfGuests), Coalesce(b.totalAmount, stored.totalAmount),
                 Coalesce(b.specialRequests, stored.specialRequests), Coalesce(b.status, stored.status),
                 stored.createdAt, now)
  }

  /** A body of nulls keeps every stored field. */
  lemma {:induction false} NullBodyKeepsReservation(stored: SReservation, now: int)
    ensures var e := ReservationBody(Null, Null, Null, Null, Null, Null, Null, Null, Null, Null, Null, Undefined);
            CoalesceReservation(stored, e, now) == stored.(updatedAt := now)
  {
  }

  /** PUT can move a booking to another hotel and room type, which the MySQL
      backend never does: any non-null hotel and room type in the body replace the stored ones. */
  lemma {:induction false} PutMovesReservation(stored: SReservation, b: ReservationBody, now: int)
    requires !IsNullish(b.hotelId) && !IsNullish(b.roomTypeId)
    ensures CoalesceReservation(stored, b, now).hotelId == b.hotelId
    ensures CoalesceReservation(stored, b, now).roomTypeId == b.roomTypeId
  {
  }

  /** A body that gives every column replaces the whole row but its creation time. */
  lemma {:induction false} FullBodyReplacesReservation(stored: SReservation, b: ReservationBody, now: int)
    requires !IsNullish(b.hotelId) && !IsNullish(b.roomTypeId) && !IsNullish(b.guestName) &&
             !IsNullish(b.guestEmail) && !IsNullish(b.guestPhone) && !IsNullish(b.guestDocument) &&
             !IsNullish(b.checkIn) && !IsNullish(b.checkOut) && !IsNullish(b.numberOfGuests) &&
             !IsNullish(b.totalAmount) && !IsNullish(b.specialRequests) && !IsNullish(b.status)
    ensures CoalesceReservation(stored, b, now) ==
              SReservation(b.hotelId, b.roomTypeId, b.guestName, b.guestEmail, b.guestPhone, b.guestDocument,
                           b.checkIn, b.checkOut, b.numberOfGuests, b.totalAmount, b.specialRequests, b.status,
                           stored.createdAt, now)
  {
  }

  /** PUT /api/reservations/:id: 404 for a missing id; 400 for a truthy status
      outside the accepted three; otherwise the COALESCE merge. */
  method UpdateReservation(db: SqliteDatabase, idParam: string, b: ReservationBody, now: int)
    returns (res: Result<nat, SqliteError>)
    requires db.Valid()
    modifies db`reservations
    ensures db.Valid()
    ensures res == Err(NotFound) <==> IdOf(Str(idParam)).None? || IdOf(Str(idParam)).value !in old(db.reservations)
    ensures res == Err(InvalidStatus) <==> IdOf(Str(idParam)).Some? && IdOf(Str(idParam)).value in old(db.reservations) &&
                                            Truthy(b.status) && !SqliteStatus(b.status)
    ensures res.Err? ==> res.error in {NotFound, InvalidStatus} && db.reservations == old(db.reservations)
    ensures res.Ok? ==> Some(res.value) == IdOf(Str(idParam))
    ensures res.Ok? ==>
      db.reservations == old(db.reservations)[res.value := CoalesceReservation(old(db.reservations)[res.value], b, now)]
  {
    var id := IdOf(Str(idParam));
    if id.None? || id.value !in db.reservations {
      return Err(NotFound);
    }
    if Truthy(b.status) && !SqliteStatus(b.status) {
      return Err(InvalidStatus);
    }
    db.reservations := db.reservations[id.value := CoalesceReservation(db.reservations[id.value], b, now)];
    return Ok(id.value);
  }

  /** PATCH /api/reservations/:id/status: the status is checked before any
      lookup; the UPDATE touches a row only if it exists; the answer is 404
      whenever the JOINed row cannot be read back, even after an update. */
  method PatchStatus(db: SqliteDatabase, idParam: string, status: JsVal, now: int) returns (res: Result<nat, SqliteError>)
    requires db.Valid()
    modifies db`reservations
    ensures db.Valid()
    ensures res == Err(InvalidStatus) <==> !SqliteStatus(status)
    ensures !SqliteStatus(status) ==> db.reservations == old(db.reservations)
    ensures SqliteStatus(status) && (IdOf(Str(idParam)).None? || IdOf(Str(idParam)).value !in old(db.reservations)) ==>
              res == Err(NotFound) && db.reservations == old(db.reservations)
    ensures SqliteStatus(status) && IdOf(Str(idParam)).Some? && IdOf(Str(idParam)).value in old(db.reservations) ==>
              var id := IdOf(Str(idParam)).value;
              db.reservations == old(db.reservations)[id := old(db.reservations)[id].(status := status, updatedAt := now)] &&
              (res.Ok? <==> ReservationJoined(db.hotels, db.roomTypes, db.reservations[id])) &&
              (res.Err? ==> res.error == NotFound)
    ensures res.Ok? ==> Some(res.value) == IdOf(Str(idParam))
  {
    if !SqliteStatus(status) {
      return Err(InvalidStatus);
    }
    var id := IdOf(Str(idParam));
    if id.None? || id.value !in db.reservations {
      return Err(NotFound);
    }
    db.reservations := db.reservations[id.value := db.reservations[id.value].(status := status, updatedAt := now)];
    if !ReservationJoined(db.hotels, db.roomTypes, db.reservations[id.value]) {
      return Err(NotFound);
    }
    return Ok(id.value);
  }

  /* ---------- guarded deletes ---------- */

  function RoomTypesReferencing(roomTypes: map<nat, SRoomType>, hotel: nat): (ids: set<nat>)
    ensures ids <= roomTypes.Keys
    ensures forall id :: id in roomTypes ==> (id in ids <==> RefersTo(roomTypes[id].hotelId, hotel))
  {
    set id | id in roomTypes && RefersTo(roomTypes[id].hotelId, hotel)
  }

  function ReservationsOfHotel(reservations: map<nat, SReservation>, hotel: nat): (ids: set<nat>)
    ensures ids <= reservations.Keys
    ensures forall id :: id in reservations ==> (id in ids <==> RefersTo(reservations[id].hotelId, hotel))
  {
    set id | id in reservations && RefersTo(reservations[id].hotelId, hotel)
  }

  function ReservationsOfRoomType(reservations: map<nat, SReservation>, room: nat): (ids: set<nat>)
    ensures ids <= reservations.Keys
    ensures forall id :: id in reservations ==> (id in ids <==> RefersTo(reservations[id].roomTypeId, room))
  {
    set id | id in reservations && RefersTo(reservations[id].roomTypeId, room)
  }

  /** `COUNT(*) > 0` exactly when some row refers to the target. */
  lemma {:induction false} CountZeroIffUnreferenced(roomTypes: map<nat, SRoomType>, reservations: map<nat, SReservation>, id: nat)
    ensures |RoomTypesReferencing(roomTypes, id)| == 0 <==> forall k :: k in roomTypes ==> !RefersTo(roomTypes[k].hotelId, id)
    ensures |ReservationsOfHotel(reservations, id)| == 0 <==> forall k :: k in reservations ==> !RefersTo(reservations[k].hotelId, id)
    ensures |ReservationsOfRoomType(reservations, id)| == 0 <==>
              forall k :: k in reservations ==> !RefersTo(reservations[k].roomTypeId, id)
  {
    if k :| k in roomTypes && RefersTo(roomTypes[k].hotelId, id) {
      assert k in RoomTypesReferencing(roomTypes, id);
    }
    if k :| k in reservations && RefersTo(reservations[k].hotelId, id) {
      assert k in ReservationsOfHotel(reservations, id);
    }
    if k :| k in reservations && RefersTo(reservations[k].roomTypeId, id) {
      assert k in ReservationsOfRoomType(reservations, id);
    }
  }

  /** DELETE /api/hotels/:id: 404 for a missing hotel, then 400 while a room
      type refers to it, then 400 while a reservation does; otherwise only that
      hotel row goes. */
  method DeleteHotel(db: SqliteDatabase, idParam: string) returns (res: Result<nat, SqliteError>)
    requires db.Valid()
    modifies db`hotels
    ensures db.Valid()
    ensures res == Err(NotFound) <==> IdOf(Str(idParam)).None? || IdOf(Str(idParam)).value !in old(db.hotels)
    ensures res == Err(HasRoomTypes) <==>
              (IdOf(Str(idParam)).Some? && IdOf(Str(idParam)).value in old(db.hotels) &&
               exists k :: k in db.roomTypes && RefersTo(db.roomTypes[k].hotelId, IdOf(Str(idParam)).value))
    ensures res == Err(HasReservations) <==>
              (IdOf(Str(idParam)).Some? && IdOf(Str(idParam)).value in old(db.hotels) &&
               (forall k :: k in db.roomTypes ==> !RefersTo(db.roomTypes[k].hotelId, IdOf(Str(idParam)).value)) &&
               exists k :: k in db.reservations && RefersTo(db.reservations[k].hotelId, IdOf(Str(idParam)).value))
    ensures res.Err? ==> res.error in {NotFound, HasRoomTypes, HasReservations} && db.hotels == old(db.hotels)
    ensures res.Ok? ==> Some(res.value) == IdOf(Str(idParam)) && db.hotels == old(db.hotels) - {res.value}
  {
    var id := IdOf(Str(idParam));
    if id.None? || id.value !in db.hotels {
      return Err(NotFound);
    }
    CountZeroIffUnreferenced(db.roomTypes, db.reservations, id.value);
    if |RoomTypesReferencing(db.roomTypes, id.value)| > 0 {
      return Err(HasRoomTypes);
    }
    if |ReservationsOfHotel(db.reservations, id.value)| > 0 {
      return Err(HasReservations);
    }
    db.hotels := db.hotels - {id.value};
    return Ok(id.value);
  }

  /** DELETE /api/rooms/:id: 404 for a missing room type, 400 while a
      reservation refers to it; otherwise only that row goes and its images stay. */
  method DeleteRoomType(db: SqliteDatabase, idParam: string) returns (res: Result<nat, SqliteError>)
    requires db.Valid()
    modifies db`roomTypes
    ensures db.Valid()
    ensures res == Err(NotFound) <==> IdOf(Str(idParam)).None? || IdOf(Str(idParam)).value !in old(db.roomTypes)
    ensures res == Err(HasReservations) <==>
              (IdOf(Str(idParam)).Some? && IdOf(Str(idParam)).value in old(db.roomTypes) &&
               exists k :: k in db.reservations && RefersTo(db.reservations[k].roomTypeId, IdOf(Str(idParam)).value))
    ensures res.Err? ==> res.error in {NotFound, HasReservations} && db.roomTypes == old(db.roomTypes)
    ensures res.Ok? ==> Some(res.value) == IdOf(Str(idParam)) && db.roomTypes == old(db.roomTypes) - {res.value}
  {
    var id := IdOf(Str(idParam));
    if id.None? || id.value !in db.roomTypes {
      return Err(NotFound);
    }
    CountZeroIffUnreferenced(db.roomTypes, db.reservations, id.value);
    if |ReservationsOfRoomType(db.reservations, id.value)| > 0 {
      return Err(HasReservations);
    }
    db.roomTypes := db.roomTypes - {id.value};
    return Ok(id.value);
  }

  /** DELETE /api/reservations/:id. */
  method DeleteReservation(db: SqliteDatabase, idParam: string) returns (res: Result<nat, SqliteError>)
    requires db.Valid()
    modifies db`reservations
    ensures db.Valid()
    ensures res.Err? <==> IdOf(Str(idParam)).None? || IdOf(Str(idParam)).value !in old(db.reservations)
    ensures res.Err? ==> res.error == NotFound && db.reservations == old(db.reservations)
    ensures res.Ok? ==> Some(res.value) == IdOf(Str(idParam)) && db.reservations == old(db.reservations) - {res.value}
  {
    var id := IdOf(Str(idParam));
    if id.None? || id.value !in db.reservations {
      return Err(NotFound);
    }
    db.reservations := db.reservations - {id.value};
    return Ok(id.value);
  }

  /** A hotel delete that passed both guards keeps a linked store linked. */
  lemma {:induction false} HotelDeleteKeepsLinks(hotels: map<nat, SHotel>, roomTypes: map<nat, SRoomType>,
                                                 reservations: map<nat, SReservation>, id: nat)
    requires Linked(hotels, roomTypes, reservations)
    requires |RoomTypesReferencing(roomTypes, id)| == 0 && |ReservationsOfHotel(reservations, id)| == 0
    ensures Linked(hotels - {id}, roomTypes, reservations)
  {
    CountZeroIffUnreferenced(roomTypes, reservations, id);
  }

  /** A room-type delete that passed its guard keeps a linked store linked. */
  lemma {:induction false} RoomDeleteKeepsLinks(hotels: map<nat, SHotel>, roomTypes: map<nat, SRoomType>,
                                                reservations: map<nat, SReservation>, id: nat)
    requires Linked(hotels, roomTypes, reservations)
    requires |ReservationsOfRoomType(reservations, id)| == 0
    ensures Linked(hotels, roomTypes - {id}, reservations)
  {
    CountZeroIffUnreferenced(roomTypes, reservations, id);
  }
}
