/** The hotel routes of the MySQL backend (api/routes/hotels.js):
    lookup by id, create with `|| null` defaults, full-row overwrite on update, and a
    cascading delete that removes the hotel's room types and their images but
    leaves reservations alone. */
module MysqlHotels {
  import opened Wrappers
  import opened Js
  import opened MysqlStore

  datatype HotelBody = HotelBody(
    name: JsVal, address: JsVal, city: JsVal, state: JsVal, zipCode: JsVal,
    phone: JsVal, email: JsVal, website: JsVal, description: JsVal, amenities: JsVal)

  datatype HotelError = MissingFields | NotFound | ServerError

  /* ---------- GET /api/hotels/:id ---------- */

  function GetHotel(hotels: map<nat, Hotel>, idParam: string): (r: Result<Hotel, HotelError>)
    ensures r.Err? <==> IdOf(Str(idParam)).None? || IdOf(Str(idParam)).value !in hotels
    ensures r.Err? ==> r.error == NotFound
    ensures r.Ok? ==> r.value == hotels[IdOf(Str(idParam)).value]
  {
    var id := IdOf(Str(idParam));
    if id.Some? && id.value in hotels then Ok(hotels[id.value]) else Err(NotFound)
  }

  /** The row both INSERT and UPDATE write: required fields as given, optional
      ones `|| null`, amenities `|| []`. */
  function HotelFromBody(b: HotelBody, created: int, now: int): (h: Hotel)
    ensures h.name == AsColumn(b.name) && h.address == AsColumn(b.address) && h.city == AsColumn(b.city)
    ensures !Truthy(b.state) ==> h.state == Null
    ensures !Truthy(b.zipCode) ==> h.zipCode == Null
    ensures !Truthy(b.phone) ==> h.phone == Null
    ensures !Truthy(b.email) ==> h.email == Null
    ensures !Truthy(b.website) ==> h.website == Null
    ensures !Truthy(b.description) ==> h.description == Null
    ensures h.amenities == (if Truthy(b.amenities) then b.amenities else Arr([]))
    ensures Truthy(b.state) ==> h.state == b.state
    ensures h.createdAt == created && h.updatedAt == now
  {
    Hotel(AsColumn(b.name), AsColumn(b.address), AsColumn(b.city), Or(b.state, Null), Or(b.zipCode, Null),
          Or(b.phone, Null), Or(b.email, Null), Or(b.website, Null), Or(b.description, Null),
          Or(b.amenities, Arr([])), created, now)
  }

  /** The columns declared NOT NULL in the hotels table all receive a value. */
  predicate NotNullOk(h: Hotel) {
    !IsNullish(h.name) && !IsNullish(h.address) && !IsNullish(h.city)
  }

  /* ---------- POST /api/hotels ---------- */

  /** POST /api/hotels: 400 unless name, address and city are truthy; then one insert. */
  method CreateHotel(db: Database, b: HotelBody, now: int) returns (res: Result<nat, HotelError>)
    requires db.Valid()
    modifies db`hotels, db`nextHotelId
    ensures db.Valid()
    ensures res.Err? <==> !(Truthy(b.name) && Truthy(b.address) && Truthy(b.city))
    ensures res.Err? ==> res.error == MissingFields && db.hotels == old(db.hotels)
    ensures res.Ok? ==> res.value !in old(db.hotels) && db.hotels == old(db.hotels)[res.value := HotelFromBody(b, now, now)]
  {
    if !Truthy(b.name) || !Truthy(b.address) || !Truthy(b.city) {
      return Err(MissingFields);
    }
    var id := db.InsertHotel(HotelFromBody(b, now, now));
    return Ok(id);
  }

  /** Every row a successful create writes satisfies the table's NOT NULL columns. */
  lemma CreatedRowsAreNotNull(b: HotelBody, now: int)
    requires Truthy(b.name) && Truthy(b.address) && Truthy(b.city)
    ensures NotNullOk(HotelFromBody(b, now, now))
  {
  }

  /* ---------- PUT /api/hotels/:id ---------- */

  /** PUT /api/hotels/:id: 404 for a missing hotel; otherwise the whole row is
      overwritten (there is no merge), and a body that leaves a NOT NULL column
      empty makes the UPDATE fail with a server error, writing nothing. */
  method UpdateHotel(db: Database, idParam: string, b: HotelBody, now: int) returns (res: Result<nat, HotelError>)
    requires db.Valid()
    modifies db`hotels
    ensures db.Valid()
    ensures res == Err(NotFound) <==> IdOf(Str(idParam)).None? || IdOf(Str(idParam)).value !in old(db.hotels)
    ensures res == Err(ServerError) <==> IdOf(Str(idParam)).Some? && IdOf(Str(idParam)).value in old(db.hotels) &&
                                          !NotNullOk(HotelFromBody(b, 0, now))
    ensures res.Err? ==> db.hotels == old(db.hotels)
    ensures res.Ok? ==> Some(res.value) == IdOf(Str(idParam)) &&
                        db.hotels == old(db.hotels)[res.value := HotelFromBody(b, old(db.hotels)[res.value].createdAt, now)]
  {
    var id := IdOf(Str(idParam));
    if id.None? || id.value !in db.hotels {
      return Err(NotFound);
    }
    var row := HotelFromBody(b, db.hotels[id.value].createdAt, now);
    if !NotNullOk(row) {
      return Err(ServerError);
    }
    db.hotels := db.hotels[id.value := row];
    return Ok(id.value);
  }

  /** An update that omits an optional field nulls it, whatever was stored. */
  lemma {:induction false} UpdateDropsOmittedFields(stored: Hotel, b: HotelBody, now: int)
    requires b.state.Undefined? && b.website.Undefined?
    ensures HotelFromBody(b, stored.createdAt, now).state == Null
    ensures HotelFromBody(b, stored.createdAt, now).website == Null
    ensures !stored.state.Null? ==> HotelFromBody(b, stored.createdAt, now).state != stored.state
  {
  }

  /* ---------- DELETE /api/hotels/:id ---------- */

  /** The room types left after `DELETE FROM room_types WHERE hotel_id = ?`. */
  function RoomTypesWithout(roomTypes: map<nat, RoomType>, hotel: nat): (r: map<nat, RoomType>)
    ensures r.Keys <= roomTypes.Keys
    ensures forall id :: id in roomTypes ==> (id in r <==> roomTypes[id].hotelId != hotel)
    ensures forall id :: id in r ==> r[id] == roomTypes[id]
  {
    map id | id in roomTypes && roomTypes[id].hotelId != hotel :: roomTypes[id]
  }

  /** The images left after deleting those whose room type belongs to `hotel`;
      an image whose room type is missing is kept, as the subquery cannot reach it. */
  function ImagesWithout(images: map<nat, RoomImage>, roomTypes: map<nat, RoomType>, hotel: nat): (r: map<nat, RoomImage>)
    ensures r.Keys <= images.Keys
    ensures forall id :: id in images ==>
              (id in r <==> !(images[id].roomTypeId in roomTypes && roomTypes[images[id].roomTypeId].hotelId == hotel))
    ensures forall id :: id in r ==> r[id] == images[id]
  {
    map id | id in images && !(images[id].roomTypeId in roomTypes && roomTypes[images[id].roomTypeId].hotelId == hotel)
           :: images[id]
  }

  /** Every image points at an existing room type and every room type at an existing hotel. */
  predicate CatalogueLinked(hotels: map<nat, Hotel>, roomTypes: map<nat, RoomType>, images: map<nat, RoomImage>) {
    (forall id :: id in roomTypes ==> roomTypes[id].hotelId in hotels) &&
    (forall id :: id in images ==> images[id].roomTypeId in roomTypes)
  }

  /** DELETE /api/hotels/:id: 404 for a missing hotel; otherwise images of its
      room types, then the room types, then the hotel. Reservations are untouched. */
  method DeleteHotel(db: Database, idParam: string) returns (res: Result<nat, HotelError>)
    requires db.Valid()
    modifies db`hotels, db`roomTypes, db`images
    ensures db.Valid()
    ensures res.Err? <==> IdOf(Str(idParam)).None? || IdOf(Str(idParam)).value !in old(db.hotels)
    ensures res.Err? ==> res.error == NotFound && db.hotels == old(db.hotels) &&
                         db.roomTypes == old(db.roomTypes) && db.images == old(db.images)
    ensures res.Ok? ==> Some(res.value) == IdOf(Str(idParam))
    ensures res.Ok? ==> db.images == ImagesWithout(old(db.images), old(db.roomTypes), res.value)
    ensures res.Ok? ==> db.roomTypes == RoomTypesWithout(old(db.roomTypes), res.value)
    ensures res.Ok? ==> db.hotels == old(db.hotels) - {res.value}
    ensures db.reservations == old(db.reservations)
  {
    var id := IdOf(Str(idParam));
    if id.None? || id.value !in db.hotels {
      return Err(NotFound);
    }
    db.images := ImagesWithout(db.images, db.roomTypes, id.value);
    db.roomTypes := RoomTypesWithout(db.roomTypes, id.value);
    db.hotels := db.hotels - {id.value};
    return Ok(id.value);
  }

  /** The cascade order keeps a linked catalogue linked: no image is left
      pointing at a deleted room type, no room type at the deleted hotel. */
  lemma {:induction false} CascadeKeepsCatalogueLinked(hotels: map<nat, Hotel>, roomTypes: map<nat, RoomType>,
                                                      images: map<nat, RoomImage>, hotel: nat)
    requires CatalogueLinked(hotels, roomTypes, images)
    ensures CatalogueLinked(hotels - {hotel}, RoomTypesWithout(roomTypes, hotel), ImagesWithout(images, roomTypes, hotel))
  {
    var rt := RoomTypesWithout(roomTypes, hotel);
    var im := ImagesWithout(images, roomTypes, hotel);
    forall id | id in im
      ensures im[id].roomTypeId in rt
    {
      assert images[id].roomTypeId in roomTypes;
    }
  }
}
