/** The SQLite database behind api/sqlite-server.js. The server validates
    almost nothing, so every column that receives a request value holds the
    JavaScript value bound to it; the only constraints the engine enforces are
    the NOT NULL columns of the schema (foreign keys are declared but not
    enforced, since the connection never enables them). */
module SqliteStore {
  import opened Wrappers
  import opened Js

  /** `amenities` is the text `JSON.stringify` wrote, as the value it encodes;
      `None` is an SQL NULL. */
  datatype SHotel = SHotel(
    name: JsVal, address: JsVal, city: JsVal, state: JsVal, zipCode: JsVal,
    phone: JsVal, email: JsVal, website: JsVal, description: JsVal,
    amenities: Option<JsVal>, createdAt: int, updatedAt: int)

  datatype SRoomType = SRoomType(
    hotelId: JsVal, name: JsVal, description: JsVal, sizeSqm: JsVal, bedType: JsVal,
    bedCount: JsVal, maxOccupancy: JsVal, amenities: JsVal, bathroomType: JsVal,
    smokingAllowed: int, pricePerNight: JsVal, createdAt: int, updatedAt: int)

  datatype SImage = SImage(roomTypeId: JsVal, imageData: JsVal, imageType: JsVal, displayOrder: JsVal)

  datatype SReservation = SReservation(
    hotelId: JsVal, roomTypeId: JsVal, guestName: JsVal, guestEmail: JsVal,
    guestPhone: JsVal, guestDocument: JsVal, checkIn: JsVal, checkOut: JsVal,
    numberOfGuests: JsVal, totalAmount: JsVal, specialRequests: JsVal, status: JsVal,
    createdAt: int, updatedAt: int)

  /** A stored reference column equals the integer key `id` (`WHERE hotel_id = ?`, `JOIN ... ON`). */
  predicate RefersTo(v: JsVal, id: nat) {
    IdOf(v) == Some(id)
  }

  /** The NOT NULL columns of each table (api/database/sqlite-setup.js). */
  predicate HotelNotNull(h: SHotel) {
    !IsNullish(h.name) && !IsNullish(h.address) && !IsNullish(h.city)
  }

  predicate RoomTypeNotNull(r: SRoomType) {
    !IsNullish(r.hotelId) && !IsNullish(r.name)
  }

  predicate ReservationNotNull(r: SReservation) {
    !IsNullish(r.hotelId) && !IsNullish(r.roomTypeId) && !IsNullish(r.guestName) && !IsNullish(r.guestEmail) &&
    !IsNullish(r.checkIn) && !IsNullish(r.checkOut) && !IsNullish(r.numberOfGuests) && !IsNullish(r.totalAmount)
  }

  /** Every reference in the catalogue and the bookings names an existing row. */
  predicate Linked(hotels: map<nat, SHotel>, roomTypes: map<nat, SRoomType>, reservations: map<nat, SReservation>) {
    (forall id :: id in roomTypes ==> IdOf(roomTypes[id].hotelId).Some? && IdOf(roomTypes[id].hotelId).value in hotels) &&
    (forall id :: id in reservations ==>
       IdOf(reservations[id].hotelId).Some? && IdOf(reservations[id].hotelId).value in hotels &&
       IdOf(reservations[id].roomTypeId).Some? && IdOf(reservations[id].roomTypeId).value in roomTypes)
  }

  class SqliteDatabase {
    var hotels: map<nat, SHotel>
    var roomTypes: map<nat, SRoomType>
    var images: map<nat, SImage>
    var reservations: map<nat, SReservation>
    var nextHotelId: nat
    var nextRoomTypeId: nat
    var nextReservationId: nat

    /** Every key was handed out by its table's AUTOINCREMENT counter, and every
        stored row satisfies the NOT NULL columns. */
    ghost predicate Valid()
      reads this
    {
      0 < nextHotelId && 0 < nextRoomTypeId && 0 < nextReservationId &&
      (forall id :: id in hotels ==> 0 < id < nextHotelId && HotelNotNull(hotels[id])) &&
      (forall id :: id in roomTypes ==> 0 < id < nextRoomTypeId && RoomTypeNotNull(roomTypes[id])) &&
      (forall id :: id in reservations ==> 0 < id < nextReservationId && ReservationNotNull(reservations[id]))
    }

    constructor ()
      ensures Valid()
      ensures hotels == map[] && roomTypes == map[] && images == map[] && reservations == map[]
    {
      hotels, roomTypes, images, reservations := map[], map[], map[], map[];
      nextHotelId, nextRoomTypeId, nextReservationId := 1, 1, 1;
    }

    method InsertHotel(h: SHotel) returns (id: nat)
      requires Valid() && HotelNotNull(h)
      modifies this`hotels, this`nextHotelId
      ensures Valid()
      ensures id !in old(hotels) && hotels == old(hotels)[id := h]
    {
      id := nextHotelId;
      hotels := hotels[id := h];
      nextHotelId := nextHotelId + 1;
    }

    method InsertRoomType(r: SRoomType) returns (id: nat)
      requires Valid() && RoomTypeNotNull(r)
      modifies this`roomTypes, this`nextRoomTypeId
      ensures Valid()
      ensures id !in old(roomTypes) && roomTypes == old(roomTypes)[id := r]
    {
      id := nextRoomTypeId;
      roomTypes := roomTypes[id := r];
      nextRoomTypeId := nextRoomTypeId + 1;
    }

    method InsertReservation(r: SReservation) returns (id: nat)
      requires Valid() && ReservationNotNull(r)
      modifies this`reservations, this`nextReservationId
      ensures Valid()
      ensures id !in old(reservations) && reservations == old(reservations)[id := r]
    {
      id := nextReservationId;
      reservations := reservations[id := r];
      nextReservationId := nextReservationId + 1;
    }
  }
}
