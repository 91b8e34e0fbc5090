/** The MySQL database the routers under api/routes/ work on, as four tables
    keyed by AUTO_INCREMENT ids. Columns that receive request values verbatim
    hold the JavaScript value that was bound; dates are day numbers. */
module MysqlStore {
  import opened Js

  datatype Hotel = Hotel(
    name: JsVal, address: JsVal, city: JsVal, state: JsVal, zipCode: JsVal,
    phone: JsVal, email: JsVal, website: JsVal, description: JsVal,
    amenities: JsVal, createdAt: int, updatedAt: int)

  datatype RoomType = RoomType(
    hotelId: nat, name: JsVal, description: JsVal, sizeSqm: JsVal, bedType: JsVal,
    bedCount: JsVal, maxOccupancy: JsVal, amenities: JsVal, bathroomType: JsVal,
    smokingAllowed: int, pricePerNight: JsVal, createdAt: int, updatedAt: int)

  datatype RoomImage = RoomImage(
    roomTypeId: nat, imageData: string, imageType: string, displayOrder: int, createdAt: int)

  datatype Reservation = Reservation(
    hotelId: nat, roomTypeId: nat, guestName: JsVal, guestEmail: JsVal,
    guestPhone: JsVal, guestDocument: JsVal, checkIn: int, checkOut: int,
    numberOfGuests: JsVal, totalAmount: JsVal, status: JsVal,
    specialRequests: JsVal, createdAt: int, updatedAt: int)

  /** An uploaded file: its base64 content and its MIME type. */
  datatype Upload = Upload(data: string, mimetype: string)

  class Database {
    var hotels: map<nat, Hotel>
    var roomTypes: map<nat, RoomType>
    var images: map<nat, RoomImage>
    var reservations: map<nat, Reservation>
    var nextHotelId: nat
    var nextRoomTypeId: nat
    var nextImageId: nat
    var nextReservationId: nat
    /** The `status` a reservation row gets when INSERT names no status (a schema default). */
    const statusDefault: JsVal

    /** Every key was handed out by its table's AUTO_INCREMENT counter. */
    ghost predicate Valid()
      reads this
    {
      0 < nextHotelId && 0 < nextRoomTypeId && 0 < nextImageId && 0 < nextReservationId &&
      (forall id :: id in hotels ==> 0 < id < nextHotelId) &&
      (forall id :: id in roomTypes ==> 0 < id < nextRoomTypeId) &&
      (forall id :: id in images ==> 0 < id < nextImageId) &&
      (forall id :: id in reservations ==> 0 < id < nextReservationId)
    }

    constructor (statusDefault: JsVal)
      ensures Valid()
      ensures hotels == map[] && roomTypes == map[] && images == map[] && reservations == map[]
      ensures this.statusDefault == statusDefault
    {
      hotels, roomTypes, images, reservations := map[], map[], map[], map[];
      nextHotelId, nextRoomTypeId, nextImageId, nextReservationId := 1, 1, 1, 1;
      this.statusDefault := statusDefault;
    }

    method InsertHotel(h: Hotel) returns (id: nat)
      requires Valid()
      modifies this`hotels, this`nextHotelId
      ensures Valid()
      ensures id !in old(hotels) && id > 0
      ensures hotels == old(hotels)[id := h]
    {
      id := nextHotelId;
      hotels := hotels[id := h];
      nextHotelId := nextHotelId + 1;
    }

    method InsertRoomType(r: RoomType) returns (id: nat)
      requires Valid()
      modifies this`roomTypes, this`nextRoomTypeId
      ensures Valid()
      ensures id !in old(roomTypes) && id > 0
      ensures roomTypes == old(roomTypes)[id := r]
    {
      id := nextRoomTypeId;
      roomTypes := roomTypes[id := r];
      nextRoomTypeId := nextRoomTypeId + 1;
    }

    /** Image ids grow with every insertion, so upload order is id order. */
    method InsertImage(img: RoomImage) returns (id: nat)
      requires Valid()
      modifies this`images, this`nextImageId
      ensures Valid()
      ensures id == old(nextImageId) && nextImageId == id + 1
      ensures id !in old(images) && id > 0
      ensures images == old(images)[id := img]
    {
      id := nextImageId;
      images := images[id := img];
      nextImageId := nextImageId + 1;
    }

    method InsertReservation(r: Reservation) returns (id: nat)
      requires Valid()
      modifies this`reservations, this`nextReservationId
      ensures Valid()
      ensures id !in old(reservations) && id > 0
      ensures reservations == old(reservations)[id := r]
    {
      id := nextReservationId;
      reservations := reservations[id := r];
      nextReservationId := nextReservationId + 1;
    }
  }
}
