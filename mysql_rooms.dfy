/** The room-type routes of the MySQL backend (api/routes/rooms.js): create
    with defaults and numbered images, overwrite on update with removal of
    listed images and numbering of new ones after the current maximum, delete
    with its images, and deletion of one image. */
module MysqlRooms {
  import opened Wrappers
  import opened Js
  import opened MysqlStore

  /* ---------- GET /api/rooms and GET /api/rooms/:id ---------- */

  /** The LEFT JOIN lists every room type, filtered by hotel when `hotel_id` is
      given (ORDER BY created_at is not modelled). */
  function ListRoomTypes(roomTypes: map<nat, RoomType>, hotelParam: Option<string>): (ids: set<nat>)
    ensures ids <= roomTypes.Keys
    ensures hotelParam.None? || hotelParam == Some("") ==> ids == roomTypes.Keys
    ensures forall id :: id in ids && hotelParam.Some? && hotelParam.value != "" ==>
              IdOf(Str(hotelParam.value)) == Some(roomTypes[id].hotelId)
    ensures forall id :: (id in roomTypes && hotelParam.Some? && hotelParam.value != "" &&
                          IdOf(Str(hotelParam.value)) == Some(roomTypes[id].hotelId)) ==> id in ids
  {
    if hotelParam.None? || hotelParam.value == "" then roomTypes.Keys
    else set id | id in roomTypes && IdOf(Str(hotelParam.value)) == Some(roomTypes[id].hotelId)
  }

  /** The images attached to a room type in the listing and lookup
      (`SELECT * FROM room_images WHERE room_type_id = ?`). */
  function ImagesOf(images: map<nat, RoomImage>, room: nat): (ids: set<nat>)
    ensures ids <= images.Keys
    ensures forall id :: id in images ==> (id in ids <==> images[id].roomTypeId == room)
  {
    set id | id in images && images[id].roomTypeId == room
  }

  datatype LookupError = NotFound

  function GetRoomType(roomTypes: map<nat, RoomType>, idParam: string): (r: Result<RoomType, LookupError>)
    ensures r.Ok? <==> IdOf(Str(idParam)).Some? && IdOf(Str(idParam)).value in roomTypes
    ensures r.Ok? ==> r.value == roomTypes[IdOf(Str(idParam)).value]
  {
    var id := IdOf(Str(idParam));
    if id.Some? && id.value in roomTypes then Ok(roomTypes[id.value]) else Err(NotFound)
  }

  /* ---------- POST /api/rooms ---------- */

  datatype RoomBody = RoomBody(
    hotelId: JsVal, name: JsVal, description: JsVal, sizeSqm: JsVal, bedType: JsVal,
    bedCount: JsVal, maxOccupancy: JsVal, amenities: JsVal, bathroomType: JsVal,
    smokingAllowed: JsVal, pricePerNight: JsVal)

  datatype CreateError = MissingFields | HotelNotFound

  /** `smoking_allowed === 'true' || smoking_allowed === true ? 1 : 0`. */
  function SmokingFlag(v: JsVal): (f: int)
    ensures f == 1 <==> v == Str("true") || v == Bool(true)
    ensures f == 0 || f == 1
  {
    if v == Str("true") || v == Bool(true) then 1 else 0
  }

  /** The columns the create and update statements write from the body, with
      their `|| default` values; `hotelId` and the timestamps are set by the caller. */
  function RowFromBody(hotelId: nat, b: RoomBody, created: int, now: int): (r: RoomType)
    ensures r.hotelId == hotelId && r.name == AsColumn(b.name)
    ensures r.bedCount == (if Truthy(b.bedCount) then b.bedCount else Num(1))
    ensures r.maxOccupancy == (if Truthy(b.maxOccupancy) then b.maxOccupancy else Num(2))
    ensures r.amenities == (if Truthy(b.amenities) then b.amenities else Arr([]))
    ensures !Truthy(b.description) ==> r.description == Null
    ensures !Truthy(b.sizeSqm) ==> r.sizeSqm == Null
    ensures !Truthy(b.pricePerNight) ==> r.pricePerNight == Null
    ensures r.smokingAllowed == SmokingFlag(b.smokingAllowed)
  {
    RoomType(hotelId, AsColumn(b.name), Or(b.description, Null), Or(b.sizeSqm, Null), Or(b.bedType, Null),
             Or(b.bedCount, Num(1)), Or(b.maxOccupancy, Num(2)), Or(b.amenities, Arr([])),
             Or(b.bathroomType, Null), SmokingFlag(b.smokingAllowed), Or(b.pricePerNight, Null), created, now)
  }

  /** The create handler's checks, in order. */
  function ValidateCreate(hotels: map<nat, Hotel>, b: RoomBody): (r: Result<nat, CreateError>)
    ensures r == Err(MissingFields) <==> !Truthy(b.hotelId) || !Truthy(b.name)
    ensures r.Ok? <==> Truthy(b.hotelId) && Truthy(b.name) && IdOf(b.hotelId).Some? && IdOf(b.hotelId).value in hotels
    ensures r.Ok? ==> Some(r.value) == IdOf(b.hotelId)
  {
    if !Truthy(b.hotelId) || !Truthy(b.name) then Err(MissingFields)
    else if IdOf(b.hotelId).None? || IdOf(b.hotelId).value !in hotels then Err(HotelNotFound)
    else Ok(IdOf(b.hotelId).value)
  }

  /** The images of `room` that `ids` lists, numbered `first`, `first + 1`, ... in upload order. */
  ghost predicate NumberedUploads(images: map<nat, RoomImage>, ids: seq<nat>, room: nat, files: seq<Upload>,
                                  first: int, now: int)
  {
    |ids| == |files| &&
    (forall k :: 0 <= k < |ids| ==>
       ids[k] in images && images[ids[k]] == RoomImage(room, files[k].data, files[k].mimetype, first + k, now)) &&
    (forall j, k :: 0 <= j < k < |ids| ==> ids[j] < ids[k])
  }

  /** Inserts one image row per file, numbering them from `first`. */
  method InsertImages(db: Database, room: nat, files: seq<Upload>, first: int, now: int) returns (ids: seq<nat>)
    requires db.Valid()
    modifies db`images, db`nextImageId
    ensures db.Valid()
    ensures NumberedUploads(db.images, ids, room, files, first, now)
    ensures forall k :: 0 <= k < |ids| ==> ids[k] !in old(db.images) && ids[k] >= old(db.nextImageId)
    ensures forall id :: id in db.images <==> id in old(db.images) || id in ids
    ensures forall id :: id in old(db.images) ==> id in db.images && db.images[id] == old(db.images)[id]
  {
    ids := [];
    var i := 0;
    while i < |files|
      invariant db.Valid()
      invariant 0 <= i <= |files| && |ids| == i
      invariant forall k :: 0 <= k < i ==>
                  ids[k] in db.images && ids[k] !in old(db.images) &&
                  db.images[ids[k]] == RoomImage(room, files[k].data, files[k].mimetype, first + k, now)
      invariant forall k :: 0 <= k < i ==> old(db.nextImageId) <= ids[k] < db.nextImageId
      invariant old(db.nextImageId) <= db.nextImageId
      invariant forall j, k :: 0 <= j < k < i ==> ids[j] < ids[k]
      invariant forall id :: id in db.images <==> id in old(db.images) || id in ids
      invariant forall id :: id in old(db.images) ==> id in db.images && db.images[id] == old(db.images)[id]
    {
      var id := db.InsertImage(RoomImage(room, files[i].data, files[i].mimetype, first + i, now));
      assert forall k :: 0 <= k < i ==> ids[k] < id;
      ids := ids + [id];
      i := i + 1;
    }
  }

  /** POST /api/rooms. Nothing is written when a check fails; on success one room
      type and one image per file, numbered 1..n in upload order. */
  method CreateRoomType(db: Database, b: RoomBody, files: seq<Upload>, now: int)
    returns (res: Result<nat, CreateError>, imageIds: seq<nat>)
    requires db.Valid()
    modifies db`roomTypes, db`nextRoomTypeId, db`images, db`nextImageId
    ensures db.Valid()
    ensures res.Ok? <==> ValidateCreate(old(db.hotels), b).Ok?
    ensures res.Err? ==> res.error == ValidateCreate(old(db.hotels), b).error &&
                         db.roomTypes == old(db.roomTypes) && db.images == old(db.images)
    ensures res.Ok? ==> res.value !in old(db.roomTypes) &&
                        db.roomTypes == old(db.roomTypes)[res.value := RowFromBody(ValidateCreate(old(db.hotels), b).value, b, now, now)]
    ensures res.Ok? ==> NumberedUploads(db.images, imageIds, res.value, files, 1, now)
    ensures res.Ok? ==> forall id :: id in old(db.images) ==> id in db.images && db.images[id] == old(db.images)[id]
    ensures res.Ok? ==> forall id :: id in db.images <==> id in old(db.images) || id in imageIds
  {
    imageIds := [];
    var v := ValidateCreate(db.hotels, b);
    if v.Err? {
      return Err(v.error), [];
    }
    var id := db.InsertRoomType(RowFromBody(v.value, b, now, now));
    imageIds := InsertImages(db, id, files, 1, now);
    return Ok(id), imageIds;
  }

  /* ---------- PUT /api/rooms/:id ---------- */

  /** Removes `DELETE FROM room_images WHERE id = ? AND room_type_id = ?` for each listed id. */
  method RemoveListedImages(db: Database, room: nat, listed: seq<JsVal>)
    requires db.Valid()
    modifies db`images
    ensures db.Valid()
    ensures db.images == map id | id in old(db.images) && !(Listed(id, listed) && old(db.images)[id].roomTypeId == room)
                              :: old(db.images)[id]
  {
    var i := 0;
    while i < |listed|
      invariant db.Valid()
      invariant 0 <= i <= |listed|
      invariant db.images == map id | id in old(db.images) && !(Listed(id, listed[..i]) && old(db.images)[id].roomTypeId == room)
                               :: old(db.images)[id]
    {
      var target := IdOf(listed[i]);
      if target.Some? && target.value in db.images && db.images[target.value].roomTypeId == room {
        db.images := db.images - {target.value};
      }
      ListedStep(listed, i);
      i := i + 1;
    }
    assert listed[..i] == listed;
  }

  /** The update deletes stored image `id`: `remove_images` is an array, it lists
      `id`, and the image belongs to the room being updated. */
  predicate Removed(images: map<nat, RoomImage>, id: nat, room: nat, removeImages: JsVal)
    requires id in images
  {
    removeImages.Arr? && Listed(id, removeImages.items) && images[id].roomTypeId == room
  }

  /** Some entry of `listed` compares equal to image id `id`. */
  predicate Listed(id: nat, listed: seq<JsVal>) {
    exists k :: 0 <= k < |listed| && IdOf(listed[k]) == Some(id)
  }

  /** One more entry lists exactly the ids it compares equal to. */
  lemma ListedStep(listed: seq<JsVal>, i: nat)
    requires i < |listed|
    ensures forall id: nat :: Listed(id, listed[..i + 1]) <==> Listed(id, listed[..i]) || IdOf(listed[i]) == Some(id)
  {
    var longer, shorter := listed[..i + 1], listed[..i];
    forall id: nat
      ensures Listed(id, longer) <==> Listed(id, shorter) || IdOf(listed[i]) == Some(id)
    {
      if Listed(id, shorter) {
        var k :| 0 <= k < |shorter| && IdOf(shorter[k]) == Some(id);
        assert longer[k] == shorter[k];
      }
      if IdOf(listed[i]) == Some(id) {
        assert longer[i] == listed[i];
      }
      if Listed(id, longer) {
        var k :| 0 <= k < |longer| && IdOf(longer[k]) == Some(id);
        if k < i {
          assert shorter[k] == longer[k];
        }
      }
    }
  }

  /** `SELECT COALESCE(MAX(display_order), 0) FROM room_images WHERE room_type_id = ?`. */
  method MaxDisplayOrder(db: Database, room: nat) returns (m: int)
    ensures forall id :: id in db.images && db.images[id].roomTypeId == room ==> db.images[id].displayOrder <= m
    ensures (exists id :: id in db.images && db.images[id].roomTypeId == room && db.images[id].displayOrder == m) ||
            (m == 0 && forall id :: id in db.images ==> db.images[id].roomTypeId != room)
  {
    var rest := db.images.Keys;
    var found := false;
    m := 0;
    while rest != {}
      invariant rest <= db.images.Keys
      invariant forall id :: id in db.images && id !in rest && db.images[id].roomTypeId == room ==>
                  db.images[id].displayOrder <= m
      invariant found ==> exists id :: id in db.images && db.images[id].roomTypeId == room && db.images[id].displayOrder == m
      invariant !found ==> m == 0 && forall id :: id in db.images && id !in rest ==> db.images[id].roomTypeId != room
      decreases rest
    {
      var id :| id in rest;
      if db.images[id].roomTypeId == room && (!found || db.images[id].displayOrder > m) {
        m := db.images[id].displayOrder;
        found := true;
      }
      rest := rest - {id};
    }
  }

  /** PUT /api/rooms/:id: 404 for a missing room; otherwise every column but
      `hotel_id` and `created_at` is overwritten, listed images of this room are
      removed, and new images get consecutive orders from `top + 1`, where `top`
      is the highest order among the room's remaining images, or 0 when none
      remain. Remaining orders are not compacted. */
  method UpdateRoomType(db: Database, idParam: string, b: RoomBody, removeImages: JsVal, files: seq<Upload>, now: int)
    returns (res: Result<nat, LookupError>, imageIds: seq<nat>, ghost top: int)
    requires db.Valid()
    modifies db`roomTypes, db`images, db`nextImageId
    ensures db.Valid()
    ensures res.Err? <==> IdOf(Str(idParam)).None? || IdOf(Str(idParam)).value !in old(db.roomTypes)
    ensures res.Err? ==> db.roomTypes == old(db.roomTypes) && db.images == old(db.images)
    ensures res.Ok? ==> Some(res.value) == IdOf(Str(idParam))
    ensures res.Ok? ==>
      db.roomTypes == old(db.roomTypes)[res.value :=
        RowFromBody(old(db.roomTypes)[res.value].hotelId, b, old(db.roomTypes)[res.value].createdAt, now)]
    ensures res.Ok? ==> forall id :: id in old(db.images) && old(db.images)[id].roomTypeId != res.value ==>
                          id in db.images && db.images[id] == old(db.images)[id]
    ensures res.Ok? ==> forall id :: id in old(db.images) ==>
              (id in db.images <==> !Removed(old(db.images), id, res.value, removeImages))
    ensures res.Ok? ==> forall id :: id in db.images <==>
              (id in old(db.images) && !Removed(old(db.images), id, res.value, removeImages)) || id in imageIds
    ensures res.Ok? ==> forall id :: id in db.images && id in old(db.images) ==> db.images[id] == old(db.images)[id]
    ensures res.Ok? && |files| == 0 ==> imageIds == [] && db.images.Keys <= old(db.images).Keys
    ensures res.Ok? && |files| > 0 ==> NumberedUploads(db.images, imageIds, res.value, files, top + 1, now)
    ensures res.Ok? && |files| > 0 ==> forall k :: 0 <= k < |imageIds| ==> imageIds[k] !in old(db.images)
    ensures res.Ok? && |files| > 0 ==>
              forall id :: id in db.images && id in old(db.images) && db.images[id].roomTypeId == res.value ==>
                db.images[id].displayOrder <= top
    ensures res.Ok? && |files| > 0 ==>
              (exists id :: id in old(db.images) && id in db.images && db.images[id].roomTypeId == res.value &&
                 db.images[id].displayOrder == top) ||
              (top == 0 && forall id :: id in db.images && id in old(db.images) ==> db.images[id].roomTypeId != res.value)
  {
    imageIds, top := [], 0;
    var id := IdOf(Str(idParam));
    if id.None? || id.value !in db.roomTypes {
      return Err(NotFound), [], 0;
    }
    var room := id.value;
    var stored := db.roomTypes[room];
    db.roomTypes := db.roomTypes[room := RowFromBody(stored.hotelId, b, stored.createdAt, now)];
    imageIds, top := UpdateImages(db, room, removeImages, files, now);
    return Ok(room), imageIds, top;
  }

  /** The image half of the update: the listed images of this room go, then the uploads
      are numbered on from the highest display order left (`top`, 0 when none is left). */
  method UpdateImages(db: Database, room: nat, removeImages: JsVal, files: seq<Upload>, now: int)
    returns (imageIds: seq<nat>, ghost top: int)
    requires db.Valid()
    modifies db`images, db`nextImageId
    ensures db.Valid()
    ensures forall id :: id in old(db.images) && old(db.images)[id].roomTypeId != room ==>
              id in db.images && db.images[id] == old(db.images)[id]
    ensures forall id :: id in old(db.images) ==> (id in db.images <==> !Removed(old(db.images), id, room, removeImages))
    ensures forall id :: id in db.images <==>
              (id in old(db.images) && !Removed(old(db.images), id, room, removeImages)) || id in imageIds
    ensures forall id :: id in db.images && id in old(db.images) ==> db.images[id] == old(db.images)[id]
    ensures |files| == 0 ==> imageIds == [] && db.images.Keys <= old(db.images).Keys
    ensures |files| > 0 ==> NumberedUploads(db.images, imageIds, room, files, top + 1, now)
    ensures |files| > 0 ==> forall k :: 0 <= k < |imageIds| ==> imageIds[k] !in old(db.images)
    ensures |files| > 0 ==>
              forall id :: id in db.images && id in old(db.images) && db.images[id].roomTypeId == room ==>
                db.images[id].displayOrder <= top
    ensures |files| > 0 ==>
              (exists id :: id in old(db.images) && id in db.images && db.images[id].roomTypeId == room &&
                 db.images[id].displayOrder == top) ||
              (top == 0 && forall id :: id in db.images && id in old(db.images) ==> db.images[id].roomTypeId != room)
  {
    imageIds, top := [], 0;
    if removeImages.Arr? {
      RemoveListedImages(db, room, removeImages.items);
    }
    if |files| > 0 {
      var m := MaxDisplayOrder(db, room);
      top := m;
      imageIds := InsertImages(db, room, files, m + 1, now);
    }
  }

  /* ---------- DELETE /api/rooms/:id and DELETE /api/rooms/:id/images/:imageId ---------- */

  /** DELETE /api/rooms/:id: the room type and all its images go; nothing else changes. */
  method DeleteRoomType(db: Database, idParam: string) returns (res: Result<nat, LookupError>)
    requires db.Valid()
    modifies db`roomTypes, db`images
    ensures db.Valid()
    ensures res.Err? <==> IdOf(Str(idParam)).None? || IdOf(Str(idParam)).value !in old(db.roomTypes)
    ensures res.Err? ==> db.roomTypes == old(db.roomTypes) && db.images == old(db.images)
    ensures res.Ok? ==> Some(res.value) == IdOf(Str(idParam)) &&
                        db.roomTypes == old(db.roomTypes) - {res.value} &&
                        db.images == map id | id in old(db.images) && old(db.images)[id].roomTypeId != res.value
                                          :: old(db.images)[id]
  {
    var id := IdOf(Str(idParam));
    if id.None? || id.value !in db.roomTypes {
      return Err(NotFound);
    }
    db.images := map i | i in db.images && db.images[i].roomTypeId != id.value :: db.images[i];
    db.roomTypes := db.roomTypes - {id.value};
    return Ok(id.value);
  }

  /** DELETE /api/rooms/:id/images/:imageId: 404 unless that image belongs to that room. */
  method DeleteImage(db: Database, roomParam: string, imageParam: string) returns (res: Result<nat, LookupError>)
    requires db.Valid()
    modifies db`images
    ensures db.Valid()
    ensures res.Err? <==> !(IdOf(Str(imageParam)).Some? && IdOf(Str(imageParam)).value in old(db.images) &&
                            Some(old(db.images)[IdOf(Str(imageParam)).value].roomTypeId) == IdOf(Str(roomParam)))
    ensures res.Err? ==> db.images == old(db.images)
    ensures res.Ok? ==> db.images == old(db.images) - {res.value}
  {
    var img, room := IdOf(Str(imageParam)), IdOf(Str(roomParam));
    if img.None? || img.value !in db.images || Some(db.images[img.value].roomTypeId) != room {
      return Err(NotFound);
    }
    db.images := db.images - {img.value};
    return Ok(img.value);
  }
}
