/** The hotel and room editor (src/pages/AdminCriarQuartos.tsx): the `hotel`,
    `rooms` and `currentRoom` state, the checkbox toggles, the room-type presets,
    the comma-joined lists the page sends and reads, and the two save handlers. The
    server's answers (JSON bodies already parsed, `None` for a failed request)
    are parameters; the toasts and loading flags are not modelled. */
module AdminCriarQuartos {
  import opened Wrappers
  import opened Seqs
  import opened Text
  import opened Js

  /** A file picked in the room form (a browser `File`). */
  datatype RoomFile = RoomFile(name: string, mimeType: string, size: nat)

  /** `Hotel`: `id` is absent until the hotel has been saved. */
  datatype Hotel = Hotel(id: Option<nat>, name: string, address: string, amenities: seq<string>)

  /** `Room`: the form being edited and the saved rooms listed below it. */
  datatype Room = Room(
    id: Option<nat>, hotelId: Option<nat>, name: string, size: int, bedType: string, bedCount: int,
    description: string, amenities: seq<string>, bathroomFeatures: seq<string>, smokingPolicy: string,
    images: seq<RoomFile>, imageUrls: seq<string>, rating: real, reviewCount: int)

  const DefaultSmokingPolicy: string := "Não é permitido fumar"

  /** The empty room form the page starts with and returns to after a save. */
  const EmptyRoom: Room := Room(None, None, "", 0, "", 0, "", [], [], DefaultSmokingPolicy, [], [], 6.4, 540)

  /** A JavaScript id is truthy: present and not 0. */
  predicate Saved(id: Option<nat>) {
    id.Some? && id.value != 0
  }

  // ---- Toggles ----

  predicate NoDuplicates(xs: seq<string>) {
    forall i, j :: 0 <= i < j < |xs| ==> xs[i] != xs[j]
  }

  /** The shared body of the three toggles: drop every copy of `id` if present, else append it. */
  function Toggle(xs: seq<string>, id: string): (r: seq<string>)
    ensures forall x :: x in r <==> (if x == id then id !in xs else x in xs)
  {
    if id in xs then Filter(xs, (x: string) => x != id) else xs + [id]
  }

  /** Toggling twice restores membership of every id; when `id` was absent the list itself comes back. */
  lemma ToggleTwice(xs: seq<string>, id: string)
    ensures forall x :: x in Toggle(Toggle(xs, id), id) <==> x in xs
    ensures id !in xs ==> Toggle(Toggle(xs, id), id) == xs
  {
    if id !in xs {
      FilterConcat(xs, [id], (x: string) => x != id);
      FilterAll(xs, (x: string) => x != id);
    }
  }

  lemma {:induction false} FilterKeepsNoDuplicates(xs: seq<string>, p: string -> bool)
    requires NoDuplicates(xs)
    ensures NoDuplicates(Filter(xs, p))
  {
    if xs != [] {
      var tail := xs[1..];
      assert NoDuplicates(tail) by {
        forall i, j | 0 <= i < j < |tail| ensures tail[i] != tail[j] {
          assert tail[i] == xs[i + 1] && tail[j] == xs[j + 1];
        }
      }
      assert xs[0] !in tail by {
        forall k | 0 <= k < |tail| ensures tail[k] != xs[0] {
          assert tail[k] == xs[k + 1];
        }
      }
      FilterKeepsNoDuplicates(tail, p);
      assert Filter(xs, p) == (if p(xs[0]) then [xs[0]] else []) + Filter(tail, p);
    }
  }

  /** A toggle keeps a list without duplicates without duplicates. */
  lemma ToggleKeepsNoDuplicates(xs: seq<string>, id: string)
    requires NoDuplicates(xs)
    ensures NoDuplicates(Toggle(xs, id))
  {
    if id in xs {
      FilterKeepsNoDuplicates(xs, (x: string) => x != id);
    }
  }

  // ---- Comma-joined lists ----

  /** `s ? s.split(',') : []`: how the page reads a stored list (an absent column reads as ""). */
  function ParseList(s: string): (r: seq<string>)
    ensures s == "" <==> r == []
    ensures NoneContains(r, ',')
  {
    if s == "" then [] else Split(s, ',')
  }

  /** `xs.join(',')`: how the page sends a list. */
  function JoinList(xs: seq<string>): (s: string)
    ensures xs == [] ==> s == ""
  {
    Join(xs, ',')
  }

  /** Reading back a sent list gives the list, for ids without commas (the one-id list [""]
      is the only one that reads back differently, as []). */
  lemma ParseJoin(xs: seq<string>)
    requires NoneContains(xs, ',') && xs != [""]
    ensures ParseList(JoinList(xs)) == xs
  {
    if xs != [] {
      SplitJoin(xs, ',');
    }
  }

  /** Sending a list that was read gives the stored text back. */
  lemma JoinParse(s: string)
    ensures JoinList(ParseList(s)) == s
  {
    if s != "" {
      JoinSplit(s, ',');
    }
  }

  // ---- Loading ----

  /** `v ? v.split(',') : []` on a field of a parsed answer: a falsy value reads as no items and
      text is split at commas; any other truthy value, such as the parsed array both backends
      return for `amenities`, has no `split`, so the call throws (`None`). */
  function ListField(v: JsVal): (r: Option<seq<string>>)
    ensures r.None? <==> Truthy(v) && !v.Str?
    ensures !Truthy(v) ==> r == Some([])
    ensures v.Str? ==> r == Some(ParseList(v.s)) && JoinList(r.value) == v.s
  {
    if v.Str? then
      JoinParse(v.s);
      Some(ParseList(v.s))
    else if Truthy(v) then None
    else Some([])
  }

  /** A row of GET /api/hotels; `amenities` is the parsed JSON value of the column. */
  datatype HotelRow = HotelRow(id: nat, name: string, address: string, amenities: JsVal)

  /** A row of GET /api/rooms?hotel_id=…, read under the names the page uses; an absent
      smoking policy is "". */
  datatype RoomRow = RoomRow(id: nat, hotelId: nat, name: string, size: int, bedType: string, bedCount: int,
                             description: string, amenities: JsVal, bathroomFeatures: JsVal,
                             smokingPolicy: string, images: seq<string>)

  /** The object passed to `setHotel`; `None` when building it throws. */
  function HotelFromRow(h: HotelRow): (r: Option<Hotel>)
    ensures r.None? <==> ListField(h.amenities).None?
    ensures r.Some? ==> r.value.id == Some(h.id) && r.value.name == h.name && r.value.address == h.address &&
                        r.value.amenities == ListField(h.amenities).value
  {
    var amenities := ListField(h.amenities);
    if amenities.None? then None
    else Some(Hotel(Some(h.id), h.name, h.address, amenities.value))
  }

  /** One element of `roomsData.map(...)`; `None` when building it throws. */
  function RoomFromRow(row: RoomRow): (r: Option<Room>)
    ensures r.None? <==> ListField(row.amenities).None? || ListField(row.bathroomFeatures).None?
    ensures r.Some? ==>
              r.value.id == Some(row.id) && r.value.hotelId == Some(row.hotelId) && r.value.name == row.name &&
              r.value.size == row.size && r.value.bedType == row.bedType && r.value.bedCount == row.bedCount &&
              r.value.description == row.description
    ensures r.Some? ==> r.value.amenities == ListField(row.amenities).value &&
                        r.value.bathroomFeatures == ListField(row.bathroomFeatures).value
    ensures r.Some? ==> r.value.smokingPolicy == (if row.smokingPolicy == "" then DefaultSmokingPolicy else row.smokingPolicy)
    ensures r.Some? ==> r.value.images == [] && r.value.imageUrls == row.images &&
                        r.value.rating == 6.4 && r.value.reviewCount == 540
  {
    var amenities := ListField(row.amenities);
    var features := ListField(row.bathroomFeatures);
    if amenities.None? || features.None? then None
    else
      Some(Room(Some(row.id), Some(row.hotelId), row.name, row.size, row.bedType, row.bedCount, row.description,
                amenities.value, features.value,
                if row.smokingPolicy == "" then DefaultSmokingPolicy else row.smokingPolicy,
                [], row.images, 6.4, 540))
  }

  /** `roomsData.map(...)` throws when building some room does. */
  predicate SomeRowThrows(rows: seq<RoomRow>) {
    exists i :: 0 <= i < |rows| && RoomFromRow(rows[i]).None?
  }

  /** Both backends answer `amenities` with a parsed array: then neither the hotel nor a room
      can be built from the row, and the page keeps what it had. */
  lemma ArrayAmenitiesThrow(h: HotelRow, row: RoomRow)
    ensures h.amenities.Arr? ==> HotelFromRow(h).None?
    ensures row.amenities.Arr? ==> RoomFromRow(row).None?
  {
  }

  // ---- Room-type presets ----

  datatype RoomType = RoomType(id: string, name: string, defaultSize: int, bedType: string, bedCount: int)

  const RoomTypes: seq<RoomType> := [
    RoomType("individual", "Quarto Individual", 25, "solteiro", 1),
    RoomType("duplo", "Quarto Duplo", 30, "casal grande", 1),
    RoomType("twin", "Quarto com 2 Camas de Solteiro", 28, "solteiro", 2),
    RoomType("triplo", "Quarto Triplo", 35, "solteiro", 3),
    RoomType("triplo-standard", "Quarto Triplo Standard", 38, "misto", 2)
  ]

  /** handleRoomTypeSelect's update: the preset's name, size and bed fill the form; an unknown id changes nothing. */
  function WithRoomType(room: Room, typeId: string): (r: Room)
    ensures r.(name := room.name, size := room.size, bedType := room.bedType, bedCount := room.bedCount) == room
    ensures (forall i :: 0 <= i < |RoomTypes| ==> RoomTypes[i].id != typeId) ==> r == room
    ensures forall i :: 0 <= i < |RoomTypes| && RoomTypes[i].id == typeId ==>
              r.name == RoomTypes[i].name && r.size == RoomTypes[i].defaultSize &&
              r.bedType == RoomTypes[i].bedType && r.bedCount == RoomTypes[i].bedCount
  {
    var t := FindIndex(RoomTypes, (t: RoomType) => t.id == typeId);
    if t.None? then room
    else
      var rt := RoomTypes[t.value];
      assert forall i :: 0 <= i < |RoomTypes| && RoomTypes[i].id == typeId ==> i == t.value;
      room.(name := rt.name, size := rt.defaultSize, bedType := rt.bedType, bedCount := rt.bedCount)
  }

  /** The "duplo" preset is a 30 m² room with one large double bed. */
  lemma DoublePreset(room: Room)
    ensures WithRoomType(room, "duplo").name == "Quarto Duplo"
    ensures WithRoomType(room, "duplo").size == 30 && WithRoomType(room, "duplo").bedType == "casal grande"
  {
    assert RoomTypes[1].id == "duplo";
  }

  // ---- Images ----

  /** removeImage's `filter((_, i) => i !== index)`: the file at `index` goes, every other stays in order. */
  function WithoutIndex(files: seq<RoomFile>, index: int): (r: seq<RoomFile>)
    ensures !(0 <= index < |files|) ==> r == files
    ensures 0 <= index < |files| ==>
              |r| == |files| - 1 &&
              (forall j :: 0 <= j < index ==> r[j] == files[j]) &&
              (forall j :: index <= j < |r| ==> r[j] == files[j + 1])
  {
    if 0 <= index < |files| then files[..index] + files[index + 1..] else files
  }

  /** Removing the file just added undoes the upload of one file. */
  lemma RemoveUndoesUpload(files: seq<RoomFile>, f: RoomFile)
    ensures WithoutIndex(files + [f], |files|) == files
  {
  }

  // ---- Saving ----

  /** The multipart body of POST /api/rooms; lists are comma-joined. */
  datatype RoomRequest = RoomRequest(hotelId: nat, name: string, size: int, bedType: string, bedCount: int,
                                     description: string, amenities: string, bathroomFeatures: string,
                                     smokingPolicy: string, images: seq<RoomFile>)

  /** The parsed answer of a successful room POST (`images` is [] when absent). */
  datatype SavedRoom = SavedRoom(id: nat, images: seq<string>)

  datatype RoomSaveOutcome = MissingRoomFields | HotelNotSaved | RoomSent(request: RoomRequest)

  function RoomRequestOf(room: Room, hotelId: nat): (q: RoomRequest)
    ensures q.hotelId == hotelId && q.name == room.name && q.size == room.size && q.images == room.images
    ensures q.bedType == room.bedType && q.bedCount == room.bedCount && q.description == room.description
    ensures q.smokingPolicy == room.smokingPolicy
  {
    RoomRequest(hotelId, room.name, room.size, room.bedType, room.bedCount, room.description,
                JoinList(room.amenities), JoinList(room.bathroomFeatures), room.smokingPolicy, room.images)
  }

  /** For a server that stored the request's fields under the names the page sends and
      returned the lists as the joined text, the lists a saved room sends would read back as
      the form's lists, with the name, size and hotel that were sent. */
  lemma SentRoomReadsBack(room: Room, hotelId: nat, row: RoomRow)
    requires NoneContains(room.amenities, ',') && room.amenities != [""]
    requires NoneContains(room.bathroomFeatures, ',') && room.bathroomFeatures != [""]
    requires var q := RoomRequestOf(room, hotelId);
             row.hotelId == q.hotelId && row.name == q.name && row.size == q.size &&
             row.bedType == q.bedType && row.bedCount == q.bedCount && row.description == q.description &&
             row.amenities == Str(q.amenities) && row.bathroomFeatures == Str(q.bathroomFeatures) &&
             row.smokingPolicy == q.smokingPolicy
    ensures RoomFromRow(row).Some?
    ensures var r := RoomFromRow(row).value;
            r.amenities == room.amenities && r.bathroomFeatures == room.bathroomFeatures &&
            r.name == room.name && r.size == room.size && r.hotelId == Some(hotelId)
  {
    ParseJoin(room.amenities);
    ParseJoin(room.bathroomFeatures);
  }

  /** The saved room appended to the list: the form's fields, the new id and the stored image URLs. */
  function SavedRoomEntry(room: Room, hotelId: nat, saved: SavedRoom): (r: Room)
    ensures r.id == Some(saved.id) && r.hotelId == Some(hotelId) && r.imageUrls == saved.images
    ensures r.images == [] && r.rating == 6.4 && r.reviewCount == 540
    ensures r.(id := room.id, hotelId := room.hotelId, images := room.images, imageUrls := room.imageUrls,
               rating := room.rating, reviewCount := room.reviewCount) == room
  {
    room.(id := Some(saved.id), hotelId := Some(hotelId), images := [], imageUrls := saved.images,
          rating := 6.4, reviewCount := 540)
  }

  /** handleSaveRoom's two guards, in order: the outcome names the first one that fails. */
  function RoomSaveCheck(room: Room, hotel: Hotel): (o: RoomSaveOutcome)
    ensures o.MissingRoomFields? <==> room.name == "" || room.size == 0
    ensures o.HotelNotSaved? <==> room.name != "" && room.size != 0 && !Saved(hotel.id)
    ensures o.RoomSent? ==> Saved(hotel.id) && o.request == RoomRequestOf(room, hotel.id.value)
  {
    if room.name == "" || room.size == 0 then MissingRoomFields
    else if !Saved(hotel.id) then HotelNotSaved
    else RoomSent(RoomRequestOf(room, hotel.id.value))
  }

  datatype Verb = Put | Post

  /** The JSON request of handleSaveHotel: PUT /api/hotels/:id for a saved hotel, else POST /api/hotels. */
  datatype HotelRequest = HotelRequest(verb: Verb, target: Option<nat>, name: string, address: string, amenities: string)

  function HotelRequestOf(hotel: Hotel): (q: HotelRequest)
    ensures q.verb == Put <==> Saved(hotel.id)
    ensures q.verb == Put ==> q.target == hotel.id
    ensures q.verb == Post ==> q.target == None
    ensures q.name == hotel.name && q.address == hotel.address && q.amenities == JoinList(hotel.amenities)
  {
    HotelRequest(if Saved(hotel.id) then Put else Post, if Saved(hotel.id) then hotel.id else None,
                 hotel.name, hotel.address, JoinList(hotel.amenities))
  }

  /** `savedHotel.id || prev.id`. */
  function SavedHotelId(answer: Option<nat>, prev: Option<nat>): (id: Option<nat>)
    ensures Saved(answer) ==> id == answer
    ensures !Saved(answer) ==> id == prev
  {
    if Saved(answer) then answer else prev
  }

  class RoomEditor {
    var hotel: Hotel
    var rooms: seq<Room>
    var currentRoom: Room

    /** The initial state before anything is loaded. */
    constructor ()
      ensures hotel == Hotel(None, "Center Plaza Hotel",
                             "Rua Maestro Cardim, 418, Bela Vista, São Paulo, CEP 01323-000, Brasil", [])
      ensures rooms == [] && currentRoom == EmptyRoom
    {
      hotel := Hotel(None, "Center Plaza Hotel",
                     "Rua Maestro Cardim, 418, Bela Vista, São Paulo, CEP 01323-000, Brasil", []);
      rooms := [];
      currentRoom := EmptyRoom;
    }

    /** loadExistingData: the first hotel (if any) and, when its rooms arrive, the rooms.
        `caught` says the try block threw: building the hotel throws before `setHotel`, which
        then changes nothing; mapping the rooms throws after it, which keeps the old rooms. */
    method LoadExistingData(hotels: Option<seq<HotelRow>>, hotelRooms: Option<seq<RoomRow>>) returns (caught: bool)
      modifies this
      ensures currentRoom == old(currentRoom)
      ensures hotels.None? || hotels.value == [] ==> !caught && hotel == old(hotel) && rooms == old(rooms)
      ensures hotels.Some? && hotels.value != [] && HotelFromRow(hotels.value[0]).None? ==>
                caught && hotel == old(hotel) && rooms == old(rooms)
      ensures hotels.Some? && hotels.value != [] && HotelFromRow(hotels.value[0]).Some? ==>
                hotel == HotelFromRow(hotels.value[0]).value &&
                (hotelRooms.None? ==> !caught && rooms == old(rooms)) &&
                (hotelRooms.Some? && SomeRowThrows(hotelRooms.value) ==> caught && rooms == old(rooms)) &&
                (hotelRooms.Some? && !SomeRowThrows(hotelRooms.value) ==>
                   !caught && |rooms| == |hotelRooms.value| &&
                   forall i :: 0 <= i < |rooms| ==> Some(rooms[i]) == RoomFromRow(hotelRooms.value[i]))
    {
      caught := false;
      if hotels.None? || hotels.value == [] {
        return;
      }
      var loadedHotel := HotelFromRow(hotels.value[0]);
      if loadedHotel.None? {
        caught := true;
        return;
      }
      hotel := loadedHotel.value;
      if hotelRooms.Some? {
        var rows := hotelRooms.value;
        var loaded: seq<Room> := [];
        var i := 0;
        while i < |rows|
          invariant 0 <= i <= |rows| && |loaded| == i
          invariant forall k :: 0 <= k < i ==> Some(loaded[k]) == RoomFromRow(rows[k])
        {
          var room := RoomFromRow(rows[i]);
          if room.None? {
            caught := true;
            break;
          }
          loaded := loaded + [room.value];
          i := i + 1;
        }
        if !caught {
          rooms := loaded;
        }
      }
    }

    method HandleHotelAmenityToggle(amenityId: string)
      modifies this
      ensures hotel == old(hotel).(amenities := Toggle(old(hotel).amenities, amenityId))
      ensures rooms == old(rooms) && currentRoom == old(currentRoom)
    {
      hotel := hotel.(amenities := Toggle(hotel.amenities, amenityId));
    }

    method HandleRoomAmenityToggle(amenityId: string)
      modifies this
      ensures currentRoom == old(currentRoom).(amenities := Toggle(old(currentRoom).amenities, amenityId))
      ensures hotel == old(hotel) && rooms == old(rooms)
    {
      currentRoom := currentRoom.(amenities := Toggle(currentRoom.amenities, amenityId));
    }

    method HandleBathroomFeatureToggle(featureId: string)
      modifies this
      ensures currentRoom == old(currentRoom).(bathroomFeatures := Toggle(old(currentRoom).bathroomFeatures, featureId))
      ensures hotel == old(hotel) && rooms == old(rooms)
    {
      currentRoom := currentRoom.(bathroomFeatures := Toggle(currentRoom.bathroomFeatures, featureId));
    }

    method HandleRoomTypeSelect(typeId: string)
      modifies this
      ensures currentRoom == WithRoomType(old(currentRoom), typeId)
      ensures hotel == old(hotel) && rooms == old(rooms)
    {
      currentRoom := WithRoomType(currentRoom, typeId);
    }

    /** handleImageUpload: the picked files are appended in order; no file list leaves the form alone. */
    method HandleImageUpload(files: Option<seq<RoomFile>>)
      modifies this
      ensures currentRoom == old(currentRoom).(images := old(currentRoom).images + (if files.Some? then files.value else []))
      ensures hotel == old(hotel) && rooms == old(rooms)
    {
      if files.Some? {
        currentRoom := currentRoom.(images := currentRoom.images + files.value);
      }
    }

    method RemoveImage(index: int)
      modifies this
      ensures currentRoom == old(currentRoom).(images := WithoutIndex(old(currentRoom).images, index))
      ensures hotel == old(hotel) && rooms == old(rooms)
    {
      currentRoom := currentRoom.(images := WithoutIndex(currentRoom.images, index));
    }

    /** handleSaveRoom. When a guard fails nothing is sent and nothing changes. Otherwise the
        request goes out; `answer` is the server's parsed reply, `None` when the request fails,
        which leaves the state alone. On success the saved room is appended and the form reset. */
    method HandleSaveRoom(answer: Option<SavedRoom>) returns (outcome: RoomSaveOutcome)
      modifies this
      ensures outcome == RoomSaveCheck(old(currentRoom), old(hotel))
      ensures hotel == old(hotel)
      ensures !outcome.RoomSent? || answer.None? ==> rooms == old(rooms) && currentRoom == old(currentRoom)
      ensures outcome.RoomSent? && answer.Some? ==>
                rooms == old(rooms) + [SavedRoomEntry(old(currentRoom), old(hotel).id.value, answer.value)] &&
                currentRoom == EmptyRoom
    {
      outcome := RoomSaveCheck(currentRoom, hotel);
      if !outcome.RoomSent? {
        return;
      }
      if answer.Some? {
        rooms := rooms + [SavedRoomEntry(currentRoom, hotel.id.value, answer.value)];
        currentRoom := EmptyRoom;
      }
    }

    /** handleSaveHotel: refused without a name and an address; otherwise PUT or POST, and on
        success the hotel keeps the id the server returned, or its own when none came back. */
    method HandleSaveHotel(answer: Option<Option<nat>>) returns (request: Option<HotelRequest>)
      modifies this
      ensures request.None? <==> old(hotel).name == "" || old(hotel).address == ""
      ensures request.Some? ==> request.value == HotelRequestOf(old(hotel))
      ensures request.Some? && answer.Some? ==> hotel == old(hotel).(id := SavedHotelId(answer.value, old(hotel).id))
      ensures request.None? || answer.None? ==> hotel == old(hotel)
      ensures rooms == old(rooms) && currentRoom == old(currentRoom)
    {
      if hotel.name == "" || hotel.address == "" {
        return None;
      }
      request := Some(HotelRequestOf(hotel));
      if answer.Some? {
        hotel := hotel.(id := SavedHotelId(answer.value, hotel.id));
      }
    }
  }

  /** Once the hotel has an id every later save of it is a PUT to that id. */
  lemma SavedHotelIsUpdated(hotel: Hotel, answer: Option<nat>)
    requires Saved(hotel.id) || Saved(answer)
    ensures HotelRequestOf(hotel.(id := SavedHotelId(answer, hotel.id))).verb == Put
  {
  }
}
