/** The room-list hook (src/hooks/useRooms.ts): how an API room type becomes
    an accommodation card, the hook's fetch state, and the featured selection.
    The random draws (`Math.random()`) and the outcome of `JSON.parse` on a text
    amenity list are parameters. */
module UseRooms {
  import opened Wrappers
  import opened Seqs
  import opened Text

  /** A JSON.parse result: a string array, a string, a number, a boolean, null or an object. */
  datatype JsonValue = JsonArray(items: seq<string>) | JsonString(s: string) | JsonNumber | JsonBool(b: bool)
                     | JsonNull | JsonObject

  /** `room.amenities`: absent, an array, or text (JSON or comma-separated). For text,
      `json` is what JSON.parse returned, None when it threw. */
  datatype Amenities = NoAmenities | AmenityArray(items: seq<string>) | AmenityText(text: string, json: Option<JsonValue>)

  /** The API's RoomType; an absent description is "". */
  datatype RoomType = RoomType(id: int, hotelId: int, name: string, description: string, capacity: int,
                               pricePerNight: int, amenities: Amenities)

  /** A card's `amenities`: a list, or the string a JSON string parsed to. */
  datatype CardAmenities = AmenityList(items: seq<string>) | AmenityString(s: string)

  datatype AccommodationData = AccommodationData(id: int, name: string, image: string, location: string,
                                                 rating: real, reviewCount: int, price: int, maxGuests: int,
                                                 amenities: CardAmenities, featured: bool)

  /** The two random draws of one card: the rating as computed, and `Math.random()` for the review count. */
  datatype Draw = Draw(rating: real, review: real)

  predicate ValidDraw(d: Draw) {
    0.0 <= d.review < 1.0
  }

  const DefaultImages: seq<string> := ["/src/assets/accommodation-1.jpg", "/src/assets/accommodation-2.jpg",
                                       "/src/assets/accommodation-3.jpg"]

  const DefaultAmenities: seq<string> := ["wifi", "estacionamento"]

  /** The value of `amenities` after the parsing block: the array itself, whatever
      JSON.parse returned, or, when it threw, the trimmed comma-separated parts. */
  function ParsedAmenities(a: Amenities): (r: JsonValue)
    ensures a.NoAmenities? || (a.AmenityText? && a.text == "") ==> r == JsonArray([])
    ensures a.AmenityArray? ==> r == JsonArray(a.items)
    ensures a.AmenityText? && a.text != "" && a.json.Some? ==> r == a.json.value
    ensures a.AmenityText? && a.text != "" && a.json.None? ==>
              r.JsonArray? && |r.items| == |Split(a.text, ',')| &&
              forall i :: 0 <= i < |r.items| ==> r.items[i] == Trim(Split(a.text, ',')[i])
  {
    match a
    case NoAmenities => JsonArray([])
    case AmenityArray(items) => JsonArray(items)
    case AmenityText(text, json) =>
      if text == "" then JsonArray([])
      else if json.Some? then json.value
      else
        var parts := Split(text, ',');
        JsonArray(seq(|parts|, i requires 0 <= i < |parts| => Trim(parts[i])))
  }

  /** `amenities.length > 0 ? amenities : ['wifi', 'estacionamento']`: None when
      reading `length` throws, which it does on null. A value without a `length`
      (number, boolean, object) compares as `undefined > 0`, which is false. */
  function CardAmenitiesOf(v: JsonValue): (r: Option<CardAmenities>)
    ensures r.None? <==> v.JsonNull?
    ensures v.JsonArray? && v.items != [] ==> r == Some(AmenityList(v.items))
    ensures v.JsonString? && v.s != "" ==> r == Some(AmenityString(v.s))
    ensures ((v.JsonArray? && v.items == []) || (v.JsonString? && v.s == "") ||
             v.JsonNumber? || v.JsonBool? || v.JsonObject?) ==> r == Some(AmenityList(DefaultAmenities))
  {
    match v
    case JsonNull => None
    case JsonArray(items) => Some(if |items| > 0 then AmenityList(items) else AmenityList(DefaultAmenities))
    case JsonString(s) => Some(if |s| > 0 then AmenityString(s) else AmenityList(DefaultAmenities))
    case _ => Some(AmenityList(DefaultAmenities))
  }

  /** Text that is valid JSON for a string, such as the `JSON.stringify` of a
      comma-joined list, is shown as that one string, not split into amenities. */
  lemma JsonStringTextIsNotSplit(text: string, s: string)
    requires text != "" && s != ""
    ensures CardAmenitiesOf(ParsedAmenities(AmenityText(text, Some(JsonString(s))))) == Some(AmenityString(s))
  {
  }

  /** `Math.floor(Math.random() * 50) + 20`. */
  function ReviewCount(draw: real): (n: int)
    requires 0.0 <= draw < 1.0
    ensures 20 <= n <= 69
  {
    (draw * 50.0).Floor + 20
  }

  /** mapRoomToAccommodation; None when it throws. */
  function MapRoom(room: RoomType, index: nat, d: Draw): (a: Option<AccommodationData>)
    requires ValidDraw(d)
    ensures a.None? <==> ParsedAmenities(room.amenities).JsonNull?
    ensures a.Some? ==> a.value.id == room.id && a.value.name == room.name
    ensures a.Some? ==> (a.value.featured <==> index < 3)
    ensures a.Some? ==> a.value.image == DefaultImages[index % 3]
    ensures a.Some? ==> a.value.location == (if room.description != "" then room.description else "Center Plaza")
    ensures a.Some? ==> a.value.price == room.pricePerNight && a.value.maxGuests == room.capacity
    ensures a.Some? ==> 20 <= a.value.reviewCount <= 69
    ensures a.Some? ==> Some(a.value.amenities) == CardAmenitiesOf(ParsedAmenities(room.amenities))
    ensures a.Some? ==> a.value.amenities != AmenityList([]) && a.value.amenities != AmenityString("")
  {
    var shown := CardAmenitiesOf(ParsedAmenities(room.amenities));
    if shown.None? then None
    else
      Some(AccommodationData(room.id, room.name, DefaultImages[index % |DefaultImages|],
                             if room.description != "" then room.description else "Center Plaza",
                             d.rating, ReviewCount(d.review), room.pricePerNight, room.capacity,
                             shown.value, index < 3))
  }

  /** The JSON text "null" makes the card throw; "5" or "{}" fall back to the defaults. */
  lemma NonArrayJson(room: RoomType, index: nat, d: Draw)
    requires ValidDraw(d) && room.amenities.AmenityText? && room.amenities.text != ""
    ensures room.amenities.json == Some(JsonNull) ==> MapRoom(room, index, d).None?
    ensures room.amenities.json == Some(JsonNumber) || room.amenities.json == Some(JsonObject) ==>
              MapRoom(room, index, d).Some? && MapRoom(room, index, d).value.amenities == AmenityList(DefaultAmenities)
  {
  }

  /** Some room's card throws. */
  predicate SomeRoomThrows(rooms: seq<RoomType>) {
    exists i :: 0 <= i < |rooms| && ParsedAmenities(rooms[i].amenities).JsonNull?
  }

  /** `roomTypes.map((room, index) => mapRoomToAccommodation(room, index))`: None
      when one of the calls throws. */
  function MapRooms(rooms: seq<RoomType>, draws: seq<Draw>): (r: Option<seq<AccommodationData>>)
    requires |draws| == |rooms| && forall i :: 0 <= i < |draws| ==> ValidDraw(draws[i])
    ensures r.None? <==> SomeRoomThrows(rooms)
    ensures r.Some? ==> |r.value| == |rooms|
    ensures r.Some? ==> forall i :: 0 <= i < |r.value| ==> Some(r.value[i]) == MapRoom(rooms[i], i, draws[i])
  {
    if SomeRoomThrows(rooms) then None
    else
      Some(seq(|rooms|, i requires 0 <= i < |rooms| && |draws| == |rooms| && ValidDraw(draws[i]) &&
                                   !ParsedAmenities(rooms[i].amenities).JsonNull? =>
                 MapRoom(rooms[i], i, draws[i]).value))
  }

  predicate IsFeatured(a: AccommodationData) {
    a.featured
  }

  /** A featured card with `k` featured cards before it is the `k`-th element of the filter. */
  lemma FeaturedAtItsRank(rooms: seq<AccommodationData>)
    ensures forall i :: 0 <= i < |rooms| && rooms[i].featured ==>
              Count(rooms[..i], IsFeatured) < |Filter(rooms, IsFeatured)| &&
              Filter(rooms, IsFeatured)[Count(rooms[..i], IsFeatured)] == rooms[i]
  {
    forall i | 0 <= i < |rooms| && rooms[i].featured
      ensures Count(rooms[..i], IsFeatured) < |Filter(rooms, IsFeatured)|
      ensures Filter(rooms, IsFeatured)[Count(rooms[..i], IsFeatured)] == rooms[i]
    {
      assert rooms == rooms[..i] + rooms[i..];
      FilterConcat(rooms[..i], rooms[i..], IsFeatured);
      assert rooms[i..][0] == rooms[i];
      assert Filter(rooms[i..], IsFeatured)[0] == rooms[i];
    }
  }

  /** useFeaturedRooms: `rooms.filter(room => room.featured).slice(0, 3)`: the first
      three featured cards, in order. */
  function FeaturedRooms(rooms: seq<AccommodationData>): (r: seq<AccommodationData>)
    ensures |r| <= 3
    ensures IsSubsequence(r, rooms)
    ensures forall k :: 0 <= k < |r| ==> r[k].featured
    ensures |r| == 3 || forall i :: 0 <= i < |rooms| && rooms[i].featured ==> rooms[i] in r
    ensures forall i :: 0 <= i < |rooms| && rooms[i].featured && Count(rooms[..i], IsFeatured) < 3 ==> rooms[i] in r
  {
    var f := Filter(rooms, IsFeatured);
    FilterIsSubsequence(rooms, IsFeatured);
    FeaturedAtItsRank(rooms);
    if |f| <= 3 then f
    else
      PrefixOfSubsequence(f, rooms, 3);
      f[..3]
  }

  /** Filtering a list whose first `m` elements pass and the others fail keeps those `m`. */
  lemma FilterPrefix(s: seq<AccommodationData>, m: nat)
    requires m <= |s|
    requires forall i :: 0 <= i < |s| ==> (s[i].featured <==> i < m)
    ensures Filter(s, IsFeatured) == s[..m]
  {
    assert s == s[..m] + s[m..];
    FilterConcat(s[..m], s[m..], IsFeatured);
    FilterAll(s[..m], IsFeatured);
    FilterNone(s[m..], IsFeatured);
  }

  /** The featured rooms of a fetched list are its first min(3, n) cards, in order. */
  lemma FeaturedAreTheFirstThree(rooms: seq<RoomType>, draws: seq<Draw>)
    requires |draws| == |rooms| && forall i :: 0 <= i < |draws| ==> ValidDraw(draws[i])
    requires !SomeRoomThrows(rooms)
    ensures var cards := MapRooms(rooms, draws).value;
            FeaturedRooms(cards) == cards[..if |cards| < 3 then |cards| else 3]
  {
    var cards := MapRooms(rooms, draws).value;
    FilterPrefix(cards, if |cards| < 3 then |cards| else 3);
  }

  /** The hook's state. */
  class RoomsHook {
    var rooms: seq<AccommodationData>
    var loading: bool
    var error: Option<string>

    constructor ()
      ensures rooms == [] && loading && error.None?
    {
      rooms, loading, error := [], true, None;
    }

    /** fetchRooms: `answer` is the room list the API returned, None when the
        request failed; a card that throws fails the whole fetch in the same way. */
    method FetchRooms(answer: Option<seq<RoomType>>, draws: seq<Draw>)
      requires answer.Some? ==> |draws| == |answer.value| && forall i :: 0 <= i < |draws| ==> ValidDraw(draws[i])
      modifies this
      ensures !loading
      ensures answer.Some? && !SomeRoomThrows(answer.value) ==>
                rooms == MapRooms(answer.value, draws).value && error.None?
      ensures answer.None? || SomeRoomThrows(answer.value) ==>
                rooms == [] && error == Some("Erro ao carregar as acomodações")
    {
      loading, error := true, None;
      var failed := answer.None?;
      if answer.Some? {
        var list := answer.value;
        var mapped: seq<AccommodationData> := [];
        var i := 0;
        while i < |list| && !failed
          invariant 0 <= i <= |list| && |mapped| == i
          invariant forall k :: 0 <= k < i ==> Some(mapped[k]) == MapRoom(list[k], k, draws[k])
          invariant failed ==> SomeRoomThrows(list)
        {
          var card := MapRoom(list[i], i, draws[i]);
          if card.None? {
            failed := true;
            break;
          }
          mapped := mapped + [card.value];
          i := i + 1;
        }
        if !failed {
          assert !SomeRoomThrows(list) by {
            forall k | 0 <= k < |list|
              ensures !ParsedAmenities(list[k].amenities).JsonNull?
            {
              assert MapRoom(list[k], k, draws[k]).Some?;
            }
          }
          rooms := mapped;
        }
      }
      if failed {
        error := Some("Erro ao carregar as acomodações");
        rooms := [];
      }
      loading := false;
    }
  }
}
