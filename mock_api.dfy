/** The in-browser backend the production build talks to (handleMockRequest in
    src/services/api.ts): three in-memory arrays seeded from MockData, an
    if-chain on the endpoint string and the method that picks what to do, and
    push, index assignment and splice on the arrays. Requests that no branch
    handles throw an ApiError with status 404. */
module MockApi {
  import opened Wrappers
  import opened Js
  import opened Text
  import opened Seqs
  import opened MockData

  datatype Collection = Hotels | Rooms | Reservations

  /** What the if-chain decides to do with a request. */
  datatype Op =
    | ListAll(c: Collection)
    | Create(c: Collection)
    | GetOne(c: Collection, id: Option<nat>)
    | Replace(c: Collection, id: Option<nat>)
    | Remove(c: Collection, id: Option<nat>)
    | RoomsOfHotel(hotel: Option<nat>)
    | GuestReservations(email: string)
    | SearchAll
    | HealthCheck
    | NoRoute

  datatype Reply = One(rec: Record) | Many(recs: seq<Record>) | Empty | Health(timestamp: string)

  /** `new ApiError(status, message)`; only the status is modelled. */
  datatype ApiError = ApiError(status: int)

  function CollectionPath(c: Collection): string {
    match c
    case Hotels => "/hotels"
    case Rooms => "/rooms"
    case Reservations => "/reservations"
  }

  /** `endpoint.split('/')[i]`; an absent segment reads as the empty string,
      which `parseInt` turns into NaN just as it does `undefined`. */
  function Part(ep: string, i: nat): string {
    var ps := Split(ep, '/');
    if i < |ps| then ps[i] else ""
  }

  function CollectionOp(c: Collection, m: string): (op: Op)
    requires m == "GET" || m == "POST"
  {
    if m == "GET" then ListAll(c) else Create(c)
  }

  function ItemOp(c: Collection, m: string, id: Option<nat>): (op: Op)
    requires m == "GET" || m == "PUT" || m == "DELETE"
  {
    if m == "GET" then GetOne(c, id) else if m == "PUT" then Replace(c, id) else Remove(c, id)
  }

  /** The branch of handleMockRequest that handles `method endpoint`. A GET, PUT
      or DELETE under an item prefix is answered there; any other method falls
      through to the later branches, as the source's `if`s have no `else`. */
  function Route(ep: string, m: string): (op: Op)
    ensures (op.ListAll? || op.Create?) ==> ep == CollectionPath(op.c)
    ensures op.ListAll? ==> m == "GET"
    ensures op.Create? ==> m == "POST"
    ensures (op.GetOne? || op.Replace? || op.Remove?) ==>
              StartsWith(ep, CollectionPath(op.c) + "/") && op.id == ParseInt(Part(ep, 2))
    ensures op.GetOne? ==> m == "GET"
    ensures op.Replace? ==> m == "PUT"
    ensures op.Remove? ==> m == "DELETE"
    ensures op.RoomsOfHotel? ==> StartsWith(ep, "/hotels/") && Includes(ep, "/rooms") &&
                                  m != "GET" && m != "PUT" && m != "DELETE"
    ensures op.HealthCheck? <==> ep == "/health"
  {
    var item := m == "GET" || m == "PUT" || m == "DELETE";
    var list := m == "GET" || m == "POST";
    if ep == "/hotels" && list then CollectionOp(Hotels, m)
    else if StartsWith(ep, "/hotels/") && item then ItemOp(Hotels, m, ParseInt(Part(ep, 2)))
    else if ep == "/rooms" && list then CollectionOp(Rooms, m)
    else if StartsWith(ep, "/rooms/") && item then ItemOp(Rooms, m, ParseInt(Part(ep, 2)))
    else if StartsWith(ep, "/hotels/") && Includes(ep, "/rooms") then RoomsOfHotel(ParseInt(Part(ep, 2)))
    else if ep == "/reservations" && list then CollectionOp(Reservations, m)
    else if StartsWith(ep, "/reservations/") && item then ItemOp(Reservations, m, ParseInt(Part(ep, 2)))
    else if StartsWith(ep, "/reservations/guest/") then GuestReservations(Part(ep, 3))
    else if StartsWith(ep, "/reservations/search") then SearchAll
    else if ep == "/health" then HealthCheck
    else NoRoute
  }

  /** `r.id === id`, where a NaN id equals nothing. */
  predicate HasId(r: Record, id: Option<nat>) {
    id.Some? && "id" in r && r["id"] == Num(id.value)
  }

  predicate OfHotel(r: Record, hotel: Option<nat>) {
    hotel.Some? && "hotel_id" in r && r["hotel_id"] == Num(hotel.value)
  }

  predicate OfGuest(r: Record, email: string) {
    "guest_email" in r && r["guest_email"] == Str(email)
  }

  /** The callbacks of the `find`, `findIndex` and `filter` calls. */
  function WithId(id: Option<nat>): Record -> bool { r => HasId(r, id) }
  function InHotel(hotel: Option<nat>): Record -> bool { r => OfHotel(r, hotel) }
  function ByGuest(email: string): Record -> bool { r => OfGuest(r, email) }

  /** `{ ...body, id, created_at: now, updated_at: now }`. */
  function NewRecord(body: Record, id: int, now: string): (r: Record)
    ensures r.Keys == body.Keys + {"id", "created_at", "updated_at"}
    ensures r["id"] == Num(id) && r["created_at"] == Str(now) && r["updated_at"] == Str(now)
    ensures forall k :: k in body && k !in {"id", "created_at", "updated_at"} ==> r[k] == body[k]
  {
    body + map["id" := Num(id), "created_at" := Str(now), "updated_at" := Str(now)]
  }

  /** `{ ...stored, ...body, updated_at: now }`. */
  function Merge(stored: Record, body: Record, now: string): (r: Record)
    ensures r.Keys == stored.Keys + body.Keys + {"updated_at"}
    ensures r["updated_at"] == Str(now)
    ensures forall k :: k in body && k != "updated_at" ==> r[k] == body[k]
    ensures forall k :: k in stored && k !in body && k != "updated_at" ==> r[k] == stored[k]
  {
    stored + body + map["updated_at" := Str(now)]
  }

  /** Merging an empty body only refreshes `updated_at`. */
  lemma EmptyMergeOnlyTouchesTimestamp(stored: Record, now: string)
    ensures Merge(stored, map[], now) == stored["updated_at" := Str(now)]
  {
  }

  /** Merging the same body twice changes nothing the first merge did not. */
  lemma MergeIdempotent(stored: Record, body: Record, now: string)
    ensures Merge(Merge(stored, body, now), body, now) == Merge(stored, body, now)
  {
  }

  /** A PUT body may carry its own `id`, which replaces the stored one: the
      record is then no longer found under its old id. */
  lemma {:induction false} PutCanChangeId(stored: Record, now: string)
    requires "id" in stored && stored["id"] == Num(1)
    ensures !HasId(Merge(stored, map["id" := Num(99)], now), Some(1))
    ensures HasId(Merge(stored, map["id" := Num(99)], now), Some(99))
  {
    assert Merge(stored, map["id" := Num(99)], now)["id"] == Num(99);
  }

  class MockBackend {
    var hotels: seq<Record>
    var rooms: seq<Record>
    var reservations: seq<Record>
    const ids: IdGenerator

    ghost predicate Valid()
      reads this, ids
    {
      ids.Valid()
    }

    /** The module state right after loading: the seed arrays and a fresh counter. */
    constructor ()
      ensures Valid() && fresh(ids)
      ensures hotels == SeedHotels && rooms == SeedRoomTypes && reservations == SeedReservations
      ensures ids.first == FirstId() && ids.nextId == FirstId()
    {
      hotels, rooms, reservations := SeedHotels, SeedRoomTypes, SeedReservations;
      ids := new IdGenerator();
    }

    function Items(c: Collection): seq<Record>
      reads this
    {
      match c
      case Hotels => hotels
      case Rooms => rooms
      case Reservations => reservations
    }

    method SetItems(c: Collection, s: seq<Record>)
      modifies this
      ensures Items(c) == s
      ensures forall d :: d != c ==> Items(d) == old(Items(d))
    {
      match c
      case Hotels => hotels := s;
      case Rooms => rooms := s;
      case Reservations => reservations := s;
    }

    /** POST on a collection path: one record pushed, its id freshly generated. */
    method CreateRecord(c: Collection, body: Record, now: string) returns (rec: Record)
      requires Valid()
      modifies this, ids
      ensures Valid()
      ensures rec == NewRecord(body, old(ids.nextId), now)
      ensures ids.nextId == old(ids.nextId) + 1
      ensures Items(c) == old(Items(c)) + [rec]
      ensures forall d :: d != c ==> Items(d) == old(Items(d))
    {
      var id := ids.GenerateId();
      rec := NewRecord(body, id, now);
      SetItems(c, Items(c) + [rec]);
    }

    /** PUT on an item path: 404 when no record has the id, otherwise the first
        one is merged with the body in place. */
    method ReplaceRecord(c: Collection, id: Option<nat>, body: Record, now: string) returns (res: Result<Reply, ApiError>)
      modifies this
      ensures var i := FindIndex(old(Items(c)), WithId(id));
              (i.None? ==> res == Err(ApiError(404)) && Items(c) == old(Items(c))) &&
              (i.Some? ==> Items(c) == old(Items(c))[i.value := Merge(old(Items(c))[i.value], body, now)] &&
                           res == Ok(One(Items(c)[i.value])))
      ensures forall d :: d != c ==> Items(d) == old(Items(d))
    {
      var i := FindIndex(Items(c), WithId(id));
      if i.None? {
        return Err(ApiError(404));
      }
      var merged := Merge(Items(c)[i.value], body, now);
      SetItems(c, Items(c)[i.value := merged]);
      return Ok(One(merged));
    }

    /** DELETE on an item path: 404 when no record has the id, otherwise the
        first one is spliced out and the rest keep their order. */
    method RemoveRecord(c: Collection, id: Option<nat>) returns (res: Result<Reply, ApiError>)
      modifies this
      ensures var i := FindIndex(old(Items(c)), WithId(id));
              (i.None? ==> res == Err(ApiError(404)) && Items(c) == old(Items(c))) &&
              (i.Some? ==> Items(c) == RemoveAt(old(Items(c)), i.value) && res == Ok(Empty))
      ensures forall d :: d != c ==> Items(d) == old(Items(d))
    {
      var i := FindIndex(Items(c), WithId(id));
      if i.None? {
        return Err(ApiError(404));
      }
      SetItems(c, RemoveAt(Items(c), i.value));
      return Ok(Empty);
    }

    /** handleMockRequest(endpoint, { method, body }). The body of a request
        without one is `null`, which spreads as the empty object. */
    method Handle(ep: string, m: string, body: Record, now: string) returns (res: Result<Reply, ApiError>)
      requires Valid()
      modifies this, ids
      ensures Valid()
      ensures match Route(ep, m)
              case ListAll(c) => res == Ok(Many(old(Items(c))))
              case Create(c) => res == Ok(One(NewRecord(body, old(ids.nextId), now))) &&
                                Items(c) == old(Items(c)) + [res.value.rec]
              case GetOne(c, id) =>
                var found := Find(old(Items(c)), WithId(id));
                res == (if found.Some? then Ok(One(found.value)) else Err(ApiError(404)))
              case Replace(c, id) =>
                var i := FindIndex(old(Items(c)), WithId(id));
                (i.None? ==> res == Err(ApiError(404)) && Items(c) == old(Items(c))) &&
                (i.Some? ==> Items(c) == old(Items(c))[i.value := Merge(old(Items(c))[i.value], body, now)] &&
                             res == Ok(One(Items(c)[i.value])))
              case Remove(c, id) =>
                var i := FindIndex(old(Items(c)), WithId(id));
                (i.None? ==> res == Err(ApiError(404)) && Items(c) == old(Items(c))) &&
                (i.Some? ==> Items(c) == RemoveAt(old(Items(c)), i.value) && res == Ok(Empty))
              case RoomsOfHotel(h) => res == Ok(Many(Filter(old(rooms), InHotel(h))))
              case GuestReservations(e) => res == Ok(Many(Filter(old(reservations), ByGuest(e))))
              case SearchAll => res == Ok(Many(old(reservations)))
              case HealthCheck => res == Ok(Health(now))
              case NoRoute => res == Err(ApiError(404))
      ensures !Route(ep, m).Create? ==> ids.nextId == old(ids.nextId)
      ensures Route(ep, m).NoRoute? ==> res == Err(ApiError(404))
      ensures !(Route(ep, m).Create? || Route(ep, m).Replace? || Route(ep, m).Remove?) ==>
                hotels == old(hotels) && rooms == old(rooms) && reservations == old(reservations)
      ensures forall c :: Items(c) != old(Items(c)) ==>
                (Route(ep, m).Create? || Route(ep, m).Replace? || Route(ep, m).Remove?) && Route(ep, m).c == c
    {
      match Route(ep, m)
      case ListAll(c) =>
        res := Ok(Many(Items(c)));
      case Create(c) =>
        var rec := CreateRecord(c, body, now);
        res := Ok(One(rec));
      case GetOne(c, id) =>
        var found := Find(Items(c), WithId(id));
        res := if found.Some? then Ok(One(found.value)) else Err(ApiError(404));
      case Replace(c, id) =>
        res := ReplaceRecord(c, id, body, now);
      case Remove(c, id) =>
        res := RemoveRecord(c, id);
      case RoomsOfHotel(h) =>
        res := Ok(Many(Filter(rooms, InHotel(h))));
      case GuestReservations(e) =>
        res := Ok(Many(Filter(reservations, ByGuest(e))));
      case SearchAll =>
        res := Ok(Many(reservations));
      case HealthCheck =>
        res := Ok(Health(now));
      case NoRoute =>
        res := Err(ApiError(404));
    }
  }

  /* ---------- which branch an endpoint reaches ---------- */

  /** The first segment of `w + "/" + x` is `w` when `w` has no slash. */
  lemma FirstSegment(w: string, x: string)
    requires '/' !in w
    ensures Split(w + "/" + x, '/')[0] == w
  {
    SplitCons(w, x, '/');
  }

  /** The third segment of `"/" + a + "/" + t` is the first segment of `t`. */
  lemma {:induction false} ThirdPart(a: string, t: string)
    requires '/' !in a
    ensures Part("/" + a + "/" + t, 2) == Split(t, '/')[0]
  {
    SplitCons("", a + "/" + t, '/');
    assert "" + "/" + (a + "/" + t) == "/" + a + "/" + t;
    SplitCons(a, t, '/');
  }

  /** `"/hotels/" + id + "/rooms"` is the endpoint roomService.getByHotel requests. */
  lemma {:induction false} HotelRoomsEndpoint(id: string)
    requires id != "" && '/' !in id
    ensures StartsWith("/hotels/" + id + "/rooms", "/hotels/")
    ensures Includes("/hotels/" + id + "/rooms", "/rooms")
    ensures !StartsWith("/hotels/" + id + "/rooms", "/rooms/")
    ensures Part("/hotels/" + id + "/rooms", 2) == id
  {
    var ep := "/hotels/" + id + "/rooms";
    assert ep[..8] == "/hotels/";
    assert ep[1] == 'h';
    assert OccursAt(ep, "/rooms", 8 + |id|) by {
      assert ep[8 + |id|..8 + |id| + 6] == "/rooms";
    }
    IncludesIff(ep, "/rooms");
    assert ep == "/" + "hotels" + "/" + (id + "/" + "rooms");
    ThirdPart("hotels", id + "/" + "rooms");
    FirstSegment(id, "rooms");
  }

  /** A GET of a hotel's rooms is answered by the hotel branch before the
      rooms-of-hotel branch is reached: it looks up the hotel itself. */
  lemma {:induction false} HotelRoomsGetIsCaptured(id: string)
    requires id != "" && '/' !in id
    ensures Route("/hotels/" + id + "/rooms", "GET") == GetOne(Hotels, ParseInt(id))
  {
    HotelRoomsEndpoint(id);
  }

  /** PUT and DELETE of a hotel's rooms act on the hotel record itself. */
  lemma {:induction false} HotelRoomsWritesAreCaptured(id: string)
    requires id != "" && '/' !in id
    ensures Route("/hotels/" + id + "/rooms", "PUT") == Replace(Hotels, ParseInt(id))
    ensures Route("/hotels/" + id + "/rooms", "DELETE") == Remove(Hotels, ParseInt(id))
  {
    HotelRoomsEndpoint(id);
  }

  /** Only a method the hotel branch ignores (POST, PATCH, ...) falls through to
      the rooms-of-hotel branch. */
  lemma {:induction false} HotelRoomsOtherMethodsFallThrough(id: string, m: string)
    requires id != "" && '/' !in id
    requires m != "GET" && m != "PUT" && m != "DELETE"
    ensures Route("/hotels/" + id + "/rooms", m) == RoomsOfHotel(ParseInt(id))
  {
    HotelRoomsEndpoint(id);
  }

  /** A list request with a query string matches no branch. */
  lemma {:induction false} QueryEndpointIsNotFound(q: string, m: string)
    ensures Route("/reservations?" + q, m) == NoRoute
  {
    var ep := "/reservations?" + q;
    assert ep[1] == 'r' && ep[2] == 'e' && ep[13] == '?';
    assert |ep| > 13;
  }

  /** PATCH /reservations/:id/status matches no branch. */
  lemma {:induction false} PatchStatusIsNotFound(id: string)
    requires id != "" && AllDigits(id)
    ensures Route("/reservations/" + id + "/status", "PATCH") == NoRoute
  {
    var ep := "/reservations/" + id + "/status";
    assert ep[1] == 'r' && ep[14] == id[0] && IsDigit(ep[14]);
    DiffersAt(ep, "/hotels/", 1);
    DiffersAt(ep, "/rooms/", 2);
    DiffersAt(ep, "/reservations/guest/", 14);
    DiffersAt(ep, "/reservations/search", 14);
    assert ep != "/health" by { assert ep[1] != "/health"[1]; }
  }

  /** A string that differs from `t` at position `k` does not start with `t`. */
  lemma DiffersAt(s: string, t: string, k: nat)
    requires k < |s| && k < |t| && s[k] != t[k]
    ensures !StartsWith(s, t)
  {
    if |t| <= |s| {
      assert s[..|t|][k] == s[k];
    }
  }

  /** `GET /reservations/guest/<email>` is answered by the reservation item
      branch with the NaN id `parseInt("guest")`, so it finds nothing. */
  lemma {:induction false} GuestGetIsCaptured(email: string)
    ensures Route("/reservations/guest/" + email, "GET") == GetOne(Reservations, None)
  {
    var ep := "/reservations/guest/" + email;
    assert ep[..14] == "/reservations/";
    assert ep[1] == 'r' && ep[2] == 'e';
    assert ep == "/" + "reservations" + "/" + ("guest" + "/" + email);
    ThirdPart("reservations", "guest" + "/" + email);
    FirstSegment("guest", email);
  }

  /** An item request with the NaN id never finds a record. */
  lemma NaNIdFindsNothing(s: seq<Record>)
    ensures Find(s, WithId(None)).None?
  {
  }

  /* ---------- reservationService.getByCodeAndName ---------- */

  /** What getByCodeAndName makes of the request's outcome: the first record or
      null, a 404 as null, any other error rethrown. */
  function CodeLookup(outcome: Result<Reply, ApiError>): (r: Result<Option<Record>, ApiError>)
    ensures outcome.Err? && outcome.error.status == 404 ==> r == Ok(None)
    ensures outcome.Err? && outcome.error.status != 404 ==> r == Err(outcome.error)
    ensures outcome.Ok? && outcome.value.Many? && outcome.value.recs != [] ==> r == Ok(Some(outcome.value.recs[0]))
    ensures outcome.Ok? && outcome.value.Many? && outcome.value.recs == [] ==> r == Ok(None)
  {
    match outcome
    case Err(e) => if e.status == 404 then Ok(None) else Err(e)
    case Ok(Many(recs)) => if |recs| > 0 then Ok(Some(recs[0])) else Ok(None)
    case Ok(_) => Ok(None)
  }

  /** getByCodeAndName in the production build: its query-string endpoint
      reaches no branch, so the 404 becomes `null` whatever is stored. */
  method GetByCodeAndName(b: MockBackend, code: string, guestName: string, now: string)
    returns (r: Result<Option<Record>, ApiError>)
    requires b.Valid()
    modifies b, b.ids
    ensures b.Valid()
    ensures r == Ok(None)
    ensures b.hotels == old(b.hotels) && b.rooms == old(b.rooms) && b.reservations == old(b.reservations)
  {
    var q := "code=" + code + "&guest_name=" + guestName;
    QueryEndpointIsNotFound(q, "GET");
    var outcome := b.Handle("/reservations?" + q, "GET", map[], now);
    r := CodeLookup(outcome);
  }
}
