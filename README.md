# center-plaza in Dafny

center-plaza is a hotel-booking application. A React front end lists
accommodations, walks a guest through a booking wizard of four steps and a confirmation, keeps
favourites and reservations per user, and gives administrators pages to
edit hotels, room types and galleries. It talks to one of three backends:

- Express routers over MySQL (`api/routes/*.js`);
- a monolithic Express server over SQLite (`api/sqlite-server.js`);
- an in-browser mock (`handleMockRequest` in `src/services/api.ts`) over the
  arrays of `src/services/mockData.ts`.

This project models that core in Dafny and proves properties about the model.

The model is grouped as follows:

- **Tables.** `MysqlStore.Database` and `SqliteStore.SqliteDatabase` are
  classes whose fields are the tables. Each field is a map from primary key to
  row, and each auto-increment counter is a field too.
- **Route handlers.** Each handler is a method that changes those maps. It is
  proved against a pure function that states the row it writes (`NewRow`,
  `ApplyUpdate`, `MergeHotel`, …). Validation is a function whose ensures
  name each error case, both ways.
- **Dispatch.** Express's first-match routing in the SQLite server and the
  branch order of `handleMockRequest` are functions. Lemmas about them say
  which handler a request reaches.
- **Client stores.** The React contexts (`ReservationContext`,
  `FavoritesContext`), the mock backend and the id generator are classes whose
  fields are the state arrays. Their methods are tied to specification
  functions (`WithFavorite`, `WithStatus`, …), and lemmas about those
  functions state the invariants: no duplicate pairs, unique ids, idempotence.
- **Pages and components.** `ImageUpload`, `AdminCriarQuartos`, `BookingFlow`,
  `UserProfile`, `HospedagemDetalhes`, `ConsultarReserva` and `useRooms` are
  classes with the component's state as fields. The event handlers are
  methods. The pure parts (formatters, filters, mappers) are functions with
  lemmas.
- **Listing pages.** `AdminReservas`, `Hospedagens`, `AdminHospedagens` and
  `UserDashboard` compute their lists as filters. Their lemmas state that a
  list is a subsequence of its input, describe both directions of its
  membership, and pin down the figures shown on the page's cards.

The modelling primitives are as follows:

- JavaScript values in request bodies are the datatype `Js.JsVal`, with
  `Truthy`, `||`, `??` and the `COALESCE` of SQL written out.
- Dates are day numbers.
- Money and ratings are `int` or `real`; no floating point is modelled.
- Strings are `seq<char>`.

Shared helpers live in `Seqs` (filter, count, subsequence, find, insertion
order), `Text` (lower case, split, join, trim, digits) and `Wrappers`
(Option, Result).

## Model

| member | source | states |
|---|---|---|
| MysqlStore.Database.InsertHotel | api/routes/hotels.js:86-103 | the INSERT adds exactly one hotel row under a fresh positive AUTO_INCREMENT key |
| MysqlStore.Database.InsertRoomType | api/routes/rooms.js:143-162 | the INSERT adds exactly one room-type row under a fresh positive key |
| MysqlStore.Database.InsertImage | api/routes/rooms.js:167-179 | each image gets the next counter value, so ids grow in upload order; nothing else changes |
| MysqlStore.Database.InsertReservation | api/routes/reservations.js:159-171 | the INSERT adds exactly one reservation row under a fresh positive key |
| MysqlReservations.ListReservations | api/routes/reservations.js:5-41 | the listed ids are joined reservations that match every given filter (hotel, status, e-mail); an empty parameter is no filter |
| MysqlReservations.ListWithoutFilters | api/routes/reservations.js:18-31 | with no filter given, every reservation whose hotel and room type exist is listed |
| MysqlReservations.ListIsConjunctive | api/routes/reservations.js:18-31 | the result is the intersection of the three single-filter results |
| MysqlReservations.ListFilterNarrows | api/routes/reservations.js:23-26 | adding a status filter can only shrink the list |
| MysqlReservations.ConflictIds | api/routes/reservations.js:54-64 | the stored reservations of that hotel and room, held, whose stay meets one of the three clauses: every such id and no other |
| MysqlReservations.NoConflictIds | api/routes/reservations.js:54-73 | `isAvailable` (count 0) holds iff no reservation of that hotel and room type, confirmed or pending, meets any of the three interval clauses |
| MysqlReservations.CheckAvailability | api/routes/reservations.js:44-83 | 400 iff a date is missing; otherwise the conflicting ids and the availability flag are exactly those of the query |
| MysqlReservations.ClausesAreHalfOpenOverlap | api/routes/reservations.js:54-64 | for stays with check-in before check-out the three clauses are exactly half-open interval overlap |
| MysqlReservations.BackToBackStaysDoNotConflict | api/routes/reservations.js:54-64 | a stay ending on the requested check-in day (or starting on the check-out day) does not conflict |
| MysqlReservations.ReleasedStaysNeverConflict | api/routes/reservations.js:58 | cancelled and completed reservations never block a stay |
| MysqlReservations.EmptyStoredStayConflicts | api/routes/reservations.js:59-62 | as written, a stored zero-night stay on the requested check-out day counts as a conflict (third clause) although the stays do not overlap |
| MysqlReservations.GetReservation | api/routes/reservations.js:86-109 | found iff the id parses, the row exists and its hotel and room type join; then the stored row is returned; else 404 |
| MysqlReservations.NewRow | api/routes/reservations.js:159-171 | the inserted row: guests default to 1 when falsy, the status is the column default; the keys, dates, guest name, e-mail and total as sent; phone, document and requests as sent or NULL; both timestamps now |
| MysqlReservations.ValidateCreate | api/routes/reservations.js:129-157 | each 400/404 answer holds exactly when its guard is the first to fail (missing fields, hotel, room type of that hotel, past check-in, check-out not after check-in) |
| MysqlReservations.ZeroTotalIsMissing | api/routes/reservations.js:129-131 | a total of 0 is rejected as a missing field |
| MysqlReservations.CreateIgnoresAvailability | api/routes/reservations.js:112-187 | a body that passes every check of the POST is accepted even when a held reservation of its room overlaps the stay and the availability query reports the room as taken |
| MysqlReservations.CreateReservation | api/routes/reservations.js:112-187 | succeeds iff validation passes; then exactly one row, `NewRow`, is added; on error no table changes |
| MysqlReservations.CoalesceDate | api/routes/reservations.js:236-237 | `COALESCE(?, column)`: a sent date replaces the stored one, an absent one keeps it |
| MysqlReservations.ApplyUpdate | api/routes/reservations.js:228-248 | each of the ten body columns keeps its stored value when the body sends NULL and takes the sent value otherwise; hotel, room type and creation time are never touched; the update time is now |
| MysqlReservations.FullUpdateReplacesRow | api/routes/reservations.js:228-248 | a body that sends every column non-NULL replaces all ten of them, keeping hotel, room type and creation time |
| MysqlReservations.EmptyUpdateKeepsRow | api/routes/reservations.js:228-248 | an all-null update changes nothing but the update time |
| MysqlReservations.ApplyUpdateIdempotent | api/routes/reservations.js:228-248 | applying the same update twice equals applying it once |
| MysqlReservations.ValidateUpdate | api/routes/reservations.js:207-226 | 404 iff the id is missing; 400 iff a truthy status is not one of the four; 400 iff both dates are sent and out of order |
| MysqlReservations.AnyStatusMayFollowAny | api/routes/reservations.js:213-216 | any allowed status replaces any other: there is no transition rule |
| MysqlReservations.UpdateCanInvertStay | api/routes/reservations.js:219-226 | as written, an update that sends only a check-out before the stored check-in passes validation and stores a stay that ends before it starts |
| MysqlReservations.EmptyStatusIsStored | api/routes/reservations.js:213-248 | as written, a status of "" passes the check and is stored |
| MysqlReservations.UpdateReservation | api/routes/reservations.js:190-264 | the answer is `ValidateUpdate`; on success only the addressed row changes, to `ApplyUpdate` of it |
| MysqlReservations.DeleteReservation | api/routes/reservations.js:267-284 | 404 iff the row is missing; otherwise exactly that row is removed |
| MysqlHotels.GetHotel | api/routes/hotels.js:39-61 | 404 iff the id does not parse or names no row; otherwise the stored row |
| MysqlHotels.HotelFromBody | api/routes/hotels.js:86-103 | required columns as sent; every falsy optional column is NULL; amenities default to `[]` |
| MysqlHotels.CreateHotel | api/routes/hotels.js:64-124 | 400 iff name, address or city is falsy, and then nothing changes; otherwise one row is added under a fresh id |
| MysqlHotels.CreatedRowsAreNotNull | api/routes/hotels.js:80-103 | a hotel that passed validation fills every NOT NULL column |
| MysqlHotels.UpdateHotel | api/routes/hotels.js:127-193 | 404 iff the hotel is missing; a server error iff the row would break NOT NULL; otherwise only that row is replaced, keeping its creation time |
| MysqlHotels.UpdateDropsOmittedFields | api/routes/hotels.js:155-174 | as written, an optional field left out of the PUT body is overwritten with NULL, so a stored value is lost |
| MysqlHotels.RoomTypesWithout | api/routes/hotels.js:219-222 | exactly the room types of other hotels remain, unchanged |
| MysqlHotels.ImagesWithout | api/routes/hotels.js:213-216 | exactly the images whose room type is not of the deleted hotel remain |
| MysqlHotels.DeleteHotel | api/routes/hotels.js:196-240 | 404 iff missing; otherwise the hotel, its room types and their images go, and reservations stay |
| MysqlHotels.CascadeKeepsCatalogueLinked | api/routes/hotels.js:213-228 | the cascade leaves every remaining room type and image pointing at existing rows |
| MysqlRooms.ListRoomTypes | api/routes/rooms.js:23-60 | with no hotel parameter all room types; with one, exactly those of that hotel, every one of them listed |
| MysqlRooms.ImagesOf | api/routes/rooms.js:44-50 | exactly the images whose room type is the given one |
| MysqlRooms.GetRoomType | api/routes/rooms.js:63-98 | found iff the id parses and names a row; then that row |
| MysqlRooms.SmokingFlag | api/routes/rooms.js:159 | 1 exactly for `'true'` or `true`, 0 otherwise |
| MysqlRooms.RowFromBody | api/routes/rooms.js:143-162 | bed count defaults to 1, occupancy to 2, amenities to `[]`; falsy optional columns are NULL |
| MysqlRooms.ValidateCreate | api/routes/rooms.js:122-140 | 400 iff hotel id or name is falsy; success iff also the hotel exists |
| MysqlRooms.InsertImages | api/routes/rooms.js:167-179 | image k of the upload is stored under a fresh id with display order first+k; old images are untouched |
| MysqlRooms.CreateRoomType | api/routes/rooms.js:101-212 | succeeds iff validation passes; then one room row and the uploads numbered from 1; the image keys grow by exactly the new ids and the old images are unchanged |
| MysqlRooms.RemoveListedImages | api/routes/rooms.js:272-279 | removes exactly the listed images of this room type |
| MysqlRooms.MaxDisplayOrder | api/routes/rooms.js:284-289 | the largest display order among the room's images, or 0 when it has none |
| MysqlRooms.UpdateImages | api/routes/rooms.js:272-298 | a stored image is deleted iff the removal list is an array that lists it and it belongs to this room; the images left keep their rows; the only new keys are the uploads, numbered on from the highest display order left, or from 1 when the room has none left |
| MysqlRooms.Removed | api/routes/rooms.js:272-282 | an image is removed iff the removal list is an array, lists its id and the image belongs to the room being updated |
| MysqlRooms.UpdateRoomType | api/routes/rooms.js:215-334 | 404 iff missing; the row is rewritten; a stored image is deleted iff it is listed for removal and belongs to this room; the only new images are the uploads, numbered after the highest display order left |
| MysqlRooms.DeleteRoomType | api/routes/rooms.js:337-385 | 404 iff missing; otherwise the room type and exactly its images are removed |
| MysqlRooms.DeleteImage | api/routes/rooms.js:388-419 | 404 unless the image exists and belongs to that room type; otherwise exactly that image is removed |
| SqliteStore.SqliteDatabase.InsertHotel | api/sqlite-server.js:56-60 | one hotel row under a fresh AUTOINCREMENT key |
| SqliteStore.SqliteDatabase.InsertRoomType | api/sqlite-server.js:106-116 | one room-type row under a fresh key |
| SqliteStore.SqliteDatabase.InsertReservation | api/sqlite-server.js:403-414 | one reservation row under a fresh key |
| SqliteServer.ParsedAmenities | api/sqlite-server.js:40 | a NULL amenities column reads as `[]`, any other as the value it encodes |
| SqliteServer.JoinedRoomTypes | api/sqlite-server.js:74-95 | GET /api/rooms: exactly the room types whose hotel exists |
| SqliteServer.RoomTypesOfHotelRoute | api/sqlite-server.js:175-197 | exactly the joined room types whose hotel is the parameter, every one of them returned; none when the hotel is missing |
| SqliteServer.JoinedReservations | api/sqlite-server.js:134-150 | GET /api/reservations: exactly the reservations whose hotel and room type exist |
| SqliteServer.LinkedJoinsKeepAll | api/sqlite-server.js:134-150 | in a store whose references all resolve, the JOINs drop no row |
| SqliteServer.GetHotel | api/sqlite-server.js:153-172 | found iff the id names a row; otherwise 404 |
| SqliteServer.GetRoomType | api/sqlite-server.js:200-223 | found iff the room type exists and joins with its hotel; otherwise 404 |
| SqliteServer.GetReservation | api/sqlite-server.js:370-391 | found iff the reservation exists and joins; otherwise 404 |
| SqliteServer.NewHotel | api/sqlite-server.js:51-60 | every column as sent, an absent one NULL, amenities defaulting to `[]`, both timestamps now |
| SqliteServer.CreateHotel | api/sqlite-server.js:51-71 | no validation: the insert succeeds iff the NOT NULL columns are filled, else 500 and nothing changes |
| SqliteServer.RoomFromBody | api/sqlite-server.js:106-116 | every column as sent, an absent one NULL, amenities defaulting to `[]`, smoking 1 iff truthy, the given timestamps |
| SqliteServer.CreateRoomType | api/sqlite-server.js:98-131 | the row is written whatever `hotel_id` names; the answer is 201 only when the hotel exists, else 500 after the write |
| SqliteServer.NewReservation | api/sqlite-server.js:394-414 | every column as sent, an absent one NULL; status 'pending' only when absent; both timestamps now |
| SqliteServer.CreateReservation | api/sqlite-server.js:394-428 | inserted without any check on hotel, room or dates; 500 only when a NOT NULL column is missing |
| SqliteServer.CreateAcceptsUnknownHotel | api/sqlite-server.js:394-428 | as written, any reservation with its NOT NULL columns filled that names a missing hotel is accepted, and the store is then no longer linked |
| SqliteServer.MergeHotel | api/sqlite-server.js:240-251 | each field the body leaves undefined keeps its stored value; each sent field, null included, replaces it |
| SqliteServer.MergeHotelIdempotent | api/sqlite-server.js:240-251 | merging the same body twice equals merging it once |
| SqliteServer.EmptyMergeKeepsHotel | api/sqlite-server.js:240-251 | an empty body changes only the timestamp (and a NULL amenities column becomes `[]`) |
| SqliteServer.MergeKeepsNotNull | api/sqlite-server.js:240-265 | the merged row keeps the NOT NULL columns unless the body nulls one |
| SqliteServer.UpdateHotel | api/sqlite-server.js:226-276 | 404 iff missing; 500 iff the merge nulls a required column; otherwise only that row becomes the merge |
| SqliteServer.UpdateRoomType | api/sqlite-server.js:279-327 | 404 iff missing; every column is overwritten as sent; a 200 answer needs the new hotel to exist |
| SqliteServer.CoalesceReservation | api/sqlite-server.js:455-470 | each of the twelve body columns, hotel and room type included, keeps its stored value when the body sends NULL and takes the sent value otherwise; the NOT NULL columns stay filled |
| SqliteServer.FullBodyReplacesReservation | api/sqlite-server.js:455-470 | a body that sends every column non-NULL replaces all twelve of them, keeping only the creation time |
| SqliteServer.NullBodyKeepsReservation | api/sqlite-server.js:455-470 | a body of nulls keeps every stored field |
| SqliteServer.PutMovesReservation | api/sqlite-server.js:455-470 | any hotel and room type a PUT sends replace the stored ones, which the MySQL router never allows |
| SqliteServer.UpdateReservation | api/sqlite-server.js:431-490 | 404 iff missing; 400 iff a truthy status is not pending, confirmed or cancelled; otherwise only that row is coalesced |
| SqliteServer.PatchStatus | api/sqlite-server.js:493-522 | 400 iff the status is not pending, confirmed or cancelled; a missing id is 404 and changes nothing; otherwise the row's status is set first and the answer is 404 whenever the updated row no longer joins |
| SqliteServer.RoomTypesReferencing | api/sqlite-server.js:537 | exactly the room types whose hotel column refers to the hotel |
| SqliteServer.ReservationsOfHotel | api/sqlite-server.js:543 | exactly the reservations whose hotel column refers to the hotel |
| SqliteServer.ReservationsOfRoomType | api/sqlite-server.js:572 | exactly the reservations whose room-type column refers to the room type |
| SqliteServer.CountZeroIffUnreferenced | api/sqlite-server.js:537-545 | `COUNT(*)` is 0 exactly when no row refers to the target |
| SqliteServer.DeleteHotel | api/sqlite-server.js:525-557 | 404 iff missing, then 400 while a room type refers to it, then 400 while a reservation does; otherwise only the hotel goes |
| SqliteServer.DeleteRoomType | api/sqlite-server.js:560-586 | 404 iff missing, 400 while a reservation refers to it; otherwise only the room type goes |
| SqliteServer.DeleteReservation | api/sqlite-server.js:589-609 | 404 iff missing; otherwise exactly that row is removed |
| SqliteServer.HotelDeleteKeepsLinks | api/sqlite-server.js:537-549 | a hotel delete that passed both guards keeps every reference resolvable |
| SqliteServer.RoomDeleteKeepsLinks | api/sqlite-server.js:572-578 | a room-type delete that passed its guard keeps every reference resolvable |
| SqliteRoutes.WithoutTrailingSlash | api/sqlite-server.js:618-620 | the path is a prefix of the request path, shorter by exactly one trailing slash when there is one |
| SqliteRoutes.FirstMatch | api/sqlite-server.js:26-620 | the first route, in registration order, whose method and pattern match; none before it matches |
| SqliteRoutes.Dispatch | api/sqlite-server.js:26-620 | the handler Express runs is the first matching route; None (404) iff no route matches |
| SqliteRoutes.DuplicateRouteIsShadowed | api/sqlite-server.js:330-367 | a route registered after an identical one never runs |
| SqliteRoutes.FilteredListIsShadowed | api/sqlite-server.js:330-367 | as written, the filtered reservation list (by e-mail, code, name) is unreachable |
| SqliteRoutes.PathParts | api/sqlite-server.js:26-620 | a path built from slash-free segments splits back into them |
| SqliteRoutes.ListGoesToUnfilteredHandler | api/sqlite-server.js:134-150 | `GET /api/reservations` reaches the first, unfiltered handler, whatever its query string |
| SqliteRoutes.HotelRoomsRouteIsReached | api/sqlite-server.js:153-197 | `GET /api/hotels/<id>/rooms` is not captured by `/api/hotels/:id` and reaches the rooms-of-hotel handler |
| MockData.IdField | src/services/mockData.ts:94-98 | the numeric `id` property of a record, when it has one |
| MockData.MaxId | src/services/mockData.ts:94-98 | `Math.max(...ids, 0)`: at least 0 and at least every numeric id |
| MockData.FirstId | src/services/mockData.ts:94-98 | the counter's start value is positive |
| MockData.SeedIdsBelowFirstId | src/services/mockData.ts:4-98 | every seeded hotel, room-type and reservation id is below the first generated id |
| MockData.FirstIdIsFour | src/services/mockData.ts:94-98 | check of the seed data: with the seed arrays as written the counter starts at 4 |
| MockData.IdGenerator.GenerateId | src/services/mockData.ts:100 | `nextId++`: returns the counter and increments it; every id is at least the generator's first id |
| MockData.TwoIds | src/services/mockData.ts:94-100 | after the seeds two calls give increasing ids, neither equal to a seeded reservation id |
| MockData.DayNumber | src/services/mockData.ts:62-63 | a parsed date has the `YYYY-MM-DD` shape |
| MockData.SeedReferencesExist | src/services/mockData.ts:4-88 | every seeded room type and reservation belongs to hotel 1, which is seeded |
| MockData.SeedDates | src/services/mockData.ts:62-79 | the seeded check-in and check-out dates as day numbers |
| MockData.FirstReservationFields | src/services/mockData.ts:54-70 | the first seeded reservation: room type 1, 15 to 18 February 2024, total 450 |
| MockData.SecondReservationFields | src/services/mockData.ts:71-87 | the second seeded reservation: room type 2, 20 to 25 February 2024, total 1250 |
| MockData.SeedPrices | src/services/mockData.ts:18-37 | the nightly prices of room types 1 and 2 are 150 and 250 |
| MockData.SeedReservationsPriced | src/services/mockData.ts:18-87 | each seeded total is its nights times its room type's nightly price |
| MockApi.Route | src/services/api.ts:106-231 | the branch that handles a request: lists and creates only on the exact collection paths, item operations only under the collection prefix with the parsed id, health iff `/health` |
| MockApi.NewRecord | src/services/api.ts:117-121 | `{ ...body, id, created_at, updated_at }`: the body's other keys kept, the three set |
| MockApi.Merge | src/services/api.ts:134 | `{ ...stored, ...body, updated_at }`: body keys win, other stored keys kept, timestamp refreshed |
| MockApi.EmptyMergeOnlyTouchesTimestamp | src/services/api.ts:134 | merging an empty body only refreshes `updated_at` |
| MockApi.MergeIdempotent | src/services/api.ts:134 | merging the same body twice equals merging it once |
| MockApi.PutCanChangeId | src/services/api.ts:131-136 | as written, a PUT body carrying `id` replaces the record's id, so the old id no longer finds it |
| MockApi.MockBackend.SetItems | src/services/api.ts:106-231 | replacing one collection leaves the other two unchanged |
| MockApi.MockBackend.CreateRecord | src/services/api.ts:117-121 | one record is pushed with the next generated id; the other collections are unchanged |
| MockApi.MockBackend.ReplaceRecord | src/services/api.ts:131-136 | 404 iff no record has the id; otherwise the first such record becomes the merge and nothing else changes |
| MockApi.MockBackend.RemoveRecord | src/services/api.ts:137-142 | 404 iff no record has the id; otherwise exactly the first such record is spliced out |
| MockApi.MockBackend.Handle | src/services/api.ts:106-231 | each routed operation does what its branch does; only POST advances the counter; only POST, PUT and DELETE change a collection, and only the addressed one; no branch means 404 |
| MockApi.HotelRoomsEndpoint | src/services/api.ts:282-283 | the endpoint of `getByHotel` starts with `/hotels/`, contains `/rooms`, and its third segment is the hotel id |
| MockApi.HotelRoomsGetIsCaptured | src/services/api.ts:124-130 | as written, `GET /hotels/<id>/rooms` is answered by the hotel branch with the hotel record, never the room list |
| MockApi.HotelRoomsWritesAreCaptured | src/services/api.ts:124-143 | PUT and DELETE of `/hotels/<id>/rooms` act on the hotel record itself |
| MockApi.HotelRoomsOtherMethodsFallThrough | src/services/api.ts:177-181 | only a method the hotel branch ignores reaches the rooms-of-hotel filter |
| MockApi.QueryEndpointIsNotFound | src/services/api.ts:183-230 | a path with a query string matches no branch and is answered 404 |
| MockApi.PatchStatusIsNotFound | src/services/api.ts:194-230 | `PATCH /reservations/<id>/status` matches no branch |
| MockApi.GuestGetIsCaptured | src/services/api.ts:194-219 | `GET /reservations/guest/<email>` is captured by the item branch with a NaN id |
| MockApi.NaNIdFindsNothing | src/services/api.ts:195-196 | an unparsable id finds no record |
| MockApi.CodeLookup | src/services/api.ts:379-391 | getByCodeAndName's reading of the answer: a 404 is null, other errors propagate, a list gives its first element |
| MockApi.GetByCodeAndName | src/services/api.ts:379-391 | against the mock backend the lookup always answers null and changes nothing |
| ReservationContext.NewId | src/contexts/ReservationContext.tsx:70 | "RS" followed by the last six decimal digits of the clock: their value is the clock modulo 1000000, and there are six of them once the clock reaches 100000 |
| ReservationContext.GetReservationById | src/contexts/ReservationContext.tsx:81-87 | None iff no reservation has the id; otherwise the first one that has it |
| ReservationContext.LastToken | src/contexts/ReservationContext.tsx:91 | the text after the last space: it contains no space, and a name without spaces is its own surname |
| ReservationContext.GetReservationByCodeAndName | src/contexts/ReservationContext.tsx:89-95 | None iff no reservation matches code and surname ignoring case; otherwise the first match |
| ReservationContext.LastTokenAfterSpace | src/contexts/ReservationContext.tsx:91 | the surname of "first last" is "last" when "last" has no space |
| ReservationContext.CodeAndNameIgnoreCase | src/contexts/ReservationContext.tsx:92-93 | looking up the lower-cased code and surname finds the same reservation |
| ReservationContext.GetUserReservations | src/contexts/ReservationContext.tsx:97-101 | a permutation of the reservations with this e-mail (ignoring case), newest first |
| ReservationContext.WithStatus | src/contexts/ReservationContext.tsx:103-109 | same length; entries with the id get the new status, everything else is unchanged |
| ReservationContext.WithPaymentStatus | src/contexts/ReservationContext.tsx:111-117 | same length; entries with the id get the new payment status, everything else is unchanged |
| ReservationContext.StatusUpdateIsVisible | src/contexts/ReservationContext.tsx:81-109 | after a status update the lookup finds the same reservation with the new status, or nothing if it found nothing before |
| ReservationContext.StatusUpdateIdempotent | src/contexts/ReservationContext.tsx:103-109 | setting the same status twice equals setting it once |
| ReservationContext.UpdatesAreIndependent | src/contexts/ReservationContext.tsx:103-117 | status and payment-status updates commute |
| ReservationContext.ReservationStore.constructor | src/contexts/ReservationContext.tsx:45 | the provider starts with no reservations |
| ReservationContext.ReservationStore.AddReservation | src/contexts/ReservationContext.tsx:69-79 | appends exactly one reservation carrying the new code and creation time, and returns the code |
| ReservationContext.ReservationStore.UpdateReservationStatus | src/contexts/ReservationContext.tsx:103-109 | the new state is `WithStatus` of the old |
| ReservationContext.ReservationStore.UpdatePaymentStatus | src/contexts/ReservationContext.tsx:111-117 | the new state is `WithPaymentStatus` of the old |
| ReservationContext.AddedIsFound | src/contexts/ReservationContext.tsx:69-87 | an added reservation is found by its code unless an earlier one has the same code |
| FavoritesContext.IsFavorite | src/contexts/FavoritesContext.tsx:79-84 | true iff a user is signed in and has an entry for the accommodation |
| FavoritesContext.WithFavorite | src/contexts/FavoritesContext.tsx:52-68 | unchanged when nobody is signed in or the pair is stored; otherwise the entry is appended |
| FavoritesContext.WithoutFavorite | src/contexts/FavoritesContext.tsx:70-77 | unchanged when nobody is signed in; otherwise exactly this user's entries for the id are dropped, order kept |
| FavoritesContext.GetUserFavorites | src/contexts/FavoritesContext.tsx:86-88 | exactly this user's entries, in stored order |
| FavoritesContext.AddedIsFavorite | src/contexts/FavoritesContext.tsx:52-84 | after adding, the accommodation is a favourite of the signed-in user |
| FavoritesContext.AddKeepsPairsUnique | src/contexts/FavoritesContext.tsx:61-66 | adding never stores an (accommodation, user) pair twice |
| FavoritesContext.RemoveKeepsPairsUnique | src/contexts/FavoritesContext.tsx:74-76 | removing keeps the pairs unique |
| FavoritesContext.RemovedIsNotFavorite | src/contexts/FavoritesContext.tsx:70-84 | after removing, the accommodation is no longer the user's favourite |
| FavoritesContext.AddingTwiceIsAddingOnce | src/contexts/FavoritesContext.tsx:63-64 | adding the same accommodation twice equals adding it once |
| FavoritesContext.FavoritesStore.constructor | src/contexts/FavoritesContext.tsx:32 | the provider starts with no favourites |
| FavoritesContext.FavoritesStore.AddToFavorites | src/contexts/FavoritesContext.tsx:52-68 | the new state is `WithFavorite` of the old, and no pair is stored twice |
| FavoritesContext.FavoritesStore.RemoveFromFavorites | src/contexts/FavoritesContext.tsx:70-77 | the new state is `WithoutFavorite` of the old, and no pair is stored twice |
| ImageUpload.ValidateFile | src/components/admin/ImageUpload.tsx:37-47 | accepted iff the type is listed and the size is at most the limit in MB; the type error wins over the size error |
| ImageUpload.LastRejection | src/components/admin/ImageUpload.tsx:55-62 | the message left by the scan is a validation error, never the gallery-full one |
| ImageUpload.NoRejectionIffAllValid | src/components/admin/ImageUpload.tsx:55-62 | no message is left exactly when every selected file passes validation |
| ImageUpload.NewImage | src/components/admin/ImageUpload.tsx:69-74 | a pushed entry carries its file, no id, no featured flag and the given display order |
| ImageUpload.NewImages | src/components/admin/ImageUpload.tsx:53-75 | one new entry per accepted file |
| ImageUpload.MarkFirstFeatured | src/components/admin/ImageUpload.tsx:81-83 | only the first image changes, and it becomes featured |
| ImageUpload.MarkFeatured | src/components/admin/ImageUpload.tsx:117-121 | only the chosen index is featured; files, previews and ids are kept; every display order is at least 1 and the chosen one is 1 |
| ImageUpload.Accepted | src/components/admin/ImageUpload.tsx:55-62 | the accepted files are a subsequence of the selection, each passing validation |
| ImageUpload.SelectFiles | src/components/admin/ImageUpload.tsx:53-75 | the loop adds the accepted files numbered after the gallery; when they do not fit it keeps the first ones that do and reports the gallery full |
| ImageUpload.FeaturedComesFirst | src/components/admin/ImageUpload.tsx:124-128 | after the sort the chosen image is first and the only featured one |
| ImageUpload.ImageUploader.constructor | src/components/admin/ImageUpload.tsx:25-34 | the props and an empty error |
| ImageUpload.ImageUploader.Room | src/components/admin/ImageUpload.tsx:64 | how many more images fit: none when the gallery is full |
| ImageUpload.ImageUploader.HandleFileSelect | src/components/admin/ImageUpload.tsx:49-87 | a null list does nothing; otherwise the fitting accepted files are appended, numbered, the first image is featured when none is, and the error is the gallery-full one or the last rejection |
| ImageUpload.ImageUploader.Renumber | src/components/admin/ImageUpload.tsx:108-110 | the in-place `forEach` sets each display order to its position and changes nothing else |
| ImageUpload.ImageUploader.Renumbered | src/components/admin/ImageUpload.tsx:131-133 | a renumbered copy of the gallery |
| ImageUpload.ImageUploader.RemoveImage | src/components/admin/ImageUpload.tsx:105-112 | every other image is kept in order and renumbered; an index outside the gallery only renumbers |
| ImageUpload.ImageUploader.SetFeaturedImage | src/components/admin/ImageUpload.tsx:114-136 | nothing without `showFeatured`; otherwise the gallery is marked, sorted featured-first and renumbered |
| ImageUpload.ImageUploader.MoveImage | src/components/admin/ImageUpload.tsx:138-149 | the image is spliced out, inserted at the target and the gallery renumbered |
| ImageUpload.SelectionStaysWithinLimit | src/components/admin/ImageUpload.tsx:64-67 | a gallery within the limit stays within it after a selection |
| ImageUpload.SelectionKeepsPrefix | src/components/admin/ImageUpload.tsx:73-78 | the existing images stay a prefix in order, and each new one's display order is its 1-based position |
| ImageUpload.FeaturedImageResult | src/components/admin/ImageUpload.tsx:114-136 | the chosen image (file, preview, id) ends first and is the only featured one; the orders are 1..n and no image is lost or duplicated |
| ImageUpload.MoveIsPermutation | src/components/admin/ImageUpload.tsx:138-149 | the moved image lands at the target and the result is a rearrangement of the gallery |
| AdminCriarQuartos.Toggle | src/pages/AdminCriarQuartos.tsx:194-201 | after a toggle an id is present exactly when it was absent; every other id keeps its membership |
| AdminCriarQuartos.ToggleTwice | src/pages/AdminCriarQuartos.tsx:194-219 | toggling twice restores membership; when the id was absent the list itself comes back |
| AdminCriarQuartos.ToggleKeepsNoDuplicates | src/pages/AdminCriarQuartos.tsx:194-219 | a toggle keeps a list without duplicates duplicate-free |
| AdminCriarQuartos.ParseList | src/pages/AdminCriarQuartos.tsx:155 | an empty text reads as no items, and no item contains a comma |
| AdminCriarQuartos.JoinList | src/pages/AdminCriarQuartos.tsx:350 | an empty list is sent as the empty text |
| AdminCriarQuartos.ParseJoin | src/pages/AdminCriarQuartos.tsx:350 | reading back a sent list gives the list, for ids without commas other than the one-item list `[""]` |
| AdminCriarQuartos.JoinParse | src/pages/AdminCriarQuartos.tsx:155 | sending a list that was read gives the stored text back |
| AdminCriarQuartos.ListField | src/pages/AdminCriarQuartos.tsx:155 | a falsy value reads as no items; text reads as its comma-separated parts, which join back to it; any other value throws |
| AdminCriarQuartos.HotelFromRow | src/pages/AdminCriarQuartos.tsx:150-156 | building the hotel throws iff its amenities are truthy and not text; otherwise the row's id, name and address and the amenities `ListField` reads |
| AdminCriarQuartos.RoomFromRow | src/pages/AdminCriarQuartos.tsx:162-177 | building the room throws iff its amenities or bathroom features are truthy and not text; otherwise the row's fields, the lists `ListField` reads, the default smoking policy when none is stored, no files, the stored URLs, rating 6.4 and 540 reviews |
| AdminCriarQuartos.ArrayAmenitiesThrow | src/pages/AdminCriarQuartos.tsx:150-177 | amenities answered as a parsed array, as both backends answer them, make building the hotel or the room throw |
| AdminCriarQuartos.WithRoomType | src/pages/AdminCriarQuartos.tsx:221-232 | only name, size, bed type and bed count change; an unknown preset changes nothing; a preset sets its own values |
| AdminCriarQuartos.DoublePreset | src/pages/AdminCriarQuartos.tsx:128-134 | check of the preset table: the "duplo" preset is a 30 m² "Quarto Duplo" with one large double bed |
| AdminCriarQuartos.WithoutIndex | src/pages/AdminCriarQuartos.tsx:402-407 | the file at the index goes and every other stays in order; an index outside the list changes nothing |
| AdminCriarQuartos.RemoveUndoesUpload | src/pages/AdminCriarQuartos.tsx:391-407 | removing the file just added undoes the upload of one file |
| AdminCriarQuartos.RoomRequestOf | src/pages/AdminCriarQuartos.tsx:256-270 | the multipart body carries the hotel id, the form's fields and its files |
| AdminCriarQuartos.SentRoomReadsBack | src/pages/AdminCriarQuartos.tsx:162-177 | for a server that returned the page's own field names and the lists as the joined text, a room stored as sent would load back with the form's lists, name, size and hotel |
| AdminCriarQuartos.SavedRoomEntry | src/pages/AdminCriarQuartos.tsx:284-301 | the appended room: the form's fields, the new id, the hotel, the stored image URLs, rating 6.4 and 540 reviews |
| AdminCriarQuartos.RoomSaveCheck | src/pages/AdminCriarQuartos.tsx:235-251 | refused without a name or a size, then refused while the hotel is unsaved; otherwise the request for the saved hotel |
| AdminCriarQuartos.HotelRequestOf | src/pages/AdminCriarQuartos.tsx:344-356 | PUT to the hotel's id exactly when it is saved, else POST; the name, address and joined amenities |
| AdminCriarQuartos.SavedHotelId | src/pages/AdminCriarQuartos.tsx:370-373 | a truthy returned id wins, else the previous id stays |
| AdminCriarQuartos.SavedHotelIsUpdated | src/pages/AdminCriarQuartos.tsx:353-373 | once the hotel has an id every later save is a PUT |
| AdminCriarQuartos.RoomEditor.constructor | src/pages/AdminCriarQuartos.tsx:80-100 | the initial unsaved "Center Plaza Hotel", no rooms and the empty form |
| AdminCriarQuartos.RoomEditor.LoadExistingData | src/pages/AdminCriarQuartos.tsx:141-192 | a failed or empty hotel answer changes nothing; a hotel whose amenities cannot be split is caught and changes nothing; otherwise the first hotel is loaded and, when its rooms arrive, either some row throws and the old rooms stay, or the rooms are mapped row by row |
| AdminCriarQuartos.RoomEditor.HandleHotelAmenityToggle | src/pages/AdminCriarQuartos.tsx:194-201 | only the hotel's amenities change, by `Toggle` |
| AdminCriarQuartos.RoomEditor.HandleRoomAmenityToggle | src/pages/AdminCriarQuartos.tsx:203-210 | only the form's amenities change, by `Toggle` |
| AdminCriarQuartos.RoomEditor.HandleBathroomFeatureToggle | src/pages/AdminCriarQuartos.tsx:212-219 | only the form's bathroom features change, by `Toggle` |
| AdminCriarQuartos.RoomEditor.HandleRoomTypeSelect | src/pages/AdminCriarQuartos.tsx:221-232 | only the form changes, by `WithRoomType` |
| AdminCriarQuartos.RoomEditor.HandleImageUpload | src/pages/AdminCriarQuartos.tsx:391-400 | the picked files are appended in order; no file list changes nothing |
| AdminCriarQuartos.RoomEditor.RemoveImage | src/pages/AdminCriarQuartos.tsx:402-407 | only the form's files change, by `WithoutIndex` |
| AdminCriarQuartos.RoomEditor.HandleSaveRoom | src/pages/AdminCriarQuartos.tsx:234-332 | the outcome is `RoomSaveCheck`; on a refusal or a failed request nothing changes; on success the saved room is appended and the form reset |
| AdminCriarQuartos.RoomEditor.HandleSaveHotel | src/pages/AdminCriarQuartos.tsx:334-389 | no request without a name and an address; otherwise `HotelRequestOf`, and on success the hotel takes the returned id; the rooms and the form never change |
| BookingFlow.StepIndex | src/components/BookingFlow.tsx:100-101 | `indexOf` finds each step at its position in the step order |
| BookingFlow.NextStep | src/components/BookingFlow.tsx:99-105 | one position forward, and the confirmation stays put |
| BookingFlow.PreviousStep | src/components/BookingFlow.tsx:107-113 | one position back, and the dates step stays put |
| BookingFlow.PreviousUndoesNext | src/components/BookingFlow.tsx:99-113 | forward then back returns to the step, except from the last one |
| BookingFlow.NextUndoesPrevious | src/components/BookingFlow.tsx:99-113 | back then forward returns to the step, except from the first one |
| BookingFlow.FourStepsReachConfirmation | src/components/BookingFlow.tsx:99-105 | four steps forward from any step end at the confirmation |
| BookingFlow.Nights | src/components/BookingFlow.tsx:78 | 0 while a date is missing; otherwise check-in plus the nights is check-out |
| BookingFlow.Subtotal | src/components/BookingFlow.tsx:79 | nothing for no nights or a free accommodation; never negative, and at least one night's price once a night is booked |
| BookingFlow.ServiceFee | src/components/BookingFlow.tsx:80-81 | the fee raises the subtotal by exactly 10%, and lies between nothing and the subtotal |
| BookingFlow.ChargedTotal | src/components/BookingFlow.tsx:80-81 | 110% of the subtotal, or 104.5% when paying by pix (5% off the total at line 134); never less than the subtotal |
| BookingFlow.CanProceedFromDates | src/components/BookingFlow.tsx:93 | both dates are picked and the check-out is later than the check-in |
| BookingFlow.CanProceedFromGuests | src/components/BookingFlow.tsx:94 | between one guest and the accommodation's maximum |
| BookingFlow.CanProceedFromDetails | src/components/BookingFlow.tsx:95 | every field of the guest form is filled |
| BookingFlow.CanProceedFromPayment | src/components/BookingFlow.tsx:96-97 | a method is chosen and the terms accepted; unless the method is pix, every card field is filled; with pix, accepting the terms suffices |
| BookingFlow.ContinueEnabled | src/components/BookingFlow.tsx:558-566 | enabled exactly on the dates, guests or details step when that step's own guard holds |
| BookingFlow.ContinueNeedsStepData | src/components/BookingFlow.tsx:558-566 | an enabled "Continuar" means a step before payment whose data is present: at least one night, 1 to maxGuests guests, or all four details |
| BookingFlow.BookingRecord | src/components/BookingFlow.tsx:122-144 | confirmed and paid; nights, subtotal and price as computed; total is subtotal plus 10%, and 5% less of that for PIX; the guest's details |
| BookingFlow.ConfirmNeedsPayment | src/components/BookingFlow.tsx:96-97 | an enabled confirm button means a method is chosen, the terms accepted, and for a card every card field filled |
| BookingFlow.BookingWizard.constructor | src/components/BookingFlow.tsx:54-76 | the dates step, no dates, 2 guests, the user's name and e-mail, no payment data |
| BookingFlow.BookingWizard.HandleNext | src/components/BookingFlow.tsx:99-105 | the step becomes `NextStep` of it and nothing else changes |
| BookingFlow.BookingWizard.HandlePrevious | src/components/BookingFlow.tsx:107-113 | the step becomes `PreviousStep` of it and nothing else changes |
| BookingFlow.BookingWizard.ClickContinue | src/components/BookingFlow.tsx:558-566 | the step advances exactly when the button is enabled |
| BookingFlow.BookingWizard.HandleConfirmBooking | src/components/BookingFlow.tsx:115-157 | with both dates, exactly one reservation, `BookingRecord`, is added under the new code, and the wizard shows the confirmation; with a date missing the thrown error leaves everything unchanged |
| BookingFlow.BookingWizard.ClickConfirm | src/components/BookingFlow.tsx:550-556 | nothing happens unless on the payment step with the payment guard holding; then one confirmed, paid reservation is added |
| BookingFlow.BookingWizard.ResetBooking | src/components/BookingFlow.tsx:159-175 | back to the initial state with the user's name and e-mail |
| UserProfile.FormatCpf | src/pages/UserProfile.tsx:139-142 | with at least 11 digits the first 11 are masked as ddd.ddd.ddd-dd and the remaining digits follow; with fewer, the bare digits |
| UserProfile.FormatPhone | src/pages/UserProfile.tsx:144-147 | with at least 11 digits the first 11 are masked as (dd) ddddd-dddd and the remaining digits follow; with fewer, the bare digits |
| UserProfile.FormatZipCode | src/pages/UserProfile.tsx:149-152 | with at least 8 digits the first 8 are masked as ddddd-ddd and the remaining digits follow; with fewer, the bare digits |
| UserProfile.CpfMaskKeepsDigits | src/pages/UserProfile.tsx:141 | the CPF mask adds only punctuation: its digits are its input |
| UserProfile.PhoneMaskKeepsDigits | src/pages/UserProfile.tsx:146 | the phone mask adds only punctuation |
| UserProfile.ZipCodeMaskKeepsDigits | src/pages/UserProfile.tsx:151 | the CEP mask adds only punctuation |
| UserProfile.FormattersKeepDigits | src/pages/UserProfile.tsx:139-152 | the digits of each formatter's output are the digits of its input |
| UserProfile.FormattersAreIdempotent | src/pages/UserProfile.tsx:139-152 | formatting a formatted value changes nothing |
| UserProfile.ShortInputsStayDigits | src/pages/UserProfile.tsx:139-152 | with fewer digits than the pattern needs the regex does not match, and the bare digits come back |
| UserProfile.CpfMaskMatchesCheck | src/pages/UserProfile.tsx:139-142 | from 11 digits on, the first 11 are masked as ddd.ddd.ddd-dd and the rest follow, three characters longer; exactly 11 give a value the save check accepts, more give a value it refuses |
| UserProfile.PhoneAndZipMasks | src/pages/UserProfile.tsx:144-152 | from 11 digits on, (dd) ddddd-dddd followed by the rest, four characters longer; from 8 digits on, ddddd-ddd followed by the rest, one character longer |
| UserProfile.SaveCheck | src/pages/UserProfile.tsx:81-97 | accepted iff name and e-mail are set, the e-mail has the pattern, and the CPF is empty or has the pattern; the missing-field error has priority |
| UserProfile.AddressKey | src/pages/UserProfile.tsx:58 | `split('.')[1]` contains no dot |
| UserProfile.AddressKeyOf | src/pages/UserProfile.tsx:57-58 | the key of "address.k" is k for a dot-free k |
| UserProfile.PasswordCheck | src/pages/UserProfile.tsx:109-124 | accepted iff all three fields are set, the new one equals the confirmation and has at least 6 characters; the missing-field error has priority |
| UserProfile.ProfilePage.constructor | src/pages/UserProfile.tsx:27-54 | the form as given, empty passwords, not editing |
| UserProfile.ProfilePage.HandleInputChange | src/pages/UserProfile.tsx:56-72 | an "address.k" field sets key k of the address; any other field sets that top-level field |
| UserProfile.ProfilePage.HandlePasswordChange | src/pages/UserProfile.tsx:74-79 | the named password field takes the value and the others are kept |
| UserProfile.ProfilePage.HandleSaveProfile | src/pages/UserProfile.tsx:81-107 | the error is `SaveCheck`; a refused form changes nothing; an accepted one ends editing and is handed to `updateUser` |
| UserProfile.ProfilePage.HandleChangePassword | src/pages/UserProfile.tsx:109-137 | the error is `PasswordCheck`; on success the three fields are cleared, otherwise nothing changes |
| AdminReservas.FilteredReservations | src/pages/AdminReservas.tsx:95-104 | a subsequence of the list; a reservation is shown iff the term occurs, ignoring case, in guest, code or accommodation and the status filter is "todas" or equal |
| AdminReservas.UnfilteredShowsAll | src/pages/AdminReservas.tsx:95-104 | no search term and "todas" show the whole list |
| AdminReservas.StatusNarrows | src/pages/AdminReservas.tsx:95-104 | choosing one status shows a sub-list of what "todas" shows |
| AdminReservas.CountStatus | src/pages/AdminReservas.tsx:127-128 | a card's count never exceeds the list length |
| AdminReservas.ConfirmedAndPendingWithinTotal | src/pages/AdminReservas.tsx:126-128 | the "Confirmadas" and "Pendentes" cards together count at most the "Total de Reservas" card |
| AdminReservas.Revenue | src/pages/AdminReservas.tsx:129 | "Receita Total" is non-negative when every value is |
| AdminReservas.RevenueAdds | src/pages/AdminReservas.tsx:129 | the revenue of a split list is the sum of the parts' revenues |
| AdminReservas.RevenueOfOne | src/pages/AdminReservas.tsx:129 | one reservation contributes its value exactly when its payment status is "pago" |
| AdminReservas.PageFigures | src/pages/AdminReservas.tsx:32-130 | check of the page's constant list: its cards show 4 reservations, 2 confirmed, 1 pending and R$ 2200 |
| Hospedagens.FilteredAccommodations | src/pages/Hospedagens.tsx:91-96 | a subsequence of the list; an accommodation is shown iff the term occurs, ignoring case, in name or location and the guest filter is empty or at most its capacity |
| Hospedagens.UnfilteredShowsAll | src/pages/Hospedagens.tsx:91-96 | with no term and no guest filter every accommodation is shown |
| Hospedagens.GuestThreshold | src/pages/Hospedagens.tsx:94 | for an option "t" the guest filter holds iff the capacity is at least t |
| Hospedagens.HigherThresholdNarrows | src/pages/Hospedagens.tsx:94 | a higher guest option shows a sub-list of a lower one |
| AdminHospedagens.FilteredAccommodations | src/pages/AdminHospedagens.tsx:69-72 | a subsequence of the list; shown iff the term occurs, ignoring case, in name or location |
| AdminHospedagens.EmptySearchShowsAll | src/pages/AdminHospedagens.tsx:69-72 | an empty search shows every accommodation |
| AdminHospedagens.ActiveCount | src/pages/AdminHospedagens.tsx:211 | the "Ativas" count never exceeds the total |
| AdminHospedagens.ActivePlusInactiveIsTotal | src/pages/AdminHospedagens.tsx:198-211 | active and non-active accommodations add up to the total |
| AdminHospedagens.PageFigures | src/pages/AdminHospedagens.tsx:33-211 | check of the page's constant list: it shows 3 accommodations, 2 of them active |
| HospedagemDetalhes.NextIndex | src/pages/HospedagemDetalhes.tsx:99-103 | one photo forward inside the carousel, wrapping from the last photo to the first |
| HospedagemDetalhes.PrevIndex | src/pages/HospedagemDetalhes.tsx:105-109 | one photo back inside the carousel, wrapping from the first photo to the last |
| HospedagemDetalhes.PrevUndoesNext | src/pages/HospedagemDetalhes.tsx:99-109 | back undoes forward and forward undoes back |
| HospedagemDetalhes.NextTimesWithinRange | src/pages/HospedagemDetalhes.tsx:99-103 | before the last photo is passed, k presses move k photos on |
| HospedagemDetalhes.NextTimesAdd | src/pages/HospedagemDetalhes.tsx:99-103 | a + b presses are a presses followed by b presses |
| HospedagemDetalhes.FullTurnReturns | src/pages/HospedagemDetalhes.tsx:99-103 | as many forward presses as there are photos return to the starting photo |
| HospedagemDetalhes.OneLess | src/pages/HospedagemDetalhes.tsx:357-379 | the guest and night "-" buttons: one less, but never below 1 |
| HospedagemDetalhes.MoreGuests | src/pages/HospedagemDetalhes.tsx:365 | never above the capacity, otherwise one more |
| HospedagemDetalhes.DisplayedTotal | src/pages/HospedagemDetalhes.tsx:398-406 | for at least one night the total is at least one nightly price plus the R$ 50 fee |
| HospedagemDetalhes.ExtraNightCostsOnePrice | src/pages/HospedagemDetalhes.tsx:147 | one more night adds one nightly price to the total |
| HospedagemDetalhes.FavoriteUpdate | src/pages/HospedagemDetalhes.tsx:117-132 | a favourite is removed, any other accommodation added |
| HospedagemDetalhes.FavoriteFlips | src/pages/HospedagemDetalhes.tsx:111-133 | for a signed-in user the heart flips the favourite state |
| HospedagemDetalhes.DetailsPage.constructor | src/pages/HospedagemDetalhes.tsx:46-51 | the first photo, 2 guests, 3 nights, no dialog open |
| HospedagemDetalhes.DetailsPage.NextImage | src/pages/HospedagemDetalhes.tsx:99-103 | only the photo index changes, by `NextIndex` |
| HospedagemDetalhes.DetailsPage.PrevImage | src/pages/HospedagemDetalhes.tsx:105-109 | only the photo index changes, by `PrevIndex` |
| HospedagemDetalhes.DetailsPage.DecrementGuests | src/pages/HospedagemDetalhes.tsx:357 | only the guests change, by `OneLess` |
| HospedagemDetalhes.DetailsPage.IncrementGuests | src/pages/HospedagemDetalhes.tsx:365 | only the guests change, by `MoreGuests` up to 6 |
| HospedagemDetalhes.DetailsPage.DecrementNights | src/pages/HospedagemDetalhes.tsx:379 | only the nights change, by `OneLess` |
| HospedagemDetalhes.DetailsPage.IncrementNights | src/pages/HospedagemDetalhes.tsx:387 | only the nights change, one more, without an upper bound |
| HospedagemDetalhes.DetailsPage.HandleFavorite | src/pages/HospedagemDetalhes.tsx:111-133 | without a session only the sign-in dialog opens; with one the favourites become `FavoriteUpdate` of them |
| HospedagemDetalhes.DetailsPage.HandleBookNow | src/pages/HospedagemDetalhes.tsx:139-145 | the wizard opens only with a session, otherwise the sign-in dialog |
| UserDashboard.UserReservations | src/pages/UserDashboard.tsx:39 | no reservations without a session; otherwise exactly the signed-in guest's reservations |
| UserDashboard.Reservas | src/pages/UserDashboard.tsx:42 | an in-order sub-list of the guest's reservations, all confirmed or pending |
| UserDashboard.Historico | src/pages/UserDashboard.tsx:43 | an in-order sub-list of the guest's reservations, all cancelled |
| UserDashboard.TabsPartition | src/pages/UserDashboard.tsx:42-43 | every reservation lies in exactly one of the two tabs, and the tab sizes add up to the list's |
| UserDashboard.PaymentOf | src/pages/UserDashboard.tsx:46-54 | the payment code is `PAG` and the reservation code's last three characters; PIX exactly for "pix"; "aprovado" for a paid reservation, its own payment status otherwise |
| UserDashboard.Pagamentos | src/pages/UserDashboard.tsx:46-54 | one payment per reservation, position by position |
| UserDashboard.SharedSuffixSharesPaymentId | src/pages/UserDashboard.tsx:47 | two reservation codes ending in the same three characters give the same payment code |
| UserDashboard.Favoritos | src/pages/UserDashboard.tsx:57 | no favourites without a session; otherwise exactly the signed-in user's favourites |
| UseRooms.ParsedAmenities | src/hooks/useRooms.ts:28-39 | absent or empty text gives an empty array; an array is kept; text JSON.parse accepts gives whatever it returned, array or not; text it rejects gives its trimmed comma-separated parts |
| UseRooms.CardAmenitiesOf | src/hooks/useRooms.ts:50 | reading `length` of a parsed `null` throws; a non-empty array or string is shown as such; anything else, empty or without a length, falls back to wifi and parking |
| UseRooms.JsonStringTextIsNotSplit | src/hooks/useRooms.ts:30-35 | text that parses to a JSON string is shown as that string, never split at commas |
| UseRooms.NonArrayJson | src/hooks/useRooms.ts:28-50 | amenities text parsing to `null` makes the card throw; text parsing to a number or an object gives the default amenities |
| UseRooms.ReviewCount | src/hooks/useRooms.ts:47 | for a random draw in [0, 1) the review count lies between 20 and 69 |
| UseRooms.MapRoom | src/hooks/useRooms.ts:26-53 | the card fails iff the parsed amenities are `null`; otherwise it keeps the room's id, name, price and capacity; the photo cycles through the three defaults; the first three cards are featured; the location falls back to "Center Plaza"; the amenities are what `CardAmenitiesOf` gives and never empty |
| UseRooms.MapRooms | src/hooks/useRooms.ts:70-72 | fails iff some room's card throws; otherwise one card per room, the i-th built from the i-th room at index i |
| UseRooms.FeaturedRooms | src/hooks/useRooms.ts:88-93 | at most three featured cards, in list order; every featured card with fewer than three featured cards before it is kept, so the result is the first three featured cards, or all of them when fewer exist |
| UseRooms.FeaturedAreTheFirstThree | src/hooks/useRooms.ts:51-90 | when no card throws, the featured rooms of a fetched list are exactly its first three cards, or all of them when there are fewer |
| UseRooms.RoomsHook.constructor | src/hooks/useRooms.ts:56-58 | no rooms, loading, no error |
| UseRooms.RoomsHook.FetchRooms | src/hooks/useRooms.ts:64-83 | loading ends; a fetch whose every card can be built shows the mapped rooms without error; a failed fetch, or one where some card throws, shows no rooms and the error message |
| ConsultarReserva.StatusLabel | src/pages/ConsultarReserva.tsx:66-79 | the four English status names get Portuguese labels; any other text is shown unchanged |
| ConsultarReserva.StoredStatusesShowAsStored | src/pages/ConsultarReserva.tsx:66-79 | every status the store can hold is shown untranslated, because the store's statuses are Portuguese |
| ConsultarReserva.LookupPage.constructor | src/pages/ConsultarReserva.tsx:16-18 | empty code and surname, no reservation shown |
| ConsultarReserva.LookupPage.HandleSearch | src/pages/ConsultarReserva.tsx:22-64 | with either field empty nothing is looked up; otherwise the shown reservation is the store's match by code and surname, and the outcome says found exactly when one is shown |
| ConsultarReserva.NewReservationIsFound | src/pages/ConsultarReserva.tsx:37 | a reservation just added under a guest's full name is found by its code and the surname |

## Left out

- Server bootstrap, connection pools, the health endpoints and the schema scripts are process and file I/O; only the schema defaults they state (such as a reservation's default status) are used.
- The MySQL schema file `api/database/schema.sql`, which both MySQL setup scripts read, is not part of this model; api/create-tables.js declares only the `hotels` table. The MySQL model therefore assumes that schema sets no foreign keys and no NOT NULL columns on `room_types`, `room_images` and `reservations`: `MysqlHotels.DeleteHotel` and `MysqlRooms.DeleteRoomType` leave referencing reservations in place, and no insert into those tables is refused for a NULL column.
- Js.ParseInt: leading white space, a sign and hexadecimal "0x" text, which JavaScript's `parseInt` accepts (so `/hotels/0x1A` would find id 26), are not modelled; the app never builds such paths.
- `GET /api/hotels` (api/routes/hotels.js:23-36, api/sqlite-server.js:31-48) returns every row; it has no rule beyond the row order, so it is not modelled.
- Row order from `ORDER BY` is not modelled in either backend: lists are kept in insertion order, and the models claim nothing about sort order.
- The MySQL database's transactions are not modelled: a compound write is one step that either happens whole or not at all; concurrent requests and the check-then-insert race are out of scope.
- SQL collation, lenient numeric conversion of request fields and percent-encoding of paths are not modelled; ids arrive already parsed.
- MysqlReservations.CreateReservation: the mysql2 driver refuses an `undefined` bind parameter, so a POST that omits `guest_phone`, `guest_document` or `special_requests` is answered 500 and writes nothing; the model writes NULL for it (`AsColumn` in `NewRow`) and answers 201.
- MysqlReservations.UpdateReservation: for the same driver reason, a PUT that omits any of its ten body fields is answered 500 and changes nothing; the model treats an omitted field like an explicit `null`, so `ApplyUpdate` describes the outcome only for bodies that send every field, `null` allowed.
- MysqlRooms.UpdateRoomType: a PUT that omits `name` is answered 500 and rolled back; the model writes NULL for the name (`AsColumn` in `RowFromBody`). The SQLite server, whose driver binds `undefined` as NULL, behaves as in the model.
- The server's clock (`new Date()`, today, `CURRENT_TIMESTAMP`), `Date.now()`, the `new Date()` ISO `createdAt` (kept as milliseconds), `Math.random()` and the result of `JSON.parse` are parameters of the operations that use them.
- The client's `localStorage` loading and saving, `fetch` and `FormData`, multer's upload handling, toasts, loading flags and the 2-second and 300-millisecond delays are effects around the modelled state and are not modelled.
- Browser `File` objects and `URL.createObjectURL` are not modelled: a file is its name, MIME type and size, and a preview URL is a parameter.
- Text.Lower: `toLowerCase` is modelled on the Basic Latin and Latin-1 letters only, and string lengths count characters rather than UTF-16 code units.
- Floating point: money in the booking wizard is an exact real, so `toFixed` rounding and the display of amounts (`toLocaleString`) are not modelled; the random rating of a room card and its `toFixed(1)` are left out.
- UserProfile.ProfilePage.HandleInputChange: requires that the field is not the bare name "address", which no input of the page passes.
- UserProfile.ProfilePage.HandlePasswordChange: takes one of the three field names the page passes, not an arbitrary string.
- ImageUpload.ImageUploader.MoveImage: requires both indices to be in range, as the component only calls it with positions of the shown list.
- ImageUpload: the source's `forEach` updates the image objects it shares with the previous state in place; the model works on values and does not capture that aliasing.
- ReservationContext: `getReservation` is the same `find` as `getReservationById`, so it is not a separate member.
- ConsultarReserva.LookupPage.HandleSearch: the lookup is a pure `find` that cannot throw, so the catch branch with its error toast is not modelled.
- An absent description or smoking policy of a room is modelled as the empty string, which the source treats the same way.
- The status and payment colours, the icons and every other purely presentational choice are not modelled.
- ImageUpload's drag-and-drop handlers only set a drag flag or pass the dropped files to the same selection logic as the file input, so only the selection is modelled.
- The sharing dialog and the close handler of the booking wizard (a reset followed by closing) are not modelled beyond `ResetBooking`.
- UseRooms.CardAmenitiesOf: a parsed JSON object is treated as having no `length`, so an object with a numeric `length` property, and array items that are not strings, are not modelled.
- AdminCriarQuartos.SentRoomReadsBack: the room POST sends `size`, `bathroom_features` and `smoking_policy`, but the MySQL router reads `size_sqm`, `bathroom_type` and `smoking_allowed`, and the SQLite server parses no multipart body at all; and both return `amenities` as an array. So no backend here returns a saved room in the form the lemma assumes, and `RoomRow` takes the fields the page reads as given rather than deriving them from either backend's row.
- AdminCriarQuartos.RoomEditor.LoadExistingData: the answers are parameters, not derived from the backends' rows; against either backend the hotel's `amenities` is an array, so the `split` throws (`ArrayAmenitiesThrow`) and the page keeps its initial hotel and rooms.
