/** The seed collections of the in-browser mock backend (src/services/mockData.ts)
    and its id generator. Records are JavaScript objects: maps from property
    names to values, so that spreading one object over another is map union. */
module MockData {
  import opened Wrappers
  import opened Js
  import opened Text

  type Record = map<string, JsVal>

  /** The record's `id` property, when it is a number. */
  function IdField(r: Record): (id: Option<int>)
    ensures id.Some? <==> "id" in r && r["id"].Num?
    ensures id.Some? ==> r["id"] == Num(id.value)
  {
    if "id" in r && r["id"].Num? then Some(r["id"].n) else None
  }

  const SeedHotels: seq<Record> := [
    map["name" := Str("Center Plaza Hotel"),
        "description" := Str("Um hotel moderno no centro da cidade com todas as comodidades necess\U{00E1}rias para uma estadia confort\U{00E1}vel."),
        "address" := Str("Rua Principal, 123 - Centro"), "location" := Str("Centro da Cidade"),
        "phone" := Str("(11) 1234-5678"), "email" := Str("contato@centerplaza.com"),
        "created_at" := Str("2024-01-01T00:00:00Z"), "updated_at" := Str("2024-01-01T00:00:00Z"), "id" := Num(1)]
  ]

  const SeedRoomTypes: seq<Record> := [
    map["hotel_id" := Num(1), "name" := Str("Quarto Standard"),
        "description" := Str("Quarto confort\U{00E1}vel com cama de casal, ar-condicionado e Wi-Fi gratuito."),
        "capacity" := Num(2), "price_per_night" := Num(150),
        "amenities" := Arr([Str("Wi-Fi"), Str("Ar-condicionado"), Str("TV"), Str("Frigobar")]),
        "created_at" := Str("2024-01-01T00:00:00Z"), "updated_at" := Str("2024-01-01T00:00:00Z"), "id" := Num(1)],
    map["hotel_id" := Num(1), "name" := Str("Quarto Deluxe"),
        "description" := Str("Quarto espa\U{00E7}oso com vista para a cidade, cama king size e banheira."),
        "capacity" := Num(3), "price_per_night" := Num(250),
        "amenities" := Arr([Str("Wi-Fi"), Str("Ar-condicionado"), Str("TV"), Str("Frigobar"), Str("Banheira"), Str("Vista da cidade")]),
        "created_at" := Str("2024-01-01T00:00:00Z"), "updated_at" := Str("2024-01-01T00:00:00Z"), "id" := Num(2)],
    map["hotel_id" := Num(1), "name" := Str("Su\U{00ED}te Premium"),
        "description" := Str("Su\U{00ED}te luxuosa com sala de estar separada, varanda e servi\U{00E7}o de quarto 24h."),
        "capacity" := Num(4), "price_per_night" := Num(400),
        "amenities" := Arr([Str("Wi-Fi"), Str("Ar-condicionado"), Str("TV"), Str("Frigobar"), Str("Varanda"), Str("Sala de estar"), Str("Servi\U{00E7}o de quarto 24h")]),
        "created_at" := Str("2024-01-01T00:00:00Z"), "updated_at" := Str("2024-01-01T00:00:00Z"), "id" := Num(3)]
  ]

  const SeedReservations: seq<Record> := [
    map["hotel_id" := Num(1), "room_type_id" := Num(1), "guest_name" := Str("Jo\U{00E3}o Silva"),
        "guest_email" := Str("joao@email.com"), "guest_phone" := Str("(11) 9876-5432"),
        "check_in_date" := Str("2024-02-15"), "check_out_date" := Str("2024-02-18"), "guests_count" := Num(2),
        "total_price" := Num(450), "status" := Str("confirmed"), "special_requests" := Str("Quarto no andar alto"),
        "created_at" := Str("2024-01-15T10:30:00Z"), "updated_at" := Str("2024-01-15T10:30:00Z"), "id" := Num(1)],
    map["hotel_id" := Num(1), "room_type_id" := Num(2), "guest_name" := Str("Maria Santos"),
        "guest_email" := Str("maria@email.com"), "guest_phone" := Str("(11) 5555-1234"),
        "check_in_date" := Str("2024-02-20"), "check_out_date" := Str("2024-02-25"), "guests_count" := Num(2),
        "total_price" := Num(1250), "status" := Str("pending"), "special_requests" := Str("Check-in tardio"),
        "created_at" := Str("2024-01-20T14:15:00Z"), "updated_at" := Str("2024-01-20T14:15:00Z"), "id" := Num(2)]
  ]

  /** `Math.max(...records.map(r => r.id), 0)`. */
  function MaxId(records: seq<Record>): (m: int)
    ensures m >= 0
    ensures forall i :: 0 <= i < |records| && IdField(records[i]).Some? ==> IdField(records[i]).value <= m
  {
    if records == [] then 0
    else
      var rest := MaxId(records[1..]);
      var own := if IdField(records[0]).Some? then IdField(records[0]).value else 0;
      if own > rest then own else rest
  }

  /** The first id `generateId` hands out: one more than every seeded id. */
  function FirstId(): (n: int)
    ensures n > 0
  {
    var h, r, s := MaxId(SeedHotels), MaxId(SeedRoomTypes), MaxId(SeedReservations);
    (if h >= r && h >= s then h else if r >= s then r else s) + 1
  }

  /** Every seeded id is below the first generated one. */
  lemma {:induction false} SeedIdsBelowFirstId()
    ensures forall i :: 0 <= i < |SeedHotels| ==> IdField(SeedHotels[i]).value < FirstId()
    ensures forall i :: 0 <= i < |SeedRoomTypes| ==> IdField(SeedRoomTypes[i]).value < FirstId()
    ensures forall i :: 0 <= i < |SeedReservations| ==> IdField(SeedReservations[i]).value < FirstId()
  {
    assert forall i :: 0 <= i < |SeedHotels| ==> IdField(SeedHotels[i]).Some?;
    assert forall i :: 0 <= i < |SeedRoomTypes| ==> IdField(SeedRoomTypes[i]).Some?;
    assert forall i :: 0 <= i < |SeedReservations| ==> IdField(SeedReservations[i]).Some?;
  }

  /** With this seed the counter starts at 4. */
  lemma FirstIdIsFour()
    ensures FirstId() == 4
  {
    assert IdField(SeedHotels[0]) == Some(1);
    assert MaxId(SeedHotels) == 1;
    assert IdField(SeedReservations[0]) == Some(1) && IdField(SeedReservations[1]) == Some(2);
    assert MaxId(SeedReservations) == 2;
    assert IdField(SeedRoomTypes[0]) == Some(1) && IdField(SeedRoomTypes[1]) == Some(2);
    assert IdField(SeedRoomTypes[2]) == Some(3);
    assert MaxId(SeedRoomTypes[2..][1..]) == 0;
    assert MaxId(SeedRoomTypes[2..]) == 3;
    assert SeedRoomTypes[1..][1..] == SeedRoomTypes[2..];
    assert MaxId(SeedRoomTypes[1..]) == 3;
    assert MaxId(SeedRoomTypes) == 3;
  }

  /** The module-level `nextId` counter and `generateId = () => nextId++`. */
  class IdGenerator {
    var nextId: int
    /** The counter's starting value, `FirstId()` for the module's generator. */
    const first: int

    /** Every id handed out so far is below `nextId`, which never drops below its start. */
    ghost predicate Valid()
      reads this
    {
      nextId >= first
    }

    constructor ()
      ensures Valid() && first == FirstId() && nextId == FirstId()
    {
      first := FirstId();
      nextId := FirstId();
    }

    method GenerateId() returns (id: int)
      requires Valid()
      modifies this
      ensures Valid()
      ensures id == old(nextId) && nextId == id + 1
      ensures id >= first
    {
      id := nextId;
      nextId := nextId + 1;
    }
  }

  /** Two calls in a row return increasing ids, neither equal to a seeded one. */
  method TwoIds(g: IdGenerator) returns (a: int, b: int)
    requires g.Valid() && g.first == FirstId()
    modifies g
    ensures g.Valid()
    ensures a < b && a >= FirstId() && b >= FirstId()
    ensures forall i :: 0 <= i < |SeedReservations| ==> IdField(SeedReservations[i]).value != a
  {
    SeedIdsBelowFirstId();
    a := g.GenerateId();
    b := g.GenerateId();
  }

  /* ---------- consistency of the seed ---------- */

  /** Days since 1970-01-01 of a proleptic Gregorian date (Hinnant's algorithm). */
  function DaysFromCivil(y: int, m: int, d: int): int
  {
    var y1 := if m <= 2 then y - 1 else y;
    var era := y1 / 400;
    var yoe := y1 - era * 400;
    var mp := (m + 9) % 12;
    var doy := (153 * mp + 2) / 5 + d - 1;
    var doe := yoe * 365 + yoe / 4 - yoe / 100 + doy;
    era * 146097 + doe - 719468
  }

  function DigitValue(c: char): int { c as int - '0' as int }

  /** The day number of a `YYYY-MM-DD` string. */
  function DayNumber(s: string): (r: Option<int>)
    ensures r.Some? ==> |s| == 10 && s[4] == '-' && s[7] == '-'
  {
    if |s| == 10 && s[4] == '-' && s[7] == '-' && IsDigit(s[0]) && IsDigit(s[1]) && IsDigit(s[2]) && IsDigit(s[3]) &&
       IsDigit(s[5]) && IsDigit(s[6]) && IsDigit(s[8]) && IsDigit(s[9])
    then
      var y := 1000 * DigitValue(s[0]) + 100 * DigitValue(s[1]) + 10 * DigitValue(s[2]) + DigitValue(s[3]);
      var m := 10 * DigitValue(s[5]) + DigitValue(s[6]);
      var d := 10 * DigitValue(s[8]) + DigitValue(s[9]);
      Some(DaysFromCivil(y, m, d))
    else None
  }

  function StringField(r: Record, k: string): string {
    if k in r && r[k].Str? then r[k].s else ""
  }

  function NumField(r: Record, k: string): int {
    if k in r && r[k].Num? then r[k].n else 0
  }

  /** A reservation's stay is non-empty and its total is nights times its room's nightly price. */
  predicate PricedConsistently(res: Record, room: Record) {
    var cin, cout := DayNumber(StringField(res, "check_in_date")), DayNumber(StringField(res, "check_out_date"));
    cin.Some? && cout.Some? && cout.value > cin.value &&
    NumField(res, "total_price") == (cout.value - cin.value) * NumField(room, "price_per_night")
  }

  /** Every seeded room type and reservation belongs to hotel 1, which is seeded. */
  lemma SeedReferencesExist()
    ensures IdField(SeedHotels[0]) == Some(1)
    ensures forall i :: 0 <= i < |SeedRoomTypes| ==> SeedRoomTypes[i]["hotel_id"] == Num(1)
    ensures forall i :: 0 <= i < |SeedReservations| ==> SeedReservations[i]["hotel_id"] == Num(1)
  {
  }

  lemma FirstStayDates()
    ensures DayNumber("2024-02-15") == Some(19768) && DayNumber("2024-02-18") == Some(19771)
  {
    assert DaysFromCivil(2024, 2, 15) == 19768 && DaysFromCivil(2024, 2, 18) == 19771;
  }

  lemma SecondStayDates()
    ensures DayNumber("2024-02-20") == Some(19773) && DayNumber("2024-02-25") == Some(19778)
  {
    assert DaysFromCivil(2024, 2, 20) == 19773 && DaysFromCivil(2024, 2, 25) == 19778;
  }

  lemma SeedDates()
    ensures DayNumber("2024-02-15") == Some(19768) && DayNumber("2024-02-18") == Some(19771)
    ensures DayNumber("2024-02-20") == Some(19773) && DayNumber("2024-02-25") == Some(19778)
  {
    FirstStayDates();
    SecondStayDates();
  }

  lemma FirstReservationFields()
    ensures StringField(SeedReservations[0], "check_in_date") == "2024-02-15"
    ensures StringField(SeedReservations[0], "check_out_date") == "2024-02-18"
    ensures NumField(SeedReservations[0], "total_price") == 450
    ensures SeedReservations[0]["room_type_id"] == Num(1)
  {
  }

  lemma SecondReservationFields()
    ensures StringField(SeedReservations[1], "check_in_date") == "2024-02-20"
    ensures StringField(SeedReservations[1], "check_out_date") == "2024-02-25"
    ensures NumField(SeedReservations[1], "total_price") == 1250
    ensures SeedReservations[1]["room_type_id"] == Num(2)
  {
  }

  lemma SeedPrices()
    ensures NumField(SeedRoomTypes[0], "price_per_night") == 150 && SeedRoomTypes[0]["id"] == Num(1)
    ensures NumField(SeedRoomTypes[1], "price_per_night") == 250 && SeedRoomTypes[1]["id"] == Num(2)
  {
  }

  /** The seeded reservations are 3 nights at 150 and 5 nights at 250. */
  lemma SeedReservationsPriced()
    ensures SeedReservations[0]["room_type_id"] == SeedRoomTypes[0]["id"]
    ensures SeedReservations[1]["room_type_id"] == SeedRoomTypes[1]["id"]
    ensures PricedConsistently(SeedReservations[0], SeedRoomTypes[0])
    ensures PricedConsistently(SeedReservations[1], SeedRoomTypes[1])
  {
    SeedDates();
    FirstReservationFields();
    SecondReservationFields();
    SeedPrices();
  }
}
