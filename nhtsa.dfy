/**
 * The `decode_vin` endpoint: its input checks, the reading of the NHTSA
 * `Results` list by `get_value`, the composition of the trim string, and the
 * falsy filter over the decoded record.
 *
 * The NHTSA request itself is not made; its outcome is a parameter.
 */
module Nhtsa {
  import opened Wrappers
  import opened Text
  import opened Decimal
  import opened PyJson

  /**
   * One entry of the NHTSA `Results` list: its `Variable` (None when absent
   * or not a string, since it then equals no name) and its `Value`.
   */
  datatype Item = Item(variable: Option<string>, value: Option<string>)

  /** How the NHTSA request ended; `results` is None when the body has no `Results` key. */
  datatype NhtsaReply =
    | Timeout
    | Raised(message: string)
    | Answered(status: int, results: Option<seq<Item>>)

  /** Python truthiness of an optional string. */
  predicate Given(x: Option<string>)
  {
    x.Some? && x.value != ""
  }

  /** Python's `a or b` on optional strings. */
  function OrElse(a: Option<string>, b: Option<string>): Option<string>
  {
    if Given(a) then a else b
  }

  // ---------------------------------------------------------------------
  // get_value

  /** The item that ends the loop of `get_value(name)`: the variable matches and the value is truthy. */
  predicate Decides(item: Item, name: string)
  {
    item.variable == Some(name) && Given(item.value)
  }

  function DecidesFor(name: string): Item -> bool
  {
    (item: Item) => Decides(item, name)
  }

  /** `str(value).strip() or None`. */
  function StrippedOrNone(value: string): (r: Option<string>)
    ensures r.None? <==> PyStrip(value) == ""
    ensures r.Some? ==> r.value == PyStrip(value) && PyStrip(r.value) == r.value
  {
    var t := PyStrip(value);
    StripIdempotent(value, IsPySpace);
    if t == "" then None else Some(t)
  }

  /**
   * `get_value(name)`: the first item that names `name` and has a truthy
   * value decides the answer, its value stripped, or None when that strips
   * to nothing; matching items with an empty value are skipped, and without
   * a deciding item the answer is None.
   */
  function GetValue(items: seq<Item>, name: string): (r: Option<string>)
    ensures r == match FirstIndex(items, DecidesFor(name))
                 case None => None
                 case Some(i) => StrippedOrNone(items[i].value.value)
    ensures r.Some? ==> r.value != "" && r.value == PyStrip(r.value)
  {
    if items == [] then None
    else if Decides(items[0], name) then StrippedOrNone(items[0].value.value)
    else GetValue(items[1..], name)
  }

  /** A later match does not override the first deciding one, and an earlier empty value is skipped. */
  lemma FirstTruthyValueWins()
    ensures GetValue([Item(Some("Make"), Some("")), Item(Some("Make"), Some(" HONDA")),
                      Item(Some("Make"), Some("ACURA"))], "Make") == Some("HONDA")
  {
    var items := [Item(Some("Make"), Some("")), Item(Some("Make"), Some(" HONDA")),
                  Item(Some("Make"), Some("ACURA"))];
    assert !Decides(items[0], "Make") && Decides(items[1], "Make");
    assert GetValue(items, "Make") == GetValue(items[1..], "Make") == StrippedOrNone(" HONDA");
    LeadingBlankStripped();
  }

  lemma LeadingBlankStripped()
    ensures PyStrip(" HONDA") == "HONDA"
  {
    var t := "HONDA";
    assert " HONDA" == [' '] + t;
    StripStartSkips(' ', t, IsPySpace);
    assert !IsPySpace(t[0]) && !IsPySpace(t[|t| - 1]);
    StripOfTrimmed(t, IsPySpace);
  }

  /** A value of blanks decides the answer as None; the loop does not go on to a later match. */
  lemma BlankValueStopsTheSearch()
    ensures GetValue([Item(Some("Trim"), Some("  ")), Item(Some("Trim"), Some("EX"))], "Trim") == None
  {
    var items := [Item(Some("Trim"), Some("  ")), Item(Some("Trim"), Some("EX"))];
    assert Decides(items[0], "Trim");
    assert PyStrip("  ") == "" by {
      assert IsPySpace("  "[0]) && IsPySpace("  "[1]);
    }
  }

  // ---------------------------------------------------------------------
  // The trim string

  /** `[x]` when `x` is truthy, else `[]`. */
  function Listed(x: Option<string>): seq<string>
  {
    if Given(x) then [x.value] else []
  }

  /** `[x]` when `x` is truthy and differs from `other`, else `[]`. */
  function ListedUnlessSame(x: Option<string>, other: Option<string>): seq<string>
  {
    if Given(x) && x != other then [x.value] else []
  }

  /**
   * The pieces of the trim string, in order: series, series2 unless it
   * repeats series, trim, trim2 unless it repeats trim.
   */
  function TrimParts(series: Option<string>, series2: Option<string>, trim: Option<string>, trim2: Option<string>): seq<string>
  {
    Listed(series) + ListedUnlessSame(series2, series) + Listed(trim) + ListedUnlessSame(trim2, trim)
  }

  /** Builds `trim_parts` by appending, one guarded step at a time. */
  method ComposeTrim(series: Option<string>, series2: Option<string>, trim: Option<string>, trim2: Option<string>)
    returns (parts: seq<string>)
    ensures parts == TrimParts(series, series2, trim, trim2)
  {
    parts := [];
    if Given(series) {
      parts := parts + [series.value];
    }
    assert parts == Listed(series);
    if Given(series2) && series2 != series {
      parts := parts + [series2.value];
    }
    assert parts == Listed(series) + ListedUnlessSame(series2, series);
    if Given(trim) {
      parts := parts + [trim.value];
    }
    assert parts == Listed(series) + ListedUnlessSame(series2, series) + Listed(trim);
    if Given(trim2) && trim2 != trim {
      parts := parts + [trim2.value];
    }
  }

  /**
   * At most four pieces, none empty; none at all exactly when no input is
   * given; a repeated series2 or trim2 adds nothing; series, when given,
   * comes first.
   */
  lemma TrimPartsShape(series: Option<string>, series2: Option<string>, trim: Option<string>, trim2: Option<string>)
    ensures var parts := TrimParts(series, series2, trim, trim2);
      && |parts| <= 4
      && (forall i :: 0 <= i < |parts| ==> parts[i] != "")
      && (parts == [] <==> !Given(series) && !Given(series2) && !Given(trim) && !Given(trim2))
      && (Given(series) ==> parts[0] == series.value)
      && (Given(series) && Given(series2) && series2 != series ==> parts[1] == series2.value != parts[0])
  {
  }

  /** A second series equal to the first, or a second trim equal to the first, adds nothing. */
  lemma TrimPartsDropRepeats(series: Option<string>, series2: Option<string>, trim: Option<string>, trim2: Option<string>)
    ensures TrimParts(series, series, trim, trim2) == TrimParts(series, None, trim, trim2)
    ensures TrimParts(series, series2, trim, trim) == TrimParts(series, series2, trim, None)
  {
  }

  /** `' '.join(trim_parts) if trim_parts else None`. */
  function FullTrim(parts: seq<string>): (r: Option<string>)
    ensures r.None? <==> parts == []
  {
    if parts == [] then None else Some(JoinWithSpaces(parts))
  }

  /** Joining non-empty pieces never gives the empty string. */
  lemma JoinedNotEmpty(parts: seq<string>)
    requires parts != [] && forall i :: 0 <= i < |parts| ==> parts[i] != ""
    ensures JoinWithSpaces(parts) != ""
  {
  }

  /**
   * The `trim` field, `full_trim or trim or series`, is the composed string
   * itself: composing never yields an empty string, and it is absent only
   * when series and trim (and series2 and trim2) are all absent. The inputs
   * are `get_value` results, so none is the empty string.
   */
  lemma TrimFieldIsFullTrim(series: Option<string>, series2: Option<string>, trim: Option<string>, trim2: Option<string>)
    requires series.None? || series.value != ""
    requires trim.None? || trim.value != ""
    ensures var full := FullTrim(TrimParts(series, series2, trim, trim2));
      && OrElse(OrElse(full, trim), series) == full
      && (Given(series) || Given(trim) ==> full.Some? && full.value != "")
  {
    var parts := TrimParts(series, series2, trim, trim2);
    TrimPartsShape(series, series2, trim, trim2);
    if parts != [] {
      JoinedNotEmpty(parts);
    }
  }

  // ---------------------------------------------------------------------
  // vehicle_info

  /** `get_value` over one lookup's `Results`. */
  function Lookup(items: seq<Item>): string -> Option<string>
  {
    (name: string) => GetValue(items, name)
  }

  /** A lookup answers None or a non-empty string, as `get_value` does. */
  ghost predicate NeverEmpty(lookup: string -> Option<string>)
  {
    forall name :: lookup(name).None? || lookup(name).value != ""
  }

  lemma LookupNeverEmpty(items: seq<Item>)
    ensures NeverEmpty(Lookup(items))
  {
    forall name
      ensures Lookup(items)(name).None? || Lookup(items)(name).value != ""
    {
      var r := GetValue(items, name);
    }
  }

  /** The composed trim string of a lookup. */
  function ComposedTrim(lookup: string -> Option<string>): Option<string>
  {
    FullTrim(TrimParts(lookup("Series"), lookup("Series2"), lookup("Trim"), lookup("Trim2")))
  }

  /** The `trim` entry: `full_trim or trim or series`. */
  function TrimEntry(lookup: string -> Option<string>): Option<string>
  {
    OrElse(OrElse(ComposedTrim(lookup), lookup("Trim")), lookup("Series"))
  }

  /**
   * The record built from the lookup, before the falsy filter. A map has no
   * order, so `vin` and `trim` are written last here, where reading them
   * back is cheapest; the dict's key order is not modelled.
   */
  function VehicleInfo(vin: string, lookup: string -> Option<string>): map<string, Option<string>>
  {
    map[
      "make" := lookup("Make"),
      "model" := lookup("Model"),
      "year" := lookup("Model Year"),
      "trim_level" := lookup("Trim"),
      "series" := lookup("Series"),
      "body_class" := lookup("Body Class"),
      "engine" := OrElse(lookup("Engine Model"), lookup("Displacement (L)")),
      "engine_config" := lookup("Engine Configuration"),
      "cylinders" := lookup("Engine Number of Cylinders"),
      "displacement" := lookup("Displacement (L)"),
      "transmission" := lookup("Transmission Style"),
      "transmission_speeds" := lookup("Transmission Speeds"),
      "drive_type" := lookup("Drive Type"),
      "fuel_type" := lookup("Fuel Type - Primary"),
      "manufacturer" := lookup("Manufacturer Name"),
      "plant" := OrElse(lookup("Plant City"), lookup("Plant Country")),
      "vehicle_type" := lookup("Vehicle Type"),
      "doors" := lookup("Doors"),
      "windows" := lookup("Windows"),
      "seat_rows" := lookup("Seat Rows"),
      "vin" := Some(vin),
      "trim" := TrimEntry(lookup)
    ]
  }

  /** `{k: v for k, v in info.items() if v}`: exactly the entries with a truthy value survive, unchanged. */
  function DropFalsy(info: map<string, Option<string>>): (r: map<string, string>)
    ensures forall k :: k in r <==> k in info && Given(info[k])
    ensures forall k :: k in r ==> info[k] == Some(r[k]) && r[k] != ""
  {
    map k | k in info && Given(info[k]) :: info[k].value
  }

  /** A string-valued dict as JSON. */
  function AsJson(m: map<string, string>): (r: Json)
    ensures r.Object? && r.fields.Keys == m.Keys
    ensures forall k :: k in m ==> r.fields[k] == Str(m[k])
  {
    Object(map k | k in m :: Str(m[k]))
  }

  /** The `trim` entry is the composed trim string, present whenever series or trim is known. */
  lemma VehicleTrim(lookup: string -> Option<string>)
    requires NeverEmpty(lookup)
    ensures TrimEntry(lookup) == ComposedTrim(lookup)
    ensures Given(lookup("Series")) || Given(lookup("Trim")) ==> Given(TrimEntry(lookup))
  {
    assert lookup("Series").None? || lookup("Series").value != "";
    assert lookup("Trim").None? || lookup("Trim").value != "";
    TrimFieldIsFullTrim(lookup("Series"), lookup("Series2"), lookup("Trim"), lookup("Trim2"));
  }

  /** After the filter, the record holds the VIN and, whenever series or trim is known, the composed trim string. */
  lemma VehicleInfoEntries(vin: string, lookup: string -> Option<string>)
    requires vin != "" && NeverEmpty(lookup)
    ensures var info := DropFalsy(VehicleInfo(vin, lookup));
      && "vin" in info && info["vin"] == vin
      && ("trim" in info <==> Given(TrimEntry(lookup)))
      && ("trim" in info ==> Some(info["trim"]) == ComposedTrim(lookup))
  {
    VehicleInfoReads(vin, lookup);
    VehicleTrim(lookup);
  }

  lemma VehicleInfoReads(vin: string, lookup: string -> Option<string>)
    ensures var raw := VehicleInfo(vin, lookup);
      "vin" in raw && raw["vin"] == Some(vin) && "trim" in raw && raw["trim"] == TrimEntry(lookup)
  {
  }

  // ---------------------------------------------------------------------
  // The endpoint

  const VinLengthError := "VIN must be 17 characters"
  const NhtsaTimeoutError := "NHTSA API timeout"
  const NhtsaInvalidError := "Invalid response from NHTSA"

  /** What the handler does once the VIN has been accepted and looked up. */
  function LookupOutcome(vin: string, reply: NhtsaReply): Response
    requires vin != ""
  {
    match reply
    case Timeout => Failure(504, NhtsaTimeoutError)
    case Raised(message) => Failure(500, ServerError(message))
    case Answered(status, results) =>
      if status != 200 then Failure(400, "NHTSA API error: " + IntToString(status))
      else if results.None? then Failure(400, NhtsaInvalidError)
      else Decoded(vin, results.value)
  }

  /** The 200 reply: the filtered record of the stripped VIN's lookup. */
  function Decoded(vin: string, results: seq<Item>): (r: Response)
    requires vin != ""
    ensures r.status == 200 && SuccessBody(r.body, vin)
  {
    LookupNeverEmpty(results);
    VehicleInfoEntries(vin, Lookup(results));
    SuccessReply(vin, DropFalsy(VehicleInfo(vin, Lookup(results))))
  }

  /** `{'success': True, 'vehicle_info': info}` with status 200. */
  function SuccessReply(vin: string, info: map<string, string>): (r: Response)
    requires "vin" in info && info["vin"] == vin
    requires forall k :: k in info ==> info[k] != ""
    ensures r.status == 200 && SuccessBody(r.body, vin)
  {
    Response(200, Object(map["success" := Bool(true), "vehicle_info" := AsJson(info)]))
  }

  /** `decode_vin`: the checks on the request body, then the lookup of the stripped VIN. */
  function DecodeVin(data: Json, reply: NhtsaReply): Exchange<string>
  {
    if !Truthy(data) then Exchange(None, Failure(400, NoDataError))
    else match Get(data, "vin", Str(""))
      case Err(e) => Exchange(None, Failure(500, ServerError(e)))
      case Ok(field) =>
        match StripValue(field)
        case Err(e) => Exchange(None, Failure(500, ServerError(e)))
        case Ok(vin) =>
          if vin == "" then Exchange(None, Failure(400, VinRequiredError))
          else if |vin| != 17 then Exchange(None, Failure(400, VinLengthError))
          else Exchange(Some(vin), LookupOutcome(vin, reply))
  }

  /**
   * The checks, in order, each answered with its own 400 and before any
   * lookup: no body, a VIN empty after stripping, a VIN whose length is not
   * 17. A body that is not a dict, or a `vin` that is not a string, raises
   * and is answered with 500.
   */
  lemma DecodeVinChecks(data: Json, reply: NhtsaReply)
    ensures var x := DecodeVin(data, reply);
      && (!Truthy(data) ==> x.response == Failure(400, NoDataError))
      && (Truthy(data) && !data.Object? ==> x.response == Failure(500, ServerError(NoAttribute(data, "get"))))
      && (Truthy(data) && data.Object? && !VinField(data).Str? ==>
            x.response == Failure(500, ServerError(NoAttribute(VinField(data), "strip"))))
      && (HasTextVin(data) && StrippedVin(data) == "" ==> x.response == Failure(400, VinRequiredError))
      && (HasTextVin(data) && StrippedVin(data) != "" && |StrippedVin(data)| != 17 ==>
            x.response == Failure(400, VinLengthError))
  {
  }

  /**
   * The lookup is made exactly when every check passes, with the stripped
   * VIN; a request refused earlier gets the same reply whatever NHTSA would
   * have said.
   */
  lemma DecodeVinLooksUpOnlyValid(data: Json, reply: NhtsaReply, other: NhtsaReply)
    ensures var x := DecodeVin(data, reply);
      && (x.call.Some? <==> HasTextVin(data) && |StrippedVin(data)| == 17)
      && (x.call.Some? ==> x.call.value == StrippedVin(data))
      && (x.call.None? ==> DecodeVin(data, other) == x)
  {
  }

  /**
   * A 200 reply comes only from an accepted VIN and a readable NHTSA answer;
   * it carries `success: True` and a record whose every value is a non-empty
   * string, with the VIN itself under `vin`.
   */
  lemma DecodeVinSuccess(data: Json, reply: NhtsaReply)
    ensures var x := DecodeVin(data, reply);
      x.response.status == 200 <==> x.call.Some? && reply.Answered? && reply.status == 200 && reply.results.Some?
    ensures var x := DecodeVin(data, reply);
      x.response.status == 200 ==> SuccessBody(x.response.body, x.call.value)
  {
    var x := DecodeVin(data, reply);
    if x.call.Some? {
      LookupSuccess(x.call.value, reply);
    }
  }

  /** The shape of the 200 body: `success: True`, and a record of non-empty strings holding the VIN. */
  predicate SuccessBody(body: Json, vin: string)
  {
    && body.Object?
    && body.fields.Keys == {"success", "vehicle_info"}
    && body.fields["success"] == Bool(true)
    && var info := body.fields["vehicle_info"];
       && info.Object?
       && (forall k :: k in info.fields ==> info.fields[k].Str? && info.fields[k].s != "")
       && "vin" in info.fields && info.fields["vin"] == Str(vin)
  }

  lemma LookupSuccess(vin: string, reply: NhtsaReply)
    requires |vin| == 17
    ensures LookupOutcome(vin, reply).status == 200 <==> reply.Answered? && reply.status == 200 && reply.results.Some?
    ensures LookupOutcome(vin, reply).status == 200 ==> SuccessBody(LookupOutcome(vin, reply).body, vin)
  {
  }

  /** A failed lookup is reported with its own status: 504 on timeout, 500 when the request raised, 400 otherwise. */
  lemma DecodeVinLookupFailures(vin: string, reply: NhtsaReply)
    requires vin != ""
    ensures reply.Timeout? ==> LookupOutcome(vin, reply) == Failure(504, NhtsaTimeoutError)
    ensures reply.Raised? ==> LookupOutcome(vin, reply) == Failure(500, ServerError(reply.message))
    ensures reply.Answered? && reply.status != 200 ==>
      LookupOutcome(vin, reply) == Failure(400, "NHTSA API error: " + IntToString(reply.status))
    ensures reply.Answered? && reply.status == 200 && reply.results.None? ==>
      LookupOutcome(vin, reply) == Failure(400, NhtsaInvalidError)
  {
  }
}
