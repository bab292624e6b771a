/**
 * The `fetch_vehicle`, `pricing_cards` and `market_listings` endpoints:
 * their input checks, the calls they make once the input is accepted, the
 * replies they build from the service's answer, and the loop that adds
 * `price_vs_blackbook` to every listing.
 *
 * The pricing and listings services are not modelled; what they answer is
 * a parameter.
 */
module Endpoints {
  import opened Wrappers
  import opened Text
  import opened Decimal
  import opened PyJson

  /** What a service call ended with: the dict it returned, or the text of the exception it raised. */
  datatype ServiceReply = Returned(result: map<string, Json>) | Failed(message: string)

  /** What a service call ended with for the listings search. */
  datatype SearchReply = Found(listings: seq<map<string, Json>>) | SearchFailed(message: string)

  /** The outbound calls the handlers make. */
  datatype Call =
    | VehicleData(vin: string, odometer: int)
    | PricingCards(vin: string, mileage: int)
    | ListingsSearch(year: int, make: Json, model: Json, province: Json, maxResults: int)

  const ListingsFieldsError := "Year, make, and model are required"
  const ListingsYearError := "Year must be a valid number"
  const ListingsErrorPrefix := "Error fetching market listings: "
  const MaxListings := 15

  /** `d.get(key)` on a dict: None when absent. */
  function Field(fields: map<string, Json>, key: string, default: Json): Json
  {
    if key in fields then fields[key] else default
  }

  // ---------------------------------------------------------------------
  // fetch_vehicle and pricing_cards

  /** The count a handler reads next to the VIN, and the two messages that go with it. */
  datatype CountField = CountField(key: string, missing: string, invalid: string)

  const Odometer := CountField("odometer", "Odometer reading is required", "Odometer must be a valid number")
  const Mileage := CountField("mileage", "Mileage is required", "Mileage must be a valid number")

  /** The outcome of the shared checks: the reply that ends the request, or the accepted VIN and count. */
  datatype Checked = Rejected(response: Response) | Accepted(vin: string, count: int)

  /**
   * The checks `fetch_vehicle` and `pricing_cards` share, in their order:
   * a body, a VIN that is not empty once stripped, a count that is present,
   * a count that `int()` accepts. Reading `vin` raises (and the handler
   * answers 500) when the body is not a dict or `vin` is not a string.
   */
  function CheckVinAndCount(data: Json, field: CountField): Checked
  {
    if !Truthy(data) then Rejected(Failure(400, NoDataError))
    else match Get(data, "vin", Str(""))
      case Err(e) => Rejected(Failure(500, ServerError(e)))
      case Ok(v) =>
        match StripValue(v)
        case Err(e) => Rejected(Failure(500, ServerError(e)))
        case Ok(vin) =>
          var count := Field(data.fields, field.key, Null);
          if vin == "" then Rejected(Failure(400, VinRequiredError))
          else if count.Null? then Rejected(Failure(400, field.missing))
          else match IntValue(count)
            case None => Rejected(Failure(400, field.invalid))
            case Some(n) => Accepted(vin, n)
  }

  /** `status_code = 200 if result.get('success') else 400`. */
  function SuccessOf(result: map<string, Json>): bool
  {
    Truthy(Field(result, "success", Null))
  }

  /** `fetch_vehicle`. */
  function FetchVehicle(data: Json, reply: ServiceReply): Exchange<Call>
  {
    match CheckVinAndCount(data, Odometer)
    case Rejected(response) => Exchange(None, response)
    case Accepted(vin, odometer) =>
      Exchange(Some(VehicleData(vin, odometer)),
        match reply
        case Failed(message) => Failure(500, ServerError(message))
        case Returned(result) => Response(if SuccessOf(result) then 200 else 400, Object(result)))
  }

  /** `pricing_cards`: on success only the cards are passed on; otherwise the service's dict as it is. */
  function PricingCardsEndpoint(data: Json, reply: ServiceReply): Exchange<Call>
  {
    match CheckVinAndCount(data, Mileage)
    case Rejected(response) => Exchange(None, response)
    case Accepted(vin, mileage) =>
      Exchange(Some(PricingCards(vin, mileage)),
        match reply
        case Failed(message) => Failure(500, ServerError(message))
        case Returned(result) =>
          if SuccessOf(result) then Response(200, Object(map["cards" := Field(result, "cards", Null)]))
          else Response(400, Object(result)))
  }

  /**
   * The shared checks, in order, each with its own message: a missing body,
   * a VIN empty after stripping, an absent or null count, a count `int()`
   * refuses; a count is accepted as `int()` reads it.
   */
  lemma CheckOrder(data: Json, field: CountField)
    ensures var c := CheckVinAndCount(data, field);
      && (!Truthy(data) ==> c == Rejected(Failure(400, NoDataError)))
      && (Truthy(data) && !data.Object? ==> c == Rejected(Failure(500, ServerError(NoAttribute(data, "get")))))
      && (Truthy(data) && data.Object? && !VinField(data).Str? ==>
            c == Rejected(Failure(500, ServerError(NoAttribute(VinField(data), "strip")))))
      && (HasTextVin(data) && PyStrip(VinField(data).s) == "" ==> c == Rejected(Failure(400, VinRequiredError)))
      && (HasTextVin(data) && PyStrip(VinField(data).s) != "" ==>
            var count := Field(data.fields, field.key, Null);
            && (count.Null? ==> c == Rejected(Failure(400, field.missing)))
            && (!count.Null? && IntValue(count).None? ==> c == Rejected(Failure(400, field.invalid)))
            && (!count.Null? && IntValue(count).Some? ==>
                  c == Accepted(PyStrip(VinField(data).s), IntValue(count).value)))
  {
  }

  /** A count sent as decimal text is accepted as the number it spells, as `int()` reads it. */
  lemma CountAsText(data: Json, field: CountField, n: int)
    requires HasTextVin(data) && PyStrip(VinField(data).s) != ""
    requires Field(data.fields, field.key, Null) == Str(IntToString(n))
    ensures CheckVinAndCount(data, field) == Accepted(PyStrip(VinField(data).s), n)
  {
    IntValueOfText(n);
  }

  /**
   * The service is called exactly when the checks accept the input, with the
   * stripped VIN and the converted count; a refused request gets the same
   * reply whatever the service would have said.
   */
  lemma ServiceCalledOnlyWhenAccepted(data: Json, reply: ServiceReply, other: ServiceReply)
    ensures var c := CheckVinAndCount(data, Odometer);
      var x := FetchVehicle(data, reply);
      && (x.call.Some? <==> c.Accepted?)
      && (c.Accepted? ==> x.call == Some(VehicleData(c.vin, c.count)))
      && (c.Rejected? ==> x == FetchVehicle(data, other) && x.response == c.response)
    ensures var c := CheckVinAndCount(data, Mileage);
      var x := PricingCardsEndpoint(data, reply);
      && (x.call.Some? <==> c.Accepted?)
      && (c.Accepted? ==> x.call == Some(PricingCards(c.vin, c.count)))
      && (c.Rejected? ==> x == PricingCardsEndpoint(data, other) && x.response == c.response)
  {
  }

  /**
   * Once `fetch_vehicle` accepts the input, it passes the service's dict on
   * with 200 exactly when its `success` is truthy and 400 otherwise; an
   * exception from the service is a 500.
   */
  lemma FetchVehicleReplies(data: Json, reply: ServiceReply)
    requires CheckVinAndCount(data, Odometer).Accepted?
    ensures var x := FetchVehicle(data, reply).response;
      && (reply.Returned? ==> x.body == Object(reply.result) && (x.status == 200 <==> SuccessOf(reply.result)))
      && (reply.Returned? && !SuccessOf(reply.result) ==> x.status == 400)
      && (reply.Failed? ==> x == Failure(500, ServerError(reply.message)))
  {
  }

  /**
   * Once `pricing_cards` accepts the input, it answers 200 with only `cards`
   * when the service reports success and 400 with the service's dict
   * otherwise; an exception from the service is a 500.
   */
  lemma PricingCardsReplies(data: Json, reply: ServiceReply)
    requires CheckVinAndCount(data, Mileage).Accepted?
    ensures var x := PricingCardsEndpoint(data, reply).response;
      && (reply.Returned? && SuccessOf(reply.result) ==>
            x.status == 200 && x.body.Object? && x.body.fields.Keys == {"cards"}
            && x.body.fields["cards"] == Field(reply.result, "cards", Null))
      && (reply.Returned? && !SuccessOf(reply.result) ==> x == Response(400, Object(reply.result)))
      && (reply.Failed? ==> x == Failure(500, ServerError(reply.message)))
  {
  }

  // ---------------------------------------------------------------------
  // market_listings

  /** `blackbook_retail > 0`; comparing anything but a number with 0 raises a `TypeError`. */
  function RetailPositive(retail: Json): (r: Result<bool>)
    ensures r.Ok? <==> retail.Int? || retail.Bool?
  {
    match retail
    case Int(i) => Ok(i > 0)
    case Bool(b) => Ok(b)
    case _ => Err("'>' not supported between instances of '" + TypeName(retail) + "' and 'int'")
  }

  /** The numeric value of an int or a bool, as Python's arithmetic sees it. */
  function Number(v: Json): Option<int>
  {
    match v
    case Int(i) => Some(i)
    case Bool(b) => Some(if b then 1 else 0)
    case _ => None
  }

  /**
   * The value stored under `price_vs_blackbook` for one listing:
   * `listing.get('price', 0) - blackbook_retail` when the retail value is
   * positive, None otherwise; or the `TypeError` text when the comparison
   * or the subtraction raises.
   */
  function PriceVsBlackbook(listing: map<string, Json>, retail: Json): (r: Result<Json>)
    ensures r.Ok? && r.value != Null ==>
      && RetailPositive(retail) == Ok(true)
      && Number(Field(listing, "price", Int(0))).Some?
      && r.value == Int(Number(Field(listing, "price", Int(0))).value - Number(retail).value)
    ensures RetailPositive(retail) == Ok(false) ==> r == Ok(Null)
    ensures RetailPositive(retail) == Ok(true) && Number(Field(listing, "price", Int(0))).Some? ==>
      r == Ok(Int(Number(Field(listing, "price", Int(0))).value - Number(retail).value))
    ensures RetailPositive(retail).Err? ==> r == Err(RetailPositive(retail).error)
    ensures RetailPositive(retail) == Ok(true) && Number(Field(listing, "price", Int(0))).None? ==>
      r == Err(SubtractionError(Field(listing, "price", Int(0)), retail))
    ensures r.Err? ==> RetailPositive(retail).Err? || Number(Field(listing, "price", Int(0))).None?
  {
    Difference(Field(listing, "price", Int(0)), retail)
  }

  /** The text of the `TypeError` raised by `price - retail` when the price is not a number. */
  function SubtractionError(price: Json, retail: Json): string
  {
    "unsupported operand type(s) for -: '" + TypeName(price) + "' and '" + TypeName(retail) + "'"
  }

  /** `price - blackbook_retail` behind the `blackbook_retail > 0` guard. */
  function Difference(price: Json, retail: Json): (r: Result<Json>)
    ensures r.Ok? && r.value != Null ==>
      RetailPositive(retail) == Ok(true) && Number(price).Some? && r.value == Int(Number(price).value - Number(retail).value)
    ensures RetailPositive(retail) == Ok(false) ==> r == Ok(Null)
    ensures RetailPositive(retail) == Ok(true) && Number(price).Some? ==>
      r == Ok(Int(Number(price).value - Number(retail).value))
    ensures RetailPositive(retail).Err? ==> r == Err(RetailPositive(retail).error)
    ensures RetailPositive(retail) == Ok(true) && Number(price).None? ==> r == Err(SubtractionError(price, retail))
    ensures r.Err? ==> RetailPositive(retail).Err? || Number(price).None?
  {
    match RetailPositive(retail)
    case Err(e) => Err(e)
    case Ok(positive) =>
      if !positive then Ok(Null)
      else
        match Number(price)
        case None => Err(SubtractionError(price, retail))
        case Some(p) => Ok(Int(p - Number(retail).value))
  }

  /** One listing after the loop body: its dict with `price_vs_blackbook` set. */
  function Annotate(listing: map<string, Json>, retail: Json): map<string, Json>
    requires PriceVsBlackbook(listing, retail).Ok?
  {
    listing["price_vs_blackbook" := PriceVsBlackbook(listing, retail).value]
  }

  /** Whether the loop body raises on none of `listings`. */
  predicate AllAnnotate(listings: seq<map<string, Json>>, retail: Json)
  {
    forall i :: 0 <= i < |listings| ==> PriceVsBlackbook(listings[i], retail).Ok?
  }

  /**
   * The listings after the whole loop, or the text of the exception that
   * stopped it: the first listing the loop body raises on decides the error.
   */
  function Annotated(listings: seq<map<string, Json>>, retail: Json): (r: Result<seq<map<string, Json>>>)
    ensures r.Ok? <==> AllAnnotate(listings, retail)
    ensures r.Ok? ==> |r.value| == |listings|
    ensures r.Ok? ==> forall i :: 0 <= i < |listings| ==> r.value[i] == Annotate(listings[i], retail)
    ensures r.Err? ==> exists i :: 0 <= i < |listings| && FirstRaise(listings, retail, i)
                                    && r.error == PriceVsBlackbook(listings[i], retail).error
  {
    if listings == [] then Ok([])
    else match PriceVsBlackbook(listings[0], retail)
      case Err(e) =>
        assert FirstRaise(listings, retail, 0);
        Err(e)
      case Ok(v) =>
        match Annotated(listings[1..], retail)
        case Err(e) =>
          var k :| 0 <= k < |listings| - 1 && FirstRaise(listings[1..], retail, k)
                   && e == PriceVsBlackbook(listings[1..][k], retail).error;
          FirstRaiseAfterFirst(listings, retail, k);
          Err(e)
        case Ok(rest) =>
          Ok([listings[0]["price_vs_blackbook" := v]] + rest)
  }

  /** Listing `i` is the first one the loop body raises on. */
  predicate FirstRaise(listings: seq<map<string, Json>>, retail: Json, i: int)
    requires 0 <= i < |listings|
  {
    && PriceVsBlackbook(listings[i], retail).Err?
    && forall j :: 0 <= j < i ==> PriceVsBlackbook(listings[j], retail).Ok?
  }

  /**
   * `for listing in listings: listing['price_vs_blackbook'] = ...`, in
   * place. When the body raises, on listing `stopped`, the listings before
   * the failing one have already been changed and the rest are as they were.
   */
  method AnnotateListings(listings: array<map<string, Json>>, retail: Json) returns (failure: Option<string>, ghost stopped: int)
    modifies listings
    ensures failure.None? <==> Annotated(old(listings[..]), retail).Ok?
    ensures failure.None? ==> listings[..] == Annotated(old(listings[..]), retail).value
    ensures failure.Some? ==> failure.value == Annotated(old(listings[..]), retail).error
    ensures failure.Some? ==> 0 <= stopped < listings.Length && FirstRaise(old(listings[..]), retail, stopped)
    ensures failure.Some? ==> forall j :: 0 <= j < stopped ==> listings[j] == Annotate(old(listings[j]), retail)
    ensures failure.Some? ==> forall j :: stopped <= j < listings.Length ==> listings[j] == old(listings[j])
  {
    ghost var original := listings[..];
    var i := 0;
    while i < listings.Length
      invariant 0 <= i <= listings.Length
      invariant forall j :: 0 <= j < i ==> PriceVsBlackbook(original[j], retail).Ok? && listings[j] == Annotate(original[j], retail)
      invariant forall j :: i <= j < listings.Length ==> listings[j] == original[j]
    {
      var value := PriceVsBlackbook(listings[i], retail);
      if value.Err? {
        assert FirstRaise(original, retail, i);
        FirstRaiseUnique(original, retail, i);
        return Some(value.error), i;
      }
      listings[i] := listings[i]["price_vs_blackbook" := value.value];
      i := i + 1;
    }
    failure, stopped := None, i;
    AnnotatedWhenAll(original, retail, listings[..]);
  }

  /** When the body raises on no listing, `Annotated` is the listings each annotated. */
  lemma AnnotatedWhenAll(listings: seq<map<string, Json>>, retail: Json, after: seq<map<string, Json>>)
    requires |after| == |listings|
    requires forall j :: 0 <= j < |listings| ==> PriceVsBlackbook(listings[j], retail).Ok?
    requires forall j :: 0 <= j < |listings| ==> after[j] == Annotate(listings[j], retail)
    ensures Annotated(listings, retail) == Ok(after)
  {
    assert AllAnnotate(listings, retail);
    var r := Annotated(listings, retail).value;
    assert forall j :: 0 <= j < |r| ==> r[j] == after[j];
    assert r == after;
  }

  /** A first raise in the tail, behind a listing that does not raise, is the first raise of the whole. */
  lemma FirstRaiseAfterFirst(listings: seq<map<string, Json>>, retail: Json, k: int)
    requires listings != [] && PriceVsBlackbook(listings[0], retail).Ok?
    requires 0 <= k < |listings| - 1 && FirstRaise(listings[1..], retail, k)
    ensures FirstRaise(listings, retail, k + 1)
  {
    forall j | 0 < j < k + 1
      ensures PriceVsBlackbook(listings[j], retail).Ok?
    {
      assert listings[j] == listings[1..][j - 1];
    }
  }

  /** The first listing the body raises on is the one `Annotated` reports. */
  lemma {:induction false} FirstRaiseUnique(listings: seq<map<string, Json>>, retail: Json, i: int)
    requires 0 <= i < |listings| && FirstRaise(listings, retail, i)
    ensures Annotated(listings, retail).Err?
    ensures Annotated(listings, retail).error == PriceVsBlackbook(listings[i], retail).error
  {
    if i > 0 {
      assert PriceVsBlackbook(listings[0], retail).Ok?;
      assert FirstRaise(listings[1..], retail, i - 1) by {
        forall j | 0 <= j < i - 1
          ensures PriceVsBlackbook(listings[1..][j], retail).Ok?
        {
          assert listings[1..][j] == listings[j + 1];
        }
      }
      FirstRaiseUnique(listings[1..], retail, i - 1);
    }
  }

  /** The 200 body: every listing annotated, the retail value echoed, and the count. */
  function ListingsBody(annotated: seq<map<string, Json>>, retail: Json, count: int): (r: Json)
    ensures r.Object? && r.fields.Keys == {"success", "listings", "blackbook_retail", "count"}
    ensures r.fields["success"] == Bool(true) && r.fields["blackbook_retail"] == retail && r.fields["count"] == Int(count)
    ensures r.fields["listings"].List? && |r.fields["listings"].items| == |annotated|
    ensures forall i :: 0 <= i < |annotated| ==> r.fields["listings"].items[i] == Object(annotated[i])
  {
    Object(map[
      "success" := Bool(true),
      "listings" := List(seq(|annotated|, i requires 0 <= i < |annotated| => Object(annotated[i]))),
      "blackbook_retail" := retail,
      "count" := Int(count)])
  }

  /** `market_listings`. */
  function MarketListings(data: Json, search: SearchReply): Exchange<Call>
  {
    if !Truthy(data) then Exchange(None, Failure(400, NoDataError))
    else if !data.Object? then Exchange(None, Failure(500, ListingsErrorPrefix + NoAttribute(data, "get")))
    else
      var year := Field(data.fields, "year", Null);
      var make := Field(data.fields, "make", Null);
      var model := Field(data.fields, "model", Null);
      var province := Field(data.fields, "province", Null);
      var retail := Field(data.fields, "blackbook_retail", Int(0));
      if !(Truthy(year) && Truthy(make) && Truthy(model)) then Exchange(None, Failure(400, ListingsFieldsError))
      else match IntValue(year)
        case None => Exchange(None, Failure(400, ListingsYearError))
        case Some(y) =>
          Exchange(Some(ListingsSearch(y, make, model, province, MaxListings)),
            match search
            case SearchFailed(message) => Failure(500, ListingsErrorPrefix + message)
            case Found(listings) =>
              match Annotated(listings, retail)
              case Err(e) => Failure(500, ListingsErrorPrefix + e)
              case Ok(annotated) => Response(200, ListingsBody(annotated, retail, |listings|)))
  }

  /** A `market_listings` body that passes every check: a dict with truthy year, make and model, and a year `int()` accepts. */
  predicate ListingsAccepted(data: Json)
  {
    && Truthy(data) && data.Object?
    && Truthy(Field(data.fields, "year", Null)) && Truthy(Field(data.fields, "make", Null))
    && Truthy(Field(data.fields, "model", Null))
    && IntValue(Field(data.fields, "year", Null)).Some?
  }

  /**
   * Year, make and model must all be truthy, and then the year must be
   * something `int()` accepts; the search is made exactly when both hold,
   * for at most 15 listings.
   */
  lemma ListingsChecks(data: Json, search: SearchReply, other: SearchReply)
    ensures var x := MarketListings(data, search);
      && (!Truthy(data) ==> x.response == Failure(400, NoDataError))
      && (data.Object? && Truthy(data) ==>
            var f := data.fields;
            && (!(Truthy(Field(f, "year", Null)) && Truthy(Field(f, "make", Null)) && Truthy(Field(f, "model", Null))) ==>
                  x.response == Failure(400, ListingsFieldsError))
            && (Truthy(Field(f, "year", Null)) && Truthy(Field(f, "make", Null)) && Truthy(Field(f, "model", Null)) ==>
                  && (IntValue(Field(f, "year", Null)).None? ==> x.response == Failure(400, ListingsYearError))
                  && (IntValue(Field(f, "year", Null)).Some? ==>
                        x.call == Some(ListingsSearch(IntValue(Field(f, "year", Null)).value, Field(f, "make", Null),
                                                      Field(f, "model", Null), Field(f, "province", Null), 15)))))
      && (x.call.None? ==> MarketListings(data, other) == x)
    ensures MarketListings(data, search).call.Some? <==> ListingsAccepted(data)
  {
  }

  /**
   * A successful search is answered with every listing annotated, other
   * keys untouched, and `count` equal to the number of listings; with no
   * positive retail value every annotation is None, and with one it is the
   * price difference.
   */
  lemma ListingsSuccess(data: Json, listings: seq<map<string, Json>>)
    requires MarketListings(data, Found(listings)).response.status == 200
    ensures data.Object?
    ensures var retail := Field(data.fields, "blackbook_retail", Int(0));
      var body := MarketListings(data, Found(listings)).response.body;
      && body.Object?
      && body.fields["success"] == Bool(true)
      && body.fields["count"] == Int(|listings|)
      && body.fields["blackbook_retail"] == retail
      && body.fields["listings"].List?
      && |body.fields["listings"].items| == |listings|
      && forall i :: 0 <= i < |listings| ==>
           && body.fields["listings"].items[i].Object?
           && var l := body.fields["listings"].items[i].fields;
              && l.Keys == listings[i].Keys + {"price_vs_blackbook"}
              && (forall k :: k in listings[i] && k != "price_vs_blackbook" ==> l[k] == listings[i][k])
              && (RetailPositive(retail) == Ok(false) ==> l["price_vs_blackbook"] == Null)
              && (RetailPositive(retail) == Ok(true) ==>
                    l["price_vs_blackbook"] == Int(Number(Field(listings[i], "price", Int(0))).value - Number(retail).value))
  {
  }

  /**
   * With no listings the loop body never runs, so an accepted request is
   * answered 200 with a count of 0 and the retail value echoed back, even
   * one that could not be compared with 0.
   */
  lemma NoListingsNoComparison(data: Json)
    requires ListingsAccepted(data)
    ensures var x := MarketListings(data, Found([])).response;
      && x.status == 200 && x.body.Object?
      && x.body.fields["listings"] == List([])
      && x.body.fields["count"] == Int(0)
      && x.body.fields["blackbook_retail"] == Field(data.fields, "blackbook_retail", Int(0))
  {
    var retail := Field(data.fields, "blackbook_retail", Int(0));
    assert Annotated([], retail) == Ok([]);
    assert MarketListings(data, Found([])).response == Response(200, ListingsBody([], retail, 0));
  }
}
