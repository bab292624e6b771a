# VIN decoder and pricing page — verified model

This project models the rules inside a small web application. A dealer
types a vehicle identification number (VIN) into a browser page. The page
decodes the VIN through a Flask backend, which asks the NHTSA vPIC service.
It fills its filters from the decoded record, and fetches wholesale pricing
cards that it summarises per region. The backend also serves market
listings, each annotated with its distance from the Blackbook retail value.

Both sides are modelled from their own code:

- `static/script.js`, the browser controller:
  - `vin_input.dfy`: the VIN box sanitiser.
  - `results.dfy`: the price and mileage summaries and the Ontario/Quebec card pick.
  - `form.dfy`: the page state and every handler. Each select is a `Select`
    object whose option list grows in place. The page is a `Form` object.
    Every handler method is proved to move `View()` exactly as a pure
    function of the old view says, and the lemmas state what those
    functions promise.
- `app.py`, the Flask backend:
  - `py_json.dfy`: JSON bodies with Python's truthiness, `dict.get`, `str.strip`,
    `int()`, and the text of the exceptions they raise on a wrong type.
  - `nhtsa.dfy`: `decode_vin`. This covers its checks, `get_value`, the trim
    composition, the falsy filter, and every reply.
  - `endpoints.dfy`: `fetch_vehicle`, `pricing_cards`, `market_listings`,
    and the in-place loop that adds `price_vs_blackbook` to each listing
    (an `array` method proved against a pure function).
- Shared helpers:
  - `text.dfy`: first-match search, subsequences, ASCII case mapping,
    JavaScript `trim` and Python `strip`.
  - `decimal.dfy`: decimal text, JavaScript `parseInt` and Python `int()` on
    strings, each with its round trip through the decimal text of a number.

Network requests are not made. Their outcome is a parameter: the decode and
pricing replies on the page, the NHTSA reply, and the service results.
Each handler's result records the requests it sent, which is how the model
states "before any request".

The VIN character class is `[A-HJ-NPR-Z0-9]`, that is A–H, J–N, P, R–Z and
0–9. A description of the class as "A–H, J–N, P–R" would admit Q and reject
S–Z. The model follows the expression in `static/script.js:26`.

## Model

| member | source | states |
|---|---|---|
| VinInput.KeepVinChars | static/script.js:26 | keeps only A–H, J–N, P, R–Z, 0–9; the result is a subsequence of the input (order kept) and never longer |
| VinInput.Sanitise | static/script.js:26 | the sanitised VIN holds only upper-case VIN characters, never I, O or Q, and is a subsequence of the upper-cased input |
| VinInput.SanitiseAppend | static/script.js:26 | sanitising acts character by character: the sanitised concatenation is the concatenation of the sanitised parts |
| VinInput.SanitiseChar | static/script.js:26 | a single character is kept, upper-cased, exactly when its upper-case form is in the class |
| VinInput.SanitiseOfVinText | static/script.js:26 | text made only of VIN characters passes through unchanged |
| VinInput.SanitisedLength | static/script.js:26-33 | the sanitised box is ASCII, so the `vin.length !== 17` guards count its characters |
| VinInput.SanitiseIdempotent | static/script.js:26 | sanitising the sanitised text changes nothing |
| Text.Strip | static/script.js:31 | trimming is empty exactly when the text is all white space, and otherwise starts and ends with a non-space |
| Text.StripDropsOnlyEnds | static/script.js:31 | trimming keeps a contiguous slice of the text, and everything it removes is white space before or after that slice |
| Text.StripIdempotent | app.py:186 | stripping a stripped string changes nothing |
| Text.JsLengthOfBmp | static/script.js:33 | text with no character beyond the Basic Multilingual Plane has a JavaScript `length` equal to its number of characters |
| Text.JoinWithSpaces | app.py:204 | `' '.join` of one part is that part, and of two or more parts is never empty |
| Results.Present | static/script.js:222-223 | the falsy filter keeps exactly the non-zero values, in their order |
| Results.Min | static/script.js:226 | `Math.min` is a member of the list and at most every member |
| Results.Max | static/script.js:228 | `Math.max` is a member of the list and at least every member |
| Results.RoundedMean | static/script.js:227 | `Math.round(sum / n)` is the integer within half a unit of the mean (ties rounded up) |
| Results.SumBounds | static/script.js:227 | a sum of n values in [lo, hi] lies in [n·lo, n·hi] |
| Results.RoundedWithin | static/script.js:227 | an integer within half a unit of a mean of values in [lo, hi] lies in [lo, hi] |
| Results.MeanBetween | static/script.js:225-229 | lowest ≤ rounded average ≤ highest |
| Results.Summarise | static/script.js:222-235 | no figures exactly when every value is falsy; otherwise lowest and highest are non-zero members bounding every non-zero value, and the rounded average lies between them |
| Results.FindProvince | static/script.js:243-244 | the first card, in list order, whose province is exactly the one asked for; none exactly when no card has it |
| Form.Pick | static/script.js:74-94 | hit: options unchanged and the first option equal ignoring case is selected; miss: exactly the value is appended at the end and selected; unchanged exactly when some option matches |
| Form.PickIdempotent | static/script.js:74-138 | decoding the same value twice adds no second option |
| Form.PickFirstMatch | static/script.js:78-84 | the first option equal ignoring case is the one selected, and the options stay |
| Form.PickNoMatch | static/script.js:87-93 | with no option equal ignoring case, exactly the value is appended and selected |
| Form.Select.SelectOrAppend | static/script.js:77-93 | the scan with `break` and the append leave the select as `Pick` says |
| Form.Form.ShowLoading | static/script.js:284-288 | loading shown and both buttons disabled exactly when `show` |
| Form.Form.ShowError | static/script.js:290-294 | error shown with the message, success hidden |
| Form.Form.ShowSuccess | static/script.js:296-300 | success shown with the message, error hidden |
| Form.Form.HideMessages | static/script.js:302-305 | both messages hidden |
| Form.Form.Send | static/script.js:42-46 | the request is recorded after everything sent before it |
| Form.Form.OnVinInput | static/script.js:25-27 | the VIN box holds the sanitised text; nothing else changes |
| Form.Form.PopulateFiltersFromVin | static/script.js:65-139 | a known year sets the year slider and both labels; make, model and series each find-or-append in their select only when given |
| Form.Form.OnDecodeClick | static/script.js:30-39 | the page moves as the decode handler's function says, the guard on the trimmed VIN's UTF-16 length first |
| Form.Form.ReceiveDecodeReply | static/script.js:41-62 | loading cleared, then record applied and success shown, or the reply's error (or the fallback), or the network error |
| Form.Form.DisplayResults | static/script.js:221-252 | summary rows refreshed only when a value survives the filter; the region cards are the first Ontario and first Quebec card |
| Form.Form.OnShowResultsClick | static/script.js:154-169 | the page moves as the show-results handler's function says, both guards first (the VIN's by its UTF-16 length) |
| Form.Form.ReceivePricingReply | static/script.js:171-195 | loading cleared, then cards shown with success only when there is at least one, otherwise the error |
| Form.Form.OnClearFilters | static/script.js:199-214 | fixed values written, results and messages hidden, option lists kept |
| Form.DecodeClosing | static/script.js:49-62 | after the decode request, loading is switched off once, or twice when a successful reply lacks data |
| Form.DecodeRepliedSettles | static/script.js:41-62 | every exit after the decode request clears loading, enables both buttons and leaves exactly one message |
| Form.PricingRepliedSettles | static/script.js:171-195 | every exit after the pricing request clears loading once, enables both buttons and leaves exactly one message |
| Form.InputsKeepConsistent | static/script.js:199-214 | typing a VIN and clearing keep buttons enabled, loading off and at most one message |
| Form.DecodeKeepsConsistent | static/script.js:30-63 | the decode handler keeps buttons enabled, loading off and at most one message |
| Form.PricingKeepsConsistent | static/script.js:154-196 | the show-results handler keeps buttons enabled, loading off and at most one message |
| Form.OneMessageVisible | static/script.js:290-300 | `showError` and `showSuccess` each leave exactly one message visible |
| Form.DecodeRejectsBadLength | static/script.js:31-36 | a trimmed VIN whose JavaScript length (UTF-16 units) is not 17 shows the length error with no loading and no request, and nothing else changes, whatever the reply |
| Form.PricingRejectsBadInput | static/script.js:155-166 | a VIN whose trimmed UTF-16 length is not 17 (checked first) or a NaN or negative mileage shows its error with no loading and no request, whatever the reply |
| Form.DecodeClickedSends | static/script.js:38-46 | a trimmed VIN of UTF-16 length 17 hides messages, shows loading, sends the trimmed VIN, then handles the reply |
| Form.ShowResultsClickedSends | static/script.js:168-176 | a trimmed VIN of UTF-16 length 17 and a non-negative mileage hide messages, shows loading, sends VIN and mileage, then handles the reply |
| Form.DecodeRequestBracketed | static/script.js:38-62 | effects after a valid click: loading on, the request, then only loading off; loading ends off |
| Form.PricingRequestBracketed | static/script.js:168-195 | effects after a valid click: loading on, the request, then loading off; loading ends off |
| Form.DecodeOutcome | static/script.js:48-62 | a successful reply with a record applies it and shows success: of the controls only the year slider and its labels change, and only when a year is given, and the three selects find or append; any failure leaves every filter and select as it was and shows an error |
| Form.PricingRepliedOutcome | static/script.js:178-190 | cards shown with the region picks and refreshed summaries only when there is at least one card; otherwise results untouched and the reply's error, the fallback or the network error shown |
| Form.PricingOutcome | static/script.js:178-190 | from the click: results shown only with at least one card; otherwise results and filters unchanged and an error shown |
| Form.ClearResets | static/script.js:199-214 | every filter at its fixed value, slider labels reset, option lists kept, results and messages hidden, nothing sent |
| Form.ClearIdempotent | static/script.js:199-214 | clearing twice is clearing once |
| Form.VinTypedIdempotent | static/script.js:25-27 | a second input event with no new text changes nothing |
| Form.ResetOdometerReading | static/script.js:202 | after a clear, the pricing handler reads the odometer as 100000 |
| Form.UnknownMakeAppended | static/script.js:87-93 | "Honda" not among ["", "Toyota"] is appended and selected |
| Form.KnownMakeSelected | static/script.js:78-84 | "HONDA" selects the existing "Honda" and adds no option |
| Form.TwoCardPriceSummary | static/script.js:222-229 | prices 15000 and 17000 give lowest 15000, average 16000, highest 17000 |
| Decimal.ParseIntOfIntToString | static/script.js:156 | `parseInt` of a number's decimal text gives the number back |
| Decimal.PyParseIntOfIntToString | app.py:115 | Python's `int()` of a number's decimal text gives the number back |
| Decimal.PyParseIntRefusesSeparator | app.py:115 | a leading U+001C, white space to `str.strip()`, makes `int()` refuse the text |
| PyJson.IntValueOfText | app.py:114-115 | a count sent as decimal text converts to that number |
| Nhtsa.StrippedOrNone | app.py:186 | None exactly when the value strips to nothing; otherwise the stripped value, which stripping again leaves as it is |
| Nhtsa.GetValue | app.py:181-187 | decided by the first item whose variable matches and whose value is truthy: that value stripped, or None if it strips empty; None without such an item; a result is never empty and never padded |
| Nhtsa.FirstTruthyValueWins | app.py:181-187 | example: with matching values "", " HONDA" and "ACURA", the empty one is skipped and the answer is "HONDA" |
| Nhtsa.BlankValueStopsTheSearch | app.py:184-186 | example: a blank matching value before a non-blank one decides None, so the later match is never reached |
| Nhtsa.LookupNeverEmpty | app.py:181-187 | every `get_value` answer is None or a non-empty string |
| Nhtsa.ComposeTrim | app.py:194-202 | the appends produce series, series2 unless equal to series, trim, trim2 unless equal to trim, in that order |
| Nhtsa.TrimPartsShape | app.py:194-202 | at most four non-empty parts; none exactly when no input is given; series first, then a differing series2 |
| Nhtsa.TrimPartsDropRepeats | app.py:194-202 | a series2 equal to series, or a trim2 equal to trim, adds nothing |
| Nhtsa.FullTrim | app.py:204 | None exactly when there are no parts |
| Nhtsa.JoinedNotEmpty | app.py:204 | joining non-empty parts with spaces is never empty |
| Nhtsa.TrimFieldIsFullTrim | app.py:204-211 | `full_trim or trim or series` equals the composed string, present whenever series or trim is |
| Nhtsa.VehicleTrim | app.py:189-211 | the record's `trim` entry is the composed trim string, and is truthy whenever series or trim is known |
| Nhtsa.VehicleInfoReads | app.py:206-229 | the record holds the VIN under `vin` and the trim entry under `trim` |
| Nhtsa.DropFalsy | app.py:231 | exactly the entries with a truthy value survive, unchanged; no empty value remains |
| Nhtsa.VehicleInfoEntries | app.py:206-231 | after the filter the record keeps the VIN, and keeps `trim` exactly when it is truthy, as the composed string |
| Nhtsa.DecodeVinChecks | app.py:141-159 | in order: no body, VIN empty after strip, VIN length not 17, each a 400 with its message; a non-dict body or non-string VIN raises and is a 500 with Python's message |
| Nhtsa.DecodeVinLooksUpOnlyValid | app.py:141-163 | the NHTSA lookup is made exactly when every check passes, with the stripped VIN; a refused request's reply does not depend on NHTSA |
| Nhtsa.Decoded | app.py:206-236 | the 200 reply carries `success: True` and a record of non-empty strings holding the VIN |
| Nhtsa.LookupSuccess | app.py:165-236 | a 200 comes exactly from an NHTSA 200 with `Results`, and carries `success: True` and a record of non-empty strings holding the VIN |
| Nhtsa.DecodeVinSuccess | app.py:231-236 | from the request: a 200 comes exactly from an accepted VIN and a readable NHTSA answer, with `success: True` and a record with no falsy value |
| Nhtsa.DecodeVinLookupFailures | app.py:163-247 | timeout is 504, an exception is 500 with its text, a non-200 NHTSA status is 400 naming the status, a body without `Results` is 400 |
| Endpoints.CheckOrder | app.py:93-120 | in order: no body, empty VIN, missing count, count `int()` refuses, each a 400 with its own message; otherwise the stripped VIN and converted count are accepted |
| Endpoints.CountAsText | app.py:114-115 | a count sent as decimal text is accepted as that number |
| Endpoints.ServiceCalledOnlyWhenAccepted | app.py:48-122 | `fetch_vehicle` and `pricing_cards` call the service exactly when the checks pass, with the accepted values; a refused request's reply does not depend on the service |
| Endpoints.FetchVehicleReplies | app.py:77-85 | once the input is accepted, `fetch_vehicle` passes the service's result on, 200 exactly when `success` is truthy and 400 otherwise; a service exception is a 500 |
| Endpoints.PricingCardsReplies | app.py:122-133 | once the input is accepted, `pricing_cards` answers 200 with only `cards` on success and 400 with the raw result otherwise; a service exception is a 500 |
| Endpoints.RetailPositive | app.py:290 | comparing the retail value with 0 works only for an int or a bool |
| Endpoints.PriceVsBlackbook | app.py:290-293 | price − retail exactly when retail > 0 and the price is a number; None when retail is not positive; the comparison's `TypeError` when retail is not a number; the subtraction's `TypeError` when retail > 0 and the price is not a number |
| Endpoints.Annotated | app.py:289-293 | succeeds exactly when no listing raises; then same count, each listing with `price_vs_blackbook` set; otherwise the error is that of the first listing that raises |
| Endpoints.AnnotateListings | app.py:289-293 | the in-place loop leaves the listings as `Annotated` says; on an error, the listings before the first one that raises are annotated and that one and the rest untouched |
| Endpoints.FirstRaiseUnique | app.py:289-293 | the first listing that raises is the one whose error is reported |
| Endpoints.ListingsChecks | app.py:255-287 | year, make and model must all be truthy, then the year must convert to int, each a 400 with its message; the search is made exactly when all hold, with the converted year, make, model, province and at most 15 listings; a refused request's reply does not depend on the search |
| Endpoints.ListingsSuccess | app.py:289-300 | a 200 holds every listing with its other entries kept and `price_vs_blackbook` set (None unless retail > 0, else price − retail), the retail value echoed, and `count` equal to the number of listings |
| Endpoints.NoListingsNoComparison | app.py:289-300 | an accepted request whose search finds nothing is a 200 with no listings, `count` 0 and the retail value echoed back, even one that cannot be compared with 0 |

The following definitions carry no contract of their own. Each is the
model of a handler or of a language primitive, and the lemmas named with it
state what it does.

- `Nhtsa.DecodeVin` (app.py:136-247): `Nhtsa.DecodeVinChecks`, `Nhtsa.DecodeVinLooksUpOnlyValid`, `Nhtsa.DecodeVinSuccess`.
- `Nhtsa.LookupOutcome` (app.py:163-247): `Nhtsa.LookupSuccess`, `Nhtsa.DecodeVinLookupFailures`, and `Nhtsa.Decoded` for its 200 branch.
- `Nhtsa.VehicleInfo` (app.py:206-229): `Nhtsa.VehicleInfoReads`, `Nhtsa.VehicleTrim`, `Nhtsa.VehicleInfoEntries`.
- `Endpoints.CheckVinAndCount` (app.py:48-75 and 93-120): `Endpoints.CheckOrder`, `Endpoints.CountAsText`.
- `Endpoints.FetchVehicle` (app.py:43-85): `Endpoints.ServiceCalledOnlyWhenAccepted`, `Endpoints.FetchVehicleReplies`.
- `Endpoints.PricingCardsEndpoint` (app.py:88-133): `Endpoints.ServiceCalledOnlyWhenAccepted`, `Endpoints.PricingCardsReplies`.
- `Endpoints.MarketListings` (app.py:250-307): `Endpoints.ListingsChecks`, `Endpoints.ListingsSuccess`, `Endpoints.NoListingsNoComparison`.
- `Decimal.ParseInt` (static/script.js:156): `Decimal.ParseIntOfIntToString`.
- `Text.JsLength` (static/script.js:33, 158): `Text.JsLengthOfBmp`, `VinInput.SanitisedLength`.
- `Decimal.PyParseInt` (app.py:70, 115, 274): `Decimal.PyParseIntOfIntToString`, `PyJson.IntValueOfText`.
- `Results.Sum` (static/script.js:227): `Results.SumBounds`, `Results.RoundedMean`, `Results.Summarise`.

The members below define Python and JavaScript primitives. Their
contracts say what the primitive returns, and so they have no row in
the table: `PyJson.Get` (`dict.get`, or the `AttributeError` text on a
non-dict), `PyJson.StripValue` (`str.strip`, or the `AttributeError`
text on a non-string), `PyJson.IntValue` (`int()` on a JSON value),
`PyJson.Failure` (the `{'success': False, 'error': ...}` literal),
`Results.Prices` and `Results.Mileages` (the `.map` over the cards).

## Left out

- Network I/O is not modelled: `fetch` and `response.json()` on the page, `requests.get` to NHTSA and its 10-second timeout. Their outcomes are parameters.
- `BlackbookService` and `MarketListingsService` are not part of this model. Their results and exception texts are parameters.
- Flask plumbing is not modelled: routing, `jsonify` serialisation, CORS, templates, the secret key, `app.run` and the `market_listings` error log line.
- The `index`, `admin`, `test_credentials` and `health_check` routes are not modelled. They hold no rule beyond passing a service result on.
- `request.get_json()` failures (wrong content type, malformed JSON) are not modelled. The model starts from the parsed body.
- JSON numbers are integers. Fractional prices, mileages, years and retail values are not modelled, and neither are JavaScript floating-point numbers. `Math.round` of a mean is exact integer arithmetic.
- Case mapping is ASCII only, for `toUpperCase` and `toLowerCase`. Python `int()` is modelled with ASCII digits only.
- Presentation is not modelled: `createCardHTML` markup, `toLocaleString`, the `$` and ` km` decorations, `setTimeout`/`scrollIntoView`, `alert` on the more-filters button, and `console.error`.
- Form.Form.DisplayResults: in the source, a region card without a mileage makes the card markup throw inside the `try`, which then shows the network error. Here every card has an integer mileage, so that path does not exist.
- Form.Populated: the decoded year arrives as an integer (0 when absent). The `parseInt` of a textual year and a NaN year written to the slider are not modelled.
- The year and odometer slider input handlers (static/script.js:141-151) are not modelled, and neither is the browser's clamping of a range input to its min and max.
- The page's initial markup is not part of this model. The `Form` constructor starts from the values the clear button writes.
- The page reads the decoded record from the reply's `data` field, while `decode_vin` sends it under `vehicle_info`. Each side is modelled by its own code and the two are not joined.
- Nhtsa.GetValue: each NHTSA result item is modelled with a string `Variable` and `Value` (or none). `str()` of a non-string value, a `Results` value that is not a list of dicts, and a body that is not a JSON object are not modelled.
- Python dict key order (`vehicle_info`, listing dicts) is not modelled. Maps are unordered.
- Endpoints.AnnotateListings: the dicts are updated in place in an array. Other references the listings service may keep to them are not modelled.
- The handlers run atomically here. On the page, the clear button and the VIN box stay live while `await fetch` is pending, so a clear or a keystroke can come between a request and its reply. The model applies each reply right after its request. Form.DecodeRepliedSettles and Form.PricingRepliedSettles hold for any page state the request was sent from, but no lemma is stated about an interleaved clear or keystroke.
- Decimal.PyParseIntOfIntToString, PyJson.IntValueOfText, Endpoints.CountAsText: Python 3.11 and later refuse to convert a decimal string of more than 4300 digits with `int()` (a `ValueError`, so a 400 here). The model has no such limit, so these round trips are stated for every integer.
