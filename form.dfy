/**
 * The browser controller: the filter controls, the two action buttons, the
 * loading indicator and the two messages, and the handlers that change them.
 *
 * Each DOM element the script updates is a field of `Form` (a select is a
 * `Select` object whose option list grows in place). `View()` reads all of
 * them into one value; every handler is proved to move `View()` exactly as
 * the matching pure function below says, and the lemmas at the end state
 * what those functions promise. A network request is recorded as an
 * `Effect` instead of being sent, and its outcome is a parameter.
 */
module Form {
  import opened Wrappers
  import opened Text
  import opened Decimal
  import opened VinInput
  import opened Results

  /** The decoded record the page reads from the decode reply's `data`; 0 and "" stand for absent. */
  datatype VinRecord = VinRecord(year: int, make: string, model: string, series: string)

  /** How the decode request ended: a rejected fetch or unreadable body, or the parsed JSON reply. */
  datatype DecodeReply =
    | DecodeTransportError
    | DecodeAnswer(success: bool, data: Option<VinRecord>, error: string)

  /** How the pricing request ended; `error` is "" when the reply has no (or an empty) error text. */
  datatype PricingReply =
    | PricingTransportError
    | PricingAnswer(cards: Option<seq<Card>>, error: string)

  datatype Request = DecodeRequest(vin: string) | PricingRequest(vin: string, mileage: int)

  /** What the page does that is visible from outside: toggling loading, and sending a request. */
  datatype Effect = LoadingShown(on: bool) | Sent(request: Request)

  /** A select element: its options' values, in order, and its current value. */
  datatype SelectState = SelectState(options: seq<string>, value: string)

  /** The filter controls' values. */
  datatype Filters = Filters(
    vin: string, yearMin: string, odometer: string,
    make: string, model: string, trim: string,
    province: string, saleDate: string)

  /** The filter inputs and the labels beside the two sliders. */
  datatype Controls = Controls(
    vin: string,
    yearMin: string, yearMinDisplay: string, yearMaxDisplay: string,
    odometer: string, odometerMinDisplay: string, odometerMaxDisplay: string,
    province: string, saleDate: string)

  /** The loading indicator, the two buttons and the two messages. */
  datatype Status = Status(
    loadingShown: bool, decodeDisabled: bool, showResultsDisabled: bool,
    errorShown: bool, errorText: string,
    successShown: bool, successText: string)

  /** The results container: its visibility, the two summary rows and the two region cards. */
  datatype ResultsArea = ResultsArea(
    shown: bool,
    priceSummary: Option<Summary>, kmSummary: Option<Summary>,
    ontarioCard: Option<Card>, quebecCard: Option<Card>)

  /** Everything the controller can change. */
  datatype Page = Page(
    controls: Controls,
    make: SelectState, model: SelectState, trim: SelectState,
    status: Status,
    results: ResultsArea,
    decoded: Option<VinRecord>,
    effects: seq<Effect>)

  const VinLengthError := "VIN must be exactly 17 characters"
  const DecodeFallbackError := "Failed to decode VIN"
  const DecodeNetworkError := "Network error: Unable to decode VIN"
  const DecodeSuccessText := "\U{2713} VIN has been decoded into the filters below!"
  const PricingVinError := "Please enter a valid 17-character VIN first and decode it"
  const PricingMileageError := "Please enter a valid odometer reading"
  const PricingFallbackError := "Failed to fetch pricing data"
  const PricingNetworkError := "Network error: Unable to fetch data"
  const PricingSuccessText := "Pricing data retrieved successfully!"

  /** The values the clear button writes into the inputs and labels. */
  const ResetControls := Controls("", "2024", "1980", "2026", "100000", "0", "200000", "", "90")

  /** The values the clear button writes. */
  const ResetFilters := Filters("", "2024", "100000", "", "", "", "", "90")

  function FiltersOf(v: Page): Filters
  {
    Filters(v.controls.vin, v.controls.yearMin, v.controls.odometer,
            v.make.value, v.model.value, v.trim.value, v.controls.province, v.controls.saleDate)
  }

  /** The state between two events: buttons enabled exactly when not loading, at most one message. */
  predicate Consistent(v: Page)
  {
    && v.status.decodeDisabled == v.status.loadingShown
    && v.status.showResultsDisabled == v.status.loadingShown
    && !v.status.loadingShown
    && !(v.status.errorShown && v.status.successShown)
  }

  // ---------------------------------------------------------------------
  // Find-or-append on a select

  /**
   * The find-or-append block run for make, model and trim: select the first
   * option equal to `v` ignoring case; if there is none, append `v` as a new
   * option and select it.
   */
  function Pick(s: SelectState, v: string): (r: SelectState)
    ensures r.options == s.options || r.options == s.options + [v]
    ensures r.options == s.options <==> exists i :: 0 <= i < |s.options| && SameIgnoringCase(s.options[i], v)
    ensures r.options != s.options ==> r.value == v
    ensures r.value in r.options && SameIgnoringCase(r.value, v)
    ensures r.options == s.options ==>
      exists i :: 0 <= i < |s.options| && r.value == s.options[i] && SameIgnoringCase(s.options[i], v) &&
        forall j :: 0 <= j < i ==> !SameIgnoringCase(s.options[j], v)
  {
    match FirstIndex(s.options, (o: string) => SameIgnoringCase(o, v))
    case Some(i) => SelectState(s.options, s.options[i])
    case None =>
      assert (s.options + [v])[|s.options|] == v;
      SelectState(s.options + [v], v)
  }

  /** The first option equal to `v` ignoring case is the one `Pick` selects. */
  lemma PickFirstMatch(s: SelectState, v: string, i: int)
    requires 0 <= i < |s.options| && SameIgnoringCase(s.options[i], v)
    requires forall j :: 0 <= j < i ==> !SameIgnoringCase(s.options[j], v)
    ensures Pick(s, v) == SelectState(s.options, s.options[i])
  {
    assert FirstIndex(s.options, (o: string) => SameIgnoringCase(o, v)) == Some(i);
  }

  /** With no option equal to `v` ignoring case, `Pick` appends `v` and selects it. */
  lemma PickNoMatch(s: SelectState, v: string)
    requires forall j :: 0 <= j < |s.options| ==> !SameIgnoringCase(s.options[j], v)
    ensures Pick(s, v) == SelectState(s.options + [v], v)
  {
  }

  /** `if (data.field) { find-or-append }`: an empty field leaves the select alone. */
  function PickIfPresent(s: SelectState, v: string): SelectState
  {
    if v != "" then Pick(s, v) else s
  }

  /** Decoding the same value twice adds no second option. */
  lemma PickIdempotent(s: SelectState, v: string)
    ensures Pick(Pick(s, v), v) == Pick(s, v)
  {
    var r := Pick(s, v);
    if r.options != s.options {
      var k := |s.options|;
      assert r.options[k] == v && SameIgnoringCase(r.options[k], v);
      assert forall j :: 0 <= j < k ==> r.options[j] == s.options[j];
    }
  }

  // ---------------------------------------------------------------------
  // The small helpers every handler uses

  /** `showLoading(show)`. */
  function WithLoading(v: Page, show: bool): Page
  {
    v.(status := v.status.(loadingShown := show, showResultsDisabled := show, decodeDisabled := show),
       effects := v.effects + [LoadingShown(show)])
  }

  /** `showError(message)`. */
  function WithError(v: Page, message: string): Page
  {
    v.(status := v.status.(errorText := message, errorShown := true, successShown := false))
  }

  /** `showSuccess(message)`. */
  function WithSuccess(v: Page, message: string): Page
  {
    v.(status := v.status.(successText := message, successShown := true, errorShown := false))
  }

  /** `hideMessages()`. */
  function WithoutMessages(v: Page): Page
  {
    v.(status := v.status.(errorShown := false, successShown := false))
  }

  function WithRequest(v: Page, r: Request): Page
  {
    v.(effects := v.effects + [Sent(r)])
  }

  /** `data.error || fallback`. */
  function ErrorOr(error: string, fallback: string): string
  {
    if error != "" then error else fallback
  }

  // ---------------------------------------------------------------------
  // The handlers, as functions of the view

  /** The VIN box's input handler. */
  function VinTyped(v: Page): Page
  {
    v.(controls := v.controls.(vin := Sanitise(v.controls.vin)))
  }

  /** `populateFiltersFromVin(data)`. */
  function Populated(v: Page, d: VinRecord): Page
  {
    var year := IntToString(d.year);
    var c := v.controls;
    v.(controls := if d.year != 0 then c.(yearMin := year, yearMinDisplay := year, yearMaxDisplay := year) else c,
       make := PickIfPresent(v.make, d.make),
        model := PickIfPresent(v.model, d.model),
        trim := PickIfPresent(v.trim, d.series))
  }

  /** The decode button's click handler. */
  function DecodeClicked(v: Page, reply: DecodeReply): Page
  {
    var vin := JsTrim(v.controls.vin);
    if JsLength(vin) != 17 then WithError(v, VinLengthError)
    else
      DecodeReplied(WithRequest(WithLoading(WithoutMessages(v), true), DecodeRequest(vin)), reply)
  }

  /** What the decode handler does once the request has been sent. */
  function DecodeReplied(sent: Page, reply: DecodeReply): Page
  {
    match reply
    case DecodeTransportError =>
      WithError(WithLoading(sent, false), DecodeNetworkError)
    case DecodeAnswer(success, data, error) =>
      var done := WithLoading(sent, false);
      if !success then WithError(done, ErrorOr(error, DecodeFallbackError))
      else match data
        // reading `data.year` of undefined throws; the catch block runs
        case None => WithError(WithLoading(done.(decoded := None), false), DecodeNetworkError)
        case Some(d) => WithSuccess(Populated(done.(decoded := Some(d)), d), DecodeSuccessText)
  }

  /** The summary rows refresh only when a value survives the falsy filter. */
  function Refreshed(shown: Option<Summary>, computed: Option<Summary>): Option<Summary>
  {
    if computed.Some? then computed else shown
  }

  /** `displayResults(cards)`. */
  function Displayed(v: Page, cards: seq<Card>): Page
  {
    var r := v.results;
    v.(results := r.(priceSummary := Refreshed(r.priceSummary, Summarise(Prices(cards))),
                     kmSummary := Refreshed(r.kmSummary, Summarise(Mileages(cards))),
                     ontarioCard := FindProvince(cards, "Ontario"),
                     quebecCard := FindProvince(cards, "Quebec")))
  }

  /** `resultsContainer.style.display = 'block'`. */
  function Shown(v: Page): Page
  {
    v.(results := v.results.(shown := true))
  }

  /** The show-results button's click handler. */
  function ShowResultsClicked(v: Page, reply: PricingReply): Page
  {
    var vin := JsTrim(v.controls.vin);
    var mileage := ParseInt(v.controls.odometer);
    if JsLength(vin) != 17 then WithError(v, PricingVinError)
    else if mileage.None? || mileage.value < 0 then WithError(v, PricingMileageError)
    else
      PricingReplied(WithRequest(WithLoading(WithoutMessages(v), true), PricingRequest(vin, mileage.value)), reply)
  }

  /** What the show-results handler does once the request has been sent. */
  function PricingReplied(sent: Page, reply: PricingReply): Page
  {
    match reply
    case PricingTransportError =>
      WithError(WithLoading(sent, false), PricingNetworkError)
    case PricingAnswer(cards, error) =>
      var done := WithLoading(sent, false);
      if cards.Some? && |cards.value| > 0 then
        Shown(WithSuccess(Displayed(done, cards.value), PricingSuccessText))
      else WithError(done, ErrorOr(error, PricingFallbackError))
  }

  /** The clear button's click handler. */
  function Cleared(v: Page): Page
  {
    WithoutMessages(
      v.(controls := ResetControls,
         make := v.make.(value := ""), model := v.model.(value := ""), trim := v.trim.(value := ""),
         results := v.results.(shown := false)))
  }

  // ---------------------------------------------------------------------
  // What the handlers promise

  /**
   * The `showLoading(false)` calls after the decode request: one on every
   * path, and a second when a successful reply carries no data (the `try`
   * block has already called it when `populateFiltersFromVin` throws, and
   * the `catch` block calls it again).
   */
  function DecodeClosing(reply: DecodeReply): (r: seq<Effect>)
    ensures 1 <= |r| <= 2 && forall i :: 0 <= i < |r| ==> r[i] == LoadingShown(false)
  {
    if reply.DecodeAnswer? && reply.success && reply.data.None? then [LoadingShown(false), LoadingShown(false)]
    else [LoadingShown(false)]
  }

  /** Every exit of the decode handler after the request clears loading and leaves one message. */
  lemma DecodeRepliedSettles(sent: Page, reply: DecodeReply)
    ensures var q := DecodeReplied(sent, reply);
      && q.effects == sent.effects + DecodeClosing(reply)
      && !q.status.loadingShown && !q.status.decodeDisabled && !q.status.showResultsDisabled
      && q.status.errorShown != q.status.successShown
  {
    var done := WithLoading(sent, false);
    match reply
    case DecodeTransportError =>
    case DecodeAnswer(success, data, error) =>
      if success && data.None? {
        var twice := WithLoading(done.(decoded := None), false);
        assert twice.effects == sent.effects + [LoadingShown(false), LoadingShown(false)];
      }
  }

  /** Every exit of the pricing handler after the request clears loading and leaves one message. */
  lemma PricingRepliedSettles(sent: Page, reply: PricingReply)
    ensures var q := PricingReplied(sent, reply);
      && q.effects == sent.effects + [LoadingShown(false)]
      && !q.status.loadingShown && !q.status.decodeDisabled && !q.status.showResultsDisabled
      && q.status.errorShown != q.status.successShown
  {
  }

  /** Typing in the VIN box and clearing the filters keep the page consistent. */
  lemma InputsKeepConsistent(p: Page)
    requires Consistent(p)
    ensures Consistent(VinTyped(p)) && Consistent(Cleared(p))
  {
  }

  /** The decode handler keeps the page consistent: buttons enabled, nothing loading, at most one message. */
  lemma DecodeKeepsConsistent(p: Page, reply: DecodeReply)
    requires Consistent(p)
    ensures Consistent(DecodeClicked(p, reply))
  {
    var vin := JsTrim(p.controls.vin);
    if JsLength(vin) == 17 {
      DecodeClickedSends(p, reply);
      DecodeRepliedSettles(WithRequest(WithLoading(WithoutMessages(p), true), DecodeRequest(vin)), reply);
    }
  }

  /** The show-results handler keeps the page consistent. */
  lemma PricingKeepsConsistent(p: Page, reply: PricingReply)
    requires Consistent(p)
    ensures Consistent(ShowResultsClicked(p, reply))
  {
    var vin := JsTrim(p.controls.vin);
    var mileage := ParseInt(p.controls.odometer);
    if JsLength(vin) == 17 && mileage.Some? && mileage.value >= 0 {
      ShowResultsClickedSends(p, reply);
      PricingRepliedSettles(WithRequest(WithLoading(WithoutMessages(p), true), PricingRequest(vin, mileage.value)), reply);
    }
  }

  /** `showError` and `showSuccess` each leave exactly one message visible. */
  lemma OneMessageVisible(p: Page, message: string)
    ensures WithError(p, message).status.errorShown && !WithError(p, message).status.successShown
    ensures WithSuccess(p, message).status.successShown && !WithSuccess(p, message).status.errorShown
  {
  }

  /**
   * A VIN that is not 17 characters after trimming is reported and nothing
   * else happens: no loading, no request, whatever the server would have said.
   */
  lemma DecodeRejectsBadLength(p: Page, r1: DecodeReply, r2: DecodeReply)
    requires JsLength(JsTrim(p.controls.vin)) != 17
    ensures DecodeClicked(p, r1) == DecodeClicked(p, r2)
    ensures var q := DecodeClicked(p, r1);
      && q.effects == p.effects
      && q.status.loadingShown == p.status.loadingShown
      && q.status.errorShown && !q.status.successShown && q.status.errorText == VinLengthError
      && q.controls == p.controls && q.results == p.results && q.decoded == p.decoded
      && q.make == p.make && q.model == p.model && q.trim == p.trim
  {
  }

  /**
   * The pricing handler checks the VIN first and the odometer second, and
   * either failure is reported with no loading and no request.
   */
  lemma PricingRejectsBadInput(p: Page, r1: PricingReply, r2: PricingReply)
    requires var m := ParseInt(p.controls.odometer);
      JsLength(JsTrim(p.controls.vin)) != 17 || m.None? || m.value < 0
    ensures ShowResultsClicked(p, r1) == ShowResultsClicked(p, r2)
    ensures var q := ShowResultsClicked(p, r1);
      && q.effects == p.effects
      && q.status.loadingShown == p.status.loadingShown
      && q.status.errorShown && !q.status.successShown
      && q.status.errorText == (if JsLength(JsTrim(p.controls.vin)) != 17 then PricingVinError else PricingMileageError)
      && q.controls == p.controls && q.results == p.results && q.decoded == p.decoded
      && q.make == p.make && q.model == p.model && q.trim == p.trim
  {
  }

  /** `tail` is one `showLoading(true)`, one request, then one or more `showLoading(false)`. */
  predicate LoadingBracket(tail: seq<Effect>, r: Request)
  {
    && |tail| >= 3
    && tail[0] == LoadingShown(true) && tail[1] == Sent(r)
    && forall i :: 2 <= i < |tail| ==> tail[i] == LoadingShown(false)
  }

  /** Appending a request bracket to `before` gives a sequence that starts with `before`. */
  lemma BracketAfter(before: seq<Effect>, r: Request, closing: seq<Effect>)
    requires |closing| >= 1 && forall i :: 0 <= i < |closing| ==> closing[i] == LoadingShown(false)
    ensures var all := before + [LoadingShown(true), Sent(r)] + closing;
      && all[..|before|] == before
      && LoadingBracket(all[|before|..], r)
  {
    var all := before + [LoadingShown(true), Sent(r)] + closing;
    assert all[..|before|] == before;
    assert all[|before|..] == [LoadingShown(true), Sent(r)] + closing;
  }

  /** With a well-formed VIN, the click handler is the reply handler applied to the page with the request sent. */
  lemma DecodeClickedSends(p: Page, reply: DecodeReply)
    requires JsLength(JsTrim(p.controls.vin)) == 17
    ensures DecodeClicked(p, reply)
         == DecodeReplied(WithRequest(WithLoading(WithoutMessages(p), true), DecodeRequest(JsTrim(p.controls.vin))), reply)
  {
  }

  /** With well-formed input, the click handler is the reply handler applied to the page with the request sent. */
  lemma ShowResultsClickedSends(p: Page, reply: PricingReply)
    requires JsLength(JsTrim(p.controls.vin)) == 17
    requires ParseInt(p.controls.odometer).Some? && ParseInt(p.controls.odometer).value >= 0
    ensures ShowResultsClicked(p, reply)
         == PricingReplied(WithRequest(WithLoading(WithoutMessages(p), true),
                                       PricingRequest(JsTrim(p.controls.vin), ParseInt(p.controls.odometer).value)), reply)
  {
  }

  /** A VIN that passes the check is sent with loading shown, and loading is cleared on every exit path. */
  lemma DecodeRequestBracketed(p: Page, reply: DecodeReply)
    requires JsLength(JsTrim(p.controls.vin)) == 17
    ensures var q := DecodeClicked(p, reply);
      && |q.effects| >= |p.effects| && q.effects[..|p.effects|] == p.effects
      && LoadingBracket(q.effects[|p.effects|..], DecodeRequest(JsTrim(p.controls.vin)))
      && !q.status.loadingShown && !q.status.decodeDisabled && !q.status.showResultsDisabled
  {
    DecodeClickedSends(p, reply);
    DecodeBracketAfterSend(p, DecodeRequest(JsTrim(p.controls.vin)), reply);
  }

  /** Whatever the request, sending it and handling the decode reply bracket it with loading on and off. */
  lemma DecodeBracketAfterSend(p: Page, r: Request, reply: DecodeReply)
    ensures var q := DecodeReplied(WithRequest(WithLoading(WithoutMessages(p), true), r), reply);
      && |q.effects| >= |p.effects| && q.effects[..|p.effects|] == p.effects
      && LoadingBracket(q.effects[|p.effects|..], r)
      && !q.status.loadingShown && !q.status.decodeDisabled && !q.status.showResultsDisabled
  {
    var sent := WithRequest(WithLoading(WithoutMessages(p), true), r);
    assert sent.effects == p.effects + [LoadingShown(true), Sent(r)];
    DecodeRepliedSettles(sent, reply);
    BracketAfter(p.effects, r, DecodeClosing(reply));
  }

  /** Valid input is sent with loading shown, and loading is cleared on every exit path. */
  lemma PricingRequestBracketed(p: Page, reply: PricingReply)
    requires JsLength(JsTrim(p.controls.vin)) == 17
    requires ParseInt(p.controls.odometer).Some? && ParseInt(p.controls.odometer).value >= 0
    ensures var q := ShowResultsClicked(p, reply);
      && |q.effects| >= |p.effects| && q.effects[..|p.effects|] == p.effects
      && LoadingBracket(q.effects[|p.effects|..],
                        PricingRequest(JsTrim(p.controls.vin), ParseInt(p.controls.odometer).value))
      && !q.status.loadingShown && !q.status.decodeDisabled && !q.status.showResultsDisabled
  {
    ShowResultsClickedSends(p, reply);
    PricingBracketAfterSend(p, PricingRequest(JsTrim(p.controls.vin), ParseInt(p.controls.odometer).value), reply);
  }

  /** Whatever the request, sending it and handling the pricing reply bracket it with loading on and off. */
  lemma PricingBracketAfterSend(p: Page, r: Request, reply: PricingReply)
    ensures var q := PricingReplied(WithRequest(WithLoading(WithoutMessages(p), true), r), reply);
      && |q.effects| >= |p.effects| && q.effects[..|p.effects|] == p.effects
      && LoadingBracket(q.effects[|p.effects|..], r)
      && !q.status.loadingShown && !q.status.decodeDisabled && !q.status.showResultsDisabled
  {
    var sent := WithRequest(WithLoading(WithoutMessages(p), true), r);
    assert sent.effects == p.effects + [LoadingShown(true), Sent(r)];
    PricingRepliedSettles(sent, reply);
    BracketAfter(p.effects, r, [LoadingShown(false)]);
  }

  /**
   * A decoded record is applied and acknowledged: only the year controls
   * (when a year is given) and the three selects change; a failed decode
   * leaves every filter as it was.
   */
  lemma DecodeOutcome(p: Page, reply: DecodeReply)
    requires JsLength(JsTrim(p.controls.vin)) == 17
    ensures var q := DecodeClicked(p, reply);
      if reply.DecodeAnswer? && reply.success && reply.data.Some? then
        var d := reply.data.value;
        && q.decoded == Some(d)
        && q.make == PickIfPresent(p.make, d.make)
        && q.model == PickIfPresent(p.model, d.model)
        && q.trim == PickIfPresent(p.trim, d.series)
        && q.controls == (if d.year != 0 then
                            p.controls.(yearMin := IntToString(d.year), yearMinDisplay := IntToString(d.year),
                                        yearMaxDisplay := IntToString(d.year))
                          else p.controls)
        && q.status.successShown && q.status.successText == DecodeSuccessText
      else
        && q.controls == p.controls
        && q.make == p.make && q.model == p.model && q.trim == p.trim
        && q.status.errorShown && !q.status.successShown
  {
  }

  /**
   * Once the request is sent, cards are shown only when the reply holds at
   * least one; otherwise an error is shown and the results container keeps
   * its visibility and content.
   */
  lemma PricingRepliedOutcome(sent: Page, reply: PricingReply)
    ensures var q := PricingReplied(sent, reply);
      if reply.PricingAnswer? && reply.cards.Some? && |reply.cards.value| > 0 then
        var cards := reply.cards.value;
        && q.results.shown
        && q.results.ontarioCard == FindProvince(cards, "Ontario")
        && q.results.quebecCard == FindProvince(cards, "Quebec")
        && q.results.priceSummary == Refreshed(sent.results.priceSummary, Summarise(Prices(cards)))
        && q.results.kmSummary == Refreshed(sent.results.kmSummary, Summarise(Mileages(cards)))
        && q.status.successShown && q.status.successText == PricingSuccessText
      else
        && q.results == sent.results
        && q.status.errorShown && !q.status.successShown
        && q.status.errorText == match reply
             case PricingTransportError => PricingNetworkError
             case PricingAnswer(_, error) => ErrorOr(error, PricingFallbackError)
  {
  }

  /**
   * From the click: cards are shown only when the reply holds at least one;
   * otherwise an error is shown and the results container is left as it was.
   */
  lemma PricingOutcome(p: Page, reply: PricingReply)
    requires JsLength(JsTrim(p.controls.vin)) == 17
    requires ParseInt(p.controls.odometer).Some? && ParseInt(p.controls.odometer).value >= 0
    ensures var q := ShowResultsClicked(p, reply);
      if reply.PricingAnswer? && reply.cards.Some? && |reply.cards.value| > 0 then
        var cards := reply.cards.value;
        && q.results.shown
        && q.results.ontarioCard == FindProvince(cards, "Ontario")
        && q.results.quebecCard == FindProvince(cards, "Quebec")
        && q.status.successShown
      else
        && q.results == p.results
        && q.controls == p.controls && q.make == p.make && q.model == p.model && q.trim == p.trim
        && q.status.errorShown && !q.status.successShown
  {
    var r := PricingRequest(JsTrim(p.controls.vin), ParseInt(p.controls.odometer).value);
    var sent := WithRequest(WithLoading(WithoutMessages(p), true), r);
    ShowResultsClickedSends(p, reply);
    PricingRepliedOutcome(sent, reply);
  }

  /** Clearing writes fixed values, keeps every select's options, hides results and messages. */
  lemma ClearResets(p: Page)
    ensures var q := Cleared(p);
      && FiltersOf(q) == ResetFilters
      && q.controls.yearMinDisplay == "1980" && q.controls.yearMaxDisplay == "2026"
      && q.controls.odometerMinDisplay == "0" && q.controls.odometerMaxDisplay == "200000"
      && q.make.options == p.make.options && q.model.options == p.model.options && q.trim.options == p.trim.options
      && !q.results.shown && !q.status.errorShown && !q.status.successShown
      && q.effects == p.effects
  {
  }

  /** Clearing twice is the same as clearing once. */
  lemma ClearIdempotent(p: Page)
    ensures Cleared(Cleared(p)) == Cleared(p)
  {
  }

  /** Sanitising the VIN box again changes nothing. */
  lemma VinTypedIdempotent(p: Page)
    ensures VinTyped(VinTyped(p)) == VinTyped(p)
  {
    SanitiseIdempotent(p.controls.vin);
  }

  /** After a reset, the pricing handler reads the odometer slider as 100000. */
  lemma ResetOdometerReading()
    ensures ParseInt(ResetFilters.odometer) == Some(100000)
  {
    assert NatToString(100000) == "100000";
    ParseIntOfIntToString(100000);
  }

  /** A make that is not among the options is appended and selected. */
  lemma UnknownMakeAppended()
    ensures Pick(SelectState(["", "Toyota"], ""), "Honda") == SelectState(["", "Toyota", "Honda"], "Honda")
  {
    var options := ["", "Toyota"];
    assert !SameIgnoringCase(options[0], "Honda") by { assert |ToLower(options[0])| != |ToLower("Honda")|; }
    assert !SameIgnoringCase(options[1], "Honda") by { assert |ToLower(options[1])| != |ToLower("Honda")|; }
    var r := Pick(SelectState(options, ""), "Honda");
    assert r.options == options + ["Honda"];
  }

  /** A make that differs only in case selects the existing option and adds none. */
  lemma KnownMakeSelected()
    ensures Pick(SelectState(["", "Honda"], ""), "HONDA") == SelectState(["", "Honda"], "Honda")
  {
    assert !SameIgnoringCase("", "HONDA") by { assert |ToLower("")| != |ToLower("HONDA")|; }
    assert SameIgnoringCase("Honda", "HONDA") by { assert ToLower("Honda") == ToLower("HONDA") == "honda"; }
  }

  /** Two cards priced 15000 and 17000 summarise as lowest 15000, average 16000, highest 17000. */
  lemma TwoCardPriceSummary()
    ensures Summarise([15000, 17000]) == Some(Summary(15000, 16000, 17000))
  {
    assert Present([15000, 17000]) == [15000, 17000] by {
      assert [15000, 17000][1..] == [17000];
    }
    assert Sum([15000, 17000]) == 32000 by {
      assert [15000, 17000][1..] == [17000];
    }
  }

  // ---------------------------------------------------------------------
  // The page's objects

  class Select {
    var options: seq<string>
    var value: string

    constructor (options: seq<string>, value: string)
      ensures State() == SelectState(options, value)
    {
      this.options := options;
      this.value := value;
    }

    function State(): SelectState
      reads this
    {
      SelectState(options, value)
    }

    /** The scan with `break`, then `appendChild` when nothing matched. */
    method SelectOrAppend(v: string)
      modifies this
      ensures State() == Pick(old(State()), v)
    {
      ghost var before := State();
      var found := false;
      var i := 0;
      while i < |options|
        invariant 0 <= i <= |options|
        invariant options == old(options) && value == old(value)
        invariant forall j :: 0 <= j < i ==> !SameIgnoringCase(options[j], v)
      {
        if ToLower(options[i]) == ToLower(v) {
          PickFirstMatch(before, v, i);
          value := options[i];
          found := true;
          break;
        }
        i := i + 1;
      }
      if !found {
        PickNoMatch(before, v);
        options := options + [v];
        value := v;
      }
    }
  }

  class Form {
    /** The inputs and slider labels. */
    var controls: Controls
    const make: Select
    const model: Select
    const trim: Select
    /** The loading indicator, the buttons' disabled flags and the two messages. */
    var status: Status
    /** The results container and what it shows. */
    var results: ResultsArea
    /** `decodedVinData`. */
    var decoded: Option<VinRecord>
    var effects: seq<Effect>

    function View(): Page
      reads this, make, model, trim
    {
      Page(controls, make.State(), model.State(), trim.State(), status, results, decoded, effects)
    }

    ghost predicate Valid()
      reads this
    {
      make != model && model != trim && make != trim
    }

    /**
     * The page as loaded, with the given options in the three selects; the
     * markup's own initial values are taken to be the ones the clear button writes.
     */
    constructor (makeOptions: seq<string>, modelOptions: seq<string>, trimOptions: seq<string>)
      ensures Valid() && Consistent(View()) && fresh(make) && fresh(model) && fresh(trim)
      ensures FiltersOf(View()) == ResetFilters && Cleared(View()) == View()
      ensures make.options == makeOptions && model.options == modelOptions && trim.options == trimOptions
      ensures decoded == None && results == ResultsArea(false, None, None, None, None) && effects == []
    {
      controls := ResetControls;
      make := new Select(makeOptions, "");
      model := new Select(modelOptions, "");
      trim := new Select(trimOptions, "");
      status := Status(false, false, false, false, "", false, "");
      results := ResultsArea(false, None, None, None, None);
      decoded := None;
      effects := [];
    }

    method ShowLoading(show: bool)
      modifies this`status, this`effects
      ensures View() == WithLoading(old(View()), show)
    {
      status := status.(loadingShown := show, showResultsDisabled := show, decodeDisabled := show);
      effects := effects + [LoadingShown(show)];
    }

    method ShowError(message: string)
      modifies this`status
      ensures View() == WithError(old(View()), message)
    {
      status := status.(errorText := message, errorShown := true, successShown := false);
    }

    method ShowSuccess(message: string)
      modifies this`status
      ensures View() == WithSuccess(old(View()), message)
    {
      status := status.(successText := message, successShown := true, errorShown := false);
    }

    method HideMessages()
      modifies this`status
      ensures View() == WithoutMessages(old(View()))
    {
      status := status.(errorShown := false, successShown := false);
    }

    /** Hands a request to the network. */
    method Send(r: Request)
      modifies this`effects
      ensures View() == WithRequest(old(View()), r)
    {
      effects := effects + [Sent(r)];
    }

    method OnVinInput()
      modifies this`controls
      ensures View() == VinTyped(old(View()))
    {
      controls := controls.(vin := Sanitise(controls.vin));
    }

    method PopulateFiltersFromVin(d: VinRecord)
      requires Valid()
      modifies this`controls, make, model, trim
      ensures View() == Populated(old(View()), d)
    {
      if d.year != 0 {
        var year := IntToString(d.year);
        controls := controls.(yearMin := year, yearMinDisplay := year, yearMaxDisplay := year);
      }
      if d.make != "" {
        make.SelectOrAppend(d.make);
      }
      if d.model != "" {
        model.SelectOrAppend(d.model);
      }
      if d.series != "" {
        trim.SelectOrAppend(d.series);
      }
    }

    method OnDecodeClick(reply: DecodeReply)
      requires Valid()
      modifies this, make, model, trim
      ensures View() == DecodeClicked(old(View()), reply)
    {
      var v := JsTrim(controls.vin);
      if JsLength(v) != 17 {
        ShowError(VinLengthError);
        return;
      }
      HideMessages();
      ShowLoading(true);
      Send(DecodeRequest(v));
      ReceiveDecodeReply(reply);
    }

    /** The rest of the decode handler, from the reply (or the thrown error) on. */
    method ReceiveDecodeReply(reply: DecodeReply)
      requires Valid()
      modifies this, make, model, trim
      ensures View() == DecodeReplied(old(View()), reply)
    {
      match reply {
        case DecodeTransportError =>
          ShowLoading(false);
          ShowError(DecodeNetworkError);
        case DecodeAnswer(success, data, error) =>
          ShowLoading(false);
          if success {
            decoded := data;
            match data {
              case None =>
                ShowLoading(false);
                ShowError(DecodeNetworkError);
              case Some(d) =>
                PopulateFiltersFromVin(d);
                ShowSuccess(DecodeSuccessText);
            }
          } else {
            ShowError(ErrorOr(error, DecodeFallbackError));
          }
      }
    }

    method DisplayResults(cards: seq<Card>)
      modifies this`results
      ensures View() == Displayed(old(View()), cards)
    {
      var prices := Summarise(Prices(cards));
      var kms := Summarise(Mileages(cards));
      if prices.Some? {
        results := results.(priceSummary := prices);
      }
      if kms.Some? {
        results := results.(kmSummary := kms);
      }
      results := results.(ontarioCard := None, quebecCard := None);
      results := results.(ontarioCard := FindProvince(cards, "Ontario"));
      results := results.(quebecCard := FindProvince(cards, "Quebec"));
    }

    method OnShowResultsClick(reply: PricingReply)
      modifies this
      ensures View() == ShowResultsClicked(old(View()), reply)
    {
      var v := JsTrim(controls.vin);
      var mileage := ParseInt(controls.odometer);
      if JsLength(v) != 17 {
        ShowError(PricingVinError);
        return;
      }
      if mileage.None? || mileage.value < 0 {
        ShowError(PricingMileageError);
        return;
      }
      HideMessages();
      ShowLoading(true);
      Send(PricingRequest(v, mileage.value));
      ReceivePricingReply(reply);
    }

    /** The rest of the show-results handler, from the reply (or the thrown error) on. */
    method ReceivePricingReply(reply: PricingReply)
      modifies this
      ensures View() == PricingReplied(old(View()), reply)
    {
      match reply {
        case PricingTransportError =>
          ShowLoading(false);
          ShowError(PricingNetworkError);
        case PricingAnswer(cards, error) =>
          ShowLoading(false);
          if cards.Some? && |cards.value| > 0 {
            DisplayResults(cards.value);
            ShowSuccess(PricingSuccessText);
            results := results.(shown := true);
          } else {
            ShowError(ErrorOr(error, PricingFallbackError));
          }
      }
    }

    method OnClearFilters()
      requires Valid()
      modifies this`controls, this`results, this`status, make, model, trim
      ensures View() == Cleared(old(View()))
    {
      controls := ResetControls;
      make.value := "";
      model.value := "";
      trim.value := "";
      results := results.(shown := false);
      HideMessages();
    }
  }
}
