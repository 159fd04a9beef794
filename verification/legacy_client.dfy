/** The earlier browser client of script.js: a search that fetches the
    details of the first 20 matches, a gallery of the records that have an
    image, a detail view, and an insight panel that calls the model's REST
    endpoint directly with a key written into the script. */
module LegacyClient {
  import opened Base
  import opened JsValues
  import ApiClient
  import opened GeminiRest

  const MAX_RESULTS: nat := 20
  /** The key the script ships with, a placeholder. */
  const PLACEHOLDER_KEY := "YOUR_GEMINI_API_KEY"
  const KEY_HELP_MESSAGE :=
    "Please replace \"YOUR_GEMINI_API_KEY\" in script.js with your actual Google Gemini API key to enable AI insights."
  const GENERATING_MESSAGE := "Generating insights..."
  const FALLBACK_MESSAGE := "Could not retrieve insights from Gemini. Please try again."
  const CONNECT_ERROR_MESSAGE := "Error connecting to Gemini API. Check your key and network."
  const CLICK_PROMPT_MESSAGE := "Click below to get insights from Gemini!"
  const LOADING_MESSAGE := "Loading insights..."
  const EMPTY_QUERY_MESSAGE := "Please enter a search query."
  const MEDIUM_CLAUSE := ", and made with "
  const UNKNOWN_MEDIUM := "an unknown medium"

  // ---------------------------------------------------------------------
  // Search and details
  // ---------------------------------------------------------------------

  /** `getArtDetails(id)`: the parsed body whatever the status; null only
      when the request or the parse throws. */
  function LegacyDetails(outcome: FetchOutcome): (r: JsValue)
    ensures outcome.NetworkError? || outcome.body.Err? ==> r == Null
    ensures outcome.Responded? && outcome.body.Ok? ==> r == outcome.body.value
  {
    match outcome
    case NetworkError(_) => Null
    case Responded(_, Err(_)) => Null
    case Responded(_, Ok(data)) => data
  }

  /** What `searchMetArt` asked for and returned. */
  datatype SearchResult = SearchResult(requested: seq<JsValue>, records: seq<JsValue>)

  function NotNull(v: JsValue): bool { v != Null }

  /** The detail fetches for some ids, in id order. */
  function FetchAll(ids: seq<JsValue>, server: JsValue -> FetchOutcome): seq<JsValue> {
    seq(|ids|, i requires 0 <= i < |ids| => LegacyDetails(server(ids[i])))
  }

  /** `searchMetArt(query)`: no status check on the search either; a zero
      `total` ends the search, otherwise the first 20 ids are fetched and the
      null records dropped; anything that throws (no body, no id array)
      yields no records and no detail fetch. */
  function SearchMetArt(outcome: FetchOutcome, server: JsValue -> FetchOutcome): (r: SearchResult)
    ensures |r.requested| <= MAX_RESULTS
    ensures r.records == Filter(FetchAll(r.requested, server), NotNull)
    ensures forall i :: 0 <= i < |r.records| ==> r.records[i] != Null
    ensures outcome.NetworkError? || outcome.body.Err? ==> r == SearchResult([], [])
    ensures outcome.Responded? && outcome.body.Ok? ==>
      var data := outcome.body.value;
      && (IsNullish(data) ==> r == SearchResult([], []))
      && (!IsNullish(data) && Prop(data, "total") == Num(0) ==> r == SearchResult([], []))
      && (!IsNullish(data) && Prop(data, "total") != Num(0) ==>
            var ids := Prop(data, "objectIDs");
            && (!ids.Arr? ==> r == SearchResult([], []))
            && (ids.Arr? ==> r.requested == ids.elems[..if |ids.elems| < MAX_RESULTS then |ids.elems| else MAX_RESULTS]))
  {
    match outcome
    case NetworkError(_) => SearchResult([], [])
    case Responded(_, Err(_)) => SearchResult([], [])
    case Responded(_, Ok(data)) =>
      match Get(data, "total")
      case Err(_) => SearchResult([], [])
      case Ok(total) =>
        if total == Num(0) then SearchResult([], [])
        else
          var ids := Prop(data, "objectIDs");
          if !ids.Arr? then SearchResult([], [])
          else
            var first := ids.elems[..if |ids.elems| < MAX_RESULTS then |ids.elems| else MAX_RESULTS];
            SearchResult(first, Filter(FetchAll(first, server), NotNull))
  }

  /** A record that arrives, even an error body of a non-2xx answer, is kept
      at the place of its id; a failed fetch leaves no trace. */
  lemma {:induction false} SearchKeepsArrivals(ids: seq<JsValue>, i: nat, server: JsValue -> FetchOutcome)
    requires i < |ids|
    ensures var r := LegacyDetails(server(ids[i]));
      var before := Filter(FetchAll(ids[..i], server), NotNull);
      var after := Filter(FetchAll(ids[i + 1..], server), NotNull);
      Filter(FetchAll(ids, server), NotNull) == before + (if r == Null then [] else [r]) + after
  {
    var r := LegacyDetails(server(ids[i]));
    var a, b := FetchAll(ids[..i], server), FetchAll(ids[i + 1..], server);
    assert FetchAll(ids, server) == a + [r] + b;
    FilterAppend(a + [r], b, NotNull);
    FilterAppend(a, [r], NotNull);
    assert Filter([r], NotNull) == if r == Null then [] else [r];
  }

  // ---------------------------------------------------------------------
  // The gallery
  // ---------------------------------------------------------------------

  /** What one card shows. */
  datatype Card = Card(image: string, alt: string, title: string, artist: string, record: JsValue)

  /** `art.primaryImageSmall` is truthy (false for values the loop cannot read). */
  function HasImage(art: JsValue): bool {
    !IsNullish(art) && Truthy(Prop(art, "primaryImageSmall"))
  }

  function CardFor(art: JsValue): (c: Card)
    requires !IsNullish(art)
    ensures c.record == art
    ensures c.title == OrDefault(Prop(art, "title"), "Untitled")
    ensures c.artist == OrDefault(Prop(art, "artistDisplayName"), "Unknown Artist")
  {
    Card(ToDisplayString(Prop(art, "primaryImageSmall")), ToDisplayString(Prop(art, "title")),
         OrDefault(Prop(art, "title"), "Untitled"), OrDefault(Prop(art, "artistDisplayName"), "Unknown Artist"), art)
  }

  /** The position of the first null or undefined record, where reading
      `art.primaryImageSmall` throws and the loop stops. */
  function FirstNullish(xs: seq<JsValue>): (k: nat)
    ensures k <= |xs|
    ensures forall j :: 0 <= j < k ==> !IsNullish(xs[j])
    ensures k < |xs| ==> IsNullish(xs[k])
  {
    if |xs| == 0 || IsNullish(xs[0]) then 0 else 1 + FirstNullish(xs[1..])
  }

  /** `displayArtPieces(artPieces)`: a card for each record with an image,
      in order; the no-results message only for an empty input. A null
      record throws, leaving the cards made before it. */
  method DisplayArtPieces(artPieces: seq<JsValue>) returns (cards: seq<Card>, noResults: bool, threw: bool)
    ensures noResults <==> |artPieces| == 0
    ensures threw <==> FirstNullish(artPieces) < |artPieces|
    ensures var shown := Filter(artPieces[..FirstNullish(artPieces)], HasImage);
      |cards| == |shown| && forall j :: 0 <= j < |cards| ==> cards[j] == CardFor(shown[j])
  {
    cards, threw := [], false;
    if |artPieces| == 0 {
      noResults := true;
      return;
    }
    noResults := false;
    var k := FirstNullish(artPieces);
    var i := 0;
    while i < |artPieces|
      invariant 0 <= i <= k
      invariant var shown := Filter(artPieces[..i], HasImage);
        |cards| == |shown| && forall j :: 0 <= j < |cards| ==> cards[j] == CardFor(shown[j])
    {
      var art := artPieces[i];
      if IsNullish(art) {
        threw := true;
        return;
      }
      FilterAppend(artPieces[..i], [art], HasImage);
      assert artPieces[..i + 1] == artPieces[..i] + [art];
      if HasImage(art) {
        assert Filter([art], HasImage) == [art];
        cards := cards + [CardFor(art)];
      } else {
        assert Filter([art], HasImage) == [];
      }
      i := i + 1;
    }
    assert artPieces[..i] == artPieces;
  }

  /** Records that came out of a search never make the gallery throw when
      none is undefined: every record with an image gets its card. */
  lemma NoNullishMeansWholeList(artPieces: seq<JsValue>)
    requires forall j :: 0 <= j < |artPieces| ==> !IsNullish(artPieces[j])
    ensures FirstNullish(artPieces) == |artPieces|
    ensures artPieces[..FirstNullish(artPieces)] == artPieces
  {
  }

  /** What `showArtDetail` writes into the detail view. */
  datatype DetailView = DetailView(image: string, alt: string, title: string, artist: string, date: string, medium: string)

  const NO_IMAGE_URL := "https://via.placeholder.com/400?text=No+Image"

  function DetailFor(art: JsValue): (d: DetailView)
    requires !IsNullish(art)
    ensures Truthy(Prop(art, "primaryImage")) ==> d.image == ToDisplayString(Prop(art, "primaryImage"))
    ensures !Truthy(Prop(art, "primaryImage")) && Truthy(Prop(art, "primaryImageSmall")) ==>
      d.image == ToDisplayString(Prop(art, "primaryImageSmall"))
    ensures !Truthy(Prop(art, "primaryImage")) && !Truthy(Prop(art, "primaryImageSmall")) ==> d.image == NO_IMAGE_URL
    ensures d.alt == ToDisplayString(Prop(art, "title"))
    ensures Truthy(Prop(art, "title")) ==> d.title == ToDisplayString(Prop(art, "title"))
    ensures !Truthy(Prop(art, "title")) ==> d.title == "Untitled"
    ensures Truthy(Prop(art, "artistDisplayName")) ==> d.artist == ToDisplayString(Prop(art, "artistDisplayName"))
    ensures !Truthy(Prop(art, "artistDisplayName")) ==> d.artist == "Unknown Artist"
    ensures d.date == "Date: " + OrDefault(Prop(art, "objectDate"), "N/A")
    ensures d.medium == "Medium: " + OrDefault(Prop(art, "medium"), "N/A")
  {
    var image := if Truthy(Prop(art, "primaryImage")) then ToDisplayString(Prop(art, "primaryImage"))
                 else OrDefault(Prop(art, "primaryImageSmall"), NO_IMAGE_URL);
    DetailView(image, ToDisplayString(Prop(art, "title")), OrDefault(Prop(art, "title"), "Untitled"),
               OrDefault(Prop(art, "artistDisplayName"), "Unknown Artist"),
               "Date: " + OrDefault(Prop(art, "objectDate"), "N/A"), "Medium: " + OrDefault(Prop(art, "medium"), "N/A"))
  }

  // ---------------------------------------------------------------------
  // The insight request
  // ---------------------------------------------------------------------

  /** The prompt of script.js: the shared template with a medium clause
      before the closing sentences. */
  function LegacyPrompt(title: JsValue, artist: JsValue, date: JsValue, medium: JsValue): string {
    ApiClient.PROMPT_OPENING + ToDisplayString(title) + ApiClient.PROMPT_BY + OrDefault(artist, ApiClient.UNKNOWN_ARTIST) +
    ApiClient.PROMPT_AROUND + OrDefault(date, ApiClient.UNKNOWN_DATE) +
    MEDIUM_CLAUSE + OrDefault(medium, UNKNOWN_MEDIUM) + ApiClient.PROMPT_CLOSING
  }

  /** Splicing a clause in before the last piece keeps everything before it. */
  lemma SpliceBeforeLast(o: string, t: string, b: string, a: string, r: string, d: string,
                         clause: string, m: string, closing: string)
    ensures var shared := o + t + b + a + r + d + closing;
      var spliced := o + t + b + a + r + d + clause + m + closing;
      var stem := |shared| - |closing|;
      && 0 <= stem <= |spliced|
      && spliced[..stem] == shared[..stem]
      && spliced[stem..] == clause + m + closing
  {
    var x := o + t + b + a + r + d;
    assert o + t + b + a + r + d + closing == x + closing;
    assert o + t + b + a + r + d + clause + m + closing == x + (clause + m + closing);
    assert (x + closing)[..|x|] == x;
    assert (x + (clause + m + closing))[..|x|] == x;
  }

  /** The prompt is the client library's prompt with the medium (or "an
      unknown medium") spliced in just before the closing sentences. */
  lemma LegacyPromptAddsMedium(title: JsValue, artist: JsValue, date: JsValue, medium: JsValue)
    ensures var shared := ApiClient.InsightPrompt(ToDisplayString(title), artist, date);
      var legacy := LegacyPrompt(title, artist, date, medium);
      var stem := |shared| - |ApiClient.PROMPT_CLOSING|;
      && 0 <= stem <= |legacy|
      && legacy[..stem] == shared[..stem]
      && legacy[stem..] == MEDIUM_CLAUSE + OrDefault(medium, UNKNOWN_MEDIUM) + ApiClient.PROMPT_CLOSING
  {
    SpliceBeforeLast(ApiClient.PROMPT_OPENING, ToDisplayString(title), ApiClient.PROMPT_BY,
                     OrDefault(artist, ApiClient.UNKNOWN_ARTIST), ApiClient.PROMPT_AROUND,
                     OrDefault(date, ApiClient.UNKNOWN_DATE), MEDIUM_CLAUSE, OrDefault(medium, UNKNOWN_MEDIUM),
                     ApiClient.PROMPT_CLOSING);
  }

  /** The request `getGeminiFact` sends. */
  function InsightRequest(apiKey: string, art: JsValue): (r: OutgoingRequest)
    requires !IsNullish(art)
    ensures r.url == GEMINI_ENDPOINT + apiKey && r.verb == "POST" && r.headers == JSON_HEADERS
    ensures PromptOf(r.body) == Some(Str(LegacyPrompt(Prop(art, "title"), Prop(art, "artistDisplayName"),
                                                      Prop(art, "objectDate"), Prop(art, "medium"))))
  {
    var prompt := LegacyPrompt(Prop(art, "title"), Prop(art, "artistDisplayName"), Prop(art, "objectDate"), Prop(art, "medium"));
    GenerateBodyCarriesPrompt(Str(prompt));
    OutgoingRequest(GEMINI_ENDPOINT + apiKey, "POST", JSON_HEADERS, GenerateBody(Str(prompt)))
  }

  /** What the panel shows for the endpoint's answer (status not looked
      at): the text of the first part of the first candidate when the path
      `candidates[0].content.parts` is there, the fallback otherwise, and
      the connection error when anything throws on the way. */
  function InsightText(outcome: FetchOutcome): (shown: string)
    ensures outcome.NetworkError? || outcome.body.Err? ==> shown == CONNECT_ERROR_MESSAGE
    ensures outcome.Responded? && outcome.body.Ok? && IsNullish(outcome.body.value) ==> shown == CONNECT_ERROR_MESSAGE
    ensures outcome.Responded? && outcome.body.Ok? && !IsNullish(outcome.body.value) ==>
      (!Truthy(Prop(outcome.body.value, "candidates")) ==> shown == FALLBACK_MESSAGE)
  {
    match outcome
    case NetworkError(_) => CONNECT_ERROR_MESSAGE
    case Responded(_, Err(_)) => CONNECT_ERROR_MESSAGE
    case Responded(_, Ok(data)) =>
      match Get(data, "candidates")
      case Err(_) => CONNECT_ERROR_MESSAGE
      case Ok(candidates) =>
        if !Truthy(candidates) then FALLBACK_MESSAGE
        else
          var first := At(candidates, 0).value;
          if !Truthy(first) then FALLBACK_MESSAGE
          else
            var content := Prop(first, "content");
            if !Truthy(content) then FALLBACK_MESSAGE
            else
              var parts := Prop(content, "parts");
              if !Truthy(parts) then FALLBACK_MESSAGE
              else
                var part := At(parts, 0).value;
                if IsNullish(part) then CONNECT_ERROR_MESSAGE
                else TextContent(Prop(part, "text"))
  }

  /** An answer of the endpoint's shape is shown as its text, under any
      status; a string text appears exactly. */
  lemma CandidateTextShown(status: int, text: JsValue)
    ensures InsightText(Responded(status, Ok(CandidateAnswer(text)))) == TextContent(text)
    ensures text.Str? ==> InsightText(Responded(status, Ok(CandidateAnswer(text)))) == text.s
  {
  }

  /** An error body without candidates shows the fallback; an empty parts
      list throws on `parts[0].text` and shows the connection error. */
  lemma InsightEdgeCases(status: int, error: JsValue)
    ensures InsightText(Responded(status, Ok(Object1("error", error)))) == FALLBACK_MESSAGE
    ensures InsightText(Responded(status, Ok(Object1("candidates",
      Arr([Object1("content", Object1("parts", Arr([])))]))))) == CONNECT_ERROR_MESSAGE
    ensures InsightText(Responded(status, Ok(Null))) == CONNECT_ERROR_MESSAGE
  {
  }

  // ---------------------------------------------------------------------
  // The page state
  // ---------------------------------------------------------------------

  /** The key guard of `getGeminiFact`: `!GEMINI_API_KEY` or the placeholder stops it. */
  predicate KeyConfigured(apiKey: string) {
    apiKey != "" && apiKey != PLACEHOLDER_KEY
  }

  /** The script's one variable and the insight panel it drives. */
  class LegacyPage {
    /** `GEMINI_API_KEY`, written into the script. */
    const apiKey: string
    var currentArtObject: JsValue
    var insightText: string
    var askButtonShown: bool

    constructor(apiKey: string)
      ensures this.apiKey == apiKey && currentArtObject == Null
      ensures insightText == LOADING_MESSAGE && !askButtonShown
    {
      this.apiKey := apiKey;
      currentArtObject := Null;
      insightText := LOADING_MESSAGE;
      askButtonShown := false;
    }

    /** The search button: the trimmed input is searched (at the same search
        URL as the client library builds) and its records displayed; an
        empty input only raises a message. */
    method SubmitSearch(input: string, outcome: FetchOutcome, server: JsValue -> FetchOutcome)
      returns (url: Option<string>, message: Option<string>, cards: seq<Card>, noResults: bool)
      ensures AllWhitespace(input) ==> url == None && message == Some(EMPTY_QUERY_MESSAGE) && cards == []
      ensures !AllWhitespace(input) ==> url == Some(ApiClient.SearchUrl(Trim(input)))
      ensures !AllWhitespace(input) ==> message == None && (noResults <==> SearchMetArt(outcome, server).records == [])
      ensures !AllWhitespace(input) ==>
        var records := SearchMetArt(outcome, server).records;
        var shown := Filter(records[..FirstNullish(records)], HasImage);
        |cards| == |shown| && forall j :: 0 <= j < |cards| ==> cards[j] == CardFor(shown[j])
    {
      var query := Trim(input);
      TrimEmptyIff(input);
      if query == "" {
        url, message, cards, noResults := None, Some(EMPTY_QUERY_MESSAGE), [], false;
        return;
      }
      url, message := Some(ApiClient.SearchUrl(query)), None;
      var records := SearchMetArt(outcome, server).records;
      var threw;
      cards, noResults, threw := DisplayArtPieces(records);
    }

    /** A card click: the record becomes the current one and the panel is
        reset to its invitation. */
    method ShowArtDetail(art: JsValue) returns (view: DetailView)
      requires !IsNullish(art)
      modifies this
      ensures currentArtObject == art && view == DetailFor(art)
      ensures insightText == CLICK_PROMPT_MESSAGE && askButtonShown
    {
      currentArtObject := art;
      view := DetailFor(art);
      insightText := CLICK_PROMPT_MESSAGE;
      askButtonShown := true;
    }

    /** The back button. */
    method HideArtDetail()
      modifies this
      ensures currentArtObject == Null && insightText == LOADING_MESSAGE && !askButtonShown
    {
      currentArtObject := Null;
      insightText := LOADING_MESSAGE;
      askButtonShown := false;
    }

    /** The ask button: with a current record, `getGeminiFact` either stops
        at the key guard without any request, or sends the request and shows
        what came back, re-showing the button at the end. */
    method AskGemini(outcome: FetchOutcome) returns (request: Option<OutgoingRequest>)
      modifies this
      ensures currentArtObject == old(currentArtObject)
      ensures !Truthy(currentArtObject) ==>
        request == None && insightText == old(insightText) && askButtonShown == old(askButtonShown)
      ensures Truthy(currentArtObject) && !KeyConfigured(apiKey) ==>
        request == None && insightText == KEY_HELP_MESSAGE && askButtonShown == old(askButtonShown)
      ensures Truthy(currentArtObject) && KeyConfigured(apiKey) ==>
        && request == Some(InsightRequest(apiKey, currentArtObject))
        && insightText == InsightText(outcome) && askButtonShown
    {
      request := None;
      if !Truthy(currentArtObject) {
        return;
      }
      if !KeyConfigured(apiKey) {
        insightText := KEY_HELP_MESSAGE;
        return;
      }
      insightText := GENERATING_MESSAGE;
      askButtonShown := false;
      request := Some(InsightRequest(apiKey, currentArtObject));
      insightText := InsightText(outcome);
      askButtonShown := true;
    }
  }

  /** As shipped, the page is built with the placeholder key: opening an
      artwork and asking for its insight shows the key help and no request
      ever leaves the page. */
  method ShippedPageAsksForKey(art: JsValue, outcome: FetchOutcome)
    returns (request: Option<OutgoingRequest>, text: string)
    requires art.Obj?
    ensures request == None && text == KEY_HELP_MESSAGE
  {
    var page := new LegacyPage(PLACEHOLDER_KEY);
    var _ := page.ShowArtDetail(art);
    request := page.AskGemini(outcome);
    text := page.insightText;
  }
}
