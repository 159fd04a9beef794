/** The collection and insight client of src/api.js: a JSON fetch helper that
    turns non-2xx answers into errors, the search and object URLs of the
    museum API, a per-object fetch that never fails, and the insight request
    with its synchronous input validation and fixed prompt template.
    Each network exchange is an abstract `FetchOutcome` given as input. */
module ApiClient {
  import opened Base
  import opened JsValues
  import UriEncoding

  const MET_API_BASE_URL := "https://collectionapi.metmuseum.org/public/collection/v1"
  const GEMINI_API_PROXY_URL := "/api/gemini"
  const PAGE_SIZE: nat := 21

  /** The message of the error thrown for a non-2xx answer. */
  const HTTP_ERROR_PREFIX := "HTTP error! Status: "

  function HttpErrorMessage(status: int): string {
    HTTP_ERROR_PREFIX + IntToDecimal(status)
  }

  /** The error message carries the exact status: the text after the fixed
      prefix is the canonical decimal form of the status and reads back as it. */
  lemma HttpErrorMessageCarriesStatus(status: nat)
    ensures HttpErrorMessage(status)[..|HTTP_ERROR_PREFIX|] == HTTP_ERROR_PREFIX
    ensures var digits := HttpErrorMessage(status)[|HTTP_ERROR_PREFIX|..];
      IsCanonicalDecimal(digits) && DecimalValue(digits) == status
  {
    var m := HttpErrorMessage(status);
    assert m[|HTTP_ERROR_PREFIX|..] == NatToDecimal(status);
    DecimalRoundTrip(status);
  }

  /** Two statuses give the same message only if they are equal. */
  lemma HttpErrorMessageInjective(s1: nat, s2: nat)
    requires HttpErrorMessage(s1) == HttpErrorMessage(s2)
    ensures s1 == s2
  {
    HttpErrorMessageCarriesStatus(s1);
    HttpErrorMessageCarriesStatus(s2);
  }

  /** `_fetchJSON`: a transport failure or a body that does not parse is
      re-thrown as it is, a non-2xx answer becomes an `HTTP error! Status: N`
      error, and a 2xx body is returned unchanged. */
  function FetchJson(outcome: FetchOutcome): (r: Result<JsValue, string>)
    ensures outcome.NetworkError? ==> r == Err(outcome.message)
    ensures outcome.Responded? && !IsOkStatus(outcome.status) ==> r == Err(HttpErrorMessage(outcome.status))
    ensures outcome.Responded? && IsOkStatus(outcome.status) ==> r == outcome.body
  {
    match outcome
    case NetworkError(message) => Err(message)
    case Responded(status, body) =>
      if !IsOkStatus(status) then Err(HttpErrorMessage(status)) else body
  }

  /** One request made through `_fetchJSON` and what it returned. */
  datatype Call = Call(request: OutgoingRequest, result: Result<JsValue, string>)

  function GetRequest(url: string): OutgoingRequest {
    OutgoingRequest(url, "GET", map[], Undefined)
  }

  /** The search endpoint for a query. */
  function SearchUrl(query: string): string {
    MET_API_BASE_URL + "/search?q=" + UriEncoding.EncodeURIComponent(query) + "&hasImages=true"
  }

  const SEARCH_PREFIX := MET_API_BASE_URL + "/search?q="
  const SEARCH_SUFFIX := "&hasImages=true"

  /** The search URL is the fixed prefix, the encoded query and the fixed
      `&hasImages=true` suffix. The encoded part holds no '&', '=' or '#', so
      no query can add or override a parameter, and decoding it gives back
      the query's UTF-8 bytes. */
  lemma SearchUrlShape(query: string)
    ensures var url := SearchUrl(query);
      var e := UriEncoding.EncodeURIComponent(query);
      && url == SEARCH_PREFIX + e + SEARCH_SUFFIX
      && url[|SEARCH_PREFIX|..|url| - |SEARCH_SUFFIX|] == e
      && (forall i :: |SEARCH_PREFIX| <= i < |url| - |SEARCH_SUFFIX| ==> url[i] !in {'&', '=', '#'})
      && UriEncoding.PercentDecode(e) == UriEncoding.Utf8String(query)
  {
    var url := SearchUrl(query);
    var e := UriEncoding.EncodeURIComponent(query);
    assert url == SEARCH_PREFIX + e + SEARCH_SUFFIX;
    UriEncoding.DecodeEncode(query);
    UriEncoding.EncodedHasNoDelimiters(query);
    forall i | |SEARCH_PREFIX| <= i < |url| - |SEARCH_SUFFIX|
      ensures url[i] !in {'&', '=', '#'}
    {
      assert url[i] == e[i - |SEARCH_PREFIX|];
    }
  }

  /** `searchMet`: a GET of the search URL through `_fetchJSON`. */
  function SearchMet(query: string, outcome: FetchOutcome): (c: Call)
    ensures c.request.url == SearchUrl(query) && c.request.verb == "GET"
    ensures c.result == FetchJson(outcome)
  {
    Call(GetRequest(SearchUrl(query)), FetchJson(outcome))
  }

  const OBJECTS_PREFIX := MET_API_BASE_URL + "/objects/"

  /** The object endpoint for an id. */
  function ObjectUrl(objectId: int): string {
    OBJECTS_PREFIX + IntToDecimal(objectId)
  }

  /** Different ids are fetched from different URLs, so a page never asks
      for one object in place of another. */
  lemma ObjectUrlInjective(m: int, n: int)
    requires ObjectUrl(m) == ObjectUrl(n)
    ensures m == n
  {
    assert IntToDecimal(m) == ObjectUrl(m)[|OBJECTS_PREFIX|..];
    assert IntToDecimal(n) == ObjectUrl(n)[|OBJECTS_PREFIX|..];
    IntToDecimalInjective(m, n);
  }

  /** `getArtDetails(objectId)`: a GET of the object's URL whose promise
      never rejects. */
  function ArtDetailsCall(objectId: int, outcome: FetchOutcome): (c: Call)
    ensures c.request.url == ObjectUrl(objectId) && c.request.verb == "GET"
    ensures c.result.Ok? && c.result.value == GetArtDetails(outcome)
  {
    Call(GetRequest(ObjectUrl(objectId)), Ok(GetArtDetails(outcome)))
  }

  /** `getArtDetails`: never fails; any failure of the fetch becomes `null`
      so that one bad object cannot break a batch. */
  function GetArtDetails(outcome: FetchOutcome): (r: JsValue)
    ensures FetchJson(outcome).Err? ==> r == Null
    ensures FetchJson(outcome).Ok? ==> r == FetchJson(outcome).value
    ensures r != Null ==> outcome.Responded? && IsOkStatus(outcome.status) && outcome.body == Ok(r)
  {
    match FetchJson(outcome)
    case Ok(v) => v
    case Err(_) => Null
  }

  // ---------------------------------------------------------------------
  // getGeminiFact
  // ---------------------------------------------------------------------

  const INVALID_OBJECT_MESSAGE := "artDetails must be a valid object"
  const INVALID_TITLE_MESSAGE := "artDetails must have a valid title"

  const PROMPT_OPENING := "Tell me an interesting fact or provide a brief analysis about the artwork titled \""
  const PROMPT_BY := "\" by "
  const PROMPT_AROUND := ", created around "
  const PROMPT_CLOSING := ". Focus on its historical context, artistic style, or significance. Keep it concise, around 2-3 sentences."
  const UNKNOWN_ARTIST := "an unknown artist"
  const UNKNOWN_DATE := "an unknown date"

  /** The fixed insight prompt; `titleText` is what the template inserts for
      the title, artist and date fall back to fixed phrases when falsy. */
  function InsightPrompt(titleText: string, artist: JsValue, date: JsValue): string {
    PROMPT_OPENING + titleText + PROMPT_BY + OrDefault(artist, UNKNOWN_ARTIST) +
    PROMPT_AROUND + OrDefault(date, UNKNOWN_DATE) + PROMPT_CLOSING
  }

  /** In a concatenation of seven parts, each part sits at the sum of the
      lengths before it. */
  lemma ConcatLayout(p1: string, p2: string, p3: string, p4: string, p5: string, p6: string, p7: string)
    ensures var s := p1 + p2 + p3 + p4 + p5 + p6 + p7;
      && s[..|p1|] == p1
      && OccursAt(s, p2, |p1|)
      && OccursAt(s, p3, |p1| + |p2|)
      && OccursAt(s, p4, |p1| + |p2| + |p3|)
      && OccursAt(s, p6, |p1| + |p2| + |p3| + |p4| + |p5|)
      && s[|s| - |p7|..] == p7
  {
    var s := p1 + p2 + p3 + p4 + p5 + p6 + p7;
    var o := |p1| + |p2| + |p3| + |p4| + |p5|;
    assert s[|p1|..|p1| + |p2|] == p2;
    assert s[|p1| + |p2|..|p1| + |p2| + |p3|] == p3;
    assert s[|p1| + |p2| + |p3|..|p1| + |p2| + |p3| + |p4|] == p4;
    assert s[o..o + |p6|] == p6;
  }

  /** Where each part sits in the prompt: the title is inserted verbatim (no
      trimming, escaping or truncation) right after the fixed opening, and
      artist and date (or their fallbacks) follow at fixed offsets. */
  lemma InsightPromptLayout(titleText: string, artist: JsValue, date: JsValue)
    ensures var p := InsightPrompt(titleText, artist, date);
      var a := OrDefault(artist, UNKNOWN_ARTIST);
      var d := OrDefault(date, UNKNOWN_DATE);
      var artistAt := |PROMPT_OPENING| + |titleText| + |PROMPT_BY|;
      var dateAt := artistAt + |a| + |PROMPT_AROUND|;
      && p[..|PROMPT_OPENING|] == PROMPT_OPENING
      && OccursAt(p, titleText, |PROMPT_OPENING|)
      && OccursAt(p, PROMPT_BY, |PROMPT_OPENING| + |titleText|)
      && OccursAt(p, a, artistAt)
      && OccursAt(p, d, dateAt)
      && p[|p| - |PROMPT_CLOSING|..] == PROMPT_CLOSING
      && |p| == dateAt + |d| + |PROMPT_CLOSING|
  {
    ConcatLayout(PROMPT_OPENING, titleText, PROMPT_BY, OrDefault(artist, UNKNOWN_ARTIST),
                 PROMPT_AROUND, OrDefault(date, UNKNOWN_DATE), PROMPT_CLOSING);
  }

  /** A falsy artist or date ('' included) is replaced by its fallback
      phrase, which then appears in the prompt. */
  lemma InsightPromptFallbacks(titleText: string, artist: JsValue, date: JsValue)
    ensures !Truthy(artist) ==> Contains(InsightPrompt(titleText, artist, date), UNKNOWN_ARTIST)
    ensures !Truthy(date) ==> Contains(InsightPrompt(titleText, artist, date), UNKNOWN_DATE)
  {
    InsightPromptLayout(titleText, artist, date);
    var p := InsightPrompt(titleText, artist, date);
    ContainsIff(p, UNKNOWN_ARTIST);
    ContainsIff(p, UNKNOWN_DATE);
  }

  /** A title the validation accepts: a string with a non-whitespace character. */
  predicate HasValidTitle(artDetails: JsValue)
    requires artDetails.Obj?
  {
    var t := Prop(artDetails, "title");
    t.Str? && !AllWhitespace(t.s)
  }

  /** Either the call threw synchronously (no request made), or a request was
      sent and this is what `_fetchJSON` produced for it. */
  datatype InsightCall = Rejected(message: string) | Sent(call: Call)

  /** `getGeminiFact`. The validation runs before any fetch: only plain
      (non-array) objects pass the first guard, and only a non-blank string
      title the second. The request is a POST to the proxy whose body holds
      the prompt and nothing else. */
  function GetGeminiFact(artDetails: JsValue, outcome: FetchOutcome): (r: InsightCall)
    ensures !artDetails.Obj? <==> r == Rejected(INVALID_OBJECT_MESSAGE)
    ensures artDetails.Obj? && !HasValidTitle(artDetails) <==> r == Rejected(INVALID_TITLE_MESSAGE)
    ensures r.Sent? <==> artDetails.Obj? && HasValidTitle(artDetails)
    ensures r.Sent? ==>
      && r.call.request.url == GEMINI_API_PROXY_URL
      && r.call.request.verb == "POST"
      && r.call.request.headers == JSON_HEADERS
      && r.call.request.body.Obj?
      && r.call.request.body.props.Keys == {"prompt"}
      && r.call.request.body.props["prompt"] == Str(InsightPrompt(
           Prop(artDetails, "title").s, Prop(artDetails, "artistDisplayName"), Prop(artDetails, "objectDate")))
      && r.call.result == FetchJson(outcome)
  {
    if !Truthy(artDetails) || TypeOf(artDetails) != "object" || artDetails.Arr? then
      Rejected(INVALID_OBJECT_MESSAGE)
    else
      var title := Prop(artDetails, "title");
      if !Truthy(title) || TypeOf(title) != "string" || Trim(title.s) == "" then
        TrimEmptyIff(if title.Str? then title.s else "");
        Rejected(INVALID_TITLE_MESSAGE)
      else
        TrimEmptyIff(title.s);
        var prompt := InsightPrompt(title.s, Prop(artDetails, "artistDisplayName"), Prop(artDetails, "objectDate"));
        var request := OutgoingRequest(GEMINI_API_PROXY_URL, "POST", JSON_HEADERS, Object1("prompt", Str(prompt)));
        Sent(Call(request, FetchJson(outcome)))
  }
}
