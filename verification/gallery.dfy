/** The result-set and pagination controller of public/script.js: the global
    `state` record (search result ids, current page, favorites-view flag and
    the artwork open in the detail view), the page slice and its detail
    fetches, the pager's arithmetic, and the state changes made by the
    search, pager, favorites, detail and insight handlers. Fetches are
    abstract outcomes given as input; the per-id detail fetches of one page
    are a function from id to outcome, mapped in order (as `Promise.all`
    keeps order). */
module Gallery {
  import opened Base
  import opened JsValues
  import ApiClient
  import Favorites

  const PAGE_SIZE: nat := 21

  function Min(a: int, b: int): int { if a <= b then a else b }
  function Max(a: int, b: int): int { if a >= b then a else b }

  // ---------------------------------------------------------------------
  // Page arithmetic
  // ---------------------------------------------------------------------

  /** `Math.ceil(len / PAGE_SIZE) - 1`, the next handler's bound; -1 for no ids. */
  function MaxPage(len: nat): int {
    (len + PAGE_SIZE - 1) / PAGE_SIZE - 1
  }

  /** The pages the controller can be on: `0 <= page <= max(0, MaxPage(len))`. */
  predicate PageInRange(len: nat, page: int) {
    0 <= page <= Max(0, MaxPage(len))
  }

  /** The next handler moves only when this holds. */
  predicate CanNext(len: nat, page: int) {
    page < MaxPage(len)
  }

  /** The prev handler moves only when this holds. */
  predicate CanPrev(page: int) {
    page > 0
  }

  /** `Array.prototype.slice(start, end)`, negative positions counting from the end. */
  function JsSlice<T>(s: seq<T>, start: int, end: int): seq<T> {
    var from := if start < 0 then Max(|s| + start, 0) else Min(start, |s|);
    var to := if end < 0 then Max(|s| + end, 0) else Min(end, |s|);
    if from < to then s[from..to] else []
  }

  /** The ids `renderCurrentPage` fetches for `page`. */
  function PageIds(ids: seq<int>, page: int): seq<int> {
    JsSlice(ids, page * PAGE_SIZE, (page + 1) * PAGE_SIZE)
  }

  /** A page is the window `[page*21, min((page+1)*21, len))` of the ids: at
      most 21 of them, and at least one whenever the window starts inside
      the list. */
  lemma PageIdsWindow(ids: seq<int>, page: int)
    requires page >= 0
    ensures page * PAGE_SIZE <= |ids| ==>
      PageIds(ids, page) == ids[page * PAGE_SIZE..Min((page + 1) * PAGE_SIZE, |ids|)]
    ensures page * PAGE_SIZE >= |ids| ==> PageIds(ids, page) == []
    ensures |PageIds(ids, page)| <= PAGE_SIZE
    ensures page * PAGE_SIZE < |ids| ==> |PageIds(ids, page)| >= 1
  {
  }

  /** Every page the controller can be on is non-empty once there are ids:
      `currentPage * 21 < len`. */
  lemma CurrentPageNonEmpty(ids: seq<int>, page: int)
    requires PageInRange(|ids|, page) && |ids| > 0
    ensures page * PAGE_SIZE < |ids|
    ensures 1 <= |PageIds(ids, page)| <= PAGE_SIZE
  {
    var q := (|ids| + PAGE_SIZE - 1) / PAGE_SIZE;
    assert q * PAGE_SIZE <= |ids| + PAGE_SIZE - 1;
    assert page <= q - 1;
    PageIdsWindow(ids, page);
  }

  /** The last page holds `len mod 21` ids, or a full 21 when 21 divides `len`. */
  lemma LastPageCount(ids: seq<int>)
    requires |ids| > 0
    ensures |PageIds(ids, MaxPage(|ids|))| == if |ids| % PAGE_SIZE == 0 then PAGE_SIZE else |ids| % PAGE_SIZE
    ensures !CanNext(|ids|, MaxPage(|ids|))
  {
    var last := MaxPage(|ids|);
    var q := |ids| / PAGE_SIZE;
    var r := |ids| % PAGE_SIZE;
    assert |ids| == q * PAGE_SIZE + r;
    if r == 0 {
      assert last == q - 1;
    } else {
      assert last == q;
    }
    PageIdsWindow(ids, last);
  }

  /** The pages from `page` on, concatenated. */
  function PagesFrom(ids: seq<int>, page: nat): seq<int>
    decreases |ids| - page * PAGE_SIZE
  {
    if page * PAGE_SIZE >= |ids| then [] else PageIds(ids, page) + PagesFrom(ids, page + 1)
  }

  /** Paging loses, repeats and reorders nothing: the pages from `page` on
      are exactly the ids from position `page * 21` on. */
  lemma {:induction false} PagesCover(ids: seq<int>, page: nat)
    ensures PagesFrom(ids, page) == if page * PAGE_SIZE >= |ids| then [] else ids[page * PAGE_SIZE..]
    decreases |ids| - page * PAGE_SIZE
  {
    if page * PAGE_SIZE < |ids| {
      PageIdsWindow(ids, page);
      PagesCover(ids, page + 1);
      var lo := page * PAGE_SIZE;
      var hi := Min((page + 1) * PAGE_SIZE, |ids|);
      assert ids[lo..] == ids[lo..hi] + ids[hi..];
    }
  }

  // ---------------------------------------------------------------------
  // Rendering a page: fetch each id, drop the failures, keep the order
  // ---------------------------------------------------------------------

  /** `ids.map(id => getArtDetails(id))`, awaited together; public/script.js
      fetches an object exactly as src/api.js does (null on any failure). */
  function FetchDetails(ids: seq<int>, server: int -> FetchOutcome): seq<JsValue> {
    seq(|ids|, i requires 0 <= i < |ids| => ApiClient.GetArtDetails(server(ids[i])))
  }

  /** `.filter(Boolean)`. */
  function Displayed(records: seq<JsValue>): seq<JsValue> {
    Filter(records, Truthy)
  }

  /** The records `renderCurrentPage` hands to the view for `page`. */
  function RenderedPage(ids: seq<int>, page: int, server: int -> FetchOutcome): seq<JsValue> {
    Displayed(FetchDetails(PageIds(ids, page), server))
  }

  lemma FetchDetailsSplit(ids: seq<int>, i: nat, server: int -> FetchOutcome)
    requires i < |ids|
    ensures FetchDetails(ids, server) ==
      FetchDetails(ids[..i], server) + [ApiClient.GetArtDetails(server(ids[i]))] + FetchDetails(ids[i + 1..], server)
  {
  }

  /** A record that arrives is shown in the position of its id: everything
      fetched before it is shown before it, everything after it after it. */
  lemma {:induction false} DisplayedKeepsOrder(ids: seq<int>, i: nat, server: int -> FetchOutcome)
    requires i < |ids|
    requires Truthy(ApiClient.GetArtDetails(server(ids[i])))
    ensures Displayed(FetchDetails(ids, server)) ==
      Displayed(FetchDetails(ids[..i], server)) + [ApiClient.GetArtDetails(server(ids[i]))] +
      Displayed(FetchDetails(ids[i + 1..], server))
  {
    var r := ApiClient.GetArtDetails(server(ids[i]));
    var a, b := FetchDetails(ids[..i], server), FetchDetails(ids[i + 1..], server);
    FetchDetailsSplit(ids, i, server);
    FilterAppend(a + [r], b, Truthy);
    FilterAppend(a, [r], Truthy);
    assert Filter([r], Truthy) == [r];
  }

  /** A record that fails (or is falsy) leaves no trace in the page. */
  lemma {:induction false} DisplayedDropsFailures(ids: seq<int>, i: nat, server: int -> FetchOutcome)
    requires i < |ids|
    requires !Truthy(ApiClient.GetArtDetails(server(ids[i])))
    ensures Displayed(FetchDetails(ids, server)) ==
      Displayed(FetchDetails(ids[..i], server)) + Displayed(FetchDetails(ids[i + 1..], server))
  {
    var r := ApiClient.GetArtDetails(server(ids[i]));
    var a, b := FetchDetails(ids[..i], server), FetchDetails(ids[i + 1..], server);
    FetchDetailsSplit(ids, i, server);
    FilterAppend(a + [r], b, Truthy);
    FilterAppend(a, [r], Truthy);
    assert Filter([r], Truthy) == [];
  }

  /** Ids 1, 2 and 3 where the detail fetch for 2 fails: exactly the records
      of 1 and 3 are shown, in that order. */
  lemma PartialFailureScenario(server: int -> FetchOutcome, r1: JsValue, r3: JsValue)
    requires Truthy(r1) && Truthy(r3)
    requires server(1) == Responded(200, Ok(r1))
    requires server(2) == Responded(404, Ok(Obj(map["message" := Str("Not a valid object")])))
    requires server(3) == Responded(200, Ok(r3))
    ensures RenderedPage([1, 2, 3], 0, server) == [r1, r3]
  {
    var ids := [1, 2, 3];
    assert PageIds(ids, 0) == ids;
    assert ApiClient.GetArtDetails(server(2)) == Null;
    assert FetchDetails(ids, server) == [r1, Null, r3];
    assert [r1, Null, r3][1..] == [Null, r3] && [Null, r3][1..] == [r3];
    assert Displayed([r3]) == [r3];
    assert Displayed([Null, r3]) == [r3];
    assert Displayed([r1, Null, r3]) == [r1] + Displayed([Null, r3]);
  }

  // ---------------------------------------------------------------------
  // The pager
  // ---------------------------------------------------------------------

  /** What `updatePager` shows: nothing, or `Showing start-end of total` with
      the two buttons' disabled flags. */
  datatype PagerView =
    | PagerHidden
    | PagerShown(start: int, end: int, total: nat, prevDisabled: bool, nextDisabled: bool)

  function PagerFor(len: nat, page: int): PagerView {
    if len <= PAGE_SIZE then PagerHidden
    else
      var start := page * PAGE_SIZE + 1;
      var end := Min((page + 1) * PAGE_SIZE, len);
      PagerShown(start, end, len, page == 0, end >= len)
  }

  /** The pager is hidden exactly when everything fits on one page; when it
      is shown, a button is disabled exactly when its handler would do
      nothing. */
  lemma PagerMatchesHandlers(len: nat, page: int)
    requires page >= 0
    ensures PagerFor(len, page).PagerHidden? <==> len <= PAGE_SIZE
    ensures PagerFor(len, page).PagerShown? ==>
      && (PagerFor(len, page).prevDisabled <==> !CanPrev(page))
      && (PagerFor(len, page).nextDisabled <==> !CanNext(len, page))
  {
    if len > PAGE_SIZE {
      var q := (len + PAGE_SIZE - 1) / PAGE_SIZE;
      assert len <= q * PAGE_SIZE < len + PAGE_SIZE;
      if page + 1 >= q {
        assert (page + 1) * PAGE_SIZE >= q * PAGE_SIZE;
      } else {
        assert (page + 1) * PAGE_SIZE <= (q - 1) * PAGE_SIZE;
      }
    }
  }

  /** On every page the controller can be on, `start-end` is a non-empty
      range inside `1..len` that counts exactly the ids fetched for the page. */
  lemma PagerRange(ids: seq<int>, page: int)
    requires PageInRange(|ids|, page) && |ids| > PAGE_SIZE
    ensures var p := PagerFor(|ids|, page);
      && p.PagerShown?
      && 1 <= p.start <= p.end <= |ids|
      && p.end - p.start + 1 == |PageIds(ids, page)|
  {
    CurrentPageNonEmpty(ids, page);
    PageIdsWindow(ids, page);
  }

  // ---------------------------------------------------------------------
  // The insight request of the detail view
  // ---------------------------------------------------------------------

  const AI_ERROR_PREFIX := "Error connecting to the AI assistant. "
  const INVALID_STRUCTURE_MESSAGE := "Invalid response structure from proxy."

  /** The request `getGeminiFact` sends for the open artwork: the shared
      prompt template (the title printed as `${title}`) and the object id,
      which `JSON.stringify` leaves out when it is undefined. */
  function InsightRequest(art: JsValue): (r: OutgoingRequest)
    requires !IsNullish(art)
    ensures r.url == ApiClient.GEMINI_API_PROXY_URL && r.verb == "POST" && r.body.Obj?
    ensures r.body.props.Keys <= {"prompt", "objectID"}
    ensures "prompt" in r.body.props && r.body.props["prompt"] == Str(ApiClient.InsightPrompt(
      ToDisplayString(Prop(art, "title")), Prop(art, "artistDisplayName"), Prop(art, "objectDate")))
    ensures "objectID" in r.body.props <==> Prop(art, "objectID") != Undefined
    ensures "objectID" in r.body.props ==> r.body.props["objectID"] == Prop(art, "objectID")
  {
    var prompt := Str(ApiClient.InsightPrompt(
      ToDisplayString(Prop(art, "title")), Prop(art, "artistDisplayName"), Prop(art, "objectDate")));
    var id := Prop(art, "objectID");
    var body := if id == Undefined then Object1("prompt", prompt) else Object2("prompt", prompt, "objectID", id);
    OutgoingRequest(ApiClient.GEMINI_API_PROXY_URL, "POST", JSON_HEADERS, body)
  }

  /** The text `getGeminiFact` leaves in the insight panel. The HTTP status
      is not looked at: a truthy `text` is shown as it is, otherwise a
      truthy `error` (or any thrown error) is shown after a fixed prefix. */
  function InsightDisplay(outcome: FetchOutcome): (shown: string)
    ensures outcome.NetworkError? ==> shown == AI_ERROR_PREFIX + outcome.message
    ensures outcome.Responded? && outcome.body.Err? ==> shown == AI_ERROR_PREFIX + outcome.body.error
    ensures outcome.Responded? && outcome.body.Ok? && outcome.body.value.Obj? ==>
      var d := outcome.body.value;
      var text := Prop(d, "text");
      var error := Prop(d, "error");
      && (Truthy(text) ==> shown == ToDisplayString(text))
      && (!Truthy(text) && Truthy(error) ==> shown == AI_ERROR_PREFIX + ToDisplayString(error))
      && (!Truthy(text) && !Truthy(error) ==> shown == AI_ERROR_PREFIX + INVALID_STRUCTURE_MESSAGE)
    ensures outcome.Responded? && outcome.body.Ok? && IsNullish(outcome.body.value) ==>
      shown == AI_ERROR_PREFIX + ReadNullishMessage(outcome.body.value, "text")
    ensures outcome.Responded? && outcome.body.Ok? && !IsNullish(outcome.body.value) && !outcome.body.value.Obj? ==>
      shown == AI_ERROR_PREFIX + INVALID_STRUCTURE_MESSAGE
  {
    match outcome
    case NetworkError(message) => AI_ERROR_PREFIX + message
    case Responded(_, Err(message)) => AI_ERROR_PREFIX + message
    case Responded(_, Ok(data)) =>
      match Get(data, "text")
      case Err(message) => AI_ERROR_PREFIX + message
      case Ok(text) =>
        if Truthy(text) then ToDisplayString(text)
        else
          var error := Prop(data, "error");
          if Truthy(error) then AI_ERROR_PREFIX + ToDisplayString(error)
          else AI_ERROR_PREFIX + INVALID_STRUCTURE_MESSAGE
  }

  // ---------------------------------------------------------------------
  // The controller state and its handlers
  // ---------------------------------------------------------------------

  /** The answer to the search request: failed (non-2xx, network or parse
      error), or the `{total, objectIDs}` body. */
  datatype SearchResponse =
    | SearchFailed
    | SearchAnswered(total: int, objectIDs: Option<seq<int>>)

  /** `(data.objectIDs && data.total > 0) ? data.objectIDs : []`. */
  function ResultIds(total: int, objectIDs: Option<seq<int>>): (ids: seq<int>)
    ensures total <= 0 || objectIDs.None? ==> ids == []
    ensures total > 0 && objectIDs.Some? ==> ids == objectIDs.value
  {
    if objectIDs.Some? && total > 0 then objectIDs.value else []
  }

  const EMPTY_QUERY_MESSAGE := "Please enter a search term."

  class GalleryController {
    var currentArtObject: JsValue
    var allObjectIDs: seq<int>
    var currentPage: int
    var isFavoritesView: bool

    /** The page is always one the pager can reach. */
    ghost predicate Valid()
      reads this
    {
      PageInRange(|allObjectIDs|, currentPage)
    }

    /** The initial `state`. */
    constructor()
      ensures Valid()
      ensures currentArtObject == Null && allObjectIDs == [] && currentPage == 0 && !isFavoritesView
    {
      currentArtObject := Null;
      allObjectIDs := [];
      currentPage := 0;
      isFavoritesView := false;
    }

    /** `searchMetArt(query)`: back to the first page of the gallery view,
        then install the result ids; a failed request keeps the old ids. */
    method SearchMetArt(query: string, response: SearchResponse, server: int -> FetchOutcome)
      returns (url: string, rendered: Option<seq<JsValue>>)
      requires Valid()
      modifies this
      ensures Valid()
      ensures url == ApiClient.SearchUrl(query)
      ensures currentPage == 0 && !isFavoritesView && currentArtObject == old(currentArtObject)
      ensures response.SearchFailed? ==> allObjectIDs == old(allObjectIDs) && rendered == None
      ensures response.SearchAnswered? ==>
        && allObjectIDs == ResultIds(response.total, response.objectIDs)
        && rendered == Some(RenderedPage(allObjectIDs, 0, server))
    {
      isFavoritesView := false;
      currentPage := 0;
      url := ApiClient.SearchUrl(query);
      match response
      case SearchFailed =>
        rendered := None;
      case SearchAnswered(total, objectIDs) =>
        allObjectIDs := ResultIds(total, objectIDs);
        rendered := Some(RenderedPage(allObjectIDs, currentPage, server));
    }

    /** The search button: the trimmed input is searched for, an empty one
        only produces a message and changes nothing. */
    method SubmitSearch(input: string, response: SearchResponse, server: int -> FetchOutcome)
      returns (url: Option<string>, message: Option<string>, rendered: Option<seq<JsValue>>)
      requires Valid()
      modifies this
      ensures Valid()
      ensures currentArtObject == old(currentArtObject)
      ensures AllWhitespace(input) ==> url == None && message == Some(EMPTY_QUERY_MESSAGE) && rendered == None
      ensures !AllWhitespace(input) ==> url == Some(ApiClient.SearchUrl(Trim(input)))
      ensures AllWhitespace(input) ==>
        && currentArtObject == old(currentArtObject) && allObjectIDs == old(allObjectIDs)
        && currentPage == old(currentPage) && isFavoritesView == old(isFavoritesView)
      ensures !AllWhitespace(input) ==> message == None && currentPage == 0 && !isFavoritesView
      ensures !AllWhitespace(input) && response.SearchFailed? ==> allObjectIDs == old(allObjectIDs) && rendered == None
      ensures !AllWhitespace(input) && response.SearchAnswered? ==>
        && allObjectIDs == ResultIds(response.total, response.objectIDs)
        && rendered == Some(RenderedPage(allObjectIDs, 0, server))
    {
      var query := Trim(input);
      TrimEmptyIff(input);
      if query != "" {
        var u, r := SearchMetArt(query, response, server);
        url, message, rendered := Some(u), None, r;
      } else {
        url, message, rendered := None, Some(EMPTY_QUERY_MESSAGE), None;
      }
    }

    /** The next button: one page on, but never past the last page. */
    method NextPage(server: int -> FetchOutcome) returns (rendered: Option<seq<JsValue>>)
      requires Valid()
      modifies this
      ensures Valid()
      ensures allObjectIDs == old(allObjectIDs) && isFavoritesView == old(isFavoritesView)
      ensures currentArtObject == old(currentArtObject)
      ensures CanNext(|allObjectIDs|, old(currentPage)) ==>
        currentPage == old(currentPage) + 1 && rendered == Some(RenderedPage(allObjectIDs, currentPage, server))
      ensures !CanNext(|allObjectIDs|, old(currentPage)) ==> currentPage == old(currentPage) && rendered == None
    {
      var maxPage := MaxPage(|allObjectIDs|);
      if currentPage < maxPage {
        currentPage := currentPage + 1;
        rendered := Some(RenderedPage(allObjectIDs, currentPage, server));
      } else {
        rendered := None;
      }
    }

    /** The prev button: one page back, but never before the first page. */
    method PrevPage(server: int -> FetchOutcome) returns (rendered: Option<seq<JsValue>>)
      requires Valid()
      modifies this
      ensures Valid()
      ensures allObjectIDs == old(allObjectIDs) && isFavoritesView == old(isFavoritesView)
      ensures currentArtObject == old(currentArtObject)
      ensures CanPrev(old(currentPage)) ==>
        currentPage == old(currentPage) - 1 && rendered == Some(RenderedPage(allObjectIDs, currentPage, server))
      ensures !CanPrev(old(currentPage)) ==> currentPage == old(currentPage) && rendered == None
    {
      if currentPage > 0 {
        currentPage := currentPage - 1;
        rendered := Some(RenderedPage(allObjectIDs, currentPage, server));
      } else {
        rendered := None;
      }
    }

    /** A click on a card (not on its heart): the card's object is fetched,
        and the artwork opens in the detail view only if its details arrive. */
    method OpenArtwork(objectId: int, outcome: FetchOutcome) returns (request: OutgoingRequest, didOpen: bool)
      requires Valid()
      modifies this
      ensures Valid()
      ensures request.url == ApiClient.ObjectUrl(objectId) && request.verb == "GET"
      ensures didOpen <==> Truthy(ApiClient.GetArtDetails(outcome))
      ensures currentArtObject == if didOpen then ApiClient.GetArtDetails(outcome) else old(currentArtObject)
      ensures allObjectIDs == old(allObjectIDs) && currentPage == old(currentPage)
      ensures isFavoritesView == old(isFavoritesView)
    {
      var call := ApiClient.ArtDetailsCall(objectId, outcome);
      var artDetails := call.result.value;
      request := call.request;
      didOpen := Truthy(artDetails);
      if didOpen {
        currentArtObject := artDetails;
      }
    }

    /** `hideArtDetail`: closes the detail view without touching the result
        set; the pager comes back only in the gallery view with more than
        one page of ids. */
    method HideArtDetail() returns (pagerShown: bool)
      requires Valid()
      modifies this
      ensures Valid()
      ensures currentArtObject == Null
      ensures allObjectIDs == old(allObjectIDs) && currentPage == old(currentPage)
      ensures isFavoritesView == old(isFavoritesView)
      ensures pagerShown <==> !isFavoritesView && |allObjectIDs| > PAGE_SIZE
    {
      pagerShown := !isFavoritesView && |allObjectIDs| > PAGE_SIZE;
      currentArtObject := Null;
    }

    /** The heart button of the detail view toggles the open artwork. */
    method ToggleOpenArtwork(store: Favorites.FavoritesStore) returns (toggled: bool)
      requires Valid()
      modifies store
      ensures toggled <==> Truthy(currentArtObject) && Prop(currentArtObject, "objectID").Num?
      ensures toggled ==> store.stored == Some(Favorites.Toggled(old(store.Favorites()), Prop(currentArtObject, "objectID").n))
      ensures !toggled ==> store.stored == old(store.stored)
    {
      toggled := false;
      if Truthy(currentArtObject) {
        var artId := Prop(currentArtObject, "objectID");
        if artId.Num? {
          store.Toggle(artId.n);
          toggled := true;
        }
      }
    }

    /** The favorites button: switches to the favorites view and shows the
        stored ids' records that arrive, in the set's order; an empty set
        issues no fetch at all. The page and result set are left alone. */
    method ShowFavorites(store: Favorites.FavoritesStore, server: int -> FetchOutcome)
      returns (requested: seq<int>, rendered: seq<JsValue>)
      requires Valid()
      modifies this
      ensures Valid()
      ensures isFavoritesView
      ensures allObjectIDs == old(allObjectIDs) && currentPage == old(currentPage)
      ensures currentArtObject == old(currentArtObject)
      ensures requested == store.Favorites()
      ensures |requested| == 0 ==> rendered == []
      ensures rendered == Displayed(FetchDetails(requested, server))
    {
      isFavoritesView := true;
      requested := store.Favorites();
      if |requested| == 0 {
        rendered := [];
      } else {
        rendered := Displayed(FetchDetails(requested, server));
      }
    }

    /** The ask button: only with an artwork open, send its insight request
        and report what the panel shows. */
    method AskGemini(outcome: FetchOutcome) returns (request: Option<OutgoingRequest>, shown: Option<string>)
      ensures !Truthy(currentArtObject) ==> request == None && shown == None
      ensures Truthy(currentArtObject) ==>
        request == Some(InsightRequest(currentArtObject)) && shown == Some(InsightDisplay(outcome))
    {
      if Truthy(currentArtObject) {
        request := Some(InsightRequest(currentArtObject));
        shown := Some(InsightDisplay(outcome));
      } else {
        request, shown := None, None;
      }
    }

    /** The pager for the current state. */
    function Pager(): PagerView
      reads this
    {
      PagerFor(|allObjectIDs|, currentPage)
    }
  }

  /** Favorites 5 and 7 where the fetch for 5 fails: the favorites view
      shows exactly the record of 7. */
  lemma FavoritesPartialFailureScenario(server: int -> FetchOutcome, r7: JsValue)
    requires Truthy(r7)
    requires server(5) == NetworkError("Failed to fetch")
    requires server(7) == Responded(200, Ok(r7))
    ensures Displayed(FetchDetails([5, 7], server)) == [r7]
  {
    assert FetchDetails([5, 7], server) == [Null, r7];
    assert Displayed([Null, r7]) == Displayed([r7]);
  }
}
