# MetEyes in Dafny

MetEyes is a browser gallery for the Metropolitan Museum's open collection.
Next to it sit serverless proxies that pass a prompt about the open artwork
to a generative AI model. This project models the logic under the DOM and
`fetch` plumbing and proves properties of that model.

- **Gallery controller** (`public/script.js`): the global `state` record,
  - the search that installs a result set,
  - pages of 21 ids whose detail fetches are mapped in order with failures
    dropped,
  - the pager's arithmetic and its prev/next handlers,
  - the detail view and the insight panel.
  It lives in module `Gallery`, with class `GalleryController`.
- **Favorites store** (same file): a set of ids kept as one JSON array under
  a storage key. It lives in module `Favorites`, with class `FavoritesStore`.
- **Client library** (`src/api.js`): the JSON fetch helper and its
  `HTTP error! Status: N` errors, the search URL (with `encodeURIComponent`
  in module `UriEncoding`), the null-on-failure detail fetch, and the
  validated insight request with its fixed prompt template. It lives in
  module `ApiClient`.
- **Caching proxy** (`functions/index.js`): method and prompt validation,
  the cache key, the 30-minute TTL lookup, the insertion-ordered map capped
  at 100 entries, and the mapping from error message to status. It lives in
  module `CachingProxy`:
  - as a function of the cache value (`HandleRequest`);
  - as a class over the mutable map (`ResponseCache`), whose handler method
    follows the source step by step and is proved equal to the function.
- **Earlier drafts**:
  - the serverless proxy of `gemini.js` (module `VercelProxy`, with the
    endpoint's request shape in `GeminiRest`);
  - the first Firebase proxy of `public/functions/index.js` (module
    `FirebaseProxy`);
  - the first browser client of `script.js` (module `LegacyClient`).
- **Interop** (module `Interop`): how the gallery reads each proxy's reply.

JavaScript values are modelled by `JsValues.JsValue`, which gives:

- truthiness and `typeof`;
- property reads that throw on `null`/`undefined`;
- the text a value becomes inside a template literal.

Every network exchange is an input: a `FetchOutcome` (an answer with status
and parsed body, or a failure), or a `Generation` (the model's text, or a
thrown error). A batch of detail fetches is a function from id to outcome,
mapped in order, as `Promise.all` keeps order. The clock and the environment
variables are parameters.

## Model

| member | source | states |
|---|---|---|
| ApiClient.FetchJson | src/api.js:23-34 | a transport or parse failure is re-thrown unchanged, a non-2xx answer becomes `HTTP error! Status: N`, a 2xx body (whatever it holds) is returned as it is |
| ApiClient.HttpErrorMessage | src/api.js:27 | no contract of its own; stated by ApiClient.HttpErrorMessageCarriesStatus and ApiClient.HttpErrorMessageInjective |
| ApiClient.HttpErrorMessageCarriesStatus | src/api.js:26-28 | the error text is the fixed prefix followed by the canonical decimal of the exact status, which reads back as that status |
| ApiClient.HttpErrorMessageInjective | src/api.js:27 | different statuses never give the same error message |
| ApiClient.SearchMet | src/api.js:41-44 | the search is a GET of the search URL and its result is exactly what the fetch helper makes of the answer |
| ApiClient.SearchUrl | src/api.js:42 | no contract of its own; stated by ApiClient.SearchUrlShape |
| ApiClient.SearchUrlShape | src/api.js:42 | the URL is base + `/search?q=` + encoded query + `&hasImages=true`; the encoded part has no `&`, `=` or `#` and decodes back to the query's UTF-8 bytes |
| UriEncoding.EncodeURIComponent | src/api.js:42 | the encoding consists only of unreserved characters and `%` |
| UriEncoding.DecodeEncode | src/api.js:42 | decoding the encoded query yields exactly the query's UTF-8 bytes (nothing is lost) |
| UriEncoding.EncodedHasNoDelimiters | src/api.js:42 | no `&`, `=`, `#`, `?`, space or `+` survives encoding, so a query cannot add or split a parameter |
| Base.Trim | public/script.js:317 | no contract of its own; stated by Base.TrimEmptyIff |
| Base.TrimEmptyIff | public/script.js:317-318 | the trimmed input is empty iff the input is all whitespace, so the blank test of both search handlers is exactly `AllWhitespace` |
| ApiClient.GetArtDetails | src/api.js:51-55 | every failure (network, non-2xx, bad body) becomes `null`; a non-null result is the body of a 2xx answer |
| ApiClient.ArtDetailsCall | src/api.js:50-54 | the details are a GET of the object's URL, and the call never rejects: its result is the null-on-failure value |
| ApiClient.ObjectUrl | src/api.js:51 | no contract of its own; stated by ApiClient.ObjectUrlInjective |
| ApiClient.ObjectUrlInjective | src/api.js:51 | different ids are fetched from different URLs |
| ApiClient.InsightPromptLayout | src/api.js:76 | the prompt is the fixed opening, the title verbatim, then artist and date at fixed offsets, then the fixed closing; its length is the sum of the parts |
| ApiClient.InsightPromptFallbacks | src/api.js:76 | a falsy artist or date (`''` included) puts 'an unknown artist' / 'an unknown date' into the prompt |
| ApiClient.InsightPrompt | src/api.js:76 | no contract of its own; stated by ApiClient.InsightPromptLayout and ApiClient.InsightPromptFallbacks |
| ApiClient.GetGeminiFact | src/api.js:66-83 | rejects non-objects, null and arrays with 'artDetails must be a valid object', then a missing, non-string or blank title with 'artDetails must have a valid title', before any request (both iff); otherwise a JSON POST to `/api/gemini` whose body is exactly `{prompt}` with the template prompt, its result the fetch helper's |
| ApiClient.HasValidTitle | src/api.js:72 | no contract of its own; stated by ApiClient.GetGeminiFact |
| Favorites.ToSet | public/script.js:65 | reading the stored array as a `Set` gives each stored id exactly once and no other id |
| Favorites.ToSetOfNoDup | public/script.js:65-75 | an array written from a set reads back as the same ids in the same order |
| Favorites.WithoutMember | public/script.js:71 | deleting an id keeps exactly the other ids |
| Favorites.Without | public/script.js:71 | no contract of its own; stated by Favorites.WithoutMember |
| Favorites.ToggleFlips | public/script.js:68-76 | a toggle flips membership of the id, leaves every other id as it was and keeps the set duplicate-free |
| Favorites.ToggleTwice | public/script.js:68-76 | toggling twice restores the set; for an absent id even the stored order comes back |
| Favorites.Toggled | public/script.js:68-75 | no contract of its own; stated by Favorites.ToggleFlips and Favorites.ToggleTwice |
| Favorites.FavoritesStore.constructor | public/script.js:65 | the store starts from what is behind the key, possibly nothing |
| Favorites.FavoritesStore.Favorites | public/script.js:65 | a missing key reads as the empty set; otherwise the stored ids, duplicate-free |
| Favorites.FavoritesStore.Toggle | public/script.js:68-76 | the whole toggled set is written back; the id's membership flips and no other id's changes |
| Favorites.FavoritesStore.IsFavorite | public/script.js:66 | no contract of its own; membership in the set stated by Favorites.FavoritesStore.Favorites |
| Gallery.PageIdsWindow | public/script.js:174 | a page is the window `[page*21, min((page+1)*21, len))` of the ids: at most 21, empty past the end, non-empty when it starts inside |
| Gallery.CurrentPageNonEmpty | public/script.js:174 | on every page the controller can reach with ids present, between 1 and 21 ids are fetched |
| Gallery.LastPageCount | public/script.js:379 | the last page holds `len mod 21` ids (21 when 21 divides `len`) and next cannot go past it |
| Gallery.PagesCover | public/script.js:174 | the pages from any page on, concatenated, are exactly the ids from that page's start: paging loses, repeats and reorders nothing |
| Gallery.PageIds | public/script.js:174 | no contract of its own; stated by Gallery.PageIdsWindow, Gallery.CurrentPageNonEmpty, Gallery.LastPageCount and Gallery.PagesCover |
| Gallery.MaxPage | public/script.js:379 | no contract of its own; stated by Gallery.LastPageCount and Gallery.PagerMatchesHandlers |
| Gallery.CanNext | public/script.js:379-380 | no contract of its own; stated by Gallery.LastPageCount, Gallery.PagerMatchesHandlers and Gallery.GalleryController.NextPage |
| Gallery.CanPrev | public/script.js:372 | no contract of its own; stated by Gallery.PagerMatchesHandlers and Gallery.GalleryController.PrevPage |
| Gallery.DisplayedKeepsOrder | public/script.js:176-177 | a record that arrives is shown after everything fetched before it and before everything fetched after it |
| Gallery.DisplayedDropsFailures | public/script.js:176-177 | a failed (null) record leaves no trace in the page |
| Gallery.FetchDetails | public/script.js:176-177 | no contract of its own; stated by Gallery.DisplayedKeepsOrder, Gallery.DisplayedDropsFailures and Gallery.PartialFailureScenario |
| Gallery.Displayed | public/script.js:177 | no contract of its own; stated by Gallery.DisplayedKeepsOrder and Gallery.DisplayedDropsFailures |
| Gallery.RenderedPage | public/script.js:174-177 | no contract of its own; stated by Gallery.GalleryController.SearchMetArt, NextPage and PrevPage with the Displayed and PageIds lemmas |
| Gallery.PartialFailureScenario | public/script.js:119-128 | ids 1, 2, 3 with a 404 for 2 show exactly the records of 1 and 3, in order |
| Gallery.PagerMatchesHandlers | public/script.js:270-283 | the pager is hidden iff `len <= 21`; prev is disabled iff the prev handler would not move, next is disabled iff the next handler would not move |
| Gallery.PagerRange | public/script.js:277-282 | on every reachable page, `start-end` lies in `1..len` and counts exactly the ids fetched for that page |
| Gallery.PagerFor | public/script.js:270-283 | no contract of its own; stated by Gallery.PagerMatchesHandlers and Gallery.PagerRange |
| Gallery.GalleryController.Pager | public/script.js:270-283 | no contract of its own; the pager of the current state, stated by Gallery.PagerMatchesHandlers and Gallery.PagerRange |
| Gallery.InsightRequest | public/script.js:139-145 | a POST to `/api/gemini` with the shared template (title printed as `${title}`) and the object id, present iff it is not undefined; the body holds no other key |
| Gallery.InsightDisplay | public/script.js:147-159 | a truthy `text` is shown as is, else a truthy `error` after 'Error connecting to the AI assistant. ', else the invalid-structure message (also for a string, number or array body); a thrown error (network, parse, or the TypeError of a null or undefined body) is shown after the same prefix; the status is not looked at |
| Gallery.ResultIds | public/script.js:101 | the result ids are `objectIDs` when present and `total > 0`, and `[]` otherwise |
| Gallery.GalleryController.constructor | public/script.js:20-25 | the initial state: no artwork, no ids, page 0, gallery view |
| Gallery.GalleryController.SearchMetArt | public/script.js:85-112 | page 0 and gallery view in every case; a failed request keeps the old ids and renders nothing; an answer installs the normalised ids and renders page 0; the page invariant holds |
| Gallery.GalleryController.SubmitSearch | public/script.js:316-323 | a blank input only yields 'Please enter a search term.' and changes no state; otherwise the search URL is the one for the trimmed query: page 0, gallery view, the old ids kept on failure, the normalised ids installed and page 0 rendered on an answer; the open artwork is never touched |
| Gallery.GalleryController.NextPage | public/script.js:378-384 | moves one page on and renders it exactly when not on the last page; otherwise nothing changes; ids, view and artwork untouched; `0 <= page <= max(0, ceil(len/21)-1)` preserved |
| Gallery.GalleryController.PrevPage | public/script.js:371-376 | moves one page back and renders it exactly when past page 0; otherwise nothing changes; the page invariant preserved |
| Gallery.GalleryController.OpenArtwork | public/script.js:334-351 | the card's object URL is fetched with a GET; the detail view opens with the fetched record iff the fetch yields a truthy record; the result set, page and view stay |
| Gallery.GalleryController.HideArtDetail | public/script.js:256-267 | clears the open artwork, leaves ids, page and view unchanged; the pager is re-shown iff in gallery view with more than 21 ids |
| Gallery.GalleryController.ToggleOpenArtwork | public/script.js:357-363 | with an artwork open (numeric id), the store holds the toggled set; otherwise the store is untouched |
| Gallery.GalleryController.ShowFavorites | public/script.js:386-406 | switches to favorites view; fetches exactly the stored set in its order, none for an empty set; shows the records that arrive in that order; ids and page untouched |
| Gallery.GalleryController.AskGemini | public/script.js:365-369 | only with an artwork open is the insight request sent, and the panel then shows `InsightDisplay` of the answer |
| Gallery.FavoritesPartialFailureScenario | public/script.js:401-402 | favorites 5 and 7 with a network failure for 5 show exactly the record of 7 |
| CachingProxy.CacheKeyInjective | functions/index.js:46 | for numeric or absent object ids, equal cache keys mean equal prompts and the same object (or both absent) |
| CachingProxy.CacheKey | functions/index.js:46 | no contract of its own; stated by CachingProxy.CacheKeyInjective and CachingProxy.CacheKeyCollisions |
| CachingProxy.KeyId | functions/index.js:46 | no contract of its own; stated by CachingProxy.CacheKeyInjective and CachingProxy.CacheKeyCollisions |
| CachingProxy.CacheKeyCollisions | functions/index.js:46 | a string id with a dash lets two different prompts share one key; a missing id, id 0 and id 'general' all share keys |
| CachingProxy.StoreKeepsBound | functions/index.js:85-94 | a write keeps the map consistent (each key once, no empty text) and never above 100 entries |
| CachingProxy.StoreThenLookup | functions/index.js:85-94 | the key just written is never the one evicted, and is served until its entry is 30 minutes old |
| CachingProxy.OverwriteKeepsPlace | functions/index.js:85-88 | overwriting a present key keeps its place in the insertion order |
| CachingProxy.NewKeyEvictsOldest | functions/index.js:90-94 | a new key goes last; when the map held 100, exactly the earliest-inserted key leaves |
| CachingProxy.StoreLeavesOthers | functions/index.js:85-94 | every other entry is unchanged, and one disappears iff it is the oldest of a full map receiving a new key |
| CachingProxy.Lookup | functions/index.js:47-48 | no contract of its own; stated by CachingProxy.StoreThenLookup, CachingProxy.RepeatWithinTtlIsCached and CachingProxy.ExpiredEntryIsRegenerated |
| CachingProxy.Store | functions/index.js:85-94 | no contract of its own; stated by CachingProxy.StoreKeepsBound, CachingProxy.StoreThenLookup, CachingProxy.OverwriteKeepsPlace, CachingProxy.NewKeyEvictsOldest and CachingProxy.StoreLeavesOthers |
| CachingProxy.Insert | functions/index.js:85-89 | no contract of its own; stated by CachingProxy.OverwriteKeepsPlace and CachingProxy.NewKeyEvictsOldest |
| CachingProxy.DropOldest | functions/index.js:91-94 | no contract of its own; stated by CachingProxy.NewKeyEvictsOldest and CachingProxy.StoreLeavesOthers |
| CachingProxy.ApiKey | functions/index.js:55-56 | the first of the two variables that holds a non-empty string, absent iff neither does |
| CachingProxy.ErrorResponse | functions/index.js:108-122 | a message with 'API key' gives 500 'API key configuration error'; else 'quota' or 'rate limit' gives 429 (iff); a message with neither marker, or no message, gives the 500 generic body; the body is always one of these three fixed ones, so the upstream message is never echoed |
| CachingProxy.ErrorResponseShape | functions/index.js:108-122 | every error reply is a non-200 JSON object holding only a non-empty `error` |
| CachingProxy.HasPrompt | functions/index.js:40 | no contract of its own; stated by CachingProxy.HandleRequest and CachingProxy.ReplyShape |
| CachingProxy.RequestKey | functions/index.js:37-46 | no contract of its own; stated by CachingProxy.HandleRequest and CachingProxy.RepeatWithinTtlIsCached |
| CachingProxy.DestructureErrorIsGeneric | functions/index.js:37 | the TypeError a body-less POST throws names no key, quota or rate limit, so it is answered with the generic 500 |
| CachingProxy.HandleRequest | functions/index.js:31-122 | 405 iff not POST; 400 iff the prompt is missing, non-string or blank; a fresh hit gives 200 `{text, cached:true}` before any key check and with no model call; a missing key gives 500; a non-empty text is stored under the key at the write time and returned; empty text or a failure goes through the error mapping; only a stored answer changes the cache |
| CachingProxy.HandleKeepsCacheBounded | functions/index.js:84-94 | across any request the cache stays consistent and within 100 entries, and it changes only on a 200 that called the model |
| CachingProxy.ReplyShape | functions/index.js:31-122 | every reply is JSON: a 200 carries a non-empty `text` (a cached one too), any other status only a non-empty `error`, and that body is one of the six fixed error bodies of the handler |
| CachingProxy.RepeatWithinTtlIsCached | functions/index.js:46-52 | the same request within 30 minutes of a generated answer gets that text with `cached: true`, no model call and no cache change, whatever the key or model would now do |
| CachingProxy.ExpiredEntryIsRegenerated | functions/index.js:47-48 | an entry 30 minutes old or more is not served: the model is asked again and the new answer replaces the entry in place |
| CachingProxy.ResponseCache.constructor | functions/index.js:18 | the map starts empty |
| CachingProxy.ResponseCache.Get | functions/index.js:47 | `get` finds exactly the present keys, with their entries |
| CachingProxy.ResponseCache.Set | functions/index.js:85-88 | `set` adds a new key at the end, overwrites a present one in place |
| CachingProxy.ResponseCache.DeleteOldest | functions/index.js:91-93 | deletes the first key in insertion order |
| CachingProxy.ResponseCache.GeminiProxy | functions/index.js:29-124 | the step-by-step handler over the mutable map returns the same response and model call, and leaves the same map, as `HandleRequest`; the map stays consistent and within 100 entries |
| GeminiRest.GenerateBodyCarriesPrompt | gemini.js:33-35 | the upstream body holds the prompt, unchanged, as `contents[0].parts[0].text` and nothing else |
| GeminiRest.GenerateBody | gemini.js:33-35 | no contract of its own; stated by GeminiRest.GenerateBodyCarriesPrompt |
| VercelProxy.UpstreamRequest | gemini.js:26-36 | a JSON POST to the endpoint with the key's text (an unset key prints 'undefined') carrying the prompt |
| VercelProxy.KeyText | gemini.js:26 | no contract of its own; stated by VercelProxy.UpstreamRequest |
| VercelProxy.Handle | gemini.js:12-51 | non-POST gives 405 with `Allow: POST`; a falsy prompt gives 400; a non-2xx upstream answer is relayed with its status and body; a 2xx one as 200 with the body unchanged; anything thrown gives 500 'Internal Server Error' |
| VercelProxy.MethodNotAllowed | gemini.js:15-16 | no contract of its own; stated by VercelProxy.Handle and VercelProxy.HandleStatuses |
| VercelProxy.HandleStatuses | gemini.js:38-50 | every status is 200, 400, 405, 500 or the upstream's own error status; a 2xx reply is always a 200 relaying a 2xx upstream body |
| VercelProxy.UpstreamOnlyForPrompt | gemini.js:14-36 | the upstream is called iff the request is a POST with a body and a truthy prompt (a blank prompt is forwarded) |
| FirebaseProxy.Handle | public/functions/index.js:13-51 | the three CORS headers are on every reply; OPTIONS gives 204 with an empty body; other non-POST gives 405; a falsy prompt gives 400; a generated text gives 200 `{text}`; any failure gives 500 with a fixed message |
| FirebaseProxy.CorsJson | public/functions/index.js:15-17 | no contract of its own; stated by FirebaseProxy.Handle |
| FirebaseProxy.SuccessIsGeneratedText | public/functions/index.js:40-50 | a 200 comes iff the model was asked and produced a text, which is passed on as is (an empty one too) |
| LegacyClient.LegacyDetails | script.js:70-79 | no status check: any parsed body is the record, null only when the request or parse throws |
| LegacyClient.SearchMetArt | script.js:40-68 | `total === 0`, a failure or a missing id array gives `[]` with no detail fetch; otherwise the first 20 ids at most are fetched and the non-null records returned in id order |
| LegacyClient.SearchKeepsArrivals | script.js:57-61 | a record that arrives is kept in the place of its id, a failed fetch leaves no trace |
| LegacyClient.FetchAll | script.js:56-58 | no contract of its own; stated by LegacyClient.SearchMetArt and LegacyClient.SearchKeepsArrivals |
| LegacyClient.CardFor | script.js:92-96 | a card shows the record's title or 'Untitled' and artist or 'Unknown Artist' |
| LegacyClient.FirstNullish | script.js:88-89 | the position of the first null or undefined record, where reading its image throws |
| LegacyClient.DisplayArtPieces | script.js:81-101 | the no-results message iff the input is empty; a card for each record with an image, in order, up to the first null record, where the loop throws |
| LegacyClient.NoNullishMeansWholeList | script.js:88-100 | without null records the loop runs over the whole list |
| LegacyClient.DetailFor | script.js:109-114 | the large image, else the small one, else the placeholder; the alt text is the title as printed; title, artist, date and medium with their 'Untitled', 'Unknown Artist' and 'N/A' fallbacks |
| LegacyClient.LegacyPromptAddsMedium | script.js:142 | the prompt is the client library's prompt with ', and made with <medium or 'an unknown medium'>' spliced in before the closing sentences |
| LegacyClient.LegacyPrompt | script.js:142 | no contract of its own; stated by LegacyClient.LegacyPromptAddsMedium |
| LegacyClient.InsightRequest | script.js:144-152 | a JSON POST to the endpoint with the script's key, carrying the prompt at `contents[0].parts[0].text` |
| LegacyClient.InsightText | script.js:153-168 | a transport failure, a body that does not parse and a null or undefined body show the connection error; a body without truthy `candidates` shows the fallback (the extracted text in the full case: LegacyClient.CandidateTextShown) |
| LegacyClient.CandidateTextShown | script.js:157-159 | an answer of the endpoint's shape shows its text, under any status |
| LegacyClient.InsightEdgeCases | script.js:157-165 | an error body shows the fallback; an empty parts list or a null body throws and shows the connection error |
| LegacyClient.ShippedPageAsksForKey | script.js:18 | a page built with the key that ships, once an artwork is open, answers the insight button with the key help and sends no request |
| LegacyClient.KeyConfigured | script.js:133 | no contract of its own; stated by LegacyClient.LegacyPage.AskGemini and LegacyClient.ShippedPageAsksForKey |
| LegacyClient.LegacyPage.constructor | script.js:36 | no current record at start, ask button hidden |
| LegacyClient.LegacyPage.SubmitSearch | script.js:174-182 | a blank input gives 'Please enter a search query.', no request and no cards; otherwise the search URL is the one for the trimmed query and the search's records are displayed |
| LegacyClient.LegacyPage.ShowArtDetail | script.js:103-118 | the record becomes current, the view is its detail, the panel shows its invitation and the button appears |
| LegacyClient.LegacyPage.HideArtDetail | script.js:120-127 | clears the current record, resets the panel and hides the button |
| LegacyClient.LegacyPage.AskGemini | script.js:132-169 | with a current record: an unconfigured or placeholder key stops before any request with the help message; otherwise the request is sent and the panel shows the extracted text; the button is shown again at the end |
| Interop.GalleryReadsCachingProxy | public/script.js:149-159 | whatever the caching proxy answers, the gallery shows its `text` on a 200 or its `error` after the prefix otherwise, never the invalid-structure message |
| Interop.GalleryReadsTextOrError | public/script.js:149-155 | a reply with a non-empty `text` on 200 and only an `error` otherwise is shown as that text or that error |
| Interop.GalleryRejectsEmptyFirebaseText | public/functions/index.js:45 | an empty generated text reaches the gallery as `{text: ''}`, which it reports as an invalid structure |
| Interop.RawAnswerReaders | gemini.js:44-45 | the serverless proxy relays the raw answer, which the gallery reports as an invalid structure while the earlier client shows its text |

## Left out

- Numbers are integers: floating point, `NaN` and `Infinity` are not modelled. So `parseInt` on a card's id is assumed to give an integer, and a non-numeric `total` is not modelled.
- `JSON.parse`/`JSON.stringify` are not modelled as text: bodies are values. A stored favorites string that is not valid JSON (the read would throw) is not modelled, and the store holds integer ids only.
- DOM rendering, CSS classes, loading spinners, scrolling, `alert`, the copyright year and all logging are left out. Handlers are modelled by the state they change and the texts they produce.
- `fetch`, the generative-AI library and `model.generateContent` are inputs (`FetchOutcome`, `Generation`). A per-id batch is a function from id to outcome, so one id always gets one outcome.
- `Date.now()` appears twice in the caching proxy (lookup and write). It is modelled as two parameters, `now` and `storedAt`.
- Environment and configuration (`process.env`, `dotenv`, `setGlobalOptions`, `functions.config()`) are parameters. The module-load failure of `functions.config().gemini.key` in `public/functions/index.js` is not modelled; the key is assumed configured.
- The framework's own CORS preflight handling for `cors: true` in `functions/index.js` is not modelled; an OPTIONS request reaches the handler and gets 405.
- Concurrency is left out: parallel fetches, interleaved handlers, and cache sharing across instances. No stale-response guard is modelled, because the code has none.
- Expired entries are ignored at lookup but not removed (`functions/index.js:47-48`); the model does the same.
- UriEncoding.EncodeURIComponent, ApiClient.SearchMet, JsValues.At: strings are sequences of Unicode scalar values, not UTF-16 code units. So a lone surrogate cannot occur, and the `URIError` that `encodeURIComponent` throws on one (`src/api.js:42`, `public/script.js:97`) is not modelled; `At` on a string yields a scalar value, not a code unit.
- `generateRandomImage` in `script.js` is a placeholder URL with no logic.
- The gallery's `displayArtPieces` (card markup) and `updateDetailFavoriteButton` are DOM only.
- Gallery.GalleryController.SearchMetArt: the search answer is abstracted to `SearchFailed` or `SearchAnswered(total, objectIDs)`, with `objectIDs` an integer list. An id list of other values, and a body that throws on `data.objectIDs`, both count as `SearchFailed`.
- Gallery.GalleryController.ToggleOpenArtwork: only a numeric `objectID` is toggled. An artwork without a numeric id (where the source would store `undefined` or a string) leaves the store unchanged in the model.
- Gallery.GalleryController.SearchMetArt: renders the page but does not model `updatePager`'s effect on the pager. The pager for the current state is given by `Pager()`, and its properties by `PagerFor`'s lemmas.
- `script.js` refers to `searchSection`, which that file never declares. The model assumes it resolves to the page's search section element. If it does not, `showArtDetail` and `hideArtDetail` throw at that line.
