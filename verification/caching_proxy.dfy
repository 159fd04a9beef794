/** The caching AI proxy of functions/index.js: a POST handler that checks
    the prompt, answers from an in-memory cache while an entry is younger
    than thirty minutes, otherwise asks the generative model and caches the
    answer, keeping at most 100 entries by dropping the oldest-inserted one.
    The cache is a `Map`, whose iteration order is insertion order and
    whose `set` on an existing key keeps that key's place. */
module CachingProxy {
  import opened Base
  import opened JsValues

  const CACHE_TTL_MS: int := 1000 * 60 * 30
  const MAX_ENTRIES: nat := 100
  const MODEL_NAME := "gemini-pro"

  const METHOD_NOT_ALLOWED_MESSAGE := "Method not allowed. Use POST."
  const INVALID_PROMPT_MESSAGE := "Invalid request: prompt is required"
  const MISSING_KEY_MESSAGE := "Server configuration error: API key not found"
  const EMPTY_RESPONSE_MESSAGE := "Empty response from Gemini API"
  const KEY_ERROR_MESSAGE := "API key configuration error"
  const RATE_LIMIT_MESSAGE := "Rate limit exceeded. Please try again later."
  const GENERIC_ERROR_MESSAGE := "Failed to generate AI insights. Please try again."
  /** What V8 throws when `const {prompt, objectID} = req.body` meets no
      body, written in short pieces so that its characters can be inspected. */
  const DESTRUCTURE_MESSAGE := DM1 + DM2 + DM3 + DM4 + DM5
  const DM1 := "Cannot destructure "
  const DM2 := "property 'prompt' "
  const DM3 := "of 're"
  const DM4 := "q.body' as it"
  const DM5 := " is undefined."

  // ---------------------------------------------------------------------
  // Cache keys
  // ---------------------------------------------------------------------

  /** `${objectID || 'general'}`. */
  function KeyId(objectID: JsValue): string {
    if Truthy(objectID) then ToDisplayString(objectID) else "general"
  }

  /** `${objectID || 'general'}-${prompt}`. */
  function CacheKey(objectID: JsValue, prompt: string): string {
    KeyId(objectID) + "-" + prompt
  }

  /** No dash after the first character. */
  predicate NoInnerDash(s: string) {
    forall i :: 1 <= i < |s| ==> s[i] != '-'
  }

  lemma IntToDecimalNoInnerDash(n: int)
    ensures NoInnerDash(IntToDecimal(n))
    ensures IntToDecimal(n)[0] == '-' || IsDigit(IntToDecimal(n)[0])
  {
    var d := NatToDecimal(if n < 0 then -n else n);
    assert IsDigits(d);
    if n < 0 {
      assert IntToDecimal(n) == "-" + d;
    }
  }

  /** The position of the first dash at or after `i` (or `|s|`). */
  function DashFrom(s: string, i: nat): nat
    decreases |s| - i
  {
    if i >= |s| then |s| else if s[i] == '-' then i else DashFrom(s, i + 1)
  }

  /** In `a-p`, the first dash after position 0 is the separator. */
  lemma {:induction false} SeparatorIsFirstDash(a: string, p: string, i: nat)
    requires 1 <= i <= |a| && NoInnerDash(a)
    ensures DashFrom(a + "-" + p, i) == |a|
    decreases |a| - i
  {
    var x := a + "-" + p;
    if i < |a| {
      assert x[i] == a[i];
      SeparatorIsFirstDash(a, p, i + 1);
    } else {
      assert x[i] == '-';
    }
  }

  /** Two keys `a-p` and `b-q` whose id parts have no dash past their first
      character split the same way. */
  lemma SplitAtFirstDash(a: string, p: string, b: string, q: string)
    requires |a| >= 1 && |b| >= 1 && NoInnerDash(a) && NoInnerDash(b)
    requires a + "-" + p == b + "-" + q
    ensures a == b && p == q
  {
    var x := a + "-" + p;
    SeparatorIsFirstDash(a, p, 1);
    SeparatorIsFirstDash(b, q, 1);
    assert |a| == |b|;
    assert a == x[..|a|] && b == x[..|b|];
    assert p == x[|a| + 1..];
  }

  /** The object ids the client sends: a number, or nothing. */
  predicate NumericOrAbsent(objectID: JsValue) {
    objectID.Num? || !Truthy(objectID)
  }

  /** For numeric or absent object ids a cache key determines the prompt
      and the object: an entry is never served for another prompt or
      another artwork. */
  lemma CacheKeyInjective(id1: JsValue, p1: string, id2: JsValue, p2: string)
    requires NumericOrAbsent(id1) && NumericOrAbsent(id2)
    requires CacheKey(id1, p1) == CacheKey(id2, p2)
    ensures p1 == p2
    ensures Truthy(id1) <==> Truthy(id2)
    ensures Truthy(id1) ==> id1 == id2
  {
    var k1, k2 := KeyId(id1), KeyId(id2);
    if Truthy(id1) {
      IntToDecimalNoInnerDash(id1.n);
    }
    if Truthy(id2) {
      IntToDecimalNoInnerDash(id2.n);
    }
    SplitAtFirstDash(k1, p1, k2, p2);
    if Truthy(id1) && Truthy(id2) {
      IntToDecimalInjective(id1.n, id2.n);
    }
  }

  /** With a string object id containing a dash, two different prompts
      share one key; and a missing id, the id 0 and the id "general" are
      one and the same. */
  lemma CacheKeyCollisions(p: string)
    ensures CacheKey(Str("1-a"), "b") == CacheKey(Num(1), "a-b")
    ensures CacheKey(Undefined, p) == CacheKey(Num(0), p) == CacheKey(Str("general"), p)
  {
    assert NatToDecimal(1) == "1";
  }

  // ---------------------------------------------------------------------
  // The cache as a value
  // ---------------------------------------------------------------------

  datatype Entry = Entry(text: string, timestamp: int)

  /** A `Map`: keys in insertion order, and their entries. */
  datatype Cache = Cache(order: seq<string>, entries: map<string, Entry>)

  /** Each key listed once, the listed keys are the mapped keys, and no
      entry holds an empty text (empty answers are never stored). */
  ghost predicate WellFormed(c: Cache) {
    && NoDup(c.order)
    && (forall k :: k in c.entries <==> k in c.order)
    && (forall k :: k in c.entries ==> c.entries[k].text != "")
  }

  /** `cached && Date.now() - cached.timestamp < CACHE_TTL_MS`; an
      expired entry is not removed, only ignored. */
  function Lookup(c: Cache, key: string, now: int): Option<string> {
    if key in c.entries && now - c.entries[key].timestamp < CACHE_TTL_MS then Some(c.entries[key].text) else None
  }

  /** `responseCache.set(key, entry)`. */
  function Insert(c: Cache, key: string, e: Entry): Cache {
    Cache(if key in c.entries then c.order else c.order + [key], c.entries[key := e])
  }

  /** `responseCache.delete(responseCache.keys().next().value)`. */
  function DropOldest(c: Cache): Cache
    requires |c.order| > 0
  {
    Cache(c.order[1..], c.entries - {c.order[0]})
  }

  /** The write after a successful generation: set, then drop the oldest
      key once the map holds more than 100. */
  function Store(c: Cache, key: string, e: Entry): Cache {
    var d := Insert(c, key, e);
    if |d.order| > MAX_ENTRIES then DropOldest(d) else d
  }

  lemma NoDupSlice(s: seq<string>)
    requires NoDup(s) && |s| > 0
    ensures NoDup(s[1..]) && s[0] !in s[1..]
  {
  }

  /** A store keeps the cache well formed and never lets it grow past 100. */
  lemma StoreKeepsBound(c: Cache, key: string, e: Entry)
    requires WellFormed(c) && |c.order| <= MAX_ENTRIES && e.text != ""
    ensures WellFormed(Store(c, key, e)) && |Store(c, key, e).order| <= MAX_ENTRIES
  {
    var d := Insert(c, key, e);
    assert NoDup(d.order);
    if |d.order| > MAX_ENTRIES {
      NoDupSlice(d.order);
      forall k
        ensures k in Store(c, key, e).entries <==> k in Store(c, key, e).order
      {
        if k in d.order && k != d.order[0] {
          assert k in d.order[1..] by {
            var i :| 0 <= i < |d.order| && d.order[i] == k;
            assert d.order[1..][i - 1] == k;
          }
        }
      }
    }
  }

  /** The key just written is never the one dropped, so it is served until
      its entry is thirty minutes old. */
  lemma StoreThenLookup(c: Cache, key: string, e: Entry, now: int)
    requires WellFormed(c) && |c.order| <= MAX_ENTRIES
    ensures key in Store(c, key, e).entries && Store(c, key, e).entries[key] == e
    ensures now - e.timestamp < CACHE_TTL_MS ==> Lookup(Store(c, key, e), key, now) == Some(e.text)
    ensures now - e.timestamp >= CACHE_TTL_MS ==> Lookup(Store(c, key, e), key, now) == None
  {
    var d := Insert(c, key, e);
    if |d.order| > MAX_ENTRIES {
      assert key !in c.entries;
      assert |c.order| >= 1 && d.order[0] == c.order[0];
    }
  }

  /** Writing a key already present keeps its place in the eviction order. */
  lemma OverwriteKeepsPlace(c: Cache, key: string, e: Entry)
    requires WellFormed(c) && |c.order| <= MAX_ENTRIES && key in c.entries
    ensures Store(c, key, e).order == c.order
  {
  }

  /** A new key goes to the back; when the cache was full, exactly the
      oldest-inserted key leaves, however recently it was read or written. */
  lemma NewKeyEvictsOldest(c: Cache, key: string, e: Entry)
    requires WellFormed(c) && |c.order| <= MAX_ENTRIES && key !in c.entries
    ensures |c.order| < MAX_ENTRIES ==> Store(c, key, e).order == c.order + [key]
    ensures |c.order| == MAX_ENTRIES ==>
      && Store(c, key, e).order == c.order[1..] + [key]
      && c.order[0] !in Store(c, key, e).entries
  {
  }

  /** Every other entry is untouched by a store, except the oldest one that
      a full cache drops for a new key. */
  lemma StoreLeavesOthers(c: Cache, key: string, e: Entry, other: string)
    requires WellFormed(c) && |c.order| <= MAX_ENTRIES
    requires other != key && other in c.entries
    ensures other in Store(c, key, e).entries ==> Store(c, key, e).entries[other] == c.entries[other]
    ensures other !in Store(c, key, e).entries <==>
      key !in c.entries && |c.order| == MAX_ENTRIES && other == c.order[0]
  {
  }

  // ---------------------------------------------------------------------
  // The handler
  // ---------------------------------------------------------------------

  /** `process.env.GEMINI_API_KEY || process.env.GOOGLE_GEMINI_API_KEY`,
      absent when neither holds a non-empty string. */
  function ApiKey(geminiKey: Option<string>, googleKey: Option<string>): (k: Option<string>)
    ensures k.Some? <==> (geminiKey.Some? && geminiKey.value != "") || (googleKey.Some? && googleKey.value != "")
    ensures geminiKey.Some? && geminiKey.value != "" ==> k == geminiKey
    ensures k.Some? ==> k.value != ""
  {
    if geminiKey.Some? && geminiKey.value != "" then geminiKey
    else if googleKey.Some? && googleKey.value != "" then googleKey
    else None
  }

  /** One call of the model with the key, the model name and the prompt. */
  datatype GenerationCall = GenerationCall(apiKey: string, model: string, prompt: string)

  /** The three fixed bodies the `catch` block can answer with. */
  const CATCH_BODIES: set<JsValue> :=
    {ErrorBody(KEY_ERROR_MESSAGE), ErrorBody(RATE_LIMIT_MESSAGE), ErrorBody(GENERIC_ERROR_MESSAGE)}

  /** Every fixed body the handler can answer a failure with. */
  const ERROR_BODIES: set<JsValue> :=
    CATCH_BODIES + {ErrorBody(METHOD_NOT_ALLOWED_MESSAGE), ErrorBody(INVALID_PROMPT_MESSAGE), ErrorBody(MISSING_KEY_MESSAGE)}

  /** The `catch` block: the thrown message picks the status and a fixed
      text; the message itself is never sent back. */
  function ErrorResponse(message: Option<string>): (r: HttpResponse)
    ensures r.status == 429 || r.status == 500
    ensures r.status == 429 <==>
      message.Some? && !Contains(message.value, "API key") &&
      (Contains(message.value, "quota") || Contains(message.value, "rate limit"))
    ensures message.Some? && Contains(message.value, "API key") ==> r == JsonResponse(500, ErrorBody(KEY_ERROR_MESSAGE))
    ensures r.status == 429 ==> r == JsonResponse(429, ErrorBody(RATE_LIMIT_MESSAGE))
    ensures message.None? ==> r == JsonResponse(500, ErrorBody(GENERIC_ERROR_MESSAGE))
    ensures message.Some? && !Contains(message.value, "API key") && r.status != 429 ==>
      r == JsonResponse(500, ErrorBody(GENERIC_ERROR_MESSAGE))
    ensures r.payload.Json? && r.payload.value in CATCH_BODIES
  {
    if message.Some? && Contains(message.value, "API key") then
      JsonResponse(500, ErrorBody(KEY_ERROR_MESSAGE))
    else if message.Some? && (Contains(message.value, "quota") || Contains(message.value, "rate limit")) then
      JsonResponse(429, ErrorBody(RATE_LIMIT_MESSAGE))
    else
      JsonResponse(500, ErrorBody(GENERIC_ERROR_MESSAGE))
  }

  /** `{key: non-empty string, ...}`. */
  predicate HasNonEmptyString(v: JsValue, key: string) {
    v.Obj? && key in v.props && v.props[key].Str? && v.props[key].s != ""
  }

  /** `{error: non-empty string}` and nothing else. */
  predicate IsErrorBody(v: JsValue) {
    HasNonEmptyString(v, "error") && v.props.Keys == {"error"}
  }

  /** The catch block always answers a status other than 200 with a JSON
      object holding only a non-empty `error`. */
  lemma ErrorResponseShape(message: Option<string>)
    ensures ErrorResponse(message).payload.Json?
    ensures ErrorResponse(message).status != 200
    ensures IsErrorBody(ErrorResponse(message).payload.value)
  {
  }

  /** The request carries a usable prompt: a string that is not blank. */
  predicate HasPrompt(req: ProxyRequest) {
    !IsNullish(req.body) && Prop(req.body, "prompt").Str? && !AllWhitespace(Prop(req.body, "prompt").s)
  }

  /** The key a request with a usable prompt is cached under. */
  function RequestKey(req: ProxyRequest): string
    requires HasPrompt(req)
  {
    CacheKey(Prop(req.body, "objectID"), Prop(req.body, "prompt").s)
  }

  /** What one invocation produced: the response, the model call it made (if
      any) and the cache afterwards. */
  datatype ProxyOutcome = ProxyOutcome(response: HttpResponse, call: Option<GenerationCall>, cache: Cache)

  /** `geminiProxy` as a function of the cache, the request, the two
      environment variables, what the model does, the clock at lookup and
      the clock at the write. */
  function HandleRequest(c: Cache, req: ProxyRequest, geminiKey: Option<string>, googleKey: Option<string>,
                         generation: Generation, now: int, storedAt: int): (out: ProxyOutcome)
    ensures out.response.status == 405 <==> req.verb != "POST"
    ensures req.verb != "POST" ==>
      out == ProxyOutcome(JsonResponse(405, ErrorBody(METHOD_NOT_ALLOWED_MESSAGE)), None, c)
    ensures req.verb == "POST" && IsNullish(req.body) ==>
      out == ProxyOutcome(JsonResponse(500, ErrorBody(GENERIC_ERROR_MESSAGE)), None, c)
    ensures req.verb == "POST" && !IsNullish(req.body) ==>
      (out.response.status == 400 <==> !HasPrompt(req))
    ensures !HasPrompt(req) ==> out.call == None && out.cache == c
    ensures HasPrompt(req) && out.response.status == 400 ==>
      out.response == JsonResponse(400, ErrorBody(INVALID_PROMPT_MESSAGE))
    ensures req.verb == "POST" && HasPrompt(req) ==>
      var key := RequestKey(req);
      var prompt := Prop(req.body, "prompt").s;
      && (Lookup(c, key, now).Some? ==>
            && out.response == JsonResponse(200, Object2("text", Str(Lookup(c, key, now).value), "cached", Bool(true)))
            && out.call == None && out.cache == c)
      && (Lookup(c, key, now).None? && ApiKey(geminiKey, googleKey).None? ==>
            && out.response == JsonResponse(500, ErrorBody(MISSING_KEY_MESSAGE))
            && out.call == None && out.cache == c)
      && (Lookup(c, key, now).None? && ApiKey(geminiKey, googleKey).Some? ==>
            && out.call == Some(GenerationCall(ApiKey(geminiKey, googleKey).value, MODEL_NAME, prompt))
            && (generation.Generated? && generation.text != "" ==>
                  && out.response == JsonResponse(200, Object1("text", Str(generation.text)))
                  && out.cache == Store(c, key, Entry(generation.text, storedAt)))
            && (generation.Generated? && generation.text == "" ==>
                  out.response == ErrorResponse(Some(EMPTY_RESPONSE_MESSAGE)) && out.cache == c)
            && (generation.GenerationFailed? ==>
                  out.response == ErrorResponse(generation.message) && out.cache == c))
  {
    if req.verb != "POST" then
      ProxyOutcome(JsonResponse(405, ErrorBody(METHOD_NOT_ALLOWED_MESSAGE)), None, c)
    else if IsNullish(req.body) then
      DestructureErrorIsGeneric();
      ProxyOutcome(ErrorResponse(Some(DESTRUCTURE_MESSAGE)), None, c)
    else
      var prompt := Prop(req.body, "prompt");
      var objectID := Prop(req.body, "objectID");
      TrimEmptyIff(if prompt.Str? then prompt.s else "");
      if !Truthy(prompt) || TypeOf(prompt) != "string" || Trim(prompt.s) == "" then
        ProxyOutcome(JsonResponse(400, ErrorBody(INVALID_PROMPT_MESSAGE)), None, c)
      else
        var key := CacheKey(objectID, prompt.s);
        var cached := Lookup(c, key, now);
        if cached.Some? then
          ProxyOutcome(JsonResponse(200, Object2("text", Str(cached.value), "cached", Bool(true))), None, c)
        else
          var apiKey := ApiKey(geminiKey, googleKey);
          if apiKey.None? then
            ProxyOutcome(JsonResponse(500, ErrorBody(MISSING_KEY_MESSAGE)), None, c)
          else
            var call := Some(GenerationCall(apiKey.value, MODEL_NAME, prompt.s));
            match generation
            case GenerationFailed(message) => ProxyOutcome(ErrorResponse(message), call, c)
            case Generated(text) =>
              if text == "" then ProxyOutcome(ErrorResponse(Some(EMPTY_RESPONSE_MESSAGE)), call, c)
              else ProxyOutcome(JsonResponse(200, Object1("text", Str(text))), call, Store(c, key, Entry(text, storedAt)))
  }

  lemma Pieces1() ensures 'A' !in DM1 && 'l' !in DM1 && 'q' !in DM1 {}
  lemma Pieces2() ensures 'A' !in DM2 && 'l' !in DM2 && 'q' !in DM2 {}
  lemma Pieces3() ensures 'A' !in DM3 && 'l' !in DM3 && 'q' !in DM3 {}
  lemma Pieces4() ensures 'A' !in DM4 && 'l' !in DM4 && 'q' !in DM4[1..] && DM4[0] == 'q' && DM4[1] == '.' {}
  lemma Pieces5() ensures 'A' !in DM5 && 'l' !in DM5 && 'q' !in DM5 {}

  /** The destructuring message has no 'A', no 'l', and its only 'q' is
      followed by '.'. */
  lemma DestructureMessageLetters()
    ensures 'A' !in DESTRUCTURE_MESSAGE && 'l' !in DESTRUCTURE_MESSAGE
    ensures forall i :: 0 <= i < |DESTRUCTURE_MESSAGE| - 1 && DESTRUCTURE_MESSAGE[i] == 'q' ==>
      DESTRUCTURE_MESSAGE[i + 1] == '.'
  {
    Pieces1(); Pieces2(); Pieces3(); Pieces4(); Pieces5();
    var head := DM1 + DM2 + DM3;
    assert 'q' !in head;
    assert DESTRUCTURE_MESSAGE == head + DM4 + DM5;
  }

  /** A character of `t` missing from `s` rules out every occurrence. */
  lemma AbsentCharRulesOut(s: string, t: string, j: nat, i: nat)
    requires j < |t| && t[j] !in s
    ensures !OccursAt(s, t, i)
  {
    if i + |t| <= |s| {
      assert s[i..i + |t|][j] == s[i + j];
    }
  }

  lemma NoQuotaAfterQDot(s: string, i: nat)
    requires forall k :: 0 <= k < |s| - 1 && s[k] == 'q' ==> s[k + 1] == '.'
    ensures !OccursAt(s, "quota", i)
  {
    if i + 5 <= |s| {
      assert s[i..i + 5][0] == s[i] && s[i..i + 5][1] == s[i + 1];
    }
  }

  /** A request without a body throws a message that names neither the key
      nor a quota nor a rate limit, so it is answered with the generic 500. */
  lemma DestructureErrorIsGeneric()
    ensures ErrorResponse(Some(DESTRUCTURE_MESSAGE)) == JsonResponse(500, ErrorBody(GENERIC_ERROR_MESSAGE))
  {
    var m := DESTRUCTURE_MESSAGE;
    DestructureMessageLetters();
    forall i: nat
      ensures !OccursAt(m, "API key", i) && !OccursAt(m, "rate limit", i) && !OccursAt(m, "quota", i)
    {
      AbsentCharRulesOut(m, "API key", 0, i);
      AbsentCharRulesOut(m, "rate limit", 5, i);
      NoQuotaAfterQDot(m, i);
    }
    ContainsIff(m, "API key");
    ContainsIff(m, "quota");
    ContainsIff(m, "rate limit");
  }

  /** The handler keeps the cache well formed and within 100 entries, and
      only a successful generation changes it. */
  lemma HandleKeepsCacheBounded(c: Cache, req: ProxyRequest, geminiKey: Option<string>, googleKey: Option<string>,
                                generation: Generation, now: int, storedAt: int)
    requires WellFormed(c) && |c.order| <= MAX_ENTRIES
    ensures var out := HandleRequest(c, req, geminiKey, googleKey, generation, now, storedAt);
      && WellFormed(out.cache) && |out.cache.order| <= MAX_ENTRIES
      && (out.cache != c ==> out.response.status == 200 && out.call.Some?)
  {
    var out := HandleRequest(c, req, geminiKey, googleKey, generation, now, storedAt);
    if out.cache != c {
      var key := RequestKey(req);
      StoreKeepsBound(c, key, Entry(generation.text, storedAt));
    }
  }

  /** Every reply is a JSON object: a 200 carries a non-empty `text` (a
      cached one too, since empty answers are never stored), any other
      status only a non-empty `error`. */
  lemma ReplyShape(c: Cache, req: ProxyRequest, geminiKey: Option<string>, googleKey: Option<string>,
                   generation: Generation, now: int, storedAt: int)
    requires WellFormed(c)
    ensures var r := HandleRequest(c, req, geminiKey, googleKey, generation, now, storedAt).response;
      && r.payload.Json?
      && (r.status == 200 ==> HasNonEmptyString(r.payload.value, "text"))
      && (r.status != 200 ==> IsErrorBody(r.payload.value) && r.payload.value in ERROR_BODIES)
  {
    var r := HandleRequest(c, req, geminiKey, googleKey, generation, now, storedAt).response;
    if req.verb != "POST" {
      assert r == JsonResponse(405, ErrorBody(METHOD_NOT_ALLOWED_MESSAGE));
    } else if IsNullish(req.body) {
      assert r == JsonResponse(500, ErrorBody(GENERIC_ERROR_MESSAGE));
    } else if !HasPrompt(req) {
      assert r == JsonResponse(400, ErrorBody(INVALID_PROMPT_MESSAGE));
    } else {
      var key := RequestKey(req);
      var cached := Lookup(c, key, now);
      if cached.Some? {
        assert c.entries[key].text != "";
        assert r == JsonResponse(200, Object2("text", Str(cached.value), "cached", Bool(true)));
      } else if ApiKey(geminiKey, googleKey).None? {
        assert r == JsonResponse(500, ErrorBody(MISSING_KEY_MESSAGE));
      } else if generation.Generated? && generation.text != "" {
        assert r == JsonResponse(200, Object1("text", Str(generation.text)));
      } else if generation.Generated? {
        assert r == ErrorResponse(Some(EMPTY_RESPONSE_MESSAGE));
        ErrorResponseShape(Some(EMPTY_RESPONSE_MESSAGE));
      } else {
        assert r == ErrorResponse(generation.message);
        ErrorResponseShape(generation.message);
      }
    }
  }

  /** The same request repeated within thirty minutes of a generated answer
      is answered from the cache with that text, without calling the model
      and whatever the key or the model would now do. */
  lemma RepeatWithinTtlIsCached(c: Cache, req: ProxyRequest, geminiKey: Option<string>, googleKey: Option<string>,
                                generation: Generation, now: int, storedAt: int,
                                geminiKey2: Option<string>, googleKey2: Option<string>, generation2: Generation, later: int)
    requires WellFormed(c) && |c.order| <= MAX_ENTRIES
    requires req.verb == "POST"
    requires var out := HandleRequest(c, req, geminiKey, googleKey, generation, now, storedAt);
      out.response.status == 200 && out.call.Some?
    requires later - storedAt < CACHE_TTL_MS
    ensures var out := HandleRequest(c, req, geminiKey, googleKey, generation, now, storedAt);
      var again := HandleRequest(out.cache, req, geminiKey2, googleKey2, generation2, later, later);
      && again.call == None
      && again.cache == out.cache
      && again.response == JsonResponse(200, Object2("text", Str(generation.text), "cached", Bool(true)))
  {
    var key := RequestKey(req);
    StoreThenLookup(c, key, Entry(generation.text, storedAt), later);
  }

  /** Once the entry is thirty minutes old the model is asked again, and a
      new answer replaces it in place. */
  lemma ExpiredEntryIsRegenerated(c: Cache, req: ProxyRequest, geminiKey: Option<string>, googleKey: Option<string>,
                                  text: string, now: int, storedAt: int)
    requires WellFormed(c) && |c.order| <= MAX_ENTRIES
    requires req.verb == "POST" && HasPrompt(req) && ApiKey(geminiKey, googleKey).Some? && text != ""
    requires RequestKey(req) in c.entries && now - c.entries[RequestKey(req)].timestamp >= CACHE_TTL_MS
    ensures var out := HandleRequest(c, req, geminiKey, googleKey, Generated(text), now, storedAt);
      && out.call.Some?
      && out.response == JsonResponse(200, Object1("text", Str(text)))
      && out.cache.order == c.order
      && out.cache.entries == c.entries[RequestKey(req) := Entry(text, storedAt)]
  {
  }

  // ---------------------------------------------------------------------
  // The mutable cache and the handler over it
  // ---------------------------------------------------------------------

  /** The module-level `responseCache` map. */
  class ResponseCache {
    var order: seq<string>
    var entries: map<string, Entry>

    ghost predicate Valid()
      reads this
    {
      WellFormed(Cache(order, entries)) && |order| <= MAX_ENTRIES
    }

    function Contents(): Cache
      reads this
    {
      Cache(order, entries)
    }

    /** `new Map()`. */
    constructor()
      ensures Valid() && order == [] && entries == map[]
    {
      order := [];
      entries := map[];
    }

    /** `responseCache.get(key)`. */
    function Get(key: string): (r: Option<Entry>)
      reads this
      ensures r.Some? <==> key in entries
      ensures r.Some? ==> r.value == entries[key]
    {
      if key in entries then Some(entries[key]) else None
    }

    /** `responseCache.set(key, e)`. */
    method Set(key: string, e: Entry)
      modifies this
      ensures Contents() == Insert(old(Contents()), key, e)
    {
      if key !in entries {
        order := order + [key];
      }
      entries := entries[key := e];
    }

    /** `responseCache.delete(responseCache.keys().next().value)`. */
    method DeleteOldest()
      requires |order| > 0
      modifies this
      ensures Contents() == DropOldest(old(Contents()))
    {
      entries := entries - {order[0]};
      order := order[1..];
    }

    /** `geminiProxy(req, res)` over this cache, step by step as the source
        goes: validate, look up, check the key, call the model, then set and
        trim the map. */
    method GeminiProxy(req: ProxyRequest, geminiKey: Option<string>, googleKey: Option<string>,
                       generation: Generation, now: int, storedAt: int)
      returns (response: HttpResponse, call: Option<GenerationCall>)
      requires Valid()
      modifies this
      ensures Valid()
      ensures var out := HandleRequest(old(Contents()), req, geminiKey, googleKey, generation, now, storedAt);
        response == out.response && call == out.call && Contents() == out.cache
    {
      ghost var c := Contents();
      HandleKeepsCacheBounded(c, req, geminiKey, googleKey, generation, now, storedAt);
      call := None;
      if req.verb != "POST" {
        response := JsonResponse(405, ErrorBody(METHOD_NOT_ALLOWED_MESSAGE));
        return;
      }
      if IsNullish(req.body) {
        response := ErrorResponse(Some(DESTRUCTURE_MESSAGE));
        return;
      }
      var prompt := Prop(req.body, "prompt");
      var objectID := Prop(req.body, "objectID");
      TrimEmptyIff(if prompt.Str? then prompt.s else "");
      if !Truthy(prompt) || TypeOf(prompt) != "string" || Trim(prompt.s) == "" {
        response := JsonResponse(400, ErrorBody(INVALID_PROMPT_MESSAGE));
        return;
      }
      var key := CacheKey(objectID, prompt.s);
      var cached := Get(key);
      if cached.Some? && now - cached.value.timestamp < CACHE_TTL_MS {
        response := JsonResponse(200, Object2("text", Str(cached.value.text), "cached", Bool(true)));
        return;
      }
      var apiKey := ApiKey(geminiKey, googleKey);
      if apiKey.None? {
        response := JsonResponse(500, ErrorBody(MISSING_KEY_MESSAGE));
        return;
      }
      call := Some(GenerationCall(apiKey.value, MODEL_NAME, prompt.s));
      match generation {
        case GenerationFailed(message) =>
          response := ErrorResponse(message);
        case Generated(text) =>
          if text == "" {
            response := ErrorResponse(Some(EMPTY_RESPONSE_MESSAGE));
          } else {
            Set(key, Entry(text, storedAt));
            if |order| > MAX_ENTRIES {
              DeleteOldest();
            }
            response := JsonResponse(200, Object1("text", Str(text)));
          }
      }
    }
  }
}
