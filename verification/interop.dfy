/** How the gallery client of public/script.js reads the replies of the three
    proxies: the caching proxy's replies always carry a field it shows, while
    the other two can answer in shapes it reports as invalid. */
module Interop {
  import opened Base
  import opened JsValues
  import opened GeminiRest
  import Gallery
  import CachingProxy
  import FirebaseProxy
  import VercelProxy
  import LegacyClient

  /** Whatever the caching proxy answers, the gallery shows either the
      generated or cached text (on a 200) or the proxy's error text after
      its prefix: the field it looks for is always there and truthy. */
  lemma GalleryReadsCachingProxy(c: CachingProxy.Cache, req: ProxyRequest, geminiKey: Option<string>,
                                 googleKey: Option<string>, generation: Generation, now: int, storedAt: int)
    requires CachingProxy.WellFormed(c)
    ensures var r := CachingProxy.HandleRequest(c, req, geminiKey, googleKey, generation, now, storedAt).response;
      && r.payload.Json?
      && var v := r.payload.value;
      var shown := Gallery.InsightDisplay(Responded(r.status, Ok(v)));
      && (r.status == 200 ==> v.Obj? && Truthy(Prop(v, "text")) && shown == ToDisplayString(Prop(v, "text")))
      && (r.status != 200 ==>
            v.Obj? && Truthy(Prop(v, "error")) && shown == Gallery.AI_ERROR_PREFIX + ToDisplayString(Prop(v, "error")))
  {
    var r := CachingProxy.HandleRequest(c, req, geminiKey, googleKey, generation, now, storedAt).response;
    CachingProxy.ReplyShape(c, req, geminiKey, googleKey, generation, now, storedAt);
    GalleryReadsTextOrError(r.status, r.payload.value);
  }

  /** A reply with a non-empty `text` on 200 and only a non-empty `error`
      otherwise is shown as that text, or as that error after the prefix. */
  lemma GalleryReadsTextOrError(status: int, v: JsValue)
    requires status == 200 ==> CachingProxy.HasNonEmptyString(v, "text")
    requires status != 200 ==> CachingProxy.IsErrorBody(v)
    ensures var shown := Gallery.InsightDisplay(Responded(status, Ok(v)));
      && (status == 200 ==> v.Obj? && Truthy(Prop(v, "text")) && shown == ToDisplayString(Prop(v, "text")))
      && (status != 200 ==>
            v.Obj? && Truthy(Prop(v, "error")) && shown == Gallery.AI_ERROR_PREFIX + ToDisplayString(Prop(v, "error")))
  {
    if status != 200 {
      assert "text" !in v.props;
    }
  }

  /** The first Firebase proxy passes an empty generated text on as
      `{text: ''}`, which the gallery reports as an invalid structure. */
  lemma GalleryRejectsEmptyFirebaseText(req: ProxyRequest)
    requires req.verb == "POST" && !IsNullish(req.body) && Truthy(Prop(req.body, "prompt"))
    ensures var out := FirebaseProxy.Handle(req, Generated(""));
      && out.response.status == 200
      && Gallery.InsightDisplay(Responded(200, Ok(out.response.payload.value))) ==
         Gallery.AI_ERROR_PREFIX + Gallery.INVALID_STRUCTURE_MESSAGE
  {
  }

  /** The serverless proxy relays the model's raw answer, whose text sits
      under `candidates`: the gallery reports it as an invalid structure,
      while the earlier client, which reads that path, shows the text. */
  lemma RawAnswerReaders(req: ProxyRequest, apiKey: Option<string>, text: string)
    requires req.verb == "POST" && !IsNullish(req.body) && Truthy(Prop(req.body, "prompt"))
    ensures var out := VercelProxy.Handle(req, apiKey, Responded(200, Ok(CandidateAnswer(Str(text)))));
      var reply := Responded(out.response.status, Ok(out.response.payload.value));
      && out.response == JsonResponse(200, CandidateAnswer(Str(text)))
      && Gallery.InsightDisplay(reply) == Gallery.AI_ERROR_PREFIX + Gallery.INVALID_STRUCTURE_MESSAGE
      && LegacyClient.InsightText(reply) == text
  {
    LegacyClient.CandidateTextShown(200, Str(text));
  }
}
