/** The request shape of the model's REST endpoint, which both the
    serverless proxy of gemini.js and the browser client of script.js call
    directly: the endpoint URL with the key in its query string, and a JSON
    body holding the prompt as the text of the first part of the first
    content. */
module GeminiRest {
  import opened Base
  import opened JsValues

  const GEMINI_ENDPOINT := "https://generativelanguage.googleapis.com/v1beta/models/gemini-pro:generateContent?key="

  /** `{contents: [{parts: [{text: prompt}]}]}`. */
  function GenerateBody(prompt: JsValue): JsValue {
    Object1("contents", Arr([Object1("parts", Arr([Object1("text", prompt)]))]))
  }

  /** `body.contents[0].parts[0].text`, as the model's endpoint reads it. */
  function PromptOf(body: JsValue): Option<JsValue> {
    if body.Obj? && "contents" in body.props && body.props["contents"].Arr? && |body.props["contents"].elems| > 0 then
      var content := body.props["contents"].elems[0];
      if content.Obj? && "parts" in content.props && content.props["parts"].Arr? && |content.props["parts"].elems| > 0 then
        var part := content.props["parts"].elems[0];
        if part.Obj? && "text" in part.props then Some(part.props["text"]) else None
      else None
    else None
  }

  /** The request sent upstream carries the prompt, unchanged, in the one
      place the endpoint looks for it, and nothing else. */
  lemma GenerateBodyCarriesPrompt(prompt: JsValue)
    ensures PromptOf(GenerateBody(prompt)) == Some(prompt)
    ensures GenerateBody(prompt).props.Keys == {"contents"}
  {
  }

  /** `{candidates: [{content: {parts: [{text}]}}]}`, the shape of a
      successful answer. */
  function CandidateAnswer(text: JsValue): JsValue {
    Object1("candidates", Arr([Object1("content", Object1("parts", Arr([Object1("text", text)])))]))
  }
}
