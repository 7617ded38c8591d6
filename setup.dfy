/** Session setup values: the endpoint URL (`getWebsocketUrl`, script.js:725-731,
    and the same template in GeminiService.ts:130) and the two session
    configurations (`getConfig`, script.js:702-723, and GeminiService.ts:132-148). */
module Setup {
  import opened Wrappers
  import opened Wire

  const Endpoint: string :=
    "wss://generativelanguage.googleapis.com/ws/google.ai.generativelanguage.v1beta.GenerativeService.BidiGenerateContent?key="

  /** `getWebsocketUrl` throws when no API key is stored. */
  datatype UrlError = ApiKeyNotFound

  /** The endpoint with the key as its query value. The stored key is taken
      as a parameter (`localStorage.getItem('apiKey')`; "" is a missing key). */
  function WebsocketUrl(apiKey: string): (r: Result<string, UrlError>)
    ensures r.Err? <==> apiKey == ""
    ensures r.Ok? ==> |r.value| == |Endpoint| + |apiKey|
  {
    if apiKey == "" then Err(ApiKeyNotFound) else Ok(Endpoint + apiKey)
  }

  /** The key a URL of that form carries, if it has that form. */
  function KeyOf(url: string): Option<string>
  {
    if |Endpoint| < |url| && url[..|Endpoint|] == Endpoint then Some(url[|Endpoint|..]) else None
  }

  /** The URL carries the key and only the key: it can be read back, and two
      keys give two URLs. */
  lemma UrlCarriesKey(apiKey: string)
    requires apiKey != ""
    ensures KeyOf(WebsocketUrl(apiKey).value) == Some(apiKey)
  {
    var url := Endpoint + apiKey;
    assert url[..|Endpoint|] == Endpoint;
    assert url[|Endpoint|..] == apiKey;
  }

  lemma UrlInjective(k1: string, k2: string)
    requires k1 != "" && k2 != "" && WebsocketUrl(k1) == WebsocketUrl(k2)
    ensures k1 == k2
  {
    UrlCarriesKey(k1);
    UrlCarriesKey(k2);
  }

  const Model: string := "models/gemini-2.0-flash-live-001"
  const MaxOutputTokens: nat := 8192
  const ResponseModalities: string := "text_and_audio"
  const SystemInstruction: string := "You are Gemini, a helpful AI assistant. Be concise and friendly."

  /** `{googleSearch: {}}`. */
  function GoogleSearch(): Json
  {
    JObj([("googleSearch", JObj([]))])
  }

  /** `getConfig()`: the configuration of the page script, with Google Search as its only tool. */
  function PageConfig(): (c: Config)
    ensures c.tools.entries == [GoogleSearch()] && c.tools.functionDeclarations.None?
  {
    Config(Model, MaxOutputTokens, ResponseModalities, ToolsField([GoogleSearch()], None), SystemInstruction)
  }

  /** The configuration `GeminiService.initialize` builds: the same session, no tools. */
  function ServiceConfig(): (c: Config)
    ensures c.tools.entries == [] && c.tools.functionDeclarations.None?
  {
    Config(Model, MaxOutputTokens, ResponseModalities, ToolsField([], None), SystemInstruction)
  }
}
