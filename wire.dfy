/** The JSON the client exchanges with the realtime service: the envelopes
    script.js sends (`{setup}`, `{clientContent}`, `{realtimeInput}`,
    `{toolResponse}`) and the parsed frames it receives (`toolCall`,
    `toolCallCancellation`, `serverContent`). Parsing itself (`blobToJSON`) is
    not modelled: frames arrive already parsed. */
module Wire {
  import opened Wrappers

  /** A JSON value. Numbers are integers in this model. */
  datatype Json =
    | JNull
    | JBool(b: bool)
    | JNum(n: int)
    | JStr(s: string)
    | JArr(items: seq<Json>)
    | JObj(fields: seq<(string, Json)>)

  /** JavaScript truthiness of a parsed value: null, false, 0 and "" are falsy. */
  predicate Truthy(v: Json)
  {
    match v
    case JNull => false
    case JBool(b) => b
    case JNum(n) => n != 0
    case JStr(s) => s != ""
    case _ => true
  }

  // ----- Outbound -----

  /** The `tools` field of a session configuration. In the source it is an
      array (`entries`); GeminiAgent's constructor may also hang a named
      property `functionDeclarations` on that array object. */
  datatype ToolsField = ToolsField(entries: seq<Json>, functionDeclarations: Option<seq<Json>>)

  /** The session configuration sent in the `{setup}` envelope. The float
      `temperature` of the source is not modelled. */
  datatype Config = Config(
    model: string,
    maxOutputTokens: nat,
    responseModalities: string,
    tools: ToolsField,
    systemInstruction: string)

  /** What `JSON.stringify` writes for the `tools` field: an array is written
      as its elements only, so a named property on it never reaches the wire. */
  function WireTools(t: ToolsField): seq<Json>
  {
    t.entries
  }

  datatype MediaChunk = MediaChunk(mimeType: string, data: string)

  /** One entry of `clientContent.turns`: `{role, parts: {text}}`. */
  datatype Turn = Turn(role: string, text: string)

  /** `response: {output}` or `response: {error}` of a function response. */
  datatype ResponseBody = OutputBody(output: Json) | ErrorBody(error: Json)

  datatype FunctionResponse = FunctionResponse(id: string, response: ResponseBody)

  /** An outbound envelope: exactly one payload kind per frame. */
  datatype Envelope =
    | Setup(config: Config)
    | ClientContent(turns: seq<Turn>, turnComplete: bool)
    | RealtimeInput(mediaChunks: seq<MediaChunk>)
    | ToolResponse(functionResponses: seq<FunctionResponse>)

  // ----- Inbound -----

  /** `inlineData` of a part; an empty `data` stands for a missing or empty one. */
  datatype InlineData = InlineData(mimeType: string, data: string)

  /** A content part; an empty `text` stands for a missing or empty one. */
  datatype Part = Part(text: string, inlineData: Option<InlineData>)

  /** `modelTurn`; `parts` may be missing from the parsed object. */
  datatype ModelTurn = ModelTurn(parts: Option<seq<Part>>)

  datatype ServerContent = ServerContent(interrupted: bool, turnComplete: bool, modelTurn: Option<ModelTurn>)

  datatype FunctionCall = FunctionCall(id: string, name: string, args: Json)

  datatype ToolCall = ToolCall(functionCalls: seq<FunctionCall>)

  /** A parsed inbound frame: each field is present (an object, hence truthy) or absent. */
  datatype Frame = Frame(
    toolCall: Option<ToolCall>,
    toolCallCancellation: Option<Json>,
    serverContent: Option<ServerContent>)
}
