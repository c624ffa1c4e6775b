/**
 * The language-model gateway as seen by the inference layer: the requests it receives and
 * the replies it may give. The client itself (provider routing, transport, schema validation,
 * JSON parsing) is not modelled; each operation takes the gateway's replies as input.
 */
module Gateway {
  import opened Wrappers
  import Prompt

  /** A decoded JSON value (numbers restricted to integers). */
  datatype Json =
    | JNull
    | JBool(b: bool)
    | JNum(n: int)
    | JStr(s: string)
    | JArr(items: seq<Json>)
    | JObj(fields: map<string, Json>)

  /** Raw screenshot bytes. */
  datatype Buffer = Buffer(bytes: seq<bv8>)

  /** The caption attached to an image: the fixed whole-page text used by the completion
      check, or the annotated-screenshot text (defined in llm/LLMClient, which is not part of
      this model) used by act and observe. */
  datatype Caption = WholePage | Annotated {
    /** The caption's text, where this model knows it. */
    function Text(): Option<string> {
      match this
      case WholePage => Some(WholePageText)
      case Annotated => None
    }
  }

  const WholePageText: string := "This is a screenshot of the whole visible page."

  datatype Image = Image(buffer: Buffer, caption: Caption)

  /** The shape of a structured reply, as the `zod` object schemas of the source declare it. */
  datatype FieldType = StringField | BooleanField | NumberField | ArrayField(item: FieldType)
                     | ObjectField(fields: seq<Field>)
  datatype Field = Field(name: string, typ: FieldType)
  datatype Schema = Schema(fields: seq<Field>)

  /** A named response model: the gateway must return an object satisfying `schema`. */
  datatype ResponseModel = ResponseModel(name: string, schema: Schema)

  const VerificationSchema: Schema := Schema([Field("completed", BooleanField)])

  const MetadataSchema: Schema :=
    Schema([Field("progress", StringField), Field("completed", BooleanField)])

  const ObserveSchema: Schema :=
    Schema([Field("elements", ArrayField(ObjectField(
      [Field("elementId", NumberField), Field("description", StringField)])))])

  /** What the gateway reply may be, before any check of the caller. */
  datatype Response =
    | Missing                                  // null or undefined
    | Failed(error: string)                    // the call rejected: provider or transport error
    | Value(value: Json)                       // a structured reply (response_model given)
    | Completion(choices: seq<Choice>)         // a raw chat completion

  /** One choice of a chat completion: its text (null allowed) and its tool calls (absent
      allowed). */
  datatype Choice = Choice(content: Option<string>, toolCalls: Option<seq<ToolCall>>)

  /** A tool call whose JSON arguments are already decoded. */
  datatype ToolCall = ToolCall(name: string, arguments: Json)

  /** The messages of a request, recorded by the arguments their prompt builders get: the act
      builders are modelled in Prompt; the others are not part of this model. */
  datatype Conversation =
    | ActMessages(action: string, actSteps: Option<string>, domElements: string)
    | VerifyMessages(goal: string, steps: string, domText: Option<string>)
    | ExtractMessages(instruction: string, domElements: string)
    | RefineMessages(instruction: string, previouslyExtracted: Json, extracted: Response)
    | MetadataMessages(instruction: string, refined: Response, chunksSeen: int, chunksTotal: int)
    | ObserveMessages(instruction: string, domElements: string)
    | AskMessages(question: string)

  /** One gateway call. The fixed sampling parameters are not recorded. */
  datatype Request = Request(
    model: Option<string>,
    conversation: Conversation,
    image: Option<Image>,
    responseModel: Option<ResponseModel>,
    tools: seq<Prompt.Tool>,
    autoToolChoice: bool,
    requestId: string)

  /** A logger entry. `subject` is the value whose JSON text the message ends with, if any. */
  datatype LogEntry = LogEntry(category: Option<string>, message: string, subject: Option<Response>)

  /** `!response` in JavaScript. */
  predicate Falsy(r: Response) {
    match r
    case Missing => true
    case Value(v) => v == JNull || v == JBool(false) || v == JNum(0) || v == JStr("")
    case _ => false
  }

  /** `typeof response === "object"` (true of null as well). */
  predicate IsObject(r: Response) {
    match r
    case Value(v) => v.JNull? || v.JArr? || v.JObj?
    case Completion(_) => true
    case _ => false
  }

  /** `response[key]`, with `None` standing for `undefined`. */
  function Property(r: Response, key: string): (p: Option<Json>)
    ensures p.Some? <==> r.Value? && r.value.JObj? && key in r.value.fields
    ensures p.Some? ==> p.value == r.value.fields[key]
  {
    if r.Value? && r.value.JObj? && key in r.value.fields then Some(r.value.fields[key]) else None
  }

  /** What the gateway returns when asked for a chat completion (no response model): a
      completion with at least one choice, or a rejection. */
  predicate ChatReply(r: Response) {
    r.Failed? || (r.Completion? && |r.choices| > 0)
  }

  /** What the gateway returns when asked for an object schema: an object or a rejection. */
  predicate ObjectReply(r: Response) {
    r.Failed? || (r.Value? && r.value.JObj?)
  }
}
