/**
 * The decision logic of lib/inference.ts: how each operation calls the gateway and turns
 * its replies into a typed result. Each operation receives the replies the gateway gives,
 * in call order, and reports its outcome together with the requests it made.
 */
module Inference {
  import opened Wrappers
  import opened JsString
  import opened Gateway
  import Prompt

  /** A `Record<string, string>`, as the entries `Object.entries` enumerates, in order. */
  type Variables = seq<(string, string)>

  /** `screenshot ? { buffer, description } : undefined`: a Buffer is always truthy. */
  function ScreenshotImage(screenshot: Option<Buffer>, caption: Caption): (img: Option<Image>)
    ensures img.Some? <==> screenshot.Some?
    ensures img.Some? ==> img.value.buffer == screenshot.value && img.value.caption == caption
  {
    match screenshot
    case None => None
    case Some(b) => Some(Image(b, caption))
  }

  // ===========================================================================
  // verifyActCompletion
  // ===========================================================================

  datatype VerifyInput = VerifyInput(
    goal: string, steps: string, model: Option<string>, screenshot: Option<Buffer>,
    domElements: Option<string>, requestId: string)

  function VerifyRequest(input: VerifyInput): Request {
    Request(input.model, VerifyMessages(input.goal, input.steps, input.domElements),
      ScreenshotImage(input.screenshot, WholePage),
      Some(ResponseModel("Verification", VerificationSchema)), [], false, input.requestId)
  }

  /** The result of the completion check, the one request it made and what it logged. */
  datatype Verdict = Verdict(outcome: Outcome<Json>, call: Request, log: seq<LogEntry>)

  const UnexpectedFormat: string := "Unexpected response format: "
  const MissingCompleted: string := "Missing 'completed' field in response"

  /** The reply explicitly reports the goal as accomplished. */
  predicate ReportsCompleted(reply: Response) {
    Property(reply, "completed") == Some(JBool(true))
  }

  /**
   * One gateway call with the Verification schema. A reply that is null, falsy or not an
   * object, or an object without `completed`, is logged under "VerifyAct" and read as false;
   * otherwise `completed` is returned as the reply gives it.
   */
  function VerifyActCompletion(input: VerifyInput, reply: Response): (v: Verdict)
    ensures v.call == VerifyRequest(input)
    ensures v.call.image.Some? <==> input.screenshot.Some?
    ensures v.call.image.Some? ==> v.call.image.value.caption.Text() == Some(WholePageText)
    ensures reply.Failed? ==> v.outcome == Threw(reply.error) && v.log == []
    ensures !reply.Failed? && (Falsy(reply) || !IsObject(reply)) ==>
              v.outcome == Returned(JBool(false))
              && v.log == [LogEntry(Some("VerifyAct"), UnexpectedFormat, Some(reply))]
    ensures !reply.Failed? && !Falsy(reply) && IsObject(reply) && Property(reply, "completed").None? ==>
              v.outcome == Returned(JBool(false))
              && v.log == [LogEntry(Some("VerifyAct"), MissingCompleted, None)]
    ensures Property(reply, "completed").Some? ==>
              v.outcome == Returned(Property(reply, "completed").value) && v.log == []
    // conservative default: true only when the reply says so explicitly
    ensures v.outcome == Returned(JBool(true)) <==> ReportsCompleted(reply)
    // every fallback to false is logged under the same category
    ensures v.log != [] <==> !reply.Failed? && Property(reply, "completed").None?
    ensures forall e :: e in v.log ==> e.category == Some("VerifyAct")
  {
    var call := VerifyRequest(input);
    match reply
    case Failed(e) => Verdict(Threw(e), call, [])
    case _ =>
      if Falsy(reply) || !IsObject(reply) then
        Verdict(Returned(JBool(false)), call,
          [LogEntry(Some("VerifyAct"), UnexpectedFormat, Some(reply))])
      else
        match Property(reply, "completed")
        case None =>
          Verdict(Returned(JBool(false)), call, [LogEntry(Some("VerifyAct"), MissingCompleted, None)])
        case Some(completed) => Verdict(Returned(completed), call, [])
  }

  // ===========================================================================
  // fillInVariables
  // ===========================================================================

  /** The placeholder of a key: only the key is upper-cased. */
  function Placeholder(key: string): string {
    "<|" + ToUpper(key) + "|>"
  }

  /** The text after the entries have been applied in order, each replacing the first
      occurrence of its placeholder in the text the earlier entries left. */
  function Filled(text: string, variables: Variables): string
    decreases |variables|
  {
    if variables == [] then text
    else
      var entry := variables[|variables| - 1];
      ReplaceFirst(Filled(text, variables[..|variables| - 1]), Placeholder(entry.0), entry.1)
  }

  method FillInVariables(text: string, variables: Variables) returns (processedText: string)
    ensures processedText == Filled(text, variables)
    ensures variables == [] ==> processedText == text
    ensures (forall i :: 0 <= i < |variables| ==> !Contains(text, Placeholder(variables[i].0)))
            ==> processedText == text
  {
    processedText := text;
    for i := 0 to |variables|
      invariant processedText == Filled(text, variables[..i])
    {
      assert variables[..i + 1][..i] == variables[..i];
      var (key, value) := variables[i];
      var placeholder := Placeholder(key);
      processedText := ReplaceFirst(processedText, placeholder, value);
    }
    assert variables[..|variables|] == variables;
    if forall i :: 0 <= i < |variables| ==> !Contains(text, Placeholder(variables[i].0)) {
      FilledWithoutPlaceholders(text, variables);
    }
  }

  /** A text holding none of the placeholders comes back unchanged. */
  lemma {:induction false} FilledWithoutPlaceholders(text: string, variables: Variables)
    requires forall i :: 0 <= i < |variables| ==> !Contains(text, Placeholder(variables[i].0))
    ensures Filled(text, variables) == text
    decreases |variables|
  {
    if variables != [] {
      var n := |variables| - 1;
      FilledWithoutPlaceholders(text, variables[..n]);
      ReplaceFirstAbsent(text, Placeholder(variables[n].0), variables[n].1);
    }
  }

  /** For one key, only the first occurrence of its upper-cased placeholder is replaced:
      what precedes it and what follows it, later occurrences included, is kept. */
  lemma FilledReplacesFirst(text: string, key: string, value: string, pre: string, post: string)
    requires text == pre + Placeholder(key) + post
    requires forall k :: 0 <= k < |pre| ==> !OccursAt(text, Placeholder(key), k)
    requires NoDollar(value)
    ensures Filled(text, [(key, value)]) == pre + value + post
  {
    assert [(key, value)][..0] == [];
    ReplaceFirstAt(text, Placeholder(key), value, pre, post);
  }

  /** Two occurrences of a placeholder: the second one stays. */
  lemma FilledLeavesSecondOccurrence(key: string, value: string, middle: string)
    requires NoDollar(value)
    ensures Filled(Placeholder(key) + middle + Placeholder(key), [(key, value)])
         == value + middle + Placeholder(key)
  {
    FilledReplacesFirst(Placeholder(key) + middle + Placeholder(key), key, value, [],
      middle + Placeholder(key));
  }

  /** The key is upper-cased: the upper-case placeholder of a key is filled whatever the
      key's own case. */
  lemma FilledUppercasePlaceholder(key: string, value: string)
    requires NoDollar(value)
    ensures Filled(Placeholder(key), [(key, value)]) == value
  {
    FilledReplacesFirst(Placeholder(key), key, value, [], []);
  }

  /** Only the key's upper-case form matters: a key and its upper-cased spelling fill the
      same placeholder, so they give the same text. */
  lemma FilledIgnoresKeyCase(text: string, key: string, value: string)
    ensures Filled(text, [(ToUpper(key), value)]) == Filled(text, [(key, value)])
  {
    ToUpperIdempotent(key);
    assert Placeholder(ToUpper(key)) == Placeholder(key);
  }

  /** The text is matched as it is: a placeholder written with the key's own spelling is
      left alone when that spelling is not all upper case. */
  lemma FilledIsCaseSensitive(key: string, value: string)
    requires ToUpper(key) != key
    ensures Filled("<|" + key + "|>", [(key, value)]) == "<|" + key + "|>"
  {
    var text := "<|" + key + "|>";
    assert !Contains(text, Placeholder(key)) by {
      forall k | 0 <= k <= |text| ensures !OccursAt(text, Placeholder(key), k) {
        if k == 0 {
          assert text[2..|text| - 2] == key;
          assert Placeholder(key)[2..|text| - 2] == ToUpper(key);
        }
      }
    }
    assert [(key, value)][0].0 == key;
    FilledWithoutPlaceholders(text, [(key, value)]);
  }

  // ===========================================================================
  // act
  // ===========================================================================

  datatype ActInput = ActInput(
    action: string, steps: Option<string>, domElements: string, model: Option<string>,
    screenshot: Option<Buffer>, retries: Option<int>, variables: Option<Variables>,
    requestId: string)

  /** `retries = 0` when the caller leaves it out. */
  function Retries(input: ActInput): int {
    input.retries.GetOr(0)
  }

  /** The most gateway calls act can make from a retry count. */
  function ActBudget(retries: int): nat {
    if retries >= 2 then 1 else 3 - retries
  }

  /** The act request: the act messages, the two-function menu with automatic choice, and
      the screenshot if there is one. The user prompt builder ignores the variables. */
  function ActRequest(input: ActInput): Request {
    Request(input.model, ActMessages(input.action, input.steps, input.domElements),
      ScreenshotImage(input.screenshot, Annotated), None, Prompt.ActTools, true, input.requestId)
  }

  /** The messages an act request carries: the system prompt, then the user prompt built
      from the goal, the steps and the elements. */
  function ActMessageList(c: Conversation): (messages: seq<Prompt.Message>)
    requires c.ActMessages?
    ensures |messages| == 2
    ensures messages[0].role == Prompt.System && messages[1].role == Prompt.User
    ensures Prompt.Collapsed(messages[0].content) && Prompt.Collapsed(messages[1].content)
    ensures Prompt.NonSpace(messages[1].content)
         == Prompt.NonSpace(Prompt.GoalLabel + c.action)
            + Prompt.NonSpace(Prompt.StepsLabel + Prompt.StepsOrDefault(c.actSteps))
            + Prompt.NonSpace(Prompt.ElementsLabel + c.domElements)
  {
    [Prompt.BuildActSystemPrompt(), Prompt.BuildActUserPrompt(c.action, c.actSteps, c.domElements)]
  }

  /** The arguments of the `i`-th retry: the same text, no screenshot, no variables. */
  function RetryInput(input: ActInput, i: nat): ActInput {
    input.(screenshot := None, variables := None, retries := Some(Retries(input) + i))
  }

  /** The first choice holds at least one tool call. */
  predicate HasToolCalls(reply: Response) {
    reply.Completion? && |reply.choices| > 0 && reply.choices[0].toolCalls.Some?
    && |reply.choices[0].toolCalls.value| > 0
  }

  /** A completion whose first choice has no tool call (absent or empty). */
  predicate NoToolCalls(reply: Response) {
    reply.Completion? && |reply.choices| > 0 && !HasToolCalls(reply)
  }

  /** The decoded arguments of a tool call as act returns them: `None` is JavaScript's
      `null`, so arguments that decode to `null` read the same as no action. */
  function ArgumentsResult(arguments: Json): Option<Json> {
    if arguments.JNull? then None else Some(arguments)
  }

  /** What act returns when it stops at `reply`: the gateway's error; no action (`null`) for
      skipSection or when nothing was called; otherwise the first call's arguments. */
  function Decision(reply: Response): Outcome<Option<Json>> {
    if reply.Failed? then Threw(reply.error)
    else if HasToolCalls(reply) then
      var first := reply.choices[0].toolCalls.value[0];
      if first.name == "skipSection" then Returned(None) else Returned(ArgumentsResult(first.arguments))
    else Returned(None)
  }

  /** The outcome of act, the arguments of each attempt, the request of each attempt and
      what it logged. */
  datatype ActRun = ActRun(
    outcome: Outcome<Option<Json>>, attempts: seq<ActInput>, calls: seq<Request>,
    log: seq<LogEntry>)

  const NoToolCallsEntry: LogEntry := LogEntry(Some("Act"), "No tool calls found in response", None)

  /**
   * Resolve the next action. A reply without tool calls is retried, with the retry count
   * raised by one and without screenshot and variables, until the count reaches 2.
   */
  function Act(input: ActInput, replies: seq<Response>): (run: ActRun)
    requires |replies| >= ActBudget(Retries(input))
    requires forall i :: 0 <= i < |replies| ==> ChatReply(replies[i])
    ensures 1 <= |run.attempts| <= ActBudget(Retries(input))
    ensures |run.calls| == |run.attempts|
    ensures run.attempts[0] == input
    ensures forall i :: 1 <= i < |run.attempts| ==> run.attempts[i] == RetryInput(input, i)
    ensures forall i :: 0 <= i < |run.attempts| ==> run.calls[i] == ActRequest(run.attempts[i])
    ensures forall i :: 0 <= i < |run.attempts| - 1 ==> NoToolCalls(replies[i])
    ensures run.outcome == Decision(replies[|run.attempts| - 1])
    ensures NoToolCalls(replies[|run.attempts| - 1]) ==> Retries(input) + |run.attempts| - 1 >= 2
    ensures run.log == if NoToolCalls(replies[|run.attempts| - 1]) then [NoToolCallsEntry] else []
    decreases ActBudget(Retries(input))
  {
    var call := ActRequest(input);
    var response := replies[0];
    assert ChatReply(response);
    if response.Failed? then ActRun(Threw(response.error), [input], [call], [])
    else
      var toolCalls := response.choices[0].toolCalls;
      if toolCalls.Some? && |toolCalls.value| > 0 then
        if toolCalls.value[0].name == "skipSection" then ActRun(Returned(None), [input], [call], [])
        else ActRun(Returned(ArgumentsResult(toolCalls.value[0].arguments)), [input], [call], [])
      else if Retries(input) >= 2 then
        ActRun(Returned(None), [input], [call], [NoToolCallsEntry])
      else
        var next := RetryInput(input, 1);
        assert forall i :: 1 <= i ==> RetryInput(next, i) == RetryInput(input, i + 1);
        var rest := Act(next, replies[1..]);
        ActRun(rest.outcome, [input] + rest.attempts, [call] + rest.calls, rest.log)
  }

  /** skipSection on the first reply: no action, one call, no retry, nothing logged. */
  lemma ActSkipSection(input: ActInput, replies: seq<Response>)
    requires |replies| >= ActBudget(Retries(input))
    requires forall i :: 0 <= i < |replies| ==> ChatReply(replies[i])
    requires HasToolCalls(replies[0])
    requires replies[0].choices[0].toolCalls.value[0].name == "skipSection"
    ensures Act(input, replies).outcome == Returned(None)
    ensures |Act(input, replies).calls| == 1 && Act(input, replies).log == []
  {
  }

  /** Any other first tool call: its decoded arguments, after exactly one call; arguments
      that decode to `null` come back as `null`, like skipSection. */
  lemma ActReturnsArguments(input: ActInput, replies: seq<Response>)
    requires |replies| >= ActBudget(Retries(input))
    requires forall i :: 0 <= i < |replies| ==> ChatReply(replies[i])
    requires HasToolCalls(replies[0])
    requires replies[0].choices[0].toolCalls.value[0].name != "skipSection"
    ensures Act(input, replies).outcome
         == Returned(ArgumentsResult(replies[0].choices[0].toolCalls.value[0].arguments))
    ensures var args := replies[0].choices[0].toolCalls.value[0].arguments;
      Act(input, replies).outcome == Returned(None) <==> args.JNull?
    ensures |Act(input, replies).calls| == 1 && Act(input, replies).log == []
  {
  }

  /** Replies without tool calls all along: act makes every call its budget allows
      (3 - r from a count r <= 2), logs once under "Act" and returns no action. */
  lemma ActExhausted(input: ActInput, replies: seq<Response>)
    requires |replies| >= ActBudget(Retries(input))
    requires forall i :: 0 <= i < |replies| ==> ChatReply(replies[i])
    requires forall i :: 0 <= i < ActBudget(Retries(input)) ==> NoToolCalls(replies[i])
    ensures |Act(input, replies).calls| == ActBudget(Retries(input))
    ensures Retries(input) <= 2 ==> |Act(input, replies).calls| == 3 - Retries(input)
    ensures Act(input, replies).outcome == Returned(None)
    ensures Act(input, replies).log == [NoToolCallsEntry]
  {
    var run := Act(input, replies);
    var n := |run.attempts|;
    assert NoToolCalls(replies[n - 1]);
  }

  /** Every retry resends the same messages to the same model with the same request id,
      without the screenshot and without the variables, one retry count higher each time. */
  lemma ActRetriesKeepEssentials(input: ActInput, replies: seq<Response>)
    requires |replies| >= ActBudget(Retries(input))
    requires forall i :: 0 <= i < |replies| ==> ChatReply(replies[i])
    ensures var run := Act(input, replies);
      forall i :: 1 <= i < |run.calls| ==>
        && run.calls[i].image.None?
        && run.attempts[i].variables.None?
        && run.attempts[i].retries == Some(Retries(input) + i)
        && run.calls[i].conversation == run.calls[0].conversation
        && run.calls[i].tools == Prompt.ActTools
        && run.calls[i].model == input.model
        && run.calls[i].requestId == input.requestId
  {
  }

  /** The arguments of the click example, as the model would send them. */
  const ClickArguments: Json := JObj(map[
    "method" := JStr("click"), "element" := JNum(3), "args" := JArr([]),
    "step" := JStr("Clicked submit"), "completed" := JBool(true)])

  /** Instruction "click the submit button": the model picks doAction with the click
      arguments, and act returns them as they are after one call. */
  lemma ActClickScenario(domElements: string, requestId: string, rest: seq<Response>)
    requires |rest| >= 2
    requires forall i :: 0 <= i < |rest| ==> ChatReply(rest[i])
    ensures var input := ActInput("click the submit button", None, domElements, None, None, None,
                                  None, requestId);
            var reply := Completion([Choice(None, Some([ToolCall("doAction", ClickArguments)]))]);
            var run := Act(input, [reply] + rest);
            run.outcome == Returned(Some(ClickArguments)) && |run.calls| == 1 && run.log == []
  {
    var input := ActInput("click the submit button", None, domElements, None, None, None,
                          None, requestId);
    var reply := Completion([Choice(None, Some([ToolCall("doAction", ClickArguments)]))]);
    var replies := [reply] + rest;
    assert forall i :: 0 <= i < |replies| ==> ChatReply(replies[i]);
    ActReturnsArguments(input, replies);
  }

  // ===========================================================================
  // extract
  // ===========================================================================

  datatype ExtractInput = ExtractInput(
    instruction: string, progress: string, previouslyExtracted: Json, domElements: string,
    schema: Schema, model: Option<string>, chunksSeen: int, chunksTotal: int,
    requestId: string)

  function ExtractionRequest(input: ExtractInput): Request {
    Request(input.model, ExtractMessages(input.instruction, input.domElements), None,
      Some(ResponseModel("Extraction", input.schema)), [], false, input.requestId)
  }

  function RefineRequest(input: ExtractInput, extracted: Response): Request {
    Request(input.model, RefineMessages(input.instruction, input.previouslyExtracted, extracted),
      None, Some(ResponseModel("RefinedExtraction", input.schema)), [], false, input.requestId)
  }

  function MetadataRequest(input: ExtractInput, refined: Response): Request {
    Request(input.model,
      MetadataMessages(input.instruction, refined, input.chunksSeen, input.chunksTotal), None,
      Some(ResponseModel("Metadata", MetadataSchema)), [], false, input.requestId)
  }

  /** The three passes in order: extraction, refinement of its output, metadata of the
      refined output. */
  function ExtractPlan(input: ExtractInput, replies: seq<Response>): seq<Request>
    requires |replies| >= 2
  {
    [ExtractionRequest(input), RefineRequest(input, replies[0]), MetadataRequest(input, replies[1])]
  }

  /** `refined.metadata = metadata`: the metadata field is set and no other field changes. */
  predicate MetadataAttached(result: Json, refined: Json, metadata: Json)
    requires refined.JObj?
  {
    && result.JObj?
    && "metadata" in result.fields && result.fields["metadata"] == metadata
    && result.fields.Keys - {"metadata"} == refined.fields.Keys - {"metadata"}
    && (forall k :: k != "metadata" && k in refined.fields && k in result.fields ==>
          result.fields[k] == refined.fields[k])
  }

  datatype ExtractRun = ExtractRun(outcome: Outcome<Json>, calls: seq<Request>)

  /**
   * Three dependent calls, no retry: a rejection of any of them ends the pipeline with
   * that error; otherwise the refined object is returned with the metadata attached.
   */
  function Extract(input: ExtractInput, replies: seq<Response>): (run: ExtractRun)
    requires |replies| >= 3
    requires ObjectReply(replies[1]) && ObjectReply(replies[2])
    ensures 1 <= |run.calls| <= 3
    ensures run.calls == ExtractPlan(input, replies)[..|run.calls|]
    ensures forall i :: 0 <= i < |run.calls| - 1 ==> !replies[i].Failed?
    ensures replies[|run.calls| - 1].Failed? <==> run.outcome.Threw?
    ensures run.outcome.Threw? ==> run.outcome.error == replies[|run.calls| - 1].error
    ensures run.outcome.Returned? ==>
              |run.calls| == 3 && MetadataAttached(run.outcome.value, replies[1].value, replies[2].value)
  {
    var extractionResponse := replies[0];
    var first := ExtractionRequest(input);
    if extractionResponse.Failed? then ExtractRun(Threw(extractionResponse.error), [first])
    else
      var refinedResponse := replies[1];
      var second := RefineRequest(input, extractionResponse);
      if refinedResponse.Failed? then ExtractRun(Threw(refinedResponse.error), [first, second])
      else
        var metadataResponse := replies[2];
        var third := MetadataRequest(input, refinedResponse);
        if metadataResponse.Failed? then
          ExtractRun(Threw(metadataResponse.error), [first, second, third])
        else
          var fields := refinedResponse.value.fields["metadata" := metadataResponse.value];
          ExtractRun(Returned(JObj(fields)), [first, second, third])
  }

  /** Passes one and two validate against the caller's schema, pass three against the
      metadata schema (progress, completed); each pass sees the previous pass's reply. */
  lemma ExtractPassesShareSchema(input: ExtractInput, replies: seq<Response>)
    requires |replies| >= 2
    ensures var plan := ExtractPlan(input, replies);
      && plan[0].responseModel == Some(ResponseModel("Extraction", input.schema))
      && plan[1].responseModel == Some(ResponseModel("RefinedExtraction", input.schema))
      && plan[2].responseModel == Some(ResponseModel("Metadata", MetadataSchema))
      && plan[1].conversation.extracted == replies[0]
      && plan[2].conversation.refined == replies[1]
      && forall i :: 0 <= i < 3 ==> plan[i].image.None? && plan[i].tools == []
  {
  }

  /** When no pass is rejected, all three calls are made and the result is returned. */
  lemma ExtractCompletes(input: ExtractInput, replies: seq<Response>)
    requires |replies| >= 3
    requires ObjectReply(replies[1]) && ObjectReply(replies[2])
    requires forall i :: 0 <= i < 3 ==> !replies[i].Failed?
    ensures |Extract(input, replies).calls| == 3
    ensures Extract(input, replies).calls == ExtractPlan(input, replies)
    ensures Extract(input, replies).outcome.Returned?
  {
    var run := Extract(input, replies);
    assert !replies[|run.calls| - 1].Failed?;
  }

  /** The `progress` argument is accepted but never used. */
  lemma ExtractIgnoresProgress(input: ExtractInput, replies: seq<Response>, progress: string)
    requires |replies| >= 3
    requires ObjectReply(replies[1]) && ObjectReply(replies[2])
    ensures Extract(input.(progress := progress), replies) == Extract(input, replies)
  {
  }

  // ===========================================================================
  // observe
  // ===========================================================================

  datatype ObserveInput = ObserveInput(
    instruction: string, domElements: string, model: Option<string>, image: Option<Buffer>,
    requestId: string)

  function ObserveRequest(input: ObserveInput): Request {
    Request(input.model, ObserveMessages(input.instruction, input.domElements),
      ScreenshotImage(input.image, Annotated), Some(ResponseModel("Observation", ObserveSchema)),
      [], false, input.requestId)
  }

  const NoSelectorError: string := "no response when finding a selector"

  datatype ObserveRun = ObserveRun(outcome: Outcome<Response>, call: Request)

  /** One call with the Observation schema; a falsy reply is an error, never an empty list. */
  function Observe(input: ObserveInput, reply: Response): (run: ObserveRun)
    ensures run.call == ObserveRequest(input)
    ensures reply.Failed? ==> run.outcome == Threw(reply.error)
    ensures !reply.Failed? && Falsy(reply) ==> run.outcome == Threw(NoSelectorError)
    ensures run.outcome.Returned? <==> !reply.Failed? && !Falsy(reply)
    ensures run.outcome.Returned? ==> run.outcome.value == reply
  {
    var call := ObserveRequest(input);
    match reply
    case Failed(e) => ObserveRun(Threw(e), call)
    case _ => if Falsy(reply) then ObserveRun(Threw(NoSelectorError), call) else ObserveRun(Returned(reply), call)
  }

  // ===========================================================================
  // ask
  // ===========================================================================

  datatype AskInput = AskInput(question: string, model: Option<string>, requestId: string)

  function AskRequest(input: AskInput): Request {
    Request(input.model, AskMessages(input.question), None, None, [], false, input.requestId)
  }

  datatype AskRun = AskRun(outcome: Outcome<Option<string>>, call: Request)

  /** One call without schema or tools; the first choice's text comes back unparsed. */
  function Ask(input: AskInput, reply: Response): (run: AskRun)
    requires ChatReply(reply)
    ensures run.call == AskRequest(input)
    ensures run.call.responseModel.None? && run.call.tools == []
    ensures reply.Failed? ==> run.outcome == Threw(reply.error)
    ensures reply.Completion? ==> run.outcome == Returned(reply.choices[0].content)
  {
    var call := AskRequest(input);
    match reply
    case Failed(e) => AskRun(Threw(e), call)
    case Completion(choices) => AskRun(Returned(choices[0].content), call)
  }
}
