# Inference orchestration of a browser-automation assistant, in Dafny

This project models the layer that turns language-model output into typed decisions for a
browser-automation assistant (`lib/inference.ts` and the act prompt builders of
`lib/prompt.ts`). The model client is replaced by its replies. Each operation receives the
replies the gateway gives, in call order. It returns its outcome, the requests it sent, and
what it logged.

- `wrappers.dfy` (`Wrappers`): `Option`, and `Outcome` (returned value or thrown error).
- `jsstring.dfy` (`JsString`): the JavaScript built-ins the code relies on. These are the
  `\s` class, `toUpperCase`, `indexOf`, and `String.prototype.replace` with a string pattern.
  `replace` changes the first match only and expands the `$$`, `$&`, `` $` `` and `$'` patterns.
- `prompt.dfy` (`Prompt`): the whitespace collapse `replace(/\s+/g, ' ')`, the act system and
  user prompt builders, and the `actTools` menu.
- `gateway.dfy` (`Gateway`): JSON values and gateway replies. A reply is missing, a rejection,
  a structured value or a chat completion. Also requests, log entries and JavaScript
  truthiness and `typeof`.
- `inference.dfy` (`Inference`): `verifyActCompletion`, `fillInVariables` (a method with a
  loop), `act` (bounded recursion over the replies), `extract`, `observe` and `ask`.

Behaviours of the code worth knowing, all modelled as written:
- `fillInVariables` replaces only the first occurrence of each placeholder, and matches the
  text case-sensitively against the upper-cased key (lib/inference.ts:102-103). It is not a
  global, case-insensitive substitution.
- `verifyActCompletion` returns the reply's `completed` field as it is
  (lib/inference.ts:93). It is not converted to a boolean.
- `extract` takes a `progress` argument and never uses it (`ExtractIgnoresProgress`).
- `act` passes `variables` to `buildActUserPrompt` (lib/inference.ts:145). The builder
  declares only three parameters (lib/prompt.ts:22-26), so the variables never reach the
  model.
- A caller may start `act` with a negative retry count. It can then make up to
  `3 - retries` calls (`ActBudget`), and makes exactly that many when no reply carries a tool
  call (`ActExhausted`).
- `act` returns `null` both for skipSection and for tool arguments that decode to `null`
  (lib/inference.ts:169, 172). The model writes `null` as `None` in both cases.

## Model

| member | source | states |
|---|---|---|
| `JsString.IndexOf` | lib/inference.ts:103 | the index found is an occurrence of the pattern, and no earlier index is; no index means the pattern does not occur |
| `JsString.ExpandLiteral` | lib/inference.ts:103 | a replacement value without `$` is inserted literally |
| `JsString.ReplaceFirstAbsent` | lib/inference.ts:103 | `replace` leaves a text without the pattern unchanged |
| `JsString.ReplaceFirstAt` | lib/inference.ts:103 | for text = pre + pattern + post with no earlier occurrence, `replace` gives pre + value + post, so later occurrences stay |
| `JsString.ToUpperIdempotent` | lib/inference.ts:102 | upper-casing an upper-cased key changes nothing |
| `Prompt.Collapse` | lib/prompt.ts:15 | the collapse gives an empty text exactly for an empty input, and begins with whitespace exactly when the input does, that whitespace being ' ' |
| `Prompt.CollapseIsScan` | lib/prompt.ts:32 | the collapse equals a character-by-character reading: the first character of each whitespace run gives one ' ', the rest of the run gives nothing, other characters are copied |
| `Prompt.CollapseIsCollapsed` | lib/prompt.ts:15 | after the collapse no two whitespace characters are adjacent and every whitespace character is ' ' |
| `Prompt.CollapseKeepsNonSpace` | lib/prompt.ts:32 | the collapse keeps every non-whitespace character, in order and in number |
| `Prompt.CollapseFixesCollapsed` | lib/prompt.ts:15 | a text already in collapsed form is left unchanged |
| `Prompt.CollapseIdempotent` | lib/prompt.ts:15 | collapsing twice gives the same text as collapsing once |
| `Prompt.CollapseKeepsEnds` | lib/prompt.ts:32 | no trimming: a leading whitespace run gives a leading ' ', a trailing run a trailing ' ' |
| `Prompt.BuildActSystemPrompt` | lib/prompt.ts:14-20 | the system message has role system, is collapsed, and keeps every non-whitespace character of the system prompt text |
| `Prompt.StepsDefaultIsNone` | lib/prompt.ts:24 | leaving the steps out gives the same user message as passing the text 'None' |
| `Prompt.BuildActUserPrompt` | lib/prompt.ts:22-38 | the user message has role user and is collapsed; its non-whitespace characters are the goal label with the goal, then the steps label with the steps, then the elements label with the elements |
| `Prompt.UserContent` | lib/prompt.ts:27-32 | for any labels, the collapsed template is collapsed and shows label and value pairs in template order |
| `Prompt.TemplateNonSpace` | lib/prompt.ts:27-31 | the template's non-whitespace characters are those of its three label and value pairs, in order; the blank tail adds none |
| `Prompt.ActToolsShape` | lib/prompt.ts:40-103 | the menu holds exactly doAction then skipSection; every field doAction requires is declared, `why` is declared but not required, skipSection requires nothing and declares only `reason` |
| `Inference.VerifyActCompletion` | lib/inference.ts:61-93 | a reply that is falsy or not an object, or an object without `completed`, gives false and one "VerifyAct" log entry; otherwise `completed` is returned unchanged; true comes back exactly when the reply says `completed: true`; a rejection propagates; a screenshot is attached exactly when one is given, with the whole-page caption |
| `Inference.FillInVariables` | lib/inference.ts:96-106 | the loop applies the entries in order, each replacing the first occurrence of its placeholder; with no entries, or when the text holds none of the placeholders, the text comes back unchanged |
| `Inference.FilledWithoutPlaceholders` | lib/inference.ts:101-104 | if the text holds none of the upper-cased placeholders, it comes back unchanged |
| `Inference.FilledReplacesFirst` | lib/inference.ts:102-103 | for one key, text = pre + placeholder + post with no earlier occurrence gives pre + value + post, for a value without `$` |
| `Inference.FilledLeavesSecondOccurrence` | lib/inference.ts:103 | of two occurrences of a placeholder, only the first is replaced |
| `Inference.FilledUppercasePlaceholder` | lib/inference.ts:102 | the upper-case placeholder of a key is filled whatever the case of the key |
| `Inference.FilledIgnoresKeyCase` | lib/inference.ts:102-103 | a key and its upper-cased spelling fill the same placeholder, so they give the same text |
| `Inference.FilledIsCaseSensitive` | lib/inference.ts:102-103 | a placeholder written with a key that is not all upper case is left in the text |
| `Inference.ActMessageList` | lib/inference.ts:143-146 | an act request carries the system message and then the user message; both are collapsed, and the user message shows goal, steps and elements in that order |
| `Inference.Act` | lib/inference.ts:165-193 | at least one call and at most the retry budget; every earlier reply had no tool call; retries resend the same text with the count raised, without screenshot and variables; the outcome is decided by the last reply; a run that stops on an empty reply has reached count 2 and logs once under "Act" |
| `Inference.ActSkipSection` | lib/inference.ts:167-170 | skipSection as the first tool call gives no action after exactly one call, with no retry and no log |
| `Inference.ActReturnsArguments` | lib/inference.ts:167-172 | any other first tool call gives its decoded arguments after exactly one call; the result is `null` exactly when those arguments decode to `null` |
| `Inference.ActExhausted` | lib/inference.ts:173-180 | replies without tool calls all along make act use its whole budget (3 - r calls from a count r <= 2), log once under "Act" and return no action |
| `Inference.ActRetriesKeepEssentials` | lib/inference.ts:182-192 | every retried call carries no screenshot and no variables, the same messages, model, tools and request id, and a count raised by one per retry |
| `Inference.ActClickScenario` | lib/inference.ts:165-172 | the click example (`method` click, `element` 3, no args, step "Clicked submit", completed) comes back verbatim after one call |
| `Inference.Extract` | lib/inference.ts:224-305 | the calls made are a prefix of extraction, refine (given pass one's reply), metadata (given the refined reply); a rejection ends the pipeline with its error; a result is the refined object with its `metadata` field set to the metadata reply and no other field changed |
| `Inference.ExtractPassesShareSchema` | lib/inference.ts:224-301 | passes one and two validate against the caller's schema, pass three against the progress and completed schema; each pass receives the previous reply; no image and no tools |
| `Inference.ExtractCompletes` | lib/inference.ts:224-305 | when no pass is rejected, exactly the three planned calls are made and a result is returned |
| `Inference.ExtractIgnoresProgress` | lib/inference.ts:196-220 | the result and the calls do not depend on `progress` |
| `Inference.Observe` | lib/inference.ts:367-371 | a falsy reply is an error ("no response when finding a selector"), never an empty list; any other reply is returned unchanged |
| `Inference.Ask` | lib/inference.ts:403 | one call with no schema and no tools; the result is the first choice's text, unparsed |

## Left out

- The model client: `resolveLLMClient`, provider routing and `createChatCompletion` (lib/inference.ts:45-46, 53-75 and the same lines in each operation). They are network I/O and foreign code. Each operation takes the replies instead.
- Schema validation by `zod` and `JSON.parse` of tool arguments. Tool-call arguments arrive already decoded, so a `JSON.parse` failure is not modelled. The schemas record field names and types, but not their `describe` texts.
- `Inference.Act`: requires every reply to be a rejection or a completion with at least one choice. The TypeError raised by `response.choices[0]` on other replies is not modelled.
- `Inference.Act`: the retry count is an integer, so fractional and NaN counts are not modelled. With a NaN count the source never reaches `retries >= 2` (lib/inference.ts:174), and `retries + 1` stays NaN (line 189). It therefore retries without bound for as long as replies carry no tool call. The model's bound on the number of calls holds only for integer counts.
- `Inference.Ask`: requires the same chat-completion reply as `act`, for the same reason.
- `Inference.Extract`: requires the refine and metadata replies to be objects or rejections, as the object schemas promise. The TypeError that setting `metadata` on a non-object would raise is not modelled. The in-place update of the refined object is modelled as an updated value, so aliasing is not captured.
- `JsString.ToUpper`: upper-cases the ASCII letters only. Full Unicode case mapping is not modelled, and it can change a string's length.
- `JsString.IsSpace` works on Dafny characters. UTF-16 surrogate pairs are not modelled.
- The order of `Object.entries` (integer-like keys first) is not modelled. The variables are given as entries in enumeration order.
- Screenshots are opaque byte buffers. The annotated-screenshot caption is defined in llm/LLMClient, which is not part of this model.
- The fixed sampling parameters (temperature 0.1, top_p 1, zero penalties) are constants passed through untouched.
- `async`/`await` scheduling is not modelled. A rejected gateway call is modelled as `Failed`, and the operation then throws the same error.
- The logger is modelled as a trace of entries. `JSON.stringify(response)` is recorded as the reply the message ends with, not as text.
- The prompt builders for verify, extract, refine, metadata, observe and ask are not in the modelled prompt file. Their requests record the arguments those builders receive.
- JSON numbers are integers. Fractions and NaN are not modelled.
