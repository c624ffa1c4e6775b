/**
 * The act prompt builders and the act tool menu of lib/prompt.ts.
 * Both builders run their template through `replace(/\s+/g, ' ')`, modelled by Collapse.
 */
module Prompt {
  import opened Wrappers
  import opened JsString

  datatype Role = System | User

  /** A chat message: a role tag and its text. */
  datatype Message = Message(role: Role, content: string)

  // ---------------------------------------------------------------------------
  // Whitespace collapse: every maximal run of `\s` characters becomes one ' '.
  // ---------------------------------------------------------------------------

  /** Length of the run of whitespace at the head of `s`. */
  function SpaceRun(s: string): (n: nat)
    ensures n <= |s|
    ensures forall i :: 0 <= i < n ==> IsSpace(s[i])
    ensures n < |s| ==> !IsSpace(s[n])
    ensures s != [] && IsSpace(s[0]) ==> n >= 1
  {
    if s != [] && IsSpace(s[0]) then 1 + SpaceRun(s[1..]) else 0
  }

  /** `s.replace(/\s+/g, ' ')`. */
  function Collapse(s: string): (r: string)
    ensures r == [] <==> s == []
    ensures r != [] ==> (IsSpace(r[0]) <==> IsSpace(s[0]))
    ensures r != [] && IsSpace(r[0]) ==> r[0] == ' '
    decreases |s|
  {
    if s == [] then []
    else if IsSpace(s[0]) then [' '] + Collapse(s[SpaceRun(s)..])
    else [s[0]] + Collapse(s[1..])
  }

  /** Reference reading of the collapse, one character at a time: a whitespace character
      that starts a run gives ' ', one that continues a run gives nothing, any other
      character is copied. `afterSpace` says whether the previous character was whitespace. */
  function Scan(s: string, afterSpace: bool): string
    decreases |s|
  {
    if s == [] then []
    else if IsSpace(s[0]) then (if afterSpace then "" else " ") + Scan(s[1..], true)
    else [s[0]] + Scan(s[1..], false)
  }

  predicate NoAdjacentSpaces(s: string) {
    forall i :: 0 <= i < |s| - 1 ==> !(IsSpace(s[i]) && IsSpace(s[i + 1]))
  }

  predicate OnlyPlainSpaces(s: string) {
    forall i :: 0 <= i < |s| ==> IsSpace(s[i]) ==> s[i] == ' '
  }

  /** A string the collapse has nothing left to do on. */
  predicate Collapsed(s: string) {
    NoAdjacentSpaces(s) && OnlyPlainSpaces(s)
  }

  /** The non-whitespace characters of `s`, in order. */
  function NonSpace(s: string): string
    decreases |s|
  {
    if s == [] then [] else (if IsSpace(s[0]) then "" else [s[0]]) + NonSpace(s[1..])
  }

  lemma {:induction false} NonSpaceAppend(a: string, b: string)
    ensures NonSpace(a + b) == NonSpace(a) + NonSpace(b)
    decreases |a|
  {
    if a == [] {
      assert a + b == b;
    } else {
      assert (a + b)[1..] == a[1..] + b;
      NonSpaceAppend(a[1..], b);
    }
  }

  /** Skipping a whitespace run, while the scanner is already inside a run, emits nothing. */
  lemma {:induction false} ScanSkipsRun(s: string, n: nat)
    requires n <= |s|
    requires forall i :: 0 <= i < n ==> IsSpace(s[i])
    ensures Scan(s, true) == Scan(s[n..], true)
    decreases n
  {
    if n > 0 {
      ScanSkipsRun(s[1..], n - 1);
      assert s[1..][n - 1..] == s[n..];
    }
  }

  /** The collapse agrees with the character-by-character reading. */
  lemma {:induction false} CollapseIsScan(s: string)
    ensures Collapse(s) == Scan(s, false)
    decreases |s|
  {
    if s != [] {
      var n := SpaceRun(s);
      if IsSpace(s[0]) {
        CollapseIsScan(s[n..]);
        ScanSkipsRun(s[1..], n - 1);
        assert s[1..][n - 1..] == s[n..];
        // after the run the scanner is no longer inside whitespace
        if n < |s| {
          assert !IsSpace(s[n..][0]);
        }
      } else {
        CollapseIsScan(s[1..]);
      }
    }
  }

  /** The result of the collapse has no two adjacent whitespace characters, and its only
      whitespace character is ' '. */
  lemma {:induction false} CollapseIsCollapsed(s: string)
    ensures Collapsed(Collapse(s))
    decreases |s|
  {
    if s != [] {
      var n := SpaceRun(s);
      var t := if IsSpace(s[0]) then s[n..] else s[1..];
      CollapseIsCollapsed(t);
      var r := Collapse(s);
      var tail := Collapse(t);
      assert r == r[..1] + tail;
      assert r[1..] == tail;
      forall i | 0 <= i < |r| - 1 ensures !(IsSpace(r[i]) && IsSpace(r[i + 1])) {
        if i > 0 { assert r[i] == tail[i - 1] && r[i + 1] == tail[i]; }
      }
      forall i | 0 <= i < |r| && IsSpace(r[i]) ensures r[i] == ' ' {
        if i > 0 { assert r[i] == tail[i - 1]; }
      }
    }
  }

  /** The collapse keeps every non-whitespace character, in order and in number. */
  lemma {:induction false} CollapseKeepsNonSpace(s: string)
    ensures NonSpace(Collapse(s)) == NonSpace(s)
    decreases |s|
  {
    if s != [] {
      var n := SpaceRun(s);
      if IsSpace(s[0]) {
        CollapseKeepsNonSpace(s[n..]);
        RunHasNoNonSpace(s, n);
        NonSpaceAppend(" ", Collapse(s[n..]));
      } else {
        CollapseKeepsNonSpace(s[1..]);
        NonSpaceAppend([s[0]], Collapse(s[1..]));
      }
    }
  }

  lemma {:induction false} RunHasNoNonSpace(s: string, n: nat)
    requires n <= |s|
    requires forall i :: 0 <= i < n ==> IsSpace(s[i])
    ensures NonSpace(s) == NonSpace(s[n..])
    decreases n
  {
    if n > 0 {
      RunHasNoNonSpace(s[1..], n - 1);
      assert s[1..][n - 1..] == s[n..];
    }
  }

  /** A string with no two adjacent whitespace characters and no whitespace but ' '
      is a fixed point of the collapse. */
  lemma {:induction false} CollapseFixesCollapsed(s: string)
    requires Collapsed(s)
    ensures Collapse(s) == s
    decreases |s|
  {
    if s != [] {
      assert Collapsed(s[1..]) by {
        forall i | 0 <= i < |s[1..]| - 1 ensures !(IsSpace(s[1..][i]) && IsSpace(s[1..][i + 1])) {
          assert s[1..][i] == s[i + 1] && s[1..][i + 1] == s[i + 2];
        }
      }
      if IsSpace(s[0]) {
        assert SpaceRun(s) == 1 by {
          if |s| > 1 { assert !IsSpace(s[1]); }
        }
      }
      CollapseFixesCollapsed(s[1..]);
    }
  }

  /** Collapsing twice gives the same text as collapsing once. */
  lemma CollapseIdempotent(s: string)
    ensures Collapse(Collapse(s)) == Collapse(s)
  {
    CollapseIsCollapsed(s);
    CollapseFixesCollapsed(Collapse(s));
  }

  /** No trimming: a leading whitespace run gives a leading ' ', a trailing run a trailing ' '. */
  lemma {:induction false} CollapseKeepsEnds(s: string)
    requires s != []
    ensures IsSpace(s[0]) ==> Collapse(s)[0] == ' '
    ensures IsSpace(s[|s| - 1]) ==> Collapse(s)[|Collapse(s)| - 1] == ' '
    decreases |s|
  {
    var n := SpaceRun(s);
    var r := Collapse(s);
    if IsSpace(s[0]) {
      var t := s[n..];
      assert r == [' '] + Collapse(t);
      if n < |s| {
        CollapseKeepsEnds(t);
        assert t[|t| - 1] == s[|s| - 1];
        assert r[|r| - 1] == Collapse(t)[|Collapse(t)| - 1];
      }
    } else if |s| > 1 {
      var t := s[1..];
      assert r == [s[0]] + Collapse(t);
      CollapseKeepsEnds(t);
      assert t[|t| - 1] == s[|s| - 1];
      assert r[|r| - 1] == Collapse(t)[|Collapse(t)| - 1];
    }
  }

  // ---------------------------------------------------------------------------
  // The act prompt builders.
  // ---------------------------------------------------------------------------

  const ActSystemText: string :=
    "\nYou are a browser automation assistant.\n\nYou are given:\n1. the user's overall goal\n"
    + "2. the steps that have been taken so far\n"
    + "3. a list of active DOM elements in this chunk to consider to accomplish the goal. \n\n"
    + "You have 2 tools that you can call: doAction, and skipSection\n"

  /** The act system message: role 'system', collapsed text. */
  function BuildActSystemPrompt(): (m: Message)
    ensures m.role == System
    ensures Collapsed(m.content)
    ensures NonSpace(m.content) == NonSpace(ActSystemText)
  {
    CollapseIsCollapsed(ActSystemText);
    CollapseKeepsNonSpace(ActSystemText);
    Message(System, Collapse(ActSystemText))
  }

  // The pieces of the act user prompt's template literal.
  const GoalLabel: string := "\n    goal: "
  const StepsLabel: string := ", \n    steps completed so far: "
  const ElementsLabel: string := ",\n    elements: "
  const TemplateEnd: string := "\n    "

  /** The template literal of the act user prompt, before the collapse. */
  function ActUserTemplate(action: string, steps: string, domElements: string): string {
    GoalLabel + action + StepsLabel + steps + ElementsLabel + domElements + TemplateEnd
  }

  /** `steps` defaults to 'None' when the caller leaves it out. */
  function StepsOrDefault(steps: Option<string>): (s: string)
    ensures steps.None? ==> s == "None"
    ensures steps.Some? ==> s == steps.value
  {
    steps.GetOr("None")
  }

  /** Leaving the steps out gives the same message as passing the text 'None'. */
  lemma StepsDefaultIsNone(action: string, domElements: string)
    ensures BuildActUserPrompt(action, None, domElements)
         == BuildActUserPrompt(action, Some("None"), domElements)
  {
  }

  /** The act user message: role 'user'; its text shows the goal label and goal, then the
      steps label and the steps (or 'None'), then the elements label and the elements, with
      every whitespace run collapsed to one ' '. */
  function BuildActUserPrompt(action: string, steps: Option<string>, domElements: string): (m: Message)
    ensures m.role == User
    ensures Collapsed(m.content)
    ensures NonSpace(m.content)
         == NonSpace(GoalLabel + action) + NonSpace(StepsLabel + StepsOrDefault(steps))
            + NonSpace(ElementsLabel + domElements)
  {
    UserContent(action, StepsOrDefault(steps), domElements,
      GoalLabel, StepsLabel, ElementsLabel, TemplateEnd);
    Message(User, Collapse(ActUserTemplate(action, StepsOrDefault(steps), domElements)))
  }

  lemma UserContent(action: string, steps: string, domElements: string,
                    a: string, b: string, c: string, d: string)
    requires forall i :: 0 <= i < |d| ==> IsSpace(d[i])
    ensures Collapsed(Collapse(a + action + b + steps + c + domElements + d))
    ensures NonSpace(Collapse(a + action + b + steps + c + domElements + d))
         == NonSpace(a + action) + NonSpace(b + steps) + NonSpace(c + domElements)
  {
    var t := a + action + b + steps + c + domElements + d;
    CollapseIsCollapsed(t);
    CollapseKeepsNonSpace(t);
    TemplateNonSpace(action, steps, domElements, a, b, c, d);
  }

  lemma TemplateNonSpace(action: string, steps: string, domElements: string,
                         a: string, b: string, c: string, d: string)
    requires forall i :: 0 <= i < |d| ==> IsSpace(d[i])
    ensures NonSpace(a + action + b + steps + c + domElements + d)
         == NonSpace(a + action) + NonSpace(b + steps) + NonSpace(c + domElements)
  {
    var x, y, z := a + action, b + steps, c + domElements;
    assert a + action + b + steps + c + domElements + d == x + y + z + d;
    NonSpaceBlank(d);
    NonSpaceAppend(x, y);
    NonSpaceAppend(x + y, z);
    NonSpaceAppend(x + y + z, d);
  }

  lemma {:induction false} NonSpaceBlank(w: string)
    requires forall i :: 0 <= i < |w| ==> IsSpace(w[i])
    ensures NonSpace(w) == ""
    decreases |w|
  {
    if w != [] {
      NonSpaceBlank(w[1..]);
    }
  }

  // ---------------------------------------------------------------------------
  // The act tool menu.
  // ---------------------------------------------------------------------------

  datatype ParamType = StringParam | NumberParam | BooleanParam | ArrayParam(items: ParamType)

  datatype SchemaProperty = SchemaProperty(name: string, typ: ParamType, description: string)

  /** A JSON-schema object: the names it requires (absent when the source gives no list)
      and the properties it declares. */
  datatype Parameters = Parameters(required: Option<seq<string>>, properties: seq<SchemaProperty>)

  /** A function offered to the model (every entry has `type: 'function'`). */
  datatype Tool = Tool(name: string, description: string, parameters: Parameters)

  function PropertyNames(ps: seq<SchemaProperty>): (names: seq<string>)
    ensures |names| == |ps|
    ensures forall i :: 0 <= i < |ps| ==> names[i] == ps[i].name
  {
    seq(|ps|, i requires 0 <= i < |ps| => ps[i].name)
  }

  const DoAction: Tool := Tool(
    "doAction",
    "execute the next playwright step that directly accomplishes the goal",
    Parameters(
      Some(["method", "element", "args", "step", "completed"]),
      [ SchemaProperty("method", StringParam, "The playwright function to call"),
        SchemaProperty("element", NumberParam, "The element number to act on"),
        SchemaProperty("args", ArrayParam(StringParam), "The required arguments"),
        SchemaProperty("step", StringParam,
          "human readable description of the step that is taken in the past tense"),
        SchemaProperty("why", StringParam, "why is this step taken? how does it advance the goal?"),
        SchemaProperty("completed", BooleanParam,
          "true if the goal should be accomplished after this step") ]))

  const SkipSection: Tool := Tool(
    "skipSection",
    "skips this area of the webpage because the current goal cannot be accomplished here",
    Parameters(None, [ SchemaProperty("reason", StringParam, "reason that no action is taken") ]))

  const ActTools: seq<Tool> := [DoAction, SkipSection]

  /** The menu offers exactly doAction and skipSection; every field doAction requires is
      declared, `why` is declared but optional, and skipSection requires nothing. */
  lemma ActToolsShape()
    ensures |ActTools| == 2
    ensures ActTools[0].name == "doAction" && ActTools[1].name == "skipSection"
    ensures ActTools[0].parameters.required.Some?
    ensures forall r :: r in ActTools[0].parameters.required.value ==>
              r in PropertyNames(ActTools[0].parameters.properties)
    ensures "why" in PropertyNames(ActTools[0].parameters.properties)
    ensures "why" !in ActTools[0].parameters.required.value
    ensures ActTools[1].parameters.required.None?
    ensures PropertyNames(ActTools[1].parameters.properties) == ["reason"]
  {
    var names := PropertyNames(DoAction.parameters.properties);
    assert names == ["method", "element", "args", "step", "why", "completed"];
  }
}
