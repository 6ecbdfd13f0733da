/** The virtual co-worker of core/virtual_coworker.py: a bounded
    reason-act loop over a language model. Each model response becomes a
    tool call, a final answer or a reminder to use the expected format.

    The language model is the oracle `model`: the response to the `n`-th
    generation request of this co-worker. `json.loads` is the oracle
    `parse`, which yields the decoded object or `None` on a decoding error. */
module Coworker {
  import opened Values
  import opened Text
  import opened Tools
  import Memory

  /** One conversation entry: `{"role": ..., "content": ...}`. */
  datatype Message = Message(role: string, content: string)

  /** The arguments of `BitNetModel.generate` as passed by `think`. */
  datatype GenerateRequest = GenerateRequest(
    prompt: string,
    maxTokens: int,
    temperature: real,
    topP: real,
    topK: int,
    repetitionPenalty: real)

  type Model = (nat, GenerateRequest) -> string

  type Parser = string -> Option<Dict<Value>>

  /** `max_iterations`, fixed in `run`. */
  const MaxIterations: nat := 10

  const Apology: string := "I apologize, but I was unable to complete the task within the allowed number of iterations."

  /** The marker that introduces the answer in a response. */
  const AnswerMarker: string := "Final Answer:"

  const Reminder: string := "Please use the specified format for tool usage or provide a final answer."

  // ---------------------------------------------------------------- think

  /** The rendering of one message in the model input; messages with any
      other role are skipped. */
  function Line(m: Message): string {
    if m.role == "system" then "System: " + m.content + "\n\n"
    else if m.role == "user" then "User: " + m.content + "\n\n"
    else if m.role == "assistant" then "Assistant: " + m.content + "\n\n"
    else ""
  }

  function Lines(conversation: seq<Message>): (r: seq<string>)
    ensures |r| == |conversation|
    ensures forall k :: 0 <= k < |r| ==> r[k] == Line(conversation[k])
  {
    seq(|conversation|, k requires 0 <= k < |conversation| => Line(conversation[k]))
  }

  /** The model input built by `think`: every message in order, then "Assistant: ". */
  function Prompt(conversation: seq<Message>): string {
    Concat(Lines(conversation)) + "Assistant: "
  }

  /** Rendering is compositional: one more message adds its own line just
      before the trailing "Assistant: ". */
  lemma PromptAppend(conversation: seq<Message>, m: Message)
    ensures Prompt(conversation + [m]) == Concat(Lines(conversation)) + Line(m) + "Assistant: "
  {
    assert Lines(conversation + [m]) == Lines(conversation) + [Line(m)];
    ConcatAppend(Lines(conversation), Line(m));
  }

  /** A message whose role is not system, user or assistant leaves the prompt unchanged. */
  lemma PromptSkipsOtherRoles(conversation: seq<Message>, m: Message)
    requires m.role != "system" && m.role != "user" && m.role != "assistant"
    ensures Prompt(conversation + [m]) == Prompt(conversation)
  {
    PromptAppend(conversation, m);
  }

  /** The prompt of a system, a user and an assistant message. */
  lemma PromptOfThree(s: string, u: string, a: string)
    ensures Prompt([Message("system", s), Message("user", u), Message("assistant", a)])
         == "System: " + s + "\n\n" + "User: " + u + "\n\n" + "Assistant: " + a + "\n\n" + "Assistant: "
  {
    var c := [Message("system", s), Message("user", u), Message("assistant", a)];
    assert c == [Message("system", s)] + [Message("user", u)] + [Message("assistant", a)];
    PromptAppend([Message("system", s)] + [Message("user", u)], Message("assistant", a));
    PromptAppend([Message("system", s)], Message("user", u));
    PromptAppend([], Message("system", s));
    assert [] + [Message("system", s)] == [Message("system", s)];
  }

  /** The request `think` sends for a conversation. */
  function Request(conversation: seq<Message>): (r: GenerateRequest)
    ensures r.prompt == Prompt(conversation)
    ensures r.maxTokens == 1024 && r.temperature == 0.7 && r.topP == 0.9 && r.topK == 40 && r.repetitionPenalty == 1.1
  {
    GenerateRequest(Prompt(conversation), 1024, 0.7, 0.9, 40, 1.1)
  }

  /** The string accumulation of `think`. */
  method RenderPrompt(conversation: seq<Message>) returns (input: string)
    ensures input == Prompt(conversation)
  {
    input := "";
    var i := 0;
    while i < |conversation|
      invariant 0 <= i <= |conversation|
      invariant input == Concat(Lines(conversation[..i]))
    {
      var m := conversation[i];
      assert conversation[..i + 1] == conversation[..i] + [m];
      assert Lines(conversation[..i + 1]) == Lines(conversation[..i]) + [Line(m)];
      ConcatAppend(Lines(conversation[..i]), Line(m));
      input := AppendLine(input, m);
      i := i + 1;
    }
    assert conversation[..i] == conversation;
    input := input + "Assistant: ";
  }

  /** One message of the loop of `think`: its role's prefix, its content and a
      blank line; a message of any other role adds nothing. */
  method AppendLine(input: string, m: Message) returns (input': string)
    ensures input' == input + Line(m)
  {
    if m.role == "system" {
      input' := input + "System: " + m.content + "\n\n";
    } else if m.role == "user" {
      input' := input + "User: " + m.content + "\n\n";
    } else if m.role == "assistant" {
      input' := input + "Assistant: " + m.content + "\n\n";
    } else {
      input' := input;
    }
  }

  // ------------------------------------------------------ response parsing

  /** The first line that starts with "Action:". */
  function FirstActionLine(lines: seq<string>): (r: Option<nat>)
    ensures r.Some? ==> r.value < |lines| && StartsWith(lines[r.value], "Action:")
    ensures r.Some? ==> forall k :: 0 <= k < r.value ==> !StartsWith(lines[k], "Action:")
    ensures r.None? ==> forall k :: 0 <= k < |lines| ==> !StartsWith(lines[k], "Action:")
  {
    if lines == [] then None
    else if StartsWith(lines[0], "Action:") then Some(0)
    else match FirstActionLine(lines[1..])
      case None => None
      case Some(k) => Some(k + 1)
  }

  /** `_extract_tool_name`: the first line starting with "Action:", with
      every "Action:" removed and then stripped; "" when there is none. */
  function ToolName(response: string): (r: string)
    ensures (forall k :: 0 <= k < |Split(response, "\n")| ==> !StartsWith(Split(response, "\n")[k], "Action:")) ==> r == ""
  {
    var lines := Split(response, "\n");
    match FirstActionLine(lines)
    case None => ""
    case Some(k) => Strip(RemoveAll(lines[k], "Action:"))
  }

  /** The loop of `_extract_tool_name` over the lines of the response. */
  method ExtractToolName(response: string) returns (name: string)
    ensures name == ToolName(response)
  {
    var lines := Split(response, "\n");
    var i := 0;
    while i < |lines|
      invariant 0 <= i <= |lines|
      invariant forall k :: 0 <= k < i ==> !StartsWith(lines[k], "Action:")
    {
      if StartsWith(lines[i], "Action:") {
        assert FirstActionLine(lines) == Some(i);
        return Strip(RemoveAll(lines[i], "Action:"));
      }
      i := i + 1;
    }
    return "";
  }

  /** A response whose first line is "Action: <name>" names that tool. */
  lemma ToolNameOfFirstLine(name: string, rest: string)
    requires '\n' !in name && 'A' !in name
    requires name != [] ==> !IsSpace(name[0]) && !IsSpace(name[|name| - 1])
    ensures ToolName("Action: " + name + "\n" + rest) == name
  {
    var first := "Action: " + name;
    ActionLineFirst(first, rest);
    var tail := " " + name;
    RemoveOnce("", "Action:", tail);
    assert "" + "Action:" + tail == first;
    assert "" + tail == tail;
    assert RemoveAll(first, "Action:") == tail;
    StripBlankPrefix(name);
  }

  /** A first line that starts with "Action:" is the line the name is taken from. */
  lemma ActionLineFirst(first: string, rest: string)
    requires '\n' !in first && StartsWith(first, "Action:")
    ensures ToolName(first + "\n" + rest) == Strip(RemoveAll(first, "Action:"))
  {
    var response := first + "\n" + rest;
    FindAfter(first, "\n", rest);
    assert response[..|first|] == first;
    var lines := Split(response, "\n");
    assert lines[0] == first;
    assert FirstActionLine(lines) == Some(0);
  }

  /** The text after the first "Action Input:" with every "Action Input:"
      removed and stripped; `None` when there is no "Action Input:". */
  function InputText(response: string): (r: Option<string>)
    ensures r.None? <==> !Contains(response, "Action Input:")
  {
    var start := Find(response, "Action Input:");
    if start == -1 then None else Some(Strip(RemoveAll(response[start..], "Action Input:")))
  }

  /** `_extract_tool_input`: the object parsed from the first "{" to the
      last "}" of the input text, or `{}` when there is no "Action Input:",
      no "{" or no "}", or the text does not parse. */
  function ToolInput(response: string, parse: Parser): (r: Dict<Value>)
    ensures !Contains(response, "Action Input:") ==> r == []
    ensures InputText(response).Some? && (!Contains(InputText(response).value, "{") || !Contains(InputText(response).value, "}")) ==> r == []
  {
    match InputText(response)
    case None => []
    case Some(text) =>
      var jsonStart := Find(text, "{");
      var jsonEnd := RFind(text, "}") + 1;
      if jsonStart == -1 || jsonEnd == 0 then []
      else parse(Slice(text, jsonStart, jsonEnd)).GetOr([])
  }

  /** When the input text is a single braced object, all of it is parsed. */
  lemma ToolInputWhole(response: string, parse: Parser)
    requires InputText(response).Some?
    requires var t := InputText(response).value; |t| >= 2 && t[0] == '{' && t[|t| - 1] == '}'
    ensures ToolInput(response, parse) == parse(InputText(response).value).GetOr([])
  {
    var t := InputText(response).value;
    assert OccursAt(t, "{", 0);
    assert OccursAt(t, "}", |t| - 1);
    assert Find(t, "{") == 0;
    assert RFind(t, "}") == |t| - 1;
    assert Slice(t, 0, |t|) == t;
  }

  /** `_extract_final_answer`: the response itself when it holds no
      "Final Answer:", else the stripped text between the first and the
      second "Final Answer:" (or the end). */
  function FinalAnswer(response: string): (r: string)
    ensures !Contains(response, AnswerMarker) ==> r == response
    ensures Contains(response, AnswerMarker) ==>
              var rest := response[Find(response, AnswerMarker) + |AnswerMarker|..];
              r == Strip(if Contains(rest, AnswerMarker) then rest[..Find(rest, AnswerMarker)] else rest)
  {
    if !Contains(response, AnswerMarker) then response
    else
      SecondPiece(response, AnswerMarker);
      Strip(Split(response, AnswerMarker)[1])
  }

  /** Text before the marker that cannot start it is ignored, and the answer runs to the end. */
  lemma FinalAnswerAfter(before: string, answer: string)
    requires 'F' !in before && !Contains(answer, "Final Answer:")
    ensures FinalAnswer(before + "Final Answer:" + answer) == Strip(answer)
  {
    var response := before + "Final Answer:" + answer;
    FindAfter(before, "Final Answer:", answer);
    assert response[|before| + |"Final Answer:"|..] == answer;
  }

  // --------------------------------------------------------------- tools

  /** The first tool whose name matches `name` ignoring case. */
  function FirstNamed(tools: seq<Tool>, name: string): (r: Option<nat>)
    ensures r.Some? ==> r.value < |tools| && Lower(tools[r.value].name) == Lower(name)
    ensures r.Some? ==> forall k :: 0 <= k < r.value ==> Lower(tools[k].name) != Lower(name)
    ensures r.None? ==> forall k :: 0 <= k < |tools| ==> Lower(tools[k].name) != Lower(name)
  {
    if tools == [] then None
    else if Lower(tools[0].name) == Lower(name) then Some(0)
    else match FirstNamed(tools[1..], name)
      case None => None
      case Some(k) => Some(k + 1)
  }

  /** The tool `_find_tool` returns. */
  function Found(tools: seq<Tool>, name: string): Option<Tool> {
    match FirstNamed(tools, name)
    case None => None
    case Some(k) => Some(tools[k])
  }


  /** The system message that follows a tool-call response. */
  function Feedback(tools: seq<Tool>, name: string, input: Dict<Value>): string {
    match Found(tools, name)
    case None => "Error: Tool '" + name + "' not found. Available tools: " + Join(Names(tools, NameOf), ", ")
    case Some(tool) =>
      match Call(tool, input)
      case Returned(v) => "Tool result: " + v
      case Raised(e) => "Error: " + e
  }

  // ------------------------------------------------------------------ run

  /** What one response asks for. */
  datatype Action = Use(name: string) | Answer(text: string) | Reformat

  /** A response naming a tool is a tool call, even if it also holds a
      "Final Answer:"; otherwise "Final Answer:" makes it the answer. */
  function Classify(response: string): (a: Action)
    ensures ToolName(response) != "" ==> a == Use(ToolName(response))
    ensures ToolName(response) == "" && Contains(response, AnswerMarker) ==> a == Answer(FinalAnswer(response))
    ensures ToolName(response) == "" && !Contains(response, AnswerMarker) ==> a == Reformat
  {
    var name := ToolName(response);
    if name != "" then Use(name)
    else if Contains(response, AnswerMarker) then Answer(FinalAnswer(response))
    else Reformat
  }

  /** How the co-worker reacts to one response: with the final answer, or
      with the system message to add after it. */
  datatype Reaction = Finish(answer: string) | Reply(note: string)

  /** The reaction of `run` to a response: the tool feedback for a tool
      call, the answer for a final answer, otherwise the reminder. */
  function React(tools: seq<Tool>, parse: Parser, response: string): Reaction {
    match Classify(response)
    case Use(name) => Reply(Feedback(tools, name, ToolInput(response, parse)))
    case Answer(text) => Finish(text)
    case Reformat => Reply(Reminder)
  }

  /** `React` for a fixed tool list and parser. */
  function Reacting(tools: seq<Tool>, parse: Parser): string -> Reaction {
    response => React(tools, parse, response)
  }

  /** How a run ends: with an answer, or out of iterations. Either way with
      the number of model calls made so far and the conversation. */
  datatype RunOutcome =
    | Answered(answer: string, calls: nat, conversation: seq<Message>)
    | Exhausted(calls: nat, conversation: seq<Message>)

  /** The conversation `run` starts with: the system prompt, the memory
      context when there is one, and the task. */
  function Initial(systemPrompt: string, task: string, context: string): (c: seq<Message>)
    ensures |c| == if context == "" then 2 else 3
    ensures c[0] == Message("system", systemPrompt) && c[|c| - 1] == Message("user", task)
    ensures context != "" ==> c[1] == Message("system", "Context from memory:\n\n" + context)
  {
    if context == "" then [Message("system", systemPrompt), Message("user", task)]
    else [Message("system", systemPrompt), Message("system", "Context from memory:\n\n" + context), Message("user", task)]
  }

  /** The iterations of `run` still to go, from model call number `calls`:
      ask the model about the conversation so far; stop at an answer, else
      add the response and the reaction's note and go on. */
  function Loop(react: string -> Reaction, model: Model, conversation: seq<Message>, calls: nat, fuel: nat): RunOutcome
    decreases fuel
  {
    if fuel == 0 then Exhausted(calls, conversation)
    else
      var response := model(calls, Request(conversation));
      match react(response)
      case Finish(text) => Answered(text, calls + 1, conversation)
      case Reply(note) => Loop(react, model, conversation + [Message("assistant", response), Message("system", note)], calls + 1, fuel - 1)
  }

  /** A whole run of `run` from a conversation. */
  function Iterate(tools: seq<Tool>, model: Model, parse: Parser, conversation: seq<Message>, calls: nat): RunOutcome {
    Loop(Reacting(tools, parse), model, conversation, calls, MaxIterations)
  }

  /** Turn `j` of a run that started from a conversation of `start`
      messages and model call number `calls`: the response to exactly the
      conversation before it, followed by a system message. */
  ghost predicate TurnAt(model: Model, start: nat, calls: nat, conversation: seq<Message>, j: nat)
    requires start + 2 * j + 1 < |conversation|
  {
    && conversation[start + 2 * j] == Message("assistant", model(calls + j, Request(conversation[..start + 2 * j])))
    && conversation[start + 2 * j + 1].role == "system"
  }

  /** The counts of a run: at most `fuel` model calls and at least one; the
      conversation only grows, by two messages per turn that did not
      answer; a run out of iterations used all of them. */
  lemma {:induction false} LoopCounts(react: string -> Reaction, model: Model, conversation: seq<Message>, calls: nat, fuel: nat)
    ensures var out := Loop(react, model, conversation, calls, fuel);
      && calls <= out.calls <= calls + fuel
      && (fuel > 0 ==> calls < out.calls)
      && |conversation| <= |out.conversation| && out.conversation[..|conversation|] == conversation
      && (out.Exhausted? ==> out.calls == calls + fuel && |out.conversation| == |conversation| + 2 * fuel)
      && (out.Answered? ==> |out.conversation| == |conversation| + 2 * (out.calls - calls - 1))
    decreases fuel
  {
    if fuel > 0 {
      var response := model(calls, Request(conversation));
      if react(response).Reply? {
        var next := conversation + [Message("assistant", response), Message("system", react(response).note)];
        LoopCounts(react, model, next, calls + 1, fuel - 1);
        var out := Loop(react, model, next, calls + 1, fuel - 1);
        assert out.conversation[..|conversation|] == out.conversation[..|next|][..|conversation|];
      }
    }
  }

  /** Every turn from message `start` on holds `TurnAt`. */
  ghost predicate TurnsFrom(model: Model, start: nat, calls: nat, conversation: seq<Message>) {
    forall j: nat :: start + 2 * j + 1 < |conversation| ==> TurnAt(model, start, calls, conversation, j)
  }

  /** Every turn of a run that did not answer asked the model about the
      conversation exactly as it stood, with the next call number, and
      added the reaction's note after the response. */
  lemma {:induction false} LoopTurns(react: string -> Reaction, model: Model, conversation: seq<Message>, calls: nat, fuel: nat)
    ensures TurnsFrom(model, |conversation|, calls, Loop(react, model, conversation, calls, fuel).conversation)
    decreases fuel
  {
    if fuel > 0 {
      var response := model(calls, Request(conversation));
      if react(response).Reply? {
        var next := conversation + [Message("assistant", response), Message("system", react(response).note)];
        LoopCounts(react, model, next, calls + 1, fuel - 1);
        LoopTurns(react, model, next, calls + 1, fuel - 1);
        TurnsExtend(model, conversation, calls, react(response).note, Loop(react, model, next, calls + 1, fuel - 1).conversation);
      }
    }
  }

  /** The turns after the first turn, and the first turn, are all the turns. */
  lemma TurnsExtend(model: Model, conversation: seq<Message>, calls: nat, note: string, out: seq<Message>)
    requires var next := conversation + [Message("assistant", model(calls, Request(conversation))), Message("system", note)];
      |next| <= |out| && out[..|next|] == next
    requires TurnsFrom(model, |conversation| + 2, calls + 1, out)
    ensures TurnsFrom(model, |conversation|, calls, out)
  {
    forall j: nat | |conversation| + 2 * j + 1 < |out|
      ensures TurnAt(model, |conversation|, calls, out, j)
    {
      if j == 0 {
        FirstTurn(model, conversation, calls, note, out);
      } else {
        assert |conversation| + 2 + 2 * (j - 1) + 1 < |out|;
        TurnShift(model, |conversation|, calls, out, j);
      }
    }
  }

  /** Turn `j` from `start` is turn `j - 1` from the message after the first turn. */
  lemma TurnShift(model: Model, start: nat, calls: nat, conversation: seq<Message>, j: nat)
    requires 1 <= j && start + 2 * j + 1 < |conversation|
    requires TurnAt(model, start + 2, calls + 1, conversation, j - 1)
    ensures TurnAt(model, start, calls, conversation, j)
  {
  }

  /** A conversation that extends the first turn holds that turn. */
  lemma FirstTurn(model: Model, conversation: seq<Message>, calls: nat, note: string, out: seq<Message>)
    requires var next := conversation + [Message("assistant", model(calls, Request(conversation))), Message("system", note)];
      |next| <= |out| && out[..|next|] == next
    ensures TurnAt(model, |conversation|, calls, out, 0)
  {
    var next := conversation + [Message("assistant", model(calls, Request(conversation))), Message("system", note)];
    assert out[|conversation|] == next[|conversation|];
    assert out[|conversation| + 1] == next[|conversation| + 1];
    assert out[..|conversation|] == next[..|conversation|];
  }

  /** A response that answers ends the run after one model call, with the
      conversation unchanged. */
  lemma AnswerAtOnce(tools: seq<Tool>, parse: Parser, before: string, answer: string)
    requires 'F' !in before && 'A' !in before && '\n' !in before && '\n' !in answer && !Contains(answer, "Final Answer:")
    ensures React(tools, parse, before + "Final Answer:" + answer) == Finish(Strip(answer))
  {
    var response := before + "Final Answer:" + answer;
    assert response[0] != 'A';
    NoActionInOneLine(response);
    FinalAnswerAfter(before, answer);
    assert OccursAt(response, "Final Answer:", |before|);
  }

  /** A response of a single line that does not start with "Action:" names no tool. */
  lemma NoActionInOneLine(response: string)
    requires '\n' !in response && !StartsWith(response, "Action:")
    ensures ToolName(response) == ""
  {
    NotContains(response, "\n");
    assert Split(response, "\n") == [response];
  }

  /** A response whose first line is "Action: <name>" is a call of that tool. */
  lemma ToolCallReaction(tools: seq<Tool>, parse: Parser, name: string, rest: string)
    requires name != [] && '\n' !in name && 'A' !in name && !IsSpace(name[0]) && !IsSpace(name[|name| - 1])
    ensures React(tools, parse, "Action: " + name + "\n" + rest)
         == Reply(Feedback(tools, name, ToolInput("Action: " + name + "\n" + rest, parse)))
  {
    ToolNameOfFirstLine(name, rest);
  }

  /** A run whose first response answers: one model call, and the
      conversation as it was. */
  lemma RunAnswersAtOnce(tools: seq<Tool>, model: Model, parse: Parser, conversation: seq<Message>, calls: nat, before: string, answer: string)
    requires 'F' !in before && 'A' !in before && '\n' !in before && '\n' !in answer && !Contains(answer, "Final Answer:")
    requires model(calls, Request(conversation)) == before + "Final Answer:" + answer
    ensures Iterate(tools, model, parse, conversation, calls) == Answered(Strip(answer), calls + 1, conversation)
  {
    AnswerAtOnce(tools, parse, before, answer);
    assert Reacting(tools, parse)(before + "Final Answer:" + answer) == Finish(Strip(answer));
  }

  /** A run with a tool call followed by a final answer: two model calls,
      and the call with its tool feedback between them in the conversation. */
  lemma RunToolThenAnswer(tools: seq<Tool>, model: Model, parse: Parser, conversation: seq<Message>, calls: nat,
                          name: string, rest: string, answer: string)
    requires name != [] && '\n' !in name && 'A' !in name && !IsSpace(name[0]) && !IsSpace(name[|name| - 1])
    requires '\n' !in answer && !Contains(answer, "Final Answer:")
    requires model(calls, Request(conversation)) == "Action: " + name + "\n" + rest
    requires model(calls + 1, Request(conversation + [Message("assistant", "Action: " + name + "\n" + rest),
               Message("system", Feedback(tools, name, ToolInput("Action: " + name + "\n" + rest, parse)))])) == "Final Answer:" + answer
    ensures Iterate(tools, model, parse, conversation, calls)
         == Answered(Strip(answer), calls + 2, conversation + [Message("assistant", "Action: " + name + "\n" + rest),
               Message("system", Feedback(tools, name, ToolInput("Action: " + name + "\n" + rest, parse)))])
  {
    var react := Reacting(tools, parse);
    var response := "Action: " + name + "\n" + rest;
    var note := Feedback(tools, name, ToolInput(response, parse));
    ToolCallReaction(tools, parse, name, rest);
    assert react(response) == Reply(note);
    var next := conversation + [Message("assistant", response), Message("system", note)];
    LoopReplies(react, model, conversation, calls, MaxIterations, note);
    AnswerAtOnce(tools, parse, "", answer);
    EmptyPrefix("Final Answer:", answer);
    LoopAnswers(react, model, next, calls + 1, MaxIterations - 1, Strip(answer));
  }

  lemma EmptyPrefix(a: string, b: string)
    ensures "" + a + b == a + b
  {
  }

  /** A turn whose response is answered ends the loop. */
  lemma LoopAnswers(react: string -> Reaction, model: Model, conversation: seq<Message>, calls: nat, fuel: nat, text: string)
    requires fuel > 0 && react(model(calls, Request(conversation))) == Finish(text)
    ensures Loop(react, model, conversation, calls, fuel) == Answered(text, calls + 1, conversation)
  {
  }

  /** A turn whose response gets a note goes on with both in the conversation. */
  lemma LoopReplies(react: string -> Reaction, model: Model, conversation: seq<Message>, calls: nat, fuel: nat, note: string)
    requires fuel > 0 && react(model(calls, Request(conversation))) == Reply(note)
    ensures Loop(react, model, conversation, calls, fuel)
         == Loop(react, model, conversation + [Message("assistant", model(calls, Request(conversation))), Message("system", note)], calls + 1, fuel - 1)
  {
  }

  // -------------------------------------------------------- system prompt

  /** `json.dumps(value, indent=2)`, which the model takes as given. */
  type Dumps = Value -> string

  /** One tool's lines of the default prompt; the arguments line only for
      a non-empty argument schema. */
  function ToolEntry(tool: Tool, dumps: Dumps): string {
    "- " + tool.name + ": " + tool.description + "\n"
      + (if tool.argsSchema != [] then "  Arguments: " + dumps(SchemaValue(tool.argsSchema)) + "\n" else "")
  }

  /** The entry of each tool, in order. */
  function Entries(tools: seq<Tool>, dumps: Dumps): (r: seq<string>)
    ensures |r| == |tools| && forall k :: 0 <= k < |r| ==> r[k] == ToolEntry(tools[k], dumps)
  {
    seq(|tools|, k requires 0 <= k < |tools| => ToolEntry(tools[k], dumps))
  }

  /** The line that opens the tools part of the default prompt. */
  const ToolsIntro: string := "You have access to the following tools:\n\n"

  /** The fixed instructions that close the default prompt. */
  const Usage: string :=
    "\n\nTo use a tool, use the following format:\nAction: tool_name\nAction Input: {\n"
    + "    \"arg1\": \"value1\",\n    \"arg2\": \"value2\"\n}\n\n"
    + "When you have a final answer, use the following format:\nFinal Answer: your final answer here\n\nBegin!\n"

  /** The first line of the default prompt and the blank line after it. */
  function Greeting(name: string, description: string): string {
    "You are " + name + ", " + description + "\n\n"
  }

  /** The tools part of the default prompt: empty when there are no tools. */
  function ToolsDescription(tools: seq<Tool>, dumps: Dumps): string {
    if tools == [] then "" else ToolsIntro + Concat(Entries(tools, dumps))
  }

  /** The prompt `_default_system_prompt` returns. */
  function DefaultPrompt(name: string, description: string, tools: seq<Tool>, dumps: Dumps): string {
    Greeting(name, description) + ToolsDescription(tools, dumps) + Usage
  }

  /** The default prompt names the co-worker and lists every tool, with its
      description and, when it has any, its arguments. */
  lemma DefaultPromptListsTools(name: string, description: string, tools: seq<Tool>, dumps: Dumps)
    ensures StartsWith(DefaultPrompt(name, description, tools, dumps), "You are " + name + ", " + description)
    ensures tools != [] ==> Contains(DefaultPrompt(name, description, tools, dumps), ToolsIntro)
    ensures forall k :: 0 <= k < |tools| ==> Contains(DefaultPrompt(name, description, tools, dumps), ToolEntry(tools[k], dumps))
  {
    OpensWith("You are " + name + ", " + description, "\n\n", ToolsDescription(tools, dumps), Usage);
    if tools != [] {
      OpensWithin(Greeting(name, description), ToolsIntro, Concat(Entries(tools, dumps)), Usage);
    }
    forall k | 0 <= k < |tools| ensures Contains(DefaultPrompt(name, description, tools, dumps), ToolEntry(tools[k], dumps)) {
      ConcatWithin(Greeting(name, description), ToolsIntro, Entries(tools, dumps), Usage, k);
    }
  }

  /** One turn of `_default_system_prompt`'s loop: the tool's line, then
      its arguments line when its schema is not empty. */
  method Describe(described: string, tool: Tool, dumps: Dumps) returns (r: string)
    ensures r == described + ToolEntry(tool, dumps)
  {
    r := described + "- " + tool.name + ": " + tool.description + "\n";
    if tool.argsSchema != [] {
      r := r + "  Arguments: " + dumps(SchemaValue(tool.argsSchema)) + "\n";
    }
  }

  /** `_default_system_prompt()`: the tools part built entry by entry, then
      the fixed text around it. */
  method DefaultSystemPrompt(name: string, description: string, tools: seq<Tool>, dumps: Dumps) returns (prompt: string)
    ensures prompt == DefaultPrompt(name, description, tools, dumps)
  {
    var described := "";
    if tools != [] {
      described := ToolsIntro;
      var i := 0;
      while i < |tools|
        invariant 0 <= i <= |tools|
        invariant described == ToolsIntro + Concat(Entries(tools[..i], dumps))
      {
        assert Entries(tools[..i + 1], dumps) == Entries(tools[..i], dumps) + [ToolEntry(tools[i], dumps)];
        ConcatAppend(Entries(tools[..i], dumps), ToolEntry(tools[i], dumps));
        Regroup(ToolsIntro, Concat(Entries(tools[..i], dumps)), ToolEntry(tools[i], dumps));
        described := Describe(described, tools[i], dumps);
        i := i + 1;
      }
      assert tools[..|tools|] == tools;
    }
    prompt := Greeting(name, description) + described + Usage;
  }

  // --------------------------------------------------------------- memory

  /** `Memory()` with its defaults. */
  method DefaultMemory(stamp: nat -> string) returns (m: Memory.Memory)
    ensures fresh(m) && m.Valid() && m.items == [] && m.stamp == stamp
    ensures m.maxItems == 100 && m.maxContextLength == 2000 && m.recencyBias == 0.7
  {
    m := new Memory.Memory(100, 2000, 0.7, stamp);
  }

  /** `memory or Memory()` as written. `Memory` defines `__len__` and no
      `__bool__`, so a supplied memory that holds no items is falsy and is
      replaced by a fresh default one. */
  method PickMemoryAsWritten(supplied: Option<Memory.Memory>, stamp: nat -> string) returns (m: Memory.Memory)
    ensures supplied.Some? && supplied.value.items != [] ==> m == supplied.value
    ensures supplied.None? || supplied.value.items == [] ==> fresh(m) && m.Valid() && m.items == [] && m.maxItems == 100 && m.maxContextLength == 2000
  {
    if supplied.Some? && supplied.value.Len() > 0 {
      m := supplied.value;
    } else {
      m := DefaultMemory(stamp);
    }
  }

  /** The memory example's set-up: an empty memory of 10 items and 1000
      characters is passed in, and as written a memory of 100 items and
      2000 characters is used instead. */
  method EmptySuppliedMemoryLost(stamp: nat -> string) returns (supplied: Memory.Memory, used: Memory.Memory)
    ensures supplied.maxItems == 10 && supplied.maxContextLength == 1000
    ensures used != supplied && used.maxItems == 100 && used.maxContextLength == 2000
  {
    supplied := new Memory.Memory(10, 1000, 0.7, stamp);
    used := PickMemoryAsWritten(Some(supplied), stamp);
  }

  /** The evidently intended choice: a supplied memory is always used; a
      default one is made only when none is supplied. */
  method PickMemory(supplied: Option<Memory.Memory>, stamp: nat -> string) returns (m: Memory.Memory)
    ensures supplied.Some? ==> m == supplied.value
    ensures supplied.None? ==> fresh(m) && m.Valid() && m.items == [] && m.maxItems == 100 && m.maxContextLength == 2000
  {
    if supplied.Some? {
      m := supplied.value;
    } else {
      m := DefaultMemory(stamp);
    }
  }

  class VirtualCoworker {
    const name: string
    const description: string
    const systemPrompt: string
    const model: Model
    const parse: Parser
    const memory: Memory.Memory
    var tools: seq<Tool>
    /** How many generation requests this co-worker has made. */
    var calls: nat

    /** `__init__`: no tools means an empty list, the supplied memory is
        kept (see `PickMemory`), and a missing or empty system prompt is
        replaced by the default one. */
    constructor(name: string, description: string, systemPrompt: Option<string>, model: Model, parse: Parser,
                tools: Option<seq<Tool>>, memory: Option<Memory.Memory>, stamp: nat -> string, dumps: Dumps)
      ensures this.name == name && this.description == description && this.model == model && this.parse == parse
      ensures this.systemPrompt == if systemPrompt.None? || systemPrompt.value == "" then DefaultPrompt(name, description, tools.GetOr([]), dumps)
                                   else systemPrompt.value
      ensures this.tools == tools.GetOr([]) && calls == 0
      ensures memory.Some? ==> this.memory == memory.value
      ensures memory.None? ==> fresh(this.memory) && this.memory.Valid() && this.memory.items == []
    {
      var m := PickMemory(memory, stamp);
      var prompt;
      if systemPrompt.None? || systemPrompt.value == "" {
        prompt := DefaultSystemPrompt(name, description, tools.GetOr([]), dumps);
      } else {
        prompt := systemPrompt.value;
      }
      this.name := name;
      this.description := description;
      this.systemPrompt := prompt;
      this.model := model;
      this.parse := parse;
      this.memory := m;
      this.tools := tools.GetOr([]);
      calls := 0;
    }

    /** `think(conversation)`: render the conversation and ask the model. */
    method Think(conversation: seq<Message>) returns (response: string)
      modifies this
      ensures response == model(old(calls), Request(conversation))
      ensures calls == old(calls) + 1 && tools == old(tools)
    {
      var input := RenderPrompt(conversation);
      response := model(calls, GenerateRequest(input, 1024, 0.7, 0.9, 40, 1.1));
      calls := calls + 1;
    }

    /** `_find_tool(name)`: the first tool whose name matches ignoring case. */
    method FindTool(toolName: string) returns (tool: Option<Tool>)
      ensures tool == Found(tools, toolName)
    {
      var i := 0;
      while i < |tools|
        invariant 0 <= i <= |tools|
        invariant forall k :: 0 <= k < i ==> Lower(tools[k].name) != Lower(toolName)
      {
        if Lower(tools[i].name) == Lower(toolName) {
          assert FirstNamed(tools, toolName) == Some(i);
          return Some(tools[i]);
        }
        i := i + 1;
      }
      return None;
    }

    /** `add_tool(tool)`: append at the end. */
    method AddTool(tool: Tool)
      modifies this
      ensures tools == old(tools) + [tool] && calls == old(calls)
    {
      tools := tools + [tool];
    }

    /** `remove_tool(name)`: drop the first tool whose name matches ignoring
        case; report whether there was one. */
    method RemoveTool(toolName: string) returns (removed: bool)
      modifies this
      ensures removed <==> FirstNamed(old(tools), toolName).Some?
      ensures removed ==> var k := FirstNamed(old(tools), toolName).value; tools == old(tools)[..k] + old(tools)[k + 1..]
      ensures !removed ==> tools == old(tools)
      ensures calls == old(calls)
    {
      var i := 0;
      while i < |tools|
        invariant 0 <= i <= |tools|
        invariant forall k :: 0 <= k < i ==> Lower(tools[k].name) != Lower(toolName)
      {
        if Lower(tools[i].name) == Lower(toolName) {
          assert FirstNamed(tools, toolName) == Some(i);
          tools := tools[..i] + tools[i + 1..];
          return true;
        }
        i := i + 1;
      }
      return false;
    }

    /** The reaction of `run` to one response, through the helpers above. */
    method Respond(response: string) returns (reaction: Reaction)
      ensures reaction == React(tools, parse, response)
    {
      var toolName := ExtractToolName(response);
      if toolName != "" {
        var input := ToolInput(response, parse);
        var tool := FindTool(toolName);
        if tool.Some? {
          var outcome := Call(tool.value, input);
          match outcome {
            case Returned(v) => reaction := Reply("Tool result: " + v);
            case Raised(e) => reaction := Reply("Error: " + e);
          }
        } else {
          reaction := Reply("Error: Tool '" + toolName + "' not found. Available tools: " + Join(Names(tools, NameOf), ", "));
        }
      } else if Contains(response, AnswerMarker) {
        reaction := Finish(FinalAnswer(response));
      } else {
        reaction := Reply(Reminder);
      }
    }

    /** `run(task)`: at most `MaxIterations` model calls; a final answer is
        recorded in memory once and returned, otherwise the apology. */
    method Run(task: string) returns (answer: string)
      requires memory.Valid()
      modifies this, memory
      ensures memory.Valid() && tools == old(tools)
      ensures var context := Memory.Context(old(memory.items), memory.stamp, memory.maxItems, memory.maxContextLength);
              var out := Iterate(tools, model, parse, Initial(systemPrompt, task, context), old(calls));
              && calls == out.calls
              && (out.Answered? ==>
                    && answer == out.answer
                    && memory.items == Memory.Trim(old(memory.items) + [Memory.Item("Task: " + task + "\nAnswer: " + out.answer, old(memory.clock), [])], memory.maxItems))
              && (out.Exhausted? ==> answer == Apology && memory.items == old(memory.items))
    {
      var context := memory.GetContext(None);
      var conversation := [Message("system", systemPrompt), Message("user", task)];
      if context != "" {
        conversation := [conversation[0], Message("system", "Context from memory:\n\n" + context), conversation[1]];
      }
      ghost var react := Reacting(tools, parse);
      ghost var goal := Loop(react, model, conversation, calls, MaxIterations);
      var i := 0;
      while i < MaxIterations
        invariant 0 <= i <= MaxIterations
        invariant tools == old(tools) && memory.items == old(memory.items) && memory.clock == old(memory.clock)
        invariant Loop(react, model, conversation, calls, MaxIterations - i) == goal
      {
        var response := Think(conversation);
        var reaction := Respond(response);
        assert react(response) == reaction;
        match reaction {
          case Finish(finalAnswer) =>
            memory.Add("Task: " + task + "\nAnswer: " + finalAnswer, None);
            return finalAnswer;
          case Reply(note) =>
            conversation := conversation + [Message("assistant", response), Message("system", note)];
        }
        i := i + 1;
      }
      return Apology;
    }
  }
}
