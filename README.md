# BitNet virtual co-workers and teams, in Dafny

A Dafny model of the sequential logic of the BitNet LLM Virtual Coworker
Builder, with proofs about it. The model covers:

- **The virtual co-worker** (`BitNetVirtualCoworker`). It runs a task
  through a bounded loop of at most ten model calls. Each response becomes
  a tool call, a final answer or a format reminder. It also renders a
  conversation into a prompt and extracts the tool name, tool input and
  final answer from a response. Its tool list can be searched, added to
  and removed from case-insensitively.
- **Tools.** Arguments are checked against a schema before the wrapped
  function runs: required arguments first, then declared types.
- **The memory buffer** (`Memory`). Items are appended and trimmed to the
  newest `max_items`. The context string is assembled newest first within
  `max_context_length` characters.
- **The categorised memory** (`CategorizedMemory`). It keeps one list per
  category, falls back to `"general"` for an unknown category, and builds
  its context by cutting whichever item overflows.
- **Dotted-path configuration access** (`get_config_value`,
  `set_config_value`).
- **The team** (`BitNetTeam`). This covers:
  - the roster list, the name index and the performance map, which must
    stay in step;
  - the task registry with its monotone identifiers and its priority queue;
  - the per-agent counters and their running mean time. While tracking is
    on, a run that looks up the counters of an agent that has none (an
    agent left behind by removing a duplicate name) raises `KeyError`;
  - the sequential, hierarchical and consensus strategies;
  - the parallel strategy, as a sequential scheduler of its plan steps.

The language model, the tool functions, the agents' own runs and
`json.loads` are oracles, passed in as functions:

- The model is a function of a call counter and the generation request.
- An agent's run either returns text with an elapsed time, or raises.
- A plan or argument parser is a partial function from text.

Wall-clock timestamps are a logical clock that grows by one with every
insertion.

Python dictionaries are ordered association lists (`Values.Dict`), because
their insertion order decides which validation error is reported first.

Modules, one per source file:

- `Text`: the Python `str` operations the source uses;
- `Values`: JSON-like values and ordered dicts;
- `Tools`: `tools/base_tools.py`;
- `Memory`: `memory/memory.py`;
- `CategorizedMemory`: `examples/custom_memory.py`;
- `Config`: `config/config_loader.py`;
- `Coworker`: `core/virtual_coworker.py`;
- `Collaboration`: the strategies of `core/team.py`, as functions;
- `Team`: the `BitNetTeam` class.

Where the code and its tests disagree, the model follows the code:

- `get_context` lists items newest first, while tests/test_memory.py:67-87
  expects them oldest first.
- With a 100-character limit not all five items of that test fit.
- `max_items = 0` keeps every item, because `items[-0:]` is the whole
  list. `Memory.TrimZeroKeepsAll` states this.

## Model

| member | source | states |
|---|---|---|
| Coworker.PromptAppend | src/bitnet_vc_builder/core/virtual_coworker.py:173-182 | each message adds its role line to the prompt in conversation order, before the trailing `"Assistant: "` |
| Coworker.Prompt | src/bitnet_vc_builder/core/virtual_coworker.py:173-182 | the model input: each message's role line in order, then `Assistant: ` (`PromptAppend`, `PromptSkipsOtherRoles`, `PromptOfThree`); `RenderPrompt` is proved equal to it |
| Coworker.PromptSkipsOtherRoles | src/bitnet_vc_builder/core/virtual_coworker.py:174-180 | a message whose role is not system, user or assistant adds nothing to the prompt |
| Coworker.PromptOfThree | src/bitnet_vc_builder/core/virtual_coworker.py:173-182 | the exact prompt of a system, user and assistant message: `"System: s\n\nUser: u\n\nAssistant: a\n\nAssistant: "` |
| Coworker.Request | src/bitnet_vc_builder/core/virtual_coworker.py:185-192 | the generation request carries the rendered prompt, 1024 tokens, temperature 0.7, top-p 0.9, top-k 40 and repetition penalty 1.1 |
| Coworker.RenderPrompt | src/bitnet_vc_builder/core/virtual_coworker.py:173-182 | the accumulating loop yields exactly the prompt of the conversation |
| Coworker.FirstActionLine | src/bitnet_vc_builder/core/virtual_coworker.py:206-208 | finds the first line starting with `Action:`: that line does, every earlier line does not, and no line does when none is found |
| Coworker.ToolName | src/bitnet_vc_builder/core/virtual_coworker.py:206-210 | with no line starting with `Action:` the tool name is empty |
| Coworker.ExtractToolName | src/bitnet_vc_builder/core/virtual_coworker.py:206-210 | the loop over the lines returns the tool name of the response |
| Coworker.ToolNameOfFirstLine | src/bitnet_vc_builder/core/virtual_coworker.py:206-210 | `"Action: <name>\n..."` yields `<name>` for a trimmed single-line name |
| Coworker.ActionLineFirst | src/bitnet_vc_builder/core/virtual_coworker.py:207-209 | when the first line is an action line, the name is that line with every `Action:` removed, stripped |
| Coworker.InputText | src/bitnet_vc_builder/core/virtual_coworker.py:223-227 | there is input text exactly when the response contains `Action Input:` |
| Coworker.ToolInput | src/bitnet_vc_builder/core/virtual_coworker.py:223-241 | no `Action Input:`, or input text without `{` or without `}`, gives `{}` |
| Coworker.ToolInputWhole | src/bitnet_vc_builder/core/virtual_coworker.py:232-239 | input text that is one braced object is handed whole to the parser, and a failed parse gives `{}` |
| Coworker.FinalAnswer | src/bitnet_vc_builder/core/virtual_coworker.py:253-259 | without the marker the response is returned unchanged; otherwise the stripped text between the first and the second `Final Answer:` |
| Coworker.FinalAnswerAfter | src/bitnet_vc_builder/core/virtual_coworker.py:256-258 | the answer after a single marker is that text, stripped |
| Coworker.FirstNamed | src/bitnet_vc_builder/core/virtual_coworker.py:271-274 | the first tool whose lower-cased name equals the lower-cased request; no earlier tool matches, and none matches when nothing is found |
| Coworker.Classify | src/bitnet_vc_builder/core/virtual_coworker.py:118-157 | a non-empty tool name wins; otherwise `Final Answer:` gives the extracted answer; otherwise the reminder |
| Coworker.React | src/bitnet_vc_builder/core/virtual_coworker.py:118-157 | the reaction to one response: a tool call is answered with tool feedback, never as an answer (`ToolCallReaction`); a final answer finishes (`AnswerAtOnce`); `Coworker.VirtualCoworker.Respond` is proved equal to it |
| Coworker.Initial | src/bitnet_vc_builder/core/virtual_coworker.py:100-108 | the conversation starts with the system prompt and ends with the task, with the memory context between them only when it is non-empty |
| Coworker.Loop | src/bitnet_vc_builder/core/virtual_coworker.py:111-160 | the iteration loop: at most ten calls and at least one (`LoopCounts`), every appended pair the response to the conversation so far (`LoopTurns`), an answer returned at once (`LoopAnswers`), a reply appended and the loop continued (`LoopReplies`) |
| Coworker.Iterate | src/bitnet_vc_builder/core/virtual_coworker.py:87-160 | a whole run from a conversation: an immediate answer after one call (`RunAnswersAtOnce`), a tool call then an answer after two (`RunToolThenAnswer`); `Coworker.VirtualCoworker.Run` is proved to run it |
| Coworker.LoopCounts | src/bitnet_vc_builder/core/virtual_coworker.py:111-160 | the loop makes at least one and at most ten model calls; it only extends the conversation, two messages per unfinished turn; when exhausted it has made all ten calls |
| Coworker.LoopTurns | src/bitnet_vc_builder/core/virtual_coworker.py:113-157 | every appended pair is the model's response to the conversation so far, followed by one system message |
| Coworker.TurnsExtend | src/bitnet_vc_builder/core/virtual_coworker.py:133-157 | a turn's pair followed by well-formed later turns is well-formed from the earlier point |
| Coworker.TurnShift | src/bitnet_vc_builder/core/virtual_coworker.py:113-157 | turn `j` counted from two messages later is turn `j + 1` from the earlier start |
| Coworker.FirstTurn | src/bitnet_vc_builder/core/virtual_coworker.py:115-157 | the first appended pair is the response to the conversation as it stood |
| Coworker.AnswerAtOnce | src/bitnet_vc_builder/core/virtual_coworker.py:145-152 | a one-line response with a final answer and no action line finishes with the stripped answer |
| Coworker.NoActionInOneLine | src/bitnet_vc_builder/core/virtual_coworker.py:206-210 | a single line that does not start with `Action:` names no tool |
| Coworker.ToolCallReaction | src/bitnet_vc_builder/core/virtual_coworker.py:120-142 | an action line is answered with the tool feedback, never as a final answer |
| Coworker.RunAnswersAtOnce | src/bitnet_vc_builder/core/virtual_coworker.py:113-152 | an immediate final answer ends the run after one model call with the conversation unchanged |
| Coworker.RunToolThenAnswer | src/bitnet_vc_builder/core/virtual_coworker.py:113-152 | a tool call followed by a final answer takes exactly two model calls and appends exactly the response and the tool feedback |
| Coworker.LoopAnswers | src/bitnet_vc_builder/core/virtual_coworker.py:145-152 | a finishing reaction returns at once after one more call |
| Coworker.LoopReplies | src/bitnet_vc_builder/core/virtual_coworker.py:120-157 | a replying reaction appends the response and its note and continues with one fewer iteration |
| Coworker.DefaultMemory | src/bitnet_vc_builder/memory/memory.py:19-36 | `Memory()` is empty, with 100 items, 2000 characters and recency bias 0.7 |
| Coworker.PickMemoryAsWritten | src/bitnet_vc_builder/core/virtual_coworker.py:46 | as written, a supplied memory is kept only when it holds items; otherwise a fresh default memory is used |
| Coworker.EmptySuppliedMemoryLost | examples/memory_example.py:64-77 | the example's empty 10-item, 1000-character memory is replaced by a different 100-item, 2000-character one |
| Coworker.PickMemory | src/bitnet_vc_builder/core/virtual_coworker.py:46 | a supplied memory is always used; a fresh default one only when none is supplied |
| Coworker.Entries | src/bitnet_vc_builder/core/virtual_coworker.py:65-68 | one prompt entry per tool, in tool order |
| Coworker.DefaultPrompt | src/bitnet_vc_builder/core/virtual_coworker.py:55-85 | `_default_system_prompt`: starts with the name and description, holds the tools introduction when there are tools and every tool's entry (`DefaultPromptListsTools`); `DefaultSystemPrompt` is proved equal to it |
| Coworker.DefaultPromptListsTools | src/bitnet_vc_builder/core/virtual_coworker.py:55-85 | the default prompt starts by naming the co-worker and its description, has the tools introduction when there are tools, and holds every tool's entry |
| Coworker.Describe | src/bitnet_vc_builder/core/virtual_coworker.py:66-68 | one loop turn adds the tool's line and, for a non-empty argument schema, its arguments line |
| Coworker.DefaultSystemPrompt | src/bitnet_vc_builder/core/virtual_coworker.py:55-85 | the loop builds exactly the default prompt |
| Coworker.VirtualCoworker.constructor | src/bitnet_vc_builder/core/virtual_coworker.py:24-53 | no tools means an empty list; the supplied memory is kept; a missing or empty system prompt is replaced by the default prompt built from the name, the description and the tools |
| Coworker.VirtualCoworker.Think | src/bitnet_vc_builder/core/virtual_coworker.py:162-194 | one model call on the rendered request; the tools are unchanged |
| Coworker.VirtualCoworker.FindTool | src/bitnet_vc_builder/core/virtual_coworker.py:261-274 | returns the first case-insensitive match, or none |
| Coworker.VirtualCoworker.AddTool | src/bitnet_vc_builder/core/virtual_coworker.py:276-283 | the tool is appended at the end |
| Coworker.VirtualCoworker.RemoveTool | src/bitnet_vc_builder/core/virtual_coworker.py:285-299 | true exactly when some tool matches; then only the first match is removed; otherwise the list is unchanged |
| Coworker.VirtualCoworker.Respond | src/bitnet_vc_builder/core/virtual_coworker.py:118-157 | one response becomes a finish or a feedback note as the loop body decides |
| Coworker.VirtualCoworker.Run | src/bitnet_vc_builder/core/virtual_coworker.py:87-160 | runs from the initial conversation with the memory context; on an answer, exactly one `Task: ...\nAnswer: ...` item is added to memory; when ten turns pass without one, the apology is returned and memory is unchanged |
| Tools.TypeError | src/bitnet_vc_builder/tools/base_tools.py:85-94 | an error message exactly when the value does not conform to the declared type (a bool counts as a number) |
| Tools.FirstMissing | src/bitnet_vc_builder/tools/base_tools.py:75-77 | the first required schema entry missing from the arguments, or none exactly when all required ones are present |
| Tools.FirstMistyped | src/bitnet_vc_builder/tools/base_tools.py:80-94 | the first argument, in argument order, of the wrong declared type, or none exactly when all are well typed |
| Tools.Validate | src/bitnet_vc_builder/tools/base_tools.py:61-94 | `_validate_args`: accepts iff the schema is empty or every required argument is present and every declared one well typed (`ValidateAccepts`); ignores undeclared arguments (`UndeclaredIgnored`) |
| Tools.Call | src/bitnet_vc_builder/tools/base_tools.py:52-59 | `__call__`: valid arguments run the function once and return its result (`AcceptedCallsFunction`); a missing or mistyped argument raises before the function is consulted (`MissingRequiredRaises`, `MistypedRaises`) |
| Tools.ValidateAccepts | src/bitnet_vc_builder/tools/base_tools.py:61-94 | validation passes iff the schema is empty or every required argument is present and every declared one is well typed |
| Tools.AcceptedCallsFunction | src/bitnet_vc_builder/tools/base_tools.py:52-59 | valid arguments call the function once and return its result unchanged |
| Tools.MissingRequiredRaises | src/bitnet_vc_builder/tools/base_tools.py:75-77 | a missing required argument raises `Missing required argument: <first missing>` and the function's behaviour is irrelevant |
| Tools.MistypedRaises | src/bitnet_vc_builder/tools/base_tools.py:80-94 | with required arguments present, a mistyped argument raises the first type error, and the function is not consulted |
| Tools.Declared | src/bitnet_vc_builder/tools/base_tools.py:81 | only arguments named in the schema take part in type checks |
| Tools.DeclaredKeys | src/bitnet_vc_builder/tools/base_tools.py:75-77 | dropping undeclared arguments keeps every declared one |
| Tools.DeclaredMistyped | src/bitnet_vc_builder/tools/base_tools.py:80-94 | undeclared arguments never change which argument is mistyped |
| Tools.ShiftedEntry | src/bitnet_vc_builder/tools/base_tools.py:80-94 | a well-typed first argument does not change the first mistyped one |
| Tools.UndeclaredIgnored | src/bitnet_vc_builder/tools/base_tools.py:80-94 | validation gives the same verdict with or without undeclared arguments |
| Tools.FirstMissingSameKeys | src/bitnet_vc_builder/tools/base_tools.py:75-77 | the missing-argument check depends only on which declared names are present |
| Tools.SchemaValue | src/bitnet_vc_builder/tools/base_tools.py:106 | the schema as a value lists every entry in order |
| Tools.GetSchema | src/bitnet_vc_builder/tools/base_tools.py:96-107 | exactly three keys: the name, the description and the argument schema |
| Memory.Trim | src/bitnet_vc_builder/memory/memory.py:57-58 | trimming keeps a suffix of the items |
| Memory.TrimKeepsNewest | src/bitnet_vc_builder/memory/memory.py:57-58 | for a positive `max_items`, the newest `min(len, max_items)` items remain |
| Memory.TrimZeroKeepsAll | src/bitnet_vc_builder/memory/memory.py:57-58 | `max_items = 0` keeps every item, since `items[-0:]` is the whole list |
| Memory.TrimNegativeDropsOldest | src/bitnet_vc_builder/memory/memory.py:57-58 | a negative `max_items` drops that many of the oldest items |
| Memory.TrimKeepsLast | src/bitnet_vc_builder/memory/memory.py:54-58 | the item just added survives trimming |
| Memory.AppendIncreasing | src/bitnet_vc_builder/memory/memory.py:47-54 | appending a newer item keeps timestamps increasing |
| Memory.SuffixInOrder | src/bitnet_vc_builder/memory/memory.py:57-58 | any suffix of increasing items stays increasing and below the clock |
| Memory.AppendInOrder | src/bitnet_vc_builder/memory/memory.py:47-58 | append then trim keeps the items in insertion order with timestamps below the clock |
| Memory.Newest | src/bitnet_vc_builder/memory/memory.py:113-114 | the newest `min(n, len)` items, newest first |
| Memory.NewestFirst | src/bitnet_vc_builder/memory/memory.py:114 | the candidates are in strictly decreasing timestamp order |
| Memory.Texts | src/bitnet_vc_builder/memory/memory.py:85 | one non-empty `[stamp] content\n\n` text per item |
| Memory.Fits | src/bitnet_vc_builder/memory/memory.py:84-97 | the longest prefix of texts whose total stays within the budget |
| Memory.Assemble | src/bitnet_vc_builder/memory/memory.py:84-97 | the context loop: the whole texts that fit (`AssembleFrom`), or a lone overflowing first text cut to `max_context_length - 3` plus `...` (`AssembleShape`), never over the limit (`AssembleBound`); `BuildContext` is proved equal to it |
| Memory.AssembleFrom | src/bitnet_vc_builder/memory/memory.py:84-97 | once something has been added, the loop adds whole texts while they fit and then stops |
| Memory.AssembleShape | src/bitnet_vc_builder/memory/memory.py:84-97 | an overflowing first text is cut to `max_context_length - 3` characters plus `...`; otherwise the whole texts that fit |
| Memory.BuildContext | src/bitnet_vc_builder/memory/memory.py:81-97 | the loop with its break yields exactly the assembled context |
| Memory.AssembleTurn | src/bitnet_vc_builder/memory/memory.py:88-97 | one loop step: stop (truncating only a first item) or append and continue |
| Memory.AssembleStep | src/bitnet_vc_builder/memory/memory.py:88-97 | the unfolding of one step of the context loop |
| Memory.AssembleBound | src/bitnet_vc_builder/memory/memory.py:84-97 | for `max_context_length >= 3` the assembled text is at most that long |
| Memory.LimitOr | src/bitnet_vc_builder/memory/memory.py:75 | `max_items or self.max_items`: the given limit unless it is absent or zero |
| Memory.Context | src/bitnet_vc_builder/memory/memory.py:60-99 | `get_context()` without a query: empty memory gives `""`, otherwise the newest items assembled and stripped, never over `max_context_length` (`ContextBound`); `Memory.Memory.GetContext` is proved equal to it |
| Memory.ContextBound | src/bitnet_vc_builder/memory/memory.py:60-99 | the stripped context is at most `max_context_length` long when that is at least 3 |
| Memory.Memory.constructor | src/bitnet_vc_builder/memory/memory.py:19-36 | an empty memory with the given limits |
| Memory.Memory.Add | src/bitnet_vc_builder/memory/memory.py:38-58 | the item (metadata `{}` by default) is appended and the list trimmed; the new item is last; timestamps stay increasing |
| Memory.Memory.GetContext | src/bitnet_vc_builder/memory/memory.py:60-99 | empty memory gives `""`; otherwise the newest items assembled and stripped, never over the limit |
| Memory.Memory.Clear | src/bitnet_vc_builder/memory/memory.py:156-160 | no items remain |
| Memory.Memory.Len | src/bitnet_vc_builder/memory/memory.py:195-202 | the number of items |
| Memory.Memory.GetStats | src/bitnet_vc_builder/memory/memory.py:179-193 | the total equals the length; the oldest and newest stamps are those of the first and last items, and absent exactly when empty |
| CategorizedMemory.EmptyLists | examples/custom_memory.py:159 | one empty list per category, keys unique |
| CategorizedMemory.EmptyShaped | examples/custom_memory.py:158-159 | the fresh lists satisfy the per-category invariant |
| CategorizedMemory.AppendStamped | examples/custom_memory.py:178-183 | append then trim keeps insertion order and the `max_items` bound |
| CategorizedMemory.StampedSuffix | examples/custom_memory.py:182-183 | a suffix of an ordered list stays ordered |
| CategorizedMemory.ShapedLater | examples/custom_memory.py:161-198 | the per-category invariant survives the clock moving on |
| CategorizedMemory.FiledKeepsShape | examples/custom_memory.py:186-198 | filing an item in one list keeps every list ordered and within `max_items` |
| CategorizedMemory.Target | examples/custom_memory.py:185-198 | the list an item is filed under: its category when known, else `general`; `CategorizedMemory.CategorizedMemory.FileUnder` files by it and raises `KeyError` when `general` is missing |
| CategorizedMemory.Fill | examples/custom_memory.py:254-270 | the context loop: exactly the first `max_length` characters of the texts, nothing for a negative limit (`FillIsPrefix`), never longer than the limit (`FillBound`); `BuildContext` is proved equal to it |
| CategorizedMemory.FillIsPrefix | examples/custom_memory.py:254-270 | the context loop yields exactly the first `max_length` characters of all texts (nothing for a negative limit) |
| CategorizedMemory.FillBound | examples/custom_memory.py:254-270 | the built context never exceeds `max_length` |
| CategorizedMemory.EntryTexts | examples/custom_memory.py:258 | one `[category] content\n\n` text per entry |
| CategorizedMemory.BuildContext | examples/custom_memory.py:254-270 | the loop with its break yields exactly the filled context |
| CategorizedMemory.FillTurn | examples/custom_memory.py:261-270 | one loop step: the overflowing text is cut to the space left and the loop stops, or the whole text is added |
| CategorizedMemory.Context | examples/custom_memory.py:200-272 | `get_context()` without a query: the newest entries, newest first (`NewestFirst`), filled into `max_length` characters and stripped; `CategorizedMemory.CategorizedMemory.GetContext` is proved equal to it |
| CategorizedMemory.Counts | examples/custom_memory.py:290 | one count per list, in list order |
| CategorizedMemory.CountsAgree | examples/custom_memory.py:290 | a category has a count iff it has a list, and the count is that list's length |
| CategorizedMemory.CategorizedMemory.constructor | examples/custom_memory.py:136-159 | no or empty categories give the four defaults; every category list starts empty |
| CategorizedMemory.CategorizedMemory.Add | examples/custom_memory.py:161-198 | the entry is appended to all items and to its category's list, or to "general" for an unknown category; both are trimmed; with no "general" list a `KeyError` is raised after all items changed |
| CategorizedMemory.CategorizedMemory.Append | examples/custom_memory.py:179-183 | append then trim, keeping order and the bound |
| CategorizedMemory.CategorizedMemory.FileUnder | examples/custom_memory.py:185-198 | the entry is filed under its category, or under "general" for an unknown one, keeping the invariant; with no "general" list a `KeyError` is raised and no list changes |
| CategorizedMemory.CategorizedMemory.File | examples/custom_memory.py:186-198 | the entry is filed in exactly one list, keeping the invariant |
| CategorizedMemory.CategorizedMemory.GetContext | examples/custom_memory.py:200-272 | draws from a known category's list, else from all items; the newest `max_items`, newest first; never longer than `max_length` |
| CategorizedMemory.NewestFirst | examples/custom_memory.py:245-250 | the items `get_context` draws are the newest ones, in strictly decreasing timestamp order, as sorting by timestamp newest first gives |
| CategorizedMemory.CategorizedMemory.CategoryStats | examples/custom_memory.py:283-290 | every category, and only those, mapped to its list's length |
| CategorizedMemory.CategorizedMemory.Clear | examples/custom_memory.py:292-297 | no items remain and every category list is empty, so every count is 0 |
| Config.Segments | src/bitnet_vc_builder/config/config_loader.py:82 | a key splits into at least one segment |
| Config.GetPath | src/bitnet_vc_builder/config/config_loader.py:82-93 | the walk down the segments: the value reached, or the default at the first step that meets a non-map or a missing key; proved about by `GetThroughLeaf`, `GetPathFirst` and `GetSetPath` |
| Config.GetConfigValue | src/bitnet_vc_builder/config/config_loader.py:69-93 | `get_config_value`: a plain key is a lookup with the default (`GetPlainKey`); reading a key after `SetConfigValue` gives the value set (`GetAfterSet`) |
| Config.SetConfigValue | src/bitnet_vc_builder/config/config_loader.py:95-127 | `set_config_value`: the key then reads as the value set (`GetAfterSet`), every key off its path reads as before (`SetKeepsOtherKeys`), and a non-map intermediate becomes a map holding only the leaf (`SetReplacesLeaf`) |
| Config.SetPath | src/bitnet_vc_builder/config/config_loader.py:116-125 | the walk that writes: the first segment is a key of the result; reading the written path gives the value (`GetSetPath`) and every path leaving it reads as before (`SetKeepsOtherKey`, `SetKeepsDivergent`) |
| Config.GetPlainKey | src/bitnet_vc_builder/config/config_loader.py:82-93 | a key without dots is a plain lookup with the default |
| Config.GetThroughLeaf | src/bitnet_vc_builder/config/config_loader.py:88-91 | walking into a value that is not a map gives the default |
| Config.GetSetPath | src/bitnet_vc_builder/config/config_loader.py:116-125 | getting the path just set yields the value set |
| Config.GetAfterSet | src/bitnet_vc_builder/config/config_loader.py:69-127 | round trip: reading a key after setting it gives the value set, for every key |
| Config.GetPathFirst | src/bitnet_vc_builder/config/config_loader.py:87-91 | the walk descends through the first segment or gives the default |
| Config.SetKeepsOtherKey | src/bitnet_vc_builder/config/config_loader.py:111-113 | a path whose first segment differs from the key's reads the same after the set |
| Config.SetKeepsDivergent | src/bitnet_vc_builder/config/config_loader.py:116-125 | every path that leaves the set key's path reads the same after the set |
| Config.SetKeepsOtherKeys | src/bitnet_vc_builder/config/config_loader.py:95-127 | entries not on the key's path are unchanged |
| Config.SetReplacesLeaf | src/bitnet_vc_builder/config/config_loader.py:119-120 | a non-map intermediate is replaced by a new map holding only the leaf |
| Text.Names | src/bitnet_vc_builder/core/team.py:412 | the names of the given entities, one per entity, in order (also the tool names of the not-found message, virtual_coworker.py:142) |
| Collaboration.Others | src/bitnet_vc_builder/core/team.py:359-362 | the roster without the coordinator, order kept |
| Collaboration.Record | src/bitnet_vc_builder/core/team.py:374-387 | one counter update: a success adds one completion and keeps `avg_time` the running mean (`RunningMean`, `MeanOfSuccesses`), a credit adds a completion without a time (`CreditDilutesMean`), a failure adds one failure; `Apply` applies it to the named agent only |
| Collaboration.OthersWithout | src/bitnet_vc_builder/core/team.py:359-362 | a coordinator outside the roster removes nobody |
| Collaboration.OthersOfUnique | src/bitnet_vc_builder/core/team.py:359-362 | with unique names exactly one roster entry is skipped |
| Collaboration.Apply | src/bitnet_vc_builder/core/team.py:353-387 | an event changes exactly its agent's entry, by `Record`, keeps every other entry and the set of tracked agents, and changes nothing for a name without counters |
| Collaboration.FirstRaise | src/bitnet_vc_builder/core/team.py:355-387 | the first turn whose counter lookup raises `KeyError`, with no raising turn before it; none exactly when no turn raises |
| Collaboration.RelayMisses | src/bitnet_vc_builder/core/team.py:359-387 | one flag per roster entry: set exactly for an agent other than the coordinator that has no counters |
| Collaboration.DelegateMisses | src/bitnet_vc_builder/core/team.py:596-630 | one flag per plan step: set exactly for a known agent that has no counters |
| Collaboration.PollMisses | src/bitnet_vc_builder/core/team.py:673-697 | one flag per roster agent: set exactly when it has no counters |
| Collaboration.KeyErrorShown | src/bitnet_vc_builder/core/team.py:486-513 | a step of an agent without counters leaves `Error: '<name>'` in its slot when the agent answered, and `Error: <message>` when it raised |
| Collaboration.Tally | src/bitnet_vc_builder/core/team.py:353-387 | updates keep the set of tracked agents |
| Collaboration.TallyAppend | src/bitnet_vc_builder/core/team.py:353-387 | counters are updated one event at a time, in order |
| Collaboration.TallyOne | src/bitnet_vc_builder/core/team.py:353-387 | a single event is a single update |
| Collaboration.TallyConcat | src/bitnet_vc_builder/core/team.py:353-387 | updating for two runs in turn is updating for both |
| Collaboration.TallyCounts | src/bitnet_vc_builder/core/team.py:374-387 | an agent's completed and failed counts grow by its successes and failures |
| Collaboration.TallyOthers | src/bitnet_vc_builder/core/team.py:374-387 | an agent with no events keeps its counters |
| Collaboration.RunningMean | src/bitnet_vc_builder/core/team.py:376-379 | `avg_time * n` grows by exactly the new time |
| Collaboration.MeanOfSuccesses | src/bitnet_vc_builder/core/team.py:376-379 | from fresh counters, `avg_time` is the mean of the recorded times |
| Collaboration.CreditDilutesMean | src/bitnet_vc_builder/core/team.py:353-379 | a coordinator credit followed by a success of time `t` leaves `avg_time = t / 2` |
| Collaboration.Relay | src/bitnet_vc_builder/core/team.py:359-387 | one call, one event and one output per agent after the coordinator |
| Collaboration.RelayNext | src/bitnet_vc_builder/core/team.py:365-387 | the next agent gets the task with the previous result |
| Collaboration.RelayTurn | src/bitnet_vc_builder/core/team.py:359-387 | the coordinator is skipped; any other roster entry takes one turn |
| Collaboration.RelayShape | src/bitnet_vc_builder/core/team.py:359-389 | the result is the last successful output; each agent is recorded once, as a success iff it answered |
| Collaboration.RelayAllFail | src/bitnet_vc_builder/core/team.py:380-389 | when every later agent fails, the coordinator's result is returned |
| Collaboration.RelayLastAnswers | src/bitnet_vc_builder/core/team.py:370-389 | when the last agent answers, its answer is the result |
| Collaboration.ExtractPlan | src/bitnet_vc_builder/core/team.py:436-449 | no `[` or no `]` gives the could-not-create message; a failed parse gives the could-not-parse message |
| Collaboration.PlanAmidText | src/bitnet_vc_builder/core/team.py:438-446 | the text from the first `[` to the last `]` is what is parsed |
| Collaboration.Subtasks | src/bitnet_vc_builder/core/team.py:638 | the plan's subtasks in order |
| Collaboration.Delegate | src/bitnet_vc_builder/core/team.py:594-630 | exactly one result per plan step; one call per event |
| Collaboration.DelegateNext | src/bitnet_vc_builder/core/team.py:596-630 | an unknown agent gives the not-found text with no call; a known one is run on its subtask |
| Collaboration.DelegateShape | src/bitnet_vc_builder/core/team.py:596-630 | unknown agents get the not-found text, events name only known agents, and there are no more events than steps |
| Collaboration.Consult | src/bitnet_vc_builder/core/team.py:671-697 | one call and one event per roster agent |
| Collaboration.ConsultNext | src/bitnet_vc_builder/core/team.py:673-697 | the next roster agent is run on the unchanged task |
| Collaboration.HeardNew | src/bitnet_vc_builder/core/team.py:676-691 | a new name's text, or `Error: <message>`, is appended to the responses |
| Collaboration.ConsultShape | src/bitnet_vc_builder/core/team.py:671-697 | with unique names, each agent's text or `Error: <message>` is listed in roster order |
| Collaboration.ConsultAppends | src/bitnet_vc_builder/core/team.py:673-697 | the last agent's answer is appended after all earlier ones |
| Collaboration.ListedStep | src/bitnet_vc_builder/core/team.py:673-697 | one more agent keeps the responses in roster order |
| Collaboration.Blank | src/bitnet_vc_builder/core/team.py:452 | no step starts with a result |
| Collaboration.DependencyNext | src/bitnet_vc_builder/core/team.py:469-472 | each finished dependency adds one `Result from step` line, in order |
| Collaboration.Attempt | src/bitnet_vc_builder/core/team.py:456-513 | running a step keeps one result slot per step; an agent without counters gets `KeyErrorShown` in its slot and no event |
| Collaboration.Sweep | src/bitnet_vc_builder/core/team.py:524-527 | a pass keeps one result slot per step |
| Collaboration.Launch | src/bitnet_vc_builder/core/team.py:516-519 | the launch keeps one result slot per step |
| Collaboration.LaunchNext | src/bitnet_vc_builder/core/team.py:516-519 | only steps without dependencies are started at launch |
| Collaboration.ExtendsUnfinished | src/bitnet_vc_builder/core/team.py:522 | adding results never raises the count of unfinished steps, and strictly lowers it when anything changed |
| Collaboration.SweepExtends | src/bitnet_vc_builder/core/team.py:522-529 | a pass keeps earlier results; a pass that changes nothing found no ready step |
| Collaboration.SweepIdle | src/bitnet_vc_builder/core/team.py:522-529 | with no ready step, a pass changes nothing |
| Collaboration.Schedule | src/bitnet_vc_builder/core/team.py:516-529 | the schedule keeps one result slot per step |
| Collaboration.NoneUnfinished | src/bitnet_vc_builder/core/team.py:522 | no unfinished step iff every step has a result |
| Collaboration.ScheduleEnds | src/bitnet_vc_builder/core/team.py:516-529 | the scheduler ends with every step finished, or stuck with unfinished steps and none ready |
| Collaboration.FirstUnfinishedReady | src/bitnet_vc_builder/core/team.py:525 | when dependencies point backward, some unfinished step is ready |
| Collaboration.BackwardPlansFinish | src/bitnet_vc_builder/core/team.py:516-529 | a plan whose dependencies all point backward always finishes |
| Collaboration.StepReportNext | src/bitnet_vc_builder/core/team.py:532-534 | the report adds one `Step i (agent - subtask)` section per step, in order |
| Collaboration.SequentialRunsEveryone | src/bitnet_vc_builder/core/team.py:336-389 | when every roster agent has counters and the coordinator answers, the run answers after one call per roster agent, with one event each |
| Collaboration.SequentialRun | src/bitnet_vc_builder/core/team.py:336-389 | `_run_sequential`: the coordinator, then the relay along the others (`SequentialRunsEveryone`, `SequentialCounted`, `SequentialOfThree`), a `KeyError` at the first agent without counters (`SequentialMissRaises`), events only for counted agents (`SequentialEventsCounted`); `Team.Team.RunSequential` is proved equal to it |
| Collaboration.ParallelRun | src/bitnet_vc_builder/core/team.py:391-536 | `_run_parallel`: a plan from the coordinator, then `Orchestrated`; a plan with backward dependencies answers (`ParallelBackwardAnswers`); events only for counted agents (`ParallelEventsCounted`); `Team.Team.RunParallel` is proved equal to it |
| Collaboration.Orchestrated | src/bitnet_vc_builder/core/team.py:452-536 | the steps launched, swept until finished or stuck, then reported; backward plans always finish (`BackwardPlansFinish`, `ScheduleEnds`); `Team.Team.RunSteps` is proved equal to it |
| Collaboration.HierarchicalRun | src/bitnet_vc_builder/core/team.py:538-655 | `_run_hierarchical`: a plan over the others, then `Directed`; a `KeyError` at the first known step agent without counters (`HierarchicalMissRaises`) or for an uncounted coordinator (`HierarchicalCreditRaises`); events only for counted agents (`HierarchicalEventsCounted`); `Team.Team.RunHierarchical` is proved equal to it |
| Collaboration.Directed | src/bitnet_vc_builder/core/team.py:594-655 | after a parsed plan: the delegation up to the first known agent without counters, else `Concluded`; `Team.Team.Direct` is proved equal to it |
| Collaboration.Concluded | src/bitnet_vc_builder/core/team.py:632-655 | the coordinator's synthesis over the step results and its credit, a `KeyError` when it has no counters; `Team.Team.Synthesize` is proved equal to it |
| Collaboration.ConsensusRun | src/bitnet_vc_builder/core/team.py:657-713 | `_run_consensus`: every agent on the task, then the coordinator's synthesis without a credit; a `KeyError` at the first agent without counters (`ConsensusMissRaises`); events only for counted agents (`ConsensusEventsCounted`); `Team.Team.RunConsensus` is proved equal to it |
| Collaboration.Play | src/bitnet_vc_builder/core/team.py:258-291 | the strategy of the mode, sequential for any other; in every mode counters are applied only to agents that have them (`PlayCounted`); `Team.Team.Run` is proved to run it |
| Collaboration.SequentialCounted | src/bitnet_vc_builder/core/team.py:350-389 | with counters for everyone, the sequential run is the plain relay after the coordinator's credit |
| Collaboration.SequentialMissRaises | src/bitnet_vc_builder/core/team.py:359-387 | when some later agent has no counters, the run raises `KeyError` for the first such agent, after one more call than the relay up to it |
| Collaboration.SequentialOfThree | src/bitnet_vc_builder/core/team.py:350-389 | with three answering agents that all have counters, the third's answer is returned after three calls, the coordinator being only credited |
| Collaboration.RelayOfTwo | src/bitnet_vc_builder/core/team.py:359-387 | two answering agents after the coordinator: the second's answer after two calls, with one success each |
| Collaboration.HierarchicalMissRaises | src/bitnet_vc_builder/core/team.py:596-630 | when a known plan agent has no counters, the run raises `KeyError` for the first such step, after the steps before it and its own call |
| Collaboration.HierarchicalCreditRaises | src/bitnet_vc_builder/core/team.py:647-653 | when every step's agent has counters but the coordinator has none, the run raises `KeyError` for the coordinator after the synthesis |
| Collaboration.ConsensusMissRaises | src/bitnet_vc_builder/core/team.py:673-697 | when some roster agent has no counters, the run raises `KeyError` for the first one, after one call per agent up to it |
| Collaboration.RelayCounted | src/bitnet_vc_builder/core/team.py:365-387 | every event of a relay names an agent with counters |
| Collaboration.DelegateCounted | src/bitnet_vc_builder/core/team.py:596-630 | every event of a delegation names an agent with counters |
| Collaboration.ConsultCounted | src/bitnet_vc_builder/core/team.py:673-697 | every event of a poll names an agent with counters |
| Collaboration.SweepCounted | src/bitnet_vc_builder/core/team.py:522-529 | every event of a pass names an agent with counters |
| Collaboration.LaunchCounted | src/bitnet_vc_builder/core/team.py:516-519 | every event of the launch names an agent with counters |
| Collaboration.ScheduleCounted | src/bitnet_vc_builder/core/team.py:516-529 | every event of the schedule names an agent with counters |
| Collaboration.SequentialEventsCounted | src/bitnet_vc_builder/core/team.py:336-389 | a sequential run records events only for agents with counters |
| Collaboration.ParallelEventsCounted | src/bitnet_vc_builder/core/team.py:391-536 | a parallel run records events only for agents with counters |
| Collaboration.HierarchicalEventsCounted | src/bitnet_vc_builder/core/team.py:538-655 | a hierarchical run records events only for agents with counters |
| Collaboration.ConsensusEventsCounted | src/bitnet_vc_builder/core/team.py:657-713 | a consensus run records events only for agents with counters |
| Collaboration.PlayCounted | src/bitnet_vc_builder/core/team.py:258-291 | in every mode a run applies counters only to agents that have them, so `Apply` never meets a missing name |
| Collaboration.ParallelBackwardAnswers | src/bitnet_vc_builder/core/team.py:391-536 | a parsed plan with backward dependencies yields an answer |
| Team.TaskIdInjective | src/bitnet_vc_builder/core/team.py:217 | distinct counter values give distinct `task_<n>` identifiers |
| Team.TaskId | src/bitnet_vc_builder/core/team.py:217 | `task_<n>`: distinct counters give distinct identifiers (`TaskIdInjective`) |
| Team.RosterIndexes | src/bitnet_vc_builder/core/team.py:113 | with unique names the index maps each name to its agent and to nothing else |
| Team.Roster | src/bitnet_vc_builder/core/team.py:113 | the name index: with unique names it maps each name to its agent and nothing else (`RosterIndexes`); `BuildIndex` is proved equal to it |
| Team.RosterExtends | src/bitnet_vc_builder/core/team.py:147-148 | appending an agent with a new name keeps roster and index in step |
| Team.Position | src/bitnet_vc_builder/core/team.py:174 | the first roster position holding the agent, as `list.remove` uses |
| Team.BuildIndex | src/bitnet_vc_builder/core/team.py:113 | the loop builds the name index, which matches the roster when names are unique |
| Team.FirstLower | src/bitnet_vc_builder/core/team.py:234-240 | the first queued task of strictly lower priority, or the end of the queue |
| Team.Insert | src/bitnet_vc_builder/core/team.py:237 | `deque.insert`: the id at that position, the rest shifted |
| Team.FirstLowerUnique | src/bitnet_vc_builder/core/team.py:234-240 | any position with the two defining properties is the insertion point |
| Team.InsertPrioritized | src/bitnet_vc_builder/core/team.py:232-240 | inserting at that point keeps a non-increasing queue non-increasing |
| Team.InsertAfterPeers | src/bitnet_vc_builder/core/team.py:234-240 | every queued task of equal or higher priority stays ahead of the new one (FIFO among equals) |
| Team.NumberNext | src/bitnet_vc_builder/core/team.py:216-228 | the next identifier is new, and the numbering stays consistent |
| Team.QueuedRegister | src/bitnet_vc_builder/core/team.py:228 | registering a new task keeps the queue invariant |
| Team.QueuedComplete | src/bitnet_vc_builder/core/team.py:319-324 | completing a task keeps the queue invariant |
| Team.QueuedAppend | src/bitnet_vc_builder/core/team.py:241-242 | appending a ready task keeps the queue invariant without prioritisation |
| Team.QueuedInsert | src/bitnet_vc_builder/core/team.py:232-240 | inserting a ready task by priority keeps the queue ordered |
| Team.Track | src/bitnet_vc_builder/core/team.py:353-387 | counters change only when tracking is on, and the tracked agents stay the same |
| Team.TrackAppend | src/bitnet_vc_builder/core/team.py:353-387 | tracking one more event is one more update |
| Team.TrackConcat | src/bitnet_vc_builder/core/team.py:353-387 | tracking two runs in turn is tracking both |
| Team.Coordinator | src/bitnet_vc_builder/core/team.py:275-279 | the named agent when it is in the index, else the first roster agent |
| Team.ReplaceKeepsIndexed | src/bitnet_vc_builder/core/team.py:144-148 | replacing an agent of the same name keeps names unique and the index in step |
| Team.ReplacedStays | src/bitnet_vc_builder/core/team.py:144-148 | every other indexed agent stays in the roster |
| Team.Dropped | src/bitnet_vc_builder/core/team.py:174 | removing a position shifts the later agents down by one |
| Team.RemoveKeepsRoster | src/bitnet_vc_builder/core/team.py:173-181 | removal keeps names unique, the index in step and the performance keys equal to the index keys |
| Team.KeptStays | src/bitnet_vc_builder/core/team.py:174-175 | an agent left in the roster is still indexed under its name |
| Team.RemoveKeepsIndexed | src/bitnet_vc_builder/core/team.py:174-175 | dropping an agent and its name keeps roster and index in step |
| Team.DroppedUnique | src/bitnet_vc_builder/core/team.py:174 | dropping an agent keeps names unique |
| Team.RemovedStays | src/bitnet_vc_builder/core/team.py:174-175 | every other indexed agent stays in the roster |
| Team.Team.constructor | src/bitnet_vc_builder/core/team.py:79-135 | no agents means an empty roster; the index and fresh counters cover exactly the roster; no tasks; the counter starts at 1 |
| Team.Team.Locate | src/bitnet_vc_builder/core/team.py:174 | the search finds the agent's first position |
| Team.Team.AddAgentAsWritten | src/bitnet_vc_builder/core/team.py:137-157 | as written: the agent is appended even when its name is taken, so the roster then holds two agents of that name |
| Team.Team.AddAgent | src/bitnet_vc_builder/core/team.py:137-157 | a taken name replaces that agent in place, a new one is appended; index entry set; counters reset to 0/0/0.0; roster, index and counters stay in step |
| Team.Team.RemoveAgent | src/bitnet_vc_builder/core/team.py:159-183 | an unknown name returns false and changes nothing; otherwise the agent leaves the roster, the index and the counters |
| Team.Team.GetAgent | src/bitnet_vc_builder/core/team.py:185-195 | found exactly when a roster agent has the name, and then it is that agent |
| Team.Team.CreateTask | src/bitnet_vc_builder/core/team.py:197-244 | returns a new `task_<n>` and advances the counter; the task is stored as pending; queued only when its dependencies are completed, by priority or at the back |
| Team.Team.Enqueue | src/bitnet_vc_builder/core/team.py:230-242 | inserts by priority or appends, keeping the queue invariant |
| Team.Team.InsertionPoint | src/bitnet_vc_builder/core/team.py:234-240 | the loop finds the first queued task of lower priority |
| Team.Team.GetTask | src/bitnet_vc_builder/core/team.py:246-256 | found exactly when the identifier is registered |
| Team.Team.Ask | src/bitnet_vc_builder/core/team.py:370 | one agent call |
| Team.Team.Tracking | src/bitnet_vc_builder/core/team.py:353-356 | the names a run may look up: all when tracking is off, exactly the agents with counters when it is on |
| Team.Team.Note | src/bitnet_vc_builder/core/team.py:374-387 | one counter update, made exactly when the agent has counters; otherwise nothing changes and the caller raises `KeyError` |
| Team.Team.Perform | src/bitnet_vc_builder/core/team.py:368-387 | one agent call, recorded as a success or a failure exactly when the agent has counters |
| Team.Team.Run | src/bitnet_vc_builder/core/team.py:258-291 | an empty roster gives the no-co-workers message with no call; otherwise the chosen coordinator runs the mode's strategy (sequential for an unknown mode), which raises `KeyError` at a lookup of an agent without counters |
| Team.Team.RunAsync | src/bitnet_vc_builder/core/team.py:293-334 | registers a priority-2 task for the run and returns its identifier |
| Team.Team.RunThread | src/bitnet_vc_builder/core/team.py:315-324 | after the run the task is completed with its result; a run that raises leaves it as it was |
| Team.Team.Complete | src/bitnet_vc_builder/core/team.py:319-324 | the task is marked completed with its result, and its identifier joins the completed set |
| Team.Team.PerformanceMetrics | src/bitnet_vc_builder/core/team.py:715-726 | empty when tracking is off; otherwise a copy covering exactly the roster |
| Team.Team.AgentPerformance | src/bitnet_vc_builder/core/team.py:728-742 | present only when tracking is on and the agent is tracked, which is exactly a roster agent |
| Team.Team.RunSequential | src/bitnet_vc_builder/core/team.py:336-389 | the coordinator's call and credit, then the relay, exactly as `SequentialRun`: a `KeyError` at the first agent without counters, and the counters record the rest |
| Team.Team.HandOn | src/bitnet_vc_builder/core/team.py:365-387 | one agent takes the current result and the relay moves on, or the agent has no counters and only its call is made |
| Team.Team.RelaySteps | src/bitnet_vc_builder/core/team.py:359-387 | the loop over the roster skips the coordinator and performs the relay, stopping with `KeyError` at the first agent without counters |
| Team.Team.RunHierarchical | src/bitnet_vc_builder/core/team.py:538-655 | plan, then one result per step, then one synthesis call by the coordinator, which is credited; exactly `HierarchicalRun`, including its `KeyError` cases |
| Team.Team.Direct | src/bitnet_vc_builder/core/team.py:594-655 | after a parsed plan: the delegation, then the synthesis unless a step raised, exactly as `Directed` |
| Team.Team.Synthesize | src/bitnet_vc_builder/core/team.py:632-655 | the coordinator's synthesis call, then its credit, which raises `KeyError` when it has no counters |
| Team.Team.DelegateSteps | src/bitnet_vc_builder/core/team.py:594-630 | the loop over the plan performs exactly the delegation, stopping at the first known agent without counters |
| Team.Team.RunConsensus | src/bitnet_vc_builder/core/team.py:657-713 | every roster agent on the task, then one coordinator synthesis; a `KeyError` at the first agent without counters |
| Team.Team.PollAll | src/bitnet_vc_builder/core/team.py:671-697 | the loop over the roster collects exactly the consulted responses, stopping at the first agent without counters |
| Team.Team.Hear | src/bitnet_vc_builder/core/team.py:673-697 | one agent's response is added as `Heard` does, or the agent has no counters and only its call is made |
| Team.Team.DependencyResults | src/bitnet_vc_builder/core/team.py:469-472 | the loop builds exactly the dependency text |
| Team.Team.Execute | src/bitnet_vc_builder/core/team.py:456-513 | one step is attempted: not found, a result or an error, recorded in its slot; an agent without counters leaves `KeyErrorShown` there and no event |
| Team.Team.ReportOf | src/bitnet_vc_builder/core/team.py:532-536 | the loop builds exactly the final report |
| Team.Team.LaunchSteps | src/bitnet_vc_builder/core/team.py:516-519 | every step without dependencies is attempted once, in plan order |
| Team.Team.SweepSteps | src/bitnet_vc_builder/core/team.py:524-527 | one pass attempts each ready step that has not started |
| Team.Team.RunParallel | src/bitnet_vc_builder/core/team.py:391-536 | plan, then the steps in dependency order, then the report |
| Team.Team.RunSteps | src/bitnet_vc_builder/core/team.py:452-536 | the launch and the passes until done or stuck, then the report |

## Left out

- Threads and locks are not modelled: the per-step threads, `results_lock`, `_task_lock` and `_performance_lock`. Only the sequential effect of each step is. The parallel strategy runs its steps one at a time in plan order, in passes, so interleavings are not covered.
- The 0.1-second polling of `_run_parallel` is left out. A plan whose dependencies can never all finish (out of range or cyclic) makes the source spin forever; the model reports this as `Hangs`.
- The background thread of `run_async` is left out. `Team.Team.RunThread` models its body after `Team.Team.RunAsync` returns.
- The `callback` of `run_async` is an external call and is left out.
- `max_parallel_tasks` and `enable_conflict_resolution` are stored by the source and never read, so the model leaves them out.
- Task timestamps (`created_at`, `completed_at`) are not modelled, because they come from the wall clock.
- `IN_PROGRESS` and `FAILED` are never set by the source; the model has them only as values.
- The language model (`generate`), the tool functions, the agents' runs and `json.loads` are opaque functions passed in; JSON itself is not parsed.
- Memory timestamps are a logical clock. `_format_timestamp` is the `stamp` parameter, a function of that clock.
- The query path of `Memory.get_context` is not modelled: the relevance scoring with `recency_bias`, and `search`, which uses it. They are floating-point heuristics over the wall clock.
- The query path of `CategorizedMemory.get_context` is left out. It calls `_calculate_relevance`, which neither class defines.
- `get_categories` is not a separate member: it returns the `categories` field, which the model keeps as a constant of the class.
- Config.SetConfigValue: modelled on values. The source changes nested dictionaries in place and returns the same object, so aliasing of a nested dictionary held elsewhere is not captured.
- `load_config` and `save_config` file input and output are not part of this model.
- Text.Lower: lower-cases ASCII letters only, not the full Unicode case mapping of Python's `str.lower`.
- Plan entries missing `depends_on`, `agent_name` or `subtask` are not modelled; the plan oracle returns only well-formed steps. In the parallel strategy a missing `depends_on` raises `KeyError` at team.py:517 in the calling thread, and it escapes the run. A missing `agent_name` or `subtask` (team.py:457-458) kills that step's thread before any result is stored, so the poll at team.py:522 never ends. In the hierarchical strategy either one raises `KeyError` at team.py:597-598.
- `json.dumps(args_schema, indent=2)` in the default system prompt is the `dumps` parameter: JSON serialisation is not part of this model.
- The `isinstance(model, BitNetModel)` check of the co-worker's constructor is left out: the model is a function parameter, so it is always a model.
- Team.Team.constructor: copies the roster as a value. The source's `agents or []` keeps the caller's list itself, so a later change the caller makes to that list changes the roster without updating `_agent_map` or the counters; that aliasing is not captured.
- Coworker.VirtualCoworker.constructor: keeps every supplied memory, as the corrected `Coworker.PickMemory` does. As written, `memory or Memory()` replaces a supplied memory that holds no items; `Coworker.PickMemoryAsWritten` models that (see Findings). It also stores the tools as a value: `self.tools = tools or []` (virtual_coworker.py:45) keeps the caller's own list, which `add_tool` and `remove_tool` (virtual_coworker.py:283, 297) then change in place and `get_tools` (virtual_coworker.py:308) hands out live, so the caller's list and the co-worker's stay one object; the model's `tools` field is a sequence and that aliasing is not captured.
- Collaboration.MeanOfSuccesses: `avg_time` and the elapsed times are exact `real` numbers, not Python floats, so the mean holds in the source only up to floating-point rounding. The same goes for `Collaboration.RunningMean` and `Collaboration.CreditDilutesMean`.
- Collaboration.KeyMessage: `'<name>'` is Python's `repr` of the name, the text of `str(KeyError(name))`, only for names without quotes or backslashes; `repr`'s other quoting and escaping rules are not modelled.
- `PersistentMemory`, logging, the HTTP server, the command line and the user interface are left out.

## Findings

| source | as written | input that shows it | evidently intended | confidence | as-written member | corrected member |
|---|---|---|---|---|---|---|
| src/bitnet_vc_builder/core/virtual_coworker.py:46 | `memory or Memory()` tests the supplied memory's truth value. `Memory` defines `__len__` (memory.py:195-202), so a supplied memory with no items is falsy and is replaced by a new default one. | An empty `Memory(max_items=10, max_context_length=1000)` passed to the co-worker, as examples/memory_example.py:64-77 does (`Coworker.EmptySuppliedMemoryLost`). | A supplied memory is used whatever its length; a default one is made only when none is given. | not executed | Coworker.PickMemoryAsWritten | Coworker.PickMemory |
| src/bitnet_vc_builder/core/team.py:147-148 | `add_agent` warns that an existing name will be replaced, yet appends the agent, so the roster holds two agents of that name while the index holds only the new one. | A team with agent `"A"`, then `add_agent` of another agent named `"A"`. | The agent of that name is replaced in place, so roster names stay unique and the index matches the roster. | not executed | Team.Team.AddAgentAsWritten | Team.Team.AddAgent |
