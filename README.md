# Building-scheme agent: a verified model of its bookkeeping

The system lets a user ask an AI agent for building schemes. A Python
back end keeps the schemes, and a React front end draws them and talks to
the agent. This project is a Dafny model of the parts of that system
that keep state or transform data:

- **The scheme service** (`scheme_service.py`). It holds an in-memory list
  of schemes. It reads new schemes out of the agent's free-text tool
  results: it cuts out the `{...}` slice, looks keys up under alternative
  and case-insensitive names, and normalises loose numbers. It gives each
  new scheme the next id and a palette colour, and it edits schemes in
  place by id. Modules: `SchemeModels`, `SchemeConvert` and `SchemeStore`
  (class `SchemeService`).
- **The agent API's session bookkeeping** (`api.py`). A log hook turns the
  agent's log lines into queue items. The waiting loop folds the items,
  time-outs and failures into a session record whose tool results are
  filed under `tool_0`, `tool_1`, and so on. The status query reads the
  record back. Module `AgentApi` (class `SessionRegistry`).
- **The front end's mock agent** (`mockAgentService.js`). It picks a
  canned response set from the query. It then plays the set back as a
  trace of snapshots: a placeholder, then a finished entry for each tool,
  then the final answer. Module `MockAgent`.
- **The chat panel** (`ChatInterface.js`). A submit appends the user's
  message and an agent placeholder. Each update rewrites the latest agent
  message. Module `ChatInterface` (class `ChatState`).
- **The scheme grids and details panels** (`SchemeGrid.js`,
  `FallbackSchemeGrid.js`, `SchemeSidePanel.js`). These cover the
  selection state machine, the `safeScheme` defaults, the grid's layout
  class, the captions made from snake_case keys, and the rows a panel
  shows. Modules: `Selection`, `SchemeGrid`, `SchemeSidePanel` and
  `Captions`.

Shared modules:

- `Values`: a JSON-like value with JavaScript's truthiness, `||`,
  `Object.entries`, object spread, `===` and `String()`.
- `Text`: character classes, search, Python's `strip` and JavaScript's
  `trim`, and decimal spellings.
- `ToolKeys`: the `tool_N` keys and results filed under them.
- `Wrappers`: `Option`.

Loosely typed values are the `Values.Value` datatype. Python's `json.loads`
is the abstract parameter `parseObject`. Python's `str()` of a dictionary
or list is the parameter `show`. How JavaScript spells a finite number is
the parameter `numText`.

## Model

| member | source | states |
|---|---|---|
| SchemeStore.ColorFor | scheme_service.py:71 | a scheme's colour is always one of the ten palette entries (`SCHEME_COLORS[id % 10]`) |
| SchemeStore.ColorCycle | scheme_service.py:71 | the palette repeats every ten ids |
| SchemeStore.NextId | scheme_service.py:48 | the new id is larger than every existing id and is one more than one of them, or 1 for an empty list |
| SchemeStore.NextIdAfter | scheme_service.py:48 | after a scheme that took the next id, the next id is one more |
| SchemeStore.ExtractedParameters | scheme_service.py:51-57 | the parameters read from agent data carry exactly the five parameter names |
| SchemeStore.ExtractedEvaluations | scheme_service.py:59-68 | evaluations exist exactly when the data names steel_tonnage, column_size or structural_depth; they then carry exactly the five evaluation names |
| SchemeStore.DefaultScheme | scheme_service.py:199-229 | the fallback scheme takes the next id and its colour, is 30 x 24 x 9 with 3 floors, and has every evaluation "unknown" |
| SchemeStore.SchemeFromAgentData | scheme_service.py:43-101 | a created scheme always takes the next id, on the fallback path too |
| SchemeStore.CreatedWellFormed | scheme_service.py:43-101 | a created scheme has the five parameters (and five evaluations if any), the palette colour of its id, and stands at the origin |
| SchemeStore.CreatedScheme | scheme_service.py:78-101 | unless the floor count raises, the scheme carries the extracted parameters, width and depth are the extents read as floats, height is 3 x floors, and evaluations exist exactly when an evaluation key is present; otherwise it is the default scheme |
| SchemeStore.CreatedHeight | scheme_service.py:80-89 | a floor count given as a decimal string n gives height 3n |
| SchemeStore.CreatedFromEmptyData | scheme_service.py:51-91 | data with no recognisable key gives a 30 x 24 x 9 scheme without evaluations, whose extents stay the default strings |
| SchemeStore.CreatedFallback | scheme_service.py:78-101 | an infinite floor count makes `int()` raise, so the result is the default scheme |
| SchemeStore.JsonSlice | scheme_service.py:251-254 | a slice exists exactly when some `{` comes before some `}`; it then runs from the first `{` of the text to its last `}` |
| SchemeStore.Contribution | scheme_service.py:242-255 | an entry contributes exactly when it is a dictionary whose "result" is a string with a `{` before a `}`, and then contributes what parsing that slice gives |
| SchemeStore.Contributions | scheme_service.py:241-267 | each result entry contributes at most one scheme's data |
| SchemeStore.Added | scheme_service.py:259-267 | one scheme is built per datum, in order |
| SchemeStore.ContributionsAppend | scheme_service.py:241 | the data found in two runs of results is the first run's data followed by the second's |
| SchemeStore.AddedAppend | scheme_service.py:259-267 | building from two runs of data is building from the first, then from the second with the first's schemes in the list |
| SchemeStore.AddedNextId | scheme_service.py:259-262 | after the added schemes, the next id has moved on by their number |
| SchemeStore.AddedIds | scheme_service.py:259-262 | the added schemes take consecutive ids starting at the next free one |
| SchemeStore.AddedSchemesIds | scheme_service.py:236-273 | adding from agent results makes at most one scheme per entry, and their ids are consecutive after the largest existing id |
| SchemeStore.SetFields | scheme_service.py:281-283 | setting attributes never adds or removes an attribute |
| SchemeStore.SetFieldsEffect | scheme_service.py:281-283 | each existing attribute takes the value given for it, and the others keep theirs |
| SchemeStore.SetVisuals | scheme_service.py:295-297 | setting visual properties leaves id, parameters and evaluations alone |
| SchemeStore.SetVisualsEffect | scheme_service.py:295-297 | each listed visual property present in the updates takes its value; the others keep theirs |
| SchemeStore.ApplyUpdates | scheme_service.py:279-299 | updating keeps the id and the parameter names; parameters and evaluations change only when the updates name them; a non-dictionary parameters update raises before any change; well-formedness is kept |
| SchemeStore.ApplyUpdatesVisuals | scheme_service.py:294-297 | without an exception, exactly the seven visual keys present in the updates are set |
| SchemeStore.ApplyUpdatesParameters | scheme_service.py:280-283 | existing parameters take the updated values and the rest keep theirs |
| SchemeStore.ApplyUpdatesEvaluations | scheme_service.py:289-292 | existing evaluations take the updated values, the rest keep theirs |
| SchemeStore.ApplyUpdatesCreatesEvaluations | scheme_service.py:286-288 | missing evaluations are created exactly when the update holds all five, and then hold those five values |
| SchemeStore.FirstWithId | scheme_service.py:277-278 | finds the first scheme with the id, or reports that none has it |
| SchemeStore.SchemeService.constructor | scheme_service.py:24-25 | the service starts with no schemes |
| SchemeStore.SchemeService.GetSchemes | scheme_service.py:35-37 | returns the list as it is |
| SchemeStore.SchemeService.ClearSchemes | scheme_service.py:39-41 | the list becomes empty |
| SchemeStore.SchemeService.ExtractParameters | scheme_service.py:51-57 | the five lookups give the extracted parameters |
| SchemeStore.SchemeService.ExtractEvaluations | scheme_service.py:59-68 | the five lookups are made only when an evaluation key is present, and give the extracted evaluations |
| SchemeStore.SchemeService.CreateSchemeFromAgentData | scheme_service.py:43-101 | builds the scheme for the current list without changing the list; it takes the next id and is well formed |
| SchemeStore.SchemeService.AddScheme | scheme_service.py:231-234 | appends the scheme and returns it |
| SchemeStore.SchemeService.AddSchemesFromAgentResults | scheme_service.py:236-273 | the existing schemes stay as they were; the new ones are appended in iteration order, one per entry with parsable scheme data, and are returned |
| SchemeStore.SchemeService.UpdateScheme | scheme_service.py:275-301 | an unknown id changes nothing and reports not found; otherwise only the first scheme with the id is replaced by its updated version |
| SchemeModels.NewScheme | scheme_models.py:30-32 | a new scheme stands at position 0, 0, 0 |
| SchemeModels.SetVisual | scheme_service.py:297 | `setattr` of one visual property sets it and leaves every other property alone |
| SchemeConvert.KeepNumeric | scheme_service.py:186 | the result holds only digits and dots, holds every digit and dot of the input, and leaves a string of digits and dots unchanged |
| SchemeConvert.KeepNumericChar | scheme_service.py:186 | one character is kept exactly when it is a digit or a dot |
| SchemeConvert.KeepNumericAppend | scheme_service.py:186 | filtering a concatenation concatenates the filtered parts, so the kept characters stay in order |
| SchemeConvert.SplitDecimal | scheme_service.py:191 | `float()` reads a string of digits and dots exactly when it has a digit and at most one dot |
| SchemeConvert.Trunc | scheme_service.py:124 | `int()` of a float truncates toward zero |
| SchemeConvert.ToInt | scheme_service.py:118-135 | ints are kept, floats truncated, strings always give a non-negative int; only an infinite or NaN float raises |
| SchemeConvert.ToIntOfDecimal | scheme_service.py:126-131 | a decimal spelling reads back as its number |
| SchemeConvert.ToIntFallback | scheme_service.py:129-135 | a string without a digit, or whose digits and dots hold two dots, gives 1 |
| SchemeConvert.ToIntTwoDots | scheme_service.py:129-135 | "1.2.3" gives 1 |
| SchemeConvert.PyFloat | scheme_service.py:112 | `float()` gives a number, an infinity or NaN when it succeeds |
| SchemeConvert.ToFloat | scheme_service.py:103-116 | the result is always a float; ints become floats and floats are kept |
| SchemeConvert.ToFloatOfDecimal | scheme_service.py:108-112 | a decimal spelling reads back as its number |
| SchemeConvert.FirstPresent | scheme_service.py:154-159 | finds the first alternative name present, or reports that none is |
| SchemeConvert.FirstCaseless | scheme_service.py:162-167 | finds the first key equal to the wanted one up to case, or reports that none is |
| SchemeConvert.FindAlternative | scheme_service.py:153-159 | the loop finds the first alternative name present and its value |
| SchemeConvert.FindCaseless | scheme_service.py:161-167 | the loop finds the first key equal up to case and its value |
| SchemeConvert.ExtractValue | scheme_service.py:137-197 | the lookup loops give exactly the specified extracted value |
| SchemeConvert.ExtractedFromEmpty | scheme_service.py:169-171 | empty data gives the default |
| SchemeConvert.ExtractExactKey | scheme_service.py:140-141 | the key itself wins over every other name |
| SchemeConvert.ExtractAlternative | scheme_service.py:144-159 | without the key, the first listed alternative name present is used |
| SchemeConvert.ExtractCaseInsensitive | scheme_service.py:161-167 | without the key or an alternative, the first key equal up to case is used |
| SchemeConvert.ExtractMissing | scheme_service.py:169-171 | otherwise the default is returned |
| SchemeConvert.NormalizedKeepsNumbersAndDefaultsBlanks | scheme_service.py:173-179 | a number is returned unchanged; None or a blank string gives the default |
| SchemeConvert.NormalizedDecimal | scheme_service.py:184-188 | a decimal spelling found as a string becomes that int |
| SchemeConvert.NormalizedString | scheme_service.py:181-197 | a string becomes an int exactly when its digits and dots are all digits, a float when they read as one, and otherwise stays the original string |
| AgentApi.Classify | api.py:56-63 | a log line gives an item exactly for an agent line starting with the final marker or for any tool line; a tool line is passed on whole; a final answer is stripped |
| AgentApi.ClassifyFinalLine | api.py:58-60 | the agent's final-result line gives back the answer it announced |
| AgentApi.ParseToolLine | api.py:82-86 | a tool line gives a record exactly when it contains `returned:`; tool and result are stripped |
| AgentApi.ParseToolLineRoundTrip | api.py:82-86 | `<tool> returned: <result>` reads back as the tool and the result |
| AgentApi.StepResults | api.py:75-90 | one turn of the loop files the record it meets, if any, under the next key |
| AgentApi.RunLoopResults | api.py:72-101 | the loop files the records it takes, in arrival order, under consecutive keys |
| AgentApi.ResultKeys | api.py:46-87 | from a fresh session the results are exactly `tool_0` to `tool_{n-1}`, the j-th holding the j-th record, so no entry is overwritten |
| AgentApi.RunLoopStatus | api.py:72-101 | until it breaks out the session stays running with no answer; it breaks out completed with an answer or failed with a message |
| AgentApi.FinalEndsLoop | api.py:75-78 | a final item completes the session with its answer and ends the loop |
| AgentApi.TimeOutAfterTaskEnds | api.py:91-97 | a time-out after the agent task ended, with no answer yet, completes the session with the stock answer and ends the loop |
| AgentApi.TimeOutWhileRunning | api.py:91-93 | a time-out while the agent task runs changes nothing |
| AgentApi.TaskErrorOverrides | api.py:103-108 | an exception from the awaited agent task marks the session failed even after "completed", keeping results and answer |
| AgentApi.SessionRegistry.constructor | api.py:27 | the table starts empty |
| AgentApi.SessionRegistry.RunAgentTask | api.py:42-111 | only the session's own entry changes, and it ends as the fold of what the loop met plus the awaited task's outcome |
| AgentApi.SessionRegistry.GetSessionStatus | api.py:126-136 | an unknown id gives 404; a known id gives exactly its status, results and final answer |
| ToolKeys.ToolKeyInjective | api.py:87 | distinct indices give distinct `tool_N` keys |
| ToolKeys.KeyedContents | api.py:87 | filing n results gives exactly the keys `tool_0` to `tool_{n-1}`, with `tool_j` holding the j-th |
| ToolKeys.KeyedAppend | api.py:87 | filing one more result adds it under the next key and leaves the rest as they were |
| MockAgent.SelectResponseSet | 3d-prototype/src/services/mockAgentService.js:113-121 | "house" anywhere in the lower-cased query wins, then "office", else the default set |
| MockAgent.SelectionIgnoresCase | 3d-prototype/src/services/mockAgentService.js:116 | the choice does not depend on letter case |
| MockAgent.StartSession | 3d-prototype/src/services/mockAgentService.js:88-98 | a started session is initialising, with no results and no answer |
| MockAgent.SimulateToolExecution | 3d-prototype/src/services/mockAgentService.js:10-19 | a tool run ends finished, with its canned result |
| MockAgent.ProcessQuery | 3d-prototype/src/services/mockAgentService.js:101-180 | the snapshots handed to `onUpdate` are exactly the specified trace of the chosen set, and the value returned is the last of them |
| MockAgent.SnapshotCount | 3d-prototype/src/services/mockAgentService.js:105-172 | for n tools `onUpdate` is called 2n + 2 times |
| MockAgent.AllButLastRunning | 3d-prototype/src/services/mockAgentService.js:105-160 | every snapshot but the last is running, with no final answer |
| MockAgent.PlaceholderSnapshot | 3d-prototype/src/services/mockAgentService.js:127-142 | before tool i runs, the snapshot shows the earlier tools finished and tool i running "Executing..." |
| MockAgent.FinishedSnapshot | 3d-prototype/src/services/mockAgentService.js:146-160 | after tool i finishes, only its entry changes, to the finished entry with its result |
| MockAgent.LastSnapshot | 3d-prototype/src/services/mockAgentService.js:167-179 | the last snapshot is completed, with keys exactly `tool_0` to `tool_{n-1}`, each finished, and the set's final answer |
| ChatInterface.LastAgentIndex | 3d-prototype/src/components/ChatInterface.js:58-62 | finds the highest-index message that is not the user's, or reports that all are the user's |
| ChatInterface.NoAgentNoChange | 3d-prototype/src/components/ChatInterface.js:58-59 | with no agent message, an update leaves the list as it is |
| ChatInterface.ReplacesOnlyLastAgent | 3d-prototype/src/components/ChatInterface.js:58-74 | only the latest agent message changes: it keeps its id and stays an agent message, takes the update's results and answer, and its text is null once the answer is in, else the progress note |
| ChatInterface.LaterUpdateWins | 3d-prototype/src/components/ChatInterface.js:56-75 | a second update overwrites the first entirely |
| ChatInterface.UpdateHitsPlaceholder | 3d-prototype/src/components/ChatInterface.js:42-75 | the updates of a submitted query land on the placeholder the submit put in, whatever id and time it carries |
| ChatInterface.ChatState.constructor | 3d-prototype/src/components/ChatInterface.js:6-7 | no messages and an empty input |
| ChatInterface.ChatState.SetInput | 3d-prototype/src/components/ChatInterface.js:7 | typing changes only the input |
| ChatInterface.ChatState.HandleSubmit | 3d-prototype/src/components/ChatInterface.js:25-80 | blank input or a running query changes nothing; otherwise exactly the user's message and a "Thinking..." placeholder are appended, the placeholder's id and time taken from a second reading of the clock, the text is sent and the input cleared |
| ChatInterface.ChatState.OnUpdate | 3d-prototype/src/components/ChatInterface.js:54-76 | the list becomes the one with its latest agent message rewritten; the input is kept |
| ChatInterface.ChatState.HandleNewSession | 3d-prototype/src/components/ChatInterface.js:83-85 | the list is emptied |
| Captions.FirstIndex | src/components/FallbackSchemeGrid.js:11 | finds the first underscore, or reports that there is none |
| Captions.Split | src/components/FallbackSchemeGrid.js:11 | splitting always gives at least one piece |
| Captions.FormatKeyPointwise | src/components/FallbackSchemeGrid.js:8-14 | the caption is as long as the key; an underscore becomes a space, a character at the start or after an underscore is upper-cased, and the rest are kept |
| Captions.NoUnderscore | src/components/SchemeSidePanel.js:8-14 | captions hold no underscore |
| Captions.DoubleUnderscore | src/components/FallbackSchemeGrid.js:10-13 | "a__b" gives "A  B" |
| Selection.Selected | src/components/FallbackSchemeGrid.js:204-208 | the selected copy has a truthy id: the scheme's own when truthy, else index + 1; every other property is the scheme's |
| Selection.ReconciledConsistent | src/components/FallbackSchemeGrid.js:193-202 | after the effect the selection, if any, names a scheme of the list |
| Selection.ReconcileKeepsPresent | src/components/FallbackSchemeGrid.js:196-197 | a selection still in the list is left alone, panel flag included |
| Selection.ReconcileIdempotent | src/components/FallbackSchemeGrid.js:193-202 | running the effect again changes nothing |
| Selection.ClickedSchemeWithIdSurvives | src/components/FallbackSchemeGrid.js:193-211 | a clicked scheme with an id stays selected after the effect |
| Selection.ClickedSchemeWithoutIdDropped | src/components/FallbackSchemeGrid.js:193-211 | a clicked scheme without an id is dropped at once by the effect, unless another scheme has id index + 1 |
| Selection.IdlessClickUndone | src/components/FallbackSchemeGrid.js:193-211 | the one-scheme list without ids shows the click undone |
| Selection.EffectiveId | src/components/FallbackSchemeGrid.js:207 | the id a click hands out is always truthy |
| Selection.ClickSurvivesIntended | src/components/FallbackSchemeGrid.js:193-211 | with the corrected effect every click keeps its selection |
| Selection.IntendedAgreesWithIds | src/components/FallbackSchemeGrid.js:196 | when every scheme has an id the corrected effect is the written one |
| Selection.SelectionState.constructor | src/components/FallbackSchemeGrid.js:189-190 | nothing selected, panel closed |
| Selection.SelectionState.HandleSchemeClick | src/components/SchemeGrid.js:96-104 | the selection becomes the copy with an id and the panel opens |
| Selection.SelectionState.HandleClose | src/components/FallbackSchemeGrid.js:213-215 | the panel closes and the selection stays |
| Selection.SelectionState.Reconcile | src/components/FallbackSchemeGrid.js:193-202 | the selection and the panel flag become what the effect makes of them |
| SchemeGrid.SafeScheme | src/components/SchemeGrid.js:14-20 | `safeScheme` has exactly id, width, height, depth and color, each the scheme's own value when truthy else index + 1, 1, 1, 1 or "#4287f5", so all are truthy |
| SchemeGrid.ClickSelectsSafeScheme | src/components/SchemeGrid.js:96-104 | clicking a frame selects `safeScheme` itself, which has no parameters and no evaluations |
| SchemeGrid.EmptyStateRule | src/components/SchemeGrid.js:111-113 | the grid shows exactly for a non-empty array |
| SchemeGrid.EmptyStatesAgree | src/components/FallbackSchemeGrid.js:217-219 | on an array or a missing list the fallback grid's test agrees with the three.js grid's; on an object they differ |
| SchemeGrid.GridClassName | src/components/SchemeGrid.js:116-123 | 1 scheme gives "single-scheme", 2 give "two-schemes", 3 or 4 give "four-schemes", 5 or more give no extra class |
| SchemeSidePanel.DetailRows | src/components/SchemeSidePanel.js:32-64 | an empty section gives one placeholder row; otherwise one row per entry, in order, with the caption of its key and `String(value)` |
| SchemeSidePanel.RenderPanel | src/components/SchemeSidePanel.js:5 | the panel is absent exactly when there is no scheme |
| SchemeSidePanel.OpenOnlyTogglesClass | src/components/SchemeSidePanel.js:21 | opening or closing only switches the `open` class |
| SchemeSidePanel.MissingSectionsShowPlaceholder | src/components/SchemeSidePanel.js:17-64 | missing parameters and evaluations show as the placeholder rows |
| SchemeSidePanel.FalsyVisualsShowDefault | src/components/SchemeSidePanel.js:72-88 | a falsy width, height, depth or colour shows "Default" |
| SchemeSidePanel.RowNamesHaveNoUnderscore | src/components/SchemeSidePanel.js:35-55 | row names hold no underscore |
| SchemeSidePanel.FallbackRowsAgree | src/components/FallbackSchemeGrid.js:28-60 | the fallback panel shows the same rows as the side panel for any section value |
| SchemeSidePanel.RenderFallbackPanel | src/components/FallbackSchemeGrid.js:6 | the fallback panel shows exactly when a scheme is selected and the panel is open |
| Text.PyStrip | scheme_service.py:110 | `strip()` leaves no whitespace at either end |
| Text.PyStripPadded | api.py:85-86 | stripping a stripped text surrounded by whitespace gives the text back |
| Text.JsTrim | 3d-prototype/src/components/ChatInterface.js:28 | `trim()` gives the empty string exactly for whitespace-only input |
| Text.RemoveAllAbsent | api.py:59 | removing a pattern that does not occur changes nothing |
| Text.DecimalStringInjective | api.py:87 | two numbers with the same decimal spelling are equal |
| Values.Or | src/components/SchemeGrid.js:15-19 | JavaScript's or-operator gives `a` when `a` is truthy, else `b` |
| Values.SetProp | src/components/SchemeGrid.js:98-101 | `{...d, k: v}` has `v` under `k` and every other key as before |

## Findings

| source | as written | input that shows it | evidently intended | confidence | as-written member | corrected member |
|---|---|---|---|---|---|---|
| src/components/FallbackSchemeGrid.js:193-211 | the click gives an id-less scheme the id index + 1, but the effect then looks for that id among the schemes' own ids, finds none, and clears the selection and closes the panel | a list holding one scheme without an id, clicked at index 0 | the panel of a clicked scheme stays open; the effect looks schemes up under the ids the click hands out | medium, not executed | Selection.IdlessClickUndone | Selection.ClickSurvivesIntended |

`Selection.SelectionState.Reconcile` follows the effect as written.
`Selection.IntendedAgreesWithIds` shows the two effects are the same
whenever every scheme has an id, which holds for every scheme the scheme
service creates.

## Left out

- The agent itself (perception, planning, tools) is not part of this model. Only the log lines it writes and the outcome of its task are modelled, as inputs.
- asyncio is not modelled: the queue, the one-second `wait_for`, `create_task`, background tasks and the patching and restoring of `agent.log`. The waiting loop is a fold over the sequence of things it meets (`AgentApi.Arrival`), and the awaited task's exception is a parameter.
- The outer `except` of `run_agent_task` (api.py:113-115) is not modelled. The fold cannot raise, so no input reaches it.
- `create_query` (api.py:117-124) and `/health` are not modelled. They draw a uuid and schedule the task; `SessionRegistry.RunAgentTask` takes the id as a parameter.
- pydantic validation and coercion of the scheme records is not modelled. Values are stored as given, and building evaluations raises only when a field is missing.
- Floating point is not modelled. Decimals are exact reals, `float()` accepts only an optional sign followed by a decimal numeral or `inf`/`infinity`/`nan` (no exponents and no underscores), and rounding is ignored.
- `json.loads` is the abstract parameter `parseObject`. Because the slice starts with `{`, only an object can come back, so the list branch at scheme_service.py:258-262 has no counterpart.
- `print` and `console.log` are not modelled.
- The mock agent's random session ids, its delays and `setTimeout` are not modelled. The session id is a parameter.
- `MockAgent.ProcessQuery` takes the response table as a parameter. `MockAgent.QUERY_RESPONSES` holds the table's value, and no lemma is stated about its literal texts.
- The chat panel's `Date.now()` and `toLocaleTimeString` are parameters. The submit handler reads the clock twice, once for the user's message (`now`, `time`) and once for the placeholder (`nowAgain`, `timeAgain`). Scrolling and the rendered markup are not modelled.
- Letter case is ASCII only: `lower()`, `toLowerCase()` and `toUpperCase()` change only A-Z and a-z, and `isdigit()` accepts only 0-9.
- How JavaScript spells a number is the parameter `numText`, and Python's `str()` of a dictionary or list is the parameter `show`.
- An array or object rendered in JSX is spelled as `String()` would spell it, whereas React renders an array's items side by side and refuses an object.
- three.js drawing, the `/ scaleFactor` scaling and the `Math.min(80, ...)` widths are not modelled. Hover animation and the fallback grid's frame titles are not modelled either.
- Selection.SelectionState.Reconcile: follows the effect as written; the corrected effect is `Selection.ReconciledIntended` (see Findings).
- SchemeStore.SetFields: `hasattr` is read as "is a field of the record". A pydantic model also has non-field attributes (`copy`, `dict`, `json`, `__class__`, ...), and an update naming one of them makes `setattr` raise; the model skips such a key instead. The set of such attributes depends on the pydantic version, so it is not modelled.
- SchemeStore.ApplyUpdates: for the same reason, an update whose parameters or evaluations name a non-field attribute of the model does not raise here, whereas `update_scheme` would raise out of the loop uncaught.
- Values.StrictEquals: compares arrays and objects by their contents, whereas JavaScript's `===` compares them by reference. Values carry no identity here.
- Values.ObjectEntries: keeps keys in insertion order, whereas JavaScript lists integer-like keys first in ascending order.
- SchemeStore.ColorCycle: states only that the palette repeats every ten ids, not that the ten colours are distinct.
