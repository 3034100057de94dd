# MAS_SDLC task wiring, shared memory and start-up, in Dafny

MAS_SDLC is a crewai scaffold that walks a software project through eight SDLC phases:
initiation, planning, requirements, design, development, testing, deployment and maintenance.
In each phase a factory builds a list of crewai `Task`s from the phase-namespaced
`shared_memory`. A task's description embeds earlier phases' documents, each looked up with
`get(phase, key) or placeholder` and often cut to a prefix. A task's callback writes its output to a
file and usually stores it back under a new key. A project-manager quality-gate task closes most
phases. `bootstrap.run_project_crew` makes the output directories, seeds the store with the
customer's request and runs the phases in a fixed order. An interview in
`tasks/phase_0/input_tasks.py` collects that request question by question.

The model keeps exactly that deterministic part.

- `Strings` gives Python's `strip`, `rstrip`, `split`, `join`, `splitlines`, `replace`, `lower`,
  `title` and slicing on `seq<char>`.
- `FormatTools` holds the Markdown builders.
- `SharedMemory` is the store: a class whose one field is the nested map that `set` updates in place,
  and the singleton slot behind `SharedMemory()`.
- `TaskModel` abstracts a task to the store reads bound into its description (its *slots*), the effects of
  its callback, and its `context` as indices into the returned list. It also models the callback
  effects on the store and the files (`write_output`), and Python's binding of call arguments.
- `QualityGate` derives the gate's namespace, directory and file names and reads the store.
- One module per phase file states what its factory builds: reads, fallbacks, slices, callback
  keys, the context graph, the gate call.
- `InputTasks` is the interview, with its nested loops, over a given sequence of answers.
- `Bootstrap` is the phase sequence: phase 0 unguarded, phases 1 to 7 each in its own
  try/except. Each crew block's outcome is a parameter.

The code's defects are modelled as behaviour, not repaired:

- the undeclared keywords of two gate calls raise TypeError;
- the gate's namespace `phase_N:_name` never matches the namespaces the phase tasks store under;
- the stray `ds` on the first line of `tasks/deployment_tasks.py` makes the import raise NameError;
- the `[cite: …]` subscripts in `bootstrap.py` raise NameError;
- the two planning tasks that pass `ddescription` have no description;
- callbacks that hand the output object itself to `write_output` raise TypeError before they store
  anything.

Where the code and the documented intent differ, the model follows the code:

- the gate's report file name differs from the one its expected output announces;
- the requirement phase reads initiation's documents under "phase_1", where initiation stores them
  under "phase_0";
- development reads the design under "phase_3_design", where design stores under "phase_3";
- the testing QA and audit tasks read the code-review and COBIT checklists under
  "phase_5_testing", where development and planning store them elsewhere.

## Model

| member | source | states |
|---|---|---|
| Strings.LStrip | utils/format_tools.py:25-26 | `lstrip` never lengthens its argument, and what remains does not start with whitespace (`str.isspace`) |
| Strings.LStripSuffix | utils/format_tools.py:26 | `lstrip` keeps a suffix of its argument |
| Strings.LStripDrops | utils/format_tools.py:26 | what `lstrip` removes is all whitespace |
| Strings.RStrip | utils/format_tools.py:25 | `rstrip` never lengthens its argument, and what remains does not end with whitespace |
| Strings.RStripPrefix | utils/format_tools.py:25 | `rstrip` keeps a prefix of its argument |
| Strings.RStripDrops | utils/format_tools.py:25 | what `rstrip` removes is all whitespace |
| Strings.Strip | utils/format_tools.py:10 | `strip` leaves neither end whitespace and never lengthens |
| Strings.StripSplits | utils/format_tools.py:10 | the argument is whitespace, then the stripped text as a contiguous slice, then whitespace |
| Strings.StripIsTrim | utils/format_tools.py:10-21 | `strip` removes whitespace from both ends and nothing else |
| Strings.StripNoop | tasks/quality_gate_tasks.py:40 | stripping a string with no whitespace at either end changes nothing |
| Strings.LStripNoop | tasks/quality_gate_tasks.py:40 | `lstrip` leaves a string that does not start with whitespace unchanged |
| Strings.RStripNoop | tasks/quality_gate_tasks.py:40 | `rstrip` leaves a string that does not end with whitespace unchanged |
| Strings.JoinSnoc | utils/format_tools.py:14-17 | joining one more part appends the separator and that part |
| Strings.JoinAvoids | utils/format_tools.py:17 | a character in neither the separator nor any part is not in the join |
| Strings.Split | tasks/quality_gate_tasks.py:40 | `split(c)` gives at least one part, and no part holds `c` |
| Strings.Head | tasks/quality_gate_tasks.py:40 | `split(c)[0]` is the longest prefix without `c`, followed by `c` when shorter than the string |
| Strings.HeadSplit | tasks/quality_gate_tasks.py:40 | `Head` is the first part `Split` gives |
| Strings.HeadFirst | tasks/quality_gate_tasks.py:40 | the part of `a + c + b` before the first `c` is `a` when `a` holds no `c` |
| Strings.JoinSplit | utils/format_tools.py:17 | joining the parts of a split with the same separator gives the string back |
| Strings.SplitJoin | utils/format_tools.py:17 | splitting a join of parts free of the separator gives the parts back |
| Strings.SplitNoSep | tasks/quality_gate_tasks.py:40 | a string without the separator splits into itself alone |
| Strings.SplitFirst | tasks/quality_gate_tasks.py:40 | the first part of `a + c + b` is `a` when `a` holds no `c` |
| Strings.SplitLastPart | utils/format_tools.py:25 | the last part is empty exactly when the string is empty or ends with the separator |
| Strings.SplitLines | utils/format_tools.py:25 | no line `splitlines` returns holds a line break |
| Strings.SplitLinesJoin | utils/format_tools.py:25 | joining the lines with line breaks gives the text back, less one final line break when the text ends with one |
| Strings.Take | tasks/requirement_tasks.py:39-40 | `s[:n]` is the prefix of length `min(n, len(s))` |
| Strings.RepeatChar | utils/format_tools.py:5 | `c * n` is `n` copies of `c`, empty when `n` is not positive |
| Strings.LowerChar | tasks/quality_gate_tasks.py:19 | an upper-case ASCII letter becomes the lower-case letter 32 code points above it; any other character is kept |
| Strings.Lower | tasks/quality_gate_tasks.py:19 | `lower()` keeps the length and lower-cases each character in place |
| Strings.ReplaceChar | tasks/quality_gate_tasks.py:19 | replacing one character by another keeps the length and changes exactly the occurrences |
| Strings.ReplaceOneChar | tasks/quality_gate_tasks.py:19-40 | Python's general `replace` with one-character pattern and text is that character map |
| Strings.ReplaceAbsent | tasks/quality_gate_tasks.py:40 | a pattern that cannot occur leaves the string unchanged |
| Strings.ReplaceLeading | tasks/quality_gate_tasks.py:40 | an occurrence at the start is replaced and the scan resumes after it |
| Strings.UpperChar | tasks/planning_tasks.py:13 | a lower-case ASCII letter becomes the capital 32 code points below it; any other character is kept |
| Strings.TitleChar | tasks/planning_tasks.py:13 | one character of `title()`: the same letter ignoring case, upper case unless it follows a letter; a non-letter is kept |
| Strings.Title | tasks/planning_tasks.py:13 | `title()` keeps the length (the characters are `Strings.TitleCases`) |
| Strings.TitleCases | tasks/planning_tasks.py:13 | `title()` gives `UpperChar` of a character at the start or after a non-letter and `LowerChar` of one after a letter |
| FormatTools.GenerateHeading | utils/format_tools.py:3-5 | `level` hashes (none for a non-positive level), a space, the title, a line break, and nothing else |
| FormatTools.HeadingExample | utils/format_tools.py:4 | the docstring example: level 2 of "Title" is `## Title` and a line break |
| FormatTools.FormatSection | utils/format_tools.py:7-10 | a section is at least as long as its heading and two line breaks |
| FormatTools.FormatSectionBody | utils/format_tools.py:7-10 | a section is the heading, a line break, the body with whitespace removed from both ends and nothing else, then a line break |
| FormatTools.RowLine | utils/format_tools.py:14-16 | every table line starts with `\| ` and ends with ` \|` |
| FormatTools.Dashes | utils/format_tools.py:15 | `["---"] * n` is `n` cells of `---` |
| FormatTools.CreateTable | utils/format_tools.py:12-17 | when no cell holds a line break, the table has exactly 2 + len(rows) lines: header, separator, rows in order |
| FormatTools.RowLineCells | utils/format_tools.py:14-16 | splitting a line on `\|` gives one padded piece per cell between two empty pieces |
| FormatTools.SeparatorCells | utils/format_tools.py:15 | the separator line of `n` headers has exactly `n` cells, each ` --- ` |
| FormatTools.WrapCodeBlock | utils/format_tools.py:19-21 | a block is at least as long as its language plus the two fences and two line breaks |
| FormatTools.WrapCodeBlockBody | utils/format_tools.py:19-21 | a block opens with a fence, the language and a line break, and closes with a line break and a fence; in between is the code with its ends stripped |
| FormatTools.RStripAll | utils/format_tools.py:25 | the comprehension right-strips each line in place, keeping their number |
| FormatTools.CleanOutput | utils/format_tools.py:23-26 | the result has no line ending in whitespace and no whitespace at either end |
| FormatTools.JoinedLinesRTrimmed | utils/format_tools.py:26 | joining right-stripped lines leaves no line ending in whitespace |
| FormatTools.StripLinesRTrimmed | utils/format_tools.py:26 | the final `strip` keeps every line free of trailing whitespace |
| FormatTools.CleanOutputFixpoint | utils/format_tools.py:25-26 | clean text is left unchanged, so interior blank lines survive |
| FormatTools.CleanOutputIdempotent | utils/format_tools.py:23-26 | applying `clean_output` twice equals applying it once |
| FormatTools.BlankLineKept | utils/format_tools.py:25-26 | `a`, a blank line and `b` come out unchanged |
| SharedMemory.Lookup | memory/shared_memory.py:24-28 | `get` finds a value exactly when both phase and key are present, and then it is the stored one; otherwise None, without raising |
| SharedMemory.PhaseData | memory/shared_memory.py:30-34 | `get_phase_data` is the phase's mapping, or an empty one when the phase is absent, holding exactly the keys `get` finds |
| SharedMemory.Put | memory/shared_memory.py:15-21 | `set` creates the phase when absent, makes `get` return the new value, and leaves every other (phase, key) entry as it was |
| SharedMemory.GetAfterSet | memory/shared_memory.py:19-28 | a read after a write of the same entry returns the written value |
| SharedMemory.SetOverwrites | memory/shared_memory.py:21 | a second write of the same entry leaves only the later value |
| SharedMemory.SetsCommute | memory/shared_memory.py:19-21 | writes of two different entries commute |
| SharedMemory.PhaseDataAfterSet | memory/shared_memory.py:21-34 | after a write, the phase mapping is the old one with the new entry |
| SharedMemory.ClearedIsEmpty | memory/shared_memory.py:40 | after `clear`, `get` is None for every entry and every phase mapping is empty |
| SharedMemory.Memory.constructor | memory/shared_memory.py:8 | a store starts empty |
| SharedMemory.Memory.Set | memory/shared_memory.py:15-21 | `set` updates the nested map in place to `Put` of the old one |
| SharedMemory.Memory.Get | memory/shared_memory.py:24-28 | `get` returns `Lookup` of the map and changes nothing |
| SharedMemory.Memory.GetPhaseData | memory/shared_memory.py:30-34 | `get_phase_data` returns `PhaseData` and does not insert the phase |
| SharedMemory.Memory.Clear | memory/shared_memory.py:36-41 | `clear` empties the map |
| SharedMemory.Singleton.constructor | memory/shared_memory.py:7 | the class-level instance slot starts empty |
| SharedMemory.Singleton.New | memory/shared_memory.py:10-13 | the first construction creates an empty store; every later one returns that same object |
| SharedMemory.SharedBetweenCallers | memory/shared_memory.py:10-44 | two constructions yield one object, so a write through one is read through the other |
| TaskModel.Fallback | tasks/initiation_tasks.py:12-15 | `get(...) or placeholder`: the stored value when it is truthy (present and not ""), else the placeholder |
| TaskModel.Cut | tasks/requirement_tasks.py:39-40 | an excerpt is a prefix of at most `limit` characters, the whole text without a limit |
| TaskModel.Bind | tasks/requirement_tasks.py:14-40 | a slot binds the excerpt of the fallback's `str`; slicing a stored output object raises TypeError |
| TaskModel.BindMissing | tasks/requirement_tasks.py:14-15 | a missing or empty entry binds a prefix of the placeholder, the whole placeholder when the limit allows |
| TaskModel.BindPresent | tasks/requirement_tasks.py:39-40 | non-empty stored text binds its prefix of length `min(limit, len)` |
| TaskModel.Dirname | utils/file_writer.py:7 | `os.path.dirname` on a relative path is a proper prefix of a non-empty path, and empty for a path without `/` |
| TaskModel.DirChain | bootstrap.py:61 | `os.makedirs` makes sure of the path itself |
| TaskModel.SaveTitle | tasks/planning_tasks.py:13 | the announced title is as long as the key (its characters are `TaskModel.SaveTitleCases`) |
| TaskModel.WriteOutput | utils/file_writer.py:5-12 | when the path's directory is missing, it is created with every missing parent (`os.makedirs`); the file is (re)created; writing a non-string raises TypeError and leaves the file empty; other files are untouched |
| TaskModel.SaveTitleAt | tasks/planning_tasks.py:13 | one position of the announced title: a space for an underscore, else `UpperChar` at the start or after a non-letter and `LowerChar` after a letter |
| TaskModel.SaveTitleCases | tasks/planning_tasks.py:13 | in the announced title, underscores become spaces, a character at the start or after an underscore or other non-letter is `UpperChar` of the key's, and one after a letter is `LowerChar` of it |
| TaskModel.Step | tasks/initiation_tasks.py:23-24 | one callback step: `set` stores its argument and changes nothing else; `write_output` leaves the store alone and raises exactly for the raw object; `_save_task_output` without `raw_output` raises AttributeError |
| TaskModel.FileSystem.constructor | utils/file_writer.py:5-12 | an empty file system |
| TaskModel.FileSystem.MakeDirs | bootstrap.py:61 | `os.makedirs(exist_ok=True)` adds the directory chain and leaves files alone |
| TaskModel.FileSystem.Write | utils/file_writer.py:5-12 | `write_output` in place ends in the state `WriteOutput` describes, the missing parents included |
| TaskModel.DirChainClosed | utils/file_writer.py:9 | the directories `os.makedirs` makes hold the parents of each of them |
| TaskModel.WriteKeepsParents | utils/file_writer.py:7-9 | on directories closed under parents, `write_output` keeps them closed and adds exactly the path's directory and its parents |
| TaskModel.ApplyCallback | tasks/planning_tasks.py:10-16 | running a callback step by step against the store and the files ends where `RunCallback` says, stopping at the first exception |
| TaskModel.GuardedKeepsText | tasks/testing_tasks.py:91-92 | when every raw `set` follows a raw file write, a callback never leaves a non-string in the store |
| TaskModel.RawWriteFirstRaises | tasks/testing_tasks.py:91-92 | a callback that first writes the object raises TypeError there, with the file emptied and nothing stored |
| TaskModel.StoreKeys | tasks/initiation_tasks.py:23-24 | the (phase, key) pairs a callback sets, in order, no more of them than it has steps |
| TaskModel.FilePaths | tasks/initiation_tasks.py:23-24 | the paths a callback writes, in order, no more of them than it has steps |
| TaskModel.CallbackStores | tasks/initiation_tasks.py:23-24 | a `str(output)` callback never raises and leaves `str(output)` under each pair it sets |
| TaskModel.CallbackStoresRest | tasks/initiation_tasks.py:23-24 | such a callback leaves every pair it does not set as it was |
| TaskModel.BindAll | tasks/requirement_tasks.py:14-55 | a task's slots bind in order; construction succeeds exactly when each slot does, and otherwise raises TypeError |
| TaskModel.Build | tasks/requirement_tasks.py:13-55 | `Task(...)` binds its slots from the store at that moment and has no context yet |
| TaskModel.BuildAll | tasks/requirement_tasks.py:664-678 | tasks built in list order all bind from one store |
| TaskModel.WithContexts | tasks/requirement_tasks.py:681-691 | the `.context` assignments change only each task's context |
| TaskModel.Contexts | tasks/requirement_tasks.py:681-691 | the context lists of a task list, position by position |
| TaskModel.Upto | tasks/initiation_tasks.py:59 | the gate's context `core_tasks`: each index 0..n-1 in order |
| TaskModel.NoContexts | tasks/testing_tasks.py:52-156 | tasks never given a `.context` have an empty one |
| TaskModel.Wire | tasks/initiation_tasks.py:59-61 | `gate.context = core_tasks; return core_tasks + [gate]`: the core unchanged, then the gate depending on every core index |
| TaskModel.WireTopological | tasks/requirement_tasks.py:707-709 | appending the gate keeps topological order, and the gate depends on every core task |
| TaskModel.Core | tasks/requirement_tasks.py:664-698 | core tasks are built from one store and get exactly the given contexts; construction raises TypeError exactly when some slot cannot bind |
| TaskModel.Gated | tasks/requirement_tasks.py:694-709 | a gated factory succeeds exactly when the core and the gate both do, and then returns `Wire(core, gate)`; with the core built, its error is the gate's |
| TaskModel.FactoryTask | tasks/testing_tasks.py:52-156 | a plain factory's tasks are its specs with their slots bound and no context |
| TaskModel.FactoryOfText | tasks/testing_tasks.py:52-156 | over a store of strings, a plain factory returns one task per spec |
| TaskModel.FactorySameReads | tasks/testing_tasks.py:163-170 | stores that agree on every entry a factory reads give the same tasks |
| TaskModel.BindAllSameReads | tasks/testing_tasks.py:163-170 | stores that agree on every slot's entry bind the slots identically |
| TaskModel.GatedTopological | tasks/requirement_tasks.py:681-709 | backward core contexts give a topological list with the gate last, depending on every core task |
| TaskModel.BoundAtConstruction | tasks/requirement_tasks.py:664-678 | every slot holds the excerpt of the store as it was when the factory was called |
| TaskModel.BoundMissing | tasks/initiation_tasks.py:12-15 | a missing or empty entry whose limit does not cut its placeholder binds the placeholder |
| TaskModel.CoreWiredOf | tasks/initiation_tasks.py:59-61 | the returned contexts are the given ones followed by all core indices, and topological |
| TaskModel.CoreTopologicalOf | tasks/requirement_tasks.py:681-698 | backward context assignments stay backward in the built tasks |
| TaskModel.TextBinds | tasks/requirement_tasks.py:39-40 | over a store of strings no slot raises |
| TaskModel.CoreOfText | tasks/requirement_tasks.py:664-678 | over a store of strings the core tasks are always constructed |
| TaskModel.SlicedObjectRaises | tasks/development_tasks.py:36-41 | a sliced slot whose entry is a stored output object makes its factory raise TypeError |
| TaskModel.Names | tasks/requirement_tasks.py:701-706 | every keyword argument's name is among the names a call binds |
| TaskModel.NamesOfKeywords | tasks/requirement_tasks.py:701-706 | the names a call binds are keyword arguments' names and no others |
| TaskModel.CountPos | tasks/quality_gate_tasks.py:7 | the positional arguments that lead a call, at most all of them |
| TaskModel.Positional | tasks/quality_gate_tasks.py:7 | exactly the first `n` parameters are bound, in order, to the first `n` positional arguments |
| TaskModel.BindCall | tasks/quality_gate_tasks.py:7 | Python's argument binding: the call succeeds exactly when `CallAccepted` holds (no more positional arguments than parameters, each keyword naming a declared parameter not yet bound, every parameter bound neither way having a default), and raises TypeError otherwise; on success every parameter and nothing else is bound, the first ones to the positional arguments, each keyword argument to its own value and every remaining parameter to its default |
| TaskModel.PositionalKeys | tasks/quality_gate_tasks.py:7 | the positional arguments bind exactly the first `n` parameters |
| TaskModel.DefaultsAccepted | tasks/quality_gate_tasks.py:7 | after positional and keyword binding, the defaults complete the call exactly when every parameter no argument named has a default |
| TaskModel.BindCallFacts | tasks/quality_gate_tasks.py:7 | on success every declared parameter is bound and nothing else, the first ones to the positional arguments |
| TaskModel.BindKeywords | tasks/quality_gate_tasks.py:7 | keywords bind exactly when each names a declared, still unbound parameter, adding their names and keeping earlier bindings |
| TaskModel.KeywordValues | tasks/quality_gate_tasks.py:7 | each accepted keyword argument binds its own value |
| TaskModel.KeywordsBound | tasks/quality_gate_tasks.py:7 | after the defaults are filled in, each keyword argument still holds its own value |
| TaskModel.DefaultsBound | tasks/quality_gate_tasks.py:7 | a parameter bound neither by position nor by keyword takes its default |
| TaskModel.KeywordNamesDeclared | tasks/quality_gate_tasks.py:7 | every keyword of an accepted call names a declared parameter |
| TaskModel.UndeclaredKeyword | tasks/design_task.py:683-688 | a keyword that names no parameter is never accepted |
| TaskModel.UndeclaredKeywordRaises | tasks/requirement_tasks.py:701-706 | a call with an undeclared keyword raises TypeError |
| TaskModel.BoundKeywordRejected | tasks/quality_gate_tasks.py:7 | a keyword naming an already bound parameter is never accepted |
| TaskModel.RepeatedKeywordRejected | tasks/quality_gate_tasks.py:7 | two keywords with the same name are never accepted, whatever their values |
| TaskModel.RebindPositionalRaises | tasks/quality_gate_tasks.py:7 | a keyword re-binding a positionally filled parameter raises TypeError, even with the same value |
| TaskModel.RepeatedKeywordRaises | tasks/quality_gate_tasks.py:7 | a call passing one keyword twice raises TypeError, even with equal values |
| TaskModel.PositionalCall | tasks/initiation_tasks.py:53-58 | positional arguments bind when there are not too many and every left-over parameter has a default |
| TaskModel.FillDefaults | tasks/quality_gate_tasks.py:7 | each unbound parameter takes its default value and bound ones keep theirs; the call raises TypeError exactly when an unbound one has no default |
| QualityGate.Namespace | tasks/quality_gate_tasks.py:19 | the namespace is the phase name with spaces as `_`, lower-cased, character by character |
| QualityGate.GateTask | tasks/quality_gate_tasks.py:19-31 | the gate embeds `str` of what is stored under (namespace, key), or the placeholder when that is missing or empty, and has no context |
| QualityGate.CreateQualityGateTask | tasks/quality_gate_tasks.py:7-43 | the call raises TypeError exactly when its arguments do not bind; otherwise it is the gate for the bound phase name and key |
| QualityGate.ParamsFacts | tasks/quality_gate_tasks.py:7 | the four parameters are distinct, the second and third being `phase_name` and `previous_tasks_output_key` |
| QualityGate.ThreePositional | tasks/quality_gate_tasks.py:7 | three positional arguments are accepted and give the gate for that phase name and key |
| QualityGate.FourPositional | tasks/initiation_tasks.py:53-58 | four positional arguments, the fourth being the suffix, are accepted and give the gate for that phase name and key |
| QualityGate.GateReadsWhereItStores | tasks/quality_gate_tasks.py:19-41 | the gate stores its report under the namespace it reads from, and writes one file, its report path |
| QualityGate.GateCallbackStores | tasks/quality_gate_tasks.py:38-42 | the gate callback never raises, stores `str(output)` as `validation_report` under the namespace, and writes it to the report path |
| QualityGate.NamespaceOfPhase | tasks/quality_gate_tasks.py:19 | `Phase <d>:<rest>` has namespace `phase_<d>:` followed by the namespace of the rest |
| QualityGate.ReportDirOfPhase | tasks/quality_gate_tasks.py:40 | for `Phase <d>:<rest>` the report directory is the digit alone |
| QualityGate.PhaseNames | tasks/quality_gate_tasks.py:19-40 | for `Phase <d>:<rest>`: namespace `phase_<tail>`, report `<d>/validation_report_<tail>.md`, while the expected output announces `validation_report_phase_<tail>.md`, a different name |
| QualityGate.ExpectedDiffers | tasks/quality_gate_tasks.py:35-40 | the announced file name keeps "phase_" and so differs from the written one |
| QualityGate.PhaseNamespace | tasks/quality_gate_tasks.py:19-40 | for `Phase <d>:<rest>` the namespace is `phase_<tail>` and the report `validation_report_<tail>.md` |
| QualityGate.ReportFileOfPhase | tasks/quality_gate_tasks.py:40 | the written file name is the namespace without "phase_", six characters shorter than the announced one |
| Initiation.InitiationOk | tasks/initiation_tasks.py:8-61 | the factory never raises and returns four tasks, whatever the store holds |
| Initiation.CoreOk | tasks/initiation_tasks.py:17-50 | the three core tasks are always constructed |
| Initiation.InitiationShape | tasks/initiation_tasks.py:53-61 | the list is the three core tasks, then the gate for "Phase 0: Initiation" and `project_charter` wired after them |
| Initiation.CoreBound | tasks/initiation_tasks.py:12-50 | vision, conops and charter each embed the full seed request, or its placeholder when missing or empty |
| Initiation.GateBound | tasks/initiation_tasks.py:53-58 | the gate embeds what is stored under ("phase_0:_initiation", "project_charter") |
| Initiation.InitiationTasksBound | tasks/initiation_tasks.py:12-61 | the returned tasks in order, with what each one embeds |
| Initiation.InitiationContexts | tasks/initiation_tasks.py:32-61 | conops after vision, charter after both, the gate after all three; the order is topological |
| Initiation.CoreWired | tasks/initiation_tasks.py:32-59 | any core list with the phase's contexts, wired to any gate, gets the contexts [], [0], [0, 1], [0, 1, 2], in topological order |
| Initiation.InitiationCallbacks | tasks/initiation_tasks.py:21-48 | the callbacks store under "phase_0" as `vision_document`, `conops`, `project_charter`; the charter's stores `str(output)` without raising |
| Initiation.GateSeesPlaceholder | tasks/initiation_tasks.py:48-58 | nothing of this phase stores in the gate's namespace, so the gate embeds the placeholder unless something else put the charter there |
| Initiation.CharterMissesGate | tasks/initiation_tasks.py:48-58 | the charter's callback leaves the entry the gate reads unchanged |
| Initiation.GateNames | tasks/initiation_tasks.py:53-58 | "Phase 0: Initiation" gives namespace `phase_0:_initiation`, directory `0` and a report name differing from the announced one |
| Deployment.Exec | tasks/deployment_tasks.py:1-8 | module statements run in order; an unbound name raises NameError; the names bound only grow |
| Deployment.UnboundLoadRaises | tasks/deployment_tasks.py:1 | loading a name nothing earlier binds raises NameError |
| Deployment.ImportRaises | tasks/deployment_tasks.py:1 | importing the module raises NameError at `ds`, so no importer obtains the factory |
| Deployment.DeploymentOk | tasks/deployment_tasks.py:8-73 | the factory never raises and returns four tasks |
| Deployment.CoreOk | tasks/deployment_tasks.py:16-62 | the three core tasks are always constructed |
| Deployment.DeploymentShape | tasks/deployment_tasks.py:65-73 | the list is the three core tasks, then the gate for "Phase 6: Deployment" and the plan's key |
| Deployment.CoreBound | tasks/deployment_tasks.py:13-62 | the plan embeds the project plan and the build plan in full or 'Không có'; handover and monitoring embed nothing from the store |
| Deployment.PlansPlaceholder | tasks/deployment_tasks.py:13-22 | a missing or empty project plan or build plan reaches the plan as 'Không có' |
| Deployment.DeploymentContexts | tasks/deployment_tasks.py:41-71 | handover and monitoring depend on the plan only, the gate on all three; the order is topological |
| Deployment.CoreWired | tasks/deployment_tasks.py:41-71 | any core list with the phase's contexts, wired to any gate, gets the contexts [], [0], [0], [0, 1, 2], in topological order |
| Deployment.DeploymentCallbacks | tasks/deployment_tasks.py:29-60 | the callbacks store `deployment_plan_and_impl_plan`, `handover_documents`, `monitoring_guide` under "phase_6_deployment" |
| Deployment.PlanMissesGate | tasks/deployment_tasks.py:29-70 | the plan's callback leaves the entry the gate reads, under "phase_6:_deployment", unchanged |
| Deployment.GateBound | tasks/deployment_tasks.py:65-70 | the gate embeds what is stored under ("phase_6:_deployment", "deployment_plan_and_impl_plan") |
| Deployment.GateNames | tasks/deployment_tasks.py:65-70 | "Phase 6: Deployment" gives namespace `phase_6:_deployment`, directory `6` and a report name differing from the announced one |
| Maintenance.MaintenanceOk | tasks/maintenance_tasks.py:8-83 | the factory never raises and returns five tasks |
| Maintenance.CoreOk | tasks/maintenance_tasks.py:15-72 | the four core tasks are always constructed |
| Maintenance.MaintenanceShape | tasks/maintenance_tasks.py:75-83 | the list is the four core tasks, then the gate for "Phase 7: Maintenance" and `maintenance_plan` |
| Maintenance.CoreBound | tasks/maintenance_tasks.py:12-72 | the plan embeds the SLA and the deployment plan in full or 'Không có'; the other three embed nothing from the store |
| Maintenance.PlansPlaceholder | tasks/maintenance_tasks.py:12-21 | a missing or empty SLA or deployment plan reaches the plan as 'Không có' |
| Maintenance.MaintenanceContexts | tasks/maintenance_tasks.py:81 | no core task depends on another; the gate depends on all four; the order is topological |
| Maintenance.CoreWired | tasks/maintenance_tasks.py:81 | any core list with the phase's contexts, wired to any gate, keeps the core contexts empty and the gate's is [0, 1, 2, 3], in topological order |
| Maintenance.MaintenanceCallbacks | tasks/maintenance_tasks.py:28-70 | the callbacks store `maintenance_plan`, `lessons_learned`, `transition_plan`, `knowledge_transfer` under "phase_7_maintenance" |
| Maintenance.PlanMissesGate | tasks/maintenance_tasks.py:28-80 | the plan's callback leaves the entry the gate reads unchanged |
| Maintenance.ReadsDeploymentKey | tasks/maintenance_tasks.py:13 | the deployment plan is read under the pair the deployment plan's callback stores |
| Maintenance.SeesDeploymentPlan | tasks/maintenance_tasks.py:13-21 | a factory called after the deployment plan's callback ran embeds that output in full |
| Maintenance.GateBound | tasks/maintenance_tasks.py:75-80 | the gate embeds what is stored under ("phase_7:_maintenance", "maintenance_plan") |
| Maintenance.GateNames | tasks/maintenance_tasks.py:75-80 | "Phase 7: Maintenance" gives namespace `phase_7:_maintenance`, directory `7` and a report name differing from the announced one |
| Requirement.GateCallRaises | tasks/requirement_tasks.py:701-706 | the gate call's keywords `agent`, `keys_to_check` and `document_names` are undeclared, so it raises TypeError |
| Requirement.RequirementRaises | tasks/requirement_tasks.py:657-709 | whatever the store holds, the factory raises TypeError and never returns a list |
| Requirement.CoreOk | tasks/requirement_tasks.py:664-678 | over a store of strings the thirteen core tasks are constructed |
| Requirement.CoreTopological | tasks/requirement_tasks.py:279-698 | every context target lies earlier in `core_tasks` |
| Requirement.ContextsBackward | tasks/requirement_tasks.py:681-691 | each context assignment names only tasks built earlier |
| Requirement.GateWouldDependOnAll | tasks/requirement_tasks.py:707-709 | were the gate call accepted, the gate would come last, depending on all thirteen, in topological order |
| Requirement.ConsumersReadProducers | tasks/requirement_tasks.py:54-474 | each consumer reads the pair its producer stores, the producer is earlier and in the consumer's context |
| Requirement.FeedsBackward | tasks/requirement_tasks.py:681-691 | every producer feeding a consumer precedes it and is in its context |
| Requirement.FeedKey | tasks/requirement_tasks.py:54-58 | the slot a feed names reads, under "phase_2", the key its producer stores |
| Requirement.ConsumersSeeConstructionStore | tasks/requirement_tasks.py:664-678 | every store-derived slot holds the store as it was at construction, never what a producer later stores |
| Requirement.SlotLimits | tasks/requirement_tasks.py:39-196 | every slot is cut to 500, 1000, 1500, 2000 or 3000 characters |
| Requirement.ExcerptsBounded | tasks/requirement_tasks.py:39-196 | every excerpt is a prefix of the bound value no longer than its slot's limit |
| Requirement.CallbackKeys | tasks/requirement_tasks.py:54-653 | every task but use-case step 1 stores exactly one key under "phase_2"; use-case step 1 has no callback |
| Requirement.StoredKeysDistinct | tasks/requirement_tasks.py:54-653 | no two core tasks store under the same key |
| Requirement.MissingSrs | tasks/requirement_tasks.py:163-536 | a missing or empty SRS reaches each of its readers as its placeholder |
| Design.GateCallRaises | tasks/design_task.py:683-688 | the gate call's undeclared keywords raise TypeError |
| Design.DesignRaises | tasks/design_task.py:653-691 | whatever the store holds the factory raises TypeError: at a slice of a stored output object, or else at the gate call's undeclared `agent=`; it never returns a list |
| Design.CoreOk | tasks/design_task.py:659-667 | over a store of strings the ten core tasks are built |
| Design.CoreTopological | tasks/design_task.py:87-681 | every context target precedes its dependent in `core_tasks` |
| Design.ContextsBackward | tasks/design_task.py:669-676 | each context assignment names only tasks built earlier |
| Design.ContextGraph | tasks/design_task.py:87-676 | step 2 on step 1; dfd, db, api, security and hld on step 2; lld on hld; report on db; sequence on hld and api |
| Design.GateWouldDependOnAll | tasks/design_task.py:689-691 | were the gate call accepted, the gate would come last, depending on all ten, in topological order |
| Design.ConsumersReadProducers | tasks/design_task.py:47-430 | step 2 and hld read step 1's architecture and lld reads hld's design, each producer earlier in the list |
| Design.FeedKey | tasks/design_task.py:47-374 | the slot a feed names reads a pair its earlier producer's callback sets |
| Design.ReadsRequirementSecurity | tasks/design_task.py:318 | the security architecture reads the pair the requirements' security task stores |
| Design.ArchitectureReadEarly | tasks/design_task.py:18-47 | step 2 reads the architecture at construction, so without a prior one it embeds the placeholder |
| Design.CallbackKeys | tasks/design_task.py:47-649 | eight tasks store one distinct "phase_3" key each; report and sequence only write files |
| Planning.Group | tasks/planning_tasks.py:20-147 | a factory's tasks, one per key in order, each saved under its own key and folder |
| Planning.Construct | tasks/planning_tasks.py:106-906 | a strict Task model refuses a task without a description with a validation error; otherwise each task is built with no slots and no context |
| Planning.AllDescribed | tasks/planning_tasks.py:150-204 | a factory whose tasks all have a description returns one task per spec, strict or not |
| Planning.MisspelledFactories | tasks/planning_tasks.py:106-1194 | the costing and WBS factories raise under a strict Task model, and otherwise return three and four tasks |
| Planning.WellFormedFactories | tasks/planning_tasks.py:204-898 | the other six return one, three, two, one, one and three tasks in any case |
| Planning.SavedWhere | tasks/planning_tasks.py:15-16 | a planning callback stores under ("phase_1", key) and writes `<folder>/<key>.md` |
| Planning.KeysDistinct | tasks/planning_tasks.py:61-1192 | the eighteen planning keys are pairwise distinct |
| Planning.DirnameOfJoin | tasks/planning_tasks.py:15 | the directory of `<folder>/<file>` is the folder |
| Planning.SaveOutputEffect | tasks/planning_tasks.py:10-16 | `_save_task_output` writes and stores the same `str(raw_output)`, making the folder and its missing parents when the folder is missing; without `raw_output` it raises before anything happens |
| Planning.SavedOutput | tasks/planning_tasks.py:12-16 | a planning callback stores under its key the very text it writes |
| Planning.PlanningFeedsNoReader | tasks/planning_tasks.py:16 | no planning task stores the plan deployment reads, nor the initiation documents the requirements read |
| Development.FactoryAppend | tasks/development_tasks.py:168-175 | two factories called in turn equal one factory over both spec lists |
| Development.BothOk | tasks/development_tasks.py:168-175 | when both factories succeed, concatenating their lists equals the factory over both spec lists |
| Development.AllDevelopment | tasks/development_tasks.py:168-175 | `create_all_development_tasks` builds all ten tasks in factory order from one store |
| Development.DevelopmentOk | tasks/development_tasks.py:168-175 | over a store of strings it returns 1 + 3 + 2 + 2 + 2 = 10 tasks |
| Development.DevelopmentRaises | tasks/development_tasks.py:36-41 | a stored output object under the LLD makes the whole call raise TypeError |
| Development.ChecklistBound | tasks/development_tasks.py:14-22 | the checklist embeds 600-character prefixes of the guidelines and standards as stored at construction |
| Development.RawTasks | tasks/development_tasks.py:45-104 | exactly the documentation and standards tasks hand the object itself to `write_output` |
| Development.StrTasks | tasks/development_tasks.py:26-161 | the other five store `str(output)` under their own key |
| Development.StandardsNeverStored | tasks/development_tasks.py:90-95 | no development callback changes the standards or the guidelines: the standards callback raises at its first write |
| Testing.TestingOk | tasks/testing_tasks.py:156-433 | over a store of strings the first four factories return 3, 3, 2 and 2 tasks |
| Testing.LaterTestingOk | tasks/testing_tasks.py:507-720 | the audit, execution and management factories return 2, 3 and 5 |
| Testing.RawGroups | tasks/testing_tasks.py:91-710 | the plan, case, execution and management callbacks hand the object itself to `write_output` first |
| Testing.StrGroups | tasks/testing_tasks.py:309-502 | the security, performance, QA and audit callbacks store `str(output)` |
| Testing.ConsumerReads | tasks/testing_tasks.py:168-610 | the reads of the case, execution and management tasks |
| Testing.CallbackKeepsConsumerReads | tasks/testing_tasks.py:92-551 | no testing callback changes an entry those consumers read |
| Testing.CasesSeeNoTestingOutput | tasks/testing_tasks.py:168 | the case tasks are the same whether built before or after any testing callback |
| Testing.ExecutionSeesNoTestingOutput | tasks/testing_tasks.py:519-520 | likewise the execution tasks |
| Testing.ManagementSeesNoTestingOutput | tasks/testing_tasks.py:609-610 | likewise the management tasks |
| Testing.ConsumerReadsKept | tasks/testing_tasks.py:168-610 | every consumer entry is unchanged by any testing callback |
| Testing.ReadsMissProducers | tasks/testing_tasks.py:362-445 | the QA and audit tasks read checklists under "phase_5_testing", where development and planning do not store them |
| InputTasks.RunInputCollection | tasks/phase_0/input_tasks.py:83-106 | the interview stores and writes the same transcript, records every answer, or raises EOFError, touching nothing, when the answers run out |
| InputTasks.AskAll | tasks/phase_0/input_tasks.py:87-98 | the outer loop builds the transcript and the recorded answers of all groups |
| InputTasks.AskNext | tasks/phase_0/input_tasks.py:87-92 | one group: its header, then its questions |
| InputTasks.AskGroup | tasks/phase_0/input_tasks.py:94-98 | the inner loop adds one entry per question, consuming answers in order |
| InputTasks.GroupStep | tasks/phase_0/input_tasks.py:92-98 | one more group adds its header and its answered questions |
| InputTasks.AskedMonotone | tasks/phase_0/input_tasks.py:87 | asking more groups never asks fewer questions |
| InputTasks.AskedSix | tasks/phase_0/input_tasks.py:74-81 | six groups ask their questions group after group |
| InputTasks.GroupSizes | tasks/phase_0/input_tasks.py:13-81 | six groups of six, four, three, three, three and three questions |
| InputTasks.AllQuestions | tasks/phase_0/input_tasks.py:74-81 | the interview asks the six groups' questions in order, twenty-two in all |
| InputTasks.QuestionsDistinct | tasks/phase_0/input_tasks.py:13-72 | no question is asked twice |
| InputTasks.RecordedMaps | tasks/phase_0/input_tasks.py:97 | with distinct questions the record maps exactly the questions asked, each to its answer |
| InputTasks.InterviewRecords | tasks/phase_0/input_tasks.py:83-97 | a completed run records each of the twenty-two questions, and nothing else, with its answer |
| InputTasks.TranscriptGrows | tasks/phase_0/input_tasks.py:92-98 | an earlier transcript is a prefix of every later one |
| InputTasks.FirstHeader | tasks/phase_0/input_tasks.py:92 | the transcript begins with the first group's header |
| InputTasks.FirstGroup | tasks/phase_0/input_tasks.py:92-98 | after one group the transcript is its header and its answered questions |
| Bootstrap.AllStart | bootstrap.py:69-217 | when nothing escapes, the phases start in order |
| Bootstrap.GuardedRunCompletes | bootstrap.py:88-219 | when nothing escapes, every phase starts in order and the completion line comes last |
| Bootstrap.TraceSticks | bootstrap.py:72-84 | once an exception escapes, later phases add nothing |
| Bootstrap.UnguardedAborts | bootstrap.py:72-84 | an escaping exception aborts the run: no later phase starts and no completion line is logged |
| Bootstrap.PhasesShape | bootstrap.py:69-217 | eight phases: 0 unguarded, 1 to 7 guarded, 1 to 5 only logging a skip |
| Bootstrap.RunTrace | bootstrap.py:69-219 | an initiation failure ends the run after its first line; otherwise all phases run whatever deployment and maintenance do, and the run completes |
| Bootstrap.CiteRaises | bootstrap.py:74-205 | each crew block raises; with the agents and tasks made, it is the citation's NameError |
| Bootstrap.AsWrittenAborts | bootstrap.py:72-74 | as written, phase 0 always aborts the run, with NameError when the agents were created |
| Bootstrap.PhaseDirMade | bootstrap.py:60-61 | each pass makes `output/<i>_<name>` and `output` |
| Bootstrap.MadeDirs | bootstrap.py:58-61 | the loop makes exactly `output` and the eight phase directories |
| Bootstrap.InPhaseDirs | bootstrap.py:60-61 | the directory of phase `i` is among the first `n` exactly when `i < n` |
| Bootstrap.PhaseDirsDistinct | bootstrap.py:61 | the eight directories are distinct |
| Bootstrap.SeedReachesInitiation | bootstrap.py:70-74 | the seeded request reaches vision, conops and charter in full, or as the placeholder when it is empty |
| Bootstrap.Guarded | bootstrap.py:88-104 | a guarded phase logs its exception and lets none escape |
| Bootstrap.RunProjectCrew | bootstrap.py:51-219 | the output directories are made and no file is touched; if creating the project manager raises, that exception ends the run with nothing logged or stored; otherwise the request is seeded under ("phase_0", "system_request") and the log and escaping exception are those of the eight phases |
| Bootstrap.MakePhaseDirs | bootstrap.py:58-61 | the start-up loop adds `output` and the eight phase directories and touches no file |
| Bootstrap.RunPhases | bootstrap.py:69-219 | the log and the escaping exception are `RunAll`'s over the eight phases: phase 0 unguarded, phases 1–7 each guarded, and the completion line only when nothing escaped |

## Left out

- crewai itself: agents, `Crew`, `Process.sequential` and `kickoff`. A task is a record and
  a crew block's result is a given outcome (success or an exception). The LLM calls are not modelled.
- The prose of every `description` and `expected_output`: only the interpolated store slots and
  their prefix lengths are kept. The braces in the examples of the `expected_output` texts are
  plain characters, since those literals are not f-strings.
- `print`, `logging` text beyond which phase starts, skips, finishes or fails, and `load_dotenv`.
- `input()`: replaced by a given sequence of answers; running out of them is EOFError.
- agents/*.py, main.py, utils/prompt_loader.py and agents/input/system_request.py are not part of
  this model. They hold agent descriptors, imports and file reading without logic.
- Creating the agents (bootstrap.py:65, 72, 184, 203) is an opaque outcome. The unpacking at bootstrap.py:72 of
  the single agent `create_initiation_agents` returns is one such outcome.
- `bootstrap.py` cannot be imported at all, because its import of `tasks.deployment_tasks`
  raises, as `Deployment.ImportRaises` states. `run_project_crew` is modelled as if it could be called.
- `create_requirement_tasks` is written inside `RequirementTasksFactory` without `self`; it is
  modelled as called through the class.
- The requirement change request literal (tasks/requirement_tasks.py:671-672) is only prose.
- Planning's `system_request` read is never interpolated and has no effect. The two tasks that
  pass `ddescription` lack `description`, a field crewai's Task declares as required. Whether
  building them raises depends on the crewai version, so it is the `strict` parameter.
- Each testing and development factory reads the store (an effectless lookup); only reads that
  reach a description are slots.
- Strings: `lower` and `title` act on ASCII letters only, and `\n` is the only line break.
  `strip` uses Python's whitespace set.
- Files are a map from path to last content plus a set of directories. Encodings, permissions and
  the file system's own errors are left out.
- `run_input_collection` returns nothing; `system_info` is returned by the model only to state
  what the loop records.
- Strings.Title: its own contract states only the length; what it does to each character is
  `Strings.TitleCases`.
- TaskModel.SaveTitle: its own contract states only the length; see `TaskModel.SaveTitleCases`.
- FormatTools.FormatSection: its own contract states a length bound; the layout is
  `FormatTools.FormatSectionBody`.
- FormatTools.WrapCodeBlock: its own contract states a length bound; the layout is
  `FormatTools.WrapCodeBlockBody`.
- SharedMemory.GetPhaseData: returns a copy of the phase's mapping, whereas `get_phase_data`
  hands out the live inner dict, an alias through which a caller could change the store. No
  caller in the modelled code changes it.
- TaskModel.DirChain: its own contract states only that the path itself is made; the parents
  are its body, and `Bootstrap.PhaseDirMade` states them for the phase directories.
