# Spectator turn runtime in Dafny

This project models the core of Spectator, a runtime that runs each user turn through four fixed reasoning roles (reflection, planner, critic, governor) against a language-model backend. The core keeps model-visible scaffolding apart from what the user sees. It also lets the model ask for changes to the persistent session state and for sandboxed tool runs. The project states and proves what each part of that core promises.

One Dafny module stands for each core source file:

- **Session data** (`Types`): the `State` and `Checkpoint` classes and their plain values.
- **Protocol parsers** (`Notes`, `ToolCalls`, `MarkerBlock`): the `<<<NOTES_JSON>>>` and `<<<TOOL_CALLS_JSON>>>` blocks a role may append to its answer.
- **Sanitizer** (`Sanitize`): removes reasoning wrappers from visible text and shields the protocol blocks while doing so.
- **Capabilities** (`Capabilities`): the pending/granted capability state machine, in place on a `State`.
- **Condensation** (`Condense`): de-duplication, tail caps and truncation of the state lists and of upstream texts.
- **Pipeline** (`Pipeline`, `Controller`): the role loop, the governor's tool round, notes patches and one `run_turn`.
- **Checkpoints and open loops** (`Checkpoints`, `OpenLoopsAdmin`): validation on load, the revision bump on save, and the admin edits of `state.open_loops`.
- **Tools** (`Sandbox`, `FsTools`, `ShellTool`, `HttpTool`, `HttpCaches`, `Settings`, `ToolRegistry`, `DefaultRegistry`, `Results`, `Executor`): path containment, pathlib's pure paths, the command policy, the three filesystem tools, `shell.exec`, `http.get` with its cache, the registry and the executor.
- **Backends** (`FakeBackends`, `BackendRegistry`, `LlamaServer`): the scripted backend, the backend registry, and the list and text handling of the llama.cpp backend.
- **Analysers and admin helpers** (`Chunking`, `Autopsy`, `Soak`, `TraceParser`, `AdminApp`, `Retrieval`, `TestArtifacts`, `SupervisorApp`): the file chunker, the trace autopsy, the soak analyser, the admin trace reader, run-id handling, the retrieval block, artifact redaction, and the supervisor's log and metrics windows.
- **Helper modules** (`Wrappers`, `Strings`, `Sorting`, `JsonValue`): `Option`/`Result`, Python's string operations, Python's string order and stable sort, and decoded JSON values.

Objects whose fields the source updates in place are classes with `modifies` frames:

- `State`, `Checkpoint`
- `FakeBackend`, the backend and tool registries
- `ToolSettings`, `ToolExecutor`
- the HTTP cache, the sandbox file map and the checkpoint directory

Pure code is written as functions. Loops are methods proved against a specification function, and lemmas connect those functions to what the source promises.

Anything the core obtains from outside the model is a parameter or an oracle:

- `json.loads` is a `Decoder` from text to an optional `Json`; the text of `json.dumps`, `repr` and `str()` is a parameter wherever its exact characters matter.
- The clock, SHA-1, UTF-8 codecs, the environment, the network, `subprocess` and Python's `ast` are parameters.
- Filesystem answers and the tool handlers are parameters too.

Integers are unbounded, as in Python. The ratios the source computes as floats are kept as exact rationals where they are modelled at all.

## Model

| member | source | states |
|---|---|---|
| `Types.State.constructor` | src/spectator/core/types.py:7-17 | a fresh state whose eight lists are empty and whose episode summary is empty (the dataclass defaults); the overload with arguments holds exactly the given value |
| `Types.Checkpoint.constructor` | src/spectator/core/types.py:26-33 | a checkpoint with the given session id, revision, timestamp and state, with recent messages and trace tail defaulting to empty; the overload with a value holds that value and a fresh `State` object |
| `Results.ToolPayload` | src/spectator/tools/results.py:19-26 | the serialised payload has exactly the keys id, tool, ok, output and error, carrying the result's own fields, and no metadata key |
| `Results.ToToolMessage` | src/spectator/tools/results.py:19-27 | the message has role `tool` and its content is the JSON dump of the five-field payload |
| `Results.MetadataExcluded` | src/spectator/tools/results.py:17-27 | two results that differ only in their metadata give the same tool message |
| `Settings.LowerSetIdempotent` | src/spectator/tools/settings.py:17-21 | lower-casing an already lower-cased allowlist leaves it unchanged, so `__post_init__` followed by `with_allowlist` never double-transforms |
| `Settings.ToolSettings.constructor` | src/spectator/tools/settings.py:8-18 | the new settings hold the given flags, TTL, timeout and byte cap, and an allowlist whose members are exactly the lower-cased given entries; the no-argument form holds the defaults (allowlist off and empty, no cache path, 3600 s, 10 s, 1 000 000 bytes) |
| `Settings.ToolSettings.WithAllowlist` | src/spectator/tools/settings.py:20-22 | the allowlist becomes exactly the lower-cased entries, every other field is unchanged, and the same object is returned |
| `Settings.DefaultToolSettings` | src/spectator/tools/settings.py:25-26 | default settings whose cache path is `.spectator_http_cache.sqlite` under the root |
| `Executor.ExecuteOne` | src/spectator/tools/executor.py:18-53 | an unknown tool yields a failed result with error `unknown tool`; a raising handler a failed result carrying the exception text; otherwise a successful result with the output and no error; id and tool always copied from the call |
| `Executor.ExecuteAll` | src/spectator/tools/executor.py:16-54 | exactly one result per call, in call order, each the result of that call alone |
| `Executor.ExecuteOneByOne` | src/spectator/tools/executor.py:16-54 | running the calls one at a time gives the same results as running them as one batch |
| `Executor.ExecuteAllSplit` | src/spectator/tools/executor.py:30-43 | a failing call does not stop the batch: the results of a concatenation are the concatenation of the results |
| `Executor.ToolExecutor.ExecuteCalls` | src/spectator/tools/executor.py:16-54 | the loop returns exactly `ExecuteAll` of the calls against the registry it holds, and leaves the registry unchanged |
| `FakeBackends.CompleteSpec` | src/spectator/backends/fake.py:13-21 | every call is recorded with its prompt and params (an empty map when none); a named role with a non-empty queue pops the front of that queue; otherwise the general queue's front is popped; with nothing queued the answer is the empty string and no queue changes |
| `FakeBackends.RoleQueueServedFirst` | src/spectator/backends/fake.py:16-18 | a role with queued responses gets the front of its own queue, that queue loses exactly its front and the general queue is untouched |
| `FakeBackends.GeneralQueueServed` | src/spectator/backends/fake.py:19-20 | without a served role, the general queue's front is the answer and the rest of the queue remains |
| `FakeBackends.ExhaustedAnswersEmpty` | src/spectator/backends/fake.py:21 | with nothing queued for the request the answer is empty and both queues are unchanged |
| `FakeBackends.FakeBackend.constructor` | src/spectator/backends/fake.py:7-11 | a backend holding the given queues and no recorded calls |
| `FakeBackends.FakeBackend.Complete` | src/spectator/backends/fake.py:13-21 | the object's new state and the answer are exactly those of `CompleteSpec` on its old state |
| `FakeBackends.FakeBackend.ExtendResponses` | src/spectator/backends/fake.py:23-24 | the general queue is extended at its end, in order; nothing else changes |
| `FakeBackends.FakeBackend.ExtendRoleResponses` | src/spectator/backends/fake.py:26-27 | the role's queue is created empty when missing and then extended in order; other roles and the general queue are unchanged |
| `BackendRegistry.Backends.constructor` | src/spectator/backends/registry.py:12 | the registry starts empty |
| `BackendRegistry.Backends.RegisterBackend` | src/spectator/backends/registry.py:15-19 | a name whose lower-cased key is present is an error that changes nothing; otherwise the factory is stored under the lower-cased key and nothing else changes |
| `BackendRegistry.Backends.ListBackends` | src/spectator/backends/registry.py:31-32 | the registered keys, each exactly once, in ascending order |
| `BackendRegistry.Backends.GetBackend` | src/spectator/backends/registry.py:22-28 | the lookup is by lower-cased name and builds the stored factory with the given keyword arguments; an unknown name is an error |
| `ToolRegistry.Registry.constructor` | src/spectator/tools/registry.py:60-62 | a registry with no tools |
| `ToolRegistry.Registry.Register` | src/spectator/tools/registry.py:64-65 | the name maps to a spec with that name and handler; a new name goes to the end of the insertion order, a known name keeps its place |
| `ToolRegistry.Registry.Get` | src/spectator/tools/registry.py:67-68 | the spec registered under the name, and `None` exactly when the name was never registered |
| `ToolRegistry.Registry.ListTools` | src/spectator/tools/registry.py:70-71 | one spec per registered name, in first-registration order |
| `DefaultRegistry.DefaultToolNames` | src/spectator/tools/registry.py:45-55 | the four file-system and shell tools, pairwise distinct, plus `http.get` exactly when the HTTP module loads |
| `DefaultRegistry.BuildAsWritten` | src/spectator/tools/registry.py:38-58 | a settings value of the wrong type is the `settings must be a ToolSettings instance` error; every other call ends in a `TypeError` from a handler or executor call with the wrong arguments |
| `DefaultRegistry.AsWrittenNeverBuilds` | src/spectator/tools/registry.py:55-57 | as written, no call returns a registry |
| `DefaultRegistry.RegisterBuiltins` | src/spectator/tools/registry.py:43-55 | after the registrations the order is the default tool names and each name carries its handler over the root, the HTTP one over the settings |
| `DefaultRegistry.BuildDefaultRegistry` | src/spectator/tools/registry.py:16-58 | the intended behaviour: an error exactly for settings of the wrong type; otherwise a fresh registry with the default names and handlers, default settings under the root when none are given, and an executor over the root and that registry |
| `ToolCalls.CoerceItems` | src/spectator/runtime/tool_calls.py:41-49 | the items are accepted exactly when every one has a string id, a string tool and an object args; then one call per item, in order, carrying those fields |
| `ToolCalls.CoerceToolCalls` | src/spectator/runtime/tool_calls.py:30-49 | one object is a batch of one; a list is coerced item by item only when every element is an object; any other value, or a list holding a non-object, is rejected |
| `ToolCalls.EncodeCall` | src/spectator/runtime/tool_calls.py:11-15 | a call written as a JSON object is a valid item that coerces back to the same call |
| `ToolCalls.EncodeCalls` | src/spectator/runtime/tool_calls.py:34-37 | a batch written as a JSON list has one element per call |
| `ToolCalls.CoerceEncodedCalls` | src/spectator/runtime/tool_calls.py:30-49 | coercing an encoded batch gives the calls back in order; a single call written as a bare object does too |
| `ToolCalls.EmptyListAccepted` | src/spectator/runtime/tool_calls.py:34-37 | an empty list is a valid empty batch |
| `ToolCalls.ExtractToolCalls` | src/spectator/runtime/tool_calls.py:52-67 | the visible text is only ever changed when a framed block was found |
| `ToolCalls.ExtractToolCallsCases` | src/spectator/runtime/tool_calls.py:18-67 | the first block from the start marker to the first end marker after it is cut out exactly when its stripped payload decodes to an acceptable batch, and the calls are then that batch; otherwise the text comes back whole with no calls |
| `ToolCalls.ExtractToolCallsNoBlock` | src/spectator/runtime/tool_calls.py:19-24 | with no start marker, or no end marker after the first start marker, nothing is extracted |
| `ToolCalls.ToolCallMarkersSeparated` | src/spectator/runtime/tool_calls.py:7-8 | the start and end markers cannot overlap one another |
| `ToolCalls.ExtractToolCallsRoundTrip` | src/spectator/runtime/tool_calls.py:52-67 | prose, a framed payload that decodes to encoded calls, and more prose give back those calls in order and the two prose parts joined |
| `ToolCalls.ExtractEmptyBatch` | src/spectator/runtime/tool_calls.py:62-67 | a framed empty list is still cut out of the text and yields no calls |
| `Sanitize.ProtectedEnd` | src/spectator/runtime/sanitize.py:11-15 | a protected match starting at an index ends strictly after it and within the text (the lazy match ends at the first end marker) |
| `Sanitize.Blocks` | src/spectator/runtime/sanitize.py:35-43 | the placeholder dictionary in insertion order: entry `idx` is the text of protected block `idx` |
| `Sanitize.RestoreStep` | src/spectator/runtime/sanitize.py:48-49 | one round of the restoring loop puts back exactly the first shielded block and leaves later placeholders in place |
| `Sanitize.RestoreShielded` | src/spectator/runtime/sanitize.py:35-49 | when the text never spells a placeholder's head, replacing every placeholder by its original undoes the shielding |
| `Sanitize.RemoveFirstPair` | src/spectator/runtime/sanitize.py:17-28 | a non-greedy wrapper substitution deletes the first opener through the nearest closer after it and goes on behind that closer |
| `Sanitize.RemoveWithoutCloser` | src/spectator/runtime/sanitize.py:17-28 | an opener with no closer after it is left in place |
| `Sanitize.ThinkBlockRemoved` | src/spectator/runtime/sanitize.py:18 | a `<think>` tag is deleted together with everything up to and including the nearest `</think>` |
| `Sanitize.ThoughtsBlockRemoved` | src/spectator/runtime/sanitize.py:19 | a `<<<THOUGHTS>>>` block is deleted up to and including the nearest `<<<END_THOUGHTS>>>` |
| `Sanitize.ShieldWithoutBlocks` | src/spectator/runtime/sanitize.py:38-44 | without a notes or tool-call start marker nothing is protected and the whole text is one segment |
| `Sanitize.SanitizeEmpty` | src/spectator/runtime/sanitize.py:32-33 | empty input is returned unchanged |
| `Sanitize.SanitizeKeepsShieldedText` | src/spectator/runtime/sanitize.py:31-50 | a text with no reasoning opener outside its protected blocks comes back unchanged, so wrapper tags inside a notes or tool-call block survive |
| `Sanitize.SanitizeWithoutWrappers` | src/spectator/runtime/sanitize.py:31-50 | text containing no reasoning opener at all is returned unchanged |
| `Sanitize.SanitizeDropsThinkBlock` | src/spectator/runtime/sanitize.py:24-50 | in text with no protected block, a `<think>` block is removed up to the nearest `</think>` and the text around it is kept |
| `Controller.TurnRoles` | src/spectator/runtime/controller.py:24-29 | four roles in the order reflection, planner, critic, governor |
| `Controller.RunId` | src/spectator/runtime/controller.py:31 | the run id is `rev-` followed by the decimal form of the next revision |
| `Controller.RunIdsDiffer` | src/spectator/runtime/controller.py:31 | different revisions give different run ids |
| `Controller.RecordTraceKeepsNewest` | src/spectator/runtime/controller.py:45-50 | the trace tail keeps at most 20 names, the newest ones in order, only old names or the new one, and the new name whenever the tail was within its limit before |
| `Controller.RecordTraceUnwritten` | src/spectator/runtime/controller.py:45 | when no trace file exists the tail is left alone |
| `Controller.RecordTraceIdempotent` | src/spectator/runtime/controller.py:47-48 | recording the same trace name twice changes nothing the second time |
| `Controller.StartTurn` | src/spectator/runtime/controller.py:18 | the user message is appended before the pipeline runs; nothing else in the checkpoint changes |
| `Controller.FinishTurn` | src/spectator/runtime/controller.py:42-50 | the assistant reply is appended and the trace tail is updated; nothing else changes |
| `Controller.TurnPipeline` | src/spectator/runtime/controller.py:20-40 | the pipeline runs over the default tools, the four roles and the loaded checkpoint with the user message; the reply is the governor's text |
| `Controller.FinishAndSave` | src/spectator/runtime/controller.py:42-51 | the saved checkpoint is the loaded one with both messages, the new state and the updated trace tail, and it is the one file written |
| `Controller.ContinueTurn` | src/spectator/runtime/controller.py:18-52 | after loading: both messages, the pipeline's state and the trace tail end up in the one save, and the governor's text is returned |
| `Controller.RunTurn` | src/spectator/runtime/controller.py:12-52 | a load error propagates and nothing is written; otherwise the checkpoint under the data root is saved once with the user message, the reply, the pipeline's new state and the trace tail, and the reply is the governor's text |
| `Retrieval.SplitJoinedWords` | src/spectator/memory/retrieval.py:35 | splitting words joined by single spaces gives the words back |
| `Retrieval.CollapseSingleSpaced` | src/spectator/memory/retrieval.py:35 | collapsing whitespace yields single-spaced text, and collapsing twice changes nothing |
| `Retrieval.PreviewBounds` | src/spectator/memory/retrieval.py:34-38 | a collapsed text that fits is the preview; a longer one is cut to exactly the limit, its last three characters being `...` and the rest a prefix of the collapsed text |
| `Retrieval.PreviewOfPreview` | src/spectator/memory/retrieval.py:34-38 | a preview that was not cut is single-spaced and is its own preview |
| `Retrieval.EntryLines` | src/spectator/memory/retrieval.py:23-27 | one entry line per hit |
| `Retrieval.FormatRetrievalBlock` | src/spectator/memory/retrieval.py:21-31 | the loop produces the header, the numbered entries, `(no matches)` when there are none, and the footer, joined by newlines |
| `Retrieval.BlockFraming` | src/spectator/memory/retrieval.py:21-31 | the block opens with the header line and closes with the footer line; in between are the entries numbered from 1 in input order, or the single line `(no matches)` |
| `Notes.EnsureList` | src/spectator/runtime/notes.py:23-28 | accepted exactly for `null` (read as the empty list) and a list of strings (kept as it is) |
| `Notes.EnsureStr` | src/spectator/runtime/notes.py:31-36 | a string is kept; `null` and every non-string read as absent |
| `Notes.CoercePatch` | src/spectator/runtime/notes.py:51-73 | a patch comes out exactly when all seven list fields are absent, `null` or lists of strings |
| `Notes.CoercePatchFields` | src/spectator/runtime/notes.py:52-84 | an accepted patch holds each list field as given (absent or `null` as empty) and the episode summary only when it is a string |
| `Notes.NonStringSummaryIgnored` | src/spectator/runtime/notes.py:59-84 | a summary of the wrong type is dropped rather than rejecting the patch |
| `Notes.EncodePatch` | src/spectator/runtime/notes.py:11-20 | a patch written as a JSON object, with no summary key when the summary is absent |
| `Notes.CoerceEncodedPatch` | src/spectator/runtime/notes.py:51-84 | coercing an encoded patch gives the same patch back |
| `Notes.ExtractNotes` | src/spectator/runtime/notes.py:87-105 | without a patch the visible text is the input unchanged |
| `Notes.ExtractNotesAccepted` | src/spectator/runtime/notes.py:39-105 | a patch comes out exactly when the first framed block's stripped payload decodes to an object that coercion accepts; the visible text is then the input with that block cut out |
| `Notes.ExtractNotesNoBlock` | src/spectator/runtime/notes.py:40-45 | with no start marker, or no end marker after the first start marker, nothing is extracted |
| `Notes.NotesMarkersSeparated` | src/spectator/runtime/notes.py:7-8 | the notes start and end markers cannot overlap one another |
| `Notes.ExtractNotesRoundTrip` | src/spectator/runtime/notes.py:87-105 | prose, a framed encoded patch and more prose give back the patch and the two prose parts joined |
| `Capabilities.RemoveValue` | src/spectator/runtime/capabilities.py:11-12 | every copy of the value goes and nothing else; a list without it is unchanged |
| `Capabilities.NotIn` | src/spectator/runtime/capabilities.py:19 | the pending entries kept are exactly those not granted |
| `Capabilities.Normalize` | src/spectator/runtime/capabilities.py:15-19 | afterwards granted and pending are disjoint, granted is unchanged and pending loses exactly the granted entries |
| `Capabilities.Request` | src/spectator/runtime/capabilities.py:22-28 | the request changes something exactly when the capability is neither granted nor pending, and then appends it to pending |
| `Capabilities.Grant` | src/spectator/runtime/capabilities.py:31-39 | the capability ends granted and not pending; the answer is true exactly when it was not granted or was pending, which is exactly when the lists change; other capabilities keep their standing |
| `Capabilities.Revoke` | src/spectator/runtime/capabilities.py:42-46 | true exactly when the capability was granted; it is then no longer granted, pending is never touched, and other grants stay |
| `Capabilities.Clear` | src/spectator/runtime/capabilities.py:49-53 | pending becomes empty, and the answer is true exactly when it was not empty |
| `Capabilities.Classify` | src/spectator/runtime/capabilities.py:65-80 | a request or grant action carries a non-empty capability after its prefix; an empty one is the bare prefix; an unknown action has neither prefix |
| `Capabilities.ApplyActions` | src/spectator/runtime/capabilities.py:56-88 | the report's before is the old lists and its after is disjoint |
| `Capabilities.GrantIdempotent` | src/spectator/runtime/capabilities.py:31-39 | a second identical grant answers false and changes nothing |
| `Capabilities.RequestKnownIsNoOp` | src/spectator/runtime/capabilities.py:23-26 | a request for a granted or pending capability changes nothing and answers false |
| `Capabilities.StepsKeepDisjoint` | src/spectator/runtime/capabilities.py:22-53 | request, grant, revoke and clear keep granted and pending disjoint |
| `Capabilities.ApplyAllIgnored` | src/spectator/runtime/capabilities.py:64-80 | the ignored list holds exactly the actions with an empty capability or no known prefix, in input order |
| `Capabilities.ApplyAllCounts` | src/spectator/runtime/capabilities.py:64-80 | each action lands in at most one of applied and ignored, and applied holds only input actions |
| `Capabilities.AppliedAreKnown` | src/spectator/runtime/capabilities.py:65-78 | every applied action is a request or grant with a non-empty capability |
| `Capabilities.GrantLast` | src/spectator/runtime/capabilities.py:72-82 | a grant as the last action leaves its capability granted and not pending, whatever came before |
| `Capabilities.NormalizeCapabilities` | src/spectator/runtime/capabilities.py:15-19 | the state's capability lists become those of `Normalize`; nothing else changes |
| `Capabilities.RequestPermission` | src/spectator/runtime/capabilities.py:22-28 | answer and new lists are those of `Request`; nothing else changes |
| `Capabilities.GrantPermission` | src/spectator/runtime/capabilities.py:31-39 | answer and new lists are those of `Grant`; nothing else changes |
| `Capabilities.RevokePermission` | src/spectator/runtime/capabilities.py:42-46 | answer and new lists are those of `Revoke`; nothing else changes |
| `Capabilities.ClearPending` | src/spectator/runtime/capabilities.py:49-53 | answer and new lists are those of `Clear`; nothing else changes |
| `Capabilities.ApplyPermissionActions` | src/spectator/runtime/capabilities.py:56-88 | the loop's report and new lists are those of `ApplyActions`, every other field is kept, and afterwards no capability is both granted and pending |
| `Condense.FirstIndex` | src/spectator/runtime/condense.py:43-51 | the position of an item's first occurrence: it holds the item and no earlier position does |
| `Condense.Dedupe` | src/spectator/runtime/condense.py:43-51 | the result has no duplicates, holds exactly the input's items, is no longer than the input, and is the input itself when that has no duplicates |
| `Condense.DedupeOrder` | src/spectator/runtime/condense.py:43-51 | the kept items appear in the order of their first occurrences in the input |
| `Condense.CapTail` | src/spectator/runtime/condense.py:54-62 | the last `min(len, max(max_n, 0))` items, in order |
| `Condense.TruncateText` | src/spectator/runtime/condense.py:65-73 | empty for a non-positive limit; the text when it fits; otherwise exactly `max_chars` long, the text's prefix followed by `...[truncated]`, or a prefix of that marker when the limit is shorter than it; never longer than the text |
| `Condense.CondenseListBounds` | src/spectator/runtime/condense.py:76-77 | a condensed list is duplicate-free, within its non-negative limit, holds only input items, and is the newest part of the deduplicated list |
| `Condense.SuffixKeeps` | src/spectator/runtime/condense.py:62 | a suffix of a duplicate-free list is duplicate-free and holds only its items |
| `Condense.CondenseListIdempotent` | src/spectator/runtime/condense.py:76-77 | condensing a condensed list changes nothing |
| `Condense.CondenseValueKeeps` | src/spectator/runtime/condense.py:80-99 | the summary, refs and capability lists are untouched and every removed count is non-negative |
| `Condense.CondenseValueIdempotent` | src/spectator/runtime/condense.py:80-99 | a second `condense_state` changes nothing and its report says nothing was trimmed |
| `Condense.CondenseValueFields` | src/spectator/runtime/condense.py:87-91 | exactly goals, open loops, decisions, constraints and memory tags are condensed, each under its own policy limit |
| `Condense.CondenseState` | src/spectator/runtime/condense.py:80-99 | the state object is condensed in place and the report holds each list's loss in length |
| `Condense.TruncateEach` | src/spectator/runtime/condense.py:110-116 | one result per input, each with its text truncated to the per-role limit and role and notes kept |
| `Condense.ShareBudgetBounds` | src/spectator/runtime/condense.py:122-131 | the budget loop keeps count, roles and notes, never lengthens a text, and spends at most the budget |
| `Condense.UpstreamSpecBounds` | src/spectator/runtime/condense.py:109-131 | `condense_upstream` keeps count, order, roles and notes; every text is within the per-role limit, and the total is within the total limit whenever that limit is not negative |
| `Condense.CondenseUpstream` | src/spectator/runtime/condense.py:109-131 | the method's truncation pass and budget loop compute exactly the specification `UpstreamSpec` |
| `Checkpoints.Disk.constructor` | src/spectator/runtime/checkpoints.py:15-17 | a checkpoint store holding the given files |
| `Checkpoints.EncodeMessages` | src/spectator/runtime/checkpoints.py:25 | one JSON object per message |
| `Checkpoints.EnsureListOfStr` | src/spectator/runtime/checkpoints.py:35-40 | `null` reads as empty, a list of strings is kept, anything else is the `must be list[str]` error naming the field |
| `Checkpoints.EnsureStr` | src/spectator/runtime/checkpoints.py:43-48 | `null` reads as the empty string, a string is kept, anything else is the `must be str` error naming the field |
| `Checkpoints.CoerceMessageItems` | src/spectator/runtime/checkpoints.py:76-85 | on success one message per entry, in order, each the coercion of its entry |
| `Checkpoints.CoerceTraceTail` | src/spectator/runtime/checkpoints.py:88-93 | accepted exactly for `null` (empty) and a list of strings (kept) |
| `Checkpoints.CheckpointFromPayload` | src/spectator/runtime/checkpoints.py:101-119 | the checks run in the source's order with its messages (object, session id, revision, time stamp, state, messages, trace tail), and an accepted checkpoint carries exactly the payload's fields |
| `Checkpoints.LoadLatest` | src/spectator/runtime/checkpoints.py:96-119 | `None` exactly when no file is stored under the session's path |
| `Checkpoints.LoadOrCreateDefaults` | src/spectator/runtime/checkpoints.py:122-133 | with nothing stored, a new checkpoint with revision 0, the current time, the default state and empty message and trace lists |
| `Checkpoints.LoadOrCreateStored` | src/spectator/runtime/checkpoints.py:122-125 | a stored checkpoint that loads is returned as it is; a failing load fails too |
| `Checkpoints.MessagesRoundTrip` | src/spectator/runtime/checkpoints.py:71-85 | coercing encoded messages gives them back |
| `Checkpoints.StateRoundTrip` | src/spectator/runtime/checkpoints.py:51-68 | coercing an encoded state gives it back |
| `Checkpoints.CheckpointRoundTrip` | src/spectator/runtime/checkpoints.py:96-119 | decoding the encoding of a checkpoint gives back an equal checkpoint |
| `Checkpoints.SaveCheckpoint` | src/spectator/runtime/checkpoints.py:20-32 | the revision goes up by exactly one, the time stamp becomes now, everything else is kept, and the encoded checkpoint ends up at the session's path with the temporary file gone |
| `Checkpoints.LoadAfterSave` | src/spectator/runtime/checkpoints.py:20-32 | loading right after a save gives back the saved checkpoint, provided JSON decoding reads back what encoding wrote |
| `Checkpoints.LoadOrCreate` | src/spectator/runtime/checkpoints.py:122-133 | an error propagates; otherwise a fresh checkpoint object holding the loaded or the new value |
| `HttpCaches.Lookup` | src/spectator/tools/http_cache.py:38-49 | a row is returned exactly when the url is stored and its age is within the TTL, carrying the stored status, text and time stamp; an unknown url is a miss |
| `HttpCaches.Upsert` | src/spectator/tools/http_cache.py:51-65 | after an upsert the stored urls are the old ones plus this one |
| `HttpCaches.SetThenGet` | src/spectator/tools/http_cache.py:38-65 | a `get` at the moment of a `set` returns exactly what was set |
| `HttpCaches.TtlBoundary` | src/spectator/tools/http_cache.py:47-48 | a row is still served exactly TTL seconds after it was stored and never later |
| `HttpCaches.SetKeepsOthers` | src/spectator/tools/http_cache.py:51-65 | setting one url leaves every other url's lookup unchanged |
| `HttpCaches.HttpCache.constructor` | src/spectator/tools/http_cache.py:17-21 | a cache with the given TTL over the given table |
| `HttpCaches.HttpCache.Get` | src/spectator/tools/http_cache.py:38-49 | the answer is `Lookup` on the table at the given time |
| `HttpCaches.HttpCache.Set` | src/spectator/tools/http_cache.py:51-65 | the table becomes the old table with the url's row inserted or replaced, stamped with the given time |
| `HttpTool.ExtractDomain` | src/spectator/tools/http_tool.py:42-48 | a scheme other than http or https and a missing or empty hostname are the source's two errors; otherwise the lower-cased hostname |
| `HttpTool.IsAllowed` | src/spectator/tools/http_tool.py:51-59 | a `net:<domain>` capability always allows; without it and without `net` access is denied; with only `net` it is allowed exactly when the allowlist is off or holds the domain |
| `HttpTool.ReadFromIsBody` | src/spectator/tools/http_tool.py:62-76 | a successful read returns the concatenation of the chunks up to the first empty one, within the byte limit |
| `HttpTool.ReadCount` | src/spectator/tools/http_tool.py:66-71 | the number of reads is between the start and the stream's length |
| `HttpTool.ReadFromSucceeds` | src/spectator/tools/http_tool.py:62-76 | when every clock reading is within the timeout and the body fits, the read returns the body |
| `HttpTool.OversizeRefused` | src/spectator/tools/http_tool.py:72-74 | a body over the byte limit is never returned: the read fails with the byte-limit or the time-limit error |
| `HttpTool.ReadLimited` | src/spectator/tools/http_tool.py:62-76 | the loop computes exactly the specification `ReadFrom` from the start |
| `HttpTool.Gate` | src/spectator/tools/http_tool.py:84-93 | a non-string url is the first error; an accepted request has a string url, a boolean `use_cache` defaulting to true, a valid domain and the capability to reach it; a denied domain is `network access denied` |
| `HttpTool.HttpGet` | src/spectator/tools/http_tool.py:83-126 | a gate error is returned without fetching; a fresh cache hit is answered from the cache; otherwise the url is fetched, read within the limits, turned to text, cached when caching is on, and answered with `cache_hit` false; the cache changes only on such a fetch |
| `HttpTool.HandlerCache` | src/spectator/tools/http_tool.py:80-81 | a cache exists exactly when the settings name a cache path, and it has the settings' TTL |
| `FsTools.Unaliased` | src/spectator/tools/fs_tools.py:12-15 | `/sandbox` reads as `.`, a `/sandbox/` prefix is dropped, and any other path is kept |
| `FsTools.GetPath` | src/spectator/tools/fs_tools.py:9-19 | a NUL byte is the first error; otherwise the path escapes exactly when the sandbox resolution refuses it, and an accepted path is that resolution, inside the resolved root |
| `FsTools.AliasIsRelative` | src/spectator/tools/fs_tools.py:14-19 | a `/sandbox/` path resolves as the same path relative to the root |
| `FsTools.ReadPrefix` | src/spectator/tools/fs_tools.py:35-36 | reading at most n bytes gives a prefix of the content of length at most n, the whole content when it fits |
| `FsTools.ReadTextSpec` | src/spectator/tools/fs_tools.py:22-40 | a non-string path and a non-positive or non-integer `max_bytes` are the source's first two errors |
| `FsTools.ReadTextReadsPrefix` | src/spectator/tools/fs_tools.py:22-40 | a successful read names a file inside the sandbox and returns the path with the decoded first at most `max_bytes` bytes of it |
| `FsTools.ListDirSpec` | src/spectator/tools/fs_tools.py:43-59 | a non-string path and a non-positive or non-integer `max_entries` are the source's first two errors |
| `FsTools.ListDirSortedAndCapped` | src/spectator/tools/fs_tools.py:43-59 | a successful listing names a directory, returns at most `max_entries` names in ascending order, each an entry of that directory, and all of them when they fit |
| `FsTools.Ancestors` | src/spectator/tools/fs_tools.py:77 | the directories `mkdir(parents=True)` makes sure of: exactly the prefixes of the parent path |
| `FsTools.WritePlan` | src/spectator/tools/fs_tools.py:62-76 | a write goes ahead only for a string path and text, a boolean overwrite flag, a path inside the sandbox that is not a directory, and an existing file only when overwrite is true |
| `FsTools.NoOverwriteByDefault` | src/spectator/tools/fs_tools.py:66-76 | without `overwrite`, writing over an existing file is refused |
| `FsTools.SandboxFs.constructor` | src/spectator/tools/fs_tools.py:62-63 | a file system holding the given files and directories |
| `FsTools.SandboxFs.WriteText` | src/spectator/tools/fs_tools.py:62-81 | a refused write changes nothing; an accepted one stores the encoded text at the path, creates the parent directories and reports the path and the byte count |
| `FsTools.WriteThenRead` | src/spectator/tools/fs_tools.py:22-81 | reading back a written file with a large enough `max_bytes` gives the decoded encoded text |
| `Sandbox.SplitOn` | src/spectator/tools/sandbox.py:16-21 | a path splits into at least one part, none holding the separator |
| `Sandbox.Kept` | src/spectator/tools/sandbox.py:22-23 | empty and `.` parts are dropped and nothing else is added |
| `Sandbox.ResolveUnderRootSpec` | src/spectator/tools/sandbox.py:14-36 | an absolute path is refused; an accepted path lies within the resolved root and is the resolution of the root joined with the path's kept parts |
| `Sandbox.WalkStaysWithin` | src/spectator/tools/sandbox.py:20-31 | the walk over the parts never leaves the root |
| `Sandbox.WalkAppend` | src/spectator/tools/sandbox.py:21-31 | walking a concatenation of parts is walking the first part, then the second from where it ended |
| `Sandbox.DotDotRejected` | src/spectator/tools/sandbox.py:24-25 | a `..` part anywhere makes the walk fail |
| `Sandbox.SymlinkEscapeRejected` | src/spectator/tools/sandbox.py:27-30 | an existing symlink that resolves outside the root makes the walk fail, whatever follows |
| `Sandbox.ParentComponentRejected` | src/spectator/tools/sandbox.py:14-36 | a user path with a `..` component is never resolved |
| `Sandbox.ResolveUnderRoot` | src/spectator/tools/sandbox.py:14-36 | the loop computes exactly the specification `ResolveUnderRootSpec` |
| `Sandbox.ValidateShellCmd` | src/spectator/tools/sandbox.py:39-54 | accepted exactly when the left-stripped command is an allowed prefix or starts with one followed by a space, and the raw command holds no denied substring; the reason is absent exactly when the command is accepted, and an unlisted command gets `command not allowed` before any deny check |
| `Sandbox.ParsePath` | src/spectator/utils/test_artifacts.py:37 | `Path(raw)` is absolute exactly when the text starts with `/`, and its components are the non-empty, non-`.` pieces between slashes |
| `Sandbox.Div` | src/spectator/utils/test_artifacts.py:48 | `path / name`: an absolute name replaces the path; a single component becomes the new path's name with the old path as its parent; normal paths stay normal |
| `Sandbox.ParseRenderPath` | src/spectator/utils/test_artifacts.py:37 | `Path(str(p)) == p`: a rendered path reads back as the same path |
| `Sandbox.DivIsJoinedText` | src/spectator/utils/test_artifacts.py:48 | `Path(a) / b` is `Path(a + "/" + b)` for non-empty `a` and relative `b`, so `Path("out/") / "cases"` is `out/cases` and `Path("/") / "cases"` is `/cases` |
| `Sandbox.UnlistedCommandRefusedFirst` | src/spectator/tools/sandbox.py:42-48 | a command matching no allowed prefix is refused as not allowed, whatever it contains |
| `Strings.Prefix` | src/spectator/tools/shell_tool.py:64-65 | `s[:n]`, the first `min(n, len(s))` characters; the shell tool's output cut and the autopsy's 200-character evidence (src/spectator/analysis/autopsy.py:31) both use it |
| `ShellTool.CheckShellArgs` | src/spectator/tools/shell_tool.py:41-50 | a non-string command and a non-positive or non-numeric timeout (default 20) are the first errors; the arguments are accepted exactly when both are valid and the command passes validation |
| `ShellTool.ShellExec` | src/spectator/tools/shell_tool.py:39-72 | a rejected command is never launched; an accepted one is launched with its timeout; a timeout is `command timed out`; a completed run reports its return code and its outputs cut to 20000 characters |
| `ShellTool.OutputsBounded` | src/spectator/tools/shell_tool.py:64-70 | the answer holds exactly the keys returncode, stdout and stderr, the two outputs within 20000 characters |
| `ShellTool.RemoveAllRefused` | src/spectator/tools/shell_tool.py:9-34 | `rm -rf /` is refused as not allowed and never launched |
| `ShellTool.EchoStarted` | src/spectator/tools/shell_tool.py:9-48 | `echo hi` is launched with the default 20-second timeout |
| `Pipeline.ExtendUniquePrefix` | src/spectator/runtime/pipeline.py:44-47 | the target is kept as a prefix and only values absent from it follow |
| `Pipeline.ExtendUniqueIsDedupe` | src/spectator/runtime/pipeline.py:44-47 | on a duplicate-free target, extending is deduplicating the concatenation of target and values |
| `Pipeline.ExtendUniqueMembers` | src/spectator/runtime/pipeline.py:44-47 | the extended list has no duplicates and holds exactly the old entries and the values |
| `Pipeline.ExtendUnique` | src/spectator/runtime/pipeline.py:44-47 | the loop computes exactly the specification `ExtendUniqueSpec` |
| `Pipeline.PatchKeepsUntouched` | src/spectator/runtime/pipeline.py:50-64 | memory refs and both capability lists are never touched; the summary changes only to a given one |
| `Pipeline.PatchGoals` | src/spectator/runtime/pipeline.py:51-52 | an empty `set_goals` keeps the goals, a non-empty one replaces them |
| `Pipeline.PatchOpenLoops` | src/spectator/runtime/pipeline.py:53-56 | loops are added before closures apply: a closed loop is absent afterwards even when the same patch adds it, an added loop that is not closed is present, and nothing else appears |
| `Pipeline.ExtendIfAny` | src/spectator/runtime/pipeline.py:57-64 | one `if values: _extend_unique(...)` step computes exactly `Extended` |
| `Pipeline.ApplyNotesPatch` | src/spectator/runtime/pipeline.py:50-64 | the state object becomes exactly `ApplyPatchValue` of its old value and the patch |
| `Pipeline.NonEmpty` | src/spectator/runtime/pipeline.py:139 | only non-empty parts are joined |
| `Pipeline.UpstreamLines` | src/spectator/runtime/pipeline.py:135-137 | one `role: text` line per earlier result, in order |
| `Pipeline.ComposeShape` | src/spectator/runtime/pipeline.py:104-139 | every prompt is the non-empty head parts, then the UPSTREAM section exactly when there are earlier results, then `USER:` and the user's text, last |
| `Pipeline.ChatOnly` | src/spectator/runtime/pipeline.py:77 | exactly the user and assistant messages are kept |
| `Pipeline.HistoryWindow` | src/spectator/runtime/pipeline.py:77-79 | the newest `max_messages` chat messages when the limit is positive, all of them otherwise |
| `Pipeline.LastChars` | src/spectator/runtime/pipeline.py:99 | the last `min(n, len)` characters |
| `Pipeline.FitHistoryKeepsNewest` | src/spectator/runtime/pipeline.py:81-100 | the trimming loop keeps the newest messages: two or more kept messages are a suffix of the window whose encoding fits, and a kept last message has the newest one's role and a suffix of its content |
| `Pipeline.FormatHistory` | src/spectator/runtime/pipeline.py:72-101 | the method's loop returns exactly the encoding of the fitted window |
| `Pipeline.RoleParams` | src/spectator/runtime/pipeline.py:262-263 | the role's own params are kept and `role` defaults to the role's name |
| `Pipeline.RoleStepCalls` | src/spectator/runtime/pipeline.py:264-346 | the backend is called once per role, and a second time exactly when the tool round runs, with the first prompt, a blank line and the TOOL_RESULTS block |
| `Pipeline.GovernorRoundExecutes` | src/spectator/runtime/pipeline.py:302-326 | tools run only in the governor's round when more than one round is allowed, one result per planned call in order; otherwise nothing runs and the backend is untouched |
| `Pipeline.RoleStepResults` | src/spectator/runtime/pipeline.py:435 | each role adds exactly one result under its own name and the earlier ones keep their roles |
| `Pipeline.FoldRolesResults` | src/spectator/runtime/pipeline.py:195-435 | a loop of steps that each add one result gives one result per role, in role order |
| `Pipeline.RunAllResults` | src/spectator/runtime/pipeline.py:195-437 | the role loop returns one result per role, in role order |
| `Pipeline.RolesExtend` | src/spectator/runtime/pipeline.py:435 | one more result under the next role's name keeps the results in step with the roles |
| `Pipeline.NoPatchKeepsState` | src/spectator/runtime/pipeline.py:401 | an answer without a notes patch leaves the state and the last condense report as they were |
| `Pipeline.PatchedStateCondensed` | src/spectator/runtime/pipeline.py:401-414 | after a patch the state's five lists are duplicate-free and within the default policy, memory refs are kept, the capability lists are disjoint when the patch carried actions and untouched when it did not |
| `Pipeline.RunPlannedCalls` | src/spectator/runtime/pipeline.py:316-327 | the planned calls, handed to the executor one at a time, give exactly the batch results |
| `Pipeline.ToolRound` | src/spectator/runtime/pipeline.py:302-363 | the governor's round leaves the backend and returns the final response and results exactly as `GovernorRound` describes |
| `Pipeline.ApplyAnswerPatch` | src/spectator/runtime/pipeline.py:401-414 | the state update and the new last report are exactly `StateAfterPatch` |
| `Pipeline.PromptFor` | src/spectator/runtime/pipeline.py:196-261 | the prompt is `RolePrompt` over the current state, and the upstream shown is the condensed earlier results |
| `Pipeline.AnswerRole` | src/spectator/runtime/pipeline.py:300-363 | a role's completion followed by the governor's tool round, exactly as `RoleAnswer` describes |
| `Pipeline.RunRole` | src/spectator/runtime/pipeline.py:195-435 | one pass of the role loop changes state, backend, results and last report exactly as `RoleStep` |
| `Pipeline.RunAllStep` | src/spectator/runtime/pipeline.py:195 | running one role more is one more `RoleStep` |
| `Pipeline.RunRoles` | src/spectator/runtime/pipeline.py:195-435 | the role loop's final state, backend and results are exactly those of `RunAll` |
| `Pipeline.RunPipeline` | src/spectator/runtime/pipeline.py:142-438 | one result per role in role order, state and backend as `RunAll` says, and the final text is the last role's visible text, or empty with no roles |
| `LlamaServer.EnvBool` | src/spectator/backends/llama_server.py:50-54 | the default when unset; otherwise true exactly when the trimmed, lower-cased value is 1, true, yes or on |
| `LlamaServer.EnvBoolIgnoresCaseAndSpace` | src/spectator/backends/llama_server.py:54 | surrounding whitespace and letter case do not change the flag |
| `LlamaServer.FirstSystem` | src/spectator/backends/llama_server.py:129-130 | the index of the first system message: it is one and no earlier message is; none exactly when no message is |
| `LlamaServer.EnsureSystemRulesSpec` | src/spectator/backends/llama_server.py:124-137 | with a system message the list keeps its length; without one the rules are put in front as a new system message |
| `LlamaServer.RulesLeadFirstSystem` | src/spectator/backends/llama_server.py:124-137 | the rules always begin the content of the first system message, which stays at its index, and every other message is kept where it was |
| `LlamaServer.EnsureSystemRules` | src/spectator/backends/llama_server.py:124-137 | the loop updates the given array in place and returns it when it holds a system message; otherwise it returns a fresh array with the rules in front and leaves the given one alone |
| `LlamaServer.Options` | src/spectator/backends/llama_server.py:176-191 | role, stream callback, system prompt, messages and model are popped; every other option is kept as given; temperature 0, top_p 1, max_tokens 512 and seed 7 are filled in only where absent |
| `LlamaServer.Assembled` | src/spectator/backends/llama_server.py:203-207 | the payload holds the messages, the model exactly when it is truthy, `cache_prompt` false unless an option sets it, and every option, an option overriding what was there before |
| `LlamaServer.BuildPayload` | src/spectator/backends/llama_server.py:175-208 | the method computes exactly the specification `BuildPayloadSpec` of the later definition, the one in effect |
| `LlamaServer.PayloadFailsOnlyOnScalars` | src/spectator/backends/llama_server.py:185-201 | building fails exactly when the given messages are a bare boolean or number, which cannot be iterated |
| `LlamaServer.PayloadMessagesAndModel` | src/spectator/backends/llama_server.py:193-205 | the merged rules lead the messages and the model is sent exactly when it is truthy |
| `LlamaServer.PayloadOptions` | src/spectator/backends/llama_server.py:176-207 | consumed keys are gone, other options are sent as given, the four sampling defaults are filled in only where absent, and `cache_prompt` defaults to false |
| `LlamaServer.DefaultMessages` | src/spectator/backends/llama_server.py:197-201 | with no messages given, the payload carries the merged rules as system message and then the prompt as the user |
| `LlamaServer.ExtractContent` | src/spectator/backends/llama_server.py:212-227 | the first choice's message content when it is a string, else the first choice's text, else the empty string |
| `LlamaServer.IterSseLines` | src/spectator/backends/llama_server.py:229-236 | at most one item per line |
| `LlamaServer.IterSseLinesAppend` | src/spectator/backends/llama_server.py:229-236 | the filter works line by line, so it distributes over concatenation |
| `LlamaServer.NonDataLineDropped` | src/spectator/backends/llama_server.py:232-236 | a line that does not start with `data:` once trimmed yields nothing |
| `LlamaServer.StreamDeltas` | src/spectator/backends/llama_server.py:315-338 | only non-empty deltas are collected |
| `LlamaServer.DoneStopsStream` | src/spectator/backends/llama_server.py:317-318 | nothing after the first `[DONE]` is read |
| `LlamaServer.StreamText` | src/spectator/backends/llama_server.py:315-339 | the streaming loop returns the deltas joined in order and calls the callback, when there is one, once per delta in order |
| `OpenLoopsAdmin.ParseEntry` | src/spectator/runtime/open_loops_admin.py:97-108 | an entry that is not a JSON object reads as `{id: None, raw}`; an object keeps its id (or `None`) and exactly those of title, details, tags and priority it has |
| `OpenLoopsAdmin.EntryIdIsParsedId` | src/spectator/runtime/open_loops_admin.py:117-131 | the id the loops compare is the parsed entry's id |
| `OpenLoopsAdmin.ParseOpenLoops` | src/spectator/runtime/open_loops_admin.py:89-94 | one parsed entry per stored entry, in order |
| `OpenLoopsAdmin.MaxLoopNumber` | src/spectator/runtime/open_loops_admin.py:127-136 | the largest `loop-<n>` number among the entries: none exceeds it, some entry attains it, and it is 0 when there are no entries |
| `OpenLoopsAdmin.NextLoopId` | src/spectator/runtime/open_loops_admin.py:127-137 | the loop computes exactly the specification `NextLoopIdSpec` |
| `OpenLoopsAdmin.LoopNumberOf` | src/spectator/runtime/open_loops_admin.py:17-19 | the id pattern reads back the number of an id built as `loop-<n>` |
| `OpenLoopsAdmin.NextLoopIdFresh` | src/spectator/runtime/open_loops_admin.py:127-137 | the next id differs from every existing entry's id |
| `OpenLoopsAdmin.EntryIds` | src/spectator/runtime/open_loops_admin.py:116-118 | the parsed id of each entry, in order |
| `OpenLoopsAdmin.FirstMatch` | src/spectator/runtime/open_loops_admin.py:118-120 | the first index holding the id: it matches and no earlier index does; none exactly when no index does |
| `OpenLoopsAdmin.RemoveOpenLoopSpec` | src/spectator/runtime/open_loops_admin.py:111-124 | an empty id is `loop_id must be a non-empty string`; an id no entry has is `open loop not found`; a removal drops exactly one entry |
| `OpenLoopsAdmin.RemoveKeepsOthers` | src/spectator/runtime/open_loops_admin.py:114-124 | only the first entry with the id is removed, and the others keep their order |
| `OpenLoopsAdmin.RemoveOpenLoop` | src/spectator/runtime/open_loops_admin.py:111-124 | the loop computes exactly the specification `RemoveOpenLoopSpec` |
| `OpenLoopsAdmin.ValidateTitle` | src/spectator/runtime/open_loops_admin.py:140-147 | accepted exactly for a string whose stripped form has 1 to 200 characters |
| `OpenLoopsAdmin.ValidateDetails` | src/spectator/runtime/open_loops_admin.py:150-160 | `None` and blank text give no details; a non-string is `details must be a string`; stripped text over 1000 characters is `details too long`; otherwise the stripped text |
| `OpenLoopsAdmin.CleanTags` | src/spectator/runtime/open_loops_admin.py:170-180 | accepted tags are all strings; every non-blank tag is kept stripped and each kept tag has 1 to 32 characters |
| `OpenLoopsAdmin.ValidateTags` | src/spectator/runtime/open_loops_admin.py:163-180 | `None` gives no tags; more than 10 is `too many tags`; an accepted non-empty result has at most 10 tags of 1 to 32 characters |
| `OpenLoopsAdmin.ValidatePriority` | src/spectator/runtime/open_loops_admin.py:183-190 | accepted exactly for `None` or an integer from 0 to 10, and then kept as it is |
| `OpenLoopsAdmin.BuildEntry` | src/spectator/runtime/open_loops_admin.py:64-86 | the method computes exactly the specification `BuildEntrySpec` |
| `OpenLoopsAdmin.PayloadParses` | src/spectator/runtime/open_loops_admin.py:76-86 | an entry payload parses back to its id and title, with details, tags and priority present exactly when they were set |
| `OpenLoopsAdmin.BuiltEntryParses` | src/spectator/runtime/open_loops_admin.py:64-108 | a built entry parses back with the next loop id, the stripped title, and details, tags and priority present exactly when validation kept them |
| `OpenLoopsAdmin.ListOpenLoops` | src/spectator/runtime/open_loops_admin.py:22-26 | a missing session is `session not found`; otherwise the parsed open loops of the stored checkpoint |
| `OpenLoopsAdmin.AddOpenLoop` | src/spectator/runtime/open_loops_admin.py:29-43 | load and validation errors write nothing; otherwise the new entry is appended, the checkpoint is saved once and the parsed loops are returned |
| `OpenLoopsAdmin.CloseOpenLoop` | src/spectator/runtime/open_loops_admin.py:46-57 | a missing session or a failed removal writes nothing; otherwise the checkpoint is saved with the entry removed and the parsed loops are returned |
| `TestArtifacts.GetTestContext` | src/spectator/utils/test_artifacts.py:32-40 | artifacts are enabled exactly when both the output directory and the case id are set and non-empty, and then carry `Path(outdir)`, the case id and the path's name as session id; redaction is on exactly when the flag is `1` |
| `TestArtifacts.RedactsTokenKeys` | src/spectator/utils/test_artifacts.py:91-93 | a key containing `token` or `authorization` in any letter case is redacted, and a key that is not contains none of the five credential words |
| `TestArtifacts.KelvinTokenRedacted` | src/spectator/utils/test_artifacts.py:91-93 | the key `TO\u212AEN`, which `str.lower` turns into `token`, is redacted |
| `TestArtifacts.RedactValue` | src/spectator/utils/test_artifacts.py:96-99 | the value becomes one of the two markers, the Bearer one exactly for a string starting with `Bearer ` |
| `TestArtifacts.RedactValueIdempotent` | src/spectator/utils/test_artifacts.py:96-99 | redacting a marker gives the same marker |
| `TestArtifacts.RedactObj` | src/spectator/utils/test_artifacts.py:102-113 | objects keep their keys, lists their length, and scalars are returned as they are |
| `TestArtifacts.MaybeRedact` | src/spectator/utils/test_artifacts.py:116-119 | the value as it is when redaction is off, fully redacted when it is on |
| `TestArtifacts.RedactObjHidesCredentials` | src/spectator/utils/test_artifacts.py:102-113 | after redaction, at every depth, every credential key holds a marker |
| `TestArtifacts.RedactObjKeepsRedacted` | src/spectator/utils/test_artifacts.py:102-113 | a value already redacted at every depth is left unchanged |
| `TestArtifacts.RedactObjIdempotent` | src/spectator/utils/test_artifacts.py:102-113 | redacting twice is redacting once |
| `TestArtifacts.ArtifactPaths` | src/spectator/utils/test_artifacts.py:47-53 | three paths named `requests`, `responses` and `meta` whose parent is `outdir / "cases" / case_id` |
| `TestArtifacts.ArtifactPathsDistinct` | src/spectator/utils/test_artifacts.py:47-53 | the three directories are distinct |
| `TestArtifacts.ArtifactPathsAreJoinedText` | src/spectator/utils/test_artifacts.py:47-53 | for an output directory given as non-empty text and a relative case id, each directory is `Path` of the text `<outdir>/cases/<case_id>/<leaf>`, with pathlib's collapsing of slashes and `.` |
| `AdminApp.AffixesDisjoint` | src/spectator/admin/app.py:77-81 | a name that carries both the `<session>__` prefix and the `.jsonl` suffix is at least as long as the two together, so the run id between them is well defined |
| `AdminApp.ExtractRunId` | src/spectator/admin/app.py:77-81 | a run id is returned exactly when the file name has the session prefix and the `.jsonl` suffix, and then the name is the trace file name built from that run id |
| `AdminApp.ExtractRunIdRoundTrip` | src/spectator/admin/app.py:77-81 | extracting the run id from the trace file name of any session and run id gives that run id back |
| `AdminApp.TailNames` | src/spectator/admin/app.py:125-128 | the names taken from the checkpoint's `trace_tail` are exactly its string items, and none when it is absent or not a list |
| `AdminApp.StringItems` | src/spectator/admin/app.py:126-128 | the strings kept from a JSON list are exactly its string items |
| `AdminApp.ListRuns` | src/spectator/admin/app.py:121-139 | the listed runs are those of the sorted, de-duplicated union of the `trace_tail` names and the globbed names |
| `AdminApp.RunsOf` | src/spectator/admin/app.py:133-138 | the loop over the sorted names yields the runs of the names that parse, in order |
| `AdminApp.RunsOfNames` | src/spectator/admin/app.py:133-138 | a run is listed exactly when its file name is among the names and its run id is what the file name parses to |
| `AdminApp.RunsIncreasingAppend` | src/spectator/admin/app.py:133-138 | appending a run whose file name is strictly after every listed one keeps the list strictly increasing by file name |
| `AdminApp.RunsKeepOrder` | src/spectator/admin/app.py:133-138 | when the names are strictly increasing, so are the file names of the runs listed from them |
| `AdminApp.RepeatCounts` | src/spectator/admin/app.py:123 | a name occurring at two positions has multiplicity at least two |
| `AdminApp.NoDupCount` | src/spectator/admin/app.py:123 | in a duplicate-free list every name has multiplicity at most one, as in the set of trace names |
| `AdminApp.SortedUnique` | src/spectator/admin/app.py:133 | sorting a duplicate-free list of names yields a strictly increasing list with the same members |
| `AdminApp.ListedRuns` | src/spectator/admin/app.py:121-139 | the listed runs are strictly increasing by file name, and a run is listed exactly when its file name came from `trace_tail` or the glob and parses to its run id |
| `AdminApp.RunTurnIds` | src/spectator/admin/app.py:162-172 | with a checkpoint, the trace name is the last `trace_tail` entry and the run id is parsed from it; when that gives nothing the run id is `rev-<revision>`, and with an empty `trace_tail` the trace name is built from session and run id; without a checkpoint both are absent |
| `SupervisorApp.ClampTail` | llama_supervisor/app.py:92 | the log tail is clamped into [0, 10000], unchanged inside it |
| `SupervisorApp.ClampLimit` | llama_supervisor/app.py:126 | the metrics limit is clamped into [1, 2000], unchanged inside it |
| `SupervisorApp.TailLines` | llama_supervisor/app.py:146-151 | nothing for a non-positive count or a missing file; otherwise the last `min(max_lines, line count)` lines of the file, in order |
| `SupervisorApp.OrderedLogPaths` | llama_supervisor/app.py:154-159 | `backups + 1` paths (just the live log for a non-positive count): the backups from `.backups` down to `.1`, then the live log |
| `SupervisorApp.BackupPathsDistinct` | llama_supervisor/app.py:154-159 | backup paths with different indices differ from each other and from the live log |
| `SupervisorApp.ReadLine` | llama_supervisor/app.py:177-189 | blank and undecodable lines are skipped; a decoded line is kept when `since` is absent; with `since`, a non-object payload raises, and an object is skipped exactly when its `ts` is a number below `since` |
| `SupervisorApp.ReadMetrics` | llama_supervisor/app.py:172-192 | a missing file gives no entries; otherwise an error when some line raises, and else the accepted payloads re-sliced to `limit` after every append, which `WindowKeepsLast` shows is their last `limit` |
| `SupervisorApp.AcceptedStaysNone` | llama_supervisor/app.py:177-189 | once a line has raised, reading further lines cannot recover |
| `SupervisorApp.WindowKeepsLast` | llama_supervisor/app.py:189-191 | for a limit of at least one, the re-sliced entries are the last `min(limit, count)` accepted payloads, in order |
| `SupervisorApp.WindowZeroKeepsAll` | llama_supervisor/app.py:190-191 | with a limit of zero, `entries[-0:]` keeps every accepted payload |
| `Chunking.ChunkId` | src/spectator/analysis/chunking.py:299-301 | a chunk id is at most ten characters, the prefix of the SHA-1 hex digest of `path:start:end:title` |
| `Chunking.BuildChunk` | src/spectator/analysis/chunking.py:286-296 | the built chunk carries the given title, lines and text, an empty strategy, and the id of its path, lines and title |
| `Chunking.NormalizedHasNoCarriageReturn` | src/spectator/analysis/chunking.py:48-51 | no carriage return survives newline normalisation |
| `Chunking.LastDot` | src/spectator/analysis/chunking.py:58 | the position found is the last `.` of the name, and none is found only when the name has no `.` |
| `Chunking.Suffix` | src/spectator/analysis/chunking.py:58 | a path's suffix is empty or a `.` followed by at least one character and no further `.`, ending the file name |
| `Chunking.ResolveStrategy` | src/spectator/analysis/chunking.py:54-65 | an explicit strategy is lower-cased and returned; `auto` (or empty) maps `.log`/`.jsonl`/`.txt` to `log`, `.md`/`.rst` to `headings`, `.py` to `python_ast` and anything else to `fixed`, case-insensitively |
| `Chunking.SplitLongLine` | src/spectator/analysis/chunking.py:304-318 | the segments of an over-long line concatenate back to the line, each is non-empty and at most `max_chars` long, and all lie on that line under the given title |
| `Chunking.ComputeOverlap` | src/spectator/analysis/chunking.py:214-225 | no overlap when `overlap_chars <= 0` or the buffer is empty; otherwise the longest non-empty tail of the buffer within `overlap_chars` (at least its last line), with its line count |
| `Chunking.FlushRun` | src/spectator/analysis/chunking.py:186-191 | flushing the buffer appends one chunk of its joined lines and keeps every chunk reporting its own lines and title |
| `Chunking.LongLineStep` | src/spectator/analysis/chunking.py:185-194 | an over-long line flushes the buffer and is split into bounded pieces, and the packing invariant moves past it |
| `Chunking.FullBufferStep` | src/spectator/analysis/chunking.py:195-205 | a full buffer is emitted and restarted from its overlap (empty when overlap is off), keeping the packing invariant |
| `Chunking.PackLine` | src/spectator/analysis/chunking.py:183-207 | one line of the packing loop keeps the invariant: chunks report their own lines, carry the title and, without overlap, are bounded and together spell the lines consumed |
| `Chunking.PackFinish` | src/spectator/analysis/chunking.py:208-210 | the last buffer is flushed; every chunk reports its lines and, without overlap, the chunks are bounded and concatenate to the whole text |
| `Chunking.PackLines` | src/spectator/analysis/chunking.py:179-211 | packing non-empty lines yields chunks titled as asked that report their own lines and, without overlap, are bounded and concatenate to the lines |
| `Chunking.LinesNonEmpty` | src/spectator/analysis/chunking.py:176 | every line of `splitlines(keepends=True)` is non-empty |
| `Chunking.ChunkFixed` | src/spectator/analysis/chunking.py:173-211 | fixed chunks are titled `chunk`, report their own lines of the text and, without overlap, are bounded and concatenate to the text |
| `Chunking.SplitOversize` | src/spectator/analysis/chunking.py:228-283 | a section within `max_chars` is one chunk; otherwise its parts concatenate to the section, are bounded, report their lines, and are titled `<title> (part i/n)` whenever there is more than one |
| `Chunking.RelabelNumbersParts` | src/spectator/analysis/chunking.py:269-283 | part `k` of `n` gets the title `<title> (part k/n)` and the id recomputed for it, with its lines and text unchanged |
| `Chunking.LabelParts` | src/spectator/analysis/chunking.py:269-283 | the labelling loop numbers every part from one to the number of parts |
| `Chunking.LabelingKeepsLines` | src/spectator/analysis/chunking.py:269-283 | labelling keeps every part's text, bound, line report and empty strategy, and titles part `k` as part `k` of the total |
| `Chunking.TilesText` | src/spectator/analysis/chunking.py:84-87 | sections tiling lines `from..n` together spell exactly those lines |
| `Chunking.SplitSections` | src/spectator/analysis/chunking.py:84-98 | each non-empty section goes through `_split_oversize` and empty ones are skipped; the chunks spell the sections' texts in order |
| `Chunking.SectionsCoverText` | src/spectator/analysis/chunking.py:84-98 | when the sections tile the file, their chunks spell the whole text and are all bounded |
| `Chunking.Run` | src/spectator/analysis/chunking.py:103-104 | a run is the longest stretch of characters from a position that satisfy the predicate |
| `Chunking.MdTitle` | src/spectator/analysis/chunking.py:103-110 | a Markdown heading starts with `#` and its title is never empty (`heading` replaces a blank one) |
| `Chunking.ExtractHeadings` | src/spectator/analysis/chunking.py:101-121 | the scanning loop returns the headings of the lines as the recursive definition finds them |
| `Chunking.HeadingStep` | src/spectator/analysis/chunking.py:106-120 | one step of the scan advances by one or two lines and finds at most one heading |
| `Chunking.HeadingsAscending` | src/spectator/analysis/chunking.py:101-121 | the headings found have strictly increasing line numbers within the file and non-empty titles |
| `Chunking.HeadingsSound` | src/spectator/analysis/chunking.py:107-119 | every heading found is a `#` heading with that title or a non-blank line over a `===`/`---` underline |
| `Chunking.HeadingsComplete` | src/spectator/analysis/chunking.py:107-113 | every `#` heading line is found with its title |
| `Chunking.UnderlineIsNoHeading` | src/spectator/analysis/chunking.py:103-104 | an underline line is never itself a `#` heading |
| `Chunking.HeadingSectionsTile` | src/spectator/analysis/chunking.py:73-82 | the preamble, heading and document sections tile the file from line one to its last line |
| `Chunking.ChunkByHeadings` | src/spectator/analysis/chunking.py:68-98 | the sections are the preamble and one per heading (or the whole document), they tile the file, and the chunks are bounded and spell the text |
| `Chunking.SymbolsAmongNonSpace` | src/spectator/analysis/chunking.py:399-410 | the symbol count never exceeds the non-space count, so the ratio is at most one |
| `Chunking.SymbolCounts` | src/spectator/analysis/chunking.py:399-407 | the loop counts the digits and symbol characters and the non-space characters |
| `Chunking.ClassifyLogLine` | src/spectator/analysis/chunking.py:381-396 | the classification is that of the stripped line: none for blank, a log line for `{...}`, a log-line or prefix match, a symbol ratio of at least 0.35 or a short name before `:`, otherwise not a log line |
| `Chunking.BlankLinesUnclassified` | src/spectator/analysis/chunking.py:382-384 | a line is left unclassified exactly when it is blank |
| `Chunking.ClassifyIgnoresOuterSpace` | src/spectator/analysis/chunking.py:382 | classifying the stripped line gives the same answer |
| `Chunking.BlockTitle` | src/spectator/analysis/chunking.py:375-378 | a block is titled `log` exactly for log lines |
| `Chunking.LogBlocks` | src/spectator/analysis/chunking.py:329-348 | the blocks tile the main lines, each holds lines of one kind (blank lines take their predecessor's kind, `False` at the start), and neighbouring blocks differ in kind |
| `Chunking.Numbered` | src/spectator/analysis/chunking.py:352-358 | each block keeps its lines and is titled `log block i` or `non-log block i`, numbered within its kind |
| `Chunking.BlockNumbers` | src/spectator/analysis/chunking.py:352-358 | a block's number is one more than the count of earlier blocks of its kind |
| `Chunking.ChunkByLog` | src/spectator/analysis/chunking.py:321-372 | the last `min(200, n)` lines form the `tail` section, the rest are cut into numbered blocks; the sections tile the file and the chunks are bounded and spell the text |
| `Chunking.AstSections` | src/spectator/analysis/chunking.py:140-145 | the definitions, preceded by a `module` section when the first one starts after line one |
| `Chunking.ChunkByPythonAst` | src/spectator/analysis/chunking.py:124-160 | a parse failure falls back to fixed chunks; no definitions gives one `module` split of the text; otherwise the module prelude and each definition are split, bounded when they lie within the file, and spell their sections |
| `Chunking.Stamped` | src/spectator/analysis/chunking.py:43-44 | every chunk is kept and only its strategy is set |
| `Chunking.StampKeepsTexts` | src/spectator/analysis/chunking.py:43-44 | stamping keeps the texts and the bound |
| `Chunking.StampStrategy` | src/spectator/analysis/chunking.py:43-44 | the loop stamps every chunk with the resolved strategy |
| `Chunking.ChunkFile` | src/spectator/analysis/chunking.py:20-45 | a non-positive `max_chars` is the only error before the text is read; empty normalised text gives no chunks; an unknown strategy raises with its name; otherwise every chunk carries the resolved strategy and, outside `python_ast` and overlapping `fixed`, the chunks are bounded and spell the normalised text |
| `Soak.RequireList` | src/spectator/analysis/soak.py:78-84 | the field is accepted exactly when it is a list of strings, and then its strings are returned in order; otherwise the `must be a list` or `must contain strings only` error |
| `Soak.RequireStr` | src/spectator/analysis/soak.py:87-91 | a missing field reads as the empty string, a string field as itself, and any other value is the `must be a string` error |
| `Soak.SetOfSeqSize` | src/spectator/analysis/soak.py:101 | the set of a list is no larger than the list, and as large exactly when the list repeats nothing |
| `Soak.NoDupSnoc` | src/spectator/analysis/soak.py:101 | a list with one more item repeats nothing exactly when the shorter list repeats nothing and lacks the new item |
| `Soak.DuplicatesIff` | src/spectator/analysis/soak.py:101-102 | `len(set(refs)) != len(refs)` holds exactly when two positions of the list hold the same id |
| `Soak.CheckLimits` | src/spectator/analysis/soak.py:108-120 | the loop over the policy's limits reports the same failures, or the same error, as the specification of the limit checks |
| `Soak.ValidateCheckpoint` | src/spectator/analysis/soak.py:94-124 | the validation loop produces exactly the specified checkpoint failures, or the first field error |
| `Soak.LimitFailuresStaysErr` | src/spectator/analysis/soak.py:115-116 | once a limited field fails to read, the later fields do not change the error |
| `Soak.LimitFailuresSound` | src/spectator/analysis/soak.py:115-120 | a limit failure is reported exactly for a policy field whose list is longer than its limit, with that length |
| `Soak.CheckpointFailuresIff` | src/spectator/analysis/soak.py:99-124 | duplicate refs, granted/pending overlap, an over-long episode summary and each over-limit field are reported exactly when they occur |
| `Soak.KindTags` | src/spectator/analysis/soak.py:195-227 | the seven counted kinds map to their own counters |
| `Soak.CountEvents` | src/spectator/analysis/soak.py:187-227 | the event loop computes the specified tally, or the error a non-object event raises |
| `Soak.TallyStaysErr` | src/spectator/analysis/soak.py:187-188 | once an event cannot be read, later events do not change the error |
| `Soak.TagCountIsKindCount` | src/spectator/analysis/soak.py:188-191 | counting events by counter tag equals counting them by their string kind |
| `Soak.KindTagInjective` | src/spectator/analysis/soak.py:195-227 | two kinds that share a counter are the same kind |
| `Soak.TallyCountsKinds` | src/spectator/analysis/soak.py:187-227 | `event_counts` counts each string kind, and each counter counts the events of its kind; events with a non-string kind are not counted |
| `Soak.CountersByKind` | src/spectator/analysis/soak.py:195-227 | `llm_req`, `llm_done`, `tool_plan`, `tool_start`, `tool_done` and `notes_patch` equal the number of events of that kind |
| `Soak.TallyOkFailBound` | src/spectator/analysis/soak.py:217-221 | `tool_ok + tool_fail <= tool_done` |
| `Soak.TallyToolCounts` | src/spectator/analysis/soak.py:201-216 | a tool appears in `tool_counts` exactly when some `tool_start` or `tool_done` names it, with the number of `tool_done` events naming it (zero for a tool only started) |
| `Soak.NamesSnoc` | src/spectator/analysis/soak.py:206-216 | a tool is named by the events plus one more exactly when it was named before or by the new event |
| `Soak.MissingIdsSpec` | src/spectator/analysis/soak.py:235-239 | the missing ids are exactly the started ids never done, listed in sorted order, and there are some exactly when such an id exists |
| `Soak.Unmatched` | src/spectator/analysis/soak.py:235 | an id is kept exactly when it is in the first list and not in the second |
| `Soak.ResolveTurns` | src/spectator/analysis/soak.py:250-253 | `turns` (or, when it is absent or zero, the `notes_patch` count) is used when positive; otherwise the failure is flagged and the turns become one, since `max(turns or 0, 1)` is one for a non-positive value |
| `Soak.NoEventsIff` | src/spectator/analysis/soak.py:170-171 | the no-events failure is reported exactly for an empty trace |
| `Soak.MismatchIff` | src/spectator/analysis/soak.py:229-234 | the llm mismatch is reported exactly when `llm_req != llm_done`, and the tool mismatch exactly when the plan, start and done counts are not all equal |
| `Soak.MissingDoneIff` | src/spectator/analysis/soak.py:235-239 | the missing-done failure is reported exactly when some started id was never done |
| `Soak.MissingDoneOnly` | src/spectator/analysis/soak.py:235-239 | a missing-done failure always lists exactly the sorted missing ids |
| `Soak.TraceFailuresIff` | src/spectator/analysis/soak.py:169-239 | on a readable trace, the empty-trace and mismatch failures hold exactly when the event-kind counts say so |
| `Soak.AnalyzeSoak` | src/spectator/analysis/soak.py:159-295 | the analysis succeeds exactly when the trace and the checkpoint can be read, and then reports the resolved turns, the tally, and the trace, checkpoint and turn failures in source order |
| `TraceParser.NameLength` | src/spectator/admin/trace_parser.py:9 | the length of the longest run of `A-Z` and `_` at the start of a line |
| `TraceParser.HeaderOfIff` | src/spectator/admin/trace_parser.py:9 | a line is the header `NAME` exactly when it is a non-empty run of `A-Z`/`_`, a `:` and nothing but whitespace |
| `TraceParser.StripNewlines` | src/spectator/admin/trace_parser.py:21 | only the outer newlines go: the result is a slice `s[a..b]` of the input with every character before `a` and from `b` on a newline, and it neither starts nor ends with a newline, so the middle, newlines included, is kept |
| `TraceParser.LastHeader` | src/spectator/admin/trace_parser.py:25-30 | the position of the last header line, and none exactly when no line is a header |
| `TraceParser.SectionKeys` | src/spectator/admin/trace_parser.py:12-34 | a section exists exactly for each header name that occurs, so text before the first header is dropped |
| `TraceParser.SectionBody` | src/spectator/admin/trace_parser.py:17-33 | the section of a name is the body of the lines after its last header up to the next header, joined by newlines and stripped of outer newlines |
| `TraceParser.ScanHeader` | src/spectator/admin/trace_parser.py:26-30 | a header line flushes the open section and opens its own with an empty buffer |
| `TraceParser.ScanText` | src/spectator/admin/trace_parser.py:31-32 | a text line is buffered under the open header and ignored before the first one |
| `TraceParser.FlushScanState` | src/spectator/admin/trace_parser.py:33 | the final flush yields the specified sections |
| `TraceParser.ParsePromptSections` | src/spectator/admin/trace_parser.py:12-34 | the scanning loop returns exactly the specified sections of the prompt's lines |
| `TraceParser.ParseLine` | src/spectator/admin/trace_parser.py:45-52 | a line is kept exactly when it decodes to a JSON object, and then as that object |
| `TraceParser.ExtractRole` | src/spectator/admin/trace_parser.py:55-61 | a role is found exactly when `data` is an object whose `role` is a string, and it is that string |
| `TraceParser.EventsOfCount` | src/spectator/admin/trace_parser.py:84-99 | there are at most as many events as lines, none when no line is an object and one per line when every line is |
| `TraceParser.EventsOfSnoc` | src/spectator/admin/trace_parser.py:84-99 | one more line adds its event exactly when it parses |
| `TraceParser.WithRole` | src/spectator/admin/trace_parser.py:100-101 | the events of one role are among the events |
| `TraceParser.ByRoleFilters` | src/spectator/admin/trace_parser.py:100-101 | a role has an entry in `events_by_role` exactly when some event has it, and the entry lists that role's events in order |
| `TraceParser.RecordRole` | src/spectator/admin/trace_parser.py:100-101 | recording one more event gives the grouping of the longer trace |
| `TraceParser.PerRoleKeys` | src/spectator/admin/trace_parser.py:103-113 | a role has a `per_role` entry exactly when it has an `llm_req` or `llm_done` event |
| `TraceParser.UpdateEntryPairs` | src/spectator/admin/trace_parser.py:114-126 | an `llm_req` replaces the entry's request and an `llm_done` its completion, the other side unchanged |
| `TraceParser.PerRolePairs` | src/spectator/admin/trace_parser.py:103-126 | each role's entry holds its last `llm_req` and its last `llm_done` |
| `TraceParser.LastOfNone` | src/spectator/admin/trace_parser.py:103-126 | a role without request or completion events has neither recorded |
| `TraceParser.RoleOrderDistinct` | src/spectator/admin/trace_parser.py:104-113 | the roles are recorded once each, and each has an entry |
| `TraceParser.RecordRequest` | src/spectator/admin/trace_parser.py:114-124 | a request event records itself and, for a string prompt, its sections and the pretty `HISTORY_JSON` |
| `TraceParser.RecordPair` | src/spectator/admin/trace_parser.py:103-126 | for an event whose kind can be hashed, recording it gives the per-role entries of the longer trace; a list or object kind raises at line 103 before this branch, which `ParseTraceFile` models |
| `TraceParser.PerRoleList` | src/spectator/admin/trace_parser.py:195-196 | `per_role` is sorted by role |
| `TraceParser.SortRoles` | src/spectator/admin/trace_parser.py:195-196 | the entries, sorted by role, are the specified list |
| `TraceParser.Extras` | src/spectator/admin/trace_parser.py:167-180 | the metadata holds exactly the keys other than `id`, `tool`, `role`, `args`, `ok`, `error` and `duration_ms`, with their values |
| `TraceParser.ToolOrderKeys` | src/spectator/admin/trace_parser.py:128-166 | each tool id is recorded once, the recorded ids are the keys of `tool_calls`, and each call carries its own id |
| `TraceParser.ToolKeys` | src/spectator/admin/trace_parser.py:128-156 | a tool call exists exactly for the string ids of `tool_start` and `tool_done` events |
| `TraceParser.ToolDoneMetadata` | src/spectator/admin/trace_parser.py:157-182 | after a `tool_done`, its call has that event's `ok`, `error` and `duration_ms`, and its extra keys as metadata when there are any |
| `TraceParser.RecordTool` | src/spectator/admin/trace_parser.py:128-182 | recording one more event gives the tool calls of the longer trace |
| `TraceParser.ToolCallList` | src/spectator/admin/trace_parser.py:193-194 | `tool_calls` is sorted by id |
| `TraceParser.ToolCallListEntries` | src/spectator/admin/trace_parser.py:193-194 | the sorted list holds every recorded call once |
| `TraceParser.NoRepeatCard` | src/spectator/admin/trace_parser.py:193 | a repeat-free list of the ids is as long as the set of them |
| `TraceParser.SortTools` | src/spectator/admin/trace_parser.py:193-194 | the calls, sorted by id, are the specified list |
| `TraceParser.FinalIsLast` | src/spectator/admin/trace_parser.py:188-191 | `final_response` is absent exactly when no event has a visible response string, and otherwise is that of the last such event |
| `TraceParser.RecordOutput` | src/spectator/admin/trace_parser.py:184-191 | recording one more event gives the sanitizer records, warnings and final response of the longer trace |
| `TraceParser.FirstUnhashable` | src/spectator/admin/trace_parser.py:103 | the position it returns holds an event whose kind is a list or an object |
| `TraceParser.FirstUnhashableIsFirst` | src/spectator/admin/trace_parser.py:103 | no position is returned exactly when no kind is unhashable, and no earlier kind is unhashable |
| `TraceParser.ParseOutcomeCases` | src/spectator/admin/trace_parser.py:84-103 | the parse fails exactly when some event's kind is a list or an object, and then with the `unhashable type` message of the first such event; otherwise it gives the view of all events |
| `TraceParser.ParseTraceFile` | src/spectator/admin/trace_parser.py:64-206 | a missing file gives the empty view; otherwise the `TypeError` of the first event with a list or object kind, or else the view of the events of the lines that parse |
| `Autopsy.PyStr` | src/spectator/analysis/autopsy.py:302 | `str()` of a string is the string itself and of `None` is `None` |
| `Autopsy.LineEvents` | src/spectator/analysis/autopsy.py:21-36 | a line yields at most one event |
| `Autopsy.LoadTraceEvents` | src/spectator/analysis/autopsy.py:18-37 | the loading loop yields the specified events of the lines |
| `Autopsy.TraceEventsComplete` | src/spectator/analysis/autopsy.py:21-36 | a non-blank line that does not decode becomes a `trace_parse_error` event with its line number and first 200 characters, and one that decodes to an object is kept as that object |
| `Autopsy.TraceEventsBound` | src/spectator/analysis/autopsy.py:18-37 | there are at most as many events as lines |
| `Autopsy.BareToolJson` | src/spectator/analysis/autopsy.py:49-65 | true exactly when the stripped text is `{...}` that decodes to an object with `name`+`arguments`, `tool`+`args` or `tool`+`arguments` |
| `Autopsy.BareToolJsonStripped` | src/spectator/analysis/autopsy.py:50 | the answer does not change when the text is stripped first |
| `Autopsy.CategorizeKnown` | src/spectator/analysis/autopsy.py:68-103 | a code gets a known category exactly when it is one of the mapped codes, and every other code gets `("unknown", "Unmapped invariant")` |
| `Autopsy.MakeAnomaly` | src/spectator/analysis/autopsy.py:146-154 | an anomaly carries its code, severity and evidence, and the category and invariant of its code |
| `Autopsy.KeySetMember` | src/spectator/analysis/autopsy.py:110 | a key is seen exactly when some item has that `(action, rationale)` pair |
| `Autopsy.Dedupe` | src/spectator/analysis/autopsy.py:106-115 | the loop with its `seen` set computes the specified de-duplication |
| `Autopsy.FirstIndex` | src/spectator/analysis/autopsy.py:106-115 | the position of an item with the given key |
| `Autopsy.FirstIndexIsFirst` | src/spectator/analysis/autopsy.py:106-115 | no earlier item has that key |
| `Autopsy.DedupeKeys` | src/spectator/analysis/autopsy.py:106-115 | the output has exactly the keys of the input |
| `Autopsy.DedupeNoRepeat` | src/spectator/analysis/autopsy.py:106-115 | no two output items share an `(action, rationale)` key |
| `Autopsy.DedupeKeepsFirst` | src/spectator/analysis/autopsy.py:106-115 | each output item is the first input item with its key |
| `Autopsy.DedupeOrder` | src/spectator/analysis/autopsy.py:106-115 | the output follows the order of first occurrence in the input |
| `Autopsy.DedupeDistinct` | src/spectator/analysis/autopsy.py:106-115 | a list without repeated keys is returned unchanged |
| `Autopsy.OpenRequestValid` | src/spectator/analysis/autopsy.py:156-181 | opening a stage for an `llm_req` keeps every open index pointing at an open stage of its role, in increasing order |
| `Autopsy.CloseRequestValid` | src/spectator/analysis/autopsy.py:182-201 | closing a stage for an `llm_done` keeps the stage log well formed |
| `Autopsy.StageStep` | src/spectator/analysis/autopsy.py:156-201 | each event keeps the stage log well formed |
| `Autopsy.Log` | src/spectator/analysis/autopsy.py:140-201 | the stage log of any trace is well formed |
| `Autopsy.DoneClosesLatest` | src/spectator/analysis/autopsy.py:182-201 | an `llm_done` closes the most recent open stage of its role, recording its time and response length and changing nothing else; without an open stage it appends a stage of its own with no request |
| `Autopsy.ReqMismatchIff` | src/spectator/analysis/autopsy.py:156-170 | an `llm_req` is flagged as a mismatch exactly when its role still has an open stage |
| `Autopsy.StageCount` | src/spectator/analysis/autopsy.py:156-201 | there are at least as many stages as requests and at most as many as requests and completions together |
| `Autopsy.Register` | src/spectator/analysis/autopsy.py:202-220 | a registered id has an entry |
| `Autopsy.RegisterValid` | src/spectator/analysis/autopsy.py:202-241 | registering an id keeps the tool log consistent |
| `Autopsy.StartToolValid` | src/spectator/analysis/autopsy.py:202-220 | a `tool_start` keeps the tool log consistent |
| `Autopsy.FinishToolValid` | src/spectator/analysis/autopsy.py:221-241 | a `tool_done` keeps the tool log consistent |
| `Autopsy.ToolStepValid` | src/spectator/analysis/autopsy.py:202-247 | each event keeps the tool log consistent |
| `Autopsy.Tools` | src/spectator/analysis/autopsy.py:202-247 | the tool log of any trace is consistent |
| `Autopsy.ToolStepIds` | src/spectator/analysis/autopsy.py:202-241 | an event adds its id to the started or done ids exactly when it is a `tool_start` or `tool_done` carrying it |
| `Autopsy.IdsOfKindMember` | src/spectator/analysis/autopsy.py:202-241 | an id is among the ids of a kind exactly when an event of that kind carries it |
| `Autopsy.IdsAre` | src/spectator/analysis/autopsy.py:136-137 | the started and done id sets are those carried by `tool_start` and `tool_done` events |
| `Autopsy.ToolOrderStarted` | src/spectator/analysis/autopsy.py:202-220 | `tool_order` repeats no id and holds exactly the ids of `tool_start` events, so ids seen only in `tool_done` are left out |
| `Autopsy.DoneIdsOf` | src/spectator/analysis/autopsy.py:221-241 | an id is done exactly when a `tool_done` carries it |
| `Autopsy.FirstStart` | src/spectator/analysis/autopsy.py:202-220 | the position of a `tool_start` carrying the id |
| `Autopsy.ToolOrderFirstStart` | src/spectator/analysis/autopsy.py:202-220 | `tool_order` lists ids in the order of their first `tool_start` |
| `Autopsy.ToolOrderStep` | src/spectator/analysis/autopsy.py:202-220 | an event leaves `tool_order` unchanged or appends one id not started before that it starts |
| `Autopsy.MarkAll` | src/spectator/analysis/autopsy.py:278-281 | marking truncated tools keeps every entry |
| `Autopsy.MarkEntries` | src/spectator/analysis/autopsy.py:278-281 | the marking loop marks the entries whose tool name was truncated |
| `Autopsy.MissingDone` | src/spectator/analysis/autopsy.py:283-293 | only `tool_missing_done` anomalies are raised here |
| `Autopsy.FlagMissing` | src/spectator/analysis/autopsy.py:283-293 | the loop raises the specified missing-done anomalies |
| `Autopsy.MissingDoneExactly` | src/spectator/analysis/autopsy.py:283-293 | a high-severity `tool_missing_done` with `id=<id>` is raised exactly for a started id that was never done |
| `Autopsy.FailedTools` | src/spectator/analysis/autopsy.py:295-306 | only `tool_failed` anomalies are raised here |
| `Autopsy.FlagFailed` | src/spectator/analysis/autopsy.py:295-306 | the loop raises the specified failure anomalies |
| `Autopsy.FailedListed` | src/spectator/analysis/autopsy.py:295-306 | an entry whose `ok` is `False` raises its `tool_failed` anomaly |
| `Autopsy.FailedSource` | src/spectator/analysis/autopsy.py:295-306 | every `tool_failed` anomaly comes from an entry whose `ok` is `False` |
| `Autopsy.TotalsMismatch` | src/spectator/analysis/autopsy.py:308-318 | only an `llm_req_done_mismatch` with the totals as evidence is raised here |
| `Autopsy.VisibleLeak` | src/spectator/analysis/autopsy.py:320-330 | only `visible_tool_json_leak` anomalies are raised here |
| `Autopsy.TruncatedResults` | src/spectator/analysis/autopsy.py:332-342 | only `tool_results_truncated` anomalies are raised here |
| `Autopsy.ToolList` | src/spectator/analysis/autopsy.py:418 | the tools list holds the entry of each id in `tool_order`, in that order |
| `Autopsy.FoldSnoc` | src/spectator/analysis/autopsy.py:140-276 | one more event advances the stage log, the tool log, the loop's anomalies, the sanitizer records, the counts and the final visible response by that event alone |
| `Autopsy.RecordRequest` | src/spectator/analysis/autopsy.py:156-181 | handling an `llm_req` advances the stage log and raises the specified anomalies |
| `Autopsy.RecordCompletion` | src/spectator/analysis/autopsy.py:182-201 | handling an `llm_done` advances the stage log as specified |
| `Autopsy.RecordStart` | src/spectator/analysis/autopsy.py:202-220 | handling a `tool_start` advances the tool log as specified |
| `Autopsy.RecordDone` | src/spectator/analysis/autopsy.py:221-241 | handling a `tool_done` advances the tool log as specified |
| `Autopsy.RecordTruncated` | src/spectator/analysis/autopsy.py:242-247 | handling a `tool_result_truncated` advances the tool log as specified |
| `Autopsy.FoldLlm` | src/spectator/analysis/autopsy.py:156-201 | the scan state stays that of the events read so far across an LLM event |
| `Autopsy.FoldTool` | src/spectator/analysis/autopsy.py:202-247 | the scan state stays that of the events read so far across a tool event |
| `Autopsy.QuietStep` | src/spectator/analysis/autopsy.py:140-276 | an event of no LLM or tool kind changes neither log and raises no request mismatch |
| `Autopsy.FoldWarning` | src/spectator/analysis/autopsy.py:248-272 | the scan state stays that of the events read so far across a warning event |
| `Autopsy.FoldOther` | src/spectator/analysis/autopsy.py:140-155 | the scan state stays that of the events read so far across any other event |
| `Autopsy.FoldEvent` | src/spectator/analysis/autopsy.py:140-276 | the scan state stays that of the events read so far across any event |
| `Autopsy.ScanEvents` | src/spectator/analysis/autopsy.py:140-276 | the event loop ends in the scan state of the whole trace |
| `Autopsy.Recommend` | src/spectator/analysis/autopsy.py:359-416 | the loop collects the specified recommendations |
| `Autopsy.Conclude` | src/spectator/analysis/autopsy.py:278-418 | the steps after the loop produce the specified report |
| `Autopsy.AutopsyFromTrace` | src/spectator/analysis/autopsy.py:118-418 | the method produces the specified report of the trace's events |
| `Autopsy.EventCodes` | src/spectator/analysis/autopsy.py:140-276 | an anomaly raised by one event has a code raised inside the loop |
| `Autopsy.LoopCodes` | src/spectator/analysis/autopsy.py:140-276 | every anomaly of the event loop has a code raised inside the loop |
| `Autopsy.PartOrigin` | src/spectator/analysis/autopsy.py:140-342 | an anomaly of the six parts has a known code and, by its code, comes from the part that raises it |
| `Autopsy.KindCountPositive` | src/spectator/analysis/autopsy.py:332 | an event kind is counted at least once exactly when some event has it |
| `Autopsy.FinalVisibleIsLast` | src/spectator/analysis/autopsy.py:273-276 | the final visible response is absent exactly when no event has one, and otherwise is that of the last such event |
| `Autopsy.AnomalyCodesKnown` | src/spectator/analysis/autopsy.py:140-342 | every anomaly of a trace has a known code |
| `Autopsy.AnomalyOrigin` | src/spectator/analysis/autopsy.py:278-342 | each post-loop anomaly comes from its own check |
| `Autopsy.MissingDoneReported` | src/spectator/analysis/autopsy.py:283-293 | a missing-done anomaly for an id is reported exactly when a `tool_start` carries it and no `tool_done` does |
| `Autopsy.FailuresReported` | src/spectator/analysis/autopsy.py:295-306 | every entry whose `ok` is `False` is reported as `tool_failed` |
| `Autopsy.FailedMarkedSource` | src/spectator/analysis/autopsy.py:278-306 | marking truncated tools does not create failures |
| `Autopsy.FailureSource` | src/spectator/analysis/autopsy.py:295-306 | every reported `tool_failed` comes from an entry whose `ok` is `False` |
| `Autopsy.TotalsReported` | src/spectator/analysis/autopsy.py:308-318 | the totals mismatch is reported exactly when the `llm_req` and `llm_done` totals differ |
| `Autopsy.LeakReported` | src/spectator/analysis/autopsy.py:320-330 | the leak is reported exactly when the final visible response is non-empty bare tool JSON, with its first 200 characters as evidence |
| `Autopsy.TruncationReported` | src/spectator/analysis/autopsy.py:332-342 | the truncation anomaly is reported exactly when some event is a `tool_result_truncated` |
| `Autopsy.RecommendationKnown` | src/spectator/analysis/autopsy.py:359-416 | a code gets a recommendation exactly when it is a known code, with an action and a rationale |
| `Autopsy.RecommendationsOfKnown` | src/spectator/analysis/autopsy.py:359-416 | anomalies with known codes get one recommendation each, in order |
| `Autopsy.RecommendedOnce` | src/spectator/analysis/autopsy.py:359-416 | after de-duplication every anomaly's recommendation appears exactly once and nothing else appears |
| `Autopsy.ReportRecommendations` | src/spectator/analysis/autopsy.py:359-416 | every reported anomaly has a recommendation, and the report's recommendations are the de-duplicated list |
| `Autopsy.EntriesUnmarked` | src/spectator/analysis/autopsy.py:202-247 | no entry is marked truncated during the event loop |
| `Autopsy.ReportedTools` | src/spectator/analysis/autopsy.py:278-281 | the reported tools follow `tool_order` with their entries' tool and `ok`, marked truncated exactly when their tool name was truncated |

## Left out

- Network, process and disk I/O: HTTP requests, `subprocess.run`, sqlite, the file writes of checkpoints and traces, and directory globbing. Each is an oracle parameter, an in-memory map, or an input value.
- Tracer events in the pipeline, the controller and the tool round are not modelled, because the tracer's event shape does not match its writer. `Controller` takes whether the trace file was written as the parameter `traceWritten`.
- Floating point: soak fail rates, per-turn bytes and baseline deltas (`_compare_baseline`), the memory-pressure ratios (`compute_memory_pressure`), telemetry, embeddings and retrieval score formatting. The pipeline receives the telemetry, memory-feedback and retrieval blocks as text parameters (`Env`).
- `Pipeline`: `_compact_state` and the `json.dumps` texts of tool results and history are parameters, so the history character budget counts the parameter's characters.
- `Pipeline`: `sanitize_visible_text_with_report` is called at src/spectator/runtime/pipeline.py:367 but is not defined in src/spectator/runtime/sanitize.py. The model uses `sanitize_visible_text`, and the `removed` list only feeds a trace event, which is out of scope.
- `Pipeline.RunPlannedCalls`: src/spectator/runtime/pipeline.py:326 passes the session state as a second argument to `execute_calls`, which takes only the calls (src/spectator/tools/executor.py:16). The repository's tests make the same two-argument call. The model calls the executor with the calls alone and ignores the state.
- `Retrieval`: `retrieve` (src/spectator/memory/retrieval.py:9-18) is not modelled, because it needs the embedder and the vector store. The `{score:.3f}` text is a parameter.
- `LlamaServer`: these parts are not modelled:
  - `_env_float` and `_env_int`;
  - `_headers` and `_log_payload`;
  - `_open_stream` and `reset_slot_cache`;
  - the non-streaming HTTP body read.
- `LlamaServer`: `_load_llama_rules` and `_build_system_rules` are represented by the rules text, which is a parameter.
- `LlamaServer`: src/spectator/backends/llama_server.py defines `_ensure_system_rules` and `_build_payload` twice. Only the later definitions are in effect, so only those are modelled.
- `TestArtifacts`: the file helpers are not modelled: `next_sequence`, `ensure_dirs`, `json_bytes`, `write_bytes`, `write_json` and `sha256_bytes`.
- `HttpTool`: `urlopen` and the HTML-to-text conversion (`_HTMLStripper`) are parameters. `_extract_domain` takes an already-parsed URL.
- `Chunking`: SHA-1 chunk ids and Python's `ast` parse (the top-level definitions and their line ranges) are parameters. `_title_for_node` is folded into those ranges.
- `Chunking`: text between and after top-level Python definitions belongs to no chunk, as in the source. `ChunkByPythonAst` proves the bound only for definitions that lie within the file.
- `Chunking.ChunkFixed`: the `max_chars` bound and the concatenation property are proved only for `overlap_chars <= 0`. With overlap, a chunk can exceed `max_chars` (buffer carry-over), so only line reporting is proved there.
- `Strings.Lower` maps the ASCII capitals and the Kelvin sign, the only characters `str.lower` maps one to one onto ASCII. Other letters keep their case, so text is compared exactly only against ASCII text. `Strings.IsDigit` accepts the ASCII digits only, where Python's `\d`, `int()` and `str.isdigit` accept every Unicode decimal digit. The members that this changes are listed below.
- `Settings.ToolSettings.constructor`: the allowlist is lower-cased with `Strings.Lower`. `["BÜCHER.DE"]` is stored as `bÜcher.de`, where Python stores `bücher.de` and then allows `http://bücher.de/`.
- `Settings.ToolSettings.WithAllowlist`: the new allowlist is lower-cased the same way, with the same consequence for non-ASCII domains.
- `BackendRegistry.Backends.RegisterBackend`: the key is lower-cased with `Strings.Lower`, so `"Ä"` is stored under `Ä`, not under Python's `ä`.
- `BackendRegistry.Backends.GetBackend`: the lookup lower-cases the same way. After registering `"Ä"`, `get_backend("ä")` is an error here and succeeds in Python.
- `OpenLoopsAdmin.MaxLoopNumber`: `^loop-(\d+)$` is read with ASCII digits only. Python reads `loop-٣` as loop 3; here it counts as 0.
- `OpenLoopsAdmin.NextLoopId`: it follows `OpenLoopsAdmin.MaxLoopNumber`, so the next id can differ when an existing id uses non-ASCII digits.
- `Chunking`: `str.lower`, `str.isalnum` and `str.isdigit` are read as described for `Strings` above. `_symbol_ratio >= 0.35` is compared as an exact rational.
- `Autopsy.FlagMissing`: the source iterates the set `tool_start_ids - tool_done_ids`, whose order Python leaves unspecified. The model raises these anomalies in first-start order. The set of anomalies raised is the same.
- `Autopsy`: these parts are not modelled:
  - the `summary` dictionary and `cause_categories`;
  - checkpoint loading and its summary;
  - `render_autopsy_markdown`.
- `Autopsy`: `str()` of floats, lists and dictionaries is the parameter `repr`.
- `Autopsy.AutopsyFromTrace`: takes the trace file's lines; reading the file with `read_text()` and splitting it with `splitlines()` are left to the caller.
- `Soak`: the trace and checkpoint loaders, byte sizes, per-turn rates, warnings and `render_summary` are not modelled. Failures are a datatype rather than their message strings, except the field errors, which keep their text.
- `TraceParser`: `_pretty_history_json` is the parameter `pretty`. The header regex's `\s` is Python's whitespace set as written out in `Strings`.
- `AdminApp`: the routes are not modelled. This covers the auth middleware, `_resolve_data_root`, `list_sessions`, `get_run`, the open-loop and introspection endpoints, and `run_open_loops`. Only run-id extraction, run listing and `run_turn`'s run-id fallback are modelled.
- `SupervisorApp`: process management, the other routes and `_parse_since` are not modelled. `since` arrives as an already-parsed timestamp.
- `Sandbox.ParsePath`: POSIX pathlib keeps exactly two leading slashes (`//x`); the model reads them as the root `/`.
- `Controller.RunTurn`: src/spectator/runtime/controller.py:32 passes `run_id` to `TraceWriter`, but its constructor takes only `session_id` and `base_dir` (src/spectator/core/tracing.py:17). As written, `run_turn` raises `TypeError` before the pipeline runs. The model assumes a tracer that accepts `run_id` and keeps the writer's path, so the trace name it records is `<session_id>.jsonl` (src/spectator/core/tracing.py:21-23).
- `HttpTool.HttpGet`: the `http.get` handler takes `(args, context)` (src/spectator/tools/http_tool.py:83), but `ToolExecutor` calls every handler as `spec.handler(call.args)` (src/spectator/tools/executor.py:32), and no caller supplies a `ToolContext`. As written, every `http.get` run through the executor raises `TypeError` for the missing `context`, which the executor reports as a failed result. The model assumes a context carrying the state's granted capabilities; in `Executor`, running a handler is the parameter `invoke`, which does not show the mismatch.
- `Sanitize`: the end-to-end lemmas assume the input does not already contain the placeholder prefix `<<<SPECTATOR_BLOCK_`. Such text would be restored as a protected block.
- Cross-file inconsistencies in the source are modelled as the caller evidently intends. Five of them stop an operation as written. The one at src/spectator/tools/registry.py:55-57 is listed under Findings. The ones at src/spectator/runtime/pipeline.py:326, src/spectator/runtime/pipeline.py:367, src/spectator/runtime/controller.py:32 and src/spectator/tools/executor.py:32 (against src/spectator/tools/http_tool.py:83) each have a line above saying what the model assumes instead.
- Front ends (the CLI, scripts), the prompt loader, `time_tool`, and the supervisor's manager and telemetry threads are not modelled.

## Findings

| source | as written | input that shows it | evidently intended | confidence | as-written member | corrected member |
|---|---|---|---|---|---|---|
| src/spectator/tools/registry.py:55-57 | `build_default_registry` calls `http_get_handler(root, settings=...)`, but the handler takes only `settings` (src/spectator/tools/http_tool.py:79). It also calls `ToolExecutor(reg)`, but the constructor takes `root` and `registry` (src/spectator/tools/executor.py:12). | any call with a valid settings value, e.g. `build_default_registry(root, None)` | register the four built-in tools (plus `http.get` when available) and return `ToolExecutor(root, reg)` | not executed | `DefaultRegistry.BuildAsWritten` / `DefaultRegistry.AsWrittenNeverBuilds` | `DefaultRegistry.BuildDefaultRegistry` |
