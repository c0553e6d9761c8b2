# PickerMux: a verified model of its protocols and validators

This Dafny project models the parts of PickerMux whose correctness is hard to see from any single
function: the completion protocol of a child process, the tool-call stream and history of the local MLX
runtime, the digest of an installed distribution, the operation lane and the irreversible removal of the
companion app, immutable model profiles, the bundled backend, the search for a Node runtime, and the token
ledger. `dafny verify dfyconfig.toml` checks everything.

## How the project is laid out

**A child process (`ProcessSession`, `ProcessSafety`, `ProcessRuns`, `ProcessKill`, `ProcessLiveness`,
`ProcessEnd`).** The session object is a class whose methods are the lock regions of the source, each tied to a
function on the record of shared fields. The interleaved machine uses the same functions; a step is one lock
region, one system call or one operation on a dispatch object, with a program counter for each reader, for
`stop`, for each caller of `finishIfReady` and for the starting thread. Safety is an invariant over all finite
interleavings; liveness is proved over all weakly fair infinite ones with a rank and a helper thread, once for
the resumption of the caller and once for the end of the child. `ProcessKill` says exactly which children no
continuation of a run can kill any more.

**The tool-call stream (`Text`, `Utf8`, `Json`, `JsonLocality`, `JsonRoundTrip`, `JsonNumbers`, `JsonStrings`,
`JsonGrammar`, `Kolibri`, `KolibriStream`, `KolibriGrammar`, `KolibriWitness`, `KolibriRuntime`, `KolibriServer`,
`KolibriHistory`, `KolibriRequest`, `KolibriFields`, `KolibriShapes`, `KolibriExchange`).** The JSON decoder and
writer are concrete (RFC 8259, sections 4 to 7, with Python's extensions and the rejection of duplicate fields).
The decoder is proved equal to the grammar on concrete syntax trees, to depend only on the text it consumed, and
to undo the writer. On top of that come the strict completion parser with the grammar of what it accepts, the
generation loop with its twelve-character window, the lock, the request validator with its history loop and the
meaning of its fields, the closed loop between parser and validator, and a whole exchange.

**The distribution digest (`Distribution`, `DistributionEncoding`, `DistributionOrder`).** Trees are listings in
enumeration order; the stream that the digest hashes is a sequence of bytes.

**The companion (`OperationLane`, `LoginStartup`, `Removal`, `Controller`, `ControllerSafety`, `ControllerRuns`,
`ControllerViews`).** The lane and the removal coordinator are classes. The controller is a machine of main-actor
steps split at every `await`, against a client, a user and a system that answer anything; its log records what
is called, published and confirmed.

**Profiles and files (`Weights`, `ModelStore`, `ModelContext`, `ModelMeaning`, `ModelProfiles`, `ModelWitness`,
`Paths`, `BundledBackend`, `BundleMeaning`, `BundleWitness`, `NodeRuntime`).** The file system, the hash functions
and the JSON reader of files are parameters.

**Grammars (`Patterns`, `Grammars`).** Names, digests and paths are predicates on characters; each is proved to be
what the regular expression of its source matches.

**The token ledger (`TokenUsage`).** The accumulator that the bridge publishes and the companion's validator.

## Where the code and its documentation disagree

The model follows the code; each of these is a lemma.

- `start` of a process session: a comment (lines 65-67) demands that a timeout bounds process execution. It
  does whenever `start` does not fail (`ProcessEnd.TimeoutBoundsExecution`). When the request cannot be written
  to the launched child, the catch path sets an exit code and resumes the caller, and the child may be left
  running in two ways: nothing ever signals it (`ProcessKill.FailedWriteAbandonsChild`), or an overflow had
  already scheduled its kill timer and the exit code makes `finishIfReady` cancel it
  (`ProcessKill.CancelledKillAbandonsChild`, for every limit). `ProcessKill.NeverKilledIffAbandoned` is the exact
  condition, and `ProcessEnd.FailedWriteRunsOn` a fair run of the first kind.
- The comment in the generation loop says that a tag inside a string is not a stop boundary. It is not when the
  string is unfinished; but when the object closes before the real tag has arrived, the envelope error is
  raised and a call that more text would have completed is lost. `Kolibri.EarlyRejectionIsFinal` says exactly
  when, and `KolibriWitness.EarlyRejectionLosesCall` exhibits it.
- Distribution member names are said to be restricted to an ASCII grammar, but `$` also matches before a final
  line terminator: accepted names are the intended ones exactly when they do not end in one
  (`DistributionEncoding.AcceptedMemberNames`), and every intended name passes with one too
  (`DistributionEncoding.TerminatedNameIsAccepted`). The encoding is unambiguous all the same.
- The paths of the bundle manifest have the same final terminator, and the dots of two file names are not
  escaped: `BundledBackend.MatchedIffIntended` says exactly which matching paths are intended,
  `BundledBackend.TerminatedPathMatches` and `BundledBackend.DotsMatchAnything` give the others.
- Shard numbers may be written with decimal digits of any script (`Weights.ForeignDigitsAreAccepted`); the
  checks accept exactly the complete numberings, and a set of names is the one file or the shards 1..n of n
  exactly when it is accepted and ASCII (`Weights.AcceptedIffComplete`).
- The planner takes over the size of the custom architecture file unchecked, so its plan is valid exactly when
  no size is negative (`ModelProfiles.PlanIsValid`); `ModelWitness.NegativeSizeIsPlanned` gives, for every
  specification, a repository whose negative size is planned.
- The ledger validator accepts one family of records without totals that no accumulator reaches
  (`TokenUsage.AcceptedIffReachable`, `TokenUsage.AcceptedIffReachable1`); `TokenUsage.ImpossibleIsAccepted`
  lists its records.

## Assumptions

- Dispatch runs a cancel handler once, after any running event handler of its source; both pipes are silent
  until the child runs or its launch has failed; `SIGKILL` ends a child; scheduling is weakly fair (only
  liveness uses the last two).
- The `repr` of a float is a float literal that denotes the same float (`JsonRoundTrip.ReprRoundTrips`).
- `uuid4().hex` is 32 lowercase hexadecimal digits, and the identifier made from it is not used in the history.
- A directory lists each name once.
- Digests: the profile results name the pairs of contents on which the hash functions must not collide; the
  distribution result is about the bytes before hashing and needs no such assumption.

## Model

Paths are relative to the repository.

| member | source | states |
|---|---|---|
| ProcessSessions.ProcessSession.constructor | macos/Sources/PickerMuxCompanionCore/ProcessExecutor.swift:43-46 | a fresh session: no bytes, no end, no failure, the continuation stored, two readers |
| ProcessSessions.ProcessSession.CountBytes | macos/Sources/PickerMuxCompanionCore/ProcessExecutor.swift:80-85 | counts every byte, keeps output bytes only within the limit, reports the overflow |
| ProcessSessions.ProcessSession.StreamEnded | macos/Sources/PickerMuxCompanionCore/ProcessExecutor.swift:88-94 | one more stream has ended and nothing else changes |
| ProcessSessions.ProcessSession.TerminationHandler | macos/Sources/PickerMuxCompanionCore/ProcessExecutor.swift:56-64 | records the exit code and cancels a stored kill timer |
| ProcessSessions.ProcessSession.BeginStop | macos/Sources/PickerMuxCompanionCore/ProcessExecutor.swift:124-128 | proceeds exactly when the continuation is stored and no failure is set, and then sets it |
| ProcessSessions.ProcessSession.ArmTimeout | macos/Sources/PickerMuxCompanionCore/ProcessExecutor.swift:104-110 | stores the timeout only for an unfinished session |
| ProcessSessions.ProcessSession.CatchFailure | macos/Sources/PickerMuxCompanionCore/ProcessExecutor.swift:111-115 | sets the process failure and the exit code -1, whatever was set before |
| ProcessSessions.ProcessSession.SetKillWork | macos/Sources/PickerMuxCompanionCore/ProcessExecutor.swift:134-143 | stores or clears the kill timer only |
| ProcessSessions.ProcessSession.FinishIfReady | macos/Sources/PickerMuxCompanionCore/ProcessExecutor.swift:154-169 | takes the continuation exactly when it is stored, both streams ended and an exit code or a failure is known; the captured outcome and the cancelled timers |
| ProcessSafety.InvInitial | macos/Sources/PickerMuxCompanionCore/ProcessExecutor.swift:28-46 | the invariant holds when a session is created |
| ProcessSafety.InvStep | macos/Sources/PickerMuxCompanionCore/ProcessExecutor.swift:56-169 | every step of every thread keeps the invariant: one continuation (stored, captured or spent), one effective `stop`, exit code, timers and bytes accounted for, readers that will be cancelled, completion not lost |
| ProcessRuns.ExecutionKeepsInv | macos/Sources/PickerMuxCompanionCore/ProcessExecutor.swift:56-169 | so does every finite interleaving |
| ProcessRuns.ResumedAtMostOnce | macos/Sources/PickerMuxCompanionCore/ProcessExecutor.swift:154-169 | in every interleaving the continuation is resumed at most once, and not while it is still stored |
| ProcessRuns.DeliveredOutcome | macos/Sources/PickerMuxCompanionCore/ProcessExecutor.swift:73-98 | a returned outcome means the limit was never exceeded, stdout is everything the output reader read, in order, the exit code is the child's, and both readers are done; each thrown outcome has its cause |
| ProcessRuns.CompletionNeverLost | macos/Sources/PickerMuxCompanionCore/ProcessExecutor.swift:56-169 | while it is unresumed, `start` is unfinished, or a cancel handler or the termination handler is due, or a `finishIfReady` is pending |
| ProcessKill.ExecutionKeepsKillInv | macos/Sources/PickerMuxCompanionCore/ProcessExecutor.swift:56-169 | every interleaving keeps the accounts of the stored kill timer, of the kill it stands for, and of thrown outcomes |
| ProcessKill.StoppedChildIsKilled | macos/Sources/PickerMuxCompanionCore/ProcessExecutor.swift:124-145 | a running child of a stopped session is abandoned only after the catch; otherwise its kill timer is coming or may fire |
| ProcessKill.AbandonedChildIsNeverKilled | macos/Sources/PickerMuxCompanionCore/ProcessExecutor.swift:111-161 | no continuation kills an abandoned child: the kill timer was cancelled, or never made with no `stop` past its guard |
| ProcessKill.StopKills | macos/Sources/PickerMuxCompanionCore/ProcessExecutor.swift:130-144 | a `stop` past its guard, left to run, arms the kill timer, which kills the child |
| ProcessKill.NeverKilledIffAbandoned | macos/Sources/PickerMuxCompanionCore/ProcessExecutor.swift:111-161 | a running child of a stopped session can never be killed again if and only if it is abandoned |
| ProcessKill.FailedWriteAbandonsChild | macos/Sources/PickerMuxCompanionCore/ProcessExecutor.swift:98-121 | a concrete run: launched, request not written, caller resumed, child running and abandoned |
| ProcessKill.CancelledKillAbandonsChild | macos/Sources/PickerMuxCompanionCore/ProcessExecutor.swift:80-169 | for every limit a run in which an overflow schedules the kill timer, the write fails, and the exit code of the catch cancels the timer |
| ProcessLiveness.ReadyThreadCanStep | macos/Sources/PickerMuxCompanionCore/ProcessExecutor.swift:56-169 | no thread that is owed a step is ever stuck |
| ProcessLiveness.HelperIsReady | macos/Sources/PickerMuxCompanionCore/ProcessExecutor.swift:56-169 | while unresumed, the thread that must move next can move |
| ProcessLiveness.StepAdvances | macos/Sources/PickerMuxCompanionCore/ProcessExecutor.swift:56-169 | no step raises the rank; a step of the helper lowers it, and until then the helper stays the same |
| ProcessLiveness.FairTimetableReachesGoal | macos/Sources/PickerMuxCompanionCore/ProcessExecutor.swift:56-169 | a ranked timetable with a ready helper reaches its goal under weak fairness |
| ProcessLiveness.EveryFairRunResumesOnce | macos/Sources/PickerMuxCompanionCore/ProcessExecutor.swift:48-169 | every fair infinite run resumes the continuation exactly once, with a sound outcome |
| ProcessLiveness.FairRunExists | macos/Sources/PickerMuxCompanionCore/ProcessExecutor.swift:98-121 | fair runs exist: the failed write, continued by silence, is one |
| ProcessEnd.ChaseAdvances | macos/Sources/PickerMuxCompanionCore/ProcessExecutor.swift:56-169 | while a stopped child is neither gone nor abandoned, no step raises the distance to its end, and the helper lowers it |
| ProcessEnd.EveryFairRunEnds | macos/Sources/PickerMuxCompanionCore/ProcessExecutor.swift:48-169 | from some time on every fair run has its child gone, abandoned or never launched |
| ProcessEnd.TimeoutBoundsExecution | macos/Sources/PickerMuxCompanionCore/ProcessExecutor.swift:65-145 | every fair run whose `start` never fails ends with the child gone |
| ProcessEnd.AbandonedForGood | macos/Sources/PickerMuxCompanionCore/ProcessExecutor.swift:111-161 | an abandoned child is never killed later in the run |
| ProcessEnd.FailedWriteRunsOn | macos/Sources/PickerMuxCompanionCore/ProcessExecutor.swift:98-121 | a fair run whose request cannot be written leaves the child running for ever, never signalled |
| JsonLocality.ValueLocal | runtime/mlx/kolibri.py:285-288 | the decoder's value depends only on the consumed text: it is the same before any other remainder (after a number, one that cannot continue it) |
| JsonLocality.MembersLocal | runtime/mlx/kolibri.py:157-163 | the same for the fields of an object |
| JsonNumbers.LongestNumberIsRead | runtime/mlx/kolibri.py:285-288 | the decoder reads the longest number at the start of a text, and numbers are what the expression of RFC 8259, section 6 matches |
| JsonNumbers.TokenMeans | runtime/mlx/kolibri.py:285-288 | a number without fraction and power is an integer of at most 4300 digits, any other a float |
| JsonStrings.UnitsAreRead | runtime/mlx/kolibri.py:285-288 | characters, short escapes, hexadecimal escapes and surrogate pairs before a quote are read as their code points |
| JsonStrings.ReadUnits | runtime/mlx/kolibri.py:285-288 | and a string that is read consists of these |
| JsonGrammar.ValueIsRead | runtime/mlx/kolibri.py:285-288 | every concrete syntax tree of RFC 8259 that has a meaning is read as it |
| JsonGrammar.ReadValue | runtime/mlx/kolibri.py:285-288 | whatever is decoded was the print of such a tree |
| JsonGrammar.LoadsIsGrammar | runtime/mlx/kolibri.py:185-186 | a text is decoded to a value exactly when it denotes it under the grammar, duplicate fields and oversized integers excepted |
| JsonRoundTrip.ValueIsCanonical | runtime/mlx/kolibri.py:285-288 | what the decoder returns has unique keys, printable integers and normal floats |
| JsonRoundTrip.ValueRoundTrip | runtime/mlx/kolibri.py:288-296 | the decoder reads back what the writer wrote, before any remainder that cannot continue it |
| JsonRoundTrip.LoadsOfWrite | runtime/mlx/kolibri.py:185-296 | `json.loads` undoes the compact writer on every decoded value |
| Utf8.EncodeInjective | runtime/mlx/kolibri.py:297 | two texts with the same UTF-8 encoding are equal |
| Utf8.EncodeAppend | runtime/mlx/kolibri.py:361 | the encoded length of a text is the sum over its chunks |
| Utf8.EncodeCharIsUtf8 | runtime/mlx/kolibri.py:297 | lead byte, continuation bytes and shortest form of every character |
| Kolibri.StrayClosingIsFinal | runtime/mlx/kolibri.py:276-284 | a closing tag with no opening tag before it spoils every longer text, under any finish reason |
| Kolibri.OnlyRescuableTextsRecover | runtime/mlx/kolibri.py:272-299 | after an early rejection that is raised, a longer text is accepted only if the rejected one was rescuable |
| Kolibri.RescuableTextsRecover | runtime/mlx/kolibri.py:285-299 | a rescuable text is completed by the rest of its closing tag |
| Kolibri.EarlyRejectionIsFinal | runtime/mlx/kolibri.py:272-299 | an early rejection loses a call exactly when the object is whole and valid and what follows, left-stripped, is a proper prefix of the closing tag |
| KolibriGrammar.WrittenIsParsed | runtime/mlx/kolibri.py:280-295 | a text of the call grammar is parsed as it is written, whatever spaces and prefix it has |
| KolibriGrammar.WrittenCallIsReturned | runtime/mlx/kolibri.py:280-299 | and a good call in it is returned, with the stripped prefix, the written name and the compact arguments |
| KolibriGrammar.ParsedIsWritten | runtime/mlx/kolibri.py:280-299 | conversely an accepted call comes from a text of the grammar |
| KolibriGrammar.CallGrammar | runtime/mlx/kolibri.py:272-299 | a finished text is a call exactly when it is written in the grammar and names an advertised function with bounded arguments |
| KolibriGrammar.AnswerGrammar | runtime/mlx/kolibri.py:273-279 | a text is a plain answer exactly when it holds no control marker, has ended properly and no call is demanded |
| KolibriGrammar.ControlMeans | runtime/mlx/kolibri.py:273-282 | the control markers are six words, anywhere in the text |
| KolibriStream.WindowSlides | runtime/mlx/kolibri.py:367-368 | the tail is always the last twelve characters of the concatenation |
| KolibriStream.Generate | runtime/mlx/kolibri.py:351-383 | the loop with its byte counter, window and parts ends where its specification says, with exactly the consumed chunks |
| KolibriStream.CallBefore | runtime/mlx/kolibri.py:366-371 | a call that the window does not notice had been accepted before the chunk |
| KolibriStream.FastRefinesSimple | runtime/mlx/kolibri.py:356-383 | the windowed loop stops at the same chunk with the same call as parsing the whole text at every chunk, except that it may raise first, and then the simple loop succeeds only on a rescuable text |
| KolibriStream.SimpleStopsOnlyIfRescuable | runtime/mlx/kolibri.py:369-377 | after a raised rejection the simple loop stops later only if that text was rescuable |
| KolibriWitness.EarlyRejectionLosesCall | runtime/mlx/kolibri.py:366-377 | two chunks with a tag inside a string: the simple loop accepts the call, the real one has raised |
| KolibriRuntimes.KolibriRuntime.constructor | runtime/mlx/kolibri.py:315-324 | a runtime starts unlocked with its context window |
| KolibriRuntimes.KolibriRuntime.Complete | runtime/mlx/kolibri.py:326-399 | busy when locked, unlocked on every exit, context bound before generation; the reply is completed exactly when the loop stopped on a call (and the model gave no other reason) or the parts ran out and the whole text parses, with the right prompt count and 0 < generated <= bound; it is a crash exactly when something else than a contract error was raised |
| KolibriRuntimes.AnsweredMeans | runtime/mlx/kolibri.py:384-397 | the answer to the end of the loop, as what can be observed of the parts |
| KolibriRuntimes.CompleteRefinesReference | runtime/mlx/kolibri.py:326-399 | the reply equals that of a loop that parses after every chunk, or is an early failure, which loses a success only on a rescuable text |
| KolibriRuntimes.WholeTextIsRejectedToo | runtime/mlx/kolibri.py:384-392 | after a raised rejection the final parse of the whole text succeeds only if the text was rescuable |
| KolibriServer.ExecutionKeepsInv | runtime/mlx/server.py:37-54 | with any number of threads the lock is held by at most one of them, exactly when it is taken |
| KolibriServer.GenerationsAreAlone | runtime/mlx/kolibri.py:326-399 | generations never overlap one another or an admitted shutdown |
| KolibriServer.ShutdownIsTerminal | runtime/mlx/server.py:43-49 | once a shutdown is admitted the lock is never released and no generation is in progress, whatever else arrives |
| KolibriServer.RefusedIffHeld | runtime/mlx/kolibri.py:329-330 | in every run a request is refused exactly when a generation is in progress or a shutdown was admitted, and otherwise starts |
| KolibriServer.EndFreesLock | runtime/mlx/kolibri.py:398-399 | however a generation ends, the next request starts |
| KolibriServer.RequestsMeet | runtime/mlx/server.py:37-54 | a run in which a generation starts, a second request is refused, and a shutdown is admitted |
| KolibriHistory.WalkCalls | runtime/mlx/kolibri.py:232-237 | the loop over the calls of a message and its two sets |
| KolibriHistory.WalkHistory | runtime/mlx/kolibri.py:219-246 | the history loop passes exactly the well-formed histories whose calls and results pair off |
| KolibriHistory.CallPasses | runtime/mlx/kolibri.py:176-189 | the checks of a historical call pass exactly on calls with these fields, a good identifier, an advertised name and the bounded text of an object |
| KolibriHistory.MessageReplays | runtime/mlx/kolibri.py:221-244 | a message is accepted exactly when it is well formed by itself and its calls and result fit the ledger |
| KolibriHistory.ReplayAccounts | runtime/mlx/kolibri.py:219-242 | the seen identifiers are the disjoint union of pending and answered ones, and replay succeeds exactly when every event may happen |
| KolibriHistory.SettledIsLegal | runtime/mlx/kolibri.py:233-246 | distinct calls with a forward, identifier-preserving bijection to results are never rejected and leave nothing pending |
| KolibriHistory.LegalPairs | runtime/mlx/kolibri.py:233-246 | conversely an accepted, fully answered history has such a bijection |
| KolibriHistory.HistoryAccepted | runtime/mlx/kolibri.py:219-246 | accepted if and only if well formed, call identifiers pairwise distinct, and calls and results in bijection |
| KolibriRequest.CollectNames | runtime/mlx/kolibri.py:204-213 | the inventory loop succeeds exactly on well-formed tools with distinct names and returns their names |
| KolibriRequest.Validate | runtime/mlx/kolibri.py:192-269 | the whole validation with its order of errors; a valid request has a settled history |
| KolibriRequest.ParsedCallIsReturned | runtime/mlx/kolibri.py:285-299 | a parsed call has a good identifier, an advertised name and arguments that decode again to an object within the bound |
| KolibriRequest.CallIsAccepted | runtime/mlx/kolibri.py:176-189 | such a call passes the validation of historical calls |
| KolibriRequest.HistoryGrows | runtime/mlx/kolibri.py:219-246 | a finished history stays finished when a fresh call and its result are appended |
| KolibriRequest.ClosedLoop | runtime/mlx/kolibri.py:170-299 | a call returned for a valid request, appended with one result, makes a request that is valid again, with the same tools and choice |
| KolibriFields.ValidByFields | runtime/mlx/kolibri.py:192-269 | a request is valid exactly when every field that is present is right by itself, model and messages are there, the rules on two fields hold and the history is settled; choice and names are what the fields say, with the documented meaning of absent ones |
| KolibriFields.ChoiceFromField | runtime/mlx/kolibri.py:214-216 | the choice is read off the field; absent it means auto with tools and none without |
| KolibriShapes.ToolMeans | runtime/mlx/kolibri.py:204-213 | a tool is accepted exactly when it is a function with a good name, a schema and optional description and strictness, and nothing else |
| KolibriShapes.MessageMeans | runtime/mlx/kolibri.py:219-243 | a message is well formed by itself exactly when it carries what its role may carry, and nothing else |
| KolibriShapes.CallCrashes | runtime/mlx/kolibri.py:176-189 | the malformed calls that raise something else than a contract error: an unhashable name, or an advertised one with arguments that cannot be encoded |
| KolibriShapes.ResultCrashes | runtime/mlx/kolibri.py:239-242 | and the results: an unhashable identifier |
| KolibriShapes.FirstRefusalDecides | runtime/mlx/kolibri.py:219-246 | the first message that is refused decides which error it is |
| KolibriExchange.WholeCallStops | runtime/mlx/kolibri.py:366-380 | a call that arrives whole stops the stream |
| KolibriExchange.OfferedCallIsCompleted | runtime/mlx/kolibri.py:192-397 | a valid request with tools and no choice leaves it to the model; a good call that it writes first is returned, whether generation has ended or not |
| KolibriExchange.ExchangeSucceeds | runtime/mlx/kolibri.py:192-397 | one exchange spelled out: a request is valid, a generation stopped before its end completes it with the call |
| KolibriExchange.ExchangeContinues | runtime/mlx/kolibri.py:170-299 | and the next request with the call and its result is valid |
| Distribution.CollectMembers | macos/Sources/PickerMuxCompanionCore/Launcher.swift:92-104 | the loop over `bin` or `src` succeeds exactly on safe members and collects them in order |
| Distribution.CollectRuntime | macos/Sources/PickerMuxCompanionCore/Launcher.swift:105-120 | the runtime is taken exactly when it is `mlx` with its four files; a missing `mlx` is the other error |
| Distribution.CollectRoot | macos/Sources/PickerMuxCompanionCore/Launcher.swift:90-124 | the inventory loop over the root |
| Distribution.FeedAll | macos/Sources/PickerMuxCompanionCore/Launcher.swift:125-137 | the hashing loop feeds exactly the framed stream and stops exactly beyond the total bound |
| Distribution.HashedStream | macos/Sources/PickerMuxCompanionCore/Launcher.swift:82-138 | a tree is accepted exactly when required and allowed names, safe entries and the total agree; then the hashed bytes are the framed, sorted inventory |
| DistributionEncoding.HeaderUnique | macos/Sources/PickerMuxCompanionCore/Launcher.swift:132-134 | a decimal length and its colon are read back in one way |
| DistributionEncoding.FrameUnique | macos/Sources/PickerMuxCompanionCore/Launcher.swift:132-135 | a frame is decoded in one way, whatever follows |
| DistributionEncoding.StreamInjective | macos/Sources/PickerMuxCompanionCore/Launcher.swift:129-136 | the stream is uniquely decodable |
| DistributionEncoding.SortedSorts | macos/Sources/PickerMuxCompanionCore/Launcher.swift:129 | sorting by folded path keeps the items and orders them strictly |
| DistributionEncoding.SortedUnique | macos/Sources/PickerMuxCompanionCore/Launcher.swift:126-129 | a strictly sorted list is determined by its members, so enumeration order is lost |
| DistributionEncoding.InventoryPaths | macos/Sources/PickerMuxCompanionCore/Launcher.swift:90-124 | the paths of an accepted tree are pairwise distinct |
| DistributionEncoding.FoldingIsInjective | macos/Sources/PickerMuxCompanionCore/Launcher.swift:126-129 | case folding merges no two accepted paths |
| DistributionEncoding.AcceptedMemberNames | macos/Sources/PickerMuxCompanionCore/Launcher.swift:100-102 | an accepted member of `src` or `bin` is an intended one exactly when it does not end in a line terminator |
| DistributionEncoding.TerminatedNameIsAccepted | macos/Sources/PickerMuxCompanionCore/Launcher.swift:101 | every intended member followed by any line terminator is accepted and not intended |
| DistributionEncoding.SameStreamIffSameFiles | macos/Sources/PickerMuxCompanionCore/Launcher.swift:82-138 | two accepted trees are hashed as the same bytes if and only if they are the same map from paths to contents |
| DistributionOrder.HashedInOrder | macos/Sources/PickerMuxCompanionCore/Launcher.swift:126-129 | of two hashed files the earlier one has a path that ends first or has the smaller folded character at the first difference |
| DistributionOrder.HashedFiles | macos/Sources/PickerMuxCompanionCore/Launcher.swift:90-124 | what is hashed are exactly the files of the tree, each under its path |
| DistributionOrder.StreamIsRendered | macos/Sources/PickerMuxCompanionCore/Launcher.swift:129-136 | file by file: byte length, colon, path, byte length, colon, contents |
| DistributionOrder.AcceptedMeans | macos/Sources/PickerMuxCompanionCore/Launcher.swift:82-138 | a tree is accepted exactly when it holds the five required entries, only private closed entries of the release, at most 512 members of the grammar in a directory, files of at most 4 MiB and 32 MiB in all |
| DistributionOrder.SmallestIsSorted | macos/Sources/PickerMuxCompanionCore/Launcher.swift:126-129 | the order of one tree: bin before LICENSE before lmstudio-picker, package and src |
| DistributionOrder.SmallestIsAccepted | macos/Sources/PickerMuxCompanionCore/Launcher.swift:82-138 | that tree is accepted |
| OperationLane.CompanionOperationQueue.constructor | macos/Sources/PickerMuxCompanionCore/OperationQueue.swift:22 | an idle lane |
| OperationLane.CompanionOperationQueue.Acquire | macos/Sources/PickerMuxCompanionCore/OperationQueue.swift:26-30 | a fresh lease, granted at once on an idle lane and queued last otherwise |
| OperationLane.CompanionOperationQueue.Release | macos/Sources/PickerMuxCompanionCore/OperationQueue.swift:32-42 | the holder hands over to the first waiter; any other release changes nothing |
| OperationLane.EveryRunIsFair | macos/Sources/PickerMuxCompanionCore/OperationQueue.swift:26-43 | in every run of calls, stale and repeated releases included, leases are granted in acquire order, each once, one at a time, and nobody waits for an idle lane |
| OperationLane.WaitersAreServed | macos/Sources/PickerMuxCompanionCore/OperationQueue.swift:33-41 | a waiter holds the lane after exactly the releases of those before it |
| LoginStartup.UnregisterLoginStartup | macos/Sources/PickerMuxCompanionCore/LoginStartup.swift:59-88 | the bounded wait succeeds exactly on a proof of absence, with at most one read more than its bound |
| LoginStartup.AbsentIsProven | macos/Sources/PickerMuxCompanionCore/LoginStartup.swift:56-88 | success means: not registered to begin with, or a completed (or already absent) unregistration and a later uncancelled read that found nothing |
| LoginStartup.FailureMeans | macos/Sources/PickerMuxCompanionCore/LoginStartup.swift:46-88 | what each failure says: which error was raised, that the wait ran out and with which last status, or that nothing could be verified |
| Removal.CompanionRemovalCoordinator.constructor | macos/Sources/PickerMuxCompanionCore/Uninstall.swift:63-68 | idle, generation zero |
| Removal.CompanionRemovalCoordinator.BeginReview | macos/Sources/PickerMuxCompanionCore/Uninstall.swift:70-80 | begins exactly when activity is permitted and invalidates every earlier generation |
| Removal.RemovableSnapshots | macos/Sources/PickerMuxCompanionCore/Uninstall.swift:82-102 | removal is available exactly for a verified native installation with Codex closed, no pending repair and both steps offered |
| Removal.CompanionRemovalCoordinator.Remove | macos/Sources/PickerMuxCompanionCore/Uninstall.swift:104-133 | outside a review nothing; otherwise status, preview and purge in this order, the purge with the preview's token exactly when everything authorised it; the backend counts as removed exactly on a verified completion, and every other final state has its exact cause |
| Removal.CompanionRemovalCoordinator.RetryCleanup | macos/Sources/PickerMuxCompanionCore/Uninstall.swift:135-138 | acts only while clean-up is required and never leaves the removed states |
| Removal.CompanionRemovalCoordinator.FinishCleanup | macos/Sources/PickerMuxCompanionCore/Uninstall.swift:140-146 | ends removed or with clean-up required |
| ControllerSafety.StepKeepsLane | macos/Sources/PickerMuxCompanion/PickerMuxCompanionApp.swift:157-169 | every step of every operation keeps the lane consistent with the stages of the operations |
| ControllerSafety.StepKeepsPhase | macos/Sources/PickerMuxCompanion/PickerMuxCompanionApp.swift:328-438 | every step keeps one busy operation, whose stage fits the state of the removal |
| ControllerSafety.StepKeepsLog | macos/Sources/PickerMuxCompanion/PickerMuxCompanionApp.swift:157-438 | every step adds only events that may happen then |
| ControllerSafety.StepKeepsInv | macos/Sources/PickerMuxCompanion/PickerMuxCompanionApp.swift:157-438 | all of it together |
| ControllerSafety.SafeAt | macos/Sources/PickerMuxCompanion/PickerMuxCompanionApp.swift:157-438 | every logged event could happen after those before it |
| ControllerRuns.ExecutionKeepsInv | macos/Sources/PickerMuxCompanion/PickerMuxCompanionApp.swift:157-438 | the invariant holds after every run of polls, checks, actions, removals and retries |
| ControllerRuns.NoLateWork | macos/Sources/PickerMuxCompanion/PickerMuxCompanionApp.swift:157-209 | no observation captured before a review is published after it; once the backend is gone the client is never called and nothing is published |
| ControllerRuns.UninstallationIsAuthorised | macos/Sources/PickerMuxCompanionCore/Uninstall.swift:108-133 | each review purges at most once, after its preview returned that token, its confirmation and proven login absence, in this order; the removed states are entered only after a purge |
| ControllerRuns.RemovalBeginsAlone | macos/Sources/PickerMuxCompanion/PickerMuxCompanionApp.swift:392-400 | when a removal begins no action, removal or clean-up is in flight |
| ControllerRuns.RemovalRunsAlone | macos/Sources/PickerMuxCompanion/PickerMuxCompanionApp.swift:328-427 | at most one such operation is ever in flight, and during a review or a removal it is the removal |
| ControllerRuns.OneHolder | macos/Sources/PickerMuxCompanion/PickerMuxCompanionApp.swift:157-438 | no two operations are past the lane at the same time |
| ControllerRuns.GoneStepIsSilent | macos/Sources/PickerMuxCompanion/PickerMuxCompanionApp.swift:157-173 | once the backend is gone a step leaves no trace |
| ControllerRuns.RemovalIsFinal | macos/Sources/PickerMuxCompanion/PickerMuxCompanionApp.swift:392-438 | the removed states are absorbing: no run leads out of them or calls, publishes or purges anything |
| ControllerRuns.PurgeNeedsProof | macos/Sources/PickerMuxCompanionCore/Uninstall.swift:118-127 | the step that purges has just read a proof that login startup is off, within the confirmed removal |
| ControllerRuns.GoneNeedsCompletion | macos/Sources/PickerMuxCompanionCore/Uninstall.swift:128-133 | a step makes the backend count as gone if and only if it is a verified completion, answered to the removal in flight for the review whose purge was sent |
| ControllerRuns.GoneIffCompleted | macos/Sources/PickerMuxCompanionCore/Uninstall.swift:104-146 | a run leads to the removed states exactly when one of its steps is such a completion |
| ControllerViews.CheckPublishes | macos/Sources/PickerMuxCompanion/PickerMuxCompanionApp.swift:172-199 | an answer that is still current replaces the snapshot, a failed check clears it, a stale one does nothing |
| ControllerViews.ScreenShowsLatest | macos/Sources/PickerMuxCompanion/PickerMuxCompanionApp.swift:157-209 | in every run the snapshot is the answer of the latest publication, until the removal that removed the backend ends |
| ControllerViews.ChecksBegin | macos/Sources/PickerMuxCompanion/PickerMuxCompanionApp.swift:157-169 | a poll is dropped unless it has the lane at once; a manual check is never dropped while activity is permitted |
| ControllerViews.RemovalSucceeds | macos/Sources/PickerMuxCompanion/PickerMuxCompanionApp.swift:157-427 | whenever a poll shows a removable installation and login startup ends up absent, a run of check, review, preview, consent and purge ends in the state removed |
| Weights.AcceptedIffNumbered | runtime/mlx/model_store.py:151-161 | the name checks accept the one file, or shards whose numbers are exactly 1..n, each once, all of n |
| Weights.AcceptedIffComplete | runtime/mlx/model_store.py:151-161 | a set of names is the one file or exactly the shards 1..n of n if and only if the checks accept it and it is ASCII |
| Weights.ForeignDigitsAreAccepted | runtime/mlx/model_store.py:19 | a shard numbered with a digit of another script is accepted though it is no plain shard |
| Weights.PadOfValue | runtime/mlx/model_store.py:158-160 | five ASCII digits are determined by their value |
| ModelStore.CheckInventory | runtime/mlx/model_store.py:194-217 | the loops accept exactly the directories that hold nothing but the named files, all private |
| ModelStore.CheckFiles | runtime/mlx/model_store.py:287-298 | the loop over the entries accepts exactly valid, distinct, complete and bounded lists |
| ModelStore.CollectEntries | runtime/mlx/model_store.py:232-249 | the loop over the repository listing keeps exactly the supported files |
| ModelStore.HashFiles | runtime/mlx/model_store.py:322-326 | succeeds exactly when every file is the expected one, and records its SHA-256 |
| ModelStore.Prepare | runtime/mlx/model_store.py:302-329 | preparing with its loops is its specification |
| ModelStore.Verify | runtime/mlx/model_store.py:342-375 | verification with its loops is its specification |
| ModelProfiles.PlanIsValid | runtime/mlx/model_store.py:220-299 | a plan passes its own validation exactly when no size is negative, always so without the custom architecture |
| ModelContext.AllowedIffFits | runtime/mlx/model_store.py:140-148 | the context window fits exactly when one of the five fields declares a bound and it is at most every declared one |
| ModelContext.SupportedIffFits | runtime/mlx/model_store.py:108-137 | the architecture is supported exactly when no field asks for remote code, every named tokenizer file lies in the inventory, parsers have plain names and the model type is the pinned or a built-in one |
| ModelContext.VerifiedIffFits | runtime/mlx/model_store.py:342-375 | a profile with sound files is verified exactly when the configuration on the disk says all that |
| ModelContext.PlannedIffFits | runtime/mlx/model_store.py:220-276 | a plan is made exactly when repository and files are sound and the fetched configuration says all that, with these terms |
| ModelContext.SmallestBoundDecides | runtime/mlx/model_store.py:140-148 | with two bounds the smaller one decides |
| ModelMeaning.RepositoryMeans | runtime/mlx/model_store.py:94 | a repository is an owner, a slash and a model |
| ModelMeaning.SpecMeans | runtime/mlx/model_store.py:90-105 | the bounds of a specification |
| ModelMeaning.TermsMean | runtime/mlx/model_store.py:279-286 | the terms of a plan and when its architecture is the pinned one |
| ModelMeaning.EntryMeans | runtime/mlx/model_store.py:287-296 | the names, sizes and digests that a file list may hold |
| ModelMeaning.FilesMean | runtime/mlx/model_store.py:287-298 | a file list holds 1 to 256 such entries |
| ModelMeaning.ReadMeans | runtime/mlx/model_store.py:54-65 | a metadata file is private, of at most 32 MiB, and decoded |
| ModelMeaning.SetMeans | runtime/mlx/model_store.py:261-264 | what a whole file list must be: distinct, configured, with weights, within 128 GiB, complete when pinned |
| ModelMeaning.InventoryMeans | runtime/mlx/model_store.py:194-217 | a safe inventory: private, with named files only, all of them unless missing ones are allowed |
| ModelMeaning.ExpectedMeans | runtime/mlx/model_store.py:171-191 | an expected file has the size and the digest of its kind |
| ModelMeaning.WeightsMean | runtime/mlx/model_store.py:151-168 | the weights are complete, and an index names exactly them |
| ModelMeaning.ListedMeans | runtime/mlx/model_store.py:232-249 | what a listed file becomes, with the digest of a large file or the identifier of a small one |
| ModelMeaning.PlannedMeans | runtime/mlx/model_store.py:220-264 | a plan lists exactly the files that belong to the model, with pinned digests when it is the pinned one, in ascending order of names |
| ModelMeaning.IdentityIsSorted | runtime/mlx/model_store.py:29-34 | the hashed identity has its eleven fields in ascending order |
| ModelWitness.NegativeSizeIsPlanned | runtime/mlx/model_store.py:220-299 | for every valid specification and size a repository with that architecture size is planned, and its plan is rejected exactly when the size is negative |
| ModelProfiles.FilesStayValid | runtime/mlx/model_store.py:322-361 | the file list of a prepared profile passes the checks of a verified one |
| ModelProfiles.PreparedIsSound | runtime/mlx/model_store.py:317-329 | a prepared profile meets every check that does not read the configuration |
| ModelProfiles.PreparedIsVerified | runtime/mlx/model_store.py:220-375 | plan, prepare, verify: the prepared profile is accepted, whatever happened to the disk in between, unless a configuration file collides |
| ModelProfiles.MovedIsVerified | runtime/mlx/model_store.py:33-38 | changing only the directory keeps the digest and the acceptance |
| ModelProfiles.IdentityIsCanonical | runtime/mlx/model_store.py:29-34 | the hashed identity is a value that writer and decoder agree on |
| ModelProfiles.CanonicalBytesInjective | runtime/mlx/model_store.py:29-38 | equal canonical bytes come from equal identities |
| ModelProfiles.DigestBindsIdentity | runtime/mlx/model_store.py:342-345 | a profile with a changed identity under its old digest is rejected, unless SHA-256 collides |
| Paths.WalkUp | macos/Sources/PickerMuxCompanionCore/NodeRuntime.swift:75-95 | the walk to the root ends and holds exactly when every directory above satisfies the rule |
| Paths.UpOfPath | macos/Sources/PickerMuxCompanionCore/NodeRuntime.swift:76-93 | the directories above a path are the paths of its component prefixes, the root last |
| NodeRuntime.TrustedParents | macos/Sources/PickerMuxCompanionCore/NodeRuntime.swift:75-95 | ends on every absolute path and holds exactly when every ancestor including the root is trusted |
| NodeRuntime.TrustedAboveComponents | macos/Sources/PickerMuxCompanionCore/NodeRuntime.swift:75-95 | the same in terms of the path's components |
| NodeRuntime.ValidatedNode | macos/Sources/PickerMuxCompanionCore/NodeRuntime.swift:50-69 | returns the first fully valid candidate if there is one, and reports a missing runtime exactly when no candidate is present |
| NodeRuntime.TrustedDirectoryMeans | macos/Sources/PickerMuxCompanionCore/NodeRuntime.swift:78-90 | trust of a directory permission by permission, with the shared mode of four directories |
| NodeRuntime.TrustedProgramMeans | macos/Sources/PickerMuxCompanionCore/NodeRuntime.swift:60-63 | trust of the executable permission by permission |
| NodeRuntime.ValidCandidateMeans | macos/Sources/PickerMuxCompanionCore/NodeRuntime.swift:50-65 | a valid candidate: an owned file or link with one name that leads to a trusted program below a root, with trusted directories above both |
| NodeRuntime.PlainNodeIsValid | macos/Sources/PickerMuxCompanionCore/NodeRuntime.swift:50-69 | a system whose runtime is found, whoever the user is |
| BundledBackend.CheckRecord | macos/Sources/PickerMuxCompanionCore/BundledBackend.swift:39-51 | a record passes exactly when it is well formed, its directories are trusted and the file has the recorded bytes |
| BundledBackend.CheckRecords | macos/Sources/PickerMuxCompanionCore/BundledBackend.swift:35-57 | the record loop with its set and total, the required paths, and the runtime all or nothing |
| BundledBackend.CheckEnumeration | macos/Sources/PickerMuxCompanionCore/BundledBackend.swift:58-86 | the enumeration passes exactly when there is nothing but listed files, the manifest and allowed directories |
| BundledBackend.Validate | macos/Sources/PickerMuxCompanionCore/BundledBackend.swift:22-88 | accepted exactly when the whole specification holds and the enumeration did not fail; missing exactly when nothing is configured |
| BundledBackend.AcceptedFilesAreListed | macos/Sources/PickerMuxCompanionCore/BundledBackend.swift:58-86 | the regular files on disk are exactly the listed paths and the manifest, and nothing is special |
| BundledBackend.AcceptedContents | macos/Sources/PickerMuxCompanionCore/BundledBackend.swift:46-51 | every listed file has its recorded size and digest, and the sum is bounded |
| BundledBackend.AcceptedParents | macos/Sources/PickerMuxCompanionCore/BundledBackend.swift:91-102 | every directory of a listed file from the backend root down is trusted |
| BundledBackend.RuntimeIsAllOrNothing | macos/Sources/PickerMuxCompanionCore/BundledBackend.swift:55-57 | on disk as in the manifest the model runtime is complete or absent |
| BundledBackend.MatchedIffIntended | macos/Sources/PickerMuxCompanionCore/BundledBackend.swift:40 | a matching path is an intended one exactly when it does not end in a line terminator and the unescaped positions of the configuration names hold dots |
| BundledBackend.TerminatedPathMatches | macos/Sources/PickerMuxCompanionCore/BundledBackend.swift:40 | every intended path outside the model runtime matches with any final line terminator too |
| BundledBackend.DotsMatchAnything | macos/Sources/PickerMuxCompanionCore/BundledBackend.swift:40 | the three unescaped dots match any character of a line, and the name is intended exactly when they are dots |
| BundleMeaning.RecordMeans | macos/Sources/PickerMuxCompanionCore/BundledBackend.swift:38-52 | a record is fulfilled exactly when no field is missing or malformed and its file is there, below trusted directories, with exactly the recorded bytes |
| BundleMeaning.NodeMeans | macos/Sources/PickerMuxCompanionCore/BundledBackend.swift:58-84 | what may lie below the root: listed files, the manifest, and directories of which runtime and mlx hold exactly what they must |
| BundleMeaning.BundleMeans | macos/Sources/PickerMuxCompanionCore/BundledBackend.swift:22-88 | a bundle is accepted exactly when its manifest is the pinned one, every record is fulfilled, and nothing else lies below its root |
| BundleWitness.SmallestIsAccepted | macos/Sources/PickerMuxCompanionCore/BundledBackend.swift:22-88 | a smallest bundle is accepted |
| TokenUsage.TotalsAreTheSum | src/token-usage.mjs:165-171 | totals are the exact sum of the known observations since the last reset, or absent when it is not representable |
| TokenUsage.ReachableIsAccepted | macos/Sources/PickerMuxCompanionCore/TokenUsage.swift:76-103 | whatever is recorded and reset, the published record passes the companion's checks |
| TokenUsage.AcceptedIsReachable1 | macos/Sources/PickerMuxCompanionCore/TokenUsage.swift:84-102 | every accepted record of schema 1 with totals is produced by some run without a reset |
| TokenUsage.AcceptedIsReachable2 | macos/Sources/PickerMuxCompanionCore/TokenUsage.swift:84-102 | every accepted record of schema 2 with totals is produced by some run |
| TokenUsage.AcceptedIffReachable | macos/Sources/PickerMuxCompanionCore/TokenUsage.swift:84-102 | accepted exactly when reachable, but for records without totals whose latest of two known requests is empty |
| TokenUsage.AcceptedIffReachable1 | macos/Sources/PickerMuxCompanionCore/TokenUsage.swift:84-102 | the same for schema 1 and runs without a reset |
| TokenUsage.ImpossibleIsAccepted | macos/Sources/PickerMuxCompanionCore/TokenUsage.swift:84-102 | the accepted unreachable records are exactly those with two known requests, an empty latest one and no totals; both schemas accept them |
| TokenUsage.DisplayIsMeasured | macos/Sources/PickerMuxCompanionCore/TokenUsage.swift:60 | displayed totals are the measured sum; they are absent exactly on overflow or when every request is unknown |
| TokenUsage.DecodeSnapshot | macos/Sources/PickerMuxCompanionCore/TokenUsage.swift:117-135 | the snapshot loop accepts exactly at most 128 valid records with distinct providers |
| Grammars.ToolNamePattern | runtime/mlx/kolibri.py:170-173 | tool names are what the regular expression matches |
| Grammars.AliasPattern | runtime/mlx/model_store.py:99 | aliases are what theirs matches |
| Grammars.RevisionPattern | runtime/mlx/model_store.py:97 | revisions are what theirs matches, without two dots in a row |
| Grammars.RepositoryPartPattern | runtime/mlx/model_store.py:18 | so are the parts of a repository name, which are never dot names |
| Grammars.TypePattern | runtime/mlx/model_store.py:121 | model types and parser names |
| Grammars.HexPattern | runtime/mlx/model_store.py:242 | digests |
| Grammars.UuidPattern | runtime/mlx/kolibri.py:299 | the hexadecimal part of an identifier |
| Grammars.WeightPattern | runtime/mlx/model_store.py:19 | weight files, with the digits of every script |
| Grammars.ProviderPattern | macos/Sources/PickerMuxCompanionCore/TokenUsage.swift:84-85 | provider identifiers |
| Grammars.MemberPattern | macos/Sources/PickerMuxCompanionCore/Launcher.swift:100-102 | distribution members, with the final terminator that the expression lets through |
| Grammars.PathPattern | macos/Sources/PickerMuxCompanionCore/BundledBackend.swift:40 | bundle paths, with that terminator and the dots that are not escaped |
| Grammars.DigestPattern | macos/Sources/PickerMuxCompanionCore/BundledBackend.swift:44 | digests of the bundle manifest |

## Left out

- HTTP handling, sockets, streaming of replies, the tokenizer, the sampler and the model: what the model yields is a list of parts.
- The rewriting of messages for a required call: it changes the prompt, whose length is a parameter.
- Generation metrics: floating-point arithmetic without influence on any decision.
- Comparing floats: the bounds on temperature and top_p are a parameter of the request validator, and defaults of these fields stand for any value in bounds.
- The recursion limit of the JSON decoder and its byte offsets.
- `lstat` and `open` races, quarantine attributes, the network and subprocess system calls: a file is what one consistent read shows.
- SHA-256, SHA-1 and `repr` of floats: parameters.
- Plans and profiles as untyped dictionaries: they are records here, so the checks that a dictionary has exactly these fields of these types are not modelled. Exceptions and contract errors of the model store are one failure.
- The installed classes of the MLX library: a parameter of the architecture check.
- The receipt, the launcher script and the version pointer that surround the distribution digest.
- SwiftUI views, messages, notifications, the polling timer, the upgrade prompt and the guards that depend on a single action: they only make fewer operations begin.
- Update in place inside the controller: it is a machine on values, while its lane and its coordinator are classes with the same transition functions.
- Distribution.HashedStream: does not say which error is thrown when several entries are bad, because the enumeration order of a set decides it.
- The exact text of errors; where a loop can fail in two ways the error of the first failure is kept only where the source distinguishes the two.
- The Node bridge apart from its token accumulator, and the store that makes the accumulator durable.
