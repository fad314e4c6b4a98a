# Verified model of the axi-go kernel

This project models the decision-making parts of the axi-go execution kernel in Dafny and proves what they
promise. It covers six components.

* **TOON printer** (`Toon*.dfy`, `Numerals.dfy`). The encoder is written as the string-builder methods it is, and
  each method is proved to print what a line-by-line specification says. A reader for the format, which the
  repository does not have, is defined beside it. Reading inverts printing, and two values print the same text in
  exactly the cases the relation `Alike` describes.
* **Capability invoker** (`Invoker*.dfy`). One slot counter is shared by all invocations of a run, capabilities may
  call back into the same invoker, and idempotent actions retry. The specification is a set of mutually recursive
  functions whose decreases clauses are the termination proof (slots left, then phase, then retries left or what
  remains of the body). A class with a counter, a publisher and the loop refines it.
* **Pipeline saga** (`Pipeline.dfy`, `SagaRetries.dfy`). Steps forward, hooks backward. The rollback theorem holds
  for any state and any view of it; the second file instantiates it with the invoker's own state, so that it
  composes with retries.
* **Session, service and use case** (`Evidence.dfy`, `Session*.dfy`, `SnapshotModel.dfy`, `Service*.dfy`,
  `DecisionRace.dfy`, `BackgroundRun.dfy`). The aggregate is a class whose every locked method is one atomic step of
  a value-level machine; the service is a class proved to perform a given script of those steps; the race of the
  background goroutine with approvers and rejecters is a transition system over all interleavings, and without
  company that goroutine is proved to perform the service's script. The hash chain and the reload path are proved on
  the same values. `SessionLedger.dfy` and `ServiceRecord.dfy` tell from the operations alone what a session holds
  and what a subscriber hears.
* **Composition service** (`CompositionModel.dfy`, `Calls.dfy`, `CallOrder.dfy`, `Composition.dfy`, `Bundle.dfy`).
  Registration with conflict checks, saves that may fail and rollback; ownership over all histories. Every write to
  a repository or a registry is a value in a shared record, the methods promise exactly which ones they make and in
  which order, and what an Execute beside them can see is proved for every prefix.
* **UUIDv7 session IDs** (`Uuid.dfy`), after section 5.7 of RFC 9562.

The platform enters through parameters with stated laws: `GoLib` (which texts ParseFloat accepts, which runes are
printable, which texts numbers print as), `Hasher` (JSON encoding and SHA-256, injective and never empty), `World`,
`Env`, `Choice` and `Faults` (clock, context, rate limiter, validator, executors, repositories).

## Where code and documentation disagree

* `README.md:40` and `docs/CONCEPTS.md:118-125` say `VerifyEvidenceChain` detects any mutation of persisted evidence
  and points at the first offending record. Neither holds. Dropping records at the end is never noticed
  (`Evidence.TruncationUnseen`). Content is changed unnoticed by whoever can rewrite that record and every later one
  up to the next record without a hash, those they drop excepted; dropping all that follow, rewriting that record
  alone is enough (`Evidence.CutAndRewritten`). `Evidence.ForgeryNeedsTheRest` is the exact condition, over every
  verified chain, edited set, new content and length of the result. An edit with consistent hashes is reported
  at the first record left alone, not where it was made (`Evidence.ReportedAfterTheEdit`,
  `Evidence.RehashReportedNext`). An edit under the stored hashes is reported where it was made
  (`Evidence.TamperReported`).
* `domain/composition.go:66` says `RegisterBundle` registers atomically. Its rollback removes the bundle's executors
  even if they were there before, so registering a live bundle twice leaves its visible actions without executors
  (`Bundle.LiveBundleTwice`). `Calls.EveryMomentResolves` states exactly when visible actions keep resolving.
* `domain/composition.go:221-224` says a failing deregistration still leaves a clean registry. So it does when Close
  fails, but not when the plugin repository refuses the delete (`CompositionModel.StrippedOwnership`).
* `toon/toon.go:216-219` says quoting keeps output unambiguous. Brackets are not quoted, so some texts have several
  readings. `ToonCollisions.SameTextIffAlike` says exactly which values share a text,
  `ToonCollisions.HarmlessInjective` names keys for which none do, and `ToonAmbiguity.EmptyBlockAmbiguity` and
  `ToonAmbiguity.TableCollides` show that the two kinds of key it excludes do collide.
* `toon/toon.go:8-10` shows a table whose fields stand in the order they were written in. The code sorts them, as
  `README.md:253-261` has it (`ToonLayout.TableExample`).
* `domain/session.go:167` describes `MarkRunning` as Resolved to Running; the transition table also lets it step out
  of AwaitingApproval (`SessionModel.GateNotInAggregate`), and that is the only way past the gate
  (`SessionModel.ApprovalRecorded`). The gate is kept by the order of the service's calls, and is proved there
  (`DecisionRace.GateHolds`).
* `domain/session.go:366-368` and `domain/execution.go:118-119` say events are drained after every operation that raises
  them. `RejectSession` and the goroutine's `Abort` do not drain. `DecisionRace.PublishedIffDrainAhead` says exactly when
  a finished session's events can still be published; `BackgroundRun.LostRejection` and `BackgroundRun.LostAbort` are
  runs whose completion is lost.
* `domain/snapshot.go:13-26` maps a millisecond and back; the first millisecond of year 1 is the one place where a
  second trip differs (`SnapshotModel.MillisStable`).

## Model

| member | source | states |
|---|---|---|
| ToonCollisions.SameTextIffAlike | toon/toon.go:31-55 | two proper values print the same text iff they are alike: equal scalars, or headers that read the same above entries alike one by one, a map and a list included |
| ToonCollisions.SameLines | toon/toon.go:67-125 | the same for two entries at any depth, by induction over values of any nesting |
| ToonCollisions.SameFlat | toon/toon.go:90-125 | two tables or bare scalar lists print the same lines iff their cells agree and their headers coincide |
| ToonCollisions.FlatIsNotKeyed | toon/toon.go:90-125 | the lines of a table or scalar list are never those of a map or numbered list |
| ToonCollisions.RowIsNoEntry | toon/toon.go:92-108 | no table row reads like the first line of an entry |
| ToonCollisions.ScalarLineInjective | toon/toon.go:67-88 | a `key: scalar` line determines key and scalar |
| ToonCollisions.SplitUnique | toon/toon.go:57-88 | indentation splits lines into entries in one way only |
| ToonCollisions.HarmlessInjective | toon/toon.go:216-258 | values in which no key over a map ends in a bracketed count and no bare key over a table holds the start of a field list never share a text |
| ToonCollisions.AlikeIsEqual | toon/toon.go:216-258 | for such keys alike entries are equal |
| ToonCollisions.TableKeysAgree | toon/toon.go:92-97 | one table header has one reading for such keys |
| ToonCollisions.LegibleHarmless | toon/toon.go:230-258 | keys without bare brackets are among them |
| ToonRoundTrip.DecodeInvertsEncode | toon/toon.go:31-258 | a supported value is accepted, and reading its encoding gives back that value, when container keys hold no bare bracket, numbers as printed text |
| ToonRoundTrip.EncodeInjective | toon/toon.go:216-219 | no two such values share an encoding |
| ToonRoundTrip.SliceShape | toon/toon.go:90-125 | an `[n]` header is followed by exactly n direct entries one level deeper, and all below it is deeper |
| ToonRoundTrip.EntryShape | toon/toon.go:67-88 | an entry is one line at its depth and everything else below it |
| ToonRoundTrip.EntriesShape | toon/toon.go:57-65 | a map prints one direct line per key |
| ToonRoundTrip.RootClean | toon/fuzz_test.go:13-20 | no printed line is blank, begins with a space or holds a control character |
| ToonRoundTrip.LinesSurvive | toon/toon.go:31-37 | trimming and splitting the text gives back its lines and depths |
| ToonRoundTrip.LineCount | toon/toon.go:57-125 | the text has as many lines as the structural size of the value |
| ToonAmbiguity.EmptyBlockAmbiguity | toon/toon.go:230-258 | a map with one key over an empty map shares its text with another value iff the key is bare and is `[0]` or a bare key followed by `[0]` |
| ToonAmbiguity.TableCollides | toon/toon.go:92-97 | two one-row tables under different keys print the same, with the brackets in the key of one and in the field of the other |
| ToonDecode.EntryRoundTrip | toon/toon.go:67-88 | one entry of any kind is read back with its key, in front of any shallower lines |
| ToonDecode.EntriesRoundTrip | toon/toon.go:57-65 | the entries of a map are read back as that map |
| ToonDecode.SliceRoundTrip | toon/toon.go:90-125 | every list layout is read back as the list |
| ToonDecode.TableRoundTrip | toon/toon.go:92-108 | a table is read back as its list of maps: the layout loses nothing |
| ToonDecode.NumberedRoundTrip | toon/toon.go:117-124 | a numbered list is read back item by item |
| ToonDecode.CellsOfRow | toon/toon.go:98-106 | a row's cells are read back as its scalars, commas inside quotes notwithstanding |
| ToonDecode.CellsOfKeys | toon/toon.go:92-97 | a table's field list is read back as its fields |
| ToonDecode.ScanScalar | toon/toon.go:177-214 | a printed scalar reads back as itself in front of a comma, a colon or the end |
| ToonDecode.NumberedLineIsNoToken | toon/toon.go:109-124 | a numbered item is never taken for a bare scalar |
| ToonDecode.SafeKeyInjective | toon/toon.go:220-228 | different keys print differently |
| ToonText.ScanStringToken | toon/toon.go:220-228 | a string quoted where needed is scanned back exactly, whatever follows |
| ToonText.UnescapeInverts | toon/toon.go:225-227 | every escape is undone, invalid bytes included |
| ToonText.ScanQuotedInverts | toon/toon.go:225-227 | a quoted text ends at its own closing quote |
| ToonText.PlainChars | toon/toon.go:230-258 | a string left bare is no reserved word and no number, is blank at neither end and holds no structural or control character |
| ToonText.BareIffSafe | toon/toon.go:220-258 | a string is printed as it is iff it is not empty, valid, no reserved word, no number, blank at neither end and free of structural and control characters; every other one stands between quotes |
| ToonText.StringTokenText | toon/toon.go:220-258 | a printed string is never empty or blank at either end, never ends in a colon and holds no control character |
| ToonOrder.SortedUnique | toon/toon.go:260-267 | a strictly sorted key list is determined by its elements |
| ToonOrder.SortStrings | toon/toon.go:260-267 | sorts into the one list with this order and these elements; each valid key comes before the valid keys behind it, by code points and by bytes |
| ToonOrder.LessIsCodePointBefore | toon/toon.go:260-267 | on valid texts the order is: a proper beginning first, otherwise the smaller code point where two texts first differ |
| ToonOrder.LessIsByteOrder | toon/toon.go:265 | that is the order of their UTF-8 bytes, which sort.Strings compares |
| ToonLayout.TableLayout | toon/toon.go:90-108 | a list of maps that share their keys, with scalars under them, prints as a header with its length and every key once, in order, and one row for each map with its scalars in the order of the header |
| ToonLayout.ListLayout | toon/toon.go:109-125 | any other list has a header without fields; scalars stand below it one by one, anything else under its position |
| ToonLayout.SameShapeIsTable | toon/toon.go:127-156 | which lists are tables, item by item and key by key |
| ToonLayout.TableExample | README.md:253-261 | the documented table, character by character |
| ToonLayout.MixedExample | toon/toon_test.go:137-161 | the documented mixed list, line by line, its positions from 0 and quoted |
| ToonEncode.Encode | toon/toon.go:31-37 | fails exactly on unsupported types, with empty text, and otherwise prints the specified lines |
| ToonEncode.EncodeMap | toon/toon.go:57-65 | appends exactly the lines of the map's sorted entries |
| ToonEncode.EncodeEntry | toon/toon.go:67-88 | appends exactly the entry's lines or reports an unsupported type below it |
| ToonEncode.EncodeSlice | toon/toon.go:90-125 | chooses the layout and appends exactly its lines |
| ToonEncode.EncodeTable | toon/toon.go:92-108 | appends the header and the rows |
| ToonEncode.EncodeItems | toon/toon.go:109-116 | appends the header and one line per scalar |
| ToonEncode.EncodeNumbered | toon/toon.go:117-124 | appends the header and one entry per position |
| ToonEncode.UniformMapFields | toon/toon.go:129-156 | returns the sorted fields iff all items are maps with one shared non-empty key set and scalar values, and nothing otherwise |
| ToonEncode.FieldsPresent | toon/toon.go:148-153 | holds iff every field is there with a scalar |
| ToonEncode.SameSize | toon/toon.go:143-147 | equal size and inclusion make key sets equal, which is all the source compares |
| ToonEncode.AllScalarItems | toon/toon.go:158-165 | holds iff every item is a scalar |
| ToonEncode.KeysOf | toon/toon.go:260-267 | gives the same list whatever order the map is walked in: every key once, by code points |
| ToonEncode.TableRow | toon/toon.go:98-106 | joins exactly the row's scalars in field order |
| ToonEncode.QuoteFields | toon/toon.go:93-96 | quotes exactly the fields in order |
| InvokerBounds.TotalCallsBounded | domain/budget.go:9-19 | a run with M slots and R retries hands executors at most M * (1 + R) attempts, at most M when not idempotent, for any nesting and any cycle; invoked events equal attempts and exceed retried events by the number of invocations; each invocation beyond the M-th publishes one BudgetExceeded |
| InvokerBounds.InvokeWithin | domain/execution.go:351-419 | any invocation spends at most the slots it takes |
| InvokerBounds.AttemptsWithin | domain/execution.go:373-418 | the loop makes at most the attempts left to it, and one more invoked than retried event |
| InvokerBounds.BodyWithin | domain/execution.go:421-426 | a body that re-enters the invoker pays for what it starts |
| InvokerBounds.FirstSuccess | domain/execution.go:373-418 | the loop returns the first success among the first R + 1 attempts, or the last error, or the cancellation after a failed attempt whose context check or wait ended it; every earlier attempt failed and was retried |
| InvokerBounds.InvocationLog | domain/execution.go:373-426 | however the loop is left and whatever its bodies invoke in turn, an invocation publishes each attempt's nested events and then its CapabilityInvoked, with CapabilityRetried numbered from 1 between attempts, all but the last of which failed |
| InvokerBounds.WovenCounts | domain/execution.go:382-417 | beside what its bodies publish, an invocation publishes one more CapabilityInvoked than CapabilityRetried |
| InvokerBounds.UninterruptedEnd | domain/execution.go:390-398 | without cancellation only the first success or the last error is left |
| InvokerBounds.LeafLog | domain/execution.go:382-417 | an invocation whose capability calls no other publishes attempts and retries alternately, the retries numbered from 1, however the loop is left |
| InvokerBounds.BackoffTotal | domain/execution.go:399-410 | while the largest delay fits 63 bits, the delays before attempt j add up to b * (2^j - 1) |
| InvokerBounds.NextAttempt | domain/execution.go:390-417 | after a failed attempt j the next one starts where a wait of d leaves the world, d being the int64 that retryBackoff * 2^j wraps to, or at once when d is not positive; a wait cut short ends the loop |
| InvokerBounds.WaitedInAll | domain/execution.go:399-410 | on a clock that waiting moves, an invocation that made k attempts has waited retryBackoff * (2^(k - 1) - 1) |
| InvokerBounds.TurnedAway | domain/execution.go:351-367 | an invocation without a slot, past the deadline, or of a name without capability or executor: its error, its one BudgetExceeded in the first two cases, and that nothing but the slot counter moves |
| Invoker.Delay | domain/execution.go:400 | a delay that fits 63 bits is b * 2^attempt |
| Invoker.Invoke | domain/execution.go:351-372 | takes a slot before anything else, which is what makes cyclic invocation end |
| InvokerProgram.BudgetEnforcer.CheckInvocation | domain/budget.go:60-77 | moves the counter even when it refuses, and reports slots before duration |
| InvokerProgram.BoundInvoker.Invoke | domain/execution.go:351-372 | computes the specified state and outcome |
| InvokerProgram.BoundInvoker.RetryLoop | domain/execution.go:373-418 | the loop computes the specified attempts, so NextAttempt and WaitedInAll say how long it waits between them |
| InvokerProgram.BoundInvoker.RunExecutor | domain/execution.go:421-426 | a composable executor run with this same invoker does what the specification says |
| InvokerRace.CallsBoundedUnderRaces | domain/budget.go:45-77 | the bound M * (1 + R) in every interleaving of concurrent invocations over the atomic counter |
| InvokerRace.TakeKeeps | domain/budget.go:60-69 | every step keeps calls equal to the attempts of the frames that got a slot |
| Pipeline.Rollback | domain/pipeline.go:132-181 | if failed and hookless steps have no effect and a succeeding hook restores what was before its step, a failing pipeline without compensation errors leaves the world as it was |
| Pipeline.ForwardRestores | domain/pipeline.go:132-153 | the same from the middle of a pipeline |
| Pipeline.UndoRestores | domain/pipeline.go:159-181 | the compensation walk restores the start or reports an error |
| Pipeline.PipesThrough | domain/pipeline.go:127-153 | each step is given the transformed output of the one before it, up to the first that fails; the result is the last output, or names that step with its cause and the outputs before it, and the compensation walks back from where that step left the world |
| Pipeline.UndoIsComplete | domain/pipeline.go:155-181 | every hooked step the walk gets to is compensated once, last first, with its own output, on the state the hook before it left, and what its hook answers is on record; the walk gets to all of them, or the context ended, it says so and the first steps are left |
| Pipeline.BrokenAt | domain/pipeline.go:38-53 | a failure names the failing step, holds exactly the outputs before it, records each hook that ran with its output and its answer, and its errors are the failed hooks and, when the walk was cut short, the interruption |
| Pipeline.ErrorsGrow | domain/pipeline.go:155-158 | a compensation error is never dropped |
| Pipeline.AuditTrail | domain/pipeline.go:55-105 | the compensations on record are the hooked steps before the failing one, each with its capability, its output and its hook's answer, last first: all of them unless an interruption is on record, and then all but those among the steps left |
| Pipeline.EvidenceWithTokens | domain/pipeline.go:66-105 | one record for the failure with its counts and cause, then one per compensation in order with step, capability and status or error, costed by the callback |
| Pipeline.Pipeline.ExecuteWithInvoker | domain/pipeline.go:132-153 | computes the specified forward pass and compensation |
| Pipeline.Pipeline.Compensate | domain/pipeline.go:159-181 | the downward loop computes the specified compensation |
| SagaRetries.RetriesAreTransparent | domain/execution.go:373-426 | a pipeline invoked as a capability has the effect of the one attempt that succeeded, begun as at the start, and none when all fail |
| SagaRetries.FailedAttemptsLeaveNoTrace | domain/execution.go:390-417 | after any number of failed attempts the world looks as it did |
| SagaRetries.BodyIsPipeline | domain/pipeline.go:132-153 | running the pipeline under the invoker is the forward pass on the invoker's state, nested invocations included |
| SagaRetries.UndoLifts | domain/pipeline.go:159-181 | hooks act on the world only, not on counters or events |
| DecisionRace.GateHolds | application/execute_action.go:67-154 | in every interleaving of the background run with any approvals and rejections, one decision at most is accepted, the executor starts at most once, a gated action starts only after an approval naming a principal, and never on a rejected session |
| DecisionRace.LaterDecisionsLose | application/execute_action.go:115-154 | once one decision is accepted, any later one is refused and changes nothing |
| DecisionRace.FirstDecisionWins | domain/session.go:126-165 | while the session waits, a decision wins iff it names a principal |
| DecisionRace.NeverStuck | application/execute_action.go:84-109 | in every interleaving, when the background run is done the session is over, waits for approval or was approved |
| DecisionRace.PublishedIffDrainAhead | domain/execution.go:118-124 | what a finished session has not published can still be published iff some actor has a deferred drain to come |
| DecisionRace.Frozen | domain/execution.go:118-124 | once a session is over and nobody has a drain to come, it never changes again |
| DecisionRace.RejectionUnpublished | application/execute_action.go:137-154 | a rejection made when nobody has a drain to come raises a completion that stays pending for ever |
| DecisionRace.AbortUnpublished | application/execute_action.go:84-106 | so does an abort |
| BackgroundRun.PerformsTheScript | application/execute_action.go:94-95 | with nobody else about, the background run takes a new session exactly where Execute's script takes it, starts the executor exactly when Execute does, and goes on to its error path exactly when Execute returns an error |
| BackgroundRun.LostRejection | application/execute_action.go:137-154 | after any background run that came to wait at the gate, a rejection's completion is never published, whatever happens next |
| BackgroundRun.LostAbort | application/execute_action.go:95-106 | after any run given up before its gate, the completion its abort raises is never published |
| DecisionRace.TakeKeeps | application/execute_action.go:67-154 | every step of every actor, panics included, keeps the invariant |
| DecisionRace.EndStep | application/execute_action.go:84-109 | the deferred drain, the error path and the panic recovery keep it |
| DecisionRace.ExecuteStep | domain/execution.go:129-188 | so does each step of Execute up to the gate |
| DecisionRace.RunStep | domain/execution.go:214-237 | so does each step of run up to the executor |
| DecisionRace.DecisionStep | application/execute_action.go:115-148 | so do approving, rejecting and entering Resume |
| Service.ExecuteOutcome | domain/execution.go:129-188 | Execute on a new session ends waiting iff the admitted, resolved action writes externally, succeeds iff otherwise flawless, and leaves no event unpublished |
| Service.RunOutcome | domain/execution.go:214-307 | a run succeeds iff the executor is there, answers without error, within the token budget and with valid output; otherwise it fails with the first fault found |
| Service.ApproveOutcome | application/execute_action.go:115-135 | an approved session ends iff Resume is let through and resolves; otherwise it is stranded Running and no decision is accepted again |
| ServiceRecord.ExecuteTells | domain/execution.go:129-307 | what an Execute that gets to its executor publishes, event by event: the start, the token alarm ahead of what the executor streamed, one event for each chunk and then for each record as the session stores them, and the completion with the time since validation |
| ServiceRecord.ExecuteTellsOfWaiting | domain/execution.go:179-184 | one that comes to wait publishes the start and that it waits |
| ServiceRecord.ResumeTells | domain/execution.go:194-211 | a Resume publishes what was still pending, then the same from the run |
| ServiceRecord.RunRaises | domain/execution.go:247-307 | the events a run raises: chunks, records, completion, in this order |
| ServiceRecord.RunOutput | domain/execution.go:247-263 | after a run the session holds every chunk streamed and every record reported, in order |
| ServiceRecord.RunEnds | domain/execution.go:232-306 | how a run ends: the code and the message of each failure, and which fault comes first |
| ServiceRecord.TokensAddUp | domain/execution.go:273-276 | the tokens compared with the budget are the sum over all reported records, modulo 2^64 |
| ServiceRecord.EmitsInOrder | domain/execution.go:251-253 | chunks are handed over in the order the executor streams them |
| ServiceRecord.AppendsInOrder | domain/execution.go:261-263 | records are appended in the order the executor reports them |
| ServiceRecord.StartsIff | domain/execution.go:129-260 | exactly when Execute and Resume call the executor, and exactly when they return no error |
| Service.ExecutionService.Execute | domain/execution.go:129-188 | performs exactly the scripted session operations; publishes exactly what they drain, with the token alarm at its place; starts an executor exactly when admitted, validated, resolved, ungated and bound; returns no error exactly when it waits at the gate or its run came to an outcome, a failed one included |
| Service.ExecutionService.Resume | domain/execution.go:194-211 | the same for Resume, which starts an executor and returns no error exactly when Running, let through, resolved and bound |
| Service.ExecutionService.RunAction | domain/execution.go:214-307 | performs the run script, and starts the executor, raises the token alarm and returns no error exactly when it gets that far |
| Service.ExecutionService.RunExecutor | domain/execution.go:232-307 | executor lookup, streaming, evidence and outcome in this order; returns an error exactly when there is no executor |
| Service.ExecutionService.Conclude | domain/execution.go:265-306 | names the first fault with its message: executor error, token budget, output contract; the token alarm is published exactly for the second |
| Service.ExecutionService.RecordEvidence | domain/execution.go:261-276 | appends every reported record and sums tokens as int64 |
| Service.ExecutionService.Drain | domain/execution.go:120-124 | publishes the pending events in order and leaves none |
| SessionModel.EventsConserved | domain/session.go:341-381 | over any operations, published plus pending events are exactly the raised ones in order |
| SessionModel.RunKeeps | domain/session.go:80-239 | over any operations: result iff Succeeded, failure iff Failed or Rejected, ends absorb, one completion event iff an end is reached |
| SessionModel.ApplyIsMonotone | domain/session.go:12-18 | a refused operation changes nothing and an accepted transition strictly lowers the rank |
| SessionModel.ApplyKeepsInv | domain/session.go:80-283 | each operation keeps the session invariant |
| SessionModel.ChangesBounded | domain/session.go:12-18 | at most five status changes in any run |
| SessionModel.RunKeepsChain | domain/session.go:263-283 | the evidence chain verifies after any operations if it did before |
| SessionModel.ApprovalRecorded | domain/session.go:108-172 | after every operation a session past a requested approval has a decision on record or was aborted, iff MarkRunning is never applied while it waits |
| SessionModel.PastStep | domain/session.go:167-172 | a single operation breaks this iff it is MarkRunning on a waiting session |
| SessionModel.GateNotInAggregate | domain/session.go:12-18 | MarkRunning steps out of AwaitingApproval without any decision |
| SessionLedger.AcceptedIsKept | domain/session.go:80-283 | over any run, what an accepted operation was given is in the session at the end and was announced: start time, capabilities, decision, result, reason, chunk, record |
| SessionLedger.HoldsIffGiven | domain/session.go:80-215 | a session comes to hold a decision, result, reason, capability list, start time or approval request iff some accepted operation of the run gave it |
| SessionLedger.DurationMeasured | domain/session.go:347-364 | the completion carries the time from the accepted MarkValidated to the operation that ended the session, both read off the operations |
| SessionLedger.NotMeasured | domain/session.go:347-364 | a session never validated since it was made or reloaded ends with duration 0 |
| SessionLedger.OutputInOrder | domain/session.go:217-283 | whatever else happens, chunks and evidence are those handed over, in order, numbered and chained |
| SessionLedger.EvidenceGuarded | domain/session.go:263-330 | after any run of a new session, altering a record whose value can be encoded is reported at its index iff its content differs from what was handed over |
| SessionLedger.AcceptedIffEdge | docs/CONCEPTS.md:134-145 | a move is accepted iff its edge is in the drawn graph, a decision only with a principal on a waiting session; Abort moves every unfinished session |
| Session.ExecutionSession.constructor | domain/session.go:60-78 | a new session is Pending, holds what it was given and nothing else, and satisfies the invariant |
| Session.ExecutionSession.MarkValidated | domain/session.go:80-95 | from Pending only: Validated, start time set, SessionStarted raised; refused elsewhere without effect; DurationMeasured says what the start time comes to |
| Session.ExecutionSession.MarkResolved | domain/session.go:97-106 | from Validated only: Resolved with the given capabilities; refused elsewhere without effect |
| Session.ExecutionSession.MarkAwaitingApproval | domain/session.go:108-124 | from Resolved only: waits, remembers that it asked, raises its event; refused elsewhere without effect |
| Session.ExecutionSession.Approve | domain/session.go:126-146 | with a principal and while waiting only: Running with the decision on record and its event raised; refused otherwise without effect |
| Session.ExecutionSession.Reject | domain/session.go:148-165 | with a principal and while waiting only: Rejected with decision and reason on record and the completion raised; refused otherwise without effect |
| Session.ExecutionSession.MarkRunning | domain/session.go:167-172 | from the statuses the table sends to Running only; refused elsewhere without effect |
| Session.ExecutionSession.Succeed | domain/session.go:174-185 | from Running only: Succeeded with the result and the completion raised; refused elsewhere without effect |
| Session.ExecutionSession.Fail | domain/session.go:187-199 | from Running only: Failed with the reason and the completion raised; refused elsewhere without effect |
| Session.ExecutionSession.Abort | domain/session.go:201-215 | Failed with the reason and the completion raised from any unfinished status; a finished session is left as it is |
| Session.ExecutionSession.Emit | domain/session.go:217-241 | the chunk is appended under the next index whatever index it came with, stamped with the time if it had none, and its event raised |
| Session.ExecutionSession.AppendEvidence | domain/session.go:255-283 | the record is appended with the hash and link the session computes, its event raised, and a chain that verified still does |
| Session.ExecutionSession.VerifyEvidenceChain | domain/session.go:285-330 | returns the verdict defined by the local link conditions |
| Session.ExecutionSession.PullEvents | domain/session.go:366-381 | hands over the pending events and clears them |
| Session.ExecutionSession.TakeSnapshot | domain/snapshot.go:320-370 | gives the specified snapshot, which ReloadKeeps and SameSnapshotIff fix field by field |
| Session.SessionFromSnapshot | domain/snapshot.go:268-317 | refuses an empty ID, then an unknown schema, and otherwise builds the specified session |
| Session.NewExecutionSession | domain/session.go:60-78 | refuses exactly the empty ID or action name |
| Evidence.VerifyChain | domain/session.go:296-330 | intact iff every position satisfies its link condition, otherwise the least bad index and what is wrong there |
| Evidence.AppendKeepsVerified | domain/session.go:263-283 | an append keeps a chain verifying, legacy prefixes and unencodable values included |
| Evidence.AppendAllKeepsVerified | domain/session.go:263-283 | so does any sequence of appends |
| Evidence.AppendedAreHashed | domain/evidence.go:64-84 | an appended record has a hash iff its value can be encoded |
| Evidence.LastHashDetermines | domain/evidence.go:64-84 | two fully hashed verified chains with the same last hash have equal length and equal content everywhere |
| Evidence.TamperReported | domain/session.go:285-330 | changing a hashed record under its stored hashes is reported at exactly that index iff its canonical content changed |
| Evidence.MutationDetected | domain/session.go:285-330 | replacing one hashed record that has a hashed successor, stored hashes included, goes unnoticed iff hash, link and content stay |
| Evidence.LastRecordMutation | domain/session.go:285-330 | replacing the last record alone goes unnoticed iff the new one is blank or hashed as an append |
| Evidence.ForgeryNeedsTheRest | domain/session.go:285-330 | someone who may rewrite a set of records, hashes included, and drop or add records at the end, can change the content at i and leave n records that verify iff the set holds i and every later record that is kept, up to the next one without a hash |
| Evidence.CutAndRewritten | domain/session.go:285-330 | rewriting one record and dropping all that follow it is never noticed |
| Evidence.TruncationUnseen | domain/session.go:285-330 | dropping records at the end is never noticed |
| Evidence.ReportedAfterTheEdit | domain/session.go:292-330 | an edit rehashed consistently up to k is reported as a broken link at k, the first record left alone, wherever the content changed before |
| Evidence.RehashReportedNext | domain/session.go:292-330 | one record replaced and hashed anew is reported at the next record iff its content changed |
| Evidence.AgreeBackTo | domain/session.go:296-330 | verified chains that agree in one stored hash agree in content back to the last record without one |
| Evidence.MutationSeenAt | domain/session.go:296-330 | a replaced record can be noticed at its own position and the next, nowhere else |
| SnapshotModel.ReloadCommutes | domain/snapshot.go:268-370 | stopping a run anywhere, persisting, reloading and going on gives the same answers and the same final snapshot |
| SnapshotModel.SnapshotRoundTrip | domain/snapshot.go:268-370 | a reloaded snapshot taken again is the same iff no chunk time collapses |
| SnapshotModel.ApplySimilar | domain/session.go:80-283 | no operation can tell sessions with equal snapshots apart |
| SnapshotModel.MillisStable | domain/snapshot.go:13-26 | a time persists the second time as the first iff it is not in the first millisecond of year 1 after its start |
| SnapshotModel.ReloadKeeps | domain/snapshot.go:268-370 | a session persisted and reloaded is the session it was in every field, but for pending events, the start time and what chunk times hold below the millisecond |
| SnapshotModel.SameSnapshotIff | domain/snapshot.go:320-370 | two sessions have equal snapshots iff they agree in every field a snapshot names, chunk times to the millisecond |
| SnapshotModel.LoadsIff | domain/snapshot.go:268-283 | a snapshot loads iff it has an ID and schema 1 or none, and then gives itself back under schema 1 |
| CompositionModel.HistoryKeepsOwnership | domain/composition.go:155-252 | over every history with failing saves, the tables are the disjoint union of what registered plugins contributed |
| CompositionModel.OwnershipFromTheStart | domain/composition.go:53-64 | in particular after any history of a new service |
| CompositionModel.TakeKeeps | domain/composition.go:155-252 | each registration or deregistration keeps that |
| CompositionModel.DeregisterUndoesRegister | domain/composition.go:225-252 | deregistering right after registering restores all three tables |
| CompositionModel.RegisterUndoesDeregister | domain/composition.go:156-252 | registering the same content afresh after deregistering restores them too |
| CompositionModel.StrippedOwnership | domain/composition.go:234-243 | a deregistration cut short by the plugin repository keeps ownership iff the plugin gave nothing |
| CompositionModel.RetryCompletes | domain/composition.go:225-252 | deregistering again then ends where the first attempt should have |
| CompositionModel.SaveThenDelete | domain/composition.go:184-211 | saving fresh names and deleting them gives back the table |
| CompositionModel.AcceptedIsFree | domain/composition.go:159-177 | an accepted registration took no name in use |
| CompositionModel.VerdictMeans | domain/composition.go:155-219 | a registration is accepted iff no name is taken, everything is bound, the contribution is not active and no save fails; a refusal names the first obstacle in the order of the checks |
| CallOrder.StageByStage | domain/composition.go:66-123 | the calls of every bundle registration, accepted or not, come in stages: executors, actions, capabilities, the plugin, then what has to be undone |
| CallOrder.EveryMomentWhole | domain/composition.go:155-219 | before, after and between any two calls of a bundle registration, whoever finds a plugin finds everything it contributed |
| Composition.CompositionService.RegisterContribution | domain/composition.go:155-219 | the verdict; exactly the calls of ContributionCalls; the tables with the contribution added iff accepted, exactly as before otherwise; ownership is kept; the contribution is active from activation on even when a save fails |
| Composition.CompositionService.SaveContribution | domain/composition.go:184-218 | saves actions, capabilities and plugin in this order up to the first refused save, and then deletes what was saved, call by call |
| Composition.CompositionService.CheckConflicts | domain/composition.go:159-177 | plugin, then actions, then capabilities; the first conflict is reported |
| Composition.CompositionService.DeregisterPlugin | domain/composition.go:221-252 | removes exactly what the plugin contributed, call by call, closes it iff it was kept for closing, and forgets it even when Close fails; when the plugin repository refuses the delete the plugin stays without its actions and capabilities and is not closed |
| Composition.CompositionService.RegisterPluginWithConfig | domain/composition.go:131-153 | Init, Contribute and registration in this order; the plugin is kept for Close iff accepted |
| Composition.PluginContribution.Activate | domain/plugin.go:72-88 | active iff it was, or every definition is bound; the first unbound one is named |
| Composition.NewPluginContribution | domain/plugin.go:35-68 | built iff the ID is non-empty and names are distinct within actions and within capabilities |
| Composition.NoDuplicates | domain/plugin.go:45-58 | the set of seen names finds a duplicate iff there is one |
| Bundle.RegisterBundle | domain/composition.go:66-123 | makes exactly the calls of BundleCalls, in that order, on the record it shares with the service and the registries; ends with the contribution added and the executors in, or with the tables as before and the registries minus the bundle's references |
| Bundle.RollbackExact | domain/composition.go:109-121 | the rollback restores a registry iff none of the bundle's references was taken before |
| Calls.ResolvesWithout | domain/composition.go:109-121 | taking executors away leaves every visible definition resolving iff none refers to one of them |
| Calls.EveryMomentResolves | domain/composition.go:66-123 | before, after and between any two calls of a bundle registration, for any walk of its maps and any refused save, every visible action (and capability) has its executor: always when accepted, and when refused iff nothing visible refers to the bundle's executors |
| Calls.HistoryResolves | domain/composition.go:66-252 | the same over every history of bundle registrations and deregistrations, call by call |
| Calls.FreshIsUnreferenced | domain/composition.go:96-107 | references that were not registered before meet that condition |
| Calls.DeregisterMoments | domain/composition.go:225-252 | at no moment does a deregistration leave something visible without its executor |
| Calls.BundleEffect | domain/composition.go:96-121 | the calls of a bundle registration come to its outcome, whatever the order and the refused save |
| Calls.ContributionEffect | domain/composition.go:156-219 | the calls of a registration add the contribution when accepted and otherwise come to nothing |
| Calls.SavedAndUndone | domain/composition.go:184-211 | saves of fresh names and their rollback cancel out |
| Calls.GrowingResolves | domain/composition.go:70-71 | calls that take no executor away and save only what has one keep everything visible resolving |
| Calls.DroppingResolves | domain/composition.go:109-119 | while executors go out, every moment resolves if the last one does |
| Calls.DeregisterEffect | domain/composition.go:234-243 | the calls of a deregistration remove what the plugin gave, and up to a refused delete everything but the plugin |
| Bundle.PutExecutors | domain/composition.go:93-107 | actions first, then capabilities, before anything else is written |
| Bundle.TakeExecutors | domain/composition.go:109-119 | takes out what was put in, actions first |
| Bundle.LiveBundleTwice | domain/composition.go:66-123 | registering a live bundle again is refused as already registered, and the rollback takes the executors of each of its own, still visible actions |
| Bundle.NewPluginBundle | domain/bundle.go:16-52 | built iff every non-empty reference has an executor |
| Bundle.RegisterAll | domain/composition.go:96-107 | registers each executor of the map once, in the order it remembers |
| Bundle.UnregisterAll | domain/composition.go:110-119 | unregisters exactly the remembered references, in that order |
| Uuid.EarlierSortsFirst | inmemory/idgen_uuidv7.go:22-25 | below 2^48 an earlier millisecond gives a lexicographically smaller ID, whatever the random bytes |
| Uuid.TimestampRecoverable | inmemory/idgen_uuidv7.go:39-46 | the timestamp can be read off the ID |
| Uuid.IdKeeps | inmemory/idgen_uuidv7.go:36-58 | every ID keeps the low 48 bits of its time and its 74 random bits, each at its place |
| Uuid.SameIdIff | inmemory/idgen_uuidv7.go:22-25 | two IDs are equal iff those 48 bits and those 74 bits are |
| Uuid.ParseInvertsFormat | inmemory/idgen_uuidv7.go:60-73 | a reader gives back all 16 bytes, so formatting is injective |
| Uuid.VersionAndVariant | inmemory/idgen_uuidv7.go:54-55 | version digit 7, variant digit one of 8, 9, a, b, hyphens in place |
| Uuid.VersionBits | inmemory/idgen_uuidv7.go:54 | masking with 0x0F and 0x70 keeps the low four bits |
| Uuid.VariantBits | inmemory/idgen_uuidv7.go:55 | masking with 0x3F and 0x80 keeps the low six bits |
| Uuid.TimeBytes | inmemory/idgen_uuidv7.go:39-46 | the six shifted bytes are the low 48 bits, big-endian |
| Uuid.GenerateSessionID | inmemory/idgen_uuidv7.go:35-58 | filling and masking in place gives the RFC layout in canonical form; its low 48 bits of time and all 74 random bits can be read off the ID |
| Uuid.Format | inmemory/idgen_uuidv7.go:60-73 | the 36-byte buffer ends up as the 8-4-4-4-12 form |
| Uuid.EncodeHex | inmemory/idgen_uuidv7.go:63-71 | writes exactly its window of the buffer |

## Left out

- ToonRoundTrip.DecodeInvertsEncode: asks that no container key be bare with a bracket, because the repository's
  own text is ambiguous without some such condition (see SameTextIffAlike); keys over scalars and quoted keys are
  not restricted.
- ToonOrder.SortStrings: orders by code point, which on valid UTF-8 is Go's byte order (LessIsByteOrder); invalid bytes
  come behind all runes, where Go compares them as bytes.
- ToonEncode.Encode: the error says only that a type is unsupported, not which key holds it.
- InvokerProgram.BoundInvoker.Invoke: requires a positive invocation limit; with no limit a cycle of capabilities need
  not end. Invocations run one after the other; overlapping ones are covered by InvokerRace only.
- InvokerProgram.BoundInvoker.RetryLoop: requires a positive invocation limit, for the same reason.
- InvokerProgram.BoundInvoker.RunExecutor: requires a positive invocation limit, for the same reason.
- DecisionRace.GateHolds: one shared session object; session persistence is left out.
- Service.ExecutionService.Execute: two clock readings, one up to the executor's outcome and one from there on;
  DecisionRace gives every step its own. Log lines are left out.
- Service.ExecutionService.RunAction: one executor contract that may stream and report; orchestrator executors, which
  may also invoke whole actions, are left out.
- Service.ExecutionService.RunExecutor: orchestrator executors, as above; the lookup failure's text is an input.
- SessionModel.EventsConserved: claims published plus pending, because not every event is published
  (see DecisionRace.PublishedIffDrainAhead).
- SessionModel.RunKeeps: durations are unbounded integers; time.Duration saturates after 292 years.
- Evidence.LastHashDetermines: JSON encoding and SHA-256 are taken as injective and non-empty.
- Composition.CompositionService.RegisterContribution: deletes in the action and capability repositories are taken to
  succeed; the source ignores their errors, and a refused one would leave its entry behind.
- Composition.CompositionService.DeregisterPlugin: the same for those two repositories; a delete the plugin repository
  refuses is modelled.
- CompositionModel.HistoryKeepsOwnership: histories in which every plugin delete succeeds; StrippedOwnership and
  RetryCompletes say what one refused delete does.
- Composition.CompositionService.RegisterPluginWithConfig: sequential; the source takes its lock twice.
- Bundle.RegisterBundle: both registries support Register and Unregister, as the in-memory ones do.
- Pipeline.EvidenceWithTokens: the texts of errors are inputs.
- `strconv.ParseFloat`, number formatting and `unicode` tables are parameters with the laws in `GoLib.Lawful`.
- `jsonstore`, `axi.go`, `result.go`, the example programs, validators, rate limiters, loggers and in-memory repositories.
- Snapshots of actions, capabilities and plugins, which are fieldwise copies.
