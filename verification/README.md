# harnez: verified core behaviour

This project models the parts of harnez whose behaviour is hardest to see from one function, and
proves what they promise. `dafny verify dfyconfig.toml` checks everything.

The models follow the form of the code: objects whose methods update fields are classes, loops over
mutable locals are methods with invariants, several processes are a state machine over their steps.
What the code does not control (failing store accesses and file operations, deaths of processes,
the order of map iteration, the outcome of a turn, time) is nondeterministic or a parameter, so every
statement holds for all of it. Locations are given as path and line of the repository.

| file | what it models |
|---|---|
| `WorkerProtocol`, `WorkerGuarantees`, `WorkerExit`, `WorkerSessions`, `WorkerOutcomes`, `WorkerRoots`, `WorkerPrograms` | the launcher, the detached worker and the waiters of `harnez agent` over one shared session record |
| `SessionLedger` | the turn, token, reply and quarantine ledger of a session: start, resume, compact, rate |
| `Braille` | the reversible 8-dot Braille codec and its section-by-section checker |
| `CallPairing`, `CallReport` | `stats --calls`: the pairing of hooks with exec rows and the report |
| `PolicyIds`, `CatalogPolicy` | policy resolution of the model catalog under any map iteration order |
| `CatalogValues`, `CatalogCopies`, `CatalogHandout` | the catalog's deep copies, on a heap of mutable cells |
| `TicketFiles`, `TicketDisk`, `TicketMove` | `issues mv` with its rollback and `index --check`, on a disk whose operations fail |
| `TurnStream` | the live printer of a turn with its two goroutines |
| `Selftest` | the background self-test: processes that share a file without locking |
| `ReadGuard`, `ReadArguments`, `ShellWords`, `ReadRedirect`, `LineSelect` | the read guard, the command it suggests, and how that command is read back |
| `Decimal` | decimal numerals, shared by the last two groups |

## What is proved, in short

- **No published outcome is lost.** Over every interleaving of a launcher, its worker and any number
  of waiters, a waiter declares a session failed only after the registered worker died without
  publishing, and nothing a worker does precedes its registration. This holds from exactly the safe
  starts (`SafeExactlyFromSafeStarts`): those whose record names no process of an earlier turn, and
  at which no `agent wait` left over from an earlier turn is past its second read of a running
  record. Left-over waiters that are still scanning or reading do no harm.
- **A wait outlives the worker**, and **a failure keeps the provider session**, in all runs of exactly
  the resumes from safe starts (`WaitOutlivesExactly`, `SessionsKeptExactly`); every other start
  has a run that shows the loss.
- **A published status tells the truth**: "completed" only after a provider turn that ended well, never
  after an error, a signal, a refusal or a failed load, whatever else interferes; and whoever takes a
  session for idle has seen the worker, the provider and the wrapper gone. The polling loop, the
  worker and the launcher are also given as programs that the other processes interrupt between any
  two accesses.
- **The ledger is exact.** In every state reachable by starts, resumes, compactions and ratings, with
  any save failing, turn numbers ascend, totals are the sums over the turn records, the compaction
  counter is the new input since the last verified compaction, replies are the last ones, and a
  quarantined session deserves it and never reaches its provider again. A prompt is sent over the context
  limit only after a compaction that was acknowledged and left a smaller context.
- **The codec writes the Braille alphabet** and round-trips for exactly the texts without U+212A, backwards for exactly the encoder's
  outputs, and checking a document section by section decides the whole document.
- **The greedy pairing is a maximum matching** that preserves time order, and the report built on it
  conserves its input, column by column.
- **Policy answers are order-free** for accepted policies of patches; in general two orders can
  disagree exactly when matching entries contradict each other. What the enabled list enables and what a
  policy id matches is stated by concatenation of provider, name and tier.
- **Copies handed out are equal**, and detached from the catalog exactly when no mapping with a key
  that is no string can be reached in it; then no write to them can be seen in the catalog.
- **A failed renumbering leaves no trace**, a check none at all, and success creates no collision.
- **Notices and messages of a live turn** appear at most once and in order; the final message is
  on the terminal exactly once if and only if it was shown live or the response is its text.
- **A self-test PASS is genuine** under any interleaving, and the documented order passes.
- **An allowed read is short**, and the suggested command survives shell, parser and line selection.

## Where the code differs from its documentation or from what one expects

- `issues/795` says the worker's identity is never cleared by the worker, but the final record of a start
  turn is built anew without it (`cmd/harnez/agent_run.go:659`), so `agent wait` can return while a start
  worker still lives. On the resume path it cannot, from a safe start.
- `waitForAgent` stores the copy it read before its scan (`cmd/harnez/agent_async.go:476-481`), so a provider
  session that an observer recorded in between is lost (`GivingUpLosesProviderSession`).
- It also stores that copy when the session was resumed after its second read: an `agent wait` of the
  previous turn can replace the published result of the next one (`LateWaiterLosesResult`).
- `agent resume` clears a stale process id only when the record says "running"; one that was left in a
  terminal record defeats the registration of the next worker (`StalePidLosesTurn`).
- `cloneValue` passes on every type it does not know (`modelcatalog/catalog.go:282-284`), among them the
  `map[any]any` that YAML mappings with a number or boolean key decode to (`SharedMappingShows`).
- A policy id of four or more parts matches a query of any tier (`modelcatalog/catalog.go:647-651`).
- `finish` prints the response, not the last message (`cmd/harnez/agent_stream.go:229-236`); the two may differ.
- `issues mv --check` leaves the new file behind when writing it fails (`cmd/harnez/issues.go:848-850`),
  and ticket numbers are compared as text, so 7 is accepted beside 0007.
- `index --check` returns on a failing diff of the docs index before restoring it
  (`cmd/harnez/index.go:382-384`).
- The read guard has no case for `view_range` bounds below zero; `[1, -1]` passes for any file. A request
  that ends before it starts is redirected to an open-ended one.
- `nearestPrompt` negates the smallest Duration, which stays negative and wins.
- Copying an empty `[]string` or an empty list of observations gives nil; a policy's nil maps become
  empty ones. The contents compared by the copy theorems identify these.

## Model

| member | source | states |
|---|---|---|
| WorkerProtocol.NextKeepsInv | cmd/harnez/agent_async.go:173-495 | every single step of the launcher, the worker, any waiter, or a death keeps the protocol invariant: whose PID the stored record names, who may still write it, and what each process's own copy may contain |
| WorkerProtocol.RunKeepsInv | cmd/harnez/agent_async.go:173-495 | the invariant holds after every interleaving in which nobody resumes the session meanwhile |
| WorkerProtocol.InitialInv | cmd/harnez/agent_async.go:289-303 | every safe start satisfies the invariant, whatever waiters of earlier turns are still doing: their copies name only dead or foreign processes, and none of them is past its second read |
| WorkerGuarantees.PublishedResultsAreSafe | cmd/harnez/agent_async.go:441-495 | in every interleaving of one launcher, its worker and any number of waiters, those of earlier turns included, on all three launch paths and with failing store accesses and deaths anywhere, from a safe start: a waiter stores "failed" only after the registered worker died without ever publishing, a published outcome is never replaced by a waiter or the launcher, nothing of a worker precedes its registration, and the launcher writes nothing after it |
| WorkerGuarantees.HistoryLosesNothing | cmd/harnez/agent_async.go:441-495 | from the per-event invariant to the property of whole histories: no waiter failure beside a publication, before or after it |
| WorkerGuarantees.HistoryRegistersFirst | cmd/harnez/agent_async.go:173-204 | registration comes before every turn and every write of the worker and after every other write of the launcher; an unregistered worker leaves no trace |
| WorkerGuarantees.SafeExactlyFromSafeStarts | cmd/harnez/agent_run.go:882-903 | published results are safe in all runs if and only if the launch starts from a record that names no process of an earlier turn and no waiter of an earlier turn is past its second read of a running record; waiters that still scan or read are harmless |
| WorkerGuarantees.LateWaiterLosesResult | cmd/harnez/agent_async.go:456-482 | from every start that is not safe, without a second resume: a waiter of an earlier turn stores "failed" over the "completed" that the new worker published |
| WorkerGuarantees.StalePidLosesTurn | cmd/harnez/agent_run.go:882-903 | from every start that is not safe, a waiter can fail a session whose new worker lives, and wipe its registration |
| WorkerGuarantees.ConcurrentResumeLosesResult | cmd/harnez/agent_run.go:745-762 | from every start path: a resume that does not read the record again after its scan replaces a published "completed" by "failed" |
| WorkerSessions.SessionsKeptExactly | cmd/harnez/agent_async.go:456-482 | a waiter that stores "failed" keeps the provider session of the record it replaces, in all runs, if and only if the launch has no session observer (a resume) and its start is safe |
| WorkerSessions.FailingLosesOnlySession | cmd/harnez/agent_async.go:456-482 | over all runs from a safe start, what a waiter is about to store is the stored record with status, PIDs and note of a failure; only the provider session can differ |
| WorkerSessions.GivingUpLosesProviderSession | cmd/harnez/agent_async.go:456-482 | on both start paths and for every positive session: one recorded between the two reads of a waiter is lost when the worker then dies |
| WorkerSessions.NextKeepsTwins | cmd/harnez/agent_async.go:173-495 | every step keeps the invariant behind it: all copies of the running record stem from the one the launcher registered |
| WorkerExit.WaitOutlivesExactly | issues/795-agent-wait-returns-before-detached-worker-process-exits.md:1-32 | a waiter that returned what the worker published has outlived the worker process, in all runs, if and only if the launch is a resume from a safe start |
| WorkerExit.StartWaitReturnsEarly | cmd/harnez/agent_run.go:659-680 | on both start paths the final record names no worker, so from every start a waiter can return while the worker process still lives |
| WorkerExit.LateWaiterHidesWorker | cmd/harnez/agent_async.go:456-482 | from every resume that is not safe, a late waiter puts an earlier record in the place of the new one, and a wait returns while the worker lives |
| WorkerGuarantees.LaunchedTurn | cmd/harnez/agent_async.go:289-360 | on every path a launch can run undisturbed from the first store to the start of the provider turn, with this record stored |
| WorkerGuarantees.PublishedTurn | cmd/harnez/agent_run.go:658-680 | from there a successful start turn can be published, with a record that names no process |
| WorkerGuarantees.PublishedResume | cmd/harnez/agent_run.go:999-1044 | and a successful resume turn, with a record that keeps only the worker that wrote it |
| WorkerExit.ResumeWaitOutlivesWorker | issues/795-agent-wait-returns-before-detached-worker-process-exits.md:1-32 | over all runs of a resume from a safe start, waiters of earlier turns included: a waiter that returned what the worker published proves that the worker process is gone |
| WorkerExit.NextKeepsMarks | cmd/harnez/agent_stop.go:13-38 | every step keeps the mark behind it: a record that names a process of the turn names the registered worker among its writers |
| WorkerOutcomes.PublishedStatusTold | cmd/harnez/agent_async.go:366-378 | in every run from every start, resumers included: "completed" is published only if the provider's turn ended well, and never after an error, a signal, a refusal or a failed load; "failed" and "stopped" only after an error or a signal that the steps show |
| WorkerOutcomes.ClosingStatusTold | cmd/harnez/agent_async.go:422-434 | the closing record is "completed" if and only if the turn's code stored its outcome without an error, and else "stopped" if and only if a signal had come |
| WorkerOutcomes.RunKeepsStory | cmd/harnez/agent_async.go:343-439 | the status of every copy and of every published record can be read off the steps taken so far |
| WorkerRoots.IdleMeansGone | cmd/harnez/agent_stop.go:13-38 | in every run, resumers included: when a waiter has returned a record or is about to fail one, the worker, the provider and the wrapper that the record names are gone; a resumer that overwrites a running record has seen the same, and its caller gone if no worker was named |
| WorkerRoots.RunKeepsSightings | cmd/harnez/agent_async.go:441-495 | whatever a scan found gone stays gone through every step |
| WorkerPrograms.WaitForAgent | cmd/harnez/agent_async.go:441-495 | the polling loop, interleaved with arbitrary steps of everybody else: it replaces the record exactly when it returns "declared failed", and then its worker was registered, is dead and has never published |
| WorkerPrograms.RunWorker | cmd/harnez/agent_async.go:343-439 | the worker's poll, turn and closing write, interleaved likewise and ending in success, error or a signal: unregistered it has written nothing; when it reports a conclusion, that terminal record without a PID is the stored one, "completed" if and only if the turn's code stored its outcome and came back without an error, which takes a provider turn that ended well; otherwise "stopped" if and only if a signal had come |
| WorkerPrograms.AwaitRegistration | cmd/harnez/agent_async.go:349-361 | after at most 100 polls the worker goes on only with its own PID in the record, and until then has written nothing |
| WorkerPrograms.LaunchWorker | cmd/harnez/agent_async.go:194-204 | the launcher's store, start and register sequence: success means the stored record names the worker; otherwise no worker has been registered and none has written |
| WorkerPrograms.OthersKeepOwn | cmd/harnez/agent_async.go:441-495 | no step of another process changes a waiter's progress, a worker's progress or the launcher's |
| SessionLedger.SessionStore.RunStart | cmd/harnez/agent_run.go:658-680 | whatever ends the first turn, the stored record agrees with the ledger; a successful one is turn 1 with one record and one reply; the history consists of exactly the reservation, the start of the turn and its end as far as it was stored |
| SessionLedger.SessionStore.RunResume | cmd/harnez/agent_run.go:745-1044 | the provider is called exactly when admission and preparation succeed, and never for a quarantined session; with a manual compaction due only if it was acknowledged and shows a smaller context, never with an unavailable size, and below the limit regardless of compaction; a successful saved turn is the next one, appended once, with all totals advanced; anything else leaves the ledger alone, with the status of its end; usage limits go to pending and then to quarantine; the events added to the history are exactly those of the saves that succeeded |
| SessionLedger.SessionStore.AdmitResume | cmd/harnez/agent_run.go:745-775 | a resume is admitted exactly when no writer lives (or a stale record could be marked), nothing blocks the session or its model, and no quota recovery is pending |
| SessionLedger.SessionStore.PrepareTurn | cmd/harnez/agent_run.go:815-856 | a turn goes ahead exactly when a manual compaction that is due was acknowledged and left a smaller context, the queue could be read and the running record stored; an unavailable size stops it, and one under the limit neither stops it nor resets the counter; nothing else of the ledger changes |
| SessionLedger.SessionStore.CompactionDecides | internal/subagent/compact.go:74-112 | the order of the size checks amounts to these conditions |
| SessionLedger.SessionStore.ContextAfterTurn | internal/subagent/session.go:117-129 | the next resume judges by the size the provider reported for the recorded turn, or by its input less its output |
| SessionLedger.SessionStore.FinishTurn | cmd/harnez/agent_run.go:970-1044 | the end of a turn: one recorded turn, a blocked session, or an unchanged ledger; a worker's compaction reaches the disk only with a save that the source makes at this end |
| SessionLedger.SessionStore.FinishFailure | cmd/harnez/agent_run.go:970-994 | a failed or interrupted turn keeps the ledger; a usage limit makes recovery pending, or quarantines when it was pending and quota is available |
| SessionLedger.SessionStore.FinishSuccess | cmd/harnez/agent_run.go:999-1044 | a successful turn is recorded once; a native compaction that was due and did not happen blocks the session instead |
| SessionLedger.SessionStore.StoreTurn | cmd/harnez/agent_run.go:1014-1044 | storing one more turn keeps turn numbers ascending, totals equal to the sums over the records, the compaction counter equal to the new input since the last compaction, and the reply history the last replies |
| SessionLedger.SessionStore.StoreUsageLimit | cmd/harnez/agent_run.go:285-296 | quarantine follows only a second usage limit without a success in between, seen with quota available |
| SessionLedger.SessionStore.SaveCompactResult | cmd/harnez/agent_run.go:1135-1144 | a verified compaction that is saved resets the counter and nothing else of the ledger; otherwise nothing changes |
| SessionLedger.SessionStore.RateLatestTurn | cmd/harnez/agent.go:464-485 | a valid rating leaves exactly one record of the latest turn, carrying it, and every other record and total as it was |
| SessionLedger.LatestTurnRated | cmd/harnez/agent.go:487-497 | the delete gate looks at the first record of the latest turn |
| SessionLedger.RateThenGate | cmd/harnez/agent_manage_cmds.go:314-316 | in every reachable state a rating that succeeds opens the delete gate, although one function looks for the last matching record and the other for the first |
| SessionLedger.RunOperations | cmd/harnez/agent_run.go:581-1144 | every state that a start and any sequence of resumes, compactions and ratings can reach satisfies the whole ledger invariant over a history that is exactly the events of these operations, and is quarantined only if that history deserves it |
| SessionLedger.SecondLimitDeserves | cmd/harnez/agent_run.go:285-296 | a second usage limit after an unresolved first one is the history that deserves quarantine |
| SessionLedger.LastGrows | cmd/harnez/agent_run.go:1086-1098 | cutting the reply history after every turn keeps exactly the last replies of all turns |
| SessionLedger.LastMeans | cmd/harnez/agent_run.go:1094-1096 | the cut keeps a suffix, of the limit's length if there is that much |
| SessionLedger.RatedRecord | cmd/harnez/agent.go:464-485 | rating a record changes no total |
| BrailleCodec.Translate | scripts/md-to-braille8.py:83-90 | the encoder loop computes the concatenated code words; the alphabet lemmas say which cells these are |
| BrailleCodec.FirstTwoSeries | scripts/md-to-braille8.py:25-45 | a to j have their dots, and k to t add dot 3 to them |
| BrailleCodec.ThirdSeries | scripts/md-to-braille8.py:46-52 | u, v, x, y and z add dots 3 and 6 to a to e, and w adds dot 6 to j |
| BrailleCodec.CapitalsAddDot7 | scripts/md-to-braille8.py:68-80 | a letter is one six-dot cell, and its capital adds dot 7 |
| BrailleCodec.DigitsBorrowLetters | scripts/md-to-braille8.py:54-72 | a digit is U+2880 and the letter of its place in 1, ..., 9, 0 |
| BrailleCodec.OthersKept | scripts/md-to-braille8.py:74-90 | source cells are escaped, and every other character is kept |
| BrailleCodec.TranslateBack | scripts/md-to-braille8.py:93-143 | the decoder loop computes the specification decoder, errors included |
| BrailleCodec.DecodeEncode | scripts/md-to-braille8.py:68-143 | decoding undoes encoding for every text, except that U+212A comes back as K |
| BrailleCodec.ForwardRoundTrip | scripts/md-to-braille8.py:74-80 | the round trip holds if and only if the text has no U+212A |
| BrailleCodec.BackwardRoundTrip | scripts/md-to-braille8.py:93-143 | a string decodes and re-encodes to itself if and only if it is the encoding of some text |
| BrailleCodec.RoundTripsBackByCharacter | scripts/md-to-braille8.py:227-235 | equality after decoding and re-encoding is decidability of the string plus a property of single characters |
| BrailleCodec.Sections | scripts/md-to-braille8.py:163-174 | the sections concatenate to the text and every one but the last ends a line; there is one for each heading line, led by it, titled by it without its trailing blanks, and ending where the next heading line begins, after a preamble if the text does not start with one |
| BrailleCodec.HeadingMeans | scripts/md-to-braille8.py:165-165 | a heading line begins with one to six # and a space |
| BrailleCodec.SectionsDecideWhole | scripts/md-to-braille8.py:177-191 | all sections of a line-aligned split pass if and only if the whole text passes, in both directions |
| BrailleCodec.DecodeAppendFrom | scripts/md-to-braille8.py:99-143 | no code word reaches across a line end: decodability of a concatenation is decidability of both parts |
| BrailleCodec.CheckDocument | scripts/md-to-braille8.py:177-191 | the checker reports no error if and only if the conversion of the whole file would pass its self-check |
| BrailleCodec.Convert | scripts/md-to-braille8.py:227-239 | output is written if and only if the self-check holds, and then it converts back to the source |
| CallPairing.PairHooks | cmd/harnez/stats_calls.go:116-137 | the greedy pairing uses each exec row at most once, is as large as any pairing of exec-routed hooks with exec rows that are not earlier than the hook and follow it by less than the largest Duration (2^63-1 ns), and preserves time order |
| CallPairing.FindNearest | cmd/harnez/stats_calls.go:119-136 | the inner loop picks the first free compatible row, or there is none |
| CallPairing.CompatibleMeans | cmd/harnez/stats_calls.go:118-131 | the rows that may be paired: a hook:prep row with agy-route=exec in its note, and a shell row that is not earlier and follows it by less than the largest Duration |
| CallPairing.Exchange | cmd/harnez/stats_calls.go:119-136 | exchange argument: any pairing that agrees so far can take over the greedy choice without loss |
| CallPairing.ExtendPaired | cmd/harnez/stats_calls.go:133-136 | after a greedy choice every pairing can still be turned into one that agrees with all choices made |
| CallPairing.PairedInOrder | cmd/harnez/stats_calls.go:119-136 | a greedy choice keeps the pairing order-preserving |
| CallReport.AssembleStatsCalls | cmd/harnez/stats_calls.go:92-171 | the whole report: one row per meter row and per tool call but a paired hook, showing what was recorded, sorted by time; one total per prompt, each column the sum of that column over its meter rows, and over the report's own model rows; prompts by earliest request; the prompts' tool calls add up to the tool rows with a prompt |
| CallReport.GroupUsages | cmd/harnez/stats_calls.go:96-115 | one group per prompt id, each of its columns the sum of that column over its rows, and its earliest time |
| CallReport.TotalsAreSums | cmd/harnez/stats_calls.go:108-113 | requests, prompt, cached, candidate, thought and total tokens are the sums of their own columns |
| CallReport.RowsCarrySums | cmd/harnez/stats_calls.go:98-113 | the same sums over the sorted rows of the report |
| CallReport.CountToolCalls | cmd/harnez/stats_calls.go:138-154 | one row per tool call that is no paired hook, counted in its prompt's group |
| CallReport.CountToolRows | cmd/harnez/stats_calls.go:138-154 | the number of tool rows is the number of tool calls less the paired hooks |
| CallReport.SumCountsIsAll | cmd/harnez/stats_calls.go:146-152 | counting tool rows prompt by prompt counts every row that carries a prompt once |
| CallReport.ToolRowsNameKnownPrompts | cmd/harnez/stats_calls.go:146-152 | a tool row names no prompt or one that has a group |
| CallReport.NearestPrompt | cmd/harnez/stats_calls.go:184-198 | the scan computes the specification of the nearest request |
| CallReport.NearestIsNearest | cmd/harnez/stats_calls.go:184-198 | when some request is in the range of a Duration, the scan ends with the first of the nearest requests if and only if no request lies so far ahead that its difference saturates at the minimum; when none is in range, if and only if the first that saturates there is that request |
| CallReport.ScannedIsFirst | cmd/harnez/stats_calls.go:184-198 | of the distances as computed the scan keeps the smallest below the largest Duration, and the first of those |
| CallReport.NearestWraps | cmd/harnez/stats_calls.go:188-195 | witness: a request further back than a Duration can express wraps and wins |
| CallReport.RankPrompts | cmd/harnez/stats_calls.go:159-169 | prompts are ordered by earliest request, then id, and numbered in that order |
| StableSort.SortSorts | cmd/harnez/stats_calls.go:155-155 | the sort orders any list by a strict weak order and permutes it |
| StableSort.SortStable | cmd/harnez/stats_calls.go:155-155 | elements that compare equal keep their order |
| CatalogPolicy.FindPolicyIdentity | modelcatalog/catalog.go:534-551 | for every iteration order the result is the one model that answers to the id, or nothing |
| CatalogPolicy.PolicyIdentityUnique | modelcatalog/catalog.go:534-551 | that result is unique |
| CatalogPolicy.ValidatePolicyEnablement | modelcatalog/catalog.go:490-524 | the validator accepts if and only if no two entries switch one model on and off for tiers that meet |
| CatalogPolicy.Catalog.MergeEntry | modelcatalog/catalog.go:443-474 | an entry is merged exactly when it names a model, or declares one, of the version it pins; then that model carries the entry and its fields, and otherwise nothing changes |
| CatalogPolicy.Catalog.MergePolicy | modelcatalog/catalog.go:413-475 | a policy of patches is accepted if and only if it is conflict-free and every patch names one model of its pinned version; then every model carries one of its patches and keeps its names |
| CatalogPolicy.Catalog.IsEnabled | modelcatalog/catalog.go:579-645 | the answer is that of the first explicit matching entry in iteration order; with none it is yes if and only if that is the default or the enabled list holds provider:name, or that with the tier, for a provider and a name of the queried models, of a matching custom entry, or of the query itself if it names no model, up to the case of provider and tier |
| CatalogPolicy.FallbackEnables | modelcatalog/catalog.go:628-644 | the three scans of the enabled list amount to that |
| CatalogPolicy.OtherTierEnablesNothing | modelcatalog/catalog.go:663-690 | an id listed with another tier enables nothing |
| CatalogPolicy.IdMatchesMeans | modelcatalog/catalog.go:606-627 | a policy id matches a query when it lists a name of a queried model with its tier or none; with four parts or more it matches every tier |
| CatalogPolicy.AnswersMeans | modelcatalog/catalog.go:534-565 | a model answers to harness:model, provider:model, its own key, and every id that lists one of its names under its harness or provider |
| CatalogPolicy.ModelIdTellsApart | modelcatalog/catalog.go:692-694 | model ids of identities without colons tell them apart |
| PolicyIds.ListsModelMeans | modelcatalog/catalog.go:663-690 | the enabled list enables exactly what it lists, by concatenation |
| PolicyIds.PolicyIdMatchesMeans | modelcatalog/catalog.go:647-662 | what a policy id matches, by concatenation |
| PolicyIds.PolicyIdTierMeans | modelcatalog/catalog.go:526-532 | the tier of an id is its third and last part, if that is low, med or high |
| CatalogPolicy.Catalog.CollectNames | modelcatalog/catalog.go:586-604 | the providers and aliases collected do not depend on the order of the models |
| CatalogPolicy.OrderMattersExactlyOnContradiction | modelcatalog/catalog.go:606-627 | two iteration orders can disagree if and only if matching entries say both yes and no |
| CatalogPolicy.DisagreeingPatchesConflict | modelcatalog/catalog.go:490-524 | two matching patches that disagree are a conflict the validator sees |
| CatalogPolicy.MatchingIdIsAnswered | modelcatalog/catalog.go:647-662 | a policy id that matches a query is one the queried model answers to |
| CatalogPolicy.AcceptedPolicyIsOrderFree | modelcatalog/catalog.go:579-645 | for an accepted policy of patches, a query naming at most one model and tier low, med or high, every iteration order gives the same answer |
| CatalogValues.CloneValue | modelcatalog/catalog.go:275-286 | the copy of a value of any nesting depth mirrors it: maps, slices and strings in fresh cells, everything else passed on |
| CatalogValues.MirrorFacts | modelcatalog/catalog.go:275-286 | a copy reads like the original, and reaches a cell of it if and only if the original reaches a mapping with a key that is no string, which the default branch passes on |
| CatalogValues.CloneMap | modelcatalog/catalog.go:242-251 | the same for maps, nil included |
| CatalogValues.CloneSlice | modelcatalog/catalog.go:264-273 | the same for slices, nil included |
| CatalogValues.CloneStrings | modelcatalog/catalog.go:280-281 | a copied []string has the same elements; an empty one becomes nil |
| CatalogValues.Wider | modelcatalog/catalog.go:275-286 | content and reach depend on the reachable cells alone |
| CatalogCopies.CloneModel | modelcatalog/catalog.go:174-186 | all seven reference fields of a model are copied into cells made for them |
| CatalogCopies.ModelFacts | modelcatalog/catalog.go:174-186 | a copied model reads like the original, and reaches a cell of it if and only if its facts, overrides, observations or policy reach a mapping with a key that is no string |
| CatalogCopies.PolicyFacts | modelcatalog/catalog.go:188-228 | the same for a copied policy |
| CatalogCopies.AccessFacts | modelcatalog/catalog.go:230-240 | the same for copied observations |
| CatalogCopies.ClonePolicy | modelcatalog/catalog.go:188-211 | policy, roles, traits and entries are copied into cells made for them |
| CatalogCopies.CloneRole | modelcatalog/catalog.go:199-205 | a role's trait lists are copied |
| CatalogCopies.ClonePolicyEntry | modelcatalog/catalog.go:213-228 | an entry's identity, switch and fields are copied |
| CatalogCopies.CloneAccess | modelcatalog/catalog.go:230-240 | observations are copied with their accounts and facts; an empty slice becomes nil |
| CatalogHandout.Models | modelcatalog/catalog.go:136-145 | the models handed out read like the catalog's, and reach a cell of it if and only if they hold a mapping with a key that is no string; the catalog is unchanged |
| CatalogHandout.Access | modelcatalog/catalog.go:148-153 | the same for the observations |
| CatalogHandout.UserPolicy | modelcatalog/catalog.go:159-164 | the same for the policy |
| CatalogHandout.AnyUse | modelcatalog/catalog.go:135-172 | after arbitrary writes to everything that can be reached from what was handed out, a catalog without such mappings reads as before |
| CatalogHandout.SharedMappingShows | modelcatalog/catalog.go:275-286 | witness: with the fact value {limits: {8: [a]}} a write to a handed-out model changes what the catalog reads |
| TicketMove.IssuesMv | cmd/harnez/issues.go:751-932 | with a failure possible at every file operation and a rollback that succeeds: refusals and failures before the index update leave every file as it was, a failed index update leaves only index files without references, a check leaves all files as they were, and a move renumbers exactly the ticket and its references without creating a collision of numbers |
| TicketMove.PlanMove | cmd/harnez/issues.go:758-835 | a plan exists only for one matching local ticket and a number that is free as text; a refused number is really taken |
| TicketMove.FindTicket | internal/issues/actions.go:173-221 | the ticket found is the only match; no match and several matches are told apart |
| TicketMove.MatchesUnfolds | internal/issues/actions.go:180-210 | a number names the tickets of that number; a name is a file name with or without .md, or the path of an archived ticket |
| TicketMove.CheckMove | cmd/harnez/issues.go:839-866 | whatever fails in the simulation, restoring gives back every file; only a failed write of the new file leaves that file |
| TicketMove.ApplyMove | cmd/harnez/issues.go:868-931 | every failure before the commit is undone, the index update up to the index files |
| TicketMove.Rollback | cmd/harnez/issues.go:895-907 | an interrupted reference rewrite, the old ticket and the new file are undone together |
| TicketMove.MovedTickets | cmd/harnez/issues.go:801-810 | after a move the ticket has its new number, all others keep theirs, and two tickets of one number were such before |
| TicketMove.IndexCheck | cmd/harnez/index.go:306-400 | without an error nothing has changed, and drift is reported if and only if some index differs from what would be generated; an error leaves at most the indexes it was checking |
| TicketMove.CheckIssues | cmd/harnez/index.go:316-347 | the issue indexes are regenerated, compared and restored |
| TicketMove.CheckDocs | cmd/harnez/index.go:362-394 | the docs index is restored after a successful comparison; an error may leave it regenerated |
| TicketDisk.Disk.PlanReferences | internal/issues/references.go:21-64 | every file but the moved one whose text mentions it is planned once, with its old and new text |
| TicketDisk.Disk.WriteReferences | internal/issues/references.go:90-101 | all edits are written, or only edited files have changed |
| TicketDisk.Disk.UpdateIndexes | internal/index/index.go:426-470 | the three indexes become the generated texts, files whose text would not change excepted; a failure touches nothing else |
| TicketDisk.Disk.RestoreIndexes | internal/issues/maintenance/rebase.go:706-718 | success brings back exactly the snapshot, in any order of the map |
| TicketDisk.RestoreUndoes | internal/issues/references.go:90-101 | writing the old texts back leaves no trace of a rewrite that stopped anywhere |
| TicketDisk.RewriteRenumbers | cmd/harnez/issues.go:873-900 | creating, removing and rewriting together is the renumbering of the file map |
| TicketFiles.RenamedKeepsSlug | cmd/harnez/issues.go:812-820 | the name of a scanned ticket is its number and a slug, so of the three ways to rename it only the first applies |
| TicketFiles.TicketNames | internal/issues/issues.go:80-80 | a ticket file is called by a number of three or more digits, or a GitHub id, a dash, a line of text and .md |
| TicketFiles.TargetNumber | cmd/harnez/issues.go:812-824 | the renamed file is a ticket of the new number, unless the successor of the largest number wrapped around |
| TicketFiles.NextNumberIsFree | internal/issues/issues.go:667-684 | the automatic number is free, also as an integer |
| TicketFiles.NextNumberIsNext | internal/issues/issues.go:667-684 | it is one more than the largest number taken, or 1; the successor of the largest integer is written with a sign |
| TicketFiles.CollisionNeedsLeadingZeros | cmd/harnez/issues.go:777-810 | a requested number that is free as text is taken as an integer if and only if some ticket spells it with more leading zeros than %03d writes |
| TicketFiles.OverlongNumberCollides | cmd/harnez/issues.go:806-810 | witness: 7 is accepted beside 0007 |
| Decimal.Pad3IsCanonical | internal/issues/issues.go:681-684 | %03d writes exactly the numerals of three or more digits without an overlong leading zero |
| TurnStreams.RunTurn | cmd/harnez/agent_stream.go:139-261 | over every interleaving of agent events, watchdog, heartbeat and finish: at most one violation and one warning, no warning after a violation, neither after a message other than the first of a turn after a compaction; messages are numbered in order, labelled by number and prefix, and shown without their prefix; the end line last; a plan gate warns if and only if no plan came; and without one the last message on the terminal exactly once if and only if it was shown live or, in stats mode, the response is its text |
| TurnStreams.TurnStream.OnMessage | cmd/harnez/agent_stream.go:143-163 | a message is counted, labelled, confirms the turn unless it acknowledges a compaction, and is printed by mode and label |
| TurnStreams.TurnStream.OnActivity | cmd/harnez/agent_stream.go:164-178 | a violation is printed for the first activity of an unconfirmed turn only |
| TurnStreams.TurnStream.WatchdogFires | cmd/harnez/agent_stream.go:181-199 | a warning is printed only for a turn neither confirmed, warned nor in violation |
| TurnStreams.TurnStream.Finish | cmd/harnez/agent_stream.go:219-261 | the closing lines, with the reply unless the last message was shown live; the end line is last; the last message is shown exactly once under exactly that condition |
| TurnStreams.FinalMessageShownOnce | cmd/harnez/agent_stream.go:219-240 | without a plan gate the last message is shown exactly once if and only if it was shown live or the reply carries its text |
| TurnStreams.NoticeGiven | cmd/harnez/agent_stream.go:164-199 | a notice keeps all order properties when no flag forbids it |
| TurnStreams.HonestMessage | cmd/harnez/agent_stream.go:143-163 | a message gets the next number, the label its number and prefix call for, and is shown as the text left without prefix and surrounding space |
| TurnStreams.NoticesByNumber | cmd/harnez/agent_stream.go:143-199 | so no notice follows a message other than the first of a turn after a compaction |
| Selftest.PassIsGenuine | cmd/harnez/agent_selftest.go:188-344 | however the loads and saves of any processes interleave, with lost updates: PASS means that one background task with HTO set was started and finished, the confirmation was stamped in between and the report of it no earlier |
| Selftest.DocumentedOrderPasses | cmd/harnez/agent_selftest.go:188-344 | when the documented order is followed without overlap and HTO is set, verify passes, whatever time goes by |
| Selftest.NextKeepsInv | cmd/harnez/agent_selftest.go:188-344 | every step keeps all stamps in the file and in every copy genuine |
| Selftest.UpdatedIsGenuine | cmd/harnez/agent_selftest.go:201-297 | a stamp that a process adds to a genuine copy is genuine |
| Selftest.GenuineIsConcurrent | cmd/harnez/agent_selftest.go:299-335 | a genuine file without issues describes a concurrent run of one background task |
| ReadGuard.ExtractReadRange | cmd/harnez/hook.go:538-604 | the range extracted from the arguments, key by key, with no 64-bit overflow |
| ReadGuard.ExtractFilePaths | cmd/harnez/hook.go:477-509 | the paths extracted from the arguments, in order |
| ReadGuard.CountFileLines | cmd/harnez/hook.go:606-619 | the count is the number of lines of the text |
| ReadGuard.EvaluateReadToolViolation | cmd/harnez/hook.go:649-701 | the verdict: a long range, or a readable text file for which the range is too long |
| ReadGuard.RangeIsWhatClientReads | cmd/harnez/hook.go:538-604 | for reads by offset and limit or by start and end line, the extracted range shows in every file the lines the client's tool shows, overflow included |
| ReadGuard.GuardBoundsReads | cmd/harnez/hook.go:649-701 | such a read is stopped if and only if it asks for 100 lines or more or would show 100 lines or more of a text file |
| ReadGuard.AllowedReadsAreShort | cmd/harnez/hook.go:649-701 | an allowed read shows fewer than 100 lines of each text file |
| ReadGuard.GuardedExactlyWhenCovered | cmd/harnez/hook.go:683-697 | for ranges with any bounds, as view_range carries them: no file gets past the guard if and only if the bounds are covered |
| ReadGuard.ViewToEndEscapes | cmd/harnez/hook.go:683-697 | witness: view_range [1, -1] reads files of any length |
| ReadArguments.LineArguments | cmd/harnez/hook.go:584-603 | StartLine, start_line, startLine and EndLine, end_line, endLine bound the range, in this order |
| ReadArguments.OffsetArguments | cmd/harnez/hook.go:543-552 | offset and limit bound it, a last line beyond 64 bits excepted |
| ReadArguments.ViewArguments | cmd/harnez/hook.go:553-583 | view_range or viewRange is taken as it is |
| ReadArguments.LongRequests | cmd/harnez/hook.go:657-661 | a request is long by itself if and only if it asks for 100 lines or more |
| ReadArguments.PathArguments | cmd/harnez/hook.go:477-509 | the paths are those of the nine single and four list arguments |
| ReadArguments.MediaByEnding | cmd/harnez/hook.go:621-631 | the files passed over are those with one of thirteen endings, whatever the case |
| ReadArguments.ReadTools | cmd/harnez/hook.go:465-474 | the guarded tools, whatever the case of the name and the space around it |
| ReadArguments.AtoiMeans | cmd/harnez/hook.go:511-531 | a line number given as text is decimal digits with at most one sign, of a value that fits |
| ReadRedirect.RedirectCommand | cmd/harnez/hook.go:853-871 | splitting the suggested command by the shell's quoting rules gives back the command words, the range and the original paths, for all paths |
| ReadRedirect.TargetsMean | cmd/harnez/hook.go:853-871 | guard and suggestion mean the same file: an absolute path, or the path joined to the base directory if there is one |
| ShellWords.SplitCommand | cmd/harnez/hook.go:866-870 | plain words and quoted paths survive field splitting, whatever characters the paths contain |
| ShellWords.SplitEscaped | cmd/harnez/hook.go:870-870 | the quote replacement is undone by the shell |
| LineSelect.RangeWordParses | internal/readcard/read.go:231-281 | the suggested range is parsed back as the requested one |
| LineSelect.RangeForms | internal/readcard/read.go:231-281 | two bounds, either left out, joined by a colon, two dots or a dash: the range they mean, at least from line 1, with an end before the start moved to it |
| LineSelect.RangeOfOne | internal/readcard/read.go:231-257 | nothing is the whole file, and a number is one line |
| LineSelect.SelectLines | internal/readcard/read.go:75-110 | the scan selects exactly the lines of the range |
| LineSelect.RedirectShowsRequest | cmd/harnez/hook.go:853-865 | the suggestion shows the requested lines of every file if and only if the request does not end before it starts |
| LineSelect.StoppedReadKeepsLines | cmd/harnez/hook.go:853-865 | a read by offset and limit or by start and end line is redirected to the same lines |

## Left out

- Commands, flags, help, colours, tables, JSON and YAML decoding, schema validation: models work on decoded values.
- Provider drivers, quota capture, git, forges, telemetry database, sound, sockets: their results are parameters.
- Concurrent resumers: `agent resume` does not read again after its scan, so it promises nothing against them; `ConcurrentResumeLosesResult` shows the loss.
- Messages queued for a session, interactive sessions, and a resume that runs its turn in the launcher's own process.
- PID reuse and start times: process ids in the protocol are never reused, and a worker's start time is always recorded.
- WorkerPrograms.WaitForAgent: gives up after a given number of rounds, because without a timeout the loop need not end.
- `agent stop`, `agent delete` and other commands that write the record while a turn runs.
- SessionLedger.RunOperations: what did not reach the disk does not count, so a turn whose save fails is no recorded success and an unsaved compaction resets nothing; token counts are unbounded integers.
- SessionLedger.SessionStore.RunResume: process ids, model switches and working-directory fields of the record are not part of the ledger.
- BrailleCodec.Sections: text files are taken as read, without newline translation.
- CallPairing.PairHooks: a hook and an exec row that are the largest Duration or more apart are never paired by the code, and pairings that join such a pair are not compared with.
- CallReport.AssembleStatsCalls: token sums are unbounded integers, and labels keep the time instead of its local rendering.
- CatalogPolicy.AcceptedPolicyIsOrderFree: policies whose entries carry identities of their own, queries naming two models and other tiers are not covered by the validator either; when two patches name one model, which of them the model carries does depend on the order (`Catalog.MergePolicy`).
- CatalogPolicy.Catalog.IsEnabled: case folding is that of ASCII.
- WorkerRoots.IdleMeansGone: assumes that every process id left in an earlier record belonged to a process that has existed.
- CatalogHandout.Models: documents are acyclic, as decoding makes them; the capacity of slices is not modelled; of the types that the default branch of the copying code passes on, mappings are the only ones with mutable parts that decoding makes.
- TicketMove.IssuesMv: the texts of header, references and indexes are functions given to the model; file modes, the lock file of the index update and the commit itself are left out, and the rollback clauses assume that the rollback's own operations succeed, as `restored` reports.
- TicketMove.CheckMove: if the check for the new file itself fails although that file exists, the file is overwritten and removed, which is why the result is stated without it.
- TicketMove.IndexCheck: creation and removal of an empty studies directory are left out.
- TurnStreams.RunTurn: durations, token summaries and the wording of lines are left out; a message is its text and its label.
- Selftest.PassIsGenuine: the wall clock never steps back, and session id, durations and step times are left out.
- ReadGuard.EvaluateReadToolViolation: JSON numbers arrive as 64-bit integers (fractions already cut off); joining of relative paths is a parameter; the enforcement switch is taken as on.
- ReadGuard.AllowedReadsAreShort: covers reads by offset and limit or by start and end line; for `view_range` the exact condition is `GuardedExactlyWhenCovered`.
- LineSelect.SelectLines: the head and tail options and the trimming of carriage returns are left out.
- Argv rewriting, redaction, invoker classification, expiry and remote URL parsing: they would add easy members only.
