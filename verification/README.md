# shell-agent: a verified model of its concurrent agent, context builder, analysis pipeline and stores

The agent answers one user message at a time, in rounds of model replies and tool calls. After each turn it
extracts memory and writes a title in the background; a message sent meanwhile waits in a queue of one and is
dispatched when the extraction ends. Each model call gets a message list built from the session's records within
a token budget: the newest records verbatim, older ones summarised in two cached tiers. Around this core sit a
per-session analysis database, a chunker and a sliding-window summarizer for large inputs, a store of findings,
named LLM profiles, the flat names of MCP tools, approval dialogs and a Markdown export.

Each module below models one of these parts as the Go code has it. Go strings are Dafny strings with one `char`
per byte, except in the chunker, which works on `bv8`. Foreign code (the token estimator, tokenising, time-stamp
and lower-case formatting, the guard's wrapping, the model, DuckDB, the object store) appears as function-valued
parameters; clocks, random values, generated ids and save outcomes are arguments.

| module | what it holds |
|---|---|
| `AgentFsm`, `AgentProtocol`, `AgentGuarantees`, `AgentConditions`, `AgentSessions` | the mutex-guarded fields, the transition system of all goroutines, what every interleaving keeps, when the tempting claims hold, which session the agent is on and what becomes of a message |
| `History`, `HistoryLookups` | agentLoop's records and the two ways of finding a tool call again |
| `SummaryCache`, `ContextBuild`, `ContextGuarantees`, `ContextOrder`, `ContextTexts`, `GuardTag` | cache key and cache, the build, what it promises, in which order it speaks and what its texts say, the guard nonce |
| `Utf8`, `TextChunker`, `ChunkOrder`, `ChunkSizes`, `Summarizer` | chunks and sliding windows |
| `AnalysisEngine` | read-write instance, throwaway readers, table metadata |
| `Profiles`, `Findings` | the two stores with rules over whole runs |
| `NumberRender`, `ExportLinks`, `McpNames`, `Approval` | rendering, rewriting, naming and routing |
| `Options`, `Totals`, `Records`, `Sequences`, `Text`, `Sorting`, `Filtering`, `Jaccard` | shared definitions and facts |

## Where the code and its descriptions differ

- `app/internal/agent/agent.go:1452-1455` calls the reset in LoadSession a no-op on the happy path. It is one exactly if
  the flag is down, and it loses a SEND exactly if the slot is full, as when one is queued between the Wait and the lock
  (`AgentConditions.ResetIff`, `AgentConditions.WipeReachable`).
- `app/internal/agent/agent.go:1442-1445` says the Wait keeps background readers away from a session swap. A Wait that
  passes between the end of a turn and the launch of its tasks does not (`AgentGuarantees.SwapUnderExtraction`,
  `AgentConditions.UndelayedSwapIff`); one that finds no such turn does, until a turn ends
  (`AgentConditions.WaitProtects`).
- `app/internal/agent/agent.go:2904-2910` says waiting in a `/model` command cannot deadlock. An auto-dispatched
  `/model` waits for the WaitGroup its own goroutine is on and never returns
  (`AgentGuarantees.SelfWaitReachable`, `AgentGuarantees.DispatchedSwitchHangs`). Every other owner has at most two
  steps to its release (`AgentConditions.HeldForTwoSteps`), and a user's `/model` waits for boundedly many steps
  (`AgentConditions.SwitchWaitIsBounded`).
- `app/internal/contextbuild/builder.go:407-411` calls rendering an anchor on its own equivalent to rendering it in place.
  The time marker can differ (`ContextGuarantees.IsolatedAnchorIff`, `ContextGuarantees.AnchorLosesItsMarker`).
- `app/internal/analysis/textchunker.go:103-106` says the closed chunk's tail is carried over if the heading snap left
  nothing. The code always carries it, behind the lines the snap left, so a chunk need not be a contiguous run of lines
  (`ChunkOrder.LeapExample`, `ChunkOrder.InOrderIff`).
- `app/internal/findings/findings.go:131-134` says ids stay unique. They do only while no finding of the day is deleted
  or evicted (`Findings.IdsStayUnique`, `Findings.NextIdIsNewIff`, `Findings.DeletionReusesAnId`).
- `app/internal/analysis/render.go:143-150` promises the interval form for every value; a negative span with a fraction
  of a second prints a sign inside the fraction (`NumberRender.IntervalRoundTripIff`).
- `app/internal/analysis/engine.go:748-769` does not look at the row iterator's error, so a fetch that fails ends a query
  early without an error (`AnalysisEngine.ShortIff`, `AnalysisEngine.ShortAnswer`).
- `app/internal/analysis/engine.go:819-878` drops the errors of its metadata queries, so opening a database or creating a
  table can succeed with metadata that differs (`AnalysisEngine.RefreshedIff`, `AnalysisEngine.RebuiltIff`,
  `AnalysisEngine.MissesATable`).
- `app/internal/config/config.go:673-682` overwrites the file in place, so a failed save can leave it torn; the runs in
  `Profiles` allow for it.

## Model

| member | source | states |
|---|---|---|
| `AgentConditions.PhaseArrows` | app/internal/agent/agent.go:1238-1331 | in every interleaving each step follows an arrow of the phase diagram: only a SEND or a lifecycle section enters Busy, only the end of a turn or a release leaves it, a SEND during an extraction leads to Queued, an Abort or a cleanup back to Ready |
| `AgentConditions.Follow` | app/internal/agent/agent.go:1379-1397 | an object that performs its sections in place goes through the states of any run, and its snapshots show them: each phase one arrow on from the one before, a queued message only in the queued phase |
| `AgentProtocol.StepLocal` | app/internal/agent/agent.go:1238-1302 | each of the nineteen kinds of step, on any goroutine, changes ownership, flag, WaitGroup credit and message custody consistently |
| `AgentProtocol.OwnerNext` | app/internal/agent/agent.go:1249-1277 | no action, by any goroutine or the user, breaks "Busy iff one owner" or the session pointer of a running loop |
| `AgentProtocol.FlightNext` | app/internal/agent/agent.go:2315-2387 | no action strands the extraction flag |
| `AgentProtocol.WgNext` | app/internal/agent/agent.go:2343-2449 | every Add, Done and goroutine launch keeps the WaitGroup equal to what the live goroutines owe |
| `AgentProtocol.HolderNext` | app/internal/agent/agent.go:2381-2432 | every action leaves each SEND with exactly one holder |
| `AgentProtocol.LedgerNext` | app/internal/agent/agent.go:1249-1331 | every action keeps the record of calls, stays in the slot and fates balanced |
| `AgentGuarantees.ReachableInv` | app/internal/agent/agent.go:1238-1344 | all six invariants hold in every state some interleaving reaches |
| `AgentGuarantees.BusyMeansOneOwner` | app/internal/agent/agent.go:1379-1397 | in every reachable state Busy iff exactly one owner, Busy excludes extracting and a full slot, a full slot implies extracting, and a snapshot with a queued message reports the queued phase |
| `AgentGuarantees.SessionFixedDuringLoop` | app/internal/agent/agent.go:2065-2073 | inside agentLoop the session pointer is the one the loop began with |
| `AgentGuarantees.FlagNeverStranded` | app/internal/agent/agent.go:2378-2387 | a raised flag means the newest extraction has its cleanup ahead; when no goroutine is left, the fields are initial and the count is zero |
| `AgentGuarantees.WaitGroupAccounts` | app/internal/agent/agent.go:2343-2432 | the count is what the live goroutines owe, and is zero exactly when no background goroutine, dispatched turn or dispatched turn's task is left |
| `AgentGuarantees.SendFates` | app/internal/agent/agent.go:1249-1261 | every SEND enters agentLoop at most once and ends at most once; each stay in the slot has exactly one fate; calls and dispatches are matched one for one by queueing, starting, refusal or custody |
| `AgentGuarantees.DispatchedSwitchHangs` | app/internal/agent/agent.go:2899-2912 | once an auto-dispatched switch of backend waits, no continuation of the run frees it or the agent |
| `AgentGuarantees.IdleAgainUnlessSelfWait` | app/internal/agent/agent.go:2899-2912 | from a reachable state some continuation reaches Idle iff no auto-dispatched switch is waiting for itself |
| `AgentConditions.HeldForTwoSteps` | app/internal/agent/agent.go:1283-1302 | whoever holds the agent gives it back within two steps of its own, whatever happens in between, and only a waiting switch of backend can be kept from its next step |
| `AgentConditions.SwitchWaitIsBounded` | app/internal/agent/agent.go:2899-2912 | while a user's switch waits, every continuation has at most a fixed number of background steps, and one can be taken until the count is zero |
| `AgentGuarantees.Drain` | app/internal/agent/agent.go:2899-2912 | while a user's switch holds the agent, the background goroutines can all finish |
| `AgentGuarantees.StaleCleanupLowersFlag` | app/internal/agent/agent.go:2383-2383 | a run on which the cleanup of an aborted extraction lowers the flag of a newer one that still runs |
| `AgentConditions.StaleCleanupIff` | app/internal/agent/agent.go:2381-2387 | a cleanup takes down the flag of another extraction, which stays in flight without it, iff the flag is up and the cleanup is not of the last generation |
| `AgentConditions.FlagStepIff` | app/internal/agent/agent.go:1311-1331 | from a state where the flag is up exactly while an extraction is in flight, a step breaks this iff it is an Abort or a lifecycle section taken with the flag up |
| `AgentConditions.ExactFromTheStart` | app/internal/agent/agent.go:2330-2387 | on every run without such a step the flag is up iff the newest extraction is in flight |
| `AgentGuarantees.QueuedSendRefused` | app/internal/agent/agent.go:2422-2430 | a run on which a queued SEND is dispatched and refused as busy |
| `AgentConditions.DispatchMeets` | app/internal/agent/agent.go:2422-2430 | a dispatched SEND begins iff its goroutine finds the agent Idle and not extracting, is refused iff it finds it Busy, and is queued again otherwise |
| `AgentGuarantees.SwapUnderExtraction` | app/internal/agent/agent.go:1446-1456 | a run on which LoadSession swaps the session and the old session's extraction still starts |
| `AgentConditions.SwapIff` | app/internal/agent/agent.go:1447-1456 | a session swap leaves a title or extraction of another session's turn behind iff some such turn is, at the lock, between its end and the end of that task |
| `AgentConditions.UndelayedSwapIff` | app/internal/agent/agent.go:1441-1456 | when the Wait passes, the only tasks of ended turns are those not yet on the WaitGroup, and an undelayed load leaves one behind iff it is of another session |
| `AgentConditions.WaitProtects` | app/internal/agent/agent.go:1441-1446 | a Wait that passes with no such turn protects the swap for as long as no turn ends before the lock |
| `AgentConditions.ResetIff` | app/internal/agent/agent.go:1452-1455 | in a lifecycle section the reset changes a field iff the flag is up and loses a SEND iff the slot is full |
| `AgentConditions.WipeReachable` | app/internal/agent/agent.go:1446-1455 | a run on which LoadSession loses a SEND queued between its Wait and its lock |
| `AgentGuarantees.SelfWaitReachable` | app/internal/agent/agent.go:2911-2911 | a run that reaches the wait that never returns |
| `AgentSessions.SessionMoves` | app/internal/agent/agent.go:1446-1456 | only three steps move the session pointer: a load, to the session loaded; the delete of the session it is on, to nil; a turn that opens without a session, to the implicit one |
| `AgentSessions.DeleteLeaves` | app/internal/agent/session_delete.go:63-79 | in every reachable state, after the body of a delete the agent is not on that session, and is where it was iff that was another one |
| `AgentSessions.DeletedStaysGone` | app/internal/agent/session_delete.go:72-79 | on every continuation, until it is loaded again, the agent is never on a deleted session and no turn runs in it (the implicit session aside) |
| `AgentSessions.ExportImportKeep` | app/internal/agent/export_import.go:43-65 | no step of an export or an import moves the pointer |
| `AgentSessions.TurnOpensIn` | app/internal/agent/agent.go:2065-2073 | a turn, dispatched or not, runs in the session the agent is on, or in the implicit one |
| `AgentSessions.TurnEndLaunches` | app/internal/agent/agent.go:2330-2380 | from every reachable state a turn that ends launches one title, and one extraction iff extraction is on, both for its own session and each after its own Add, with the agent Idle |
| `AgentSessions.TurnsArePlain` | app/internal/agent/agent.go:1276-1302 | in no reachable state is a slash command in a turn |
| `AgentSessions.CommandRuns` | app/internal/agent/agent.go:1276-1293 | a slash command that finds the agent free holds it for two steps of its own and leaves session, WaitGroup and queue as they were |
| `AgentSessions.SwitchEnds` | app/internal/agent/agent.go:2899-2912 | a switch of backend whose wait is over does the same |
| `AgentSessions.CleanupHandsOn` | app/internal/agent/agent.go:2381-2413 | the cleanup of an extraction hands a waiting message on iff a base context was set, and drops it otherwise; the slot is empty and the flag down either way |
| `AgentSessions.HandedOnIsSent` | app/internal/agent/agent.go:2413-2430 | the message handed on is sent again by a goroutine of its own, counted by the WaitGroup before it starts |
| `AgentSessions.LifecycleRuns` | app/internal/agent/session_delete.go:43-61 | an export, import or delete that finds the agent free holds it Busy for its body and frees it with its last step; one that finds it Busy changes nothing |
| `History.Agent.ExecuteCalls` | app/internal/agent/agent.go:2259-2281 | appends, for each call in order, one tool record with its id and name and with the content and status its own execution returned, and a report iff that execution left a draft, with the draft's title, content and object |
| `History.Agent.FlushPendingReport` | app/internal/agent/agent.go:636-655 | appends the buffered report, once |
| `History.Agent.AgentLoop` | app/internal/agent/agent.go:2065-2289 | every run appends the user record and then what each round that spoke said, in order: for a reply with calls its content, its calls and their outcomes, for words these words; it stops at the first round that does not go on and returns that round's words, "(Cancelled)" or a failure, and "(Max tool rounds reached)" iff no round stops it |
| `History.RunKeepsGrammar` | app/internal/agent/agent.go:2231-2284 | any number of runs keeps the whole history in the grammar |
| `History.ToolCallDetailsByIndex` | app/internal/agent/agent.go:1871-1924 | the backward walk computes DetailsByIndex, including its error cases |
| `History.LookupFindsItsCall` | app/internal/agent/agent.go:1888-1922 | on any such history the walk from tool record N pairs it with exactly the call that produced it, so the match by name is never used |
| `History.LookupTellsWhatRan` | app/internal/agent/agent.go:2259-2281 | after a run, whatever the history before and after it, the lookup at a tool record shows the arguments of that call of the reply and what running that call returned |
| `History.EveryToolRecordAnswers` | app/internal/agent/agent.go:2259-2281 | every tool record of such a history answers some call of some reply |
| `History.GetToolCallDetails` | app/internal/agent/agent.go:1827-1868 | the scan by call id computes DetailsById |
| `History.LookupsAgree` | app/internal/agent/agent.go:1819-1924 | for an id used once, the lookup by id and the lookup by index return the same details |
| `HistoryLookups.LookupByIdIsTheLast` | app/internal/agent/agent.go:1827-1868 | on any history the lookup by id finds something iff some call or result carries the id, and shows the arguments of the last such call and the content of the last such result |
| `HistoryLookups.FirstOfTheName` | app/internal/agent/agent.go:1906-1916 | the match by name takes the first call of that name |
| `SummaryCache.ComputeContentKey` | app/internal/contextbuild/cache.go:99-126 | the hashing loops compute Key of the five inputs |
| `SummaryCache.KeyAgrees` | app/internal/contextbuild/cache.go:77-98 | for NUL-free fields two keys are equal iff the records agree in role, tool name and content, the dead facts and the anchors are permutations of each other, and summarizer and tier are equal |
| `SummaryCache.CollidesIffNul` | app/internal/contextbuild/cache.go:100-103 | another list of as many records feeds the hash alike iff some tool name or content holds a NUL |
| `SummaryCache.FedAlikeIff` | app/internal/contextbuild/cache.go:100-103 | another list of any length feeds the hash alike iff there are two records or more, or a field holds a NUL |
| `SummaryCache.Cache.Get` | app/internal/contextbuild/cache.go:135-149 | serves the first entry of the current kind with the key |
| `SummaryCache.Cache.Put` | app/internal/contextbuild/cache.go:155-179 | replaces the entry of the same key and kind, or appends and keeps the newest up to the limit |
| `SummaryCache.NewestKeeps` | app/internal/contextbuild/cache.go:174-178 | eviction keeps exactly limit entries, none of them older than one it dropped |
| `SummaryCache.StoredSlots` | app/internal/contextbuild/cache.go:155-179 | Put keeps one entry per key and kind and stays within the limit |
| `SummaryCache.PutRedirectsNothing` | app/internal/contextbuild/cache.go:155-179 | after a Put its key serves the new entry or nothing, every other key what it served before or nothing |
| `SummaryCache.PutThenGet` | app/internal/contextbuild/cache.go:135-179 | an entry no older than the stored ones is served right after its Put |
| `ContextBuild.FilterRecords` | app/internal/contextbuild/builder.go:306-320 | raw and legacy records are the two selections of the session's records |
| `ContextBuild.WalkWindow` | app/internal/contextbuild/builder.go:341-357 | the newest-to-oldest walk computes RawWindow, error included |
| `ContextBuild.LiftAnchors` | app/internal/contextbuild/builder.go:140-153 | the anchors with their positions and the rest are the selection by anchor facts and its complement |
| `ContextBuild.DropDeadTopics` | app/internal/contextbuild/builder.go:160-193 | kept records, dropped count and, in some order, the dead facts that were hit |
| `ContextBuild.AssembleTier` | app/internal/contextbuild/builder.go:216-276 | block, hit flag and cache contents are those of TierOf |
| `ContextBuild.TierIgnoresOrder` | app/internal/contextbuild/builder.go:186-191 | the order in which the map yields the dead facts does not reach the tier |
| `ContextBuild.Build` | app/internal/contextbuild/builder.go:278-433 | the build, cache updates included, computes Built |
| `ContextGuarantees.WindowIsLongest` | app/internal/contextbuild/builder.go:341-357 | the window is the longest run of newest records that fits the raw budget, or the newest alone, shown verbatim; it fails only on a record it had to render |
| `ContextGuarantees.TotalIsTheSum` | app/internal/contextbuild/builder.go:379-423 | the reported total is the sum of the estimates of the emitted messages |
| `ContextGuarantees.Conserved` | app/internal/contextbuild/builder.go:359-369 | every unfiltered record lands in exactly one of far, near, dropped, anchors and raw window, and the halves differ by at most one |
| `ContextGuarantees.ConservesOrder` | app/internal/contextbuild/builder.go:359-369 | each group keeps the order, all of far precedes all of near, and the anchor indices are the anchors' positions |
| `ContextGuarantees.CountsAddUp` | app/internal/contextbuild/builder.go:421-432 | the five counts of the result sum to the number of unfiltered records |
| `ContextGuarantees.NothingElidedSilently` | app/internal/contextbuild/builder.go:249-276 | the number of messages follows from the reported counts: a far block stands for far and dropped records, a near block for near ones, and every other record has its own message |
| `ContextOrder.MessagesInOrder` | app/internal/contextbuild/builder.go:377-433 | the messages of every build are the prompt, one per legacy record, the far block, the near block, one per anchor and the raw window, in this order and each in the order of the records, the blocks standing for the older and newer half of what is kept; the counts reported are the sizes of these parts; without a cache the two blocks tell what the summarizer makes of exactly their records |
| `ContextOrder.NothingButThePrompt` | app/internal/contextbuild/builder.go:281-293 | a session without records makes for the prompt alone and touches no cache |
| `ContextOrder.FailsClosedIff` | app/internal/contextbuild/builder.go:344-416 | a build fails iff the guard fails on a record it has to render: the newest, one all later records leave room for, or an anchor |
| `ContextTexts.RecordReads` | app/internal/contextbuild/render.go:60-103 | every record reads as document lines, time, date and body, each iff role, place and settings call for it; the body is the content, cut for a tool, wrapped for user and tool |
| `ContextTexts.DocumentLines` | app/internal/llm/backend.go:162-182 | one line per known document, in the order of the ids |
| `ContextTexts.TruncatedIff` | app/internal/contextbuild/render.go:121-138 | a tool result is cut iff it is over the cap in tokens and in bytes, to exactly four bytes per token: its front and a note of the full length |
| `ContextTexts.BlockReads` | app/internal/contextbuild/builder.go:249-276 | a tier's block is its head with number and span of the records, the summary or a note that there is none, and the number of dropped records |
| `ContextTexts.TierTellsItsRecords` | app/internal/contextbuild/builder.go:225-247 | without a cache a tier tells the summary of exactly its records, if it is not blank |
| `ContextTexts.BudgetIsTheRest` | app/internal/contextbuild/builder.go:325-338 | the raw budget is what prompt and reserve leave, less the two shares rounded down, and all of it without a limit |
| `ContextTexts.LiftedAndDroppedIff` | app/internal/contextbuild/builder.go:140-193 | a record is lifted iff it touches an anchor fact, and dropped iff it touches a dead fact and no live one |
| `ContextTexts.MatchesIff` | app/internal/contextbuild/builder.go:140-153 | the tests for empty token sets add nothing to the threshold |
| `ContextGuarantees.UntrustedIsWrapped` | app/internal/contextbuild/render.go:64-103 | a user or tool record reaches the model only inside the guard's wrapping with nothing behind it, and a failing guard renders nothing |
| `ContextGuarantees.IsolatedAnchorIff` | app/internal/contextbuild/builder.go:402-415 | an anchor reads the same on its own as in place iff both neighbours call for the same time marker |
| `ContextGuarantees.AnchorLosesItsMarker` | app/internal/contextbuild/builder.go:402-415 | an anchor after a long pause and behind a record that is no anchor is sent by the build without the time marker it would carry in place |
| `ContextGuarantees.AnchorExample` | app/internal/contextbuild/builder.go:402-415 | three records and settings to which this applies |
| `ContextGuarantees.CacheTransparent` | app/internal/contextbuild/builder.go:216-246 | through a faithful cache a build shows what it shows without any cache, and leaves the cache faithful, for a summarizer that depends on role, tool name and content |
| `ContextGuarantees.SecondTimeHits` | app/internal/contextbuild/builder.go:216-246 | a tier that had to be summarised is a cache hit the next time, with the same block |
| `ContextGuarantees.RunTransparent` | app/internal/contextbuild/builder.go:216-246 | each build of any run shows what it would have shown without a cache, whatever was stored, replaced or evicted before |
| `ContextGuarantees.AllIncludedIff` | app/internal/contextbuild/builder.go:306-359 | a build sends all raw records verbatim iff the budget holds them all (or there is one) and the guard fails on none |
| `ContextGuarantees.PrefixStable` | app/internal/contextbuild/builder.go:306-419 | while the budget holds all raw records, appending records (none of role summary) only appends messages, whatever the caches hold |
| `Jaccard.AtLeastIff` | app/internal/memory/lifecycle.go:154-174 | a similarity is at least t iff the common tokens are at least that part of all, the common ones counted once |
| `GuardTag.Engine.PrepareWrap` | app/internal/chat/chat.go:91-119 | the tag is replaced iff it is empty or occurs in a user or tool record |
| `GuardTag.PreparedIsAbsent` | app/internal/chat/chat.go:65-90 | afterwards the tag occurs in no wrapped content iff it was kept or the new one occurs in none |
| `GuardTag.LeaksIsContains` | app/internal/chat/chat.go:101-118 | looking for the two fenced forms adds nothing to looking for the bare nonce |
| `GuardTag.SearchedIffWrapped` | app/internal/chat/chat.go:107-111 | the records searched for the tag are exactly those whose text is put inside it |
| `GuardTag.TurnsShareAPrefix` | app/internal/chat/chat.go:65-119 | two turns of a session that never leaked its nonce and fits the budget keep the tag, and the later request begins with the earlier one |
| `Utf8.CutsAtStarts` | app/internal/analysis/textchunker.go:167-178 | cutting valid UTF-8 anywhere but before a continuation byte leaves two valid texts |
| `TextChunker.SplitAndBreakLines` | app/internal/analysis/textchunker.go:132-165 | the loops compute Lines |
| `TextChunker.PiecesRejoin` | app/internal/analysis/textchunker.go:139-163 | the pieces of a line concatenate to the line |
| `TextChunker.Broken` | app/internal/analysis/textchunker.go:139-163 | each piece is within the width and, for a non-empty line, non-empty |
| `TextChunker.KeepsCharactersIff` | app/internal/analysis/textchunker.go:124-165 | every valid line breaks into valid pieces iff the width is at least 4 |
| `TextChunker.PiecesAreLongest` | app/internal/analysis/textchunker.go:139-163 | every piece with text behind it ends at the last character start within the width, or fills the width where there is none |
| `TextChunker.ChooseCloseIndex` | app/internal/analysis/textchunker.go:186-197 | closes before the last heading in the look-back, or at the end |
| `TextChunker.TakeOverlapTail` | app/internal/analysis/textchunker.go:216-236 | the loop computes OverlapTail |
| `TextChunker.OverlapIsLongestTail` | app/internal/analysis/textchunker.go:211-236 | the overlap is the longest tail within the overlap budget |
| `TextChunker.ChunkText` | app/internal/analysis/textchunker.go:56-122 | the loop with its early exit computes Chunked |
| `TextChunker.NothingLost` | app/internal/analysis/textchunker.go:88-113 | dropping each chunk's carried-over lines and concatenating gives back all lines in order, for any mix of headings |
| `TextChunker.ChunkTextKeepsAll` | app/internal/analysis/textchunker.go:56-122 | it fails iff the document makes more chunks than the cap; otherwise the texts read back line by line into tagged chunks whose fresh lines are the document |
| `TextChunker.ChunksReadBack` | app/internal/analysis/textchunker.go:81-122 | every text splits into its chunk's lines, no chunk is empty, and there are at most as many chunks as lines |
| `TextChunker.PlainChunks` | app/internal/analysis/textchunker.go:84-113 | without headings no chunk exceeds the larger of the target and overlap plus longest line, and each chunk opens with the overlap of the one before |
| `TextChunker.ChunksFollow` | app/internal/analysis/textchunker.go:97-109 | with headings each later chunk starts at a heading or with the overlap of the one before |
| `ChunkSizes.EachCloseIsDue` | app/internal/analysis/textchunker.go:88-113 | whenever there is a next chunk, the chunk, the lines a heading snap left behind it and the line of the document that came next exceed the target: no chunk is closed early |
| `ChunkSizes.PlainCloseIsDue` | app/internal/analysis/textchunker.go:88-94 | without headings each chunk and the first fresh line behind it exceed the target |
| `ChunkSizes.OneTextIff` | app/internal/analysis/textchunker.go:56-122 | a document makes one chunk iff it is one line or within the target, and that chunk holds all its lines |
| `ChunkSizes.HeadingIff` | app/internal/analysis/textchunker.go:203-210 | a heading is one to three hash marks and a space |
| `ChunkSizes.SharesOfTheRatio` | app/internal/analysis/textchunker.go:83-83 | overlap and look-back are the ratio of target and lines, rounded down, but at least one |
| `ChunkOrder.PlacesOfChunks` | app/internal/analysis/textchunker.go:88-113 | every chunk is the document's lines at its tracked positions |
| `ChunkOrder.ContiguousIsSlice` | app/internal/analysis/textchunker.go:88-113 | a chunk whose positions are contiguous is a slice of the lines |
| `ChunkOrder.InOrderIff` | app/internal/analysis/textchunker.go:97-109 | every chunk of a document is a contiguous run of lines iff no close both snaps at a heading and carries an overlap, the line before the heading then exceeding the overlap budget |
| `ChunkOrder.LeapExample` | app/internal/analysis/textchunker.go:103-108 | a line, a heading and a line make a second chunk that is no slice of the document |
| `ChunkOrder.LeapShowsLater` | app/internal/analysis/textchunker.go:103-108 | the chunk right after such a close can itself be in order, the break showing in the one after it |
| `TextChunker.JoinSplit` | app/internal/analysis/textchunker.go:133-133 | the split lines join to the document |
| `Summarizer.Analyze` | app/internal/analysis/summarizer.go:80-135 | the window loop computes Analyzed, failing windows included |
| `Summarizer.EvictFindings` | app/internal/analysis/summarizer.go:271-297 | the scan and the cuts compute Evicted |
| `Summarizer.KeepsTheNewest` | app/internal/analysis/summarizer.go:121-123 | evicting after every window leaves the newest high findings of the whole run, at most the cap, and the newest low ones in the room left |
| `Summarizer.NoHighLost` | app/internal/analysis/summarizer.go:276-297 | all high findings survive iff the run reported at most the cap of them |
| `Summarizer.EvictedOrder` | app/internal/analysis/summarizer.go:271-297 | within the cap nothing moves; beyond it exactly the cap is kept, the high findings in front of the others |
| `Summarizer.AnalysisKeepsTheNewest` | app/internal/analysis/summarizer.go:80-135 | a finished analysis went through exactly the announced number of windows and its findings are those |
| `Summarizer.CoverageIff` | app/internal/analysis/summarizer.go:87-105 | every row is in some window iff the step does not exceed the window or one window is enough |
| `Summarizer.WindowCount` | app/internal/analysis/summarizer.go:91-98 | the announced total counts exactly the offsets the loop visits |
| `Summarizer.SaneStep` | app/internal/analysis/summarizer.go:87-90 | with a window of at least 1 and a ratio in [0,1) the step is between 1 and the window |
| `Summarizer.FullNeighboursShare` | app/internal/analysis/summarizer.go:98-105 | two neighbouring full windows share exactly the first window minus step rows of the later one |
| `Summarizer.WindowShowsItsRows` | app/internal/analysis/summarizer.go:98-105 | a window is given exactly the rows in it, in order |
| `Summarizer.AnalyzedIff` | app/internal/analysis/summarizer.go:98-135 | an analysis succeeds iff every announced window, shown the last summary, the findings kept so far and its own rows, is answered; it returns the last summary and the findings kept from all answers |
| `AnalysisEngine.Engine.EnsureWriter` | app/internal/analysis/engine.go:138-152 | opens the read-write instance only while no reader is attached |
| `AnalysisEngine.Engine.OpenReader` | app/internal/analysis/readonly.go:128-162 | a reader is attached only after the read-write instance was closed |
| `AnalysisEngine.Engine.RefreshTableMeta` | app/internal/analysis/engine.go:838-878 | the metadata of one table as far as its queries succeed; it is the table's if none fails |
| `AnalysisEngine.RefreshedIff` | app/internal/analysis/engine.go:838-878 | it is the table's iff no query, or fetch of a column name, for a part that is not empty fails |
| `AnalysisEngine.Engine.RebuildTableMeta` | app/internal/analysis/engine.go:819-836 | opening builds the map the scan of the table list yields under the failures met; it mirrors the tables if no metadata query fails |
| `AnalysisEngine.RebuiltIff` | app/internal/analysis/engine.go:819-836 | that map mirrors the tables iff there are none, or the list is read and every listed table is fetched, scanned and read undisturbed |
| `AnalysisEngine.MissesATable` | app/internal/analysis/engine.go:819-823 | an engine in use whose one table is missing from its metadata, the query for the list having failed |
| `AnalysisEngine.Engine.LoadTable` | app/internal/analysis/engine.go:230-310 | a load succeeds iff the data file can be read and checking the path, opening the instance and creating the table work; it then creates or replaces one table with the file's rows and its metadata entry with what reading it yields, and otherwise changes no table; a mirror stays one unless a metadata query fails |
| `AnalysisEngine.Engine.CreateFromQuery` | app/internal/analysis/engine.go:326-409 | a save succeeds iff the name is an identifier neither the metadata nor the file knows, the text is a SELECT with a result, and none of the reported calls from reader to creation (and comment, if there is a description) fails, their numbers counted from the first; it then adds one table holding the result, and every other table is left alone whatever fails |
| `AnalysisEngine.Engine.QuerySQL` | app/internal/analysis/engine.go:717-769 | a query changes nothing and succeeds iff it is a SELECT with a result, attaching, parsing and running it work and fetching its rows succeeds within the cap; it returns a prefix of the result, which is all of it iff no fetch of a row failed |
| `AnalysisEngine.Engine.RunBounded` | app/internal/analysis/engine.go:508-574 | what an export writes is what fetching the rows within the cap comes to under the failures met, and the whole result iff it succeeds and no fetch failed |
| `AnalysisEngine.FetchedIff` | app/internal/analysis/engine.go:748-769 | all rows come back iff they are within the cap and no call to fetch or read one fails |
| `AnalysisEngine.ShortIff` | app/internal/analysis/engine.go:748-769 | a query succeeds without all its rows iff asking for one of them, up to the one behind the cap, is the first call to fail |
| `AnalysisEngine.ShortAnswer` | app/internal/analysis/engine.go:748-769 | two rows within the cap and a failing third call: the first row alone is the answer |
| `AnalysisEngine.Engine.PreviewTable` | app/internal/analysis/engine.go:615-679 | a preview changes nothing and succeeds iff the table is known and there and opening, asking and fetching work; without a failing call it shows the first rows, 20 or as many as asked for up to 1000 |
| `AnalysisEngine.Engine.SetTableDescription` | app/internal/analysis/engine.go:772-795 | succeeds iff the engine is in use, the table is there and the calls work; changes one comment in database and metadata, or nothing |
| `AnalysisEngine.Engine.Reset` | app/internal/analysis/engine.go:797-815 | succeeds iff opening and every drop work, and drops every listed table; after a failure the old metadata mirrors the file iff no table had been dropped |
| `AnalysisEngine.Engine.Session` | app/internal/analysis/engine.go:112-815 | over any operations and failures: never two instances on the file, agent SQL on readers only, and a mirror stays one as long as no metadata query and no drop fails |
| `Profiles.DisambiguateName` | app/internal/config/profile.go:121-138 | the counting loop ends and computes Disambiguated |
| `Profiles.NameIsFreeAndSmallest` | app/internal/config/profile.go:116-138 | the name clashes with nobody else's in any case, is the wanted one iff that is free, and else carries the smallest free number from 2 on, bounded by the number of taken names |
| `Profiles.CreateClashesIff` | app/profile_bindings.go:252-258 | among distinct names creating never clashes iff no profile has an empty id |
| `Profiles.ProfileByName` | app/internal/config/profile.go:93-114 | ambiguous iff two profiles fit the name, no match iff none does, else a profile that fits |
| `Profiles.NamesResolve` | app/internal/config/profile.go:86-92 | looking up its own name in any case finds every profile iff the names are distinct in lower case |
| `Profiles.ResolveTotal` | app/internal/config/profile.go:42-76 | a known id resolves to itself, anything else to the default profile |
| `Profiles.LoadIsUsable` | app/internal/config/config.go:583-615 | whatever the file holds, in either shape, a loaded list is non-empty and its default resolves |
| `Profiles.LoadTells` | app/internal/config/profile.go:156-199 | the file's profiles are loaded one by one, as they stand but for what they inherit, with its default if it is among them, else the first; an old block becomes one profile with its side and settings |
| `Profiles.Bindings.CreateProfile` | app/profile_bindings.go:252-287 | creation, cloning and the roll-back compute Edited |
| `Profiles.Bindings.UpdateProfile` | app/profile_bindings.go:293-358 | the update and its roll-back compute Edited |
| `Profiles.Bindings.DeleteProfile` | app/profile_bindings.go:367-396 | deletion, its refusals and the reload after a failed save compute Edited |
| `Profiles.Bindings.SetDefaultProfile` | app/profile_bindings.go:418-434 | the change of default and its roll-back compute Edited |
| `Profiles.FailuresRollBack` | app/profile_bindings.go:252-434 | a failed edit leaves the list as it was, except a delete whose save fails: what the file holds, or the shorter list if it cannot be read |
| `Profiles.EditSettles` | app/profile_bindings.go:252-434 | an edit succeeds iff what it names is there, it does not delete the default and the save it needs goes through; a created profile takes over the settings of its clone, an update or delete touches only the profile it names, a change of the default nothing else |
| `Profiles.EditsStayUsable` | app/profile_bindings.go:252-434 | no edit leaves the list empty or the default dangling |
| `Profiles.RunStaysSound` | app/profile_bindings.go:252-434 | over any run of edits, saves and failed saves the list is non-empty, its default resolves, and ids and names (ignoring case) are pairwise distinct |
| `Findings.Store.Add` | app/internal/findings/findings.go:135-169 | refuses a duplicate, else appends with the next id of the day and evicts the oldest past the cap |
| `Findings.Store.IsDuplicate` | app/internal/findings/findings.go:289-308 | true iff the content is not blank and a stored one is a duplicate under one of the three layers |
| `Findings.Store.DeleteByIDs` | app/internal/findings/findings.go:217-239 | removes exactly the findings with these ids and counts them |
| `Findings.Store.FormatForPrompt` | app/internal/findings/findings.go:246-278 | the backward loop computes Formatted |
| `Findings.PromptIsLongestTail` | app/internal/findings/findings.go:246-278 | the prompt shows the longest run of newest lines within the budget, elided plus included is the total |
| `Findings.RunStaysDeduplicated` | app/internal/findings/findings.go:135-239 | over any run of adds and deletes no two non-blank findings are duplicates and the cap holds |
| `Findings.NextIdIsNewIff` | app/internal/findings/findings.go:141-147 | the next id is new iff no finding of the day holds the number one above their count (past 999, with the same random suffix) |
| `Findings.IdsStayUnique` | app/internal/findings/findings.go:128-147 | while no finding of a day is deleted or evicted the day's ids are pairwise different |
| `Findings.DeletionReusesAnId` | app/internal/findings/findings.go:141-147 | after deleting the first of a day's findings the next one takes the id of the last |
| `NumberRender.DecimalRoundTrip` | app/internal/analysis/render.go:113-141 | the text reads back to the sign, the unscaled value and exactly Scale digits after the point |
| `NumberRender.FormatInterval` | app/internal/analysis/render.go:151-177 | the builder's text spells IntervalTokens |
| `NumberRender.IntervalRoundTripIff` | app/internal/analysis/render.go:143-177 | the text reads back to months, days and microseconds exactly iff the span is not negative or is whole seconds, and otherwise not at all |
| `NumberRender.SpelledPartsIff` | app/internal/analysis/render.go:151-160 | the parts spelled are the only ones of one sign, each within its unit, that come to the months and microseconds of the interval |
| `ExportLinks.ResolveObjectRefsForExport` | app/bindings.go:1855-1904 | the in-place loop terminates and computes the left-to-right rewrite |
| `ExportLinks.PiecesExact` | app/bindings.go:1855-1876 | the rewrite divides the text into plain stretches without a link and links without a bracket in the id, and loses nothing |
| `ExportLinks.RewriteStep` | app/bindings.go:1877-1901 | the text before a link stays, the link becomes a data URL, a missing-object mark or itself, and the rest is rewritten alike |
| `ExportLinks.LinkBecomes` | app/bindings.go:1877-1901 | an unknown id is marked as missing, an image that loads is put in its place, any other link stays as it stood |
| `ExportLinks.OthersStay` | app/bindings.go:1887-1898 | a text whose links all lead to objects that are no images, or images that do not load, is exported as it is |
| `McpNames.SplitMCPName` | app/internal/agent/agent_mcp.go:240-280 | returns what some order of visiting the guardians may return |
| `McpNames.SplitRoundTripIff` | app/internal/agent/agent_mcp.go:240-280 | an advertised name splits into its own guardian and tool iff the guardian's name has no run of dashes and no final dash, or no other guardian matches the first separator or has a longer marker |
| `McpNames.CallReachesItsToolIff` | app/internal/agent/agent.go:2563-2592 | under the same condition the call reaches the upstream tool it was advertised for |
| `McpNames.CanonInjective` | app/internal/agent/tool_name.go:25-27 | the canonical form is injective on valid guardian names |
| `McpNames.FirstSeparator` | app/internal/agent/agent.go:2682-2701 | the first separator stands behind the guardian's name iff the name has no run of dashes and no final dash |
| `McpNames.DoubleDashMisroutes` | app/internal/agent/agent_mcp.go:251-261 | with guardians a and a--b a tool of the second goes to the first |
| `Approval.Bindings.TrySend` | app/bindings.go:857-861 | the send that gives up instead of waiting is the Send step |
| `Approval.ResponsesReachTheirRequest` | app/bindings.go:231-249 | in every interleaving a request's response came from a click that read its slot, and no click answers two requests |
| `Approval.ResponseIsFinal` | app/bindings.go:243-248 | a request's response never changes once received |
| `Approval.StrayClicksChangeNothing` | app/bindings.go:850-861 | a click touches at most the request whose slot it read, and none if it saw nothing or came second |
| `Approval.ClicksNeverBlock` | app/bindings.go:850-861 | from every state a click's own steps are enabled |
| `Approval.PromptClickAnswers` | app/bindings.go:231-249 | a click on a waiting request is the one it returns, after two steps of its own |

## Left out

- Panics inside slash commands, context cancellation inside a turn and the loop-detection hints: they end a turn early or add a prompt line without touching the modelled fields.
- SwitchBackend from the bindings (app/internal/agent/agent.go:2975): a Wait with no section of its own.
- A WaitGroup's rule against an Add from zero that races a Wait: the model lets a Wait pass exactly when the count is zero.
- The kind of a SEND is an argument: parsing slash commands is not part of the model, and neither are the other commands' effects.
- The `idx:N` text is an integer in `History`; tokens, thought signatures and image URLs of a record are not modelled.
- SHA-256 is a symbolic digest that remembers its input, so collisions are outside the model, and so is the hexadecimal form of a key.
- The real summarizer also prints time stamps (app/internal/agent/agent.go:978); the transparency results assume one that does not.
- SummaryRange of a legacy summary record: its header uses the record's own time stamp.
- Image and thought fields of a message, and the Save of the cache: plumbing around the build.
- BuildMessages and BuildSystemPrompt in chat.go: one-branch concatenation.
- Floating point: shares, ratios and Jaccard scores are `real`.
- DuckDB: READ_ONLY attachment is taken at its word, closing an instance releases the file even when it reports an error, and names are case-sensitive; path validation and CSV quoting are left out.
- The other scalar renderings (UUID, BLOB, MAP, TIME): table-driven.
- ListProfiles and the agent reload after a profile edit: they do not change the list.
- Profile backend settings are opaque texts, and the save's effect on the file is an argument.
- Findings' tokenising, normalising and sanitising are parameters; only the symmetry and thresholds of the comparison are modelled.
- Descriptor tools, MITL prompts and guardian restarts in front of MCP dispatch.
- Window events and dialogs around an approval.
