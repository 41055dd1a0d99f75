# Verified model of the DevOps agent's core

A Slack agent investigates alerts on Kubernetes clusters. This project models the parts of it that have to be right whatever happens around them, and proves what they keep:

* **Scoping** (`Scope`, `ScopeProperties`, `LogQLScoping`, `PromTokens`, `PromQL`, `PromQLBodies`, `PromQLTelling`, `PromQLScoping`, `PromQLMeaning`). The scanner that holds every selector of a PromQL or LogQL query to one cluster: once as the program's loops over characters, once as a rewrite of a PromQL tree with a meaning. The two agree, and the rewrite means "on this cluster's series". For LogQL, which braces are selectors is said by an automaton over characters.
* **Clusters and routing** (`Clusters`, `BoundQueries`). From the cluster lists in the configuration, through the registry, to the server a tool call reaches.
* **Turns** (`TurnQueue`, `Scheduler`, `AcceptedWork`). The semaphore, the per-thread queue and the registry of accepted work, a transition system of all interleavings of turns, and a shutdown beside it.
* **Resolves** (`ResolveHandshake`). A resolve that may arrive, on any pod, before its incident is stored.
* **Requests** (`Budget`, `BudgetProperties`, `ResolveBudget`, `RequestAssembly`, `RequestBound`, `Compact`). What of a conversation, its skills and its tool results is sent to a model, and exactly when it fits.
* **Logs** (`RunSelection`, `Playback`, `PlaybackRoundTrip`, `Migrations`, `MigrationSafety`). Recovering one run from a thread's log, playing it back, and migrating the database from several pods at once.
* **Pages** (`Markdown`, `MarkdownProperties`, `MarkdownReading`, `TableCells`, `TopologyGraph`, `TopologyProperties`, `TopologyContents`, `ClusterModel`, `ClusterModelProperties`, `ClusterModelContents`, `ClusterGraph`, `ClusterProperties`, `ClusterMapContents`, `PageWindow`). The block renderer, the two maps, the cluster model behind one of them, and the pager.

`Text`, `Decimal` and `Sorting` are shared. Loops of the program are methods, proved equal to a function; the properties are lemmas about that function. Protocols are state machines; their lemmas hold in every reachable state of every interleaving.

## Where the code does less than it says

* A string literal in a selector can pass for a cluster matcher, and a bare metric can be spelled like a keyword: `up{job=",cluster=x"}` and `start` are left unscoped. Of the queries that have a tree here, scoping is right exactly for those in which no selector has such a literal and no bare metric such a name (`PromQLScoping.ScanAddsCluster`, `PromQLMeaning.MisreadQueryIsNotHeld`, `UnreadMetricIsNotHeld`).
* The scanner does not know comments. After `# it's`, everything up to the next apostrophe passes for a string literal; without another one the query that follows is held if and only if there was nothing to hold in it (`PromQLMeaning.ApostropheHidesQuery`).
* A mention that throws between taking its slot and its `try` (`src/app/mention.ts:195-217`) never gives the slot back. A turn can still finish exactly while fewer slots are lost than there are, or when neither it nor an earlier turn of its thread lacks one (`Scheduler.CanFinishIff`, `OneLostSlotStopsThePod`); a postmortem, which needs none, finishes unless it is behind such a turn. A shutdown needs its timer exactly when it waits for a turn that cannot finish (`AcceptedWork.EndsInTimeIff`).
* A resolve held on the investigating pod after the investigation looked for it is lost: with nothing failing, the incident is closed if and only if some webhook took one of its three steps in time (`ResolveHandshake.ClosedIffInTime`, `LateHoldIsLost`). A handover written after the Redis entry was removed leaves an entry that nothing removes; one stays exactly when that happens or the removal fails (`EntryStaysIff`, `LateHandoverOutlivesRemoval`).
* The delimiters around skills are not measured. Every conversation fits a backend if and only if each list of skills that can be kept is covered by the margin and what that backend has to spare (`RequestBound.AlwaysFitsIff`); one skill without a body overflows as soon as its name is longer than 1517 characters (`LongNameOverflowsIff`).
* A request names skills it does not carry if and only if it has no history and names some (`RequestAssembly.NamedSkillsAreCarriedIff`).
* When a turn's own rows are never written, its delegates are taken for the next turn's, which is recovered as it was if and only if there are none (`RunSelection.LostTurnLeavesItsDelegates`).
* A tool's result of more than 524288 characters, or with a zero character in it, is replayed as another text (`PlaybackRoundTrip.WrittenIsShownIff`).
* An unlock that fails leaves every other pod waiting until that session ends, and nothing else stops them (`MigrationSafety.StuckIff`, `FailedUnlockStopsTheOthers`).
* Rendering Markdown never ends on a line of three backticks and more than a word, or on a heading with a line terminator in it, as in a file with Windows line ends (`MarkdownProperties.HangsIff`, `CarriageReturnHangs`).

## Model

| member | source | states |
|---|---|---|
| `Scope.EndOfString` | src/agent/cluster/scope.ts:17-22 | the loop ends just past the literal that opens here, as the recursive reading of the literal says; an unterminated one runs to the end |
| `Scope.CloseBrace` | src/agent/cluster/scope.ts:25-33 | the index of the first closing brace outside literals, -1 exactly when there is none |
| `Scope.ScopeQuery` | src/agent/cluster/scope.ts:41-93 | the scanner's output is the query's pieces with each group and each bare metric held to the cluster, and the query itself when a brace never closes |
| `ScopeProperties.LexSource` | src/agent/cluster/scope.ts:45-91 | the pieces read are the whole query, nothing skipped or read twice |
| `ScopeProperties.NextLocal` | src/agent/cluster/scope.ts:47-90 | how a piece is read depends on no more of what follows than the next identifier, parenthesis or brace |
| `ScopeProperties.Relex` | src/agent/cluster/scope.ts:41-93 | reading a scoped query gives the held pieces back: what was inserted creates and destroys no selector |
| `ScopeProperties.ScopedIsSettled` | src/agent/cluster/scope.ts:35-38 | after scoping every group passes the cluster test and every bare metric is followed by such a group |
| `ScopeProperties.ScopingIsIdempotent` | src/agent/cluster/scope.ts:40-41 | scoping again, for whichever cluster, changes nothing |
| `ScopeProperties.UnchangedIff` | src/agent/cluster/scope.ts:40-53 | a query comes back unchanged if and only if a brace never closes or every selector already passes the test |
| `ScopeProperties.ScopingOnlyInserts` | src/agent/cluster/scope.ts:35-38 | the output differs from the query only by inserted matchers and dropped white space at the start of a body |
| `LogQLScoping.SelectorIsHeld` | src/agent/cluster/scope.ts:45-58 | in LogQL, every brace that opens outside literals, said by an automaton over characters, has its text up to its closing brace held to the cluster; the rest is scoped on either side of it |
| `LogQLScoping.NothingElseIsHeld` | src/agent/cluster/scope.ts:51-60 | a LogQL query without such a brace, or with one that is never closed, comes back as it was |
| `LogQLScoping.EverySelectorNamesCluster` | src/agent/cluster/scope.ts:1-2 | in a scoped LogQL query every brace outside literals opens a selector that names a cluster |
| `LogQLScoping.UnclosedIff` | src/agent/cluster/scope.ts:51-53 | a LogQL query is malformed if and only if the automaton ends inside braces |
| `PromTokens.ScanTokens` | src/agent/cluster/scope.ts:45-91 | any well-formed sequence of PromQL tokens, in any layout, is scanned token by token |
| `PromQLBodies.HoldIsAdd` | src/agent/cluster/scope.ts:35-38 | holding a selector's text is adding a matcher to its list, where the scanner sees the selector for what it is |
| `PromQLBodies.NamedIsSeen` | src/agent/cluster/scope.ts:14-14 | a selector that does name the cluster always passes the text test |
| `PromQLTelling.SeesCluster` | src/agent/cluster/scope.ts:14-14 | when no value has a comma or a brace in it, the text test sees a cluster matcher if and only if there is one |
| `PromQLTelling.SimpleIsTelling` | src/agent/cluster/scope.ts:12-14 | such a selector is read for what it is if and only if it has braces or its metric is none of the sixteen keywords |
| `PromQLScoping.TreeIsSequence` | src/agent/cluster/scope.ts:70-86 | the text of every PromQL tree is a sequence the scanner can follow: calls, aggregations with their modifier before or after, vector matching, ranges, subqueries, offsets |
| `PromQLScoping.ScanAddsCluster` | src/agent/cluster/scope.ts:41-93 | scanning a tree's text gives the text of the tree with the matcher added to every selector that names no cluster, if and only if no string literal in a selector passes for a cluster matcher and no bare metric is spelled like a keyword |
| `PromQLMeaning.AddedTree` | src/agent/cluster/scope.ts:35-41 | the tree with the matcher added means, on every series, what the tree means when selectors that name no cluster read that cluster's series |
| `PromQLMeaning.ScopingKeepsMeaning` | src/agent/cluster/scope.ts:1-10 | the scanned text evaluated on the whole store is the original evaluated on the cluster's series only |
| `PromQLMeaning.MisreadQueryIsNotHeld` | src/agent/cluster/scope.ts:14-36 | a concrete query that scoping leaves as it is and that then reads another cluster's series |
| `PromQLMeaning.UnreadMetricIsNotHeld` | src/agent/cluster/scope.ts:12-12 | every bare metric spelled like a keyword, `inf` and `nan` apart, is left as it is, for every cluster, and then reads another cluster's series |
| `PromQLMeaning.ApostropheHidesQuery` | src/agent/cluster/scope.ts:46-49 | of a query after a comment with one apostrophe nothing is held, for every comment of that kind and every query without one; it comes out scoped if and only if it was |
| `Clusters.ParseClusters` | src/config/index.ts:29-62 | the loop over the parts gives the entries, or the first error, that the recursive reading gives |
| `Clusters.PrintedListIsRead` | src/config/index.ts:29-62 | a printed valid list is read back as it was |
| `Clusters.AcceptedListIsValid` | src/config/index.ts:34-38 | every accepted list has valid names, none twice, and targets that were checked |
| `Clusters.AcceptedIff` | src/config/index.ts:29-62 | a list is accepted, with these entries, if and only if its parts that are not blank spell them in order, a name, an equals sign and a target with any white space around, and they are valid; everything else is refused |
| `Clusters.NamesAreDistinct` | src/agent/cluster/index.ts:27-43 | the names of an accepted registry, local cluster included, are valid and distinct |
| `Clusters.StrictIff` | src/agent/cluster/index.ts:38-43 | calls are routed by cluster if and only if a local or a remote cluster is configured |
| `Clusters.WithoutClusters` | src/agent/cluster/router.ts:79-86 | with no cluster configured every call reaches the central server as it is |
| `Clusters.ClusterToolIff` | src/agent/cluster/router.ts:7-8 | the tools of a cluster are those whose names begin with `k8s_` or `flux_` |
| `Clusters.ClusterToolsReachTheirCluster` | src/agent/cluster/router.ts:50-64 | with any cluster configured, a Kubernetes or Flux tool reaches a server if and only if it is the bound cluster's; refused exactly when none is bound or the bound one is unknown |
| `Clusters.EveryClusterIsServed` | src/agent/cluster/router.ts:50-64 | bound to any configured cluster, a cluster tool reaches that cluster's server, its input as it was |
| `Clusters.CentralToolsAreHeld` | src/agent/cluster/router.ts:68-76 | with any cluster configured, every other tool reaches the central server, with exactly the scoped query when a cluster is bound and the tool has a query language |
| `Clusters.OfferedIffServed` | src/agent/cluster/router.ts:42-48 | a tool is offered if and only if calling it reaches a server that has it |
| `BoundQueries.BoundQueryReadsItsCluster` | src/agent/cluster/router.ts:50-76 | for every configured cluster and every metrics tool, what a bound query is sent as means the original on that cluster alone, and would not be changed again |
| `TurnQueue.Semaphore.constructor` | src/app/queue.ts:7-11 | a new semaphore has no slot in use and nobody waiting |
| `TurnQueue.Semaphore.Take` | src/app/queue.ts:13-19 | the new state: a slot in use if there was one, else the caller last in the queue |
| `TurnQueue.Semaphore.Free` | src/app/queue.ts:21-28 | the new state: the slot goes to the oldest waiter, and is free only when nobody waits |
| `TurnQueue.ThreadQueue.Run` | src/app/queue.ts:60-76 | the turn becomes its thread's tail and waits for the one before |
| `TurnQueue.ThreadQueue.Settled` | src/app/queue.ts:78-80 | an entry goes only when the settling turn is still the tail |
| `TurnQueue.InFlightWork.Track` | src/app/queue.ts:96-101 | accepted work is registered under its own promise: the registry of the runs in `AcceptedWork` |
| `TurnQueue.InFlightWork.Settle` | src/app/queue.ts:98-99 | settling takes that piece of work off the registry and no other |
| `Scheduler.InvAlways` | src/app/queue.ts:7-83 | the system invariant holds in every state of every interleaving, whatever fails |
| `Scheduler.OneTurnPerThread` | src/app/queue.ts:71-82 | at most one turn of a thread has started and is not over, and a turn starts only after all earlier ones of its thread are over, however they ended |
| `Scheduler.EntryIsNewestTurn` | src/app/queue.ts:76-80 | a thread has an entry exactly while its newest turn is not done, and the entry is that turn |
| `Scheduler.SlotsAreBounded` | src/app/queue.ts:13-28 | holders and lost slots never exceed the limit, and slots are granted in the order asked |
| `Scheduler.SomethingCanMove` | src/app/alerts.ts:276-281 | no deadlock: while a slot is left, some unfinished turn can take its next step |
| `Scheduler.EventsMakeProgress` | src/app/queue.ts:60-82 | every step but an arrival brings the turns closer to their end |
| `Scheduler.RunsEnd` | src/app/queue.ts:60-82 | without arrivals no run is longer than the work left |
| `Scheduler.FinishAll` | src/app/alerts.ts:371-523 | from every reachable state with a slot left, all turns can finish |
| `Scheduler.AllSlotsLost` | src/app/mention.ts:194-217 | once every slot is lost, no turn that needs one and has had none ever gets one |
| `Scheduler.CanFinishIff` | src/app/mention.ts:194-217 | any turn, one that needs a slot or a postmortem, can still finish if and only if fewer slots are lost than there are, or neither it nor an earlier turn of its thread lacks a slot |
| `Scheduler.EveryRunFinishes` | src/app/alerts.ts:140-168 | with a slot at all and none lost, in every run an unfinished turn means a step that brings the turns closer to their end |
| `Scheduler.OneLostSlotStopsThePod` | src/app/mention.ts:194-217 | with one slot, a turn that throws before its `try` leaves the next turn waiting in a concrete run |
| `AcceptedWork.RegistryIsUnfinished` | src/app/queue.ts:93-101 | at every moment of every run the registry holds exactly the turns accepted and not over, postmortems included, each with its own thread, and the turns are those of a run of `Scheduler` |
| `AcceptedWork.IdlePodDrainsAtOnce` | src/app/queue.ts:104-105 | a drain returns at once if and only if no turn is unfinished |
| `AcceptedWork.ToldOnce` | src/app/index.ts:382-393 | a thread with work that was cut is told once, of the newest piece of it, and no other thread is told |
| `AcceptedWork.ShutdownForgetsNobody` | src/app/queue.ts:103-111 | a drain returns exactly what is unfinished as it ends; every turn it waited for is over or its thread is told; without a timeout all are over, and without arrivals nobody is told |
| `AcceptedWork.EndsInTimeIff` | src/app/queue.ts:104-109 | a drain can end before its timer if and only if a slot is left that no turn has lost, or no turn it waits for lacks one or is behind one of its thread that does |
| `ResolveHandshake.PostedAtMostOnce` | src/app/alerts.ts:287-350 | in every interleaving the close is posted at most once, and only for a closed row |
| `ResolveHandshake.ClosedIff` | src/app/alerts.ts:287-350 | when all is over, the look was taken and no later read or close failed: closed, and posted once, if and only if a webhook took a close, a hold before the look or a write of its handover, read off the events and the states before them |
| `ResolveHandshake.ClosedIffInTime` | src/app/alerts.ts:287-350 | in every run that is over and in which nothing failed: closed, and posted once, if and only if some webhook took one of its steps in time, said by counting the events before it |
| `ResolveHandshake.HandoverIsPostedOnce` | src/app/alerts.ts:302-313 | a handover written to Redis is posted exactly once, because one side always sees the other's write |
| `ResolveHandshake.LateHoldIsLost` | src/app/alerts.ts:296-300 | a concrete run, nothing failing, in which a hold left after the look is never posted |
| `ResolveHandshake.EntryStaysIff` | src/agent/inflight/index.ts:84-92 | when all is over Redis still has an entry if and only if a handover was written after the investigation ended, or the removal failed with an entry there |
| `ResolveHandshake.LateHandoverOutlivesRemoval` | src/agent/inflight/index.ts:84-92 | a concrete run, one event failing, in which a handover puts a removed entry back for good |
| `Budget.FitSkills` | src/agent/context/budget.ts:70-87 | the loop keeps the greedy choice from the stably sorted skills and names what is left, in that order |
| `Budget.FillMiddle` | src/agent/context/budget.ts:130-136 | the loop keeps the run of messages before the pinned end that the recursive fill keeps, and adds up what it costs |
| `Budget.FitToBudget` | src/agent/context/budget.ts:101-149 | the whole result: history, skills, dropped names and the number of dropped messages |
| `BudgetProperties.FillIsOptimal` | src/agent/context/budget.ts:67-87 | no choice of matched skills that fits has more of them, and the chosen ones fit |
| `BudgetProperties.NoSkillIsLost` | src/agent/context/budget.ts:75-85 | kept and dropped matched skills together are those offered, each as often |
| `BudgetProperties.FitKeepsMostSkills` | src/agent/context/budget.ts:138-148 | every always-skill is sent, followed by as many matched ones as fit beside the history; the dropped names are exactly those of the skills that are not sent |
| `BudgetProperties.FillIsLongest` | src/agent/context/budget.ts:127-136 | the middle is the longest run up to the pinned end that fits what the pins leave |
| `BudgetProperties.OpeningAndSuffix` | src/agent/context/budget.ts:89-100 | the result is the opening message and an end of the history that holds every pinned message, the newest included |
| `BudgetProperties.WhatIsSent` | src/agent/context/budget.ts:117-146 | what is sent is the opening and the history from the first message on that carries no tool result, counted from the start of the longest end, pins included, that fits; the count of dropped messages is what lies between |
| `BudgetProperties.AllIsSent` | src/agent/context/budget.ts:130-149 | when everything fits, and the second of several messages is no tool result, everything is sent and nothing is dropped |
| `BudgetProperties.LongestEndIsSent` | src/agent/context/budget.ts:127-146 | without tool results: the opening and the longest end of the history that fits |
| `BudgetProperties.MessageCounts` | src/agent/context/budget.ts:22-30 | a message is estimated by all its characters, text, content, name and input of each block, three to a token and rounded up |
| `BudgetProperties.SkillsCostNoEvidence` | src/agent/context/budget.ts:127-138 | the kept history is the same whatever matched skills are offered; kept and dropped messages add up |
| `BudgetProperties.FitsIff` | src/agent/context/budget.ts:89-125 | what is sent fits if and only if pins and always-skills do; when they do not, nothing else is sent |
| `BudgetProperties.FitKeepsPairs` | src/agent/context/budget.ts:117-146 | fitting leaves no tool result without its tool use and no tool use without its result |
| `ResolveBudget.Resolve` | src/agent/context/resolve-budget.ts:41-73 | the first smallest window and the first largest output; refused if and only if some window minus some output leaves no room |
| `ResolveBudget.BudgetSuitsEveryBackend` | src/agent/context/resolve-budget.ts:17-37 | the budget's window fits every backend's, its reserve covers every backend's output and the margin |
| `ResolveBudget.DeclaredCounts` | src/agent/context/resolve-budget.ts:4-15 | what a backend declares counts, and an unknown kind gets the smallest default window |
| `RequestAssembly.TrimToWindow` | src/agent/context/index.ts:30-38 | the loop keeps the first message and the end that starts at the first message past the cap that is no tool result |
| `RequestAssembly.WhatIsKept` | src/agent/context/index.ts:30-38 | under the cap everything; past it, the first message and all from the first one on that is no tool result among those the cap leaves room for |
| `RequestAssembly.LastOnesAreKept` | src/agent/context/index.ts:30-38 | without tool results exactly the first message and the last ones up to the cap |
| `RequestAssembly.TrimKeepsPairs` | src/agent/context/index.ts:24-38 | trimming keeps every tool pair whole and at most the cap |
| `RequestAssembly.ComposedKeepsPairs` | src/agent/context/index.ts:24-38 | trimming and fitting, in either order, keep every tool pair whole |
| `RequestAssembly.InjectionCosts` | src/agent/context/index.ts:58-76 | carrying the skills costs at most their bodies and delimiters, rounded up together |
| `RequestAssembly.NothingIsOverwritten` | src/agent/context/index.ts:58-76 | carrying the skills keeps every message, the user's first one behind the block |
| `RequestAssembly.MoreSkills` | src/agent/context/index.ts:61-63 | skills follow each other in the block in their order, a blank line between them |
| `RequestAssembly.RequestCounts` | src/agent/context/index.ts:98-113 | the estimate counts every character of the system prompt and of the tools beside the messages |
| `RequestAssembly.NamedSkillsAreCarriedIff` | src/agent/context/index.ts:58-76 | the first message carries the skills that are reported as used if and only if there is a history or none is reported |
| `RequestBound.RequestFits` | src/agent/context/index.ts:91-114 | a request whose kept skills, as sent, are covered by the margin and the backend's slack fits that backend's window with its longest answer |
| `RequestBound.FilledRequestFitsIff` | src/agent/context/index.ts:91-114 | for each number of skills that can be kept there is a conversation that fills the rest, and it fits if and only if those skills are covered |
| `RequestBound.AlwaysFitsIff` | src/agent/context/index.ts:91-114 | every conversation that can be kept fits a backend if and only if every list of skills that can be kept is covered |
| `RequestBound.AlwaysSkillsFitIff` | src/agent/context/index.ts:58-76 | with always-skills and one backend: if and only if, as sent, they cost at most the margin more than they were counted |
| `RequestBound.RequestFitsEveryWindow` | src/agent/context/index.ts:91-114 | with delimiters of at most 3072 characters the request and any backend's longest answer fit that backend's window together |
| `RequestBound.LongNameOverflowsIff` | src/agent/context/index.ts:58-63 | one skill without a body never overflows if and only if its name has at most 1517 characters |
| `RequestAssembly.RequestKeepsPairs` | src/agent/context/index.ts:91-114 | the assembled messages, skills included, have every tool pair whole |
| `Decimal.NumberOfDigits` | src/agent/context/compact.ts:4-4 | a printed count reads back as the number |
| `Decimal.DigitsGrow` | src/agent/context/compact.ts:48-53 | a larger count has no fewer digits, so the reserved notice is never too short |
| `Compact.CollapseRuns` | src/agent/context/compact.ts:14-32 | the loops give the rendered entries of the runs |
| `Compact.MarkerCounts` | src/agent/context/compact.ts:25-26 | a marker reads as the number of lines it stands for |
| `Compact.CapHolds` | src/agent/context/compact.ts:39-56 | at most 8000 characters, unchanged when compacted again; a cut text is head and tail of equal length around a notice that counts exactly what was left out |
| `Compact.CollapsedIsShort` | src/agent/context/compact.ts:14-32 | markers may be longer than the lines they stand for, but collapsing grows a text at most eightfold |
| `Compact.ExpandsToKeys` | src/agent/context/compact.ts:6-32 | expanding each marker gives back every line's key, in order |
| `Compact.CollapsedIff` | src/agent/context/compact.ts:14-32 | the entries are the only ones in which a line stands for itself and a marker stands for all further lines of a run of three or more |
| `RunSelection.SelectRun` | src/replay/trace.ts:44-73 | the loops select the rows that the declarative reading selects, or report that there is no such run |
| `RunSelection.RecoversTurn` | src/replay/trace.ts:37-73 | from any log of turns, however delegates' rows are interleaved and wherever loose rows stand, selecting a run gives exactly its delegates' rows, its own and its proposal's, in order; what delegates left at the end of the log does no harm |
| `RunSelection.RecoversLatest` | src/replay/trace.ts:48-48 | without a run id, the newest turn |
| `RunSelection.FoundIff` | src/replay/trace.ts:45-49 | a run id is found if and only if it is some turn's own run |
| `RunSelection.LostTurnLeavesItsDelegates` | src/replay/trace.ts:56-66 | at any place in any log: rows of delegates whose own turn was never written are selected with the next turn, which is recovered as it was if and only if there are none |
| `Playback.Fill` | src/replay/fakes.ts:41-47 | the loop puts every recorded row at the end of its own queue, and nowhere else |
| `Playback.ReplayLLM.Chat` | src/replay/fakes.ts:49-61 | the answer and the whole new state; a live call changes nothing; the first divergence is kept |
| `Playback.ReplayMCP.CallTool` | src/replay/fakes.ts:95-108 | the outcome and the whole new state; a call that was never recorded is answered, and marked when gates are replayed |
| `Playback.KeysAreApart` | src/replay/fakes.ts:84-98 | the joined key of a queue tells phase, thread and call apart, for threads without a bar |
| `Playback.PlayedAt` | src/replay/fakes.ts:53-60 | the n-th call of a queue gets its n-th recorded reply, and diverges exactly when there is none |
| `Playback.AnswersArePlayed` | src/replay/fakes.ts:49-61 | in any schedule a queue's answers are its recorded replies from where it stands |
| `Playback.ScheduleDoesNotMatter` | src/replay/fakes.ts:21-25 | two interleavings with the same calls per queue give the same answers and both diverge or neither does |
| `Playback.DivergesIff` | src/replay/fakes.ts:53-58 | a run diverges if and only if some queue is asked for more than it has |
| `Playback.RepeatingAt` | src/replay/fakes.ts:103-107 | the n-th call of a recorded tool queue gets the n-th result, or the last one |
| `Playback.OutcomesRepeat` | src/replay/fakes.ts:95-108 | in any schedule a tool queue's outcomes are those of its own calls, played from where it stands |
| `Playback.ToolScheduleDoesNotMatter` | src/replay/fakes.ts:64-70 | two interleavings with the same calls per tool queue give the same outcomes |
| `Playback.MarkedIff` | src/replay/fakes.ts:97-102 | a replay is marked as diverged if and only if gates are replayed and some call was never recorded |
| `PlaybackRoundTrip.PhaseIs` | src/replay/fakes.ts:18-19 | a run has the phase of the last of its start rows |
| `PlaybackRoundTrip.RecordingReplaysItself` | src/replay/fakes.ts:35-61 | the model's calls of a recording, made again in any interleaving: each queue gives all its recorded replies, in order, and the run does not diverge |
| `PlaybackRoundTrip.ToolRecordingReplaysItself` | src/replay/fakes.ts:79-108 | the tool calls of a recording, made again in any interleaving: each queue gives each recorded result once, in order, and the run is not marked |
| `PlaybackRoundTrip.WrittenIsShownIff` | src/agent/trace/index.ts:117-131 | an outcome that is recorded is replayed as it was if and only if it has no zero character and its text is not too long |
| `Migrations.PendingIsWhatIsMissing` | src/db/migrate.ts:27-29 | pending are exactly the `.sql` files not applied, each once, and of any two the earlier is a proper prefix of the later or smaller in the first character in which they differ |
| `Migrations.SmallerNumberComesFirst` | src/db/migrate.ts:27-27 | of two files that begin with numbers of equally many digits, the one with the smaller number comes first |
| `MigrationSafety.EachFileTakesEffectOnce` | src/db/migrate.ts:33-67 | with any pods, crashes, failures and lost replies: no file takes effect twice, and `schema_migrations` names exactly those that did, in that order |
| `MigrationSafety.OnePodAtATime` | src/db/migrate.ts:37-64 | at most one pod is between taking the lock and giving it back |
| `MigrationSafety.EachPodDoesItsPart` | src/db/migrate.ts:43-62 | what a pod applied it applied in lexical order, and a pod that succeeds leaves none of its files out |
| `MigrationSafety.AppliedIsAPrefix` | src/db/migrate.ts:27-62 | with one directory, what took effect is always a prefix of its sorted `.sql` files |
| `MigrationSafety.FailedUnlockStopsTheOthers` | src/db/migrate.ts:63-66 | a concrete run in which an unlock fails and the second pod waits for good |
| `MigrationSafety.StuckIff` | src/db/migrate.ts:37-66 | with a pod not through, none can move if and only if all wait for a lock kept by a pod whose unlock failed |
| `Markdown.CloseLists` | src/dashboard/markdown.ts:106-108 | the innermost lists are closed down to the depth, in order |
| `Markdown.RenderBlock` | src/dashboard/markdown.ts:111-188 | one round of the loop writes the tokens of the block that starts here and goes past its lines, or makes no progress exactly when there is none |
| `Markdown.RenderMarkdown` | src/dashboard/markdown.ts:99-193 | the output is that of the blocks, or none when the program never ends |
| `MarkdownProperties.BlocksCoverLines` | src/dashboard/markdown.ts:110-189 | every source line is in exactly one block, in order |
| `MarkdownProperties.EveryBlockIsWritten` | src/dashboard/markdown.ts:110-189 | apart from list tags, the output is each block's content, once and in order |
| `MarkdownProperties.OutputIsWellNested` | src/dashboard/markdown.ts:162-179 | list tags are balanced and at most two deep, an item is in a list of its kind at its depth, and everything else is outside lists |
| `MarkdownProperties.HangsIff` | src/dashboard/markdown.ts:181-188 | the program never ends if and only if a line-by-line reading meets a trap outside fences and tables |
| `MarkdownProperties.PlainTextIsRendered` | src/dashboard/markdown.ts:99-193 | a text without trap lines is rendered, covered and well nested |
| `MarkdownProperties.TrapIff` | src/dashboard/markdown.ts:184-184 | a trap is a line of three backticks and more than a word, or a heading whose text has a line terminator |
| `MarkdownProperties.CarriageReturnHangs` | src/dashboard/markdown.ts:133-133 | a first line that is a heading with text and a carriage return hangs the program |
| `MarkdownReading.BlocksIff` | src/dashboard/markdown.ts:110-189 | the blocks are the only ones whose lines are the text's and of which each has the content its lines spell and is as long as it can be: fences, headings, tables, items and paragraphs, said in characters and in the program's order of preference |
| `MarkdownReading.HeadingIff` | src/dashboard/markdown.ts:133-136 | a line is a heading if and only if it is one to six hashes, white space and one line of text; its level is two more than the hashes, six at most |
| `MarkdownReading.ItemIff` | src/dashboard/markdown.ts:57-62 | a line is an item if and only if it is indentation, a dash, a star or a number with a dot, white space and one line of text |
| `MarkdownReading.PartsAre` | src/dashboard/markdown.ts:75-76 | the parts of a row join to the row, and every pipe left in one has a backslash before it |
| `MarkdownReading.ItemAfterItem` | src/dashboard/markdown.ts:162-179 | an item after another joins its list, changes its kind, goes one list in or goes one list out, with no other tag written |
| `TableCells.RowRoundTrip` | src/dashboard/markdown.ts:75-83 | a printed row reads back as its cells, escaped pipes, backslashes and empty cells included |
| `TableCells.EscapedTrims` | src/agent/postmortem/facts.ts:92-96 | trimming an escaped cell is escaping the trimmed cell |
| `TopologyGraph.BuildGraph` | src/dashboard/topology-graph.ts:114-249 | the loops build the graph of the steps, part by part |
| `TopologyGraph.RenderIsInjective` | src/dashboard/topology-graph.ts:88-97 | a minted id comes from one position only |
| `TopologyProperties.EachCardOnce` | src/dashboard/topology-graph.ts:117-126 | no two cards have the same id, when no shared id looks minted |
| `TopologyProperties.EdgesJoinCards` | src/dashboard/topology-graph.ts:127-129 | both ends of every edge are cards |
| `TopologyProperties.QueueEdgesIff` | src/dashboard/topology-graph.ts:192-210 | an edge goes over the queue if and only if it leads to a backend behind the worker |
| `TopologyProperties.ExpandingOnlyAdds` | src/dashboard/topology-graph.ts:104-114 | a larger expansion set has every card and edge of a smaller one |
| `TopologyContents.CardsIff` | src/dashboard/topology-graph.ts:131-244 | the cards are those of a table by position: the agent, every caller, dependency, backend and family, and the stores and tools of those that are expanded |
| `TopologyContents.EdgesIff` | src/dashboard/topology-graph.ts:131-244 | the edges are those of that table: from callers to the agent, from the agent to dependencies, and to families and to backends behind the worker from the first dependency with the handle, or from the agent when there is none |
| `ClusterModel.Validate` | src/agent/onboarding/model.ts:105-117 | the loop keeps the edges between nodes, each once, in order |
| `ClusterModel.AssembleModel` | src/agent/onboarding/model.ts:17-79 | the loops assemble the model that the recursive reading does |
| `ClusterModelProperties.MergedOk` | src/agent/onboarding/model.ts:105-117 | an edge is kept unless an end is no node or it is there already |
| `ClusterModelProperties.AssembledIsOk` | src/agent/onboarding/model.ts:26-47 | in every assembled model nodes are what their ids say and have distinct ids, both ends of an edge are nodes, and no edge is there twice |
| `ClusterModelProperties.ExpandingAssembledOnlyAdds` | src/dashboard/cluster-graph.ts:94-109 | with every model that can be assembled, a larger expansion set has every node and edge of a smaller one |
| `ClusterModelContents.NodesIff` | src/agent/onboarding/model.ts:30-52 | the nodes are exactly the workloads, services and hosts of the inventory and the services that are depended on |
| `ClusterModelContents.EdgesAreFound` | src/agent/onboarding/model.ts:30-79 | every edge is declared by a namespace, or runs from what a caller's name stands for to what the called name does, between two nodes |
| `ClusterModelContents.FoundAreEdges` | src/agent/onboarding/model.ts:30-117 | every such edge between two nodes is in the model |
| `ClusterModelContents.ResolvedIff` | src/agent/onboarding/model.ts:57-61 | a name stands for what the first service of that name serves; without one, for the workload of that name if there is one |
| `ClusterGraph.BuildClusterGraph` | src/dashboard/cluster-graph.ts:50-111 | the loops fill the maps as the recursive reading does |
| `ClusterProperties.MapIsClosed` | src/dashboard/cluster-graph.ts:65-109 | both ends of every edge are nodes, everything but a card is in a shown and expanded namespace, and every shown namespace has its card |
| `ClusterProperties.ExpandingOnlyAdds` | src/dashboard/cluster-graph.ts:94-109 | a larger expansion set has every node and edge of a smaller one, when model and inventory agree on what a workload is |
| `ClusterMapContents.InventoryIff` | src/dashboard/cluster-graph.ts:65-93 | before the flow is drawn, nodes and edges are exactly those of the namespaces shown: cards, and in open ones workloads with their owners, services, and hosts with a service |
| `ClusterMapContents.FlowIs` | src/dashboard/cluster-graph.ts:94-109 | every further edge is a relation of the model that is not left out, and every such relation from a workload of an open namespace to something that can be shown is drawn |
| `PageWindow.PageWindow` | src/dashboard/parts.ts:271-283 | the loops give the sorted wanted pages with what stands between them |
| `PageWindow.WindowIsRight` | src/dashboard/parts.ts:263-283 | for every page of every range: expanding gives first to last, every gap hides two or more, the ends and all pages within two are offered, no other page but one alone between two of those, at most nine entries |

## Left out

- PromQL: trees with comments (what holds of one is what holds of its characters: `ScopeProperties`, `PromQLMeaning.ApostropheHidesQuery`), quoted label names, label lists with comments, `@` with a function call, and `absent` and `absent_over_time`, whose result depends on how their selector is written.
- LogQL: no tree and no meaning; that exactly the braces outside literals are held is proved over characters (`LogQLScoping`).
- UTF-16: texts are sequences of characters, and white space is the set that `\s` and `trim` share.
- The Redis lock of `ThreadQueue`, and `busy`, which looks at the tails and that lock. The time budget of a drain is an event that may come at any moment; one drain per pod; the notices' posting and wording, and the joined text of their addresses, which is exact for channels without a slash.
- Slack, HTTP, MCP, SQS and model clients: steps of the environment or parameters.
- ResolveHandshake: one investigation per alert; entries do not expire; a Redis registry that several investigations share, and the reconciler, are not modelled. An investigation that throws before the look takes none.
- ClusterModel: external hosts, where to change a release, revisions, unknowns, and the evidence of edges, of which every edge assembled has some.
- Ids with a slash in a name: ids of the cluster map are structured, which is exact for names Kubernetes allows. Captions, icons and tooltips of both maps, and the order of the cluster map's nodes, are not modelled.
- The sort of skills, of file names and of pages is a stable insertion sort in place of the built-in one.
- Migrations: a file that commits inside its own SQL, and a database that loses committed rows.
- Compact: which lines are alike is a parameter; the two patterns that mask time stamps and numbers are not modelled. Texts are shorter than 2^53 characters, as section 6.1.4 of ECMA-262 has it.
- RunSelection: `readCase`, which reads files, and logs in which rows of two turns of a thread are interleaved; turns of a thread run one at a time. A run that has lost some of its rows is one with fewer rows, as long as its start is there.
- PlaybackRoundTrip: lone surrogates, which the recorder strips and which no text here has, and what `export` redacts.
- Playback: tool definitions, usage counts and the wording of errors; a live client is a call passed on. How a call's input is brought to normal form for its key is a parameter.
- Markdown: inline code, emphasis and escaping; the HTML of a block.
- Clusters: `connect`, `disconnect`, `ping`, the dynamic scope behind the current cluster, which is a parameter here, the cluster a stored row without one stands for, and the wording of errors.
- RequestAssembly: `sanitizeContentBlocks`, which compacts each tool result; the JSON of tools and of a call's input is a text parameter.
