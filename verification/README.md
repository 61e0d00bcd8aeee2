# Verified model of demesne's job, usage, naming and pool logic

A model in Dafny 4.11 of four parts of demesne, and proofs about it. Every claim is for all
inputs, all runs or all reachable states.

**Background jobs.** `JobProtocol` is `internal/sandbox/jobs.go` as a transition system: each
compare-and-swap, field write, notifier call, `close(done)` and map access of each thread is
a step. `JobInvariants` holds what every step keeps, `JobSafety` and `JobCancel` the results
on states, waits, the reaper, shutdown and recursive cancellation, `JobEffects` what the
winner of a job does to it. `JobManager` is the same object with its two maps, updated in
place by methods that run alone.

**Usage metering.** `SseScan` scans a body line by line as it streams; `EventLines` takes the
events out of its lines; `VendorStreams` folds the events of either vendor and serves one
response end to end; `Tracker` keeps totals and the request log; `Pricing` has the catalogs.
`OutputTree` is the file tree of a run, `Rollup` the bottom-up results.json as nodes finish in
any order, `UsageReport` the top-down report, `ReportRows` what its rows stand for,
`Attribution` the subagent join.

**Names and text.** `ShellQuote`, `Utf8Tail`, `Owner` (label, /proc stat line, start-up
reaper), `Delivery`, `Spawn` (names, volumes, output directories), over `Text`, `Paths`,
`Listing` and `Sorting`.

**Idle clients.** `ClientPool` has the pool as an object and its runs with pending evictions.

Where the code does less than its comments say, the exact condition under which they hold is
proved, and a case outside it:

- `internal/sandbox/results.go:41-43` says children always finish before the roll-up. The
  code does not make them: a child finishing between the two passes is in the tokens but not
  in the children (`Rollup.WrittenTokensAreWalkTokens`, `Rollup.ChildBetweenPasses`). Likewise
  the own cost is read before usage.json is copied while the proxy still serves
  (`Rollup.WrittenTotalIsWalkCost`, `Rollup.CostBetweenReadAndCopy`).
- `internal/sandbox/jobs.go:233` says Shutdown waits for all jobs. A Start between
  registration and wg.Add escapes it (`JobSafety.ShutdownLeavesJobsTerminal`,
  `JobSafety.RacingStartOutlivesShutdown`).
- `internal/sandbox/filedelivery.go:44-45` says each source gets a unique sandbox path. A
  source already inside the delivery directory can share one with a copy
  (`Delivery.DistinctIffNoneTaken`, `Delivery.MixedSourcesCollide`), and one deeper inside is
  given a path where it is not (`Delivery.InsidePlaceIffDirect`, `Delivery.NestedSourceMisplaced`).
- `internal/sandbox/attribution.go:62` says one record per request id. There is one per
  request and message id (`Attribution.OneLinePerRequestIff`, `Attribution.TwoLinesForOneRequest`).
- `internal/mcpproxy/clients.go:38` calls the generation race-safe. It restarts at 1 for a
  respawned client (`ClientPool.StaleIffOutstandingAtSpawn`, `ClientPool.StaleEvictionHits`,
  `ClientPool.StaleEvictionReachable`).
- Inputs and fixed mounts share /in: an input may take the mount point of an agent's config
  directory or lie above the previous jobs (`Spawn.ChildMountsSeparateIff`).

Clocks, what run functions return, what the file system, the network and other processes
answer, and JSON decoding are parameters or nondeterministic steps. A job is numbered in
creation order where the program has a UUID. USD are exact reals, token counts unbounded.

## Model

| member | source | states |
|---|---|---|
| `JobInvariants.InvKept` | internal/sandbox/jobs.go:246-536 | every step of every thread (completion, panic recovery, cancels, reaper, waits, shutdown) keeps the protocol invariant |
| `JobInvariants.StepEvolves` | internal/sandbox/jobs.go:286-318 | one step never moves a terminal job's state, winner or finish time, nor the outcome once done is closed |
| `JobSafety.SettledForever` | internal/sandbox/jobs.go:144-162 | over any continuation a terminal state never changes again, so a job leaves running at most once |
| `JobSafety.StartedAsAsked` | internal/sandbox/jobs.go:250-273 | a Start registers a running job under the next id, which keeps the parent and the notifier asked for in every continuation |
| `JobSafety.NotifiedOnceWithWinningStatus` | internal/sandbox/jobs.go:304-318 | in every interleaving the notifier hears nothing or exactly the status that won, and exactly once when the winner is through |
| `JobSafety.DoneIsSettled` | internal/sandbox/jobs.go:286-288 | a closed done channel means a terminal state; a success carries the outcome run returned, a cancelled or panicked job the zero outcome |
| `JobSafety.WaitNeverTorn` | internal/sandbox/jobs.go:403-446 | the status and outcome Wait returns belong together and stay the job's for ever, although they are read in two steps |
| `JobSafety.WaitOnTerminalNeverTimesOut` | internal/sandbox/jobs.go:405-429 | a Wait that finds its job terminal never times out and is never abandoned; one that finds it running may be |
| `JobSafety.StateAndOutcomeMayBeTorn` | internal/sandbox/jobs.go:304-310 | without waiting for done the same two reads can disagree: a reachable succeeded job whose outcome is not written yet |
| `JobSafety.ShutdownLeavesJobsTerminal` | internal/sandbox/jobs.go:234-237 | when Shutdown returns every job past wg.Add is terminal; all jobs are, if and only if none is caught running between registration and wg.Add |
| `JobSafety.ShutdownWithoutRacingStart` | internal/sandbox/jobs.go:234-237 | with no Start in between at the call and none begun during it, every job ever started is terminal and done when Shutdown returns |
| `JobSafety.RacingStartOutlivesShutdown` | internal/sandbox/jobs.go:267-286 | a Start racing Shutdown can leave a running job behind |
| `JobSafety.VisitRemovesExactlyExpired` | internal/sandbox/jobs.go:522-535 | one reaper visit removes the job if and only if it is no longer running, in whatever state, and its recorded finish time lies before the cutoff; never one between its flip and finishedAt; no other job or list changes |
| `JobSafety.SweepRemovesTheExpired` | internal/sandbox/jobs.go:517-536 | over a whole sweep with anything running beside it: a job that at its start had finished, in whatever state, more than the TTL ago is gone, and every job gone is not running and finished before that cutoff |
| `JobSafety.OneListPerJob` | internal/sandbox/jobs.go:267-273 | each id sits in at most one children list, once, under its own parent |
| `JobSafety.IndexMatchesParents` | internal/sandbox/jobs.go:267-273 | a registered parent's children list is exactly the jobs started under it |
| `JobEffects.SignalledIffCancelled` | internal/sandbox/jobs.go:488-494 | in every reachable state a job's context is cancelled if and only if it was won by a cancel that is past j.cancel() |
| `JobEffects.CompleteMeansSignalled` | internal/sandbox/jobs.go:488-497 | once a Cancel has returned, every job it moved to cancelled has had its context cancelled and its notifier called |
| `JobEffects.FinishTimeIsClockAfterWin` | internal/sandbox/jobs.go:304-308 | whoever wins, the finish time is missing until the winner's next step and then is the clock of that step for ever, whatever runs in between |
| `JobCancel.CancelLeavesSubtreeTerminal` | internal/sandbox/jobs.go:452-498 | when Cancel returns (no Start beside it) the job itself is terminal, reaped by then or not, and so are all jobs joined to it by still-registered jobs, also below already terminal ones; every job it moved to cancelled has had its context cancelled and its notifier called with cancelled |
| `JobCancel.CancelFlipsBottomUp` | internal/sandbox/jobs.go:476-490 | in every interleaving a cancel moves a job to cancelled only when all its registered descendants are terminal |
| `JobCancel.CancelTerminates` | internal/sandbox/jobs.go:470-498 | a Cancel is never blocked and takes at most as many steps as the registered subtree had work at the call, however it is interleaved |
| `JobCancel.SubtreeMeansDescendants` | internal/sandbox/jobs.go:470-498 | the recursion over children lists covers every chain of registered jobs |
| `JobManager.Manager.Start` | internal/sandbox/jobs.go:267-273 | the registration part: a running job under a fresh id in its parent's list; the index stays well formed and nothing else changes |
| `JobManager.Manager.Complete` | internal/sandbox/jobs.go:299-318 | a completion wins only against a running job and then sets state, outcome, finish time and one notice; otherwise nothing changes |
| `JobManager.Manager.CancelSubtree` | internal/sandbox/jobs.go:470-498 | alone, it cancels exactly along the post-order of registered descendants, with one j.cancel() and one notice per job it flips |
| `JobManager.Manager.CancelChildren` | internal/sandbox/jobs.go:476-486 | the child loop does the post-orders of the children in list order |
| `JobManager.Manager.TryCancel` | internal/sandbox/jobs.go:488-497 | the compare-and-swap: only a running job is cancelled, stamped, signalled by j.cancel() and notified |
| `JobManager.Manager.Cancel` | internal/sandbox/jobs.go:452-466 | unknown id is an error and changes nothing; otherwise the subtree is cancelled and the state after it returned |
| `JobManager.Manager.ReapExpired` | internal/sandbox/jobs.go:517-536 | the jobs left are exactly those still running or not finished before the cutoff; lists go with their jobs and nothing else changes |
| `JobManager.Manager.Sweep` | internal/sandbox/jobs.go:522-535 | the loop over the map in any order drops exactly the stale jobs and their lists |
| `JobManager.CancelEachAt` | internal/sandbox/jobs.go:488-497 | cancelling a list of jobs changes exactly the running ones on it |
| `JobManager.CancelEachNotifies` | internal/sandbox/jobs.go:488-497 | for each running job on the list, in order, j.cancel() is called once, and the notifier once with cancelled |
| `JobManager.PostOrderIsSubtree` | internal/sandbox/jobs.go:470-498 | the visit order contains exactly the registered descendants |
| `JobManager.ChildrenFirst` | internal/sandbox/jobs.go:476-490 | no job is visited before one of its descendants |
| `JobManager.PostOrderIsDistinct` | internal/sandbox/jobs.go:470-498 | no job is tried twice |
| `SseScan.SseInterceptor.Scan` | internal/proxies/proxycommon/usage.go:47-67 | one scan delivers exactly the complete lines and keeps exactly the rest; at the end of the body the rest too |
| `SseScan.SseInterceptor.Read` | internal/proxies/proxycommon/interceptor.go:56-66 | one Read appends, scans, and scans to the end on EOF |
| `SseScan.SseInterceptor.Close` | internal/proxies/proxycommon/interceptor.go:68-74 | onClose runs on the first Close only |
| `SseScan.ScanInTwoParts` | internal/proxies/proxycommon/usage.go:47-67 | scanning a part and later the buffered rest with more bytes loses and repeats nothing |
| `SseScan.RemainderIsAfterLastNewline` | internal/proxies/proxycommon/usage.go:47-67 | what stays buffered is the part of the body after its last newline |
| `SseScan.StreamingEqualsBatch` | internal/proxies/proxycommon/interceptor.go:56-66 | for every split into reads the delivered lines and the buffer are those of the bytes read so far |
| `SseScan.WholeBodyDelivered` | internal/proxies/proxycommon/interceptor.go:56-78 | at EOF the delivered lines are the lines of the whole body, and further EOF reads add nothing |
| `SseScan.StandardLinesIffNoLoneCR` | internal/proxies/proxycommon/usage.go:44-67 | the scanner's lines are those of section 9.2.5 of the WHATWG HTML standard if and only if every CR is followed by LF |
| `Pricing.LookupFinds` | internal/proxies/proxycommon/pricing.go:14-22 | the search finds a matching entry if there is one |
| `Pricing.NoShadowingIffOneMatch` | internal/proxies/openai/pricing.go:66-71 | no prefix of another exactly if no model id can match two entries |
| `Pricing.FirstMatchIsLongest` | internal/proxies/proxycommon/pricing.go:14-22 | then the first match is the longest match, for every model id |
| `Pricing.LookupIgnoresOrder` | internal/proxies/proxycommon/pricing.go:14-22 | and the order of the catalog does not matter |
| `Pricing.CatalogsHaveNoShadowing` | internal/proxies/openai/pricing.go:66-158 | both shipped catalogs meet that hypothesis |
| `Pricing.AnthropicMillionCostsTheRate` | internal/proxies/anthropic/pricing.go:124-136 | for every id and its longest match, a million tokens of one kind alone cost that entry's rate for the kind |
| `Pricing.OpenAiMillionCostsTheRate` | internal/proxies/openai/pricing.go:189-201 | the same for uncached input, cached input and output; the total and reasoning counts are not billed |
| `Pricing.UnknownModelIsFree` | internal/proxies/anthropic/pricing.go:125-128 | an id that no entry matches costs nothing |
| `Pricing.AnthropicCostIsWeighted` | internal/proxies/anthropic/pricing.go:124-136 | any counts cost what a million of each kind costs, weighted by the counts |
| `Pricing.OpenAiCostIsWeighted` | internal/proxies/openai/pricing.go:189-201 | the same with the input split into uncached and cached |
| `Tracker.UsageTracker.Add` | internal/proxies/proxycommon/tracker.go:91-105 | totals and log become those of one more request |
| `Tracker.UsageTracker.AddDroppedParseError` | internal/proxies/proxycommon/tracker.go:109-114 | counts one dropped response, nothing else |
| `Tracker.UsageTracker.AddDroppedNoUsageBlock` | internal/proxies/proxycommon/tracker.go:119-124 | counts one response without usage, nothing else |
| `Tracker.UsageTracker.SnapshotCost` | internal/proxies/proxycommon/tracker.go:134-158 | the snapshot's cost loop adds up the vendor's cost of each model's totals |
| `Tracker.SnapshotCostIsSumOfRequests` | internal/proxies/proxycommon/tracker.go:134-158 | the snapshot cost, over the models in any order, is the sum of the costs of the single requests |
| `Tracker.LogMatchesTotals` | internal/proxies/proxycommon/tracker.go:169-206 | per model the log lines add up to the running totals |
| `Tracker.LogLineOfAdd` | internal/proxies/proxycommon/tracker.go:91-105 | the log has one line per Add, in order, with its request id, its model or unknown, and its tokens |
| `Tracker.DropsAreCounted` | internal/proxies/proxycommon/tracker.go:109-124 | each kind of drop is counted as often as it was reported |
| `Tracker.TotalsAreSums` | internal/proxies/proxycommon/tracker.go:91-105 | every count of a model's totals is the sum over its requests; unknown has those without a model too |
| `Tracker.LoggedCounts` | internal/proxies/openai/usage.go:73-79 | count by count, what a log line says of a request to either vendor |
| `Tracker.VendorsAreLinear` | internal/proxies/anthropic/pricing.go:124-136 | both vendors' costs and token counts are additive, so both facts hold for both |
| `EventLines.PayloadIff` | internal/proxies/openai/usage.go:180-187 | a line carries p if and only if it is data: and p between white space, p being neither empty nor [DONE] nor white at its ends |
| `EventLines.EventOfDataLine` | internal/proxies/openai/usage.go:184-193 | the event of such a line is what p decodes to; [DONE] is none |
| `EventLines.NoEvent` | internal/proxies/anthropic/usage.go:147-153 | any other line, and a data line without text, has no event |
| `EventLines.BodyYieldsItsMessages` | internal/proxies/anthropic/usage.go:146-166 | a body of named messages yields exactly those that decode, in order, and leaves nothing over for the end of the body |
| `VendorStreams.OpenAiFoldUsage` | internal/proxies/openai/usage.go:161-178 | over any events: the usage of the last response.completed that has one, else the first fallback usage, else none |
| `VendorStreams.OpenAiFoldModel` | internal/proxies/openai/usage.go:194-202 | the model is the last non-empty one seen |
| `VendorStreams.OpenAiFoldId` | internal/proxies/openai/usage.go:194-202 | the request id is the last non-empty one seen |
| `VendorStreams.LastCompletedCounts` | internal/proxies/openai/usage.go:161-178 | what is recorded is the usage of the last response.completed event that has one |
| `VendorStreams.FirstFallbackCounts` | internal/proxies/openai/usage.go:161-178 | if there is none, that of the first other event with usage |
| `VendorStreams.OpenAiDropsWithoutUsage` | internal/proxies/openai/usage.go:206-211 | with neither the response is dropped |
| `VendorStreams.OpenAiStream.HandleLine` | internal/proxies/openai/usage.go:180-204 | a line advances the fold by its event, or not at all if it is no data line, empty, the end marker or malformed |
| `VendorStreams.OpenAiStream.Flush` | internal/proxies/openai/usage.go:206-218 | exactly one Add or one drop, with the header's id if no event carried one |
| `VendorStreams.ServeOpenAi` | internal/proxies/openai/usage.go:109-134 | for every chunking and any number of Closes the tracker gets exactly one call, the one the body's lines call for |
| `VendorStreams.AnthropicFoldUsage` | internal/proxies/anthropic/usage.go:168-198 | over any events: the last start's usage, each field replaced by its last superseding delta; seen if and only if a start carried usage |
| `VendorStreams.AnthropicFoldModel` | internal/proxies/anthropic/usage.go:172-174 | the model is the last non-empty one of a start |
| `VendorStreams.AnthropicDropsIff` | internal/proxies/anthropic/usage.go:200-206 | a response is dropped if and only if no message_start has usage |
| `VendorStreams.LastUpdateSetsOutput` | internal/proxies/anthropic/usage.go:182-198 | output tokens are those of the last update after the last start, a zero included, else the start's |
| `VendorStreams.LastPositiveSetsInput` | internal/proxies/anthropic/usage.go:182-198 | input tokens are those of the last such update in which they are positive, else the start's |
| `VendorStreams.LastPositiveSetsCacheCreation` | internal/proxies/anthropic/usage.go:182-198 | likewise the tokens written to the cache |
| `VendorStreams.LastPositiveSetsCacheRead` | internal/proxies/anthropic/usage.go:182-198 | likewise the tokens read from it |
| `VendorStreams.AnthropicStream.HandleLine` | internal/proxies/anthropic/usage.go:146-166 | a line advances the fold by its event, or not at all |
| `VendorStreams.AnthropicStream.Flush` | internal/proxies/anthropic/usage.go:200-206 | exactly one Add or one drop |
| `VendorStreams.ServeAnthropic` | internal/proxies/anthropic/usage.go:106-126 | for every chunking and any number of Closes the tracker gets exactly one call, the one the body's lines call for |
| `VendorStreams.ServedMessages` | internal/proxies/anthropic/usage.go:106-126 | of a body of named messages the events served are those that decode, in order, whether or not its end is seen |
| `Rollup.InvKept` | internal/sandbox/results.go:46-62 | every step of every node's finish keeps each gathered or written number equal to what the disk says |
| `Rollup.TotalIsSumOfOwn` | internal/sandbox/results.go:67-88 | a written total is the sum of the own costs over the walk, which stays among finished nodes |
| `Rollup.WrittenTotalIsWalkCost` | internal/sandbox/agent.go:255-261 | in every reachable disk state a written total is at most the walk's cost, and equals it if and only if no visited node's proxy added cost between the reading and the copying; late children do not matter |
| `Rollup.CostBetweenReadAndCopy` | internal/sandbox/agent.go:256-257 | a run in which a request is served in between: the total is 0, the walk's cost 1 |
| `Rollup.WrittenTokensAreWalkTokens` | internal/sandbox/results.go:46-62 | a written token map is the walk's plus the tokens of children that finished between a node's two passes; equal if and only if these add no model and no tokens |
| `Rollup.ChildBetweenPasses` | internal/sandbox/results.go:47-48 | a reachable state in which such a child makes the two differ |
| `Rollup.FinishedOfIsSelection` | internal/sandbox/results.go:75-85 | a pass over a listing counts each finished child directory exactly once and nothing else |
| `Rollup.SumChildResults` | internal/sandbox/results.go:67-88 | the loop returns exactly the finished child directories and the sum of their totals |
| `Rollup.ReadPerModelTokens` | internal/sandbox/results.go:96-130 | the loop sums the parsed lines per model |
| `Rollup.AddPerModelTokens` | internal/sandbox/results.go:156-173 | merging adds key by key, in any map order |
| `Rollup.SumChildPerModelTokens` | internal/sandbox/results.go:134-152 | the second pass sums the token maps of exactly the finished child directories |
| `Rollup.WriteResultsAtOnce` | internal/sandbox/results.go:46-62 | with no child finishing in between, what is written is own plus children for cost and tokens |
| `UsageReport.Accumulator.ProcessUsageJson` | internal/sandbox/usagereport.go:156-186 | cost, per-model costs and drops become those of one more node |
| `UsageReport.Accumulator.ProcessUsageJsonl` | internal/sandbox/usagereport.go:190-260 | per-model tokens, subagent buckets and computed cost become those of the node's lines too, and the node's own sum is returned |
| `UsageReport.Accumulator.ProcessLine` | internal/sandbox/usagereport.go:213-257 | one line goes to its model and to exactly one bucket: its agent, (unnamed) or (main) |
| `UsageReport.Accumulator.WalkUsageNode` | internal/sandbox/usagereport.go:265-291 | the walk covers exactly the listed descendants, in order, one row each |
| `UsageReport.Accumulator.Reconcile` | internal/sandbox/usagereport.go:336-344 | the residual is added to (main), which is created if need be, and to nothing else |
| `UsageReport.Accumulator.BuildUsageReport` | internal/sandbox/usagereport.go:294-379 | the report describes exactly the walked nodes, models by id, subagents by falling cost and then by name |
| `UsageReport.MakeReport` | internal/sandbox/usagereport.go:117-131 | from a directory to the report on its walk |
| `UsageReport.RowIsTotalOfItsLines` | internal/sandbox/usagereport.go:237-257 | a bucket exists if and only if a line has its key, and is the total of exactly those lines |
| `UsageReport.BreakdownAddsUp` | internal/sandbox/usagereport.go:247-257 | however lines are grouped, the rows add up to the total |
| `UsageReport.TokenColumnIsPerModel` | internal/sandbox/usagereport.go:213-219 | grouping by model gives the same tokens as the roll-up's per-model sums |
| `UsageReport.ReportConserves` | internal/sandbox/usagereport.go:294-379 | ByModel, ByChild and BySubagent tokens all add up to TokenTypeTotals, BySubagent and ByChild costs to TotalCostUSD, Requests to the number of parsed lines; ByChild has one row per visited node |
| `UsageReport.ModelCostsConserve` | internal/sandbox/usagereport.go:311-331 | ByModel costs add up to TotalCostUSD for itemised usage.json files |
| `UsageReport.TrackerFilesAreItemised` | internal/proxies/proxycommon/tracker.go:134-165 | which is what either proxy's tracker leaves after any sequence of calls |
| `UsageReport.ResidualIsPerNode` | internal/sandbox/usagereport.go:333-344 | the residual is the sum over the nodes of cost not explained by list prices |
| `UsageReport.AnthropicNodeHasNoResidual` | internal/sandbox/usagereport.go:227-235 | files left by any sequence of Anthropic tracker calls, none included, leave no residual |
| `UsageReport.AnthropicTreeHasNoResidual` | internal/sandbox/usagereport.go:333-344 | for a tree of such nodes nothing is folded into (main) |
| `UsageReport.UnpricedNodeIsResidual` | internal/sandbox/usagereport.go:333-344 | a node is residual in full if and only if its lines' list prices add up to nothing, as they do for models without an Anthropic list price |
| `UsageReport.ReportAgreesWithResults` | internal/sandbox/usagereport.go:108-131 | top-down equals bottom-up, absent cost added in between and late children: the total is the one in results.json, every written model has a row, and the rows have the written tokens |
| `UsageReport.ReportIsDetermined` | internal/sandbox/usagereport.go:294-379 | the report is determined by the files, although its loops run over maps in any order |
| `ReportRows.AgentRow` | internal/sandbox/usagereport.go:237-257 | an agent has a row if and only if a visited node's attribution maps a line of its log to it; the row is the tokens, list prices and number of those lines |
| `ReportRows.UnnamedRow` | internal/sandbox/usagereport.go:239-245 | (unnamed) stands for the lines mapped to the empty name or to that name, and no row has the empty name |
| `ReportRows.MainRow` | internal/sandbox/usagereport.go:333-344 | (main) stands for the lines no attribution maps, or maps to that name, plus the cost no line explains; it has a row if and only if there is either |
| `ReportRows.OnlyMainWithoutAttribution` | internal/sandbox/usagereport.go:237-245 | where no attribution entry meets a visited line there is no row but (main) |
| `ReportRows.SubagentRowsInOrder` | internal/sandbox/usagereport.go:346-358 | dearer rows come first, equally dear ones by name, and no name has two rows |
| `ReportRows.ModelRow` | internal/sandbox/usagereport.go:311-331 | a model has a row if and only if a visited line or usage.json names it; the row is the tokens of those lines and the costs of those files |
| `ReportRows.ModelRowsInOrder` | internal/sandbox/usagereport.go:311-331 | models by id, each once |
| `ReportRows.NodeRow` | internal/sandbox/usagereport.go:271-283 | each node's row has its own name, depth and cost and its own log's tokens |
| `ReportRows.DropsAddUp` | internal/sandbox/usagereport.go:156-186 | each kind of drop is summed over the visited usage.json files |
| `ReportRows.VisitedIffListed` | internal/sandbox/usagereport.go:265-291 | the walk visits exactly the nodes that listings lead to from its root |
| `Attribution.ParseTranscript` | internal/sandbox/attribution.go:138-175 | for exactly the keys of qualifying lines the first line with the most output tokens is kept, over all files so far |
| `Attribution.ReadAttributionMap` | internal/sandbox/attribution.go:179-198 | for each request id the last line of the file with it |
| `Attribution.DistillAttribution` | internal/sandbox/attribution.go:73-119 | the file has the kept records of all transcripts, one per request and message id, in that order |
| `Attribution.AttributedIffSeen` | internal/sandbox/attribution.go:59-72 | a request is attributed if and only if some line qualifies it |
| `Attribution.AttributedToGreatestMessage` | internal/sandbox/attribution.go:94-119 | of its lines with the greatest message id the first with the most output tokens, once the file is written and read back |
| `Attribution.OneLinePerRequestIff` | internal/sandbox/attribution.go:59-63 | one record per request, as documented, if and only if no request occurs with two message ids |
| `Attribution.TwoLinesForOneRequest` | internal/sandbox/attribution.go:59-63 | any two qualifying lines of one request with two message ids give a file with two lines for it |
| `ShellQuote.QuoteArgs` | internal/sandbox/agent.go:852-863 | the loop builds the quoted arguments joined by single spaces |
| `ShellQuote.QuoteRoundTrip` | internal/sandbox/agent.go:847-863 | tokenized by sections 2.2.1 to 2.2.3 and 2.3 of the POSIX.1-2017 Shell Command Language the text gives exactly the arguments |
| `ShellQuote.QuotedInCommand` | internal/sandbox/agent.go:217-219 | inside a command and followed by a space it adds exactly the arguments as words, whatever was before and comes after |
| `ShellQuote.RoundTripIffNulFree` | internal/sandbox/agent.go:847-863 | the round trip holds if and only if no argument contains a NUL |
| `Utf8Tail.TailFrom` | internal/sandbox/stderr.go:34-37 | the loop stops at the first byte from the cut that is no continuation byte |
| `Utf8Tail.TailStderr` | internal/sandbox/stderr.go:30-39 | short input passes through; otherwise marker and tail |
| `Utf8Tail.TailStdout` | internal/sandbox/stderr.go:60-69 | the same with twice the limit |
| `Utf8Tail.TailOfAnyBytes` | internal/sandbox/stderr.go:25-39 | of any bytes the tail is a suffix within the limit that starts on no continuation byte; it is empty if and only if all of the last limit bytes are such |
| `Utf8Tail.TailOfValidText` | internal/sandbox/stderr.go:25-39 | of UTF-8 valid by section 4 of RFC 3629 it is valid and between limit-3 and limit bytes long |
| `Utf8Tail.SurfacedTextIsValid` | internal/sandbox/stderr.go:55-69 | valid text stays valid with an ASCII marker before it |
| `Utf8Tail.SuffixIsValid` | internal/sandbox/stderr.go:25-29 | valid text may be cut at any byte that is no continuation byte |
| `Text.ParseOfDecimal` | internal/sandbox/reaper.go:59-66 | printing and parsing are inverse on 64-bit numbers, and larger ones are rejected |
| `Text.SplitJoined` | internal/sandbox/reaper.go:51-51 | the parts have no separator and give the string back |
| `Owner.LabelReadsBack` | internal/sandbox/owner.go:82-96 | for all 64-bit pids and start times: skip if and only if the boot id is empty or has an underscore, else keep if and only if same boot and alive, else reap |
| `Owner.VerdictOnNamedOwner` | internal/sandbox/reaper.go:44-79 | the verdict on any label that names an owner, in any spelling of the numbers |
| `Owner.SkipIffNoOwner` | internal/sandbox/reaper.go:37-66 | a sandbox is left alone if and only if its label names no owner |
| `Owner.StarttimeReadsBack` | internal/sandbox/owner.go:20-48 | field 22 is found whatever the process is called, parentheses and newlines included |
| `Owner.ReapOrphans` | internal/sandbox/reaper.go:85-126 | effects, count and errors are those of exactly the victims, in order; nothing happens without a boot id or a listing |
| `Owner.VictimsExact` | internal/sandbox/reaper.go:97-102 | the victims are exactly the cases with a reap verdict |
| `Owner.SidecarRightBeforeDestroy` | internal/sandbox/reaper.go:106-122 | each victim's sidecar removal comes right before its destroy, and nothing else happens |
| `Owner.ReapedOrReported` | internal/sandbox/reaper.go:119-123 | every victim is counted as reaped or reported as a failed destroy |
| `Owner.FailuresExact` | internal/sandbox/reaper.go:106-123 | the errors are exactly the failed sidecar removals and the failed destroys of the victims |
| `Delivery.UnderIffInside` | internal/sandbox/filedelivery.go:78-84 | the relative-path check finds exactly the paths inside the directory |
| `Delivery.CleanedIsFixed` | internal/sandbox/filedelivery.go:52-53 | a clean path is cleaned to itself |
| `Delivery.CleanRules` | internal/sandbox/filedelivery.go:52-53 | empty components and . lead nowhere, .. takes back the name before it and stays at the root |
| `Delivery.UniqueBase` | internal/sandbox/filedelivery.go:88-100 | terminates with the base if free, else with the least free number |
| `Delivery.FewAreTaken` | internal/sandbox/filedelivery.go:94-99 | pigeonhole: there are at most as many taken candidates as taken names |
| `Delivery.NamesComeFromBases` | internal/sandbox/filedelivery.go:57-71 | every name given is the source's own base, or that with a number, and the latter only outside the directory and when another source has the base |
| `Delivery.CandidateInjective` | internal/sandbox/filedelivery.go:92-95 | different numbers give different candidates |
| `Delivery.CandidateIsNumbered` | internal/sandbox/filedelivery.go:92-96 | the number stands before the extension, or at the end of a name without one |
| `Delivery.Deliver` | internal/sandbox/filedelivery.go:46-73 | the loop's map and files, on failure the files as they are then, are those of delivering the cleaned sources one by one |
| `Delivery.KeysAndFrame` | internal/sandbox/filedelivery.go:51-72 | the keys are exactly the cleaned sources; files outside the directory are untouched |
| `Delivery.FailsIffMissing` | internal/sandbox/filedelivery.go:66-68 | delivery fails if and only if a source outside the directory is not there |
| `Delivery.OutsideSourcesDelivered` | internal/sandbox/filedelivery.go:40-73 | sources outside the directory get one sandbox path each and have their own content there in the end |
| `Delivery.DistinctIffNoneTaken` | internal/sandbox/filedelivery.go:44-71 | in general no two sources share a path if and only if no source inside the directory finds its base already given away |
| `Delivery.DeliveredIntact` | internal/sandbox/filedelivery.go:53-71 | and then every source outside the directory or directly in it has its own content at its destination: no copy overwrites another copy or a delivered file |
| `Delivery.InsidePlaceIffDirect` | internal/sandbox/filedelivery.go:59-60 | the path an inside source is given is its own if and only if it lies directly in the directory |
| `Delivery.NestedSourceMisplaced` | internal/sandbox/filedelivery.go:59-63 | a file deeper inside is given a path where it is not and nothing is put |
| `Delivery.MixedSourcesCollide` | internal/sandbox/filedelivery.go:59-63 | a copied file and a later one already inside with its base share one path, and the latter's content is lost |
| `Spawn.ValidateChildName` | internal/sandbox/children.go:134-152 | accepts exactly the lower-case labels of section 2.1 of RFC 1123 of at most 40 characters |
| `Spawn.PrevJobIsLabel` | internal/sandbox/children.go:127-133 | prevjob-name is a valid label again |
| `Spawn.SpawnContext.ReserveName` | internal/sandbox/children.go:54-65 | succeeds for exactly the valid unused names, which are used from then on |
| `Spawn.PreviousJobVolumes` | internal/sandbox/children.go:106-125 | one read-only volume per sibling with its name, host and mount, sorted by name |
| `Spawn.ResolveMounts` | internal/sandbox/runner.go:485-527 | succeeds if and only if all inputs are accepted and no two share a base name; then one volume each, in order |
| `Spawn.ChildVolumeNamesDistinct` | internal/sandbox/runner.go:442-468 | inherited inputs, previous jobs and own volumes of a child never share a volume name, whatever they are called |
| `Spawn.ChildMountsSeparateIff` | internal/sandbox/agent.go:751-786 | no mount point of a child is or lies inside another if and only if no input is the root directory beside other volumes of /in, is called previous-jobs beside previous jobs, or is called .agent beside an agent's config directory |
| `Spawn.OutputsDistinct` | internal/sandbox/agent.go:674-702 | in every run of spawns under any number of parents all output directories differ |
| `Spawn.SiblingsAreReserved` | internal/sandbox/children.go:54-86 | in every run recorded siblings have reserved names, and no name is reserved by two children of a parent |
| `Spawn.SnapshotIsOfOthers` | internal/sandbox/agent.go:693-697 | in every run a child's snapshot names only other children that were created, with their directories, never itself |
| `Spawn.SnapshotIsRecordedSiblings` | internal/sandbox/agent.go:693-697 | in every run a child's snapshot is fixed at its layout: the siblings recorded by then, all of them, with their directories, or none for an isolated agent |
| `Spawn.PrevJobVolumesAreLabelled` | internal/sandbox/children.go:102-125 | in every run the previous-job volumes have distinct valid labels for names and mount points apart from each other |
| `Spawn.PrevJobsAreSiblings` | internal/sandbox/children.go:106-125 | a directory is mounted at /in/previous-jobs/n if and only if it is that of sibling n |
| `Spawn.ReadOnlyIffBelowIn` | internal/sandbox/agent.go:762-786 | of a child's volumes exactly those below /in are read-only |
| `Spawn.OutputLayout` | internal/sandbox/agent.go:674-702 | in every run a child's directory is child/name below its parent's |
| `ClientPool.Pool.Acquire` | internal/mcpproxy/clients.go:200-219 | reuses and re-arms, or spawns, or fails; the whole new state is stated |
| `ClientPool.Pool.ResetIdleTimerLocked` | internal/mcpproxy/clients.go:221-228 | stops the old timer, raises the generation, arms one new timer |
| `ClientPool.Pool.Evict` | internal/mcpproxy/clients.go:230-244 | closes only on an equal generation |
| `ClientPool.Pool.Shutdown` | internal/mcpproxy/clients.go:186-198 | the loop stops, closes and forgets every client once, in any order |
| `ClientPool.LiveOrClosedOnce` | internal/mcpproxy/clients.go:186-244 | in every run a client in the map is never closed, none is closed twice, and none is lost unclosed |
| `ClientPool.OneArmedTimer` | internal/mcpproxy/clients.go:221-228 | in every run at most one timer per client is armed, and a live client's has the current generation |
| `ClientPool.EvictsIffIdle` | internal/mcpproxy/clients.go:230-244 | within one incarnation an eviction closes the client if and only if no acquire followed the arming |
| `ClientPool.CleanClientClosedOnlyIdle` | internal/mcpproxy/clients.go:230-244 | a client spawned with no earlier eviction pending is only ever evicted by its own idle timer |
| `ClientPool.StaleEvictionHits` | internal/mcpproxy/clients.go:215-227 | a pending eviction of any generation from an earlier incarnation closes the respawned client if and only if as many acquires followed the respawn, itself counted |
| `ClientPool.StaleIffOutstandingAtSpawn` | internal/mcpproxy/clients.go:200-244 | the exact condition: some run from a spawn has an eviction of an earlier incarnation close the new client if and only if a timer of that server was still armed or its eviction pending at the spawn |
| `ClientPool.StaleEvictionReachable` | internal/mcpproxy/clients.go:186-198 | and a run reaches such a state |
| `ClientPool.ShutdownClosesAll` | internal/mcpproxy/clients.go:186-198 | after Shutdown every client ever spawned was closed exactly once |
| `ClientPool.ShutdownStopsTimers` | internal/mcpproxy/clients.go:186-198 | Shutdown leaves the timer of no client that it closes armed |

## Left out

- Docker, OpenSandbox, HTTP, sockets, OAuth, tool registration, configuration loading and model resolution: calls into code outside these cores.
- `Status` of jobs: best effort and unsynchronised with the outcome write; `JobSafety.StateAndOutcomeMayBeTorn` shows what it may see.
- A notifier that panics inside the recover handler: it ends the process.
- A parent handle given to Start that was never issued: parents are earlier jobs.
- Timeouts of Wait: a nondeterministic step; the clock only moves forward.
- The one lock a sweep holds: visits are separate steps, which allows more interleavings than the code.
- `JobManager.Manager.Start`: the launch of the goroutine is in JobProtocol only.
- Shutdown's cancelling of the root context: `ctxCancelled` of a job is j.cancel() alone, and a run may return at any time.
- JSON and TOML parsing, timestamps in logs, Unicode white space in TrimSpace: lines arrive decoded, trimming is ASCII.
- The non-streaming JSON interceptor: it calls the tracker at every Close of a body that is not empty, so a second Close counts twice; only the streaming one is modelled.
- Float rounding and 64-bit overflow of token counts, generations and job counts.
- A proxy whose cost falls or whose usage files go away while a node finishes.
- Failing writes of results.json, usage files and delivered files: writes succeed.
- The path check of a report directory and the text formatters of a report.
- `ShellQuote.QuoteRoundTrip`: IO_NUMBERs, reserved words, aliases and here-documents are not told apart; unquoted expansions end the tokenizer.
- `Delivery.Deliver`: relative source paths, symbolic links and directories in the way of a copy are not modelled.
- The texts of the truncation markers: any ASCII text.
- Which process a pid and start time belong to: the liveness check is a parameter.
- Agent-side tampering with files, retry loops, allow-list checks of mounts.
