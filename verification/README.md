# Verified model of the proxy's core

A Dafny model of the parts of this LLM proxy whose correctness is not visible in any one function,
with proofs of what they guarantee. `dafny verify dfyconfig.toml` checks the whole project.

What is modelled, one module per component:

- **Load balancing** (`WeightedStrategy`, `WeightedFairness`, `Pools`, over `Sums` and `Deployments`):
  smooth weighted round-robin over a mutable map of running weights. Its exact fairness follows from
  a global potential: the weights sum to zero and any group of j keys is bounded by a harmonic tail.
- **Failover** (`Health`, `Routing`, `Router`, `RoutingProofs`, `RoutingPicks`, `RoutingRuns`,
  `RoutingHealth`): cooldown, backoff, sticky sessions and the three routing loops. The loops are
  methods proved equal to recursive specifications; what is guaranteed is then proved of these, for
  every behaviour of callbacks, strategies, budgets, clocks, random numbers and callers.
- **Quotas** (`Capacity`, `CapacityRuns`): reservations with late, once-only settlement, read as a
  ledger over arbitrary interleavings.
- **Streaming** (`Messages`, `ChatMessages`, `StreamEncoding`, `StreamDecoding`, `ChatResponse`,
  `ChunkReading`, `Reencoding`, `ServerSentEvents`): the incremental encoder against a grammar of
  event streams, the decoder in the other direction, both together, and the record reader under
  them.
- **Request accounting** (`Decimals`, `Tokens`, `Pricing`, `Accounting`, `AccountingHistory`,
  `AccountingRuns`): exact decimals, token normalization in 64 bits, cost selection, snapshots and
  resumption.
- **Finalization** (`AccountingStore`, `SpendTotals`, `Finalization`, `Finalizers`, `Settlements`,
  `Charges`): the database transaction that decides who wins, the race of request completion, worker
  and cancellation as a state machine with crashes, and the finalizing code as steps of it.
- **Decision dialects** (`Decisions`, `QuestionForms`, `DecisionProofs`, `DecisionAnswers`,
  `AnswerForms`, `DecisionResponses`): questions, answers and whole responses translated between
  Decisions and System One.
- **Usage reports** (`UsageReports`): calendar buckets and the sums over them.

Objects that the source updates in place are classes here, and each of their methods is proved
against a function of the old state. Each mutex section and each SQL statement or transaction is one
atomic step. Money is counted in units of 10^-36, times in nanoseconds.

## Where the code falls short of a stated intent

The model follows the code. Where an expected property fails, the exact condition is proved.

- Fairness needs pairwise distinct deployment keys, and the key leaves out the API key: of two
  deployments that differ only in their API key, the later one is never picked
  (`FairIffKeysDistinct`, `ShadowedIsNeverPicked`).
- A negative number of retries makes the path without pools return neither a deployment nor an error
  (`LegacyIsCorrect`).
- The comment at `internal/router/sticky.go:191-194` calls searching from the right fragile and then does
  it; it recovers session and pool exactly when pool names have no colon (`SplitRecoversIff`).
- The status of a background job can go back from an end state to running, because
  `UpdateResponsesJob` does not test the old status. An end is kept through a run exactly if the run
  stores no in-progress answer about the job (`EndStaysIff`). Once it is lost and the accounting
  record is final, nothing brings it back, and the worker polls the job for ever (`StatusCanRegress`,
  `MayEndIff`).
- A usage header that arrives after bodies replaces the total without looking at the counts
  (`HeaderKeepsConsistency`).
- Restoring a record guesses whether its evidence came from a raw body, so evidence gathered later
  can differ from an uninterrupted run (`EvidenceSurvivesIff`); counts and costs cannot.
- A System One answer of type `predicate` with a `noul` value is accepted as valid, but only answers
  of type `noul` are renamed, so the Decisions caller gets no probability (`PlainAnswerIsValidIff`),
  and the whole response does not come back (`ResponseReturns`). If such an answer carries a
  probability too, it comes back as type `noul` with that probability as its value, which is the
  value it had exactly if the two were equal (`AnswerReturns`).
- Re-encoding an Anthropic stream changes stop reasons outside the six shared ones and drops counts
  of cached tokens when there is neither input nor output (`WhatSurvives`).
- A minute can see more requests than the limit: up to `2*rpm - 1` without a token limit and `2*rpm`
  with one, and both are reached for every limit (`MinuteBoundHolds`, `MinuteBoundIsReached`). Every
  minute keeps within the limit exactly if that is one request and there is no token limit
  (`MinuteKeepsLimitIff`).
- The comment at `internal/router/headers.go:34` says that all attempted deployments are listed. A run
  over several pools lists only those of one pass: of the one that served, or of the first if none
  did. The list is complete exactly if no other pass had both a budget and a member to try
  (`ListsAllTriedIff`); both cases fail after a first pool breaks and runs out of budget
  (`TriesAreForgotten`).
- A Decisions answer may list probabilities for only some of the declared names. It is valid and
  translated for System One, but refused on the way back (`IncompleteListIsRefused`). An answer returns
  exactly if it has no list or one that covers every declared name (`PlainAnswerReturns`), and a whole
  response exactly if all its answers do (`PlainResponseReturns`).

## Model

| member | source | states |
|---|---|---|
| `WeightedStrategy.WeightedRoundRobin.Select` | internal/router/wrr.go:46-85 | One selection over the mutable weight map: the new map and the pick are exactly the ones of the step function, and no pick comes from an empty list. |
| `WeightedStrategy.BestIsFirstLargest` | internal/router/wrr.go:67-80 | The pick holds the largest running weight, and every earlier entry holds strictly less: ties go to the first. |
| `WeightedStrategy.NoChoice` | internal/router/wrr.go:47-52 | No deployment or a single one is answered without touching the running weights. |
| `WeightedFairness.WeightsAlwaysSumToZero` | internal/router/wrr.go:46-93 | However the list of healthy deployments changes from call to call, the running weights sum to 0. |
| `WeightedFairness.StepKeepsBalance` | internal/router/wrr.go:46-85 | Every selection preserves the potential bound: a group of j keys carries at most T times a tail of the harmonic series. |
| `WeightedFairness.RunningWeightBounds` | internal/router/wrr.go:46-85 | For distinct keys and positive weights every running weight stays strictly above -T and below T(1/2+...+1/n). |
| `WeightedFairness.RunningWeightIsTheDebt` | internal/router/wrr.go:46-85 | After k calls a running weight is k times the weight less T times the picks so far. |
| `WeightedFairness.CountsFollowWeights` | internal/router/wrr.go:46-85 | After k calls every count c satisfies k*w/T - H(n) + 1 <= c < k*w/T + 1, a logarithmic bound sharper than n - 1. |
| `WeightedFairness.WholeRoundsAreExact` | internal/router/wrr.go:46-85 | After m*T calls every count is exactly m*w and every running weight is 0 again. |
| `WeightedFairness.RoundsFollowTheMap` | internal/router/wrr.go:46-93 | In whole rounds each listed key is picked as often as the weight map says, and a key it lacks once per round. |
| `WeightedFairness.ShadowedIsNeverPicked` | internal/router/wrr.go:55-80 | A deployment whose key already occurs earlier in the list is never picked, ever. |
| `WeightedFairness.FairIffKeysDistinct` | internal/router/wrr.go:46-93 | The fairness bound holds for all k and all entries if and only if the deployment keys are pairwise distinct. |
| `Pools.BuildPool` | internal/router/router.go:552-569 | Members in configured order; every member has a weight of at least one, and for a key listed twice the last entry decides. |
| `Pools.ConfiguredPoolIsFairIff` | internal/router/router.go:552-574 | Weights as the configuration builds them meet the fairness precondition, so a pool is fair for ever iff its keys are distinct. |
| `Pools.SharesAreConfigured` | internal/router/router.go:552-574 | In whole rounds a pool member is picked in proportion to the weight of the last entry that lists its key, and entries without a positive weight count as one. |
| `Health.CooldownManager.InCooldown` | internal/router/cooldown.go:30-49 | Says whether the cooldown is running; an expired one is removed and the failures forgotten. |
| `Health.CooldownManager.ReportSuccess` | internal/router/cooldown.go:52-57 | Clears the failures and the cooldown of that deployment only. |
| `Health.CooldownManager.ReportFailure` | internal/router/cooldown.go:60-68 | One more failure; a cooldown starts or is extended exactly when the count reaches the allowed number. |
| `Health.CooldownNeedsFailures` | internal/router/cooldown.go:30-68 | After any history, a deployment with a cooldown has failed at least once and at least the allowed number of times since its last success. |
| `Health.CooldownIff` | internal/router/cooldown.go:30-68 | After any history of looks, successes and failures, a deployment has a cooldown iff its unbroken streak of failures is not empty and as long as allowed; it then ends exactly one period after the last of them. |
| `Health.CoolingIff` | internal/router/cooldown.go:30-68 | So it is barred at a moment iff that streak is long enough and its last failure less than a period ago. |
| `Health.BackoffManager.InBackoff` | internal/router/backoff.go:39-47 | True exactly before the stored retry time. |
| `Health.BackoffManager.ReportRateLimit` | internal/router/backoff.go:53-79 | One more attempt; the wait is the one the server asked for, or else a jitter below the cap. |
| `Health.BackoffManager.Reset` | internal/router/backoff.go:83-87 | Forgets that key and nothing else. |
| `Health.BackoffManager.RetryAfter` | internal/router/backoff.go:99-108 | The remaining wait, and zero if there is none. |
| `Health.JitterCapIsExact` | internal/router/backoff.go:68-75 | Although doubling overflows 64 bits after enough attempts, the cap is min(1s * 2^attempts, 60s) for every number of attempts. |
| `Health.BackoffIff` | internal/router/backoff.go:39-87 | After any history of rate limits and resets, a key backs off at a moment iff its last rate limit is not followed by a reset and its wait, the server's own or the draw below the cap for its number of strikes, is not over. |
| `Health.StickySessionManager.Get` | internal/router/sticky.go:64-91 | A live session gives its deployment and is renewed; an expired one is dropped. |
| `Health.StickySessionManager.Set` | internal/router/sticky.go:94-104 | Binds that session and pool, marked for saving, and changes nothing else. |
| `Health.SessionLivesIff` | internal/router/sticky.go:64-104 | After any history of bindings and lookups, a session of a pool has a deployment iff it was bound and no gap between its uses, or since the last, exceeded the time to live; it is the one bound last. |
| `Health.SplitCacheKey` | internal/router/sticky.go:195-202 | The backward search computes the split at the last colon. |
| `Health.SplitRecoversIff` | internal/router/sticky.go:191-202 | A stored key splits back into its session and pool iff the pool name has no colon. |
| `Router.RemoveDeployment` | internal/router/route.go:331-339 | Keeps the order and removes every occurrence, as the specification function does. |
| `Router.FindDeploymentByKey` | internal/router/route.go:249-256 | The first deployment with the key, or none if no deployment has it. |
| `Router.Router.HealthyMembers` | internal/router/route.go:142-147 | The list of candidates now, and the cooldowns that looking at them ends. |
| `Router.Router.Attempt` | internal/router/route.go:189-232 | One call with what is reported about it: a failure, an upstream rate limit, or nothing. |
| `Router.Router.NoDeployment` | internal/router/route.go:342-357 | The error when nothing could be tried: the shortest backoff, or unavailability. |
| `Router.Router.TryAll` | internal/router/route.go:189-233 | The failover loop computes exactly the tries, reports and result of the specification. |
| `Router.Router.TryPass` | internal/router/route.go:152-233 | The same with the session's deployment tried first. |
| `Router.Router.RoutePool` | internal/router/route.go:125-246 | A whole pass over a pool: result, tries and the new health and session memory equal the specified run. |
| `Router.Router.GetDeploymentWithRetry` | internal/router/router.go:159-181 | The strategy's choice among healthy deployments that were not tried yet, or none. |
| `Router.Router.TryLegacy` | internal/router/route.go:270-325 | The retry loop without pools computes the specified run. |
| `Router.Router.RouteLegacy` | internal/router/route.go:260-328 | The path without pools: result, tries and memory equal the specified run, with its errors for an unknown model and for nothing healthy. |
| `Router.Router.OtherServing` | internal/router/route.go:73-88 | All other pools that serve the model, each exactly once, and no others, in some order. |
| `Router.Router.RouteOthers` | internal/router/route.go:90-101 | Trying the other pools in turn, carrying reasons forward, as specified. |
| `Router.Router.Route` | internal/router/route.go:50-110 | Routing as a whole equals the specified run over the first pool and, where the source consults them, all other pools serving the model, each once. |
| `RoutingProofs.PassIsCorrect` | internal/router/route.go:125-246 | One pass gives exactly one of a served deployment (the last tried) and an error; tries only eligible members neither cooling nor backing off, none twice, none without budget; and if it fails other than by a refused request or a departed caller, it tried every candidate. |
| `RoutingProofs.HealthIsAFold` | internal/router/route.go:203-228 | Reporting the tries of one pass adds to failures and rate-limit attempts exactly the tries that broke or got an upstream 429; local rejections, refusals and successes change nothing. |
| `RoutingProofs.BrokenAtMostOnce` | internal/router/route.go:189-233 | Within a pass each deployment is reported as failed at most once, and exactly if its try broke. |
| `RoutingProofs.SessionFollowsSuccess` | internal/router/route.go:157-175 | After a pooled success with a session, that session is bound to the deployment that served, for the whole time to live. |
| `RoutingProofs.WaitIsTheShortest` | internal/router/route.go:342-351 | The advised wait is the shortest among the deployments backing off, and zero iff none is. |
| `RoutingProofs.LegacyIsCorrect` | internal/router/route.go:260-328 | At most numRetries + 1 eligible deployments, none twice; exactly one of deployment and error, and neither iff numRetries is negative. |
| `RoutingProofs.LegacyGivesUpOnlyWhenNothingIsLeft` | internal/router/route.go:270-328 | A failure (other than a refused request or a departed caller) that leaves retries unused means every eligible deployment not tried is cooling down or backing off. |
| `RoutingPicks.PassOrder` | internal/router/route.go:142-233 | A pass tries the session's deployment first, if it may be tried, and after that each time the strategy's choice among what is left, in pool order, of the eligible members neither cooling nor backing off. |
| `RoutingPicks.LegacyOrder` | internal/router/route.go:270-325 | Without pools every try is the strategy's choice among the untried eligible deployments that are ready at that moment, given what the tries before it left in memory. |
| `RoutingPicks.RouteIsAnswered` | internal/router/route.go:48-60 | On every path each try gives the reply of the deployment tried, or that the caller is gone by then; a caller gone from the start is told so and nothing is tried or remembered. |
| `RoutingPicks.PassUsesSession` | internal/router/route.go:142-233 | A pass looks its session up once and binds it to the deployment that served, at that time, unless only the bound one was tried; no other session is touched. |
| `RoutingPicks.PassTellsCaller` | internal/router/route.go:125-246 | A pass reports the outcome of its last try, or the shortest wait if nothing could be tried, and adds one reason for each failed try in order, or one for a missing budget. |
| `RoutingPicks.LegacyTellsCaller` | internal/router/route.go:260-328 | The same without pools, where an unknown model is reported as that. |
| `RoutingRuns.PassesAreInOrder` | internal/router/route.go:50-101 | A run consults the model's pool first and then, exactly if that failed and is out of budget or has no eligible member, the others in order; each pass starts from the memory, count and reasons the failed one before it left. |
| `RoutingRuns.RunFollowsPasses` | internal/router/route.go:50-110 | What a run tried, remembers and returns is what its passes say: it succeeds iff its last pass does, and a failed run that went on has consulted every other pool. |
| `RoutingRuns.ListsAllTriedIff` | internal/router/headers.go:34-42 | A run lists all deployments it tried iff no pass but the one it tells of (the one that served, else the first) had both a budget and a member to try. |
| `RoutingRuns.TriesAreForgotten` | internal/router/route.go:60-109 | Two pools whose first deployment breaks and whose budget then runs out: the run served by the second lists only what that tried, the failed run only what the first tried. |
| `RoutingRuns.RouteDecides` | internal/router/route.go:50-110 | Routing ends with exactly one of a served deployment, the last one tried, and an error; with neither iff there is no pool and numRetries is negative. |
| `RoutingRuns.FailureIsExhaustive` | internal/router/route.go:60-246 | A failed run is reported as exhausted budgets iff a consulted pool had no budget at its turn; and in each consulted pool with a budget, whose pass was neither refused nor abandoned, every candidate was tried. |
| `RoutingHealth.RouteIsAccounted` | internal/router/route.go:50-328 | On every path (pool, other pools, no pool) the cooldowns left behind are exactly those of the looks and of one failure per broken try, at its time and in order, and the backoffs exactly those of the upstream 429s. |
| `RoutingHealth.RoutingCoolsOnlyFailures` | internal/router/cooldown.go:30-68 | A deployment that has a cooldown after a run failed as often as allowed, and at least once, counting its failures since its last success before the run and its broken tries in it. |
| `RoutingHealth.RoutingCools` | internal/router/route.go:203-228 | After its last broken try in a run, a deployment whose failures reach the allowed number is no candidate of any pass for one period from that try, and one again after it unless something else bars it; a single broken try adds one failure. |
| `Capacity.CapacityLimiter.Reserve` | internal/router/capacity.go:56-83 | Admission, rejection with the remaining wait, or no limit; the window is replaced after a minute even when the request is turned away. |
| `Capacity.CapacityReservation.Finish` | internal/router/capacity.go:84-102 | Only the first call settles, only with known usage, and only if the admission's window is still there. |
| `Capacity.CapacityStream.Recv` | internal/router/capacity.go:110-119 | Keeps the last usage seen and settles with it at the end of the stream. |
| `Capacity.CapacityStream.Close` | internal/router/capacity.go:120 | Closing settles an unfinished reservation and leaves a finished one alone. |
| `Capacity.Invoke` | internal/router/capacity.go:121-171 | What each ending of a guarded call settles with: a snapshot first, zero for an HTTP error, the estimate for a transport error, later for streams and deferred calls. |
| `CapacityRuns.LedgerIsBalanced` | internal/router/capacity.go:56-102 | After any interleaving and with any clock, a window counts exactly its admissions, and its tokens are the actual tokens of settled ones plus the estimates of the others; starts of one key are at least a minute apart. |
| `CapacityRuns.LateFinishesChangeNothing` | internal/router/capacity.go:84-102 | A second finish changes nothing, and a finish from a replaced window does not touch the windows. |
| `CapacityRuns.RequestsWithinLimit` | internal/router/capacity.go:73-76 | With one request limit per key, no window ever, past or present, admits more. |
| `CapacityRuns.TokensWithinLimit` | internal/router/capacity.go:73-81 | Tokens exceed the limit by at most what actual usage exceeded its reservations. |
| `CapacityRuns.TokensNeverExceed` | internal/router/capacity.go:73-81 | With one limit per key and usage within its reservations, tokens never exceed the limit. |
| `CapacityRuns.SlidingWindowBound` | internal/router/capacity.go:67-82 | With a clock that does not run backwards, any 60 seconds (both ends included) see at most twice the request limit. |
| `CapacityRuns.MinuteBoundHolds` | internal/router/capacity.go:67-82 | No half-open minute of any run with a clock that does not run backwards sees more than 2*rpm - 1 admissions without a token limit, or 2*rpm with one. |
| `CapacityRuns.MinuteBoundIsReached` | internal/router/capacity.go:67-82 | For every request limit, with and without a token limit, there is a run that reaches that bound. |
| `CapacityRuns.MinuteKeepsLimitIff` | internal/router/capacity.go:67-82 | Every minute of every run keeps within the request limit iff the limit is one request and there is no token limit. |
| `CapacityRuns.AdmittedIff` | internal/router/capacity.go:56-81 | Over any run, a request of a limited deployment is admitted iff one more request and its estimate, at least one token, fit into what the admissions of the running window leave; it counts there, or in a new window that starts now. |
| `CapacityRuns.WaitIsExact` | internal/router/capacity.go:67-81 | A request that is turned away is turned away again until the wait it was told is over, and from then on admitted unless it alone exceeds the token limit. |
| `CapacityRuns.CallCosts` | internal/router/capacity.go:84-160 | An admitted call has cost its window one request and, by its ending, the usage known of the attempt, what the response says, nothing for an HTTP error, or else what was set aside. |
| `StreamEncoding.StreamEncoder.Start` | internal/anthropic/stream.go:58-66 | Writes one message start, once. |
| `StreamEncoding.StreamEncoder.StartTool` | internal/anthropic/stream.go:68-80 | Opens the tool's block under the next index and sends the arguments collected so far. |
| `StreamEncoding.StreamEncoder.WriteChunk` | internal/anthropic/stream.go:82-140 | On success the written events follow the grammar and are in step with the accumulated message; with a working writer it fails only for a chunk the message cannot absorb. |
| `StreamEncoding.StreamEncoder.Finish` | internal/anthropic/stream.go:142-169 | If it succeeds, the events are one well-formed stream whose blocks were stopped once each in order, and spell the accumulated message; otherwise no message stop was written. |
| `StreamEncoding.StreamEncoder.StartRemainingTools` | internal/anthropic/stream.go:143-154 | Tools that got no arguments are started late; fails iff one lacks an id, a name or a usable input. |
| `StreamEncoding.StreamEncoder.StopBlocks` | internal/anthropic/stream.go:155-159 | Stops the blocks 0, 1, 2, ... exactly once each. |
| `ChunkReading.ChunksSpell` | internal/anthropic/stream.go:82-140 | A stream of chunks is refused iff some delta of the first choice changes an id or name after arguments or gives arguments before both; otherwise the message is the joined texts, the last finish reason, and per tool index, by first mention, everything said about it joined. |
| `ChunkReading.StartIsFirst` | internal/anthropic/stream.go:58-67 | The usage at the start is the input side of the first chunk, whatever later chunks say. |
| `ChatResponse.FromChat` | internal/anthropic/response.go:73-120 | The non-streaming conversion equals the specified one: refusing missing messages, unknown parts, nameless calls and inputs that are no objects. |
| `ChatResponse.AnswerableIff` | internal/anthropic/response.go:62-120 | A completion is converted iff it has a first message made of texts only and every call has an id, a name and arguments that are empty or an object. |
| `ChatResponse.ResponseCarries` | internal/anthropic/response.go:40-120 | The response holds exactly the texts and then the calls, in order, {} for empty arguments, the usage field by field, and the stop reason that each finish reason stands for. |
| `ChatResponse.StreamingAgrees` | internal/anthropic/stream.go:82-169 | Whatever the encoder finished successfully, the non-streaming conversion of the accumulated message accepts too, with the same text, tools (no arguments read as {}), stop reason and usage; the stop sequences agree iff the reason is stop_sequence or there is none. |
| `StreamDecoding.StreamDecoder.Translate` | internal/provider/anthropic/anthropic.go:411-523 | One event to one chunk or none, with the counts and tool indices kept between events. |
| `Reencoding.EveryEventFollows` | internal/provider/anthropic/anthropic.go:411-523 | Each decoded event, once encoded, keeps the accumulated message equal to what the original stream has said so far. |
| `Reencoding.Reencode` | internal/api/handler/chat.go:430-500 | For every readable original stream, whole or cut short: decoding and encoding succeed iff it is complete with usable tool inputs, and the result has the same text, the same tools, stop sequence, mapped stop reason and usage. |
| `Reencoding.CompleteIffUsable` | internal/anthropic/stream.go:142-154 | The encoder can finish exactly when every tool of the original stream has a usable input. |
| `Reencoding.WhatSurvives` | internal/provider/anthropic/anthropic.go:626-637 | The stop reason survives iff it is one of the six both mappings know; the final counts survive iff input or output was counted or nothing was. |
| `Reencoding.UsageIsTold` | internal/provider/anthropic/anthropic.go:411-523 | Decoded chunks carry usage exactly at the message delta and only if input or output is positive: the start's input and cache counts, the delta's output, and as total the sum of input and output. |
| `Reencoding.FinishReasons` | internal/provider/anthropic/anthropic.go:485-510 | Which finish reason and stop sequence each stop reason of the original stream becomes. |
| `Decimals.FormatReadsBack` | internal/accounting/accounting.go:528-535 | Formatting any whole number of 10^-36 reads back as that number. |
| `Decimals.DecimalIsIdempotent` | internal/accounting/accounting.go:507-527 | An accepted decimal's normal form is accepted and normalizes to itself: it always fits the length and size limits. |
| `Decimals.WrittenIsParsed` | internal/accounting/accounting.go:504 | Every number written as digits, with at most one point and an optional e or E, sign and digits, is parsed as what it means. |
| `Decimals.ParsedIsWritten` | internal/accounting/accounting.go:504 | Nothing else is parsed. |
| `Decimals.DecimalIff` | internal/accounting/accounting.go:507-527 | Such a number is accepted iff it has at most 128 characters, a power of ten within 36, a value with 36 places, and some fraction of that value has a 256-bit numerator; the result denotes the same number. |
| `Decimals.AcceptedIsWritten` | internal/accounting/accounting.go:504-512 | No other string is accepted. |
| `Decimals.UnitsAreTheValue` | internal/accounting/accounting.go:513-526 | A literal is accepted as u units iff the rational number it denotes is u times 10^-36. |
| `Decimals.CanonicalFormsDecideEquality` | internal/accounting/accounting.go:507-527 | Two accepted strings denote the same rational iff their normal forms are equal. |
| `Decimals.Sum` | internal/accounting/accounting.go:536-545 | The loop formats the sum of the units of all values. |
| `Decimals.SumIsExact` | internal/accounting/accounting.go:536-545 | The sum denotes the exact sum of what the values denote; nothing is rounded. |
| `Decimals.MultiplyIsExact` | internal/accounting/accounting.go:546-549 | A rate times a count denotes the exact product. |
| `Tokens.Observe` | internal/accounting/accounting.go:148-241 | The step-by-step normalization with its 64-bit guards computes the specified counts and warnings. |
| `Tokens.AnthropicCounts` | internal/accounting/accounting.go:148-241 | Without a header total, an accepted Anthropic body gives input = prompt + cache reads + cache writes, and reads and writes as it states them. |
| `Tokens.OtherCounts` | internal/accounting/accounting.go:148-241 | Any other accepted body gives its prompt as input and the cached count under its later name as reads; one that is no part of the prompt is dropped together with the input count. |
| `Tokens.OutputCounts` | internal/accounting/accounting.go:148-241 | Output and reasoning of an accepted body: no output if its total is its prompt, the later name of the reasoning count wins, and one that is no part of the output is dropped alone. |
| `Tokens.TotalCount` | internal/accounting/accounting.go:148-241 | The total is input plus output when a body gives both, and otherwise the body's own total. |
| `Tokens.HeaderTotalWins` | internal/accounting/accounting.go:148-262 | A header total stays whatever bodies say, and a body's counts are taken over iff both are known and their sum is that total. |
| `Tokens.UnusableIsIgnored` | internal/accounting/accounting.go:148-241 | A body whose counts are negative or overflow 64 bits changes nothing and is warned about, and no other body gets these warnings. |
| `Tokens.ObservingKeepsConsistency` | internal/accounting/accounting.go:148-241 | Observing any decoded body keeps counts in 64-bit range, totals equal to input plus output, and parts within wholes. |
| `Tokens.HeaderKeepsConsistency` | internal/accounting/accounting.go:254-262 | A header total keeps counts consistent iff no body gave both counts yet, or it agrees with them. |
| `Pricing.Price` | internal/accounting/accounting.go:447-493 | The pricing loop computes the specified components, estimate and selected cost. |
| `Pricing.ChargeAll` | internal/accounting/accounting.go:468-488 | The billing loop stops at the first line without a usable price. |
| `Pricing.Selected` | internal/accounting/accounting.go:494-502 | Upstream evidence wins whenever the policy allows it; estimate_only never takes it and require_upstream never takes an estimate; there is an amount iff some evidence is allowed, and the source says which it was. |
| `AccountingRuns.PolicyDecidesTheRecord` | internal/accounting/accounting.go:344-404 | If no attempt may use estimates, a snapshot's amount is the sum of the reported costs and its source upstream; if none may use reports, the sum of the estimates; nothing if there is none. |
| `Pricing.GuardNeverRejects` | internal/accounting/accounting.go:458 | The range test before multiplying never rejects consistent counts. |
| `Pricing.EstimateExists` | internal/accounting/accounting.go:447-492 | For consistent counts an estimate exists iff both counts are known and every kind of token used has a valid rate. |
| `Pricing.EstimateIsTheLinearPrice` | internal/accounting/accounting.go:459-490 | An estimate denotes exactly (input - cached)*rate + output*rate + reads*rate + writes*rate. |
| `Pricing.AnthropicBodyCosts` | internal/accounting/accounting.go:148-241 | One Anthropic body with all rates is estimated at prompt*input + completion*output + reads*cache-read + writes*cache-write. |
| `Pricing.OtherBodyCosts` | internal/accounting/accounting.go:148-241 | One body of another provider: its prompt without the cached part, that part, and its completion, each at its own rate. |
| `Accounting.Collector.Begin` | internal/accounting/accounting.go:108-127 | Appends a fresh pending attempt and makes it current. |
| `Accounting.Collector.constructor` | internal/accounting/accounting.go:98-100 | A new record is provisional and empty. |
| `Accounting.Collector.Restore` | internal/accounting/accounting.go:559-564 | Resumes a stored record; whether a raw body was captured is guessed from the evidence. |
| `Accounting.Collector.ObserveUsage` | internal/accounting/accounting.go:130-140 | Usage goes to the current attempt, and nowhere if there is none. |
| `Accounting.Collector.ObserveUsageOf` | internal/accounting/accounting.go:141-241 | Evidence, reported cost and counts of one attempt change as specified; no other attempt does. |
| `Accounting.Collector.ObserveHeaders` | internal/accounting/accounting.go:244-264 | Header cost and header total of one attempt, with warnings for bad values. |
| `Accounting.Collector.ObserveJSON` | internal/accounting/accounting.go:279-324 | The raw body is merged as evidence before its usage is observed. |
| `Accounting.Collector.EndAttempt` | internal/accounting/accounting.go:330-343 | Sets the status of one attempt. |
| `Accounting.Collector.Snapshot` | internal/accounting/accounting.go:344-411 | The loop computes the specified priced copy, totals, coverage and source without changing the collector. |
| `Accounting.Aggregate` | internal/accounting/accounting.go:412-446 | Each count is added up iff every attempt knows it and the running sum fits 64 bits; the source is common or mixed. |
| `AccountingHistory.HistoryTells` | internal/accounting/accounting.go:108-343 | After any events, each attempt is what the events about it tell and no others: rates and policy of its beginning, the last end, the last valid header cost or else OpenRouter body cost, the usage fields overlaid in order, one warning per kind of mistake, and its bodies and header totals folded in order. |
| `AccountingHistory.UsageAddsUp` | internal/accounting/accounting.go:412-446 | Each count of a record is known iff every attempt knows it and no partial sum leaves 64 bits, and is then their sum; the source is the common one, mixed, or none. |
| `AccountingHistory.SnapshotShows` | internal/accounting/accounting.go:344-411 | A snapshot changes nothing of an attempt but its cost and, if final and pending, its status; the totals of reported and estimated costs cover all attempts or are absent, and the source is that of the amounts. |
| `AccountingRuns.RunsAreSound` | internal/accounting/accounting.go:108-264 | In every run in which headers precede bodies within an attempt, every attempt's counts are consistent and its reported cost exact. |
| `AccountingRuns.SnapshotsAreConsistent` | internal/accounting/accounting.go:412-446 | Range, addition and nesting relations lift to the totals of every snapshot, wherever a 64-bit cut-off falls. |
| `AccountingRuns.AggregateIsConsistent` | internal/accounting/accounting.go:412-446 | Adding up consistent attempts gives consistent totals. |
| `AccountingRuns.AmountIsTheExactSum` | internal/accounting/accounting.go:356-388 | A snapshot has an amount iff some attempt has a cost, and it denotes the exact sum of the selected costs. |
| `AccountingRuns.OneAnthropicCallCosts` | internal/accounting/accounting.go:108-411 | From the beginning of a call to its final snapshot: one Anthropic body with all rates is charged exactly that sum, with complete coverage. |
| `AccountingRuns.CompleteIff` | internal/accounting/accounting.go:360-388 | Coverage is complete iff there were attempts, all are priced, and none is an estimate for a failed or interrupted one; unknown iff none is priced. |
| `AccountingRuns.ResumingIsTransparent` | internal/accounting/accounting.go:344-411 | Storing a provisional snapshot, restoring it and going on with any events gives the same counts, cost, coverage and attempts as never stopping, except for raw evidence. |
| `AccountingRuns.EvidenceSurvivesIff` | internal/accounting/accounting.go:559-564 | Raw evidence also survives every continuation iff each attempt that has evidence got it from a raw body. |
| `AccountingRuns.HeaderCostWins` | internal/accounting/accounting.go:265-276 | A cost reported by a header is only ever replaced by another header. |
| `AccountingStore.Store.PutAccounting` | internal/storage/sqlstore/accounting.go:13-20 | Inserts, or replaces while provisional; a final record is left alone. |
| `AccountingStore.Store.GetAccounting` | internal/storage/sqlstore/accounting.go:21-39 | The stored record, if any. |
| `AccountingStore.Store.FinalizeAccounting` | internal/storage/sqlstore/accounting.go:46-82 | Wins iff the record was not final, even if its row was missing; then record, usage row and job change together. It fails exactly if the transaction gets as far as the faulty statement, and then, or after a lost race, nothing changes. |
| `AccountingStore.Store.UpdateResponsesJob` | internal/storage/sqlstore/responses.go:44-55 | Overwrites the status whatever it was. |
| `AccountingStore.Store.CreateResponsesJob` | internal/storage/sqlstore/responses.go:14-28 | Inserts a job row once. |
| `AccountingStore.Store.GetKeySpendTotals` | internal/storage/sqlstore/apikeys.go:231-253 | The sums of the keys that have usage rows, and of no others; flush rows do not count. |
| `AccountingStore.LoadedIsLogged` | internal/storage/sqlstore/apikeys.go:231-253 | A key is read back iff it has a usage row, and with exactly its logged spend. |
| `AccountingStore.Store.FlushKeySpend` | internal/storage/sqlstore/apikeys.go:258-267 | Appends one flush row. |
| `SpendTotals.SpendAccumulator.InitFromStorage` | internal/keystore/spend.go:55-65 | Totals read back replace those in memory and leave the others alone; a fresh accumulator then holds every key's logged spend; a failed read changes nothing. |
| `SpendTotals.SpendAccumulator.Credit` | internal/keystore/spend.go:79-85 | Adds to that key's total only. |
| `SpendTotals.SpendAccumulator.CurrentSpend` | internal/keystore/spend.go:89-97 | The total, zero for an unknown key. |
| `SpendTotals.SpendAccumulator.FlushToStorage` | internal/keystore/spend.go:13-33 | Appends exactly one flush row, never two, for each positive total whose write succeeds; fails iff one did not. |
| `SpendTotals.FlushRowsDoNotCount` | internal/storage/sqlstore/apikeys.go:228-253 | However many flush rows are added, no key's logged spend changes. |
| `Finalizers.CreditAccounting` | internal/api/handler/accounting.go:131-144 | Crediting performs exactly the winner's credit steps of the protocol. |
| `Finalizers.Settle` | internal/responses/accounting.go:46-90 | Snapshot, commit and credit are the finalizer's protocol steps and nothing else; if the transaction breaks off, nothing is stored or credited. |
| `Finalizers.FinishAccounting` | internal/responses/accounting.go:35-90 | A background job's last usage and status are recorded, and the rest is the protocol's steps together with the job update, or no step exactly if the transaction breaks off. |
| `Finalizers.ObserveAll` | internal/provider/accounting.go:10-16 | What one upstream call shows is observed event by event, as a run. |
| `Finalizers.ResumeAccounting` | internal/responses/accounting.go:18-31 | Goes on with the last attempt of the stored record, and refuses if there is no record or no attempt. |
| `Finalizers.HandleAnswer` | internal/responses/worker.go:102-166 | An in-progress answer saves evidence and overwrites the status, a terminal one finalizes with the usage observed; exactly these protocol steps, cut short by a statement that fails, and none without an answer or a record to go on with. |
| `Finalizers.CancelResponseJob` | internal/api/handler/responses.go:389-479 | A cancellation of a job that shows an end changes nothing; any other performs exactly the protocol steps that its answer leads to. |
| `Finalizers.CallAccounting.Complete` | internal/api/handler/accounting.go:93-130 | The first completion performs the protocol's steps (none exactly if the transaction breaks off) and settles a deferred quota with the tokens of the last attempt; every later one changes nothing and repeats the record. |
| `Finalizers.CallAccounting.DeferReconcile` | internal/api/handler/accounting.go:79-81 | A streaming call takes over the settlement of its quota. |
| `Finalizers.CurrentUsage` | internal/accounting/accounting.go:570-581 | The total of the last attempt, header totals included, or nothing if it is unknown. |
| `Settlements.SettlementMeans` | internal/responses/accounting.go:46-90 | Finalizing an open record stores its final snapshot as final, adds its usage row, sets its job's status, and adds the amount to its key and each attempt's cost to its pool; a transaction that breaks off, or a record that is final, changes nothing. |
| `Settlements.ClosingMeans` | internal/responses/accounting.go:35-45 | A terminal answer's usage is observed by the last attempt, which then ends as completed or failed; no other attempt changes. |
| `Settlements.AnswerMeans` | internal/responses/worker.go:102-166 | No answer changes nothing; an in-progress one stores evidence and then the status, as far as the statements succeed, and credits nothing; each of the four terminal ones settles. |
| `Settlements.QuotaIsTheTotal` | internal/accounting/accounting.go:570-581 | The quota is settled with the last attempt's total and no other count, if that is known. |
| `Finalization.ExactlyOnce` | internal/responses/accounting.go:35-90 | Under every interleaving of completions, polls, cancellations, faults and crashes: each request is won at most once, has at most one usage row, and is credited at most once to its key and per attempt to its pool, only after winning. |
| `Finalization.FinalIsForever` | internal/storage/sqlstore/accounting.go:13-20 | A final record is never changed again by any step of any actor or a restart. |
| `Finalization.FirstCommitWins` | internal/storage/sqlstore/accounting.go:56-66 | A commit wins iff the record is not final; afterwards it is, with the winner's contents. |
| `Finalization.SavingStaysProvisional` | internal/storage/sqlstore/accounting.go:13-20 | Saving before the end stores what was known, pending attempts included, never makes a record final, and changes nothing once one is. |
| `Finalization.SpendIsConserved` | internal/keystore/spend.go:13-97 | In every reachable state a key's total in memory plus what winners have yet to credit equals its logged spend. |
| `Charges.OwedIsExact` | internal/accounting/accounting.go:550-558 | What is credited and logged for an amount is exactly what the amount denotes, and 0 for none. |
| `Charges.LoggedIsWon` | internal/storage/accounting.go:21-27 | In every reachable state a key's logged spend is what it was at the start plus the exact sum of the amounts of its records won since. |
| `Charges.PoolsAreConserved` | internal/api/handler/accounting.go:131-144 | In every reachable state a pool's total is the exact sum of the amounts of the attempts credited to it since the last restart, each of a won record and at most once. |
| `Finalization.RestartRecoversUncredited` | internal/keystore/spend.go:55-65 | A restart restores equality and makes good exactly the credits that the crash forgot, however many flush rows exist. |
| `Finalization.MayEndIff` | internal/responses/worker.go:133-166 | A job can still come to show a terminal status iff it shows one now or its accounting is open. |
| `Finalization.EndStaysIff` | internal/storage/sqlstore/responses.go:44-55 | A job that shows its end still shows it after a run iff no in-progress answer about it was stored in between. |
| `Finalization.StatusCanRegress` | internal/responses/worker.go:133-146 | One delayed in-progress answer takes an ended job back to running, and no continuation ever repairs it. |
| `Finalization.NextKeeps` | internal/api/handler/responses.go:389-479 | Each step of each actor preserves the invariant behind these results. |
| `ServerSentEvents.SSEReader.Next` | internal/provider/sse.go:17-53 | The line loop computes the specified next record, including an unterminated one at the end of input, and fails at a read error. |
| `ServerSentEvents.SSEReader.ReadAll` | internal/provider/sse.go:17-53 | Iterating gives all records until the end or the error. |
| `ServerSentEvents.PrintedRecordsReadBack` | internal/provider/sse.go:17-53 | Any sequence of printed records without line feeds inside a value or carriage returns at its end reads back as itself, multi-line data joined, whether the input then ends or breaks. |
| `ServerSentEvents.BrokenRecordIsNotRead` | internal/provider/sse.go:17-53 | If the input breaks off anywhere within a record, exactly the records before it are read, and never a part of it. |
| `ServerSentEvents.EncodedIsPrintable` | internal/anthropic/stream.go:45-56 | Every record the encoder prints is such a record. |
| `ServerSentEvents.AnyRecordIsRead` | internal/provider/sse.go:17-53 | Any lines that spell fields or comments, ended with or without a carriage return and with or without a space after the colon, read as the last event and the joined data. |
| `ServerSentEvents.DatalessIsSkipped` | internal/provider/sse.go:30-35 | A record without data is passed over, and its event name stays for the next one. |
| `ServerSentEvents.UnclosedIsRead` | internal/provider/sse.go:24-50 | When the input ends within its last line, that line counts and the record is given out. |
| `ServerSentEvents.LinesOfJoin` | internal/provider/sse.go:32-33 | Joined data lines come apart again at the line feeds: nothing is lost or added. |
| `Decisions.WireQuestions` | internal/model/decisions.go:384-456 | Translates every question under q_0, q_1, ... or refuses if one cannot be translated. |
| `Decisions.ReadChoices` | internal/model/decisions.go:242-269 | The loop over choices or criteria, in any order of keys, stops at the first malformed one and notes structured ones. |
| `Decisions.ReadLevels` | internal/model/decisions.go:285-310 | The loop over levels or criteria stops at the first malformed one and notes structured ones. |
| `Decisions.DescribeChoices` | internal/model/decisions.go:426-435 | The loop describes all alternatives, and refuses iff one is not a text. |
| `QuestionForms.QuestionIff` | internal/model/decisions.go:216-312 | A question is accepted iff it reads as one, member by member: a known kind, texts where texts belong, 1 to 255 different texts or booleans to choose from, 1 to 10 levels, instructions for a predicate; rich content only from System One, which marks it native. |
| `QuestionForms.TranslatedIff` | internal/model/decisions.go:384-447 | A Decisions question goes to System One iff it is not native, has only members and list members that are known, no two levels alike, no booleans and no level descriptions; it then has exactly its type (noul for a predicate), instructions and criteria. |
| `QuestionForms.PlainTranslatedIff` | internal/model/decisions.go:384-456 | A System One question goes to a Decisions provider iff it is so portable; it then has exactly its name, type, instructions, and choices or levels in order. |
| `DecisionProofs.QuestionSurvives` | internal/model/decisions.go:384-447 | A Decisions question accepted for System One reads there with the same kind, instructions, described choices and ordered levels. |
| `DecisionProofs.RequestSurvives` | internal/model/decisions.go:336-460 | So do all questions of a translated request, each under the name of its position, and there are no others. |
| `DecisionProofs.NativeQuestionSurvives` | internal/model/decisions.go:384-456 | A System One question accepted for Decisions reads there as exactly the same question. |
| `DecisionAnswers.FindChoice` | internal/model/decision_response.go:202-213 | The loop finds a choice iff it is among the declared ones. |
| `DecisionAnswers.ListEntries` | internal/model/decision_response.go:97-120 | A probability for every declared choice or level in order, or refusal if one is missing. |
| `DecisionAnswers.FileEntries` | internal/model/decision_response.go:133-153 | Listed probabilities are filed by name; a later entry wins, and one that does not fit the question refuses the answer. |
| `DecisionResponses.CollectAnswers` | internal/model/decision_response.go:48-63 | Accepts iff there are as many answers as questions, all of them objects, and one for each name. |
| `DecisionResponses.AcceptedAnswersAreExactlyTheNames` | internal/model/decision_response.go:48-63 | Then the names are exactly those asked for, native or translated, and each answer is the one filed under its name. |
| `DecisionResponses.AnswersIff` | internal/model/decision_response.go:43-63 | Which answers a response has: those of a list as long as the questions, or the objects under the caller's names, or under q_0, q_1, ... for a caller of the other dialect, as many as questions. |
| `DecisionAnswers.PlainAnswerIsValidIff` | internal/model/decision_response.go:79-125 | A valid System One answer stays valid for the Decisions caller iff it is not of type predicate (or carries a probability anyway). |
| `DecisionAnswers.SystemOneAnswerIsValid` | internal/model/decision_response.go:126-165 | A valid Decisions answer stays valid for the System One caller. |
| `AnswerForms.SystemOneAnswerSays` | internal/model/decision_response.go:126-165 | A Decisions answer is translated iff its listed probabilities all fit the question; they are then filed by name, the last one of a name counting and none stated being zero, a scored question gets its legend, predicates are renamed, the name goes, and every other member stays. |
| `AnswerForms.PlainAnswerSays` | internal/model/decision_response.go:79-125 | A System One answer is translated iff its probabilities are numbers and cover the declared choices or levels; they are then listed in the order of the question, the legend goes, noul is renamed, the question's name is given, and every other member stays. |
| `DecisionAnswers.AnswerReturns` | internal/model/decision_response.go:79-165 | A System One answer translated to Decisions and back returns: same type, value, declared probabilities and unknown members. One spelt predicate comes back as noul with its probability as the value, the same value iff the two were equal. |
| `DecisionAnswers.PlainAnswerReturns` | internal/model/decision_response.go:79-165 | Any valid Decisions answer that System One accepts is accepted on the way back iff it has no probability list or one covering every declared name; then type, value, name and unknown members are the same, and the list is that of the declared names, the same list iff it was one. |
| `DecisionAnswers.IncompleteListIsRefused` | internal/model/decision_response.go:103-120 | A valid choice answer that lists one of two declared choices is refused on the way back. |
| `DecisionResponses.ResponseFromWire` | internal/model/decision_response.go:38-180 | Reading, checking and translating all answers one after the other computes the specified response. |
| `DecisionResponses.ResponseMeans` | internal/model/decision_response.go:38-180 | A response is accepted iff there is one answer for each question and each is valid and, across dialects, translatable; a native one passes unchanged; otherwise only the answers change, as a list in the order of the questions or under their names and no others. |
| `DecisionResponses.AcceptableIff` | internal/model/decision_response.go:174-234 | An answer is accepted iff it is a refusal or has its question's type and: a score from 0 to one less than the levels, a probability from 0 to 1 in its dialect's field, a declared choice, or a box with four edges in [0,1] not inverted. |
| `DecisionResponses.NativeResponseIff` | internal/model/decision_response.go:38-75 | A response in the caller's own dialect is accepted iff it has exactly one answer for each question and each is so acceptable. |
| `DecisionResponses.TranslatedRequestCarries` | internal/model/decisions.go:384-456 | The questions that System One reads in a translated request carry the meaning and the positions of the Decisions questions. |
| `DecisionResponses.ResponseReturns` | internal/model/decision_response.go:38-180 | A whole System One response accepted by a Decisions caller and translated back is accepted iff every predicate-spelt answer carries a probability; then the same questions are answered, every answer returns and all other fields stay. |
| `DecisionResponses.PlainResponseReturns` | internal/model/decision_response.go:38-180 | A whole Decisions response accepted by a System One caller and translated back is accepted iff every answer that has a list covers the declared names; then every answer returns in order and all other fields stay. |
| `UsageReports.HourStart` | internal/api/handler/usage.go:205-209 | The last full hour counted from local midnight. |
| `UsageReports.UsageBuckets` | internal/api/handler/usage.go:202-239 | Too many iff more than 744 buckets are needed; otherwise non-empty contiguous buckets along the calendar covering exactly the interval. |
| `UsageReports.EveryMomentHasOneBucket` | internal/api/handler/usage.go:213-238 | A moment is in the interval iff it is in a bucket, and never in two. |
| `UsageReports.UsageMetrics.Add` | internal/storage/usage.go:53-82 | Every field is incremented by its counterpart. |
| `UsageReports.Summarize` | internal/api/handler/usage.go:89-101 | One pass computes the summary and each group's sum. |
| `UsageReports.SummaryIsTheTotal` | internal/storage/sqlstore/usage.go:85-112 | The summary over the grouped rows is the total over all calls of the interval: none lost, none doubled. |
| `UsageReports.GroupsAddUp` | internal/api/handler/usage.go:89-101 | However the groups are listed, their sums add up to the summary. |

## Left out

- HTTP, SQL text, JSON text, logging, telemetry, authentication, configuration parsing and the user interface: no deep invariant. Decoded bodies, headers and rows are values here, and `isObject` stands for "is a JSON object".
- Randomness, hashes and identifiers: any choice, any draw, and distinct keys for distinct credentials.
- Floating point: spend and probabilities are exact, so rounding in conversions of amounts to floating point is not captured.
- Retention: deleting accounting rows is assumed not to touch live records, and exactly-once holds for rows that are still there.
- Ambiguous commits: a transaction either takes effect or fails.
- Pool budgets: their daily reset and the table that saves them are left out; crediting a pool at most once per attempt is not.
- Background jobs without an accounting record and `logCompletion`, which only they reach.
- The response text stored in jobs, and the health reports that the worker makes after finishing one.
- The `BeforeAttempt`, `AfterAttempt` and eligibility callbacks are outcomes of the environment; quotas and routing meet in that a local rejection is one of the replies of an attempt.
- Reloading the configuration while a request is being routed.
- Races inside `InCooldown` and `StickySessionManager.Get`, which look under one lock and change under another.
- Saving and cleaning sticky sessions, apart from splitting their keys.
- The message start of a re-encoded stream: it reports no input tokens, because the decoder has no usage to give yet.
- Text that continues an earlier block after a later one has begun: a re-encoded stream would order it differently; the grammar of original streams used here has text for the last text block only.
- Writers that take part of an event: an event is written whole or not at all.
- `ObserveHeaders` on later polls of the same attempt is outside `RunsAreSound`; `HeaderKeepsConsistency` says when it does no harm.
- Decimals.Sum: values that are not multiples of 10^-36 are skipped; every value the source adds is a normal form, which is such a multiple.
- Texts of decision requests are compared but never taken apart, so q_0, q_1, ... and the decimals 0, 1, ... are constructors that differ by definition.
- Media, input messages and modalities of decision requests, case-insensitive member names in decoding, and the distinction between 1 and 1.0; the order of object keys is arbitrary.
- Decision usage counts: a plain split of input tokens; a response whose counts are invalid is refused before its answers are looked at.
- Time zones: a calendar step is any strictly increasing function, and the start of the first bucket is given; the SQL grouping is specified, not executed.
- Sorting of report groups, labels of buckets and the budget rows beside a report.
- What the WHATWG HTML Standard says in sections 9.2.5 and 9.2.6 where the reader differs: it keeps an event name across a blank line without data and returns an unterminated record at the end of input; the model does what the reader does.
- Request translation towards Anthropic: it loses text in assistant messages with several text parts, so no round trip is claimed.
