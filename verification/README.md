# Verified model of the gateway's stateful core

A Dafny 4.11 model of the parts of this gateway whose comments promise an invariant: prompt-cache
emulation, the two streaming transducers, account scheduling, the storm/keepalive/usage timer machines, and
the codecs and indexes. Check it with `dafny verify dfyconfig.toml`.

Code that updates state is modelled by classes and methods with loops, each proved against a specification
function; code that computes values is modelled by functions. Objects carry ghost fields for what the
specification sees (a map of leases, a log of events, a summary of the emitted stream), and every method
says how they change. A goroutine's regions under a lock are separate methods, so an interleaving is a sequence
of calls; `Pick` is the exception, listed below. No proof relies on automatic induction: each inductive lemma calls itself.

What a specification function computes is also said by lemmas that do not use it, on the inputs themselves: the
request's parts, the upstream events, the chunks, the bytes of a message.

| module | source | main results |
|---|---|---|
| CacheConfig, CacheUsage, CanonicalJson, CacheBlocks, CacheContents, CacheFingerprint, CacheMarks, CacheProfile, CacheTracker, CacheRuns, CachePlan, CacheRequests | `internal/emulation` | the tracker follows its leases on every interleaving, under any clock readings (`Replay`); exactly when pruning shows (`PruningUnobservable`); exactly which readings guarantee that a committed prefix is hit (`SafeReadings`, `SharedBlocksHit`), and nothing else is read (`ReadsOnlyShared`); fingerprints are exact (`FingerprintExact`, `RequestsExact`); what any request of a run reads and creates (`RequestAccounts`); plans conserve tokens (`Prepare`) |
| AnthropicStream, AnthropicWords | `internal/api/anthropic_handler.go` | every run's frames lie in the SSE grammar (`StreamChat`) and deliver the events' text, thinking and arguments, however it ends (`TextDelivered`, `ThinkingDelivered`, `ArgumentsDelivered`), in exactly the blocks they turn to (`MessageBlocks`); when a tool call has exactly one block (`OneBlock`) |
| ResponsesStream, ResponsesCalls | `internal/api/responses.go` | numbering, item life cycle, contents and the single terminal event (`StreamResponses`); the chunks' text, reasoning and arguments are delivered (`HeedsChunks`, `ArgumentsDelivered`); when a tool call has exactly one item (`ItemPerCall`, `OneItemEach`) |
| SessionCache, SessionRuns, Scheduler, WeightedRoundRobin | `internal/scheduler`, `internal/api/pick.go` | alias groups stay a partition; whole runs answer as an eagerly expiring cache, or exactly when not (`LazyIsEager`); a live binding wins; two sessions share a binding exactly when `KeysMeet` says; retries are bounded; smooth weighting is fair in both directions |
| Signature, SignatureWire | `internal/emulation/signature.go` | protobuf printer and reader are inverse, through three nested messages; what the reader finds in any bytes (`LookupsAnywhere`); nothing that goes into a signature is lost (`BodyInjective`) |
| Storm, Keepalive, UsageWindow | `internal/adapter`, `internal/auth`, `internal/pool` | ring, maps and windows agree with plain logs, or exactly when not (`DailyExact`) |
| ClientKeys, Batches, ShellQuote | `internal/clientkeys`, `internal/api` | inverse indexes; exact outcome of a batch run under cancellation; quoted words read back unaltered |
| Options, Numbers, Spelling | | the shared option type, small arithmetic and texts put together from lists |

## What the proofs found

- **Minimum-token settings have no effect.** Default breakpoints are applied before the check for client
  breakpoints, so a built profile always has the threshold 0 (`CacheProfile.BuildCacheProfile`).
- **Plans conserve the token count exactly when the caller's count is at least 1**; with a count of 0 or less
  the total is an estimate and the plan is not about the caller's number (`CachePlan.Prepare`).
- **A TTL alone guarantees no cache hit.** The tracker reads the clock before it takes the lock, so an older
  reading can act later: a hit shortens a lease exactly when its reading is more than a TTL before the expiry
  (`CacheRuns.LifeShortens`), and a pruning shows exactly at readings older than an expiry it dropped
  (`CacheTracker.PruneObservable`). A hit is guaranteed exactly when, from the commit to the request, no reading is
  the TTL or more after one that acted before it: given any other readings some run with them misses
  (`CacheRuns.SafeReadings`). With readings in the order of the operations that is the TTL after the commit
  (`CacheRuns.OrderedFresh`). Runs that go wrong: `CacheRuns.OlderHitShortens`, `CacheRuns.PruningObserved`.
- **A limit check can forget a day's uses.** It was given its reading before the account's lock, so around midnight it
  may follow a use of the next day and set the day back: the daily count is right exactly when no use of the day was
  followed by a reading of another day (`UsageWindow.DailyExact`, `UsageWindow.CheckForgetsDay`). The sliding minute
  stays exact (`UsageWindow.MinuteExact`).
- **A session lookup with an older reading can miss** a group that a later one found expired and dropped: exactly
  if the group is still live at the older reading (`SessionRuns.DropObservable`, `SessionRuns.OlderLookupMisses`).
- **A tool call can get two blocks of one Anthropic message**, both under its id: it has exactly one if and only if
  the events touch it without a break (`AnthropicWords.OneBlock`, `AnthropicWords.CallTwice`).
- **A tool call can be split over two items of a Responses stream.** Fragments join an item by its number but
  items are numbered by arrival: that is the same exactly when no index skips one (`ResponsesCalls.ItemPerCall`),
  and each index still has one item to itself exactly under the condition of `ResponsesCalls.OneItemEach`.
  A call that arrives twice under index 1 alone is split (`ResponsesCalls.SplitCall`).
- **Reasoning events name the message item, added or not**: an added one exactly when no reasoning comes before
  the text; without any text it has the place of the first call (`ResponsesStream.StreamResponses`,
  `ResponsesCalls.EarlyReasoning`).
- **A file-name pattern given as "query" gets lost on the way to find**: find searches for grep's pattern exactly
  when it came as "pattern", or as both "query" and "glob" (`ShellQuote.FindSearchesPattern`,
  `ShellQuote.QueryLost`).
- **Output indices of Responses items change** exactly when the first text comes after a tool call, or
  arguments come for a call that is not the last one opened: argument deltas carry the last call's index
  (`ResponsesStream.StreamResponses`, `ResponsesCalls.InterleavedCallsUnsteady`, `ResponsesCalls.LateTextUnsteady`).
- **Two sessions of different models can share one account binding**: exactly when the longer id
  goes on, after "::", with what the shorter one's model begins with before "::" and the other model, or is the shorter
  one and a colon, and the models differ by the same colon; of one model never
  (`Scheduler.KeysMeet`, `Scheduler.KeyShared`).
- **InvalidateAuth forgets an account completely exactly when its groups have distinct expiries**
  (`SessionCache.Cache.InvalidateAuth`, `SessionCache.EqualExpiries`).
- **A batch can stay "canceling" for good**: exactly when the cancellation comes after the worker's last look
  and before it finishes (`Batches.Batch.ProcessBatch`).
- **Rotating a client key, and loading stored keys, keep the two indexes inverse** only under the exact
  conditions of `ClientKeys.Store.Rotate` and `ClientKeys.LoadInverse`. In a store loaded from an ambiguous list,
  deleting a key can leave another plaintext without an entry, and creating a key fails exactly for such a plaintext
  (`ClientKeys.Store.CreateWithKey`, `ClientKeys.PlaintextWithoutEntry`). After a reload an id is handed out again
  exactly when the last one given out is no longer in use (`ClientKeys.SaveLoad`, `ClientKeys.IdReused`).
- **Client-key usage lags by at most 99 records exactly as long as nothing is carried over a failed write**: a
  failed write starts the count over (`ClientKeys.LagBounded`, `ClientKeys.HundredthLost`), and while writes fail
  the lag has no bound (`ClientKeys.LagUnbounded`).
- **The dead-account comment says about three hours**; the waits between eight failures add up to 123 minutes
  (`Keepalive.WaitsOfSeven`).
- **The storm ring forgets everything when it resets**, at the latest after seventy seconds of use: exact per
  epoch, never over-counting across epochs (`Storm.Breaker.StormStats`).

## Model

| member | source | states |
|---|---|---|
| CacheConfig.ClampRatio | internal/emulation/config.go:205-216 | the nearest point of [0,1] to a finite ratio, the fallback for NaN and infinities |
| CacheConfig.NormalizeRatioRange | internal/emulation/config.go:178-188 | stored ranges are ordered and within [0,1]; an unset pair takes the single value |
| CacheConfig.SampleRatioRange | internal/emulation/config.go:168-175 | a draw stays in the clamped range, and at its lower end if the range is empty |
| CacheConfig.NormalizeStable | internal/emulation/config.go:178-188 | when normalising again changes nothing, as an if-and-only-if over every float64 |
| CacheConfig.NormalizeIdempotent | internal/emulation/config.go:178-188 | for finite settings, all that JSON can hold, it never changes anything |
| CacheConfig.Config.SampleReadRatio | internal/emulation/config.go:161-166 | a sampled read ratio is in [0,1] and drawn from the setting of its mode |
| CacheConfig.Config.CreationRatio | internal/emulation/config.go:190-195 | the creation ratio is in [0,1] and follows its own setting |
| CacheConfig.ReadRatioFollows | internal/emulation/config.go:161-175 | which setting the read ratio follows, and within which range it is drawn |
| CacheUsage.Round | internal/emulation/cache.go:253-261 | rounding is to the nearest integer, halves away from zero |
| CacheUsage.ScaleTokens | internal/emulation/cache.go:253-261 | scaling stays within the tokens and within half a token of the product |
| CacheUsage.ScaleCreationTTL | internal/emulation/cache.go:263-278 | the two TTL buckets are non-negative, add up to the scaled creation, and an empty one stays empty |
| CacheUsage.ScaledConserves | internal/emulation/cache.go:175-198 | scaling conserves the total and the buckets in both modes |
| CacheUsage.ScaledFollows | internal/emulation/cache.go:175-198 | read and creation each follow their own ratio, the rest goes to the input |
| CacheUsage.ScaledBuckets | internal/emulation/cache.go:263-278 | creation under one TTL stays under it |
| CacheUsage.ReservedConserves | internal/emulation/cache.go:201-225 | reserving the tail conserves, and takes from the read only when no creation is left |
| CacheUsage.ReservedBuckets | internal/emulation/cache.go:201-251 | and so it does when the tail is reserved |
| CacheUsage.UsageConserved | internal/emulation/cache.go:32-39 | input + read + creation is the total, buckets are the creation, input is at least the tail; for all settings and draws |
| CacheUsage.Usage.ShrinkCreationBuckets | internal/emulation/cache.go:239-251 | the 5-minute bucket is shrunk before the 1-hour one |
| CacheUsage.Usage.ReserveUncachedTail | internal/emulation/cache.go:201-225 | the in-place code computes the closed form of the tail rule |
| CacheUsage.Usage.ApplyCacheRatios | internal/emulation/cache.go:175-198 | the in-place code is scaling followed by the tail rule |
| CacheUsage.StealCacheTokens | internal/emulation/cache.go:227-237 | takes up to what is needed from a non-negative amount |
| CacheUsage.Preview | internal/emulation/config.go:219-237 | both previewed requests conserve the total and keep the tail |
| CanonicalJson.SortedKeys | internal/emulation/cache.go:743-793 | object keys are written in the one sorted order |
| CanonicalJson.WriteUnique | internal/emulation/cache.go:743-793 | canonical text determines the value, even followed by more text |
| CanonicalJson.WriteInjective | internal/emulation/cache.go:743-793 | same canonical text if and only if same value |
| CacheBlocks.StripIdempotent | internal/emulation/cache.go:580-600 | removing cache_control markers twice is removing them once |
| CacheBlocks.FlattenWellFormed | internal/emulation/cache.go:316-367 | flattened blocks of a well-formed request are well-formed |
| CacheBlocks.SpellingInvisible | internal/emulation/cache.go:316-367 | markers and string-versus-text-block spelling leave the fingerprinted values alone |
| CacheBlocks.SystemSpelling | internal/emulation/cache.go:602-611 | the same for the system prompt |
| CacheBlocks.MessageSpelling | internal/emulation/cache.go:345-367 | the same for one message |
| CacheFingerprint.ChainUnique | internal/emulation/cache.go:369-414 | equal chain states come from equal chains, unless the hash collides on what they hash |
| CacheFingerprint.PreludeLength | internal/emulation/cache.go:369-380 | a chain's start is never mistaken for a digest |
| CacheFingerprint.FingerprintExact | internal/emulation/cache.go:369-414 | two prefixes have the same fingerprint if and only if preludes and canonical blocks agree |
| CacheContents.StripAt | internal/emulation/cache.go:580-600 | along every path without a marker stripping leaves the value as it is, along any other nothing |
| CacheContents.AllFound | internal/emulation/cache.go:316-367 | every tool, system block and content block of a request is found in its fingerprinted values, in its place |
| CacheContents.ValuesExact | internal/emulation/cache.go:316-367 | the fingerprinted values are the same if and only if tools, system prompts, roles and contents are, but for markers and spelling |
| CacheContents.RequestsExact | internal/emulation/cache.go:280-414 | two requests have the same fingerprint if and only if they agree in everything they say to the model |
| CacheContents.BlockCount | internal/emulation/cache.go:316-367 | one fingerprinted block for every tool, system block and content block |
| CacheMarks.TtlIs | internal/emulation/cache.go:613-633 | which values are marked, and for how long |
| CacheMarks.ClientMarks | internal/emulation/cache.go:559-566 | a client breakpoint exists if and only if a marker stands on a tool, system block or content block |
| CacheMarks.TokensCounted | internal/emulation/cache.go:316-367 | a request's tokens are the estimates of its parts, negative ones as nothing |
| CacheMarks.TtlInForce | internal/emulation/cache.go:388-410 | the TTL in force is that of the last mark |
| CacheMarks.BreakpointsExact | internal/emulation/cache.go:388-410 | a block is a breakpoint if and only if it is marked, or ends a message with a mark in it or before it; its TTL is that of the last mark |
| CacheMarks.DefaultMarks | internal/emulation/cache.go:568-578 | defaults mark every message end and the last block, and nothing else |
| CacheMarks.FastPath | internal/emulation/cache.go:289-298 | what is kept of a large request, with the numbers |
| CacheMarks.FallbackMarks | internal/emulation/cache.go:299-301 | when the defaults are set |
| CacheFingerprint.SpellingKeepsFingerprints | internal/emulation/cache.go:580-611 | requests equal up to markers and spelling have equal fingerprints |
| CacheProfile.Breakpoints | internal/emulation/cache.go:388-410 | breakpoints are in order, each marked or ending a message after a mark, with the TTL in force |
| CacheProfile.BreakpointsComplete | internal/emulation/cache.go:388-410 | no such block is missing |
| CacheProfile.CacheableOrdered | internal/emulation/cache.go:416-432 | cacheable breakpoints are ordered by place and by cumulative tokens |
| CacheProfile.Profile.TokensFor | internal/emulation/cache.go:443-456 | token counts stay within the total |
| CacheProfile.TokensForMonotone | internal/emulation/cache.go:443-456 | and are monotone |
| CacheProfile.TokensForLast | internal/emulation/cache.go:443-456 | and are the total at the last breakpoint, when its cumulative count is positive |
| CacheProfile.Kept | internal/emulation/cache.go:548-557 | the longest prefix that fits, at least one block |
| CacheProfile.TruncateCacheBlocks | internal/emulation/cache.go:548-557 | the loop keeps exactly that prefix |
| CacheProfile.ApplyDefaultBreakpoints | internal/emulation/cache.go:568-578 | in place, message ends and the last block get the default TTL and nothing else changes |
| CacheProfile.ProfileFromBlocks | internal/emulation/cache.go:369-414 | the accumulating loop computes the chain, the cumulative counts and the breakpoints of every prefix |
| CacheProfile.ProfileOfValid | internal/emulation/cache.go:369-414 | every profile built is valid |
| CacheProfile.MarkedIsCacheable | internal/emulation/cache.go:416-441 | there is a cacheable breakpoint if and only if some block is marked |
| CacheProfile.NothingCacheable | internal/emulation/cache.go:416-441 | without a mark there is none, whatever the threshold |
| CacheProfile.BuildCacheProfile | internal/emulation/cache.go:280-314 | a profile exists exactly when a kept block is marked; its threshold is 0 |
| CacheTracker.Rightmost | internal/emulation/cache.go:470-486 | the rightmost leased breakpoint of a range |
| CacheTracker.Tracker.PruneLocked | internal/emulation/cache.go:534-545 | pruning removes exactly what has expired by its reading |
| CacheTracker.PruneObservable | internal/emulation/cache.go:534-545 | a pruning shows at a reading if and only if it dropped something still live there; never at a later one |
| CacheTracker.Tracker.FindLive | internal/emulation/cache.go:470-486 | the backward scan finds the rightmost live prefix among the last ten breakpoints |
| CacheTracker.Tracker.Compute | internal/emulation/cache.go:458-499 | is one step of the specification at any reading; up to its last breakpoint everything is read or created, the creation under that breakpoint's TTL alone, and the read is that of the rightmost live breakpoint looked at |
| CacheTracker.Tracker.Update | internal/emulation/cache.go:501-532 | is one step of the specification at any reading: leases every cacheable prefix |
| CacheTracker.Recommit | internal/emulation/cache.go:515-526 | a re-commit never lowers tokens, TTL or expiry |
| CacheTracker.PruneSpace | internal/emulation/cache.go:534-545 | deleting while iterating leaves exactly the live entries |
| CacheRuns.Replay | internal/emulation/cache.go:458-545 | on any interleaving of requests, commits and prunings, with any readings, the tracker reports what the leases say |
| CacheRuns.RequestAccounts | internal/emulation/cache.go:458-499 | the same of any request of any run: what it reads, what it creates under which TTL, and which leases it leaves |
| CacheRuns.CommitExact | internal/emulation/cache.go:501-532 | a commit leases each cacheable prefix for the longest that was asked for it, and changes no other lease |
| CacheRuns.PruningUnobservable | internal/emulation/cache.go:534-545 | a run that hides nothing reports what a tracker that never prunes would; so does every run with ordered readings |
| CacheRuns.LifeShortens | internal/emulation/cache.go:468-526 | no step takes away a live lease; one shortens it if and only if it hits it with a reading more than a TTL before the expiry |
| CacheRuns.LeaseSurvives | internal/emulation/cache.go:501-545 | a lease lives through any stretch in which no reading is the TTL or more after one that acted before it |
| CacheRuns.HitGuarantee | internal/emulation/cache.go:458-532 | a later request sharing a committed prefix with at most nine breakpoints to its right reads at least it, if no reading is its TTL or more after one that acted before it |
| CacheRuns.SafeReadings | internal/emulation/cache.go:458-545 | exactly these readings guarantee the hit: given any others, a run with them misses |
| CacheRuns.OrderedFresh | internal/emulation/cache.go:458-532 | with ordered readings that is exactly the TTL after the commit |
| CacheRuns.OlderHitShortens | internal/emulation/cache.go:468-486 | committed at 2 for 5, hit at reading 1, not read at 6 |
| CacheRuns.PruningObserved | internal/emulation/cache.go:468-471 | pruned at 7, no longer read at reading 3 |
| CacheRuns.ReplayReadsAll | internal/emulation/cache.go:458-532 | the same request again creates nothing and reads the whole cacheable prefix, under the same readings |
| CacheRuns.OnlyCommitted | internal/emulation/cache.go:501-532 | whatever is leased was committed before in that namespace |
| CacheRuns.ReadsOnlyCommitted | internal/emulation/cache.go:458-499 | a request reads tokens only through an earlier commit of one of its last ten breakpoints, and then exactly up to there |
| CacheRequests.KeyIsFingerprint | internal/emulation/cache.go:280-314 | a request's breakpoint is known by the fingerprint of its blocks, on the truncated fast path and with default marks too |
| CacheRequests.SharedBlocksHit | internal/emulation/cache.go:280-532 | a request that shares its prelude and the blocks up to a breakpoint with a committed one reads at least that, for any hash |
| CacheRequests.ReadsOnlyShared | internal/emulation/cache.go:280-532 | without collisions a request reads only if it shares prelude and leading blocks with one committed before, and then exactly up to there |
| CachePlan.PlanConserves | internal/emulation/cache.go:142-159 | a plan's usage conserves the count and keeps the tail, forced hits included |
| CachePlan.UsageFollows | internal/emulation/cache.go:142-225 | a plan's usage is the tracker's report, or with a forced hit a read of everything, scaled and with the tail kept back; its creation stays under the last breakpoint's TTL |
| CachePlan.Prepare | internal/emulation/cache.go:142-173 | the plan is that of the request's own profile, the tracker has seen exactly one lookup of it, plan or not; a plan conserves the count if and only if that is at least 1, creates under the last breakpoint's TTL alone, and follows the ratios |
| CachePlan.CommitPlan | internal/emulation/cache.go:90-95 | only a plan commits, and it leases exactly its profile's prefixes |
| AnthropicStream.Streamer.CloseCurrentBlock | internal/api/anthropic_handler.go:582-605 | at most one block is open, and it is stopped under its own index; a thinking block is signed once, for exactly its text, or not at all |
| AnthropicStream.Streamer.EnsureBlock | internal/api/anthropic_handler.go:606-621 | continues the block of that type or starts the next index |
| AnthropicStream.Streamer.EmitSyntheticThinking | internal/api/anthropic_handler.go:623-641 | the placeholder comes at most once and only before other content |
| AnthropicStream.Streamer.OnThinking | internal/api/anthropic_handler.go:646-661 | thinking deltas go to a thinking block, which the last chunk closes; never in the two special modes |
| AnthropicStream.Streamer.OnText | internal/api/anthropic_handler.go:664-679 | text goes out at once, or is collected in the special modes |
| AnthropicStream.Streamer.OnPartial | internal/api/anthropic_handler.go:682-715 | a named partial call opens its block; an unnamed one ends the event |
| AnthropicStream.Streamer.OnTool | internal/api/anthropic_handler.go:717-770 | a forwarded call adds its arguments to its block; a dropped one is noted |
| AnthropicStream.Streamer.Finish | internal/api/anthropic_handler.go:817-911 | the finished message is complete: grammar, content, blocks, stop reason |
| AnthropicStream.Streamer.TryAccount | internal/api/anthropic_handler.go:773-816 | another account is tried if and only if the failure is curable and no block was shown |
| AnthropicStream.StreamChat | internal/api/anthropic_handler.go:491-912 | over all attempts: which attempt counts, how the stream ends, that its frames parse, and that they are what the events of that attempt told |
| AnthropicWords.ReadText | internal/api/anthropic_handler.go:664-679 | the text of a stream is what its text deltas say |
| AnthropicWords.ReadJson | internal/api/anthropic_handler.go:717-770 | the arguments of a well-formed stream are the partial json of the blocks started under each id |
| AnthropicWords.ToldWords | internal/api/anthropic_handler.go:646-770 | handling events says the placeholder, if it is due, before anything else, and then every word of every event |
| AnthropicWords.AllWords | internal/api/anthropic_handler.go:646-911 | the same of a message, however it ended, and what closes a complete one |
| AnthropicWords.ArgumentsDelivered | internal/api/anthropic_handler.go:717-770 | under each id the client gets the arguments of the calls forwarded under it, however the message ended |
| AnthropicWords.ThinkingDelivered | internal/api/anthropic_handler.go:623-661 | it gets the upstream thinking, after the placeholder if and only if that is due; none in the special modes |
| AnthropicWords.TextDelivered | internal/api/anthropic_handler.go:664-881 | it gets the upstream text, and what closes a complete message; in the special modes only the latter |
| AnthropicWords.SpokenAll | internal/api/anthropic_handler.go:664-668 | the text collected is that of the events |
| AnthropicWords.BlockedAll | internal/api/anthropic_handler.go:717-728 | the summaries collected are those of the calls not forwarded, in order |
| AnthropicWords.ShowsExact | internal/api/anthropic_handler.go:646-770 | which events show the client a block |
| AnthropicWords.ToldBlocks | internal/api/anthropic_handler.go:606-757 | a block goes on only if its kind was the last one turned to; otherwise another is started |
| AnthropicWords.MessageBlocks | internal/api/anthropic_handler.go:606-881 | the blocks of a message, however it ended |
| AnthropicWords.ThinksFirst | internal/api/anthropic_handler.go:623-641 | the first block of a message that must think is a thinking block |
| AnthropicWords.StopsForTools | internal/api/anthropic_handler.go:883-911 | a message stops for tools if and only if it shows a tool_use block |
| AnthropicWords.BlockPerCall | internal/api/anthropic_handler.go:682-757 | a call has one block exactly when nothing comes between its first touch and its last |
| AnthropicWords.OneBlock | internal/api/anthropic_handler.go:646-770 | the same of a message, however it ended |
| AnthropicWords.CallTwice | internal/api/anthropic_handler.go:682-757 | text between a call's partial frame and the call: two blocks under one id |
| ResponsesStream.Responder.Emit | internal/api/responses.go:566-584 | sequence numbers have no gap |
| ResponsesStream.Responder.OnCall | internal/api/responses.go:681-717 | a fragment joins the item numbered like its index or opens the next one; its exact events |
| ResponsesStream.Responder.Reason | internal/api/responses.go:666-680 | reasoning is put down to the message item, which may not have been added |
| ResponsesStream.Responder.OnChunk | internal/api/responses.go:613-719 | the variables follow what the chunks say, each text and reasoning going out at once |
| ResponsesStream.HeedsChunks | internal/api/responses.go:613-680 | text and reasoning heard are those of the chunks before the end mark, in order; failed if and only if one of them is an error; when text is late and reasoning early |
| ResponsesStream.TextSeen | internal/api/responses.go:645-680 | what a client takes for text and reasoning is what the deltas say |
| ResponsesStream.ArgsSeen | internal/api/responses.go:706-717 | and so for the arguments of each item |
| ResponsesStream.Responder.CloseCalls | internal/api/responses.go:740-785 | each call is done once, in order, with its accumulated payload |
| ResponsesStream.OutputOfEach | internal/api/responses.go:740-785 | each call's finished item, with its input taken out of the arguments if it is of a freeform tool |
| ResponsesStream.Responder.Finish | internal/api/responses.go:722-806 | everything added is done, then one terminal event |
| ResponsesStream.StreamResponses | internal/api/responses.go:566-806 | numbering, contents, deltas that say the text and reasoning of the chunks, every opening and closing event once and in its turn, one terminal event last that repeats the text, failed iff an error chunk; indices steady if and only if nothing came late or crossed; reasoning names an added item if and only if none came early |
| ResponsesStream.NothingAfterEnd | internal/api/responses.go:786-806 | a tidy stream ends only once |
| ResponsesCalls.ItemHolds | internal/api/responses.go:681-708 | an item holds the arguments of the fragments it owns, in order, under the name of the first |
| ResponsesCalls.StreamCollects | internal/api/responses.go:613-719 | the calls of a stream are those its fragments add up to |
| ResponsesCalls.ItemsDelivered | internal/api/responses.go:681-785 | a stream has the items its fragments open; none ever changes its place if and only if no text comes late and no arguments for a call not opened last |
| ResponsesCalls.ArgumentsDelivered | internal/api/responses.go:681-717 | the argument deltas for an item say what its fragments brought, under the name of the first |
| ResponsesCalls.NumberedByIndex | internal/api/responses.go:681-690 | every fragment is in the item numbered like its index if and only if no index skips one |
| ResponsesCalls.ItemPerCall | internal/api/responses.go:681-708 | the same for whole streams; then item k holds all arguments that came under index k |
| ResponsesCalls.OneItemEach | internal/api/responses.go:681-690 | each index has exactly one item to itself if and only if every stray fragment is harmless |
| ResponsesCalls.SplitCall | internal/api/responses.go:681-690 | start and arguments of one call under index 1 alone become two items |
| ResponsesCalls.LoneStray | internal/api/responses.go:681-690 | a gap alone splits nothing |
| ResponsesCalls.InterleavedCallsUnsteady | internal/api/responses.go:706-717 | two calls named, then arguments for the first: emitted under the second's index |
| ResponsesCalls.LateTextUnsteady | internal/api/responses.go:645-665 | text after a call moves the call's index |
| ResponsesCalls.EarlyReasoning | internal/api/responses.go:666-680 | reasoning alone names an item that is never added, at the place of the first call |
| SessionCache.Merged | internal/scheduler/cache.go:145-159 | the non-empty ids without repetitions |
| SessionCache.MergeAliases | internal/scheduler/cache.go:145-159 | the loop keeps first occurrences in order |
| SessionCache.Cache.SetTtl | internal/scheduler/cache.go:29-35 | only a positive TTL is taken |
| SessionCache.Cache.Get | internal/scheduler/cache.go:37-52 | answers as an eagerly expiring map; dropping an expired group cannot be seen from then on |
| SessionCache.Cache.GetAndRefresh | internal/scheduler/cache.go:54-72 | refreshes the whole group of a live binding |
| SessionCache.Cache.SetAliases | internal/scheduler/cache.go:74-99 | binds exactly the ids and the live groups they touch, into one group; all other answers stay |
| SessionCache.Cache.InvalidateAuth | internal/scheduler/cache.go:101-123 | other accounts are untouched; one group per expiry goes; all go if and only if expiries are distinct |
| SessionCache.Cache.ReplaceLocked | internal/scheduler/cache.go:125-133 | the new group replaces those it swallows |
| SessionCache.Cache.RemoveGroupLocked | internal/scheduler/cache.go:135-143 | removes exactly one group |
| SessionCache.WithPartition | internal/scheduler/cache.go:125-133 | laying a group over those it swallows keeps the partition |
| SessionCache.WithoutPartition | internal/scheduler/cache.go:135-143 | dropping a whole group keeps the partition |
| SessionCache.Invalidated | internal/scheduler/cache.go:101-123 | none left if and only if the account's groups have distinct expiries |
| SessionCache.EqualExpiries | internal/scheduler/cache.go:101-123 | a run in which invalidating leaves a binding |
| SessionRuns.MovesSteps | internal/scheduler/cache.go:29-143 | every operation is one step of the specification, at any reading |
| SessionRuns.Replay | internal/scheduler/cache.go:29-143 | any run of operations with any readings answers as the specification |
| SessionRuns.RunGroups | internal/scheduler/cache.go:74-143 | in every run bindings are groups that share account, expiry and members |
| SessionRuns.DropObservable | internal/scheduler/cache.go:41-48 | dropping an expired group shows at another reading if and only if the group is live there |
| SessionRuns.LazyIsEager | internal/scheduler/cache.go:37-99 | a run that hides nothing answers as a cache that drops all that has expired; so does every run with ordered readings |
| SessionRuns.OlderLookupMisses | internal/scheduler/cache.go:41-48 | bound at 0 for 10, looked up at 12, missed at 5 |
| Scheduler.CollectReady | internal/scheduler/pick.go:174-198 | exactly the ready, untried accounts of the group |
| Scheduler.FindId | internal/scheduler/pick.go:233-240 | finds a candidate by id if there is one |
| Scheduler.KeysMeet | internal/scheduler/pick.go:229-231 | two sessions have one binding key if and only if they are the same, or of two models and one id overlaps the other's model |
| Scheduler.KeyShared | internal/scheduler/pick.go:229-231 | such a pair |
| Scheduler.HighestPriority | internal/scheduler/select.go:135-160 | exactly the candidates of top priority |
| Scheduler.PositiveWeight | internal/scheduler/select.go:162-170 | exactly the candidates of positive weight |
| Scheduler.Scheduler.FindPrimary | internal/scheduler/pick.go:120-138 | the bound account if eligible; otherwise only its own bindings and expired groups may go |
| Scheduler.Scheduler.Bind | internal/scheduler/pick.go:110-120 | both session ids are bound to the account picked |
| Scheduler.Scheduler.Pick | internal/scheduler/pick.go:81-158 | a live binding beats any priority; otherwise top priority and, if preferred, warm; none exactly if none is eligible, and then nothing changes; the session is bound to it, and every other session of the model, if not in a live group with it, keeps its binding unless that was to the account dropped |
| Scheduler.Framed | internal/scheduler/pick.go:81-158 | sessions not in a live group with the request's lose a binding only to an account dropped as ineligible |
| Scheduler.FramesSessions | internal/scheduler/pick.go:81-158 | the same said of session ids |
| Scheduler.PickTwice | internal/scheduler/pick.go:81-158 | an undisturbed session gets the same account again |
| Scheduler.AccountIter.Next | internal/api/pick.go:82-163 | every account handed out is eligible and untried this round, a live binding wins at every look, after a lost slot or a wait too, and the session is bound to it; when and why it gives up, in each case |
| Scheduler.AccountIter.BoundTotal | internal/api/pick.go:82-163 | a request gets at most (RequestRetry + 1) * min(N, limit) accounts, each at most RequestRetry + 1 times |
| WeightedRoundRobin.SaturatingAdd | internal/scheduler/select.go:121-129 | exact inside the int64 range, at its ends otherwise |
| WeightedRoundRobin.SmoothState.PickSmoothWeighted | internal/scheduler/select.go:88-119 | skips weights that are not positive, raises the others, takes the first largest and the total off it, in int64 arithmetic |
| WeightedRoundRobin.NoSaturation | internal/scheduler/select.go:88-129 | away from the ends of the int64 range that is exact |
| WeightedRoundRobin.StepBalanced | internal/scheduler/select.go:88-119 | values stay balanced: they sum to zero and count the picks |
| WeightedRoundRobin.BalancedInRange | internal/scheduler/select.go:88-129 | saturation never happens on small enough weights |
| WeightedRoundRobin.FullCycles | internal/scheduler/select.go:88-119 | after full cycles every account was picked exactly in proportion |
| WeightedRoundRobin.Run | internal/scheduler/select.go:88-119 | over any run no account is ahead of its share by a whole pick, nor behind it by as many picks as there are accounts |
| WeightedRoundRobin.BalancedBehind | internal/scheduler/select.go:88-119 | how far a balanced state can leave an account behind |
| Signature.AppendVarint | internal/emulation/signature.go:156-162 | prints base-128 groups, least significant first |
| Signature.ConsumeVarint | internal/emulation/signature.go:281-290 | reads at most ten bytes, or nothing |
| Signature.VarintRoundTrip | internal/emulation/signature.go:156-162 | reading a printed uint64 gives it and its length, whatever follows |
| Signature.AppendBytes | internal/emulation/signature.go:164-168 | appends exactly one encoded bytes field |
| Signature.AppendVarintField | internal/emulation/signature.go:170-173 | appends exactly one encoded varint field |
| Signature.SkipProtobufValue | internal/emulation/signature.go:292-315 | how far each wire type reaches, or a refusal |
| Signature.ProtobufBytesField | internal/emulation/signature.go:217-244 | the loop is the recursive lookup of the first bytes field |
| Signature.ProtobufVarintField | internal/emulation/signature.go:246-271 | the loop is the recursive lookup of the first varint field |
| Signature.FindInField | internal/emulation/signature.go:217-279 | walking over an encoded field finds it or goes on right behind it |
| Signature.LookupsExact | internal/emulation/signature.go:217-271 | on any concatenation of encoded fields 1 to 15 each lookup is the first field of that number and type |
| Signature.GenerateThinkingSignature | internal/emulation/signature.go:99-117 | the nested layout, field by field |
| Signature.InspectThinkingSignature | internal/emulation/signature.go:186-215 | what is read out of any bytes |
| Signature.InspectGenerated | internal/emulation/signature.go:99-215 | inspecting a generated signature recovers channel 16, model, "thinking" and context id |
| SignatureWire.ReadExact | internal/emulation/signature.go:281-290 | a varint is read exactly where there is one, as the number its digits spell, in 64 bits |
| SignatureWire.VarintSpelled | internal/emulation/signature.go:156-162 | a printed varint spells its number, in no more bytes than needed |
| SignatureWire.KnownBytes | internal/emulation/signature.go:156-173 | protobuf's two well-known examples, byte by byte |
| SignatureWire.LookupsAnywhere | internal/emulation/signature.go:217-315 | in any bytes each lookup finds the first field of its number and wire type before the first malformed one |
| SignatureWire.ContainerHolds | internal/emulation/signature.go:109-113 | channel, nonce, session, digest and metadata are all in the container |
| SignatureWire.ChannelHolds | internal/emulation/signature.go:99-107 | id, version, ecdsa signature, model, kind and context id are all in the channel |
| SignatureWire.BodyInjective | internal/emulation/signature.go:99-117 | two signatures are the same only if everything that went into them is |
| Storm.Breaker.Current | internal/adapter/storm.go:75-90 | the slot of a slice, the ring reset or the slot cleared exactly when due |
| Storm.Breaker.StormRecord | internal/adapter/storm.go:61-72 | the log grows by the attempt, or restarts with it unless it is in one of the seven slices from the first on, and the ring keeps agreeing with it |
| Storm.RecordKeeps | internal/adapter/storm.go:75-90 | one record keeps ring and log together, slot zero's reuse included |
| Storm.RingSumsLog | internal/adapter/storm.go:93-103 | the ring's sums never exceed the epoch's log, and equal it while the clock runs on |
| Storm.SlicesAndTime | internal/adapter/storm.go:93-103 | counted slices lie within the last minute and cover its last fifty seconds |
| Storm.TrailingCounts | internal/adapter/storm.go:93-103 | each attempt counts once, each failed one as one failure |
| Storm.Breaker.StormStats | internal/adapter/storm.go:93-103 | never above the true trailing minute; at least the last fifty seconds of the epoch |
| Storm.Breaker.StormOpen | internal/adapter/storm.go:106-120 | open only on at least 12 attempts and 9 failures in the true last minute; by the window's numbers exactly at 12 attempts of which seven in ten failed; so it must open on enough of the last fifty seconds |
| Storm.Breaker.Probe | internal/adapter/storm.go:129-135 | a probe goes through if and only if the last is fifteen seconds old |
| Storm.Breaker.StormAllow | internal/adapter/storm.go:124-135 | a closed breaker lets everything through, an open one exactly the probes that are due |
| Storm.ProbesBounded | internal/adapter/storm.go:124-135 | a stretch of length L sees at most 1 + L/15s probes |
| Keepalive.BackoffFor | internal/auth/keepalive.go:227-239 | the doubling loop is min(2^(c-1), 60) minutes |
| Keepalive.WaitsOfSeven | internal/auth/keepalive.go:24-27 | the waits between eight failures are 123 minutes |
| Keepalive.StreakIs | internal/auth/keepalive.go:186-213 | a streak is the failures since the last success or death, from the first to the last |
| Keepalive.Keepalive.constructor | internal/auth/keepalive.go:29-43 | the default of eight failures |
| Keepalive.Keepalive.Begin | internal/auth/keepalive.go:167-184 | waits, joins or starts; never a second refresh of an account, never before its wait is over |
| Keepalive.Keepalive.Complete | internal/auth/keepalive.go:186-213 | the account dies exactly at the last of maxFailures failures in a row and starts over |
| Keepalive.Keepalive.Release | internal/auth/keepalive.go:215-223 | frees the account, and nothing else |
| Keepalive.OneAtATime | internal/auth/keepalive.go:167-223 | at every point of every history at most one refresh of an account is under way |
| Keepalive.StreaksSlow | internal/auth/keepalive.go:167-223 | a streak of failures takes at least the waits between them |
| Keepalive.DeathTakesItsTime | internal/auth/keepalive.go:189-208 | death comes with exactly the configured number of failures and no sooner than their waits |
| Keepalive.DefaultDeath | internal/auth/keepalive.go:20-43 | with the default never sooner than 123 minutes after the first failure |
| UsageWindow.Account.PruneUses | internal/pool/account.go:526-540 | of ordered uses exactly the last sixty seconds are left; the count goes on or starts over |
| UsageWindow.Account.RecordUse | internal/pool/account.go:520-524 | one use more; the minute is exact, the daily count if and only if no use of the day is lost |
| UsageWindow.Account.OverLimit | internal/pool/account.go:542-552 | decides by the minute before the latest reading, even if its own is older, and by its own day's uses unless some are lost; a change of day lifts the daily limit |
| UsageWindow.MinuteExact | internal/pool/account.go:520-540 | whatever readings the checks come with, what is kept are the uses of the minute before the latest reading |
| UsageWindow.DailyExact | internal/pool/account.go:520-540 | the daily count is that day's uses if and only if none was followed by a reading of another day |
| UsageWindow.OrderedKeeps | internal/pool/account.go:520-540 | nothing is lost while readings come in order |
| UsageWindow.CheckForgetsDay | internal/pool/account.go:350-361 | a use at midnight, a check with a reading from before it, another use: a count of one |
| UsageWindow.Account.EffectiveLimits | internal/pool/account.go:554-576 | each limit is the first positive of account, overlay and groups |
| UsageWindow.Account.Use | internal/pool/account.go:494-504 | a use that reaches a limit counts as a failure of the account, at that use |
| UsageWindow.RecentIsSuffix | internal/pool/account.go:526-534 | of ordered uses the recent ones are a suffix |
| UsageWindow.UsesAll | internal/pool/account.go:520-524 | what is counted are the uses, in order, and nothing else |
| UsageWindow.OnDayCounts | internal/pool/account.go:536-540 | the uses of a day are counted one by one |
| UsageWindow.LimitKept | internal/pool/account.go:542-552 | a minute limit obeyed at each use is kept over every minute |
| UsageWindow.LimitReached | internal/pool/account.go:542-552 | and as many uses as it allows obey it, one more does not |
| UsageWindow.InForce | internal/pool/account.go:554-576 | the first positive of the account's own limit, the overlay's and the groups'; none if none is positive |
| ClientKeys.LoadInverse | internal/clientkeys/store.go:82-102 | loading gives inverse indexes if and only if the list is unambiguous |
| ClientKeys.SaveLoad | internal/clientkeys/store.go:82-120 | loading what was saved gives both indexes back, and the next id exactly if the last one is still in use |
| ClientKeys.IdReused | internal/clientkeys/store.go:82-247 | create, delete, restart, create: the same id |
| ClientKeys.Store.constructor | internal/clientkeys/store.go:82-102 | the store is sound exactly on unambiguous lists; on all lists every plaintext leads to an entry |
| ClientKeys.Store.Save | internal/clientkeys/store.go:105-120 | after a save nothing is pending, unless the write failed |
| ClientKeys.Store.CreateWithKey | internal/clientkeys/store.go:158-179 | a known plaintext changes nothing; a new one gets a fresh id and is written at once; it fails exactly if the plaintext's entry is gone |
| ClientKeys.PlaintextWithoutEntry | internal/clientkeys/store.go:82-247 | two plaintexts loaded under one id, the id deleted: the first is known without an entry |
| ClientKeys.Store.EnsureSystemKey | internal/clientkeys/store.go:184-233 | the plaintext becomes a system key, at id 0 if that is free, keeping its data; all other plaintexts stay; it fails exactly if it would move an entry that is gone |
| ClientKeys.Store.Relocate | internal/clientkeys/store.go:200-211 | the entry moves to id 0, and the plaintext leads there; inverse indexes stay inverse |
| ClientKeys.Store.Delete | internal/clientkeys/store.go:236-247 | system keys are never deleted; a deletion clears both indexes, and leaves exactly the other plaintexts of that id without an entry |
| ClientKeys.Store.SetDisabled | internal/clientkeys/store.go:250-260 | changes one flag of one key |
| ClientKeys.Store.Rotate | internal/clientkeys/store.go:338-351 | keeps id and data; a sound store stays sound if and only if the new plaintext is not another key's |
| ClientKeys.Store.VerifyAndTouch | internal/clientkeys/store.go:374-396 | accepts exactly the plaintext of some enabled entry, in any store, and counts the call there; in a sound one that is an index lookup filtered by not disabled |
| ClientKeys.Store.RecordUsage | internal/clientkeys/store.go:404-423 | totals in memory are the stored ones plus the pending records: those counted, and those carried over failed writes; every hundredth is written |
| ClientKeys.AfterSums | internal/clientkeys/store.go:404-416 | each total grows by its own part of the key's records, credits by the positive ones |
| ClientKeys.LagBounded | internal/clientkeys/store.go:31-35 | while writes succeed at most 99 records are missing, on every continuation, if and only if nothing is carried |
| ClientKeys.HundredthLost | internal/clientkeys/store.go:105-120 | the write at the hundredth record fails: a hundred missing, count 0 |
| ClientKeys.LagUnbounded | internal/clientkeys/store.go:105-120 | while writes fail the lag has no bound |
| ClientKeys.OneEach | internal/clientkeys/store.go:158-163 | no two entries share a plaintext |
| Batches.Batch.IsCancelled | internal/api/batches.go:151-168 | completes a cancellation, or lets the worker go on |
| Batches.Batch.AppendResult | internal/api/batches.go:143-148 | answers the next request in order |
| Batches.Batch.Finish | internal/api/batches.go:171-179 | ends a batch in progress; a canceling one is left as it is |
| Batches.Batch.Cancel | internal/api/batches.go:195-208 | only a batch in progress can be cancelled; terminal states are absorbing |
| Batches.Batch.ProcessBatch | internal/api/batches.go:211-231 | final status and number of answers for a cancellation at any point, stuck batches included |
| Batches.Batch.ToResponse | internal/api/batches.go:261-286 | succeeded counts exactly the results that succeeded, errored the others; the counts are non-negative and add up to the requests |
| Batches.AnswersInOrder | internal/api/batches.go:211-229 | each result is of the request in its place, and succeeds or fails exactly as the upstream did |
| ShellQuote.LexQuoted | internal/api/toolmap.go:707-709 | any text in quotes reads back as itself and joins the word under way |
| ShellQuote.LexRequoted | internal/api/toolmap.go:707-709 | quotes inside the text survive being closed, escaped and reopened |
| ShellQuote.NumberReadBack | internal/api/toolmap.go:662-667 | a limit in decimal is that number |
| ShellQuote.Command.WithHead | internal/api/toolmap.go:662-667 | the head pipeline is added exactly for a positive limit |
| ShellQuote.DeleteToBash | internal/api/toolmap.go:683-693 | the path is one unaltered word; empty and root are refused |
| ShellQuote.GlobToBash | internal/api/toolmap.go:621-633 | path and name are one unaltered word each, then the limit; the pattern is "pattern" or else "glob" |
| ShellQuote.GlobPatternToFind | internal/api/toolmap.go:635-647 | the find command, its parentheses escaped |
| ShellQuote.GrepToBash | internal/api/toolmap.go:582-619 | pattern and path are one unaltered word each, the glob the rest of the include option; file-name patterns go to find, with find's reading of the fields |
| ShellQuote.OutputFlag | internal/api/toolmap.go:600-607 | files with matches, counts or numbered lines: each by its own flag |
| ShellQuote.FindSearchesPattern | internal/api/toolmap.go:587-626 | find searches for grep's pattern if and only if it came as "pattern", or "glob" equals "query" |
| ShellQuote.QueryLost | internal/api/toolmap.go:587-626 | a pattern given as "query" is refused, or another searched for |

## Left out

Deliberately weaker, or narrower, than the code:

- Signature.ProtobufBytesField: lengths of 2^63 and more wrap to negative integers in the source; lengths are unbounded here, so the lookups agree with the source on encoder output and on all shorter lengths.
- Signature.SkipProtobufValue: the same wrap-around of lengths.
- Signature.ProtobufVarintField: the same, where it skips bytes fields.
- Signature.InspectThinkingSignature: the same, on bytes that no generator made.
- Storm.Breaker.StormStats: nothing is claimed about attempts from before the last ring reset, which the source forgets.
- Storm.Breaker.StormOpen: the failure rate is compared exactly as 10 f >= 7 n; the source divides in floating point, which agrees for any realistic number of attempts.
- CacheUsage.Round: ratios and products are exact reals; floating-point error before rounding is not modelled.
- Scheduler.Scheduler.PickBest: round-robin, weighted and fill-first choices inside a tier are "some member"; the weighted one is modelled on its own in WeightedRoundRobin, on an unchanging list.
- Scheduler.AccountIter.Next: the text and status of the error for each way of giving up are not modelled.
- UsageWindow.Account.RecordUse: the minute is claimed for uses that are no older than any reading before them, as they are under the lock and a clock that runs forward; counts restored at start-up and changed limits are left out.
- Scheduler.Scheduler.Pick: its regions under the cache's lock follow each other directly and its two lookups share one reading; when another pick comes in between, its claims hold of each region alone (`SessionCache.Cache`, `Scheduler.Scheduler.Bind`), not of the whole.
- SessionRuns.LazyIsEager: where an operation hides a binding from an older reading, the answers of the run are those of `SessionRuns.Replay`, and nothing is claimed about the eager cache.
- Keepalive.DeathTakesItsTime: durations are claimed for histories whose clock does not run backwards, as the source's monotonic readings do not.
- Keepalive.Keepalive.Complete: the dead callback runs outside the lock and only its moment is modelled; a refresh that panics is left out.
- ClientKeys.Store.RecordUsage: totals and ids are unbounded integers; timestamps, descriptions and group renames are left out.
- WeightedRoundRobin.SmoothState.PickSmoothWeighted: ids are distinct, as in a pool; fairness is proved for an unchanging list of small enough weights.
- Batches.Batch.ProcessBatch: one cancellation within one process; restored batches, which the source replays from the first item, are left out.
- ShellQuote.GrepToBash: arguments come in parsed and trimmed; how the programs read a word that starts with a dash is not the shell's affair.
- AnthropicStream.StreamChat: pings, usage numbers and the SSE byte format are erased.
- ResponsesStream.StreamResponses: item ids are their items, usage numbers are erased, and negative tool-call indices are left out.

Not modelled at all:

- JSON parsing, regular expressions, token estimators, SHA-256, base64, ECDSA and random identifiers: parsed values, counts, an arbitrary hash function and random draws are parameters.
- The escapes of U+2028 and U+2029 in canonical JSON, and Unicode case folding and space trimming.
- HTTP handlers, PostgreSQL, the login sidecar, egress clients, the web UI and scripts.
- The signature LRU cache, the log ring, the request meters, the concurrency gate and its resizing.
- The `tokens` field of tracker entries, which nothing ever reads, is kept but not specified.
- The release balance of accounts on the retry path and the quota re-enable logic.
