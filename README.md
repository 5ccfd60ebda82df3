# Discord.RSS feed schedule, modelled in Dafny

This project models the feed retrieval cycle of Discord.RSS. A `FeedSchedule` owns the feeds assigned to one refresh rate. On every `run` it does four things:

- it gives up a cycle that is still in progress;
- it folds the schedule's eligible feeds into a source map, which deduplicates them by URL;
- it cuts that map into batches;
- it dispatches the batches to fetchers, either one batch after another or across a bounded pool of forked processors.

Each fetch reports articles, headers and a final success or failure. From these reports the schedule counts finished links, drives the per-URL fail counters and ends the cycle.

Alongside the schedule the project models:

- the failure counter (a circuit breaker per URL);
- the channel permission check that decides whether a feed is skipped;
- the per-shard statistics record;
- the pruning of a format's embeds.

Everything the controller asks of the outside world is appended to a sequence of `Effect` values, in the order it is asked. That covers fetching, forking and killing processors, counter increments and resets, enabling and disabling feeds, emitted articles and saved statistics. Clocks, the configuration and the bot's view of guilds and channels are inputs.

Files, one module each:

- `wrappers.dfy`: `Option`, `Result` and JavaScript truthiness of strings.
- `ordered_maps.dfy`: an insertion-ordered map, which stands for a JavaScript `Map` or a plain object.
- `fail_counter.dfy`: the counter record functions, the `FailCounter` class and the store the static methods use.
- `check_permissions.dfy`: `checkPermissions` as a function that returns its verdict and the disable or enable call it makes.
- `shard_stats.dfy`: the `ShardStats` class.
- `format_prune.dfy`: `pruneEmbeds` over a `Format` object.
- `sources.dfy`: the feeds, the source map, selection, eligibility, batching, the pending-link table and fetch settings.
- `dispatch.dfy`: how a report is handled, the sequential hand-over from batch to batch, and the pool's spawn order.
- `feed_schedule.dfy`: the `FeedSchedule` class, whose methods update its fields in place.

## Model

| member | source | states |
|---|---|---|
| FeedSchedules.FeedSchedule.Create | src/structs/FeedSchedule.js:27-33 | construction fails exactly when the refresh rate is 0, or when a schedule that is neither `default` nor the supporter schedule has no keywords and no feed names; each case has its own error message; otherwise the schedule is fresh and in its initial state |
| FeedSchedules.FeedSchedule.constructor | src/structs/FeedSchedule.js:34-63 | name, refresh rate and settings are stored; all lists, counters and caches start empty or at zero |
| FeedSchedules.FeedSchedule.DelegateFeed | src/structs/FeedSchedule.js:95-108 | the source map becomes `Delegate(old, feed)`: the feed is filed under its URL and id |
| Sources.DelegateSpec | src/structs/FeedSchedule.js:95-108 | delegating extends an existing URL entry in place or appends a new URL at the end of the order; every other URL's list is unchanged |
| FeedSchedules.FeedSchedule.AddToSourceLists | src/structs/FeedSchedule.js:114-174 | returns true exactly when the feed is `Eligible` (guild and channel present, counter not tripped, not disabled by the permission check); the feed is delegated only then; the disable or enable call of the permission check is appended to the effects |
| Sources.PermissionAction | src/structs/FeedSchedule.js:140-141 | an `Enable` call happens only for a feed that is then added; a disable call only for one that is skipped; no call is made for a feed turned away before the check |
| Sources.DebugDisabledWithoutCounterThrows | src/structs/FeedSchedule.js:142-146 | as written, a traced feed that is disabled and has no fail counter makes `_addToSourceLists` throw |
| Sources.AddDecisionIsEligible | src/structs/FeedSchedule.js:114-174 | apart from that throw, the decision as written is `Eligible`; the throw happens exactly for traced, disabled feeds without a counter |
| Sources.SelectedExact | src/structs/FeedSchedule.js:317-330 | the corrected feed loop keeps exactly the feeds whose determined schedule is this schedule's name |
| Sources.ForeignFeedAbortsRun | src/structs/FeedSchedule.js:321-323 | as written, one feed of another schedule ahead of this schedule's feed makes `run` return with nothing selected; the corrected loop keeps the later feed |
| Sources.AsWrittenAgreesWithoutForeign | src/structs/FeedSchedule.js:317-330 | when every feed belongs to this schedule, the loop as written and the corrected loop both select all feeds |
| Sources.AcceptedExact | src/structs/FeedSchedule.js:327-329 | a feed is counted exactly when it is one of the selected feeds and eligible |
| Sources.AggregateStoresEvery | src/structs/FeedSchedule.js:95-108 | every delegated feed is stored under its URL and its id |
| Sources.AggregateUrls | src/structs/FeedSchedule.js:95-108 | the source map's URLs are exactly the delegated feeds' URLs, and no URL's list is empty |
| Sources.AggregateStoresOnlyFeeds | src/structs/FeedSchedule.js:95-108 | every stored entry is a delegated feed, filed under its own URL and id |
| Sources.AggregateCountsUrls | src/structs/FeedSchedule.js:95-108 | the source map holds one list per distinct URL |
| Sources.AggregateKeysFirstSeen | src/structs/FeedSchedule.js:95-108 | the source map lists URLs in the order the feeds first mention them |
| FeedSchedules.CounterMapLastWins | src/structs/FeedSchedule.js:302-305 | `failCounters` holds exactly the stored URLs, each mapped to the last record stored for it |
| FeedSchedules.FeedSchedule.FoldFeeds | src/structs/FeedSchedule.js:316-330 | the source map is the aggregate of the selected eligible feeds; the count is how many there are; the permission calls for the selected feeds are appended in order |
| FeedSchedules.FeedSchedule.Prepare | src/structs/FeedSchedule.js:302-333 | counters are stored; batch lists, cycle counts, the pending table and the modded map are reset; the feeds are folded in; `inProgress` is set and `feedCount` is the admitted count |
| FeedSchedules.CutBatches | src/structs/FeedSchedule.js:176-207 | one batching loop gives exactly `Batches(m, size)`, and marks each link pending once (regular lane) or one more time (modded lane) |
| FeedSchedules.FeedSchedule.GenBatchLists | src/structs/FeedSchedule.js:176-209 | both batch lists are extended by the batches of their source maps; regular links are then marked pending, then modded links |
| Sources.ScanLinks | src/structs/FeedSchedule.js:179-186 | every batch the loop closes is full, the open batch holds between 1 and `size` links, and together they hold the links in order |
| Sources.BatchesExact | src/structs/FeedSchedule.js:176-191 | with a batch size of at least 1, each batch holds 1 to `size` links and all but the last exactly `size`; each maps its links to the source map's own lists; concatenated, the batches give the source map's links in order |
| Sources.BatchesCoverOnce | src/structs/FeedSchedule.js:176-191 | each link is in exactly one batch, and no URL of the map is missed |
| Sources.BatchCount | src/structs/FeedSchedule.js:176-191 | there are as many batches as `size`-sized slices, rounded up, and none for an empty map |
| Sources.ZeroSizeFirstBatchEmpty | src/structs/FeedSchedule.js:180-183 | with a batch size of 0 or less the first batch pushed is the empty one |
| Sources.BatchesExist | src/structs/FeedSchedule.js:176-191 | whatever the batch size, a map with links yields batches and an empty one yields none |
| Sources.ExampleThreeUrlsInTwos | src/structs/FeedSchedule.js:176-191 | three URLs in batches of two give a batch of two and then a batch of one |
| Sources.MarkRegularExact | src/structs/FeedSchedule.js:188 | after marking, every regular link awaits exactly one response and other entries are untouched |
| Sources.MarkRegularKeys | src/structs/FeedSchedule.js:188 | distinct links marked into an empty table appear in their own order |
| Sources.MarkModded | src/structs/FeedSchedule.js:204-205 | the intended modded marking sets a falsy entry to 1 and adds 1 to any other entry |
| Sources.ModdedMarkClobbers | src/structs/FeedSchedule.js:204 | as written, a new modded link replaces the whole pending table, the regular entries included |
| Sources.ModdedMarkAgrees | src/structs/FeedSchedule.js:205 | where the entry is a non-zero count, the marking as written and the intended one agree |
| Sources.Decrement | src/structs/FeedSchedule.js:391 | decrementing lowers the link's count by 1; a missing key or NaN becomes NaN; other entries are unchanged |
| FeedSchedules.FeedSchedule.Recover | src/structs/FeedSchedule.js:212-234 | a cycle still in progress is abandoned. Without isolated processors only `inProgress` is cleared. With them, each link whose count is not exactly 0 gets a timeout increment, then every processor is killed and the list is emptied |
| FeedSchedules.BlameUnresponded | src/structs/FeedSchedule.js:219-225 | the increments are one per link whose pending count is not exactly 0, in table order, with the timeout reason |
| Sources.UnrespondedExact | src/structs/FeedSchedule.js:219-221 | a link is blamed exactly when its entry is not exactly 0 |
| FeedSchedules.FeedSchedule.Launch | src/structs/FeedSchedule.js:336-342 | with no sources, `inProgress` is cleared and the cycle finishes with `noFeeds`, without dispatching; otherwise the first regular batch is dispatched sequentially, or the pool is started |
| FeedSchedules.FeedSchedule.StartBatches | src/structs/FeedSchedule.js:334-342 | the batch lists and pending table equal those of the source map; then the cycle finishes at once or dispatches, as `Launch` says |
| FeedSchedules.FeedSchedule.Run | src/structs/FeedSchedule.js:211-343 | after recovery and preparation the source map, counters, batch lists, pending table and `feedCount` are those of the admitted feeds. `inProgress` holds exactly when there are sources. The effects are the recovery effects, then the permission calls, then either the finish of an empty cycle, the first batch's fetches, or the pool's forks |
| FeedSchedules.FeedSchedule.GetBatch | src/structs/FeedSchedule.js:345-370 | a session is opened for the batch asked for (an empty list is redirected to the first modded batch), and each of its links is fetched with its source list and unique settings |
| FeedSchedules.FetchBatch | src/structs/FeedSchedule.js:350-370 | one fetch per link of the batch, in order, carrying the URL's source list and settings |
| Dispatch.Redirect | src/structs/FeedSchedule.js:346 | an empty list is served as the first modded batch; any other call is served as asked |
| Dispatch.Open | src/structs/FeedSchedule.js:346-349 | the session opened is well formed, with no link completed |
| FeedSchedules.FeedSchedule.FireTimer | src/structs/FeedSchedule.js:396-397 | a pending 200 ms timer is removed and its `_getBatch` call runs |
| FeedSchedules.FeedSchedule.RecordOutcome | src/structs/FeedSchedule.js:379-391 | a failure raises the fail count and increments the URL's counter; a success resets it; the total rises by 1 and the link's pending count falls by 1 |
| FeedSchedules.FeedSchedule.OnLinkCompletion | src/structs/FeedSchedule.js:371-399 | an article is emitted and changes nothing else. Any other report is one finished link; once the batch is complete it sets a timer for the next batch, sets one for the modded lane, or finishes the cycle |
| FeedSchedules.FeedSchedule.CountFinishedLink | src/structs/FeedSchedule.js:379-399 | the callback's count of a finished link, with the hand-over `AfterLink` chooses |
| Dispatch.HandOver | src/structs/FeedSchedule.js:395-398 | the hand-over waits until every link of the batch has reported. It then moves to the next batch of the lane, from the last regular batch to the first modded one, or to the end of the cycle, in that order of preference |
| Dispatch.StepRemaining | src/structs/FeedSchedule.js:371-399 | each counted report brings the end of a sequential cycle one report closer, and an article changes nothing |
| Dispatch.Drive | src/structs/FeedSchedule.js:371-399 | feeding reports keeps the cursor well formed and lowers the reports remaining by the number of non-article reports |
| Dispatch.SequentialCycleEnds | src/structs/FeedSchedule.js:345-402 | a sequential cycle whose batches all hold links ends exactly once as many counted reports have arrived as there are links in both lanes |
| FeedSchedules.FeedSchedule.GetBatchParallel | src/structs/FeedSchedule.js:404-487 | a new pool is made over both lists. A positive width spawns that many turns, with callbacks. Otherwise every batch is deployed without a callback, regular batches first. The new slots, processors and forks follow that order |
| Dispatch.NewPoolQueue | src/structs/FeedSchedule.js:480-481 | a new pool is consistent and queues every batch, regular ones first |
| Dispatch.OrderRegularFirst | src/structs/FeedSchedule.js:483-484 | in deployment order every regular batch precedes every modded one, each lane in index order |
| Dispatch.OrderRefsOk | src/structs/FeedSchedule.js:483-484 | every batch in the deployment order exists in the pool's lists |
| FeedSchedules.FeedSchedule.DeployAll | src/structs/FeedSchedule.js:483-484 | one processor per batch of the order, without callbacks, numbered consecutively, each sent its batch and the header cache |
| FeedSchedules.FeedSchedule.Deploy | src/structs/FeedSchedule.js:412-466 | one fork: a new slot sized to its batch, the processor tracked, and its batch, headers and run number sent |
| Dispatch.SpawnedTakesPrefix | src/structs/FeedSchedule.js:468-477 | `spawn(count)` deploys the first `count` queued batches (all of them if fewer) in queue order, counts `count` starts, and keeps the pool consistent |
| Dispatch.SpawnedSucc | src/structs/FeedSchedule.js:469-476 | `count + 1` turns are `count` turns followed by one more |
| Dispatch.SpawnOneIsFirstTurn | src/structs/FeedSchedule.js:470-472 | one loop turn takes the next regular index, else the next modded one, else nothing |
| Dispatch.SpawnedNone | src/structs/FeedSchedule.js:469 | a count of 0 or less runs no turn |
| Dispatch.InitialSpawn | src/structs/FeedSchedule.js:479-482 | the opening spawn starts at most `parallelBatches` batches, regular before modded, in order |
| FeedSchedules.FeedSchedule.Turn | src/structs/FeedSchedule.js:469-475 | one turn of the spawn loop is the closed form with a count of 1 |
| FeedSchedules.FeedSchedule.Spawn | src/structs/FeedSchedule.js:468-477 | `count` turns deploy exactly the batches of the closed form `Spawned`, with callbacks |
| FeedSchedules.FeedSchedule.Handshake | src/structs/FeedSchedule.js:473-474 | a handshake spawns one more turn exactly while fewer batches than the total have been started |
| FeedSchedules.FeedSchedule.OnProcessorMessage | src/structs/FeedSchedule.js:422-453 | headers are cached and an article is emitted. A handshake with a callback spawns one more turn, as `Spawn` states, and one without is ignored. A terminal report counts a link; the batch's last link kills the processor, and the pool's last batch empties the list and finishes the cycle |
| FeedSchedules.FeedSchedule.OnSignal | src/structs/FeedSchedule.js:423-428 | the non-terminal reports, as above |
| FeedSchedules.FeedSchedule.CountProcessorLink | src/structs/FeedSchedule.js:429-452 | a terminal report to a processor counts one link; the batch's last link completes the batch |
| FeedSchedules.FeedSchedule.CompleteBatch | src/structs/FeedSchedule.js:445-451 | a completed batch is counted and its processor killed; after the pool's last batch the list is emptied and the cycle finishes |
| Dispatch.CountedIsTerminal | src/structs/FeedSchedule.js:422-453 | as intended, a processor counts exactly its terminal reports |
| Dispatch.AsWrittenAgreesWithCallback | src/structs/FeedSchedule.js:428 | with a callback, the handler as written counts as intended |
| Dispatch.HandshakeCountsAsLink | src/structs/FeedSchedule.js:428 | as written, without a callback the handshake counts as a finished link |
| FeedSchedules.FeedSchedule.KillChildren | src/structs/FeedSchedule.js:489-492 | every tracked processor is killed, in order, and the list is emptied |
| FeedSchedules.FeedSchedule.FinishCycle | src/structs/FeedSchedule.js:494-530 | the completion notice and statistics are sent. Unless the cycle had no feeds, `inProgress` is cleared when no processor is tracked and `finish` is emitted. `ran` rises by 1 |
| Sources.UniqueSettingsLastWins | src/structs/FeedSchedule.js:352-358 | a URL's fetch settings are those of its last feed with non-empty `advanced`, and are absent exactly when no feed has any |
| Sources.AgreeingSettingsKept | src/structs/FeedSchedule.js:352-358 | when every feed of a URL that has settings has the same ones, those settings reach the fetch |
| Sources.EarlierSettingsDropped | src/structs/FeedSchedule.js:352-358 | of two feeds with different settings on one URL, only the later feed's settings reach the fetch |
| FailCounters.FailCounter.constructor | src/tests/structs/db/unit_FailCounter.test.js:8-28 | a missing count starts at 0; the given url, count, reason and failure time are kept |
| FailCounters.FailCounter.ToObject | src/tests/structs/db/unit_FailCounter.test.js:271-293 | exactly the url, count, reason and failedAt fields |
| FailCounters.FailCounter.Fail | src/tests/structs/db/unit_FailCounter.test.js:119-236 | the reason is set, the count is pinned to the limit and `failedAt` is stamped only when unset; `save` is called exactly when one of them changed |
| FailCounters.FailCounter.Increment | src/tests/structs/db/unit_FailCounter.test.js:237-270 | once tripped, delegates to `fail`. Otherwise it adds 1, stamps `failedAt` on the increment that trips the counter, and saves |
| FailCounters.IncrementsFromFresh | src/tests/structs/db/unit_FailCounter.test.js:237-270 | from a fresh counter, `n` increments give a count of `min(n, limit)`; they trip, and carry a failure time, exactly once `n` reaches the limit |
| FailCounters.TrippedStaysTripped | src/tests/structs/db/unit_FailCounter.test.js:238-248 | once tripped, an increment keeps the counter tripped at the limit and keeps the first failure time |
| FailCounters.IncrementWithinLimit | src/tests/structs/db/unit_FailCounter.test.js:237-270 | with a positive limit, a count within the limit never passes it |
| FailCounters.ZeroLimitNeverTrips | src/tests/structs/db/unit_FailCounter.test.js:91-99 | a limit of 0 never trips; increments only count |
| FailCounters.FailCounterStore.Increment | src/tests/structs/db/unit_FailCounter.test.js:29-47 | the stored records become `StoreIncrement(old, url)`: the URL's counter, or a new one, is incremented |
| FailCounters.FailCounterStore.Reset | src/tests/structs/db/unit_FailCounter.test.js:48-66 | the URL's counter is deleted and the others are kept |
| FailCounters.FailCounterStore.HasFailedMeansStore | src/tests/structs/db/unit_FailCounter.test.js:67-85 | the static `hasFailed` is false without a counter and is the counter's own `hasFailed` otherwise |
| FailCounters.ResetThenIncrement | src/tests/structs/db/unit_FailCounter.test.js:29-66 | after a reset, the next increment behaves like the URL's first one |
| FailCounters.StoreOpsAreLocal | src/tests/structs/db/unit_FailCounter.test.js:29-66 | increments and resets of one URL leave every other URL's counter as it was |
| Permissions.OtherReasonSkips | src/util/maintenance/checkPermissions.js:12-15 | a feed disabled for another reason is skipped, with no check and no call |
| Permissions.DisabledIffMissing | src/util/maintenance/checkPermissions.js:16-44 | otherwise the feed is skipped exactly when a required permission is missing |
| Permissions.EmbedLinksOnlyForEmbeds | src/util/maintenance/checkPermissions.js:21 | EMBED_LINKS makes no difference unless the format has an embed |
| Permissions.MissingNamesExact | src/util/maintenance/checkPermissions.js:23-26 | a permission is named exactly when it is missing, in the order SEND_MESSAGES, EMBED_LINKS, VIEW_CHANNEL |
| Permissions.ReasonIsMissingPermissions | src/util/maintenance/checkPermissions.js:27 | every reason written starts with "Missing permissions" |
| Permissions.ActionsByCase | src/util/maintenance/checkPermissions.js:28-44 | disable when not disabled; update the reason when it differs; nothing when it is the same; enable when nothing is missing any more; by case |
| Permissions.CheckSettles | src/util/maintenance/checkPermissions.js:11-45 | after its call is carried out, checking the feed again gives the same verdict and asks for nothing more |
| ShardStatistics.Create | src/structs/db/ShardStats.js:5-41 | construction fails with "Undefined _id" exactly when `_id` is missing or empty; otherwise the object holds the defaulted fields |
| ShardStatistics.ShardStats.constructor | src/structs/db/ShardStats.js:16-40 | each field is its given value, or 0 (`lastUpdated`: 'N/A') when absent |
| ShardStatistics.ShardStats.ToObject | src/structs/db/ShardStats.js:43-52 | exactly the six persisted fields |
| ShardStatistics.Defaults | src/structs/db/ShardStats.js:16-40 | with only an `_id`, every counter is 0 and `lastUpdated` is 'N/A'; given values are kept |
| Formats.Format.PruneEmbeds | src/tests/structs/db/int_Format.database.test.js:28-63 | the embeds become `Pruned(old)`: incomplete fields are dropped, then embeds left empty, in order |
| Formats.PruneFields | src/tests/structs/db/int_Format.database.test.js:29-49 | the fields kept are exactly the complete ones, in order |
| Formats.CompleteFieldsExact | src/tests/structs/db/int_Format.database.test.js:29-49 | exactly the fields with both a name and a value survive; nothing changes when all are complete |
| Formats.PrunedNonEmpty | src/tests/structs/db/int_Format.database.test.js:50-62 | no embed left is empty, and each is the pruned form of an input embed |
| Formats.PrunedKeeps | src/tests/structs/db/int_Format.database.test.js:50-62 | an embed with any property or any complete field is kept |
| Formats.PrunedIdempotent | src/tests/structs/db/int_Format.database.test.js:28-63 | pruning twice changes nothing more |
| Formats.ExampleFields | src/tests/structs/db/int_Format.database.test.js:29-49 | the fields example: the empty and the name-only field are removed |
| Formats.ExampleNonField | src/tests/structs/db/int_Format.database.test.js:50-62 | the non-field example: the two empty embeds around the titled one are removed |

## Left out

- I/O is not modelled. Logging, `console.log`, `process.send`, database reads and writes, `childProcess.fork`, timers and `getArticles` appear only as `Effect` values or as inputs. A timer's firing is the separate operation `FireTimer`.
- The clock is an input: `Date` values are `Timestamp` numbers, and cycle times are not modelled.
- The supporter limits, `debugFeedLinks` and the profile, subscriber and format loading at FeedSchedule.js:236-301 are left out. Each feed's determined schedule name and each format's embed count are inputs.
- `feedData`, the databaseless article store, is left out.
- The running averages `_finishCycle` writes to `ShardStats` use floating point and are left out; the statistics saved are an `Effect`.
- Concurrency is left out: callbacks and processor messages are delivered one at a time, in whatever order the caller chooses.
- `config.dev` at FeedSchedule.js:156-158 returns true early; both branches return true.
- FeedSchedules.FeedSchedule.DelegateFeed: the stored value is the `Feed` itself. The subscribers, format, filtered formats and date settings looked up at FeedSchedule.js:71-88 are not modelled. The webhook is cleared at 90-93, after `data` has been copied, so the stored entry is unaffected; the feed object it mutates is not modelled.
- FailCounters.FailCounterStore.Increment: FailCounter.js is not part of this model. A URL without a counter gets a new one before the increment. This is an assumption: the test at unit_FailCounter.test.js:29-47 shows only the case where a counter is found.
- FailCounters.IncrementRecord: the model stamps `failedAt` on the increment that first reaches the limit. The tests at unit_FailCounter.test.js:237-270 do not settle this.
- ShardStatistics.FieldOr: Base.js is not part of this model. `getField(key, fallback)` is read as "the stored value when present, else the fallback".
- Dispatch.CallOk: a `_getBatch` call with both lists empty would recurse without end at FeedSchedule.js:346. `run` dispatches only when a source map is non-empty, and `Launch` establishes `CallOk` for the first call. So `GetBatch` requires `CallOk`, and that unbounded recursion is not modelled.
- FeedSchedules.FeedSchedule.Run: nothing fills the modded source map (FeedSchedule.js:314 clears it and no code adds to it), so the modded lane is always empty after `run`. The modded lane is modelled in `GenBatchLists`, `GetBatch` and the pool for any content.
- FeedSchedules.FeedSchedule.Run: the feed loop is modelled as intended, skipping feeds of other schedules. The `return` as written is modelled by `Sources.SelectedAsWritten` (see Findings).
- FeedSchedules.FeedSchedule.AddToSourceLists: follows the corrected decision `Sources.Eligible`, so a traced, disabled feed without a fail counter is skipped rather than throwing at FeedSchedule.js:144. The throw as written is modelled by `Sources.AddDecisionAsWritten` (see Findings).
- FeedSchedules.CutBatches: the modded lane follows the corrected marking `Sources.MarkModded`, which sets the link's entry rather than replacing the whole table at FeedSchedule.js:204. The assignment as written is modelled by `Sources.MarkModdedAsWritten` (see Findings).
- FeedSchedules.FeedSchedule.GenBatchLists: marks modded links through `CutBatches`, so it follows the corrected marking at FeedSchedule.js:204, not the assignment as written.
- FeedSchedules.FeedSchedule.OnProcessorMessage: follows the corrected handler `Dispatch.ParallelHandling`, which ignores a `batch_connected` message from a processor without a callback. As written, FeedSchedule.js:428 lets it fall through to the link counting; `Dispatch.ParallelHandlingAsWritten` models that (see Findings).
- FeedSchedules.FeedSchedule.OnSignal: spawns a turn on a `batch_connected` message only when the processor has a callback, and otherwise ignores it, as the corrected handler does; the fall-through as written at FeedSchedule.js:428 is not followed.
- FeedSchedules.FeedSchedule.Create: the refresh rate is a whole number of minutes. A fractional `refreshRateMinutes`, which the truthiness test at FeedSchedule.js:27 also accepts, is not modelled; negative values are, and only 0 is refused.

## Findings

| source | as written | input that shows it | evidently intended | confidence | as-written member | corrected member |
|---|---|---|---|---|---|---|
| src/structs/FeedSchedule.js:321-323 | the feed loop `return`s from `run` at the first feed assigned to another schedule | feeds `[a, b]` with determined schedules `["other", name]`: nothing is folded in, `inProgress` is not set and the cycle never finishes | skip that feed (`continue`) and keep the later feeds of this schedule | high (not executed) | Sources.SelectedAsWritten, Sources.ForeignFeedAbortsRun | Sources.Selected, Sources.SelectedExact |
| src/structs/FeedSchedule.js:204 | `if (!this._linksResponded[link]) this._linksResponded = 1` assigns 1 to the whole table | a regular link marked 1, then a new modded link: the table is replaced by the number 1 and the regular entry is lost | assign `this._linksResponded[link] = 1` | high (not executed) | Sources.MarkModdedAsWritten, Sources.ModdedMarkClobbers | Sources.MarkModded, Sources.ModdedMarkAgrees |
| src/structs/FeedSchedule.js:144 | the debug line for a disabled feed calls `failCounter.hasFailed()`, where `failCounter` may be `undefined` | a traced feed, disabled as "Blacklisted", whose URL has no fail counter: `_addToSourceLists` throws a TypeError | log without reading the counter, then return false | high (not executed) | Sources.AddDecisionAsWritten, Sources.DebugDisabledWithoutCounterThrows | Sources.Eligible, Sources.AddDecisionIsEligible |
| src/structs/FeedSchedule.js:428 | when the processor has no callback, a `batch_connected` message is not returned and falls through to the link counting | `parallelBatches` 0, a batch of two links, and reports `batch_connected` then `failed`: the batch counts as complete and its processor is killed after one link | ignore `batch_connected` whenever there is no callback | medium (not executed; depends on the processor sending `batch_connected`, and isolatedMethod.js is not part of this model) | Dispatch.ParallelHandlingAsWritten, Dispatch.HandshakeCountsAsLink | Dispatch.ParallelHandling, Dispatch.CountedIsTerminal |

At FeedSchedule.js:352-358, a URL whose feeds carry different `advanced` settings is fetched with the last such feed's settings only. Sources.UniqueSettingsLastWins and Sources.EarlierSettingsDropped state this. No correction is proposed, for three reasons:

- One fetch per URL can carry only one settings object, so feeds that disagree cannot all be served by that fetch.
- The source's comments describe the modded source map as the lane for sources with cookies, one source per link (FeedSchedule.js:46, 195). The source never fills that map (it is cleared at 314 and nothing adds to it), so there is no intended behaviour to recover.
- When the feeds agree, the settings reach the fetch unchanged (Sources.AgreeingSettingsKept).
