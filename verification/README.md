# procflow, modelled in Dafny

procflow accounts network bytes per process identity. A kernel program counts
bytes per thread group, a daemon drains the counters every few seconds into an
in-memory minute and then into a tiered store (minute, hour, day, month tables
with three watermarks), and clients read the store or follow a live stream. This
project models that path from the kernel's counter to the client's screen and
proves what it promises: bytes are neither lost nor counted twice, rolling up is
invisible to readers, and the live feed and the store agree. Where a promise
does not hold for every input, it says exactly when it does.

| file | what it holds |
|---|---|
| `Counters.dfy`, `MapSum.dfy` | counter tables, sums over bucket ranges (a missing row and a zero row differ), sums over map entries |
| `Calendar.dfy`, `Zones.dfy` | Gregorian dates; tiers, buckets, and the laws a zone must obey |
| `Rollup.dfy`, `Invariant.dfy`, `Steps.dfy` | the rollup job as single transactions, the invariant, and that each step keeps it |
| `History.dfy`, `ClosedForm.dfy` | arbitrary histories of recorded minutes and of runs, whole or aborted; what a finished run leaves |
| `Stitch.dfy`, `Query.dfy`, `Top.dfy`, `Requests.dfy` | stitched reads, `series`, `top`, and how a request becomes a read |
| `ZoneChange.dfy`, `Limits.dfy`, `Ledger.dfy` | a different zone at every step; where the guarantees end; what months lose over a whole history |
| `Store.dfy`, `Identities.dfy` | the store as a class changed in place; the identity registry and its labels |
| `Collector.dfy`, `Drain.dfy` | the collector as a protocol with the kernel interleaved; the drain thread's loops as runs of it |
| `Reckoning.dfy` | what became of each byte, told from a run's actions alone, and that the protocol's books say the same |
| `Fanout.dfy`, `Watch.dfy`, `Ranking.dfy` | the hub's queues, the per-stream view, grouping and ranking |
| `Answers.dfy` | which entries `top` and a stream's chunk hold, and in which order, told from the recorded minutes or the tick and from the identities' records |
| `Trends.dfy`, `Screen.dfy`, `Roster.dfy`, `Display.dfy` | the client: ring buffers, rows, a group's list of members, what a list of rows may be |
| `Haystack.dfy`, `Search.dfy`, `Terminal.dfy` | the text filter; header, group sizes and cursor |
| `Readings.dfy`, `Columns.dfy` | each number on screen as a sum over flows; what each row's columns say, and the order of rows, told from the records |
| `EndToEnd.dfy` | kernel, collector and rollup job over one store, up to a reader of months |
| `Cmdline.dfy`, `Tokens.dfy` | command-line normalisation; the forms of the tokens it masks, spelled out |

Some conventions. `Grid` is a zone seen as a function from tier and instant to
bucket; `Lawful` collects the laws rolling up relies on, and
`Zones.FixedIsLawful` discharges them for fixed offsets. A history is a list of
events; `Ran(now, steps)` is a rollup run that got through `steps` transactions
before it finished or failed, so aborted runs need no separate treatment.
`Timely` asks that the clock does not run backwards and that every minute is a
whole minute, recorded less than the grace period after it closed, in a month
that began since 1970 (`Limits.MonthReadAcrossRoll` says what happens
otherwise). `Log(es)` is every minute a history ever recorded, kept for ever; no
code has it. Classes stand for the source's mutable objects: each method's
contract ties the new state to a function, and the lemmas are about that
function.

Where the code and its comments disagree, the model follows the code. The
comment on `group_key` (crates/procflowd/src/query.rs:121-122) promises one set
of labels for live and stored groups; `Identities.LabelsAgree` proves this for
every identity but one whose recorded user name is the empty string. The comment
on bounding a move by the watermark after a zone change
(crates/procflowd/src/rollup.rs:157-158) holds for the hour and day tiers
(`ZoneChange.ZoneChangesConserve`), but month reads can lose a day
(`Limits.ZoneChangeLosesADay`).

## Model

| member | source | states |
|---|---|---|
| Calendar.SuccIsNextDay | crates/procflowd/src/rollup.rs:44 | a date's successor is the next day number, across month ends, leap days and new year, by the model's own count and by the closed one |
| Calendar.MonthLength | crates/procflowd/src/rollup.rs:40-42 | the first of the next month is exactly the month's length later, December and February included, by either count |
| Calendar.DateRoundTrip | crates/procflowd/src/rollup.rs:35-39 | the date of a date's day number is the date itself, so day numbers and dates correspond one to one |
| Calendar.NumberIsCivil | crates/procflowd/src/rollup.rs:35-44 | every date's day number is a closed count of the days since 1970 from year, month and day, years begun in March and leap years by the Gregorian rule, in which no month's length is looked up |
| Zones.FixedIsLawful | crates/procflowd/src/rollup.rs:17-60 | for any fixed offset of whole minutes: buckets of every tier partition time, begin and end on whole minutes, and no day straddles two months |
| Zones.LawfulOffsets | crates/procflowd/src/rollup.rs:17-60 | a fixed zone obeys the laws if and only if its offset is a whole number of minutes |
| Zones.ClockBuckets | crates/procflowd/src/rollup.rs:21-27 | in every zone and at every instant, the minute bucket is 60 seconds from a multiple of 60 and the hour bucket 3,600 seconds from a multiple of 3,600 |
| Zones.DayLength | crates/procflowd/src/rollup.rs:34-47 | at every fixed offset a day bucket is the 86,400 seconds from a local midnight |
| Zones.BucketsFollowTheCalendar | crates/procflowd/src/rollup.rs:34-47 | two instants share a day bucket if and only if they fall on the same local date, and a month bucket if and only if those dates share year and month |
| Zones.EndIsEdge | crates/procflowd/src/rollup.rs:18-32 | buckets abut: the instant one ends is the instant the next begins |
| Zones.EdgeSeparates | crates/procflowd/src/rollup.rs:18-32 | every bucket lies wholly before or wholly after any bucket bound |
| Zones.IndiaExample | crates/procflowd/src/rollup.rs:251-269 | at five and a half hours' offset, 8 pm UTC on 6 July 2026 lies in the day from 18:30 UTC on the 6th to 18:30 on the 7th, and in the month from 18:30 UTC on 30 June to 18:30 on 31 July |
| Rollup.RollInto | crates/procflowd/src/rollup.rs:162-173 | the grouped, accumulating insert adds each flow's sum over the range to its row and leaves every other row as it was |
| Rollup.RollupProgress | crates/procflowd/src/rollup.rs:131-183 | a moved bucket leaves strictly fewer unrolled source buckets, strictly raises the watermark and keeps it a grace period in the past |
| Steps.MinuteTierStops | crates/procflowd/src/rollup.rs:138-156 | when the hour or the day loop stops, every minute ever recorded past its watermark is in a bucket still open or in its grace period, pruned rows included |
| Steps.MonthStops | crates/procflowd/src/rollup.rs:138-156 | the same of the month loop, which reads days, once the day loop has stopped |
| Rollup.RunFinishes | crates/procflowd/src/rollup.rs:131-136 | every run reaches its end, from any database and phase, if every bucket ends after the instants in it |
| Rollup.FinishesExactly | crates/procflowd/src/rollup.rs:131-156 | runs finish on every database at every time if and only if every hour, day and month ends after each instant in it; where one does not, a database with a single row keeps the loop going for ever |
| Steps.StepKeeps | crates/procflowd/src/rollup.rs:131-219 | each transaction and each delete keeps the invariant that ties all four tables and three watermarks to the recorded minutes |
| Steps.RunKeeps | crates/procflowd/src/rollup.rs:131-219 | so does a run aborted anywhere |
| History.GraceSuffices | crates/procflowd/src/rollup.rs:99-102 | a minute recorded in time is at or past every watermark |
| History.Reachable | crates/procflowd/src/rollup.rs:126-219 | the invariant holds after every timely history |
| ClosedForm.HistoryIndependence | crates/procflowd/src/rollup.rs:126-219 | after any completed rollup the tables and watermarks equal a closed form of the recorded minutes, the time and the retention |
| ClosedForm.CatchUp | crates/procflowd/src/rollup.rs:127-136 | one catch-up run reaches the state any other history of the same minutes reaches |
| ClosedForm.RerunChangesNothing | crates/procflowd/src/rollup.rs:127-136 | a rerun at the same time changes nothing, however far it gets |
| Stitch.ReadsAreExact | crates/procflowd/src/query.rs:175-209 | a stitched read on its tier's bounds and within retention is exactly what was recorded in the window, after any history |
| Stitch.RollupIsInvisible | crates/procflowd/src/query.rs:175-209 | such a read is the same before and after any rollup run, whole or aborted |
| Stitch.AllTimeIsEverything | crates/procflowd/src/query.rs:180-209 | reading months over all time gives every byte ever recorded, also mid-run, after pruning, and while the month watermark is past the day watermark |
| Stitch.ReadsAreBracketed | crates/procflowd/src/query.rs:277-286 | for any window within retention the total lies between the buckets wholly inside it and those to the end of its last bucket |
| Stitch.TopTierRetains | crates/procflowd/src/rollup.rs:83-97 | the tier chosen for `top` still holds every row of the window, and no finer tier does |
| Stitch.SeriesTierRetains | crates/procflowd/src/query.rs:354-360 | the tier chosen for `series` does so for every window if and only if no tier is kept longer than a coarser one |
| Stitch.SeriesTierIsFinest | crates/procflowd/src/query.rs:158-168 | the tier chosen for `series` is the finest that is both readable over the span (180 minutes, 48 hours, 92 days) and no finer than the finest still held |
| Stitch.AutoTierIsUnpruned | crates/procflowd/src/query.rs:281-286 | at the chosen tier every bucket from the window's start that has been rolled up still has exactly its row |
| Limits.RecordIsSeen | crates/procflowd/src/rollup.rs:99-102 | in any state, a minute reaches a tier's readers if and only if it is at or past the watermark that tier reads minutes from; a late one is never seen there |
| Limits.MonthReadAcrossRoll | crates/procflowd/src/rollup.rs:140-183 | in any state and zone, moving a day or a month keeps the all-time read to the byte, or loses exactly what was moved, by whether the bucket begins at or past the month watermark (for a day) or the epoch (for a month) |
| Limits.SurvivesExactly | crates/procflowd/src/query.rs:188-203 | the same as an if and only if |
| Limits.AcrossZones | crates/procflowd/src/rollup.rs:157-159 | the same after any history in one zone followed by a step in another |
| Ledger.MonthLedger | crates/procflowd/src/rollup.rs:126-219 | over any history, each step in any phase and zone: what was recorded is the all-time month read plus the rows of the buckets moved from below the floor, to the byte |
| Ledger.CompleteExactly | crates/procflowd/src/query.rs:188-203 | so that read is complete if and only if no such bucket was moved |
| Ledger.PruningIsUnseen | crates/procflowd/src/rollup.rs:196-219 | in any state, deleting rows changes no all-time month read |
| Limits.ZoneChangeLosesADay | crates/procflowd/src/rollup.rs:142-159 | a concrete history: July in UTC, then the first August day on Indian time, whose bytes no month read sees once rolled up |
| ZoneChange.ZoneChangesConserve | crates/procflowd/src/rollup.rs:157-173 | with any zone at every step, retained plus pruned hour rows, and day rows, add up to exactly what was recorded below their watermark |
| Ranking.AggregateSums | crates/procflowd/src/server.rs:222-238 | grouping gives one entry per key, in key order, each its key's sum |
| Ranking.GroupingConserves | crates/procflowd/src/server.rs:222-238 | grouping under any labels keeps each scope's total |
| Ranking.StableSortRanks | crates/procflowd/src/server.rs:240-257 | a stable sort by the sum of key-ordered entries yields the total order: sum descending, then id, group and scope |
| Ranking.RankedUnique | crates/procflowd/src/query.rs:303-318 | only one arrangement of the same rows is in that order, so the live ranking and `ORDER BY` agree |
| Ranking.LeadersSpec | crates/procflowd/src/query.rs:295-321 | a limited answer is a prefix of the unlimited one, which is ranked and has each key's sum exactly once |
| Ranking.LeadersUnique | crates/procflowd/src/query.rs:303-318 | any list in that order with each key's sum and nothing else is the unlimited answer |
| Ranking.LeadersConserve | crates/procflowd/src/server.rs:222-254 | ranked and unlimited, each scope's total is that of the counters that went in |
| Query.Series | crates/procflowd/src/query.rs:386-399 | the fold loop leaves, in bucket order, each calendar bucket and scope once, holding the sum of the rows that lie in it, whatever tier they came from |
| Query.DeliveredSum | crates/procflowd/src/query.rs:195-208 | in whatever order the database returns the union's rows, they add up to the stitched read |
| Query.SeriesIsDirectFold | crates/procflowd/src/query.rs:350-414 | `series` is the direct fold of the recorded minutes into calendar buckets: a row exactly where something was recorded, holding exactly that |
| Query.SeriesInvisible | crates/procflowd/src/query.rs:350-414 | `series` answers the same before and after any rollup run |
| Top.TopIsDirect | crates/procflowd/src/query.rs:275-348 | `top` answers as if it had read every recorded minute of the window: same rows, same order, under any grouping, filter, ranking and limit |
| Top.TopInvisible | crates/procflowd/src/query.rs:275-348 | `top` answers the same before and after any rollup run |
| Top.AnyOrderedAnswer | crates/procflowd/src/query.rs:303-318 | however the database groups and sorts, a list in the query's order with each group's sum and nothing else is the answer |
| Answers.TopHolds | crates/procflowd/src/query.rs:291-321 | told from the log: an unlimited `top` has an entry for a key if and only if its scope was asked for and somebody visible, picked by the filters and carrying that label, was recorded in the window; and it is the sum of just their recorded totals |
| Answers.TopByIdentity | crates/procflowd/src/query.rs:295-296 | ungrouped: an entry for an identity if and only if it is on record and visible, the filters pick it and its scope was asked for, holding exactly its recorded total |
| Answers.AnswerInOrder | crates/procflowd/src/query.rs:302-318 | of two entries the earlier moved more, in the direction asked for or both together, or as much and has the smaller id, or that and the label first in the dictionary, or that too and is the external one |
| Answers.NumeralIsDecimal | crates/procflowd/src/query.rs:115-116 | a uid's label is the one text of digits, without leading zeros, whose value it is |
| Top.OwnTrafficOnly | crates/procflowd/src/query.rs:79-84 | two histories that agree on a uid's identities and minutes give it the same `top`, whatever everyone else did to the shared watermarks |
| Top.UidsPartition | crates/procflowd/src/query.rs:79-84 | what each uid sees adds up to what root sees, key by key |
| Identities.PeerSees | crates/procflowd/src/query.rs:14-32 | a peer is shown an identity if and only if it is root or the owner |
| Requests.WindowAccepted | crates/procflowd/src/query.rs:141-156 | a range is accepted if and only if a second starts within it, and then becomes the seconds its ends are in; before the epoch too |
| Requests.PlansExactly | crates/procflowd/src/query.rs:351-367 | the plan and each of the three refusals as an if and only if: no range, no second in it, an id unknown or someone else's; else the tier named or the one chosen over those seconds |
| Requests.PlansAgree | crates/procflowd/src/query.rs:250-256 | refusals and plans are a function of the identities the caller may see: a hidden identity is reported like a missing one |
| Requests.SeriesOwnTrafficOnly | crates/procflowd/src/query.rs:351-373 | whatever a uid asks of `series`, about anyone, it is refused alike or answered alike in any two histories that agree on its own traffic |
| Identities.LabelsAgree | crates/procflowd/src/query.rs:118-131 | live and stored group labels agree if and only if the grouping is not by user or the recorded name is not empty |
| Identities.IdsAreStable | crates/procflowd/src/store.rs:63-96 | an id keeps its natural key through every upsert, and the same key always gets the same id; only that row changes, keeping its first sighting and taking the attributes last seen |
| Store.Database.UpsertIdentity | crates/procflowd/src/store.rs:65-96 | upsert by natural key: the id, the first sighting and the last-seen attributes, and that keys stay unique and counters owned |
| Store.Database.RecordMinute | crates/procflowd/src/store.rs:98-125 | accumulates into the minute table, or refuses an unknown identity and changes nothing |
| Store.Database.RollNextBucket | crates/procflowd/src/rollup.rs:138-183 | the statements of one transaction are one step of the job |
| Store.Database.RollUp | crates/procflowd/src/rollup.rs:131-136 | the three loops and the prune, failing at any statement, are a run of some number of steps, and a run to the end when none fails |
| Collector.EveryByteAccounted | crates/procflowd/src/collector.rs:149-230 | over every interleaving of kernel and daemon steps, the kernel's lookups and additions included, each counted byte is in exactly one place: the map, a slot already removed from it, the race, unattributed, in hand, the poll, the accumulator, the store, or a failed write |
| Collector.StoredAgainstCounted | crates/procflowd/src/collector.rs:149-230 | the store never exceeds what the kernel counted, and between ticks equals it less the map and the accumulator if and only if none of the four losses happened |
| Collector.FeedMatchesStore | crates/procflowd/src/collector.rs:175-200 | per identity, scope and direction, what was published is what is pending, stored or failed to be written |
| Collector.TickLeavesOpenMinutes | crates/procflowd/src/collector.rs:203-230 | after a tick that ends well no entry older than the open minute is left |
| Collector.FlushesInTime | crates/procflowd/src/collector.rs:203-230 | if the last good sweep is at most the grace period ago, every minute written closed less than the grace period ago, which is what the rollup job needs |
| Reckoning.SentIsAccounted | crates/procflowd/src/collector.rs:152-170 | over every run and for each kernel counter: what the CPUs set out to add to it, by their last lookups, is in the map or in hand, or was refused by a full map, or went to a slot already removed, or came between the read and the removal, or had no identity, or was credited; each told from the actions |
| Reckoning.BooksAreTold | crates/procflow-ebpf/src/main.rs:127-140 | the bytes counted by the kernel are those sent but for exactly the additions whose lookup found nothing, whose key is not in the map and which had no room; and each loss in the books is the sum of the actions that met that fate |
| Reckoning.RoomCountsAll | crates/procflow-ebpf/src/main.rs:131-138 | while the map has room everything sent, in each direction and scope, is counted |
| Reckoning.IdentifiedResolvesAll | crates/procflowd/src/collector.rs:235-263 | while every process asked for is identified nothing goes unresolved |
| Reckoning.CreditsAreKept | crates/procflowd/src/collector.rs:155-193 | minute by minute and flow by flow: the bytes read for processes whose identity, first found and not since evicted, is the flow's are in that minute's poll, the accumulator, the store or a failed write, under that minute, identity and scope, ingress as ingress and egress as egress |
| Reckoning.CreditsArePublished | crates/procflowd/src/collector.rs:177-202 | between polls what was credited to a flow is what was published of it |
| Reckoning.DrainEmpties | crates/procflowd/src/collector.rs:152-167 | where the map calls succeed and the kernel is quiet, a drain leaves none of the counters it listed in the map and every other as it was |
| Drain.DrainThread.LookUpCounter | crates/procflow-ebpf/src/main.rs:130-132 | the kernel's lookup, which finds a slot or nothing, is the protocol's step |
| Drain.DrainThread.AddToCounter | crates/procflow-ebpf/src/main.rs:132-138 | its addition, to the slot found whether or not the daemon has removed it since, or by an insert that a full map refuses, is the protocol's step |
| Drain.DrainThread.RemoveCounter | crates/procflowd/src/collector.rs:160-164 | a removal takes along what was added since the read and detaches the slots looked up before it |
| Drain.DrainThread.Resolve | crates/procflowd/src/collector.rs:232-263 | the cache answers first, an upsert is cached, and a failed one is not |
| Drain.DrainThread.VisitKey | crates/procflowd/src/collector.rs:155-174 | one turn of the drain loop, with kernel additions around the read and the removal, is a run of the protocol |
| Drain.DrainThread.DrainTraffic | crates/procflowd/src/collector.rs:147-201 | the whole drain, in whatever order the maps are visited, is a run of the protocol that publishes exactly its deltas |
| Drain.DrainThread.FlushClosedMinutes | crates/procflowd/src/collector.rs:203-230 | exactly the closed entries are added to the store, each once; or, from the first failed write on, the entries left and the open minute's stay, and just that write's bytes are lost |
| Drain.DrainThread.Tick | crates/procflowd/src/collector.rs:123-131 | a tick, whatever fails, ends idle in a reachable state of the protocol, with only open minutes left if it ends well |
| Drain.ThreadAccounts | crates/procflowd/src/collector.rs:99-131 | between ticks the thread's own fields, the store and the four losses account for every byte the kernel counted |
| Drain.ThreadTakesWhatIsSent | crates/procflowd/src/collector.rs:99-131 | between ticks the thread's fields, the store and the fates told from the actions account for every byte the kernel set out to add |
| Drain.ThreadCredits | crates/procflowd/src/collector.rs:155-230 | between ticks, minute by minute and flow by flow, what was credited is in the thread's accumulator, the store or a failed write |
| Drain.ThreadFeedMatchesStore | crates/procflowd/src/collector.rs:175-230 | and per identity what was published is in the accumulator or went to the store |
| EndToEnd.MonthReadsAccount | crates/procflowd/src/collector.rs:149-230 | however kernel, collector and rollup job interleave, wherever runs are cut short and whatever is pruned, the all-time month read over all identities is every byte the kernel counted, less what is still on its way and the four losses, if sweeps keep within the grace period |
| EndToEnd.MonthReadsAccountForSent | crates/procflow-ebpf/src/main.rs:127-140 | the same of every byte the kernel's additions set out to add, the losses and those a full map refused told from what happened |
| EndToEnd.MonthReadIsCredited | crates/procflowd/src/collector.rs:155-193 | per identity, scope and direction: the all-time month read, the poll, the accumulator and the failed writes are exactly what reads credited to that identity |
| EndToEnd.MonthReadsMatchFeed | crates/procflowd/src/rollup.rs:99-102 | and per identity, what live watchers were sent is that month read, what the accumulator holds and what failed to be written |
| Fanout.Hub.Subscribe | crates/procflowd/src/live.rs:39-48 | a new, empty queue that hears from the next tick on |
| Fanout.Hub.Publish | crates/procflowd/src/live.rs:50-57 | every subscriber still there gets the tick, those that hung up are forgotten, and each open queue still holds exactly the ticks since it was made, in order |
| Fanout.AllHearTick | crates/procflowd/src/live.rs:50-57 | the step that keeps it, over any set of queues |
| Watch.WatchView.MakeChunk | crates/procflowd/src/server.rs:199-272 | one tick of a stream: the cache, the sent set and the chunk, or no change at all where the lookup fails |
| Watch.FreshExactly | crates/procflowd/src/server.rs:199-257 | after any stream and under any request, the next chunk's counters are those of a cache-free look at the table, whatever the next tick holds, if and only if no identity cached so far is under an outdated label |
| Watch.ChunksAreFresh | crates/procflowd/src/server.rs:199-257 | one chunk's counters are those if the labels cached for the identities its own tick names in scope are current |
| Watch.ChunksConserve | crates/procflowd/src/server.rs:222-254 | an unlimited chunk carries, scope by scope, exactly the bytes of the tick that the caller may see and asked for, under any grouping |
| Answers.ChunkHolds | crates/procflowd/src/server.rs:222-254 | told from the tick: an unlimited chunk has a counter for a key if and only if its scope was asked for and the tick has deltas of somebody visible carrying that label (the project, the program, the user's name, or the uid where that is missing or empty); and it is the sum of just their deltas |
| Answers.ChunkByIdentity | crates/procflowd/src/server.rs:232-238 | ungrouped: a counter for an identity if and only if it is known and visible, its scope was asked for and the tick has it, holding exactly its own deltas |
| Answers.StreamHolds | crates/procflowd/src/server.rs:199-257 | the same of any stream's next chunk while the labels it names are current |
| Watch.LabelsHoldByKey | crates/procflowd/src/server.rs:183-185 | under every grouping but the user's every cached label stays current by itself, and under that one while users keep their names |
| Watch.RenamedUserIsStale | crates/procflowd/src/server.rs:183-185 | an instance: one user renamed between two ticks, grouped by user; the second chunk is the cache-free one if and only if the label did not change |
| Watch.SentExactlyOnce | crates/procflowd/src/server.rs:259-263 | each identity is sent in the first chunk that mentions it and never again |
| Watch.ClientResolves | crates/procflow/src/tui.rs:313-317 | a client that merges identities can resolve every non-grouped counter as it arrives |
| Trends.Feed.OnChunk | crates/procflow/src/tui.rs:310-338 | merges identities, gives every flow, old and new, its sample, and remembers the interval |
| Trends.RingsHoldNewest | crates/procflow/src/tui.rs:318-337 | after any stream a flow's samples are its last sixty deltas since it was first seen, and its session is the sum of all of them |
| Trends.AlwaysAligned | crates/procflow/src/tui.rs:452-454 | no ring is longer than the intervals', which are never zero, so the padding never underflows and no division is by zero |
| Trends.DeltaAddsUp | crates/procflow/src/tui.rs:318-325 | a chunk's bytes for a flow are the integer sum of its counters for it, in each direction |
| Trends.RingReaches | crates/procflow/src/tui.rs:326-337 | a flow is followed from the first chunk that mentions it, for sixty samples at most, and every shown sample from before then is zero |
| Trends.SampleIsItsOwn | crates/procflow/src/tui.rs:451-461 | every shown sample is its own interval's delta times 1,000 over that interval's own length in milliseconds, at least one, rounded down |
| Trends.RateIsRecent | crates/procflow/src/tui.rs:439-471 | the shown rate is the flow's bytes in the last three intervals times 1,000 over those intervals' milliseconds, rounded down, and the session everything since the view opened |
| Trends.LiveMeasures | crates/procflow/src/tui.rs:435-475 | the loop adds up an identity's flows in scope, in whatever order the map yields them |
| Screen.SumTake | crates/procflow/src/tui.rs:165-179 | adding measures, trends of different lengths included, does not depend on the order |
| Readings.SumReads | crates/procflow/src/tui.rs:165-179 | over any set of identities, the rate, the session and each sample of the sum are, in each direction, the integer sums of the members' own, a missing sample counting 0 |
| Readings.SumLength | crates/procflow/src/tui.rs:171-173 | and its trend is just as long as the longest member's |
| Readings.IdentityReads | crates/procflow/src/tui.rs:446-473 | an identity is measured if and only if a flow of it is there in a scope asked for, and every number of it is its external and its loopback flow's together |
| Trends.StoredMeasures | crates/procflow/src/tui.rs:420-433 | the loop adds up an identity's stored rows in scope, in whatever order they come |
| Readings.StoredReads | crates/procflow/src/tui.rs:420-433 | in a history window an identity's number is the integer sum of its stored rows in scope, with no session and no trend |
| Screen.KeysDistinguish | crates/procflow/src/tui.rs:477-501 | ungrouped no two identities share a key; identities that share one share its name, and share its second column if and only if they are not grouped by user or have one uid |
| Screen.SortsRows | crates/procflow/src/tui.rs:603-616 | the rows come out ranked by rate, session, name and key, and are the same rows |
| Screen.RankingIsUnique | crates/procflow/src/tui.rs:603-616 | a given set of rows has one ranking |
| Display.DeterminedExactly | crates/procflow/src/tui.rs:503-617 | the rows, every column and every group's list of members included, are a function of the identities, the measures and the settings if and only if no two identities shown under one user name differ in uid (grouped by user) and no two members of a group shown tie in rank and name without being alike (grouped) |
| Display.RenamedUserShowsEither | crates/procflow/src/tui.rs:490-494 | a name that passed from one uid to another: two different lists are valid for the same identities, measures and settings, by which was met first |
| Display.SomethingToShow | crates/procflow/src/tui.rs:503-617 | there is always a valid list |
| Roster.SortedInOrder | crates/procflow/src/tui.rs:592-597 | a group's list keeps every line and leaves nobody behind someone they outrank |
| Roster.OneOrder | crates/procflow/src/tui.rs:576-597 | without ties between different lines a group's list has one order |
| Haystack.GatheredContains | crates/procflow/src/tui.rs:552-566 | text without a line break is found in a gathered haystack if and only if it is in one of the texts gathered |
| Search.VisitHaystacks | crates/procflow/src/tui.rs:552-566 | so each row's haystack, in whatever order its members are met, answers for some member's text |
| Display.RowsConserve | crates/procflow/src/tui.rs:503-617 | under any grouping and filter the rows' rates, sessions and trends add up to those of the identities they hold; with no filter, to those of every known identity, in as many rows as the group's size |
| Readings.RowReads | crates/procflow/src/tui.rs:567-575 | each row holds exactly the measured, named identities under its key, and every number of it is the integer sum of theirs |
| Columns.GroupKeyIs | crates/procflow/src/tui.rs:477-501 | an identity is under the row of its id, project, program or user, the latter the name, or the uid in digits, or a question mark, if and only if told so from its record |
| Columns.RowSays | crates/procflow/src/tui.rs:533-551 | what each column of a shown row says of each identity in it |
| Columns.GroupLists | crates/procflow/src/tui.rs:576-582 | a group lists each line exactly as often as it has members of that short name and rate |
| Columns.RowsInOrder | crates/procflow/src/tui.rs:607-616 | the order of the rows in plain arithmetic on rate and session and dictionary order of name and key |
| Columns.LinesInOrder | crates/procflow/src/tui.rs:593-597 | the order of a group's lines likewise |
| Columns.FieldsSearched | crates/procflow/src/tui.rs:552-566 | the filter finds a member if and only if one of the fields searched, each by itself, has the text |
| Columns.FilterFinds | crates/procflow/src/tui.rs:586-591 | a row is let through if and only if the typed filter, in lower case, is found in a field of one of its members |
| Columns.BasenameIs | crates/procflow/src/fmt.rs:23-29 | a path goes by what stands between its last separator and its trailing slashes; one of slashes only by itself |
| Columns.TildeIs | crates/procflow/src/fmt.rs:32-40 | only a path at or under a non-empty home directory is shortened, by exactly that prefix |
| Display.UngroupedCount | crates/procflow/src/tui.rs:519-538 | ungrouped, each row is one identity and the size is their number |
| Terminal.App.Recompute | crates/procflow/src/tui.rs:503-628 | the header total from the live measures; a valid list of the rows the typed filter lets through, with every column and group list, and the four group sizes, from those of the window on screen; and the cursor: on the same key wherever its row survives, else as near as can be to where it was |
| Terminal.App.Select | crates/procflow/src/tui.rs:630-633 | the cursor is on a row, under that row's key, unless there is none |
| Terminal.HeaderIsRowsAndUnnamed | crates/procflow/src/tui.rs:503-509 | unfiltered in the live view, the header is the rows plus what flows not yet named have moved |
| Readings.HeaderReads | crates/procflow/src/tui.rs:503-509 | unfiltered in the live view, every number of the header is the integer sum of the rows' and of the unnamed identities' |
| Readings.HeaderIsFlows | crates/procflow/src/tui.rs:446-473 | and of every flow in scope, each once |
| Terminal.SizesAreRows | crates/procflow/src/tui.rs:517-532 | a grouping's size is the number of rows it shows unfiltered |
| Cmdline.NormalizeTokens | crates/procflowd/src/enrich.rs:136-157 | splitting the result gives the masked tokens, one for one |
| Cmdline.NormalizeKeepsCount | crates/procflowd/src/enrich.rs:140-157 | the normal form has as many tokens as the command line |
| Cmdline.NormalizeIdempotent | crates/procflowd/src/enrich.rs:136-157 | normalising again changes nothing |
| Cmdline.MergesExactly | crates/procflowd/src/enrich.rs:136-157 | two command lines merge if and only if their tokens mask alike, one for one |
| Cmdline.MaskIsClass | crates/procflowd/src/enrich.rs:136-166 | tokens mask alike if they are of one volatile class and, placeholders' own text aside, only then |
| Cmdline.NumeralsMerge | crates/procflowd/src/enrich.rs:136-139 | changing one numeral for another, anywhere in a command line, does not change its normal form |
| Tokens.MasksAs | crates/procflowd/src/enrich.rs:140-157 | what each token is masked as, from its form: `name=value` keeps the name; of the rest a UUID, a path under /tmp/ or /proc/, and a number, in that order, become placeholders; any other stays |
| Tokens.FloatIs | crates/procflowd/src/enrich.rs:149-150 | a token is read as a number if and only if it is a sign or none, digits with or without a point, and an exponent or none, or an infinity or NaN in any case |
| Tokens.UuidIs | crates/procflowd/src/enrich.rs:159-166 | and as a UUID if and only if it is hexadecimal groups of 8, 4, 4, 4 and 12 with hyphens between |
| Tokens.SplitsAtSpaces | crates/procflowd/src/enrich.rs:141 | a line splits into its first word and the tokens of the rest, white space of any length aside |

## Left out

- DuckDB, SQL text, migrations and timestamp conversion: tables are maps, a transaction is one step that happens or does not, and instants are whole seconds.
- `Zone::Local` and the time-zone database: a zone is any function obeying `Lawful`; the laws are proved for fixed whole-minute offsets only, and do fail for zones that skip a calendar day.
- Stitch.AllTimeIsEverything: asks for one lawful zone and for minutes of months that began since 1970, because without them it is false; `Limits.MonthReadAcrossRoll` has the exact condition.
- Stitch.ReadsAreExact: asks for a window on the tier's bounds and within its retention; unaligned windows are bracketed by `Stitch.ReadsAreBracketed`.
- Store.Database.RollUp: failures are a budget of statements that succeed before one fails; a failed commit is taken to leave no trace.
- Collector.EveryByteAccounted: bytes whose key a full kernel map refused are not counted by the kernel and so are outside its books (`Reckoning.BooksAreTold` says which those are); the per-CPU slots of a counter are one number, and a slot removed while a CPU still holds it is not handed to another counter before that CPU is done.
- Drain.DrainThread.DrainTraffic: the kernel acts before a read, between it and the removal, and after; what it does while the poll is folded is the protocol's, in `Collector`.
- Top.TopIsDirect: the project, program and user filters of a request are one predicate on the identity.
- Columns.FieldsSearched: asks that text is put in lower case line by line, as Unicode's mapping does.
- Terminal.App.Recompute: a filter with a line break is not asked about, since Enter ends typing it (crates/procflow/src/tui.rs:703-713); lower-casing is any function from text to text.
- Attribution under reuse of thread-group ids: bytes may land on a stale identity, so only byte accounting is claimed.
- Machine widths: counters and rates are unbounded naturals, so saturation and overflow do not occur.
- `PID_META`, the ring of new ids, `/proc`, BPF loading, socket classification, peer credentials, threads, locks and timeouts.
- `list_identities`, the client's `today` total and its history pane: plain filters and folds over answers already modelled.
- Gaps in the identity sequence after a conflicting insert: ids count up by one.
- The wire format, drawing, themes, number formatting, argument parsing and the demo.
