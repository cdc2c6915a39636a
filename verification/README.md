# Verification model of the short-link platform

This project models four connected pieces of the platform and proves properties of them that span whole runs.

**Clicks** (TrafficService). Consumers read batches of click events from a Redis Stream. For each event they insert a
row under a unique event id, ask a Redis set whether the visitor is new, upsert the day's PV/UV, and acknowledge only
on success. `ClickMachine` is the protocol as a state machine: any number of consumers, one step for each external
effect, a fault, a crash or an expiring set possible at each. `ClickAccounting` says what every run leaves in the
tables, `ClickRaces` by how much UV is too large and exactly when it is right, and `ClickSerial` that a single consumer
meets those conditions. `ClickConsumer` is the consumer itself, with its loops and its tables as fields, and proves
that every call is a run of the machine; `ClickBatches` concludes that order, batch size and duplicates do not matter,
while entries go on arriving. `ClickOrigins` traces every row back to the message it was taken from. `TrafficQueries` is
the summary that is computed from the tables, and `ArrivalSummaries` says what it tells of the clicks that arrived.

**The link store** (Shortener). `LinkStore` is the table `short_url_map` behind its two cache levels: an index key
holds an id, the primary key a row, and misses are cached as placeholders. Each statement deletes a hand-picked set of
keys; the contracts say exactly when those are enough.

**Issuing codes** (Shortener). `Base62` is the codec with its loops, its in-place reversal, its wrapping arithmetic and
its floating-point power. `CodeDraw` draws numbers from the shared counter until a code is allowed. `LinkBook` says
what Convert, Create, Show and Update do to the state that a client can tell, `Shortener` is the service that does it
through the caches, `LinkRuns` proves what holds over whole serial runs, and `Router` that handling requests one after
another produces such runs. `IssueMachine` drops the serial order: any number of Convert, Update and Show requests,
interleaved at every query, cache access and statement. `UpdateRaces` says exactly which Updates then have their
effect, and `LostUpdates` shows two ways to lose one. `CacheRaces` says which interleavings leave no cached row outdated,
and `LoneRequests` that a request which runs alone does what it does in the serial service.

**The agent** (AIAgent). `AgentTools` is the client of the internal services with the sequence of requests it has sent.
`AgentEngine` is the workflow of model calls and tools with the rule engine behind it; whatever the model, the workflow
library and the network decide is an arbitrary `Oracle` and `World`. One context, done from an arbitrary moment on, is
shared by the workflow, its model calls and requests, and the fallback; the step limit is a setting. `AgentTraces` says
what the sent requests can look like, and `AgentPlans` which ones are sent, planned and reported for which texts of the
model.

`Prelude` and `Text` hold small set facts and the string functions that the services rely on.

## What was found

- A click whose upsert fails is stored but never counted: the next delivery of its entry runs into the unique event id
  and is acknowledged as a duplicate (`LostForGood`). PV is exact at rest if and only if this did not happen
  (`PvExactIffNothingLost`).
- Two consumers that both ask SISMEMBER before either calls SADD count one visitor twice (`RaceOvercounts`). With SADD
  succeeding and no uv set expiring, UV at a clean end is exact if and only if no two consumers are ever between
  SISMEMBER and SADD for one address (`UvExactIffNoCollision`), however many consumers there are. A failed SADD or an
  expired set adds one other way: SISMEMBER then denies an address that was added before (`UvExactIff`,
  `ForgottenBecause`). In any case the excess is the number of SADDs for addresses that were taken before
  (`UvOvercount`). UV is never too low unless a question or an upsert failed.
- Update deletes the cache key of the old md5, not of the new one. A placeholder cached earlier for the new md5 then
  denies a link that exists (`WrongDenial`), and converting that URL draws a number and fails to insert. Over serial
  runs an md5 is denied if and only if a conversion looked it up in vain, an Update installed it later, and nothing has
  removed the placeholder since (`DeniedIff`). Lookups by code have no such gap.
- Update writes back the whole row that it read, through caches that may be outdated. A successful Update has its
  intended effect if and only if the fields it was not given are in the table as it read them (`KeptIff`), and a row is
  throughout a run what its Updates were meant to make of it if and only if this holds of each of them (`AllKeptIff`).
  It can fail for two Updates at once (`LostUpdate`), and for two that do not overlap at all, when a Show that began
  before the first one puts the old row back into the cache (`LostToShow`). So what `CreateThenShow` says of the URL
  last written holds for serial runs only.
- Cached rows stay right as long as lookups and writes do not overlap and no request dies between its statement and the
  deletion of its cache keys (`NothingOutdated`); one request alone never leaves an outdated row
  (`AloneLeavesNothingOutdated`). An Update that dies in between leaves one for every later Show (`DiesOutdated`).
- Convert adds the code to the Bloom filter after inserting the row. If that fails, later conversions of the URL hand
  out a code that Show does not resolve (`OrphanedRow`, `ConvertAgain`).
- Create reads the code off Convert's text. For a URL that is already converted this works if and only if the
  configured domain ends in '/' (`KnownCodeRecovered`).
- A failed INCR is swallowed and yields the number 0. The drawing loop ends in every environment if and only if the code
  of 0 is not blacklisted (`LoopEndsIff`).
- Convert's check that the URL is not itself a short link looks the URL's md5 up as a code. Codes have at most 11
  characters and an md5 has 32, so the check never fires (`SelfCheckNeverFires`).
- The configuration documents `AllowWriteActions` as gating creation and update (AIAgent/internal/config/config.go:30);
  the code gates updates only (`DisabledWritesRemoveExactlyTheUpdates`).
- When the workflow fails after its tools have run, the rule engine runs the request again. If the cause is the context,
  the rule engine's model call fails too, and nothing is sent a second time (`DoneFallbackSendsNothing`). If it is the
  step limit, the effect is repeated: with falling back configured this can happen if and only if the limit is 3, one
  node short of the verifier (`RepeatIff`, `CreatedTwice`). The shipped configuration has 6
  (AIAgent/etc/ai-agent.yaml:22).

## Model

| member | source | states |
|---|---|---|
| ClickMachine.InvKept | TrafficService/internal/consumer/click_consumer.go:107-218 | every effect of every consumer, failed or not, and every crash or set expiry keeps the invariant: each stored row is counted, lost or being handled, never two of these, and the statistics are the sizes of those sets |
| ClickMachine.ReachedInv | TrafficService/internal/consumer/click_consumer.go:57-218 | so the invariant holds after every run from empty tables |
| ClickAccounting.RowsConserved | TrafficService/internal/consumer/click_consumer.go:142-153 | in every reachable state, rows of a key = PV + rows that missed their upsert + rows being handled |
| ClickAccounting.FirstVisitsConserved | TrafficService/internal/consumer/click_consumer.go:182-217 | in every reachable state, first visits of a key = UV + first visits whose upsert failed + those being handled |
| ClickAccounting.UvAtMostPv | TrafficService/internal/consumer/click_consumer.go:182-198 | in every reachable state UV is at most PV, for any number of interleaved consumers |
| ClickAccounting.AddressesCovered | TrafficService/internal/consumer/click_consumer.go:201-218 | distinct non-empty addresses never exceed first visits plus unanswered and unfinished rows, even when sets expire |
| ClickAccounting.CleanRun | TrafficService/internal/consumer/click_consumer.go:142-198 | at rest, if no upsert and no first-visit question failed, PV is the number of rows and UV lies between distinct addresses and PV |
| ClickAccounting.PvExactIffNothingLost | TrafficService/internal/consumer/click_consumer.go:142-153 | at rest PV of a key is exact if and only if no row of the key missed its upsert |
| ClickAccounting.RaceOvercounts | TrafficService/internal/consumer/click_consumer.go:207-217 | the concrete interleaving of two consumers, with no fault at all, that counts one address twice |
| ClickAccounting.AckSafety | TrafficService/internal/consumer/click_consumer.go:107-113 | in every reachable state an acknowledged entry's event is stored, and counted, lost or being handled |
| ClickAccounting.LostForGood | TrafficService/internal/consumer/click_consumer.go:142-151 | a row whose upsert failed is never counted by any later step, however often its entry is delivered |
| ClickAccounting.CountedAtMostOnce | Shortener/sqlfile/traffic.sql:17 | however often and to whomever an event is delivered, at most one step adds it to PV |
| ClickRaces.FirstsCounted | TrafficService/internal/consumer/click_consumer.go:201-218 | after any run, first visits of a key = their distinct addresses + the SADDs made for an address that was taken before |
| ClickRaces.UvOvercount | TrafficService/internal/consumer/click_consumer.go:182-218 | at rest, with nothing lost or unanswered, UV = distinct addresses + those SADDs, whatever SADDs failed and sets expired |
| ClickRaces.UvExactIff | TrafficService/internal/consumer/click_consumer.go:201-218 | any run with such an end: UV is exact if and only if no consumer is ever between SISMEMBER and SADD for an address for which another is there too, or which was taken before |
| ClickRaces.UvExactIffNoCollision | TrafficService/internal/consumer/click_consumer.go:207-217 | with SADD succeeding and no set expiring: UV is exact if and only if no two consumers are ever between SISMEMBER and SADD for one address |
| ClickRaces.SetAccounted | TrafficService/internal/consumer/click_consumer.go:182-217 | any number of consumers, SADD succeeding, no set expiring: size of the uv set + SADDs that added nothing = UV + first visits whose upsert failed or is to come |
| ClickRaces.RepeatAddsNothing | TrafficService/internal/consumer/click_consumer.go:207-217 | such a SADD is made exactly for an address that is in the set already |
| ClickRaces.ApartIsExact | TrafficService/internal/consumer/click_consumer.go:118-218 | consumers that never meet, however many: PV, UV, the uv set and the presence of the day's row are functions of the detail table |
| ClickRaces.SameRowsSameStats | TrafficService/internal/consumer/click_consumer.go:118-218 | two such runs that stored the same rows have the same statistics, whatever else happened |
| ClickRaces.ForgottenBecause | TrafficService/internal/consumer/click_consumer.go:214-216 | a first visitor is missing from the uv set only if its own SADD failed or the set expired since |
| ClickSerial.VisitorSetAccounted | TrafficService/internal/consumer/click_consumer.go:182-217 | single consumer, SADD succeeding, no set expiring: size of the uv set = UV + first visits whose upsert failed or is to come |
| ClickSerial.SoloExact | TrafficService/internal/consumer/click_consumer.go:118-218 | a single consumer never meets another; so if nothing was lost, PV, UV, the uv set and the presence of the day's row are functions of the detail table |
| ClickConsumer.Consumer.FirstVisit | TrafficService/internal/consumer/click_consumer.go:201-218 | answers true exactly for a non-empty address not in the set when SISMEMBER succeeded, even if SADD fails |
| ClickConsumer.Consumer.InsertClickEvent | TrafficService/internal/consumer/click_consumer.go:157-179 | writes the row, or reports a duplicate event id or a failure and changes nothing |
| ClickConsumer.Consumer.UpsertDailyStats | TrafficService/internal/consumer/click_consumer.go:182-198 | bumps PV by one and UV by the first-visit answer, or fails after the set was changed |
| ClickConsumer.Consumer.HandleMessage | TrafficService/internal/consumer/click_consumer.go:119-154 | one message takes exactly the machine's steps from delivery to the point before the acknowledgement |
| ClickConsumer.Consumer.HandleAndAck | TrafficService/internal/consumer/click_consumer.go:109-112 | one turn of the inner loop is a run of the machine that acknowledges only on success |
| ClickConsumer.Consumer.ConsumeOnce | TrafficService/internal/consumer/click_consumer.go:97-116 | the nested loops over streams and messages extend the machine's run by exactly the messages read, in order |
| ClickOrigins.StoredIff | TrafficService/internal/consumer/click_consumer.go:136-147 | after any run, an event id has a row if and only if some step was its first successful insert, from an entry that carries it and names a link |
| ClickOrigins.RowOrigin | TrafficService/internal/consumer/click_consumer.go:119-175 | in every reachable state each row has the code, address and referrer of a published entry with its event id, and that entry's day, or, if its time is unreadable, the day of the clock at the insert |
| ClickBatches.AckedIff | TrafficService/internal/consumer/click_consumer.go:107-154 | after handling, a message is acknowledged if and only if it was before, or it names a link, its event is stored now or was before, if now is counted, and the acknowledgement arrives |
| ClickBatches.BatchKeepsHealthy | TrafficService/internal/consumer/click_consumer.go:107-154 | any batch without relevant faults keeps a single consumer's run exact and grows the detail table as specified |
| ClickBatches.DetailIsArrivals | TrafficService/internal/consumer/click_consumer.go:142-147 | if the detail table holds exactly one row for each event id that arrived before, it does so after any further deliveries |
| ClickBatches.DeliveredStats | TrafficService/internal/consumer/click_consumer.go:107-218 | however entries arrive and are delivered, interleaved, duplicated and in any order and batching: PV is the number of distinct event ids and UV of distinct non-empty addresses of what was stored |
| ClickBatches.OrderAndBatchingIrrelevant | TrafficService/internal/consumer/click_consumer.go:107-218 | two such histories in which the same entries arrived and were stored end with equal detail and statistics tables |
| ClickBatches.DeliveredAcks | TrafficService/internal/consumer/click_consumer.go:107-113 | in such a history the acknowledged entries are exactly those that name a link and were stored and acknowledged without a fault at least once |
| ArrivalSummaries.TotalOfArrivals | TrafficService/internal/logic/query_helpers.go:27-42 | in such a history, total PV of a summary is the number of stored clicks on the link in range, and total UV of their visitors, each once a day |
| ArrivalSummaries.TrendOfArrivals | TrafficService/internal/logic/query_helpers.go:45-72 | ... the trend lists exactly the days with clicks, each with the number of its clicks and of its addresses |
| ArrivalSummaries.ReferrersOfArrivals | TrafficService/internal/logic/query_helpers.go:75-102 | ... the referrers listed are at most five of those the clicks came from, in descending order, with the number of clicks from each, and none of the others has more |
| TrafficQueries.QueryTrend | TrafficService/internal/logic/query_helpers.go:45-72 | returns the days of the range as TrendRows lists them |
| TrafficQueries.TrendIsExact | TrafficService/internal/logic/query_helpers.go:46-55 | the trend lists, in strictly increasing date order, exactly the days in range that have a row, with its values |
| TrafficQueries.TotalIsTrendTotal | TrafficService/internal/logic/query_helpers.go:27-72 | total PV and UV are the sums over the trend |
| TrafficQueries.TotalsAreAdditive | TrafficService/internal/logic/query_helpers.go:27-42 | totals add up over adjacent date ranges |
| TrafficQueries.EventsAccounted | TrafficService/internal/logic/query_helpers.go:27-42 | after any run, the stored events of the link in range = total PV + those that missed their upsert + those being handled |
| TrafficQueries.TotalCountsEvents | TrafficService/internal/logic/query_helpers.go:27-42 | at rest, total PV is the number of stored events of the link in range if and only if none of them missed its upsert |
| TrafficQueries.FirstVisitsAccounted | TrafficService/internal/logic/query_helpers.go:27-42 | after any run, the first visits of the link in range = total UV + those whose upsert failed + those being handled |
| TrafficQueries.TotalCountsVisitors | TrafficService/internal/logic/query_helpers.go:27-42 | where UV is exact on each day, total UV is the number of visitors in range, each counted once a day |
| TrafficQueries.TotalUvAtMostPv | TrafficService/internal/logic/query_helpers.go:27-42 | over any range and after any run, total UV is at most total PV |
| TrafficQueries.SelectTopReferrers | TrafficService/internal/logic/query_helpers.go:76-86 | a selection of at most five distinct referrers with true counts, in descending order, that no omitted referrer beats |
| TrafficQueries.QueryTopReferrers | TrafficService/internal/logic/query_helpers.go:75-102 | the returned list is such a selection of the events in range |
| TrafficQueries.TopFiveCoverage | TrafficService/internal/logic/query_helpers.go:75-102 | listed counts never exceed the events in range and reach them if and only if at most five referrers occur |
| TrafficQueries.GetTrafficSummary | TrafficService/internal/logic/gettrafficsummary_logic.go:39-62 | one summary is total, trend and top referrers of one snapshot, and its total is its trend's |
| TrafficQueries.SummaryMatchesEvents | TrafficService/internal/logic/gettrafficsummary_logic.go:30-63 | at rest, with no event of the link in range lost, the summary agrees with the stored events in all its parts |
| Base62.Int2String | Shortener/pkg/base62/base62.go:31-44 | the loop and the reversal produce the base-62 representation, 1 to 11 characters |
| Base62.Reverse | Shortener/pkg/base62/base62.go:47-52 | the swapping loop reverses the array in place |
| Base62.String2Int | Shortener/pkg/base62/base62.go:55-65 | for every byte string of at most 11 bytes, in wrapping 64-bit arithmetic and with the floating-point power, the result is Horner's value modulo 2^64 |
| Base62.EncodeThenDecode | Shortener/pkg/base62/base62.go:31-65 | String2Int undoes Int2String on every 64-bit number |
| Base62.DecodeThenEncode | Shortener/pkg/base62/base62.go:31-65 | Int2String undoes String2Int on every canonical string whose value fits 64 bits |
| Base62.EncodeInjective | Shortener/pkg/base62/base62.go:31-44 | different numbers have different codes |
| Base62.EncodeCanonical | Shortener/pkg/base62/base62.go:31-44 | every code is canonical: over the alphabet, without a leading zero digit |
| Base62.EncodeOfValue | Shortener/pkg/base62/base62.go:31-65 | encoding the value of a canonical string gives the string back, so canonical strings and numbers correspond one to one |
| Base62.EncodeLength | Shortener/pkg/base62/base62.go:31-44 | a code has at most k characters if and only if its number is below 62^k |
| Base62.CodeFitsColumn | Shortener/sqlfile/short_url_map.sql:8 | every 64-bit number's code fits the column |
| Base62.EncodeMonotone | Shortener/pkg/base62/base62.go:31-44 | codes of increasing numbers increase strictly in shortlex order by digit value |
| Base62.PowerExactIffAtMostTen | Shortener/pkg/base62/base62.go:60 | 62^k has a 53-bit significand if and only if k is at most 10 |
| Base62.PowerUpToTen | Shortener/pkg/base62/base62.go:60-61 | so the converted power is the integer power at every index of an 11-byte string |
| Base62.WrappedStep | Shortener/pkg/base62/base62.go:61 | wrapping each factor and each partial sum keeps the sum right modulo 2^64 |
| CodeDraw.RedisSequence.Next | Shortener/sequence/redis.go:12-18 | advances the counter and returns it, or returns 0 with no error when INCR failed |
| CodeDraw.DrawsIncrease | Shortener/sequence/redis.go:12-18 | successful draws of one request increase strictly, whoever draws in between |
| CodeDraw.RejectionsBounded | Shortener/internal/logic/convertlogic.go:72-87 | any number of successful draws that were all rejected is at most the size of the blacklist |
| CodeDraw.LoopEndsIff | Shortener/internal/logic/convertlogic.go:72-87 | the loop ends in every environment if and only if the code of 0 is not blacklisted |
| CodeDraw.DrawCode | Shortener/internal/logic/convertlogic.go:71-87 | wherever the loop ends it does so with the first allowed code; with successful INCRs, or the code of 0 allowed, after at most blacklist size + 1 draws |
| LinkStore.ShortUrlMapModel.FindOne | Shortener/model/shorturlmapmodel_gen.go:82-97 | through the primary cache, the answer is the table's |
| LinkStore.ShortUrlMapModel.FindOneBySurl | Shortener/model/shorturlmapmodel_gen.go:119-137 | through both cache levels, the answer is exactly the table's, found or not |
| LinkStore.ShortUrlMapModel.FindOneByMd5 | Shortener/model/shorturlmapmodel_gen.go:99-117 | never a wrong or outdated row; not found although stored exactly for the md5s with a stale placeholder |
| LinkStore.ShortUrlMapModel.Insert | Shortener/model/shorturlmapmodel_gen.go:139-148 | new state in full; the caches stay coherent if and only if the new id is not cached or is the one dropped, and no md5 becomes stale |
| LinkStore.ShortUrlMapModel.Update | Shortener/model/shorturlmapmodel_gen.go:150-164 | new state in full; the caches stay coherent if and only if the code stays or its new key is not cached; the new md5 becomes stale exactly if its key was cached |
| LinkStore.ShortUrlMapModel.Delete | Shortener/model/shorturlmapmodel_gen.go:66-80 | new state in full; the three deleted keys are enough |
| LinkStore.WrongDenial | Shortener/model/shorturlmapmodel_gen.go:150-163 | the concrete sequence of lookup, Update and lookup after which a stored md5 is denied |
| LinkBook.NewCode | Shortener/internal/logic/convertlogic.go:81 | the code of a number beyond the counter differs from every code issued before |
| LinkBook.FreshCodeRecovered | Shortener/internal/logic/internalcreateshortlinklogic.go:42-49 | for any domain, the code read off a fresh reply is the code if and only if it has no '/' |
| LinkBook.KnownCodeRecovered | Shortener/internal/logic/internalcreateshortlinklogic.go:42-49 | for any domain, the code read off an already-converted reply is the code if and only if it has no '/' and the domain ends in '/' |
| Shortener.Service.Convert | Shortener/internal/logic/convertlogic.go:38-111 | whatever the caches hold: a known URL is answered from the table and nothing changes; any other draws, inserts and enters the filter, with every error case |
| Shortener.Service.Create | Shortener/internal/logic/internalcreateshortlinklogic.go:30-55 | Convert plus the code read off its reply; the full link with the code of the URL's row, or an error; Convert's (nil, nil), which Create would dereference, does not occur |
| Shortener.Service.Show | Shortener/internal/logic/showlogic.go:33-83 | the answer is what filter, table and clock give, unaffected by any cache content |
| Shortener.Service.Update | Shortener/internal/logic/internalupdateshortlinklogic.go:34-91 | rewrites the row of the code and nothing else, with every refusal; the new md5 becomes denied exactly if its key was cached |
| Shortener.Service.SelfCheckNeverFires | Shortener/internal/logic/convertlogic.go:60-69 | no stored code equals an md5 |
| Shortener.BloomFilter.Add | Shortener/internal/logic/convertlogic.go:104-108 | what was present stays present, and the added entry is |
| LinkRuns.OkKept | Shortener/internal/logic/convertlogic.go:38-111 | every request keeps codes and md5s unique, each md5 the hash of its URL, each code issued and allowed |
| LinkRuns.RunOk | Shortener/sqlfile/short_url_map.sql:7-13 | so these hold throughout every serial run |
| LinkRuns.CodesAreForever | Shortener/internal/logic/internalupdateshortlinklogic.go:69-78 | over any serial run no row disappears and no row's code changes |
| LinkRuns.ConvertOutcome | Shortener/internal/logic/convertlogic.go:38-111 | when exactly a conversion is fresh, known, unreachable or fails, and the row it stores, in terms of URL, table and faults |
| LinkRuns.UpdateWrites | Shortener/internal/logic/internalupdateshortlinklogic.go:51-90 | a successful Update answers with the trimmed URL and the parsed expiry asked for, or the link's own where none is asked for, and writes exactly that row with the md5 of its URL |
| LinkRuns.UpdateSucceedsIff | Shortener/internal/logic/internalupdateshortlinklogic.go:34-80 | an Update succeeds if and only if it names a link and a change, its expiry can be read, the statement does not fail, and the URL fits and is no other link's; otherwise nothing changes |
| LinkRuns.ShowOutcome | Shortener/internal/logic/showlogic.go:33-83 | Show redirects if and only if the filter answers for the code and a stored link that has not expired has it, and then to that link's URL |
| LinkRuns.CreateAnswers | Shortener/internal/logic/internalcreateshortlinklogic.go:35-54 | Create answers the domain with the stored code for a fresh URL, the notice, the domain and the stored code for a known one, and an error in every other case |
| LinkRuns.CreateThenShow | Shortener/internal/logic/showlogic.go:38-62 | after a code was returned as fresh, every later error-free Show of it answers the URL last asked for under it by a successful Update, or else the converted one, until it expires |
| LinkRuns.OrphanedRow | Shortener/internal/logic/convertlogic.go:95-108 | after the filter failed, Show resolves the code exactly when the filter's bits happen to cover it |
| LinkRuns.ConvertAgain | Shortener/internal/logic/convertlogic.go:50-57 | converting a URL again answers with its code and changes nothing, as long as no Update moved that code to another URL |
| LinkRuns.CreateReturnsTheCode | Shortener/internal/logic/internalcreateshortlinklogic.go:36-54 | with no '/' in the alphabet Create returns the stored code: for fresh URLs always, for known ones if and only if the domain ends in '/' |
| LinkRuns.VainSince | Shortener/model/shorturlmapmodel_gen.go:99-117 | over any serial run, a not-found placeholder for an md5 is there exactly since a conversion looked it up in vain, until it is evicted or a statement deletes its key |
| LinkRuns.DeniedIff | Shortener/model/shorturlmapmodel_gen.go:99-163 | at any point of any serial run, a stored md5 is denied if and only if a conversion looked it up in vain, an Update installed it later, and nothing removed the placeholder since |
| Router.Handle | Shortener/internal/handler/routes.go:14-39 | handling any request of a service with any caches extends its run by one event with the answer given |
| IssueMachine.LookStepOk | Shortener/model/shorturlmapmodel_gen.go:99-137 | each cache access and query of a lookup leaves in caches and requests only versions of rows that are still stored under the same code |
| IssueMachine.InvKept | Shortener/internal/logic/convertlogic.go:48-99 | every step of every interleaved Convert, Update and Show keeps the table sound, caches at worst outdated, and positive numbers held once and unused |
| IssueMachine.AlwaysSound | Shortener/sqlfile/short_url_map.sql:7-13 | in every reachable state: unique codes and md5s, md5 = hash of the URL, code = encoding of a number that was drawn, allowed, 1 to 11 characters |
| IssueMachine.ZeroCodeMeansFailure | Shortener/sequence/redis.go:12-18 | a stored code of 0 means that an INCR of the run has failed |
| IssueMachine.CodeNeverChanges | Shortener/internal/logic/internalupdateshortlinklogic.go:51-80 | under any interleaving a row stays and keeps its code |
| IssueMachine.FreshNumberNeverCollides | Shortener/internal/logic/convertlogic.go:90-99 | under any interleaving an insert with a number from a successful INCR is refused only for its URL: if and only if the md5 is taken or the URL too long |
| IssueMachine.NumbersAreDistinct | Shortener/sequence/redis.go:12-18 | two requests never hold the same number unless INCR failed for both |
| IssueMachine.LookupByCodeIsThatLink | Shortener/internal/logic/internalupdateshortlinklogic.go:46-78 | under any interleaving a lookup by code may be outdated but is always that code's link |
| UpdateRaces.KeptIff | Shortener/internal/logic/internalupdateshortlinklogic.go:51-80 | in every sound state, an Update's successful statement changes the present row in the given fields and nothing else if and only if the other fields are in the table as it read them |
| UpdateRaces.AllKeptIff | Shortener/internal/logic/internalupdateshortlinklogic.go:46-80 | over every interleaved run, a row is at every point the fold of its insert and its Updates if and only if each of these Updates finds the other fields as it read them |
| LostUpdates.LostUpdate | Shortener/internal/logic/internalupdateshortlinklogic.go:46-80 | from any sound state with two idle requests there is an interleaving in which both Updates of a link succeed and the first one's URL is gone |
| LostUpdates.LostToShow | Shortener/model/shorturlmapmodel_gen.go:119-137 | from any such state: an Update of the URL runs to its end while a Show looks the code up, and an Update of the expiry that begins only then writes the old URL back |
| LostUpdates.DiesOutdated | Shortener/model/shorturlmapmodel_gen.go:150-163 | from any such state: an Update that dies between statement and key deletion leaves the old row cached, and a Show that begins only then answers the old URL |
| CacheRaces.NothingOutdated | Shortener/model/shorturlmapmodel_gen.go:99-163 | any number of interleaved requests: if no lookup overlaps a write and nobody dies before deleting its keys, every cached row, id and placeholder by id or code agrees with the table whenever no key is left to delete |
| CacheRaces.AnswersAsTable | Shortener/model/shorturlmapmodel_gen.go:119-137 | ... and every lookup by code answers exactly as the table does |
| CacheRaces.LookupAnswersTable | Shortener/model/shorturlmapmodel_gen.go:119-137 | from any sound state with coherent caches and nobody under way, a lookup by code that meets no statement answers exactly as the table, whatever else it meets |
| CacheRaces.AloneLeavesNothingOutdated | Shortener/model/shorturlmapmodel_gen.go:139-163 | any request that runs alone from start to end, however it ends, leaves coherent caches coherent |
| LoneRequests.LoneUpdate | Shortener/internal/logic/internalupdateshortlinklogic.go:45-80 | among coherent caches an Update that runs alone changes exactly its link's given fields, or nothing if there is no such link or the row is refused |
| LoneRequests.LoneConvert | Shortener/internal/logic/convertlogic.go:48-99 | ... a conversion that runs alone changes nothing for a known URL, and otherwise inserts its row under the first allowed code of the numbers it draws |
| AgentTools.InternalClient.CreateShortLink | AIAgent/internal/tools/internal_client.go:27-36 | sends one request with the caller's identity and URL and reports its reply |
| AgentTools.InternalClient.UpdateShortLink | AIAgent/internal/tools/internal_client.go:39-66 | sends one request with the given fields only, or none if the code is blank |
| AgentTools.InternalClient.QueryTrafficSummary | AIAgent/internal/tools/internal_client.go:69-115 | sends one request, or none if code or dates are blank or unreadable |
| AgentEngine.NonEmptySteps | AIAgent/internal/agent/eino_engine.go:464-479 | the trimmed non-blank steps in order, or the fallback if there are none |
| AgentEngine.Summarize | AIAgent/internal/agent/engine.go:148-164 | counts good and other calls |
| AgentEngine.FinalStatus | AIAgent/internal/agent/engine.go:167-177 | no_op exactly without calls, succeeded exactly when all calls are good |
| AgentEngine.ExecuteToolPlan | AIAgent/internal/agent/eino_engine.go:249-277 | the calls and requests of the intent's plan, updates blocked when writes are off |
| AgentEngine.RuleEngine.Execute | AIAgent/internal/agent/engine.go:57-129 | refuses incomplete requests; otherwise follows the plan of the inferred intent, and reports that intent, its plan and a status that fits the calls |
| AgentEngine.EinoEngine.DispatchToolCall | AIAgent/internal/agent/eino_engine.go:391-434 | acts on a copy of the request overridden by the call's own arguments; the caller's request is not touched |
| AgentEngine.EinoEngine.ToolAgent | AIAgent/internal/agent/eino_engine.go:280-329 | an error means nothing was sent; otherwise the model's list in order, or the local plan if the list is empty |
| AgentEngine.EinoEngine.RunDAG | AIAgent/internal/agent/eino_engine.go:131-193 | which nodes run under the step limit and the context, what they leave in the state, and what has been sent when the workflow fails |
| AgentEngine.EinoEngine.FallbackOrErr | AIAgent/internal/agent/eino_engine.go:104-109 | the rule engine's actions on top of what was sent, or an error and nothing more |
| AgentEngine.EinoEngine.Execute | AIAgent/internal/agent/eino_engine.go:58-101 | what is sent and what is reported, calls, intent and plan, is exactly the execution that the theorems below are about |
| AgentTraces.DisabledWritesRemoveExactlyTheUpdates | AIAgent/internal/agent/eino_engine.go:249-277 | for every model and failure, turning writes off removes all updates from the requests sent, and nothing else |
| AgentTraces.BlockedUpdateIsReported | AIAgent/internal/agent/eino_engine.go:405-408 | a blocked update in the model's list makes the status partial_failed |
| AgentTraces.OwnReport | AIAgent/internal/agent/eino_engine.go:319-322 | the i-th report is that of the i-th call at its moment, and depends on earlier calls only through the number of requests sent |
| AgentTraces.SeesOwnArguments | AIAgent/internal/agent/eino_engine.go:391-430 | every request of the model's list carries, field by field, the call's own argument of that name if it is a non-blank string, and else the caller's value |
| AgentTraces.OneSource | AIAgent/internal/agent/eino_engine.go:58-109 | what one Execute reports comes from exactly one of model list, local plan and rule engine; something else was done only if the workflow failed after its tools |
| AgentTraces.AbandonedBecause | AIAgent/internal/agent/eino_engine.go:182-192 | the workflow fails after its tools only at a step limit of 3, or with the context done |
| AgentTraces.DoneFallbackSendsNothing | AIAgent/internal/agent/intent_model.go:36-88 | with the context done, falling back sends nothing |
| AgentTraces.OneGroupSends | AIAgent/internal/agent/eino_engine.go:58-109 | with any step limit but 3, for every model, failure and moment of the context: workflow and rule engine do not both send |
| AgentTraces.RepeatIff | AIAgent/internal/agent/eino_engine.go:104-109 | for a request that can be sent: workflow and rule engine can both send if and only if falling back is configured and the step limit is 3 |
| AgentTraces.FailedWorkflowSentNothingIff | AIAgent/internal/agent/eino_engine.go:130-193 | unless the runner itself looks at the context, a failed workflow has sent nothing, for every model and timing, if and only if the step limit is not 3 |
| AgentTraces.CreatedTwice | AIAgent/internal/agent/eino_engine.go:182-192 | the concrete case, at a step limit of 3 and with the context in time, in which falling back repeats a creation and reports one |
| AgentTraces.ReportedIntentIsPlanned | AIAgent/internal/agent/eino_engine.go:74-90 | if the planner gave a known intent, that intent is reported, and it is the one whose plan was followed |
| AgentTraces.GoodCallsWereAnswered | AIAgent/internal/tools/internal_client.go:128-201 | as many good calls are reported as requests were answered with a status below 400 |
| AgentTraces.ReportIsHonest | AIAgent/internal/agent/engine.go:166-177 | every finished Execute reports at least one call and succeeds if and only if each reported call was sent and answered well |
| AgentPlans.LocalPlanSends | AIAgent/internal/agent/eino_engine.go:249-309 | a workflow without faults and tool calls sends exactly: one creation for "create_shortlink", one update of the given fields for "update_shortlink" if writes are on and there is a code, one query for "query_traffic" if code and dates are good, update and query for "update_and_query", and nothing for any other text |
| AgentPlans.LocalPlanReports | AIAgent/internal/agent/eino_engine.go:249-277 | ... and reports the tools of that intent, in order |
| AgentPlans.ListSends | AIAgent/internal/agent/eino_engine.go:311-329 | a workflow without faults sends, for each call of the model's list in order, exactly the request of the named tool with the call's own arguments over the caller's fields |
| AgentPlans.RulesSend | AIAgent/internal/agent/engine.go:74-126 | a workflow that fails before its tools sends nothing; the rule engine then sends exactly what the text that it hears asks for, and reports that intent and its default plan |
| AgentPlans.RejectedIff | AIAgent/internal/agent/engine.go:57-71 | a request is rejected, and then sends nothing, if and only if an id or the query is blank |
| AgentPlans.ReportedPlan | AIAgent/internal/agent/eino_engine.go:74-90 | a workflow without faults reports the decided intent and the planner's steps, trimmed, in order and without blank ones, or, if none remain, the default plan of the intent |
| AgentPlans.VerifierAnswers | AIAgent/internal/agent/eino_engine.go:168-180 | the answer is the verifier's if it is enabled and has one, and otherwise counts the calls that went well and the others |
| AgentPlans.ReportCarriesReply | AIAgent/internal/tools/internal_client.go:128-201 | each request that goes out is reported with its own reply: the body, and good if and only if the status is below 400 |

## Left out

- MySQL collation: codes and event ids are compared exactly, although the schema names no binary collation for `surl`.
- Time zones and timestamp texts: days and times are abstract and linearly ordered, in one zone; the accepted layouts of an expiry are a parameter.
- Other columns of the click event, the audit log, configuration defaults and the setup of the consumer group.
- Column widths of the traffic tables: an over-long value is one of the failing inserts.
- Redelivery of pending entries: any entry may be delivered again to any consumer, which covers more than the code, which reads new entries only.
- Commits reported as errors: a failed statement has no effect.
- NULL in `lurl`, `md5` and `surl`, and `create_at`: every row that the services write has values for the first three.
- The id that MySQL uses up for a refused insert.
- Convert's error branch on a failed md5 lookup (Shortener/internal/logic/convertlogic.go:52-53), which dereferences a nil row: lookups succeed or miss.
- The probe of the long URL, the hash and the Bloom filter's bit positions are parameters; only that an md5 has 32 characters is used. No claim is made about false positives of the filter or about colliding hashes.
- Show's click event and its request headers.
- Update's answer repeats the code and formats the expiry; the model answers with the URL and the expiry itself.
- Shortener.Service.Convert: requires that the drawing loop ends if it is reached, since a loop that does not end has no result; `CodeDraw.LoopEndsIff` says when it always does.
- Shortener.Service.Create: requires the same, for the same reason.
- Router.Handle: requires the same of conversions.
- IssueMachine: the Bloom filter, which affects neither table nor caches; requests that are refused before the first lookup. Delete, which no request uses.
- Shortener/sequence/mysql.go, the alternative sequence, is not part of this model.
- HTTP handlers, routing, the command line, event streaming, chat sessions and slot extraction.
- The language model, its prompts and JSON decoding: every reply is possible. `strings.ToLower` is modelled as far as an intent name can come of it.
- Task and trace ids of a result, and the wording of answers and error messages.
- The workflow library is not part of this model. It is taken to run the four nodes in order, to fail instead of running a node beyond the step limit, as AIAgent/internal/config/config.go:27 describes the limit, and to fail if it finds the context done where it looks, which may be before any node or before handing over the result. Whether it accepts the graph and its options at all is left open, as is every failure of a node.
- Timeouts of the HTTP client and of the model count as failed requests and calls; only the context passes from one call to the next.
