# A verified model of the short-link service

This Dafny project models the logic of a URL shortener written in Go and proves properties of the model.
`dafny verify dfyconfig.toml` checks everything.

The service stores links in MySQL, caches them in Redis and in each pod's memory, filters unknown codes with a Bloom
filter kept in Redis, and announces new links through a transactional outbox and RabbitMQ to consumers that fill the
caches.  Ids come from a Snowflake generator and become short codes in base 62; a token bucket in Lua limits requests.

## Layout

| files | what they hold |
|---|---|
| `Common` | shared values; wrapping 64-bit arithmetic |
| `Outbox` | the outbox table: row transitions as functions, and the repository's methods as the class that the workers call |
| `Bloom`, `Separation`, `Rebuild` | the bitmap and its 64-bit hashes; which strings the hashes keep apart, and so what a filter rejects; the loop that fills it page by page |
| `SystemModel` | the whole service as one state machine, at the grain of one access to one shared component |
| `Frames`, `Agreement`, `Leases`, `Holding`, `Delivery`, `Staleness` | five inductive invariants of that machine, proved step by step |
| `SystemTheorems`, `OwnReads` | what follows over every run; exactly when a pod can trust the entry that Create put into its L1 |
| `Answers`, `Settling` | when Redirect and Create fail, and when Redirect must answer with the URL; when every claim of a worker gets its verdict |
| `Witnesses` | concrete runs in which a promise fails or a bound is reached |
| `Cluster`, `ShortLinkService`, `CacheSyncConsumer`, `OutboxWorker` | the Go control flow as methods that drive the machine's steps, with the failing calls as parameters; between any two steps anybody else may run |
| `LruSpec`, `LruReference`, `L1Cache` | the sharded LRU cache: on sequences, against independent references, and as classes |
| `TokenBucket` | the Lua script and its behaviour over request histories |
| `Snowflake`, `Base62`, `ShortCode` | ids, the codec, and their composition |

The state machine has a step for each access: Redis reads and writes (a pipeline is an ordered sequence of writes that
may stop anywhere), L1 reads and writes, database queries and transactions, the claim, publish and settle calls of the
workers, deliveries and acknowledgements.  A database or broker call may fail without effect, or take effect and still
report an error.  Operations may be abandoned, workers may crash, caches may forget entries, pods may restart, and time
may pass at any moment.  `CreateNext` and `RedirectNext` follow internal/service/shortlink.go:81-193 and 245-328,
`RebuildNext` lines 212-236, `ConsumeNext` internal/worker/consumer.go:45-73 with pkg/mq/rabbitmq.go:136-161, and
`WorkerNext` internal/worker/outbox.go:83-119 with internal/repository/outbox.go:22-137.  Fields marked "aux" record
history for the statements of theorems; no step reads them.

## Results about the code that its comments or schema do not suggest

- **A row is given up after two failed publishes, not three.**  `MarkOutboxFailed` raises `retry_count` and then
  compares `retry_count + 1` with the limit.  MySQL evaluates the assignments of a single-table UPDATE from left to right
  (section "UPDATE Statement" of the MySQL 8.0 Reference Manual), so the comparison sees the raised value; with the
  limit 3 of internal/worker/outbox.go:21 the second failure is final.  Standard SQL would allow three.  The model takes
  the order as a parameter, and `Outbox.GivenUpAfterExactly` and `SystemTheorems.TriesAreBounded` give the exact number
  for both.
- **A new code is not always readable at once on the pod that created it**, although the comment at
  internal/service/shortlink.go:166-167 says so.  `OwnReads.OwnReadLastsIff` gives the exact condition on the state in
  which the entry stands in L1: it can be trusted for its lifetime, whatever runs, if and only if no Redirect of the
  code that is already past L1 on the pod can still come to store "not found" there.  Such a Redirect holds a negative
  finding; or is about to ask a filter that rejects the code, or that will reject it once a rebuild under way has
  finished; or is about to ask Redis while Redis, or a Redirect on any pod that is about to tell Redis, says "not
  found".  The Redirect may even begin after the commit (`Witnesses.BeginnerCanEndanger`).  `Witnesses.OwnReadCanFail` is
  a run in which the promise fails.
- **When a committed code must be found.**  A Redirect can fail only by a failed query (`Answers.RedirectFailsIff`).  While
  nothing speaks against the code on the pod, it answers with the URL unless a query fails (`Answers.CommittedIsFound`), and
  nothing ever comes to speak against it again (`Answers.ClearStays`).  If nobody
  holds a finding longer than `delta`, that state is reached at the latest 10 minutes + 2 `delta` after the code is in the
  Bloom filter (`Answers.ContainedBecomesClear`).
- **A Bloom filter that is ready can miss a committed code**, for any length of time and on evidence of this moment
  (`Witnesses.FilterCanMiss`), also one whose outbox row was given up (`Witnesses.GivenUpCodeStaysMissing`).  It is
  always a code that was committed after the pod's rebuild began and whose message is undelivered
  (`SystemTheorems.BloomMissMeansUndelivered`), so a rebuild that begins later ends it; and once the filter has the code,
  "not found" answers die out within the age bound (`SystemTheorems.ContainedIsFoundSoon`).
- **Codes outgrow the column before the 41 bits of time run out.**  `ShortCode.FitsColumnIff`: ids fit VARCHAR(10) until
  200 104 562 251 ms after the epoch, about 6.3 years, and never after that offset.
- **A sleep that wakes up too early lets the generator go back, and then it can repeat an id.**  `Generate` does not
  compare the reading after the sleep with the stored timestamp.  Ids increase if and only if no call goes on with such a
  reading (`Snowflake.IdsIncreaseIff`); they are all different if and only if the generator never goes to a millisecond
  to which it has gone before (`Snowflake.IdsDistinctIff`).  The two conditions differ
  (`Snowflake.StaleReadingMayBeHarmless`), and the second can fail (`Snowflake.EarlyWakeRepeatsAnId`).
- **The age of a "not found" has no bound of its own**: a Redirect may hold its finding for any time before it stores it
  (`Witnesses.StaleWithoutABound`).  If nobody holds one longer than `delta`, an answer is at most 10 minutes + 2 `delta`
  - 1 ms old (`SystemTheorems.NotFoundIsJustified`), and that age is reached (`Witnesses.BoundIsReached`).
- **A custom alphabet must have 62 distinct bytes**, which `NewBase62` does not check: `Base62.RoundTripIff`.
- **The rebuild never visits id 0**: `Rebuild.RebuildBloom` states that it visits exactly the other ids.

## Model

| member | source | states |
|---|---|---|
| `SystemTheorems.RunKeeps` | internal/service/shortlink.go:81-328 | Over every run, from any state in which it holds: the five invariants (agreement of all copies, leases, open claims in their workers' hands, conservation, freshness of negatives) hold at the end, committed links are still there unchanged, and time has not gone back |
| `SystemTheorems.StepKeeps` | internal/service/shortlink.go:81-328 | Each single step of Create, Redirect, rebuild, consumer, worker or environment keeps the five invariants |
| `Agreement.StepKeepsAgreement` | internal/service/shortlink.go:81-189 | Every step keeps all copies of a link (Redis, every L1, outbox rows, queue, deliveries, workers' batches, local variables) equal to the committed row |
| `Leases.StepKeepsLeases` | internal/repository/outbox.go:22-137 | Every step keeps the claim histories exclusive and fenced, and each row's columns in agreement with its history |
| `Holding.StepKeepsHolding` | internal/worker/outbox.go:94-110 | Every step keeps: the rows of a worker's batch are distinct, and every claim that is still to be published or settled by it has no verdict from anybody; the last claim of a deleted row found it sent |
| `Delivery.StepKeepsDelivery` | internal/worker/outbox.go:83-128 | Every step keeps each message in the outbox, on the way, or applied, and every settled or deleted row published |
| `Staleness.StepKeepsFresh` | internal/service/shortlink.go:268-328 | Every step keeps each negative entry, held finding and "not found" answer within its time bound of a recorded absence |
| `SystemTheorems.PositivesAreSound` | internal/service/shortlink.go:164-189 | In every reachable state every non-empty cached value, outbox row, queued message, delivery and Redirect answer is the URL of the committed row of its code |
| `SystemTheorems.FoundStaysFound` | internal/service/shortlink.go:245-328 | Two Redirects of one code that find something, anywhere in a run, find the same URL |
| `SystemTheorems.CreateIsIdempotent` | internal/service/shortlink.go:81-175 | Two successful Creates, on any pods in any interleaving, return one code if and only if their URLs have one hash; the code is committed under that hash |
| `SystemTheorems.CreateThenRedirect` | internal/service/shortlink.go:81-328 | Redirecting to a returned code gives a URL with the same hash, and the same URL when the hash does not collide |
| `SystemTheorems.LeaseExclusion` | internal/repository/outbox.go:22-69 | Of two claims of one row, the earlier was settled or had expired when the later began |
| `SystemTheorems.FenceIsExact` | internal/repository/outbox.go:84-111 | The sent and failed updates of a worker change a row exactly while the claim that gave it the job is the row's last and unsettled one |
| `SystemTheorems.VerdictsAreFinal` | internal/repository/outbox.go:84-111 | Over every run claims are only appended, only a row's last claim can get a verdict, each gets at most one, and it never changes |
| `SystemTheorems.TriesAreBounded` | internal/repository/outbox.go:98-111 | `retry_count` is the number of failed claims and at most the budget, the row is failed exactly when the budget is used up, and there are at most as many claims as the budget plus the abandoned ones, under both evaluation orders |
| `SystemTheorems.SettledRowsStay` | internal/repository/outbox.go:113-137 | Sent and failed rows are never changed, and a row is deleted only if it is sent and its update is older than the retention at that moment, whatever runs between the two statements of the cleanup |
| `SystemTheorems.NothingIsLost` | internal/service/shortlink.go:138-162 | Every link committed by Create has its unsent outbox row, or its message was published and is queued, with a consumer, or applied; an applied message's code is in the Bloom filter |
| `SystemTheorems.SentMeansPublished` | internal/worker/outbox.go:96-110 | A row marked sent, or deleted, was published with the columns of its committed link |
| `SystemTheorems.QuietMeansComplete` | internal/worker/consumer.go:45-73 | When no row is pending or processing and queue and consumers are empty, every link is in the Bloom filter unless its row was given up or it predates the outbox |
| `SystemTheorems.GivenUpForGood` | internal/repository/outbox.go:33-37 | A failed row is the same after every run |
| `SystemTheorems.BloomMissMeansUndelivered` | internal/service/shortlink.go:290-301 | A ready Bloom filter lacks a committed code only if it was committed after the pod's rebuild began and its message is undelivered |
| `SystemTheorems.AbsencesAreReal` | internal/service/shortlink.go:290-313 | For every recorded absence there is a state of the run in which the master lacked the row, or a pod's ready Bloom filter lacked the code |
| `SystemTheorems.NotFoundIsJustified` | internal/service/shortlink.go:278-316 | For every "not found" there is a state of the run, at most 10 minutes + 2 delta - 1 ms earlier, in which the code was not committed, or was undelivered and missing from a ready Bloom filter |
| `SystemTheorems.ContainedIsFoundSoon` | internal/service/shortlink.go:278-316 | From the moment at which a committed code is in the Bloom filter, no "not found" for it is answered later than the age bound after it, in any run |
| `OwnReads.LostIff` | internal/service/shortlink.go:164-170 | A step takes the pod's L1 answer for a committed code away if and only if it stores a negative finding there, evicts the entry, or restarts the pod |
| `OwnReads.OwnReadLastsIff` | internal/service/shortlink.go:164-170 | For a committed code whose entry stands in the pod's L1: the pod answers with the URL in every run through the entry's lifetime without an eviction or a restart, if and only if no Redirect in the present state endangers it |
| `OwnReads.CalmRun` | internal/service/shortlink.go:245-328 | In every such run from a state without an endangering Redirect the entry stays and none appears |
| `OwnReads.EndangeredLoses` | internal/service/shortlink.go:268-316 | From every state with an endangering Redirect a run without time passing, eviction or restart loses the entry |
| `OwnReads.RejectionShrinks` | internal/service/shortlink.go:210-236 | No step lets a pod's filter, now or when a rebuild under way finishes, reject a committed code that it could not reject before |
| `OwnReads.NegativesShrink` | internal/service/shortlink.go:303-316 | No step brings a "not found" for a committed code into Redis, or a Redirect about to put it there, where there was none |
| `OwnReads.RebuildCanFinish` | internal/service/shortlink.go:212-236 | A rebuild under way can always finish, with exactly the bits of the filter, of its page and of the rows ahead of it |
| `OwnReads.EntryIsMade` | internal/service/shortlink.go:166-170 | Create's write to L1 makes the entry of the committed link stand there for its whole time to live |
| `Answers.RedirectFailsIff` | internal/service/shortlink.go:303-319 | Over every run: a Redirect has ended in an error if and only if one of its two database queries has failed |
| `Answers.CreateFailsIff` | internal/service/shortlink.go:105-162 | Over every run: a Create of a URL that is not empty has ended in an error if and only if its query or its transaction has failed |
| `Answers.ClearStays` | internal/service/shortlink.go:245-328 | No step makes anything speak against a committed code (a filter that can reject it, a negative entry in Redis or the pod's L1, a negative finding on the way) on a pod where nothing does |
| `Answers.ContainedBecomesClear` | internal/service/shortlink.go:278-316 | 10 minutes + 2 delta after the filter has a committed code, nothing speaks against it on any pod, in any run |
| `Answers.CommittedIsFound` | internal/service/shortlink.go:245-328 | While nothing speaks against a committed code on the pod: over every run in which a Redirect's own queries succeed, it is still under way or has answered with the committed URL, from every stage |
| `Answers.FoundCanBeReached` | internal/service/shortlink.go:245-328 | From every stage of such a Redirect its own next steps, with calls that succeed, lead to that answer |
| `Settling.OwnedBatchIsSent` | internal/repository/outbox.go:84-96 | After the batch update takes effect, each listed row that the worker owned is sent and unowned, and all others are unchanged |
| `Settling.OwnedFailureIsRecorded` | internal/repository/outbox.go:98-111 | After a failure is recorded, the job's row, if the worker owned it, has one more failure and is given up exactly at the budget, and all others are unchanged |
| `Settling.SentGetVerdicts` | internal/worker/outbox.go:104-110 | Every published claim of the batch is sent by that update, or was superseded |
| `Settling.EveryClaimCounts` | internal/worker/outbox.go:83-119 | After every run without crashes in mid-batch, failed database calls or expired leases: each claim but one still in its worker's hands has ended sent or with one more failure; the number of claims is retry_count, plus one if sent or processing, and at most the budget; at the budget a row out of hands is sent or failed |
| `Settling.BatchCanBeSent` | internal/worker/outbox.go:94-110 | From every point of a batch at which the worker is about to publish or to settle, its own next steps, with calls that succeed, send exactly the rows that it holds and owns |
| `Settling.ClaimableCanBeSent` | internal/worker/outbox.go:83-110 | An idle worker can bring every claimable row to sent, changing no other |
| `Witnesses.OwnReadCanFail` | internal/service/shortlink.go:164-170 | For every configuration a run in which Create has returned and its pod's L1 shows the URL, and a Redirect that begins there later answers "not found", with no eviction or restart of the pod at any time |
| `Witnesses.BeginnerCanEndanger` | internal/service/shortlink.go:164-170 | A run in which the code is committed and no Redirect is under way, and one that begins only then endangers the entry that Create afterwards puts into L1 |
| `Witnesses.StaleWithoutABound` | internal/service/shortlink.go:305-316 | When holding times are unbounded, for every age a run with a "not found" of that age for a code that Create returned at time 0 |
| `Witnesses.BoundIsReached` | internal/service/shortlink.go:278-316 | For every delta a run with a "not found" exactly as old as the bound, for a code that Create returned at time 0 |
| `Witnesses.FilterCanMiss` | internal/service/shortlink.go:290-301 | For every age, and any bound on holding times: Create has returned the code, and that much later a Redirect that begins then on a pod with a ready filter answers "not found" on evidence of that moment |
| `Witnesses.GivenUpCodeStaysMissing` | internal/repository/outbox.go:98-111 | The same with the code's outbox row given up, after exactly the budget of failed publishes |
| `Outbox.GivenUpAfterExactly` | internal/repository/outbox.go:98-111 | A row is pending through the first budget - 1 failures and failed by the next; the budget is maxRetry in standard SQL and maxRetry - 1, but at least 1, under MySQL's order |
| `Outbox.SelectOldest` | internal/repository/outbox.go:33-37 | The ORDER BY ... LIMIT selection: sorted, without repetition, nothing left out that is older, and short only if it has everything |
| `Outbox.OutboxStore.ClaimPendingOutbox` | internal/repository/outbox.go:22-69 | Returns the oldest claimable unlocked rows as they were and leases exactly those; a failed call changes nothing, or commits and still fails; a non-positive limit does nothing |
| `Outbox.OutboxStore.MarkOutboxSentBatch` | internal/repository/outbox.go:84-96 | Marks exactly the listed rows that this worker still processes; no row comes or goes |
| `Outbox.OutboxStore.MarkOutboxFailed` | internal/repository/outbox.go:98-111 | All other rows, and a row that this worker does not process, stay as they are; the worker's row has one failure more and no owner, and is failed if and only if its failures have reached the budget, otherwise pending |
| `Outbox.OutboxStore.PluckSent` | internal/repository/outbox.go:117-124 | The oldest sent rows beyond the deadline, up to the batch size |
| `Outbox.OutboxStore.DeleteRows` | internal/repository/outbox.go:128-133 | Exactly the listed rows are gone, or none if the call has no effect; the others stay as they are |
| `OutboxWorker.OutboxWorker.ClaimPending` | internal/worker/outbox.go:84-93 | Succeeds exactly without a fault, hands out the oldest claimable unlocked rows with their messages, and leases exactly those to this worker; without effect on the database nothing changes |
| `OutboxWorker.OutboxWorker.PublishOne` | internal/worker/outbox.go:96-105 | Exactly when the broker acknowledges does the id join the list of sent rows, with its message queued and recorded as published; a failed publish whose failure is recorded gets the claim its verdict |
| `OutboxWorker.OutboxWorker.MarkFailed` | internal/worker/outbox.go:100-102 | The failure is recorded for the one row under the fence exactly if the given fault lets the update take effect, and then the claim failed or was superseded |
| `OutboxWorker.OutboxWorker.MarkSent` | internal/worker/outbox.go:108-110 | Given only published ids and the fault: exactly if the update takes effect, the rows that this worker still processes are sent, and then every given claim was sent or superseded |
| `OutboxWorker.OutboxWorker.DeleteSent` | internal/repository/outbox.go:113-137 | Picks the oldest rows that are sent and old at the select; whatever runs before the delete, the table that it finds loses exactly the picked rows, or none if it has no effect, and all of those in it are sent and older than the retention at that moment |
| `OutboxWorker.OutboxWorker.ProcessPending` | internal/worker/outbox.go:83-119 | Under any interference and any schedule of faults: exactly the acknowledged messages are given to the batch update; every claim whose update takes effect has the verdict that fits its publish, or was superseded; with a database that works, a row whose claim is still the last is sent if its message was acknowledged, and pending or failed if not; cleanups are at least an hour apart |
| `ShortLinkService.Create` | internal/service/shortlink.go:81-175 | Under any interference, a returned code is committed under the hash of the URL; it fails only on the empty URL, without an id, when the master's query or the transaction fails, or when a key of the new row is taken |
| `ShortLinkService.FindOrInsert` | internal/service/shortlink.go:105-175 | From the database lookup on: the code found, if the query works and a row has the hash; else the code inserted, or one of the named errors |
| `ShortLinkService.FindByLongURLHashFromMaster` | internal/repository/storage.go:105-114 | The code of the row with this hash; or no committed row has it; an error exactly if the query fails |
| `ShortLinkService.InsertLinkAndOutbox` | internal/service/shortlink.go:138-162 | Succeeds exactly if no key is taken and the database has no fault; the database then, or if only the report of the commit failed, has exactly one link row more and one pending outbox row with the same columns, and otherwise is unchanged |
| `ShortLinkService.WriteThrough` | internal/service/shortlink.go:177-193 | Whatever becomes of the pipelines, which may stop anywhere, Create ends with its code |
| `ShortLinkService.Redirect` | internal/service/shortlink.go:245-265 | Under any interference, a returned URL is the committed one, a "not found" goes back to a recorded absence within the bound, and an error means that a query failed; while nothing speaks against a committed code on the pod, the answer is its URL unless a query fails; the pod's L1 then says what the answer says |
| `ShortLinkService.ResolveRedirect` | internal/service/shortlink.go:268-301 | The second L1 check, Redis, and Bloom stages: it fails only if a query does, and while nothing speaks against the code gives its URL otherwise |
| `ShortLinkService.FromDatabase` | internal/service/shortlink.go:303-328 | The replica, master and write-back stages: an error exactly if the replica's query fails, or it does not show the row and the master's query fails; a code committed before is otherwise answered with its URL |
| `CacheSyncConsumer.HandleMessage` | internal/worker/consumer.go:45-73 | Succeeds exactly if one of three attempts at the pipeline does; then all writes of the message have happened, its code is in the Bloom filter, and it may be acknowledged; otherwise the delivery is still unacknowledged in the pipeline stage |
| `CacheSyncConsumer.ConsumeOne` | pkg/mq/rabbitmq.go:136-161 | A message leaves the broker only after it has been applied; it is back in the queue exactly if all three attempts fail |
| `Cluster.OthersKeepOut` | internal/service/shortlink.go:81-328 | A step of one operation leaves the local state of every other operation alone |
| `Cluster.Cluster.Yield` | internal/service/shortlink.go:81-328 | Any steps of others keep the invariants, the links, the clock's direction, the local state of the one who waits, and the codes against which nothing speaks |
| `Bloom.AddedIsContained` | pkg/bloom/bloom.go:94-133 | After any history of adds every added string is a member, old bits stay, and every bit is an old one or belongs to an added string |
| `Bloom.RedisBloomFilter.constructor` | pkg/bloom/bloom.go:41-54 | The seeds are the base primes, repeated, each plus its position |
| `Bloom.RedisBloomFilter.HashOf` | pkg/bloom/bloom.go:152-158 | The wrapping 64-bit loop computes the polynomial of the bytes in base `seed`, modulo 2^64, about which `Separation` proves what it keeps apart |
| `Bloom.RedisBloomFilter.QueueAdd` | pkg/bloom/bloom.go:94-100 | A complete pipeline sets exactly the bits of the string, a broken one a part of them |
| `Bloom.RedisBloomFilter.Contains` | pkg/bloom/bloom.go:120-133 | True if and only if all bits of the string are set |
| `Separation.PolynomialOfJoin` | pkg/bloom/bloom.go:152-158 | Appending a string multiplies by the seed once for each of its bytes and adds its own value; a single byte has its value |
| `Separation.HashesDiffer` | pkg/bloom/bloom.go:152-158 | With an odd seed, strings of one length that differ in one byte have different 64-bit hashes |
| `Separation.SeparatesIff` | pkg/bloom/bloom.go:152-158 | Modulo any number by which the seed loses nothing, two such strings coincide if and only if the bytes differ by a multiple of it |
| `Separation.AcceptedIff` | pkg/bloom/bloom.go:94-133 | With odd seeds and a power of two of bits, a filter that holds one code accepts another that differs in one byte if and only if each of its bits was set by a different seed |
| `Separation.ServiceRejects` | internal/service/shortlink.go:47-63 | In the service's filter, codes of up to 11 bytes that differ in one byte have different bits for the seeds 7 and 41: one is accepted for the other only if other seeds have set both |
| `Separation.OrderMatters` | pkg/bloom/bloom.go:120-158 | The service's seeds, and the bits of "ab" and "ba": the filter that holds only the first rejects the second |
| `Common.WrapStep` | pkg/bloom/bloom.go:152-158 | Wrapping after every multiply-and-add is wrapping once at the end |
| `Rebuild.LinkTable.ListShortCodesAfter` | internal/repository/storage.go:117-126 | The next page by id |
| `Rebuild.PageFacts` | internal/repository/storage.go:117-126 | A page ascends, skips nothing between the cursor and its last row, and is empty only if nothing is left |
| `Rebuild.QueuePage` | internal/service/shortlink.go:228-234 | After success all codes of the page are members; after a failure only bits of its codes were set |
| `Rebuild.RebuildBloom` | internal/service/shortlink.go:210-236 | Terminates when finitely many rows arrive; visits ids in ascending order without repetition; sets no foreign bit; when ready, every visited row is a member, and of the rows present at the start exactly those with an id other than 0 were visited; without failures it becomes ready |
| `LruSpec.ApplyKeepsWellFormed` | pkg/cache/l1cache.go:68-135 | Every operation keeps the keys of a shard distinct and its size within the capacity |
| `LruSpec.Inclusion` | pkg/cache/l1cache.go:68-135 | Same operations and times on capacities k <= K: the small list is a subsequence of the large one with equal values and deadlines, and at most K - k keys are missing |
| `LruSpec.HitsAreIncluded` | pkg/cache/l1cache.go:68-87 | Every hit of the smaller shard is the same hit of the larger one |
| `LruReference.ListRefinesStamps` | pkg/cache/l1cache.go:68-135 | Over every history the list answers like a table that stamps touches and evicts the oldest stamp, and is sorted by last touch |
| `LruReference.StampsCanFollow` | pkg/cache/l1cache.go:90-135 | That reference has a run for every history |
| `LruReference.HitsAreLastSets` | pkg/cache/l1cache.go:68-87 | A hit returns the value of the key's last Set, unexpired and not invalidated since |
| `LruReference.RecentKeysAreFound` | pkg/cache/l1cache.go:68-113 | While fewer than `capacity` other keys are used, and the key is not set again, invalidated or looked up too late, a lookup finds the value if and only if it is not expired |
| `LruReference.ShardRefinesMap` | pkg/cache/l1cache.go:68-124 | The shard is a map with deadlines that drops only expired entries on lookup and at most one other key on Set, as the state machine assumes of L1 |
| `L1Cache.CacheShard.Get` | pkg/cache/l1cache.go:68-87 | On map and list: the specified answer and new contents; map and list stay the same set of elements |
| `L1Cache.CacheShard.Set` | pkg/cache/l1cache.go:90-113 | On map and list: overwrite in place and promote, or push in front and evict from the back down to the capacity |
| `L1Cache.CacheShard.Evict` | pkg/cache/l1cache.go:127-135 | Removes exactly the last element, from list and map |
| `L1Cache.CacheShard.Invalidate` | pkg/cache/l1cache.go:116-124 | Removes exactly the key |
| `L1Cache.L1Cache.constructor` | pkg/cache/l1cache.go:36-57 | 256 separate empty shards of `PerShard(capacity)` entries each, and no operation so far |
| `L1Cache.ShardsShareTheCapacity` | pkg/cache/l1cache.go:36-41 | 256 shards of that many entries fit into max(capacity, 256), and 256 shards of one more do not |
| `L1Cache.L1Cache.RecentKeysAreFound` | pkg/cache/l1cache.go:36-145 | On the whole cache: a key that was set is found until it expires, and not after, while fewer than capacity/256, at least one, other keys of its shard have been used since, and it was not set again, invalidated or looked up too late |
| `L1Cache.L1Cache.Get` | pkg/cache/l1cache.go:138-140 | The routed shard answers and notes the use; all other shards keep their contents; every shard holds what its own operations leave |
| `L1Cache.L1Cache.Set` | pkg/cache/l1cache.go:143-145 | The routed shard takes the entry; all other shards keep their contents |
| `L1Cache.L1Cache.Invalidate` | pkg/cache/l1cache.go:148-150 | The routed shard drops the key; all other shards keep their contents |
| `L1Cache.L1Cache.TotalIsBounded` | pkg/cache/l1cache.go:36-57 | All shards together hold at most max(capacity, 256) entries |
| `TokenBucket.TokensStayInRange` | internal/middleware/ratelimit.go:26-52 | Stored tokens never exceed the capacity |
| `TokenBucket.WindowBound` | internal/middleware/ratelimit.go:26-54 | In any window of any history: tokens granted plus tokens left are at most the capacity plus the rate times the forward movement of the clock |
| `TokenBucket.AvailableIsTheRoom` | internal/middleware/ratelimit.go:40-42 | With a clock that does not go back, the tokens a request finds are the room that the tightest window ending in it leaves |
| `TokenBucket.DeniedIffSomeWindowIsFull` | internal/middleware/ratelimit.go:44-49 | With a clock that does not go back, a request is denied if and only if granting it would break the bound of some window that ends in it |
| `TokenBucket.ForwardIsElapsed` | internal/middleware/ratelimit.go:40-42 | For a clock that does not go back that movement is the elapsed time |
| `TokenBucket.LossIsInvisibleIffFull` | internal/middleware/ratelimit.go:26-38 | Losing the key changes no present or future decision if and only if the bucket would have been full |
| `TokenBucket.LateLossesAreInvisible` | internal/middleware/ratelimit.go:24-52 | Over all histories, losses after at least the fill time change neither decisions nor state |
| `TokenBucket.TtlIsUnobservable` | internal/middleware/ratelimit.go:24-52 | Expiry after the script's TTL is never seen in a decision if the clocks of Redis and the callers drift apart by at most the ten spare seconds |
| `TokenBucket.TtlIsTight` | internal/middleware/ratelimit.go:24 | The key lives ten seconds longer than the fewest whole seconds in which an empty bucket fills |
| `TokenBucket.DeniedIsFreeIff` | internal/middleware/ratelimit.go:40-52 | A denied request leaves later ones what they would have had if and only if its clock is not behind the stored one or the bucket was full |
| `TokenBucket.DeniedRequestsAreFree` | internal/middleware/ratelimit.go:40-52 | With a clock that does not go back any set of denied requests can be deleted: all other decisions and the effective tokens stay |
| `TokenBucket.Bucket.Run` | internal/middleware/ratelimit.go:21-55 | The script computes the specified decision, state and TTL |
| `Snowflake.ShiftsAreSums` | pkg/snowflake/snowflake.go:122 | On 64-bit words the shifts and ors of the packing are the weighted sum |
| `Snowflake.MaskIsRemainder` | pkg/snowflake/snowflake.go:107-108 | The step mask is the remainder modulo 4096 |
| `Snowflake.PackedFieldsAreRecoverable` | pkg/snowflake/snowflake.go:12-22 | For 41 bits of time, the id is non-negative and time, node and step can be read back |
| `Snowflake.PackIsOrdered` | pkg/snowflake/snowflake.go:12-22 | Ids are ordered by time, then node, then step, and equal only if all three are |
| `Snowflake.IssuesHigherIff` | pkg/snowflake/snowflake.go:90-124 | A call issues an id above the previous one if and only if the reading it goes on with is not behind the stored timestamp |
| `Snowflake.IdsIncreaseIff` | pkg/snowflake/snowflake.go:90-124 | Over all calls of a node, across step wrap-around and tolerated rollbacks, ids strictly increase if and only if no call goes on with a reading behind the timestamp it finds |
| `Snowflake.IdsDistinctIff` | pkg/snowflake/snowflake.go:90-124 | Over all calls of a node, its ids are all different if and only if it never goes to a millisecond to which it has gone before |
| `Snowflake.StaleReadingMayBeHarmless` | pkg/snowflake/snowflake.go:94-100 | Two runs that tell the two conditions apart: a stale reading without a repeated id, and a repeated id from a call with a good reading |
| `Snowflake.NodesNeverCollide` | pkg/snowflake/snowflake.go:90-124 | The ids of nodes with different node ids are disjoint, whatever their clocks do |
| `Snowflake.EarlyWakeRepeatsAnId` | pkg/snowflake/snowflake.go:94-100 | A run in which an early wake-up repeats an id |
| `Snowflake.Node.NewNode` | pkg/snowflake/snowflake.go:31-36 | Succeeds exactly for node ids 0 to 1023 |
| `Snowflake.Node.Generate` | pkg/snowflake/snowflake.go:90-124 | Case by case from the old timestamp and step: step 0 of a later first reading; the next step of the same millisecond; with the steps used up, step 0 of the first later reading, still waiting exactly if there is none; after a rollback of at most 5 ms the same with the second reading, even one still behind; after a larger one an error and nothing changed |
| `Snowflake.FullMillisecond` | pkg/snowflake/snowflake.go:106-122 | A fresh node whose n <= 4096 calls all read one millisecond issues its steps 0 to n - 1 in order; the 4097th call waits, and issues step 0 of whichever later millisecond comes |
| `Base62.DigitsHaveTheValue` | pkg/base62/base62.go:60-77 | The digits of a number have its value and no leading zero |
| `Base62.CanonicalDigitsAreUnique` | pkg/base62/base62.go:60-105 | Digits without a leading zero are the digits of their value |
| `Base62.LengthIff` | pkg/base62/base62.go:60-77 | A number has at most k digits if and only if it is below 62^k |
| `Base62.RoundTripIff` | pkg/base62/base62.go:34-105 | Decode(Encode(n)) = n for all 64-bit n if and only if the alphabet's 62 bytes are distinct |
| `Base62.DefaultIsDistinct` | pkg/base62/base62.go:9 | The default alphabet has 62 distinct bytes |
| `Base62.CanonicalIff` | pkg/base62/base62.go:60-105 | Encode(Decode(s)) = s if and only if s is canonical and its value is below 2^64 |
| `Base62.CodesFitTheBuffer` | pkg/base62/base62.go:65-67 | Every code has between 1 and 11 bytes |
| `Base62.Codec.constructor` | pkg/base62/base62.go:34-40 | A custom alphabet is taken if and only if it has 62 bytes |
| `Base62.Codec.Encode` | pkg/base62/base62.go:60-77 | The backwards loop never leaves the 11-byte buffer and spells the number's digits |
| `Base62.Codec.Decode` | pkg/base62/base62.go:95-105 | The wrapping loop yields the value modulo 2^64, or an error if and only if some byte is foreign |
| `ShortCode.CodesAreDistinct` | internal/service/shortlink.go:124-129 | Codes coincide if and only if time, node and step all do |
| `ShortCode.FitsColumnIff` | internal/model/shortlink.go:8 | Exactly which codes fit ten characters: all before offset 200104562251 ms, none after it, and in that millisecond those with node and step below a limit |
| `ShortCode.CodesOfARunIff` | internal/service/shortlink.go:124-129 | All codes of one generator's run are different if and only if it never goes to a millisecond to which it has gone before |
| `ShortCode.NextCode` | internal/service/shortlink.go:124-129 | The id is non-negative, so its conversion to uint64 keeps it; the code spells it; an error issues none |

## Left out

- HTTP handlers, routing, health probes, configuration, wiring, connection set-up and reconnects: plumbing.
- `LocalFallbackLimiter`: a wrapper over golang.org/x/time/rate, which is not part of this model.
- Singleflight: every Redirect resolves on its own; sharing a leader's answer would only remove steps.
- `withRetry` back-off times and jittered expirations: an attempt may come at any time, and time-to-live values are arbitrary.
- MD5, FNV-1a and CRC32 are arbitrary functions; `FetchWorkerIDByIP` is left out, and node ids are given.
- JSON: a message is its three fields; malformed messages, which the consumer drops, do not occur.
- Broker durability and confirms: a nil result of Publish means that the message is in the queue.
- Loss of the Bloom bitmap or of the database: committed rows and set bits stay.
- Collation: short codes are compared exactly, although the schema compares them without case.
- Clocks of the system model: all components read one clock that does not go back; worker ids are distinct; AUTO_INCREMENT ids are not reused.
- Links from before the outbox are given and well formed; ids in the state machine are positive and codes non-empty, as the generator makes them.
- Page and batch sizes of the rebuild and of the cleanup are not bounded in the state machine; `Rebuild` and `OutboxWorker` have them.
- GetReadDB's round robin: a replica shows any subset of the committed rows.
- `MarkOutboxSent` (unfenced, never called), the hash-tag helpers and the batch Redis helpers: unused by the modelled flows.
- The token bucket's rate, capacity and requested tokens are whole numbers, the rate is positive (the script divides by it), and number formatting in Lua is exact.
- The doubly linked list of the local cache is a sequence of shared elements; its pointers are not modelled.
- Snowflake.Node.Generate: a wait whose readings end before a later one comes shows as the outcome `Spinning`.
- ShortCode.NextCode: does not tell an error of the generator from a call that is still waiting for the clock.
