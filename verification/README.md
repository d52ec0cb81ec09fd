# SocialAI-Backend: models and proofs of its protocols

SocialAI-Backend is a social network backend written as small services around PostgreSQL, Redis,
Kafka and Elasticsearch. Most of its hard code is protocols that must stay correct under
concurrency, crashes and redelivery. This project models those protocols in Dafny and proves what
their comments, documentation and tests promise.

`dafny verify dfyconfig.toml` checks everything.

## How the models are built

- **Machines.** A protocol with several actors is a datatype `State`, a datatype `Step` (one SQL
  statement, one Redis command, one broker call, one channel operation), `Enabled` and `Next`. A run
  is any sequence of enabled steps. Failures and crashes are steps; `applied`/`delivered` flags say
  whether a call that reported failure took effect. Theorems are about every run.
- **Code.** Where the source updates state step by step, a class holds that state and its methods
  follow the source's branches. In the `…Code` modules the class also holds a ghost trace, `Valid()`
  says that the shared state is what a run of the machine reaches, and between two calls a method
  named `Others` (or `OthersBesides…`) lets everybody else take any number of steps. A method's
  `ensures` says which steps it took itself, in order, as a function of what its calls answered
  (`BumpSteps`, `RequestSteps`, `CommitSteps`, …), what it found at the steps that read, and what it
  returns, failure included; what holds of every run is in the machine's lemmas. Answers are stated
  on the rows and entries read, not through the functions that compute them.
- **Specifications.** Data structures are tied to an independent, simpler definition: a sorted
  de-duplicated union for the feed, a history of fetched and finished offsets for the tracker, a
  log of deliveries for a stored feed, the rows' histories for the search index.

| files | what they model |
|---|---|
| Order, Text, Traces | id order, keyset pages, decimal numbers and separators, the steps one actor took of a run |
| FeedPlan, FeedStore, HomeFeed, FeedWorker | the hybrid home feed: fan-out, bounded sorted sets, merging and paging |
| Tracker, Consumer, ConsumerCode, Backoff | the reliable Kafka consumer |
| Counter, Scheduling, Reconcile, CounterCode | the write-behind counter, its fallback, what it may forget, and the reconciler |
| Outbox, OutboxCode | the transactional outbox, its relays and its fast path |
| Indexer, Documents, IndexerCode | the versioned search projection, what its documents hold, and reindexing behind an alias |
| Messages, Inbox, MessagesCode | conversations, idempotent sends, read markers, paging, the inbox, the import of old messages |
| Idempotency, IdempotencyCode | idempotency keys |

## Where the code does not meet the plain promise

Each of these is kept as the code has it, shown on an input, and the exact condition is proved.

- `FeedItems` counts ties and reads the range in two commands. A tied entry added in between can
  push an entry out of the page (`FeedStore.StaleCountLosesAnEntry`); `FeedStore.ExactIff` says when
  the page is exact, and within one snapshot it always is.
- `ErrNotRecorded` need not mean that nothing is left in Redis. When a flush takes the delta between
  the INCRBY and its undo, the undo leaves the opposite amount behind, and no flush comes to it
  before the next increment (`Scheduling.UndoAfterFlush`). An undone increment leaves no trace if
  and only if no flush took anything of the column in between (`Scheduling.UndoLeavesNoTraceIff`).
  Undos, a failing SADD after a failed GETDEL and crashes are the only ways to leave a delta
  unnoticed (`Scheduling.DeltaIsNoticed`).
- A reconciler repair that gets past both guards can still be wrong. A flush between GETDEL and its
  UPDATE is neither busy nor pending nor in the count, and the repair counts its amount twice
  (`Reconcile.FlushInFlight`, a run of ten steps from any settled state). An unlike leaves no row to
  make its post busy, so one in flight leaves the count one too low (`Reconcile.UnlikeInFlight`). As
  long as likes and shares are counted within Quiet, these amounts, with the stored deltas popped
  between the snapshot and the look at their key, are all that can be wrong: the repair is exact if
  and only if they sum to zero (`Reconcile.GuardedRepairExactIff`), and when they cannot cancel, if
  and only if there are none (`Reconcile.GuardedRepairExactIffNoneHeld`). They can cancel
  (`Reconcile.HeldAmountsCancel`).
- A Sync that is not driven by an event and fails between storing an embedding and writing the
  document leaves the index one version behind, and the repair of missing embeddings does not pick
  the row again (`Indexer.AbandonedEmbedding`). After a reindex the new index is current for a row if
  and only if its last version was not abandoned in this way (`Indexer.ReindexConverges`).
- Moving the alias can take a reader back, even make a deleted post visible again
  (`Indexer.AliasGoesBack`). It does for a post if and only if the new index has an older version of
  it than the old one (`Indexer.MoveForwardIff`), no other step ever does (`Indexer.AliasForwardIff`),
  and a deleted post shows if and only if the index behind the alias is behind its tombstone
  (`Indexer.DeletedShowsIff`), which ends with the catch-up pass (`Indexer.DeletedShowsUntilCaughtUp`).
- `copyConversation` stores messages without a creation time but then leaves `last_seq` unmoved; after
  a single such message nothing can be sent in that conversation any more
  (`Messages.UndatedImportBlocksSends`). `Messages.CopyKeepsGoodIff` and `MessagesCode.ImportValidIff`
  say when an import keeps the invariant.
- `after_seq = 0` means "no position", so polling from 0 misses messages if and only if they do not
  fit one page (`Messages.PollFromZero`, `Messages.PollFromZeroMisses`).
- `backoff` shifts a 64-bit Base and can wrap to a small positive delay. Up to 2^63 that shows at some
  attempt if and only if Base has a zero bit with set bits above and below it, and the lower ones,
  shifted up to the sign bit, come out under Max (`Backoff.BackoffIff`; per attempt
  `Backoff.AttemptIff`; an input: `Backoff.LargeBaseWraps`). Base·Max < 2^63 rules it out
  (`Backoff.DelayIsCapped`), but is not necessary.
- A handler that outlives its claim can overlap with a second run (`Idempotency.SlowRunOverlaps`).
  In every run, two runs of a key overlap if and only if a claim succeeds at or after the deadline of
  a run that is still active (`Idempotency.OverlapIff`).

## Model

| member | source | states |
|---|---|---|
| FeedPlan.Before | shared/feedplan/feedplan.go:191-202 | keeps exactly the items strictly after the cursor, in order; everything when the cursor is unset |
| FeedPlan.Merge | shared/feedplan/feedplan.go:151-180 | the loops compute the sorted, de-duplicated list of all non-empty ids, cut at the limit |
| FeedPlan.MergeKeepsIds | shared/feedplan/feedplan.go:151-180 | for any inputs a merge is sorted, invents nothing and holds each id exactly once |
| FeedPlan.MergeIsUnion | shared/feedplan/feedplan.go:151-180 | when the sources agree on creation times a merge is exactly their union |
| FeedPlan.CursorCuts | shared/feedplan/feedplan.go:184-202 | a cursor taken from an item of a sorted list cuts exactly behind it |
| FeedPlan.Batches | shared/feedplan/feedplan.go:94-107 | consecutive non-empty chunks whose concatenation is the input: nobody twice, nobody left out |
| FeedStore.FeedItems | shared/backend/redis.go:110-139 | the two commands and the filtering, with the set allowed to change between them; nothing at or before the cursor is ever returned |
| FeedStore.PastOfWindow | shared/backend/redis.go:110-139 | a window of n members holds the ones behind the cursor first, then as many past it as fit |
| FeedStore.ExactIff | shared/backend/redis.go:110-139 | the result is the first count members past the cursor if and only if the tie count covers those behind it or the rest of the feed fits anyway |
| FeedStore.FeedItemsExact | shared/backend/redis.go:110-139 | with no write in between, count plus the ties is always enough |
| FeedStore.StaleCountLosesAnEntry | shared/backend/redis.go:110-139 | one tied member added between the commands is enough to lose an entry |
| FeedStore.Feeds.AddToFeeds | shared/backend/redis.go:144-155 | one of many interleaved pipelines: its own commands are exactly a prefix of add-then-trim per follower, and on success every follower's feed got the item and was trimmed after that, whatever others ran in between |
| FeedStore.NewestKept | shared/backend/redis.go:144-155 | after any prefix of any commands the newest k stored entries are the newest k ever added |
| FeedStore.StreamingIsBatch | shared/backend/redis.go:144-155 | after any order of deliveries, redeliveries and interrupted batches a feed is exactly the newest k distinct items delivered |
| FeedStore.DeliveredStaysInFront | shared/backend/redis.go:144-155 | an item delivered at any time, with fewer than k newer ones ever delivered to the feed, is in it |
| HomeFeed.LivePostsByID | services/post/service/store.go:42-62 | the filling and deleting loop lays out the live posts in the order of the ids |
| HomeFeed.LiveOnceIsExact | services/post/service/store.go:42-62 | exactly the live posts among the ids, each once even when an id is listed twice, in the order in which the ids are first listed |
| HomeFeed.Assemble | services/post/service/feed.go:86-105 | loading only what the celebrity scan did not bring yields the live rows of the page in order |
| HomeFeed.GetHomeFeed | services/post/service/feed.go:37-106 | the request answers the page of the specification, a cut of the sorted union past the cursor, over the feed entries it fetched; over the whole feed whenever the tie count, taken a command earlier, was enough |
| HomeFeed.WindowsSuffice | services/post/service/feed.go:78-84 | merging each source's own first n items past the cursor gives the first n of the union |
| HomeFeed.NextResumes | services/post/service/feed.go:79-84 | there is a next cursor exactly when something is left, and it resumes right there |
| HomeFeed.ScrollIsTimeline | services/post/service/feed.go:24-106 | the pages followed by NextCursor concatenate to the live posts of the union, for any limit and with inserts in between |
| HomeFeed.ScrollTerminates | services/post/service/feed.go:79-84 | following NextCursor ends |
| HomeFeed.HomeFeedExact | services/post/service/feed.go:24-106 | from the empty cursor: every live post of pushed ∪ pulled, nothing else, each once, by creation time and then id, latest first |
| HomeFeed.InsertsKeepPast | services/post/service/feed.go:24-106 | entries not older than the cursor inserted between pages do not disturb what is left |
| SocialGraph.Page | shared/socialgraph/socialgraph.go:75-106 | one page and whether and where there is more |
| SocialGraph.AllFollowers | shared/socialgraph/socialgraph.go:112-131 | over follow lists that change from page to page: nobody twice in one position, nobody invented, and whoever follows throughout is read unless max newer entries were |
| SocialGraph.SteadyFollowers | shared/socialgraph/socialgraph.go:112-131 | on a list that stays the same those are exactly its newest max |
| FeedWorker.Worker.FanOut | shared/feedplan/feedplan.go:113-146 | its commands are exactly those of the batches up to a cancellation, each as far as it got; it succeeds exactly when all were complete and nothing was cancelled, and then every follower's feed got the item and was trimmed after that, with other workers delivering to the same feeds |
| FeedWorker.Worker.HandlePostCreated | services/feed/worker/feed_worker.go:45-85 | by the number of followers: none, nothing; above the threshold, the author goes into the celebrity set and no command is sent; otherwise every follower read gets the post with its event time, or now when it has none; it fails exactly when a call it needs failed |
| FeedWorker.DeliveredIsServed | services/feed/worker/feed_worker.go:45-85 | a post delivered at any time with fewer than maxLen newer entries delivered to that feed, or one by a followed celebrity, is in the timeline that reads page over |
| FeedWorker.HandledIsServed | services/feed/worker/feed_worker.go:31-41 | write path to read path: once the handler succeeded on a steady follow list, every follower finds the live post in the timeline that pages are cut from, pushed or pulled, at any later time with fewer than maxLen newer entries delivered to that feed |
| Tracker.Tracker.Track | shared/consumer/tracker.go:47-52 | the tracker stands for the history with this fetch added, and nothing becomes due to commit |
| Tracker.Tracker.Done | shared/consumer/tracker.go:55-66 | the popping loop drains the finished prefix and nothing else |
| Tracker.Tracker.Committable | shared/consumer/tracker.go:69-86 | in order, one position for every partition that advanced, and marks exactly those handed out |
| Tracker.Tracker.Rewind | shared/consumer/tracker.go:89-96 | a position whose commit failed becomes due again |
| Tracker.DoneRefines | shared/consumer/tracker.go:55-66 | Done keeps the tracker equal to what the history of fetched and finished offsets determines |
| Tracker.TrackRefines | shared/consumer/tracker.go:47-52 | so does Track |
| Tracker.TrackerSound | shared/consumer/tracker.go:47-96 | for every interleaving: offers never decrease, accepted commits strictly increase, what is offered is finished |
| Tracker.TrackerSoundFromStart | shared/consumer/tracker.go:47-96 | ready is the last offset of the longest finished prefix |
| Tracker.RefusedIsOfferedAgain | shared/consumer/consumer.go:209-217 | a refused position is offered again at the same or a higher offset |
| Consumer.CommittedIsProcessed | shared/consumer/consumer.go:142-263 | of every fetched message at or below a committed offset a run of the handler ended well, or it was put in the dead-letter topic |
| Consumer.FinalCommitExact | shared/consumer/consumer.go:199-217 | when Run returns with its commits accepted, the committed offset is the end of the longest finished prefix |
| Consumer.FinishedIsKeyPrefix | shared/consumer/consumer.go:153-197 | the finished messages of a key are a prefix of its fetch order, shutdown included |
| Consumer.AttemptsInOrder | shared/consumer/consumer.go:221-272 | no attempt on a message starts before every earlier one of its key finished |
| Consumer.RouteIff | shared/consumer/consumer.go:265-272 | keys share a worker exactly when their hashes do, and each worker gets the keys that hash to it |
| Consumer.BacklogBounded | shared/consumer/consumer.go:153-197 | at most Workers·(QueueSize+1)+1 fetched messages are unfinished |
| ConsumerCode.Runtime.FetchLoop | shared/consumer/consumer.go:179-197 | every fetched message is tracked before it is queued; the loop stops at a failing fetch or at shutdown, and blocks while the worker's queue is full |
| ConsumerCode.Runtime.Process | shared/consumer/consumer.go:221-263 | the first maxAttempts answers are runs of the handler, the rest publishes, or all of them runs without a dead-letter topic; it ends at the first good answer with true, cancelled with false, and is still running only when every answer was used and bad |
| ConsumerCode.Runtime.WorkOne | shared/consumer/consumer.go:150-160 | receive, process, and mark exactly when process returned true |
| ConsumerCode.Runtime.Commit | shared/consumer/consumer.go:209-217 | one call for each position that was due, in order; each is then in the broker, or due again because it was refused |
| ConsumerCode.Runtime.FinalCommit | shared/consumer/consumer.go:199-206 | the same after all workers stopped; if every position is accepted, each partition's committed offset is the end of its finished prefix |
| ConsumerCode.OthersKeep | shared/consumer/consumer.go:209-217 | nothing but the committer moves a committed position or a committed mark, and ready marks only grow |
| Backoff.BackoffIff | shared/consumer/consumer.go:132-138 | with 64-bit wrap-around, for all Base and Max below 2^63: every delay is min(Base·2^(attempt-1), Max) if and only if no zero bit of Base lets its lower bits come out under Max |
| Backoff.AttemptIff | shared/consumer/consumer.go:132-138 | the same for each single attempt |
| Backoff.DelayIsCapped | shared/consumer/consumer.go:132-138 | Base·Max < 2^63 is enough |
| Backoff.DelaysGrow | shared/consumer/consumer.go:132-138 | then delays never decrease and never exceed Max |
| Backoff.DefaultsNeverWrap | shared/consumer/consumer.go:84-104 | the defaults never wrap |
| Backoff.LargeBaseWraps | shared/consumer/consumer.go:132-138 | an input whose third delay is 4 ns |
| Counter.Split | shared/counter/counter.go:69-78 | split undoes member for every field without the separator, and fails only when there is none |
| Counter.RunInv | shared/counter/counter.go:81-140 | conservation: rows + repairs = column + Redis delta + amounts in hand + losses, in every run with any failures and crashes |
| Counter.OnlyReportedLosses | shared/counter/counter.go:97-140 | something is lost only by a crash, a failed fallback, or a flush that reports an error |
| Counter.QuiescentIsExact | shared/counter/counter.go:81-140 | with Redis healthy nothing is stranded: when nothing is dirty or under way each column is its rows plus what repairs added |
| Counter.QuiescentMatchesRows | shared/counter/counter.go:81-140 | and equal to its rows when no repair was applied or only repairs that had read nothing outstanding |
| Counter.FlushCatchesUp | shared/counter/counter.go:96-140 | from any healthy state at rest, the flush that pops every dirty key is a run that leaves nothing dirty or stored and, with no repair before, every column equal to its rows |
| Reconcile.RepairError | services/post/service/reconcile.go:68-106 | the error a repair leaves, for every interleaving between snapshot and UPDATE, is what was outstanding at the snapshot, plus other repairs and minus losses since |
| Reconcile.SnapshotSees | services/post/service/reconcile.go:49-60 | when likes and shares are counted within Quiet, all that is outstanding of a post that is not busy is in Redis, in a flusher's hands, or of a request whose row is gone |
| Reconcile.RunSigned | services/post/service/post.go:375-436 | in every run a request holds 1 when it inserted a row and -1 when it deleted one |
| Reconcile.RepairPassed | services/post/service/reconcile.go:82-106 | an applied repair read a post that was not busy, and since then looked at the column's key and found no delta |
| Reconcile.GuardedRepairExactIff | services/post/service/reconcile.go:11-16 | a repair that gets past both guards, with nothing lost or repaired since, is exact if and only if what flushers and requests without a row held at the snapshot and the deltas popped before the look sum to zero |
| Reconcile.GuardedRepairExactIffNoneHeld | services/post/service/reconcile.go:11-16 | when these amounts have one sign, it is exact if and only if there are none |
| Reconcile.StoredDeltaIsSeen | services/post/service/reconcile.go:110-126 | a stored delta still there at the look stops the repair |
| Reconcile.GuardsPass | services/post/service/reconcile.go:82-106 | a post drifted in either column that is not busy and has no stored delta is repaired, each count to one that is off by exactly what processes hold of it |
| Reconcile.FlushInFlight | shared/counter/counter.go:106-126 | from any settled state: a like counted in Redis and popped by a flush that has not written it yet gets past both guards and is counted twice |
| Reconcile.UnlikeInFlight | services/post/service/post.go:403-416 | an unlike whose delta is still on its way gets past both guards and leaves the count one too low |
| Reconcile.HeldAmountsCancel | services/post/service/reconcile.go:94-97 | a run from any state at rest after which a flush and an unlike hold one like each and the repair is exact all the same |
| CounterCode.Site.LikePost | services/post/service/post.go:365-436 | nothing when the row is there or the transaction fails; otherwise one INSERT and the calls of one bumpCounter |
| CounterCode.Site.UnlikePost | services/post/service/post.go:403-416 | nothing when there is no row or the statement fails; otherwise one DELETE and the calls of one bumpCounter |
| CounterCode.Site.Incr | shared/counter/counter.go:81-94 | exactly INCRBY, SADD and the undo, as far as their answers lead; NotRecorded means the amount is in the caller's hands, any other answer that it is in Redis |
| CounterCode.Site.BumpCounter | services/post/service/post.go:441-451 | falls back to the database exactly when Redis kept nothing, and fails exactly when the direct update does |
| CounterCode.BumpedOnce | services/post/service/post.go:439-451 | the calls it makes count the change once when it answers well and not at all when it fails, never in Redis and the column both |
| CounterCode.Site.FlushOne | shared/counter/counter.go:106-138 | one popped entry is applied, put back or marked dirty again |
| CounterCode.Site.Flush | shared/counter/counter.go:97-140 | a pop, the calls of each popped entry in order, the end; the count is the number of entries read, found and written, and an error is reported exactly when the pop, a read or an update failed |
| CounterCode.Reconciler.HasPendingDelta | services/post/service/reconcile.go:110-126 | looks at one key and, unless that settles it, the other; pending exactly when a key could not be read or a look found a delta |
| CounterCode.Reconciler.RunOnce | services/post/service/reconcile.go:40-108 | one snapshot of the next batch, with busy computed from created_at and Quiet; a post is passed over exactly when both counts equal their rows, every other one of a finished pass is repaired or skipped: busy, a key unreadable or with a delta at a look, or the counts changed before the UPDATE; fixed is the posts its UPDATEs changed |
| CounterCode.LapChecksAll | services/post/service/reconcile.go:75-79 | between two wraps every post that existed throughout is checked, whatever was inserted meanwhile |
| Scheduling.DeltaIsNoticed | shared/counter/counter.go:13-17 | a delta stored in Redis stays dirty or in the care of a process, whatever fails, but for undos, a failing SADD after a failed GETDEL, and crashes |
| Scheduling.UndoLeavesNoTraceIff | shared/counter/counter.go:81-94 | an increment that is undone leaves no trace in Redis if and only if no flush took anything of its column in between; otherwise what was taken is missing |
| Scheduling.UndoAfterFlush | shared/counter/counter.go:30-32 | a run, possible whenever a column is at rest, in which an undone increment leaves -1 in Redis that nobody will flush |
| Outbox.NothingLost | shared/outbox/outbox.go:129-207 | every committed event has reached the broker in some publish or is still in the table; published means that it has; dead needs MaxAttempts failed publishes, even with stale overlapping relays |
| Outbox.FailureCounts | shared/outbox/outbox.go:194-207 | a failure that sticks makes the row's attempts the record's plus one and the row dead exactly when attempts are bounded and that many are used; a row no longer pending does not change |
| Outbox.PendingHasAttemptsLeft | shared/outbox/outbox.go:194-207 | with MaxAttempts set no row is retried for ever: in every run, stale overlapping relays included, a pending row has attempts left |
| Outbox.OneHolder | shared/outbox/pgstore.go:80-123 | when passes end within their lease and fast paths before notBefore, no row has two publishers |
| Outbox.PublishedOnce | shared/outbox/outbox.go:129-192 | then, without a stop between acknowledgement and mark, each event is acknowledged at most once |
| Outbox.NeverStranded | shared/outbox/outbox.go:71-74 | with MaxAttempts 0 an undelivered event can be claimed, published and marked from every reachable state |
| OutboxCode.PGStore.Enqueue | shared/outbox/pgstore.go:33-58 | the new row becomes due to relays at notBefore and not before, and no other row changes |
| OutboxCode.PGStore.Pending | shared/outbox/pgstore.go:80-123 | claims and leases exactly the oldest due unlocked rows, returned in id order |
| OutboxCode.ClaimTakes | shared/outbox/pgstore.go:80-123 | a claim takes the first limit of the pending, due, unlocked rows by id, with their attempts, and makes them due at the end of the lease |
| OutboxCode.PGStore.MarkPublished | shared/outbox/pgstore.go:125-130 | a pending row becomes published and keeps everything else; no other row changes |
| OutboxCode.PGStore.MarkFailed | shared/outbox/pgstore.go:132-141 | a pending row gets the attempts and the retry time, and is dead or still pending as told; no other row changes |
| OutboxCode.PGStore.Prune | shared/outbox/pgstore.go:145-156 | deletes only published expired rows, at most a batch, and leaves none behind when it deletes fewer |
| OutboxCode.Relay.RecordAndPublish | services/post/service/post.go:384-401 | once committed an event is kept whatever the fast path does, and success means it was marked |
| OutboxCode.Relay.PublishNow | shared/outbox/outbox.go:129-144 | success means the row was marked |
| OutboxCode.Relay.Handle | shared/outbox/outbox.go:157-190 | one record: marked, counted as failed, parked only at MaxAttempts, or the pass ends |
| OutboxCode.Relay.RunOnce | shared/outbox/outbox.go:148-192 | claims exactly the oldest due unlocked rows and takes them up in order to the first call that ends the pass; published, failed and dead are what became of the rows, but for those somebody else had marked meanwhile; a claim that fails ends it with an error |
| Indexer.DocumentsAreProjections | services/indexer/worker/indexer.go:67-141 | every document with version v is the projection of its row's state at v, under any races |
| Documents.DocumentsHold | services/indexer/worker/indexer.go:86-94 | in every run and both indexes a document has its post's author, type and time; a tombstone has no text and no vector; any other has the text the post was created with and its row's vector at that version, one the model answered for that post; the last version of a deleted post is a tombstone |
| Indexer.VersionsOnlyRise | shared/backend/elasticsearch.go:132-147 | versions never decrease, equal versions are equal documents, and a tombstone never changes again |
| Indexer.SyncMakesCurrent | services/indexer/worker/indexer.go:67-102 | after a Sync that loaded the last change has written, the document is current until the next change |
| Indexer.RunConverging | cmd/reindex/main.go:58-73 | after the alias move every later change is written to the new index or still pending |
| Indexer.SettledIff | cmd/reindex/main.go:58-73 | once every event is handled, no Sync is under way and the catch-up pass is complete, the new index is current for a row if and only if its last version was not an abandoned embedding |
| Indexer.ReindexConverges | cmd/reindex/main.go:49-73 | the same over every run from the alias move on, whatever creates, deletes, embeddings and Syncs interleave |
| Indexer.MoveForwardIff | cmd/reindex/main.go:60-64 | moving the alias keeps or advances what a reader sees of a post if and only if the new index is not behind the old one |
| Indexer.AliasForwardIff | cmd/reindex/main.go:60-72 | over all steps, a reader of the alias is taken back exactly by such a move |
| Indexer.DeletedShowsIff | cmd/reindex/main.go:65-72 | a deleted post shows as live if and only if the index behind the alias has an older version than its tombstone's |
| Indexer.MoveRevivesIff | cmd/reindex/main.go:60-64 | the move makes a deleted post visible again if and only if the new index has it, but behind |
| Indexer.AliasGoesBack | cmd/reindex/main.go:58-73 | a run in which the move makes a deleted post visible again |
| Indexer.AbandonedEmbedding | services/indexer/worker/indexer.go:145-167 | a repair that stops between storing the vector and writing leaves a stale document that it will not pick again |
| IndexerCode.OthersAreLater | services/indexer/worker/indexer.go:67-141 | what others do never removes a row, a seen mark or the process's own position |
| IndexerCode.Site.EmbedRow | services/indexer/worker/indexer.go:120-141 | from the loaded row to the one to write: embedded, reloaded, or without vector |
| IndexerCode.Site.SyncPost | services/indexer/worker/indexer.go:67-102 | exactly the load, the embedding and the write, as far as the answers lead; fails exactly with one of them; a missing row is no error, and success means the target index has the row at least as it was at the start |
| IndexerCode.Site.Handle | services/indexer/worker/indexer.go:56-65 | one Sync; fails exactly when a call of it does, and otherwise its event is no longer owed and its version or a later one is in the index |
| IndexerCode.Site.Reindex | services/indexer/worker/indexer.go:173-199 | a finished walk, of either pass or the plain command, has left every row there was when it started at least as new as then in the target index, despite inserts; rows are synced in id order; it fails only at a failing query or right after a row with a failing call, with the count before it, and is still going only after as many full pages as it was given |
| IndexerCode.Site.RebuildIndex | cmd/reindex/main.go:49-73 | build, alias move, catch-up: when it finishes, every row there was at the move has been written since; the alias moves only once every row there was at the start is in the new index; it stops only at a failing call of a pass or of the alias |
| Messages.ConversationOfPair | services/message/service/message.go:41-62 | the id is symmetric and the other participant can be read off it |
| Messages.ConversationInjective | services/message/service/message.go:41-46 | one id per pair of users |
| Messages.MessageIDInjective | services/message/service/message.go:48-50 | message ids never collide |
| Messages.RunKeeps | services/message/service/message.go:89-156 | in every sequence of sends, retries, read markers and imports: seqs are exactly 1..last_seq, one message per sender and key, 0 ≤ last_read_seq ≤ last_seq, nothing goes back |
| Messages.RetryFindsFirst | services/message/service/message.go:117-133 | a retry finds the first attempt's message, only that one, and stores nothing |
| Messages.RunTimesRise | services/message/service/message.go:134-143 | while the clock does not go back, seq order is time order in every conversation, through all sends and read markers |
| Messages.SendKeepsTimesIff | services/message/service/message.go:134-143 | a send keeps it if and only if its time is not before the last message's |
| Messages.ImportKeepsTimesIff | cmd/backfill/backfill.go:379-395 | an import does if and only if its first new message is not older than the last one there |
| Messages.CopyKeepsGoodIff | cmd/backfill/backfill.go:359-408 | the import keeps its conversation's invariant if and only if nothing was missing or the last missing message has a creation time |
| Messages.UndatedImportBlocksSends | cmd/backfill/backfill.go:391-395 | one old message without a creation time takes number 1 and leaves last_seq 0, so every later send in that conversation fails |
| Messages.LastMissingIsDated | cmd/backfill/backfill.go:346-351 | in import order that fails only when no missing message has one |
| Messages.CopyTwice | cmd/backfill/backfill.go:359-408 | a re-run after anything else changes nothing |
| Inbox.InboxIsComplete | services/message/service/message.go:281-310 | the inbox join lists exactly the user's conversations with a message, and unread is never negative |
| Inbox.ListConversations | services/message/service/message.go:269-315 | the page past the cursor, by last activity and then id, each line with the conversation's other member, last message and the number of messages after the user's read position, and a next cursor exactly when there is more |
| Inbox.ScrollShowsWhatStays | services/message/service/message.go:269-315 | scrolling to the end while messages arrive: newest first, nothing twice, only entries some request found, and every entry that stayed |
| Inbox.ScrollIsInbox | services/message/service/message.go:269-315 | with nothing sent meanwhile enough pages are the whole inbox |
| Messages.ScrollBackIsComplete | services/message/service/message.go:183-236 | scrolling back shows 1..k once and in order while sends continue |
| Messages.ScrollBackTerminates | services/message/service/message.go:183-236 | and ends |
| Messages.PollHasNoGap | services/message/service/message.go:183-236 | polling returns every later message once, up to the last when the final page is not cut |
| Messages.PollFromZero | services/message/service/message.go:183-205 | starting at 0 misses nothing if and only if everything fits one page |
| Messages.PollFromZeroMisses | services/message/service/message.go:183-205 | three messages and pages of two: polling on never brings the first |
| Messages.PagesAreWindows | services/message/service/message.go:183-236 | a page back is the newest limit of the messages before the position, a page on the oldest limit after it, and each says whether more are left |
| MessagesCode.Service.SendMessage | services/message/service/message.go:67-161 | each error exactly when its case arises on the rows, and no other; a key used before is a replay, with the stored message's number and time, and any other valid message becomes the next one, with its text, key and time, and moves the sender's read position; a transaction that fails is applied whole or not at all |
| MessagesCode.Service.MarkRead | services/message/service/message.go:320-334 | the position becomes the larger of the old one and the one asked for, but not more than the last message; nothing else changes; reports a missing conversation |
| MessagesCode.Service.GetMessages | services/message/service/message.go:183-236 | the specified page as of the first statement, oldest first, after the in-place reversal, each message as stored and addressed to the other member or the user; the other member's read position as of the second, with other requests in between |
| MessagesCode.TurnAround | services/message/service/message.go:229-231 | the two-index swap loop reverses the array |
| MessagesCode.Backfill.CopyConversation | cmd/backfill/backfill.go:359-408 | inserts exactly the missing messages after those there, with their sender, text, id and time, or nothing; the last one's time moves the conversation and both read positions on; whether its conversation stays good, both ways |
| MessagesCode.Backfill.ImportMessages | cmd/backfill/backfill.go:316-357 | any documents, groups in id order: it stops exactly at the first group that cannot be imported, every group before it is complete, the rest is untouched, and the invariant holds afterwards if and only if each imported group was dated |
| MessagesCode.GroupHolds | cmd/backfill/backfill.go:318-351 | what is imported into a conversation: its readable documents and no others, by time and then id |
| MessagesCode.ImportValidIff | cmd/backfill/backfill.go:316-408 | the table stays valid if and only if in every imported conversation the last missing message has a creation time |
| Idempotency.EncodeInjective | shared/idempotency/idempotency.go:76-82 | different requests never encode alike |
| Idempotency.RedisKeyInjective | shared/idempotency/idempotency.go:84-87 | a client's key cannot reach another user's entry |
| Idempotency.OneRunAtATime | shared/idempotency/idempotency.go:92-134 | at most one protected run is active per key, whatever fails, while runs end within the lock time |
| Idempotency.StoredUntilExpiry | shared/idempotency/idempotency.go:92-118 | until it expires a stored response is replayed to the same fingerprint, refused to others, and no run starts |
| Idempotency.OneSuccess | services/post/handler/post.go:54-104 | from a 2xx to the expiry of its stored response no second run starts |
| Idempotency.OverlapIff | shared/idempotency/idempotency.go:57-59 | in every run of the machine two runs of a key overlap if and only if some claim succeeds at or after the deadline of a run still active |
| Idempotency.SlowRunOverlaps | shared/idempotency/idempotency.go:57-59 | a run longer than the lock time overlaps with a second one |
| IdempotencyCode.Handler.WithIdempotency | services/post/handler/post.go:54-104 | exactly the Redis calls its answers lead to; the handler runs under a claim if and only if the claim found nothing live, without one if and only if Redis failed it or the entry is corrupt; on the entry read: a stored response is replayed, another request's entry refused, anything else a conflict; so between the store of a 2xx and its expiry every request of the key is answered with that response or, for another fingerprint, refused |

## Left out

Assumptions:

- The home feed assumes one creation time per post id, one byte order on ids shared by Go, Redis and
  PostgreSQL, and, but for the tie count, one snapshot of the feed and the tables per request. Redis entries without an
  event time (scored with the current time) are outside it, and so is feed expiry. All workers trim
  feeds to one length.
- A Redis command or counter UPDATE that reports failure had no effect; the other stores' failing
  calls may or may not have been applied. Kafka rebalances that fetch an offset again are not modelled.
- Hashes (FNV, SHA-256) stand for fixed or injective functions; JSON, base64 cursors and float
  rounding are values. Lengths count characters, not bytes.
- Post ids are not empty and user ids hold no ':', as sign-up and id generation guarantee. The
  database's clock never shows the zero time.

Not modelled:

- The author id inside feed items and page cursors' encoding; metrics, logging and lag reporting.
- HTTP routing, authentication, media cleanup, comments, follows, sign-up, notifications, caching.
- Which of several partitions' positions are committed in one broker call; each is one step.
- The order in which PostgreSQL returns a pass's rows beyond what ORDER BY fixes.
- The outbox write inside LikePost's transaction; OutboxCode.Relay.RecordAndPublish models it for any
  business write.

Stated weaker:

- FeedWorker.Worker.FanOut: its own batches run one after another, though other workers' commands interleave with them anywhere; they are for different followers.
- OutboxCode.Relay.RunOnce: the retry time is any time, because Relay.Backoff computes it in floating point; nothing proved depends on it.
- ConsumerCode.Runtime.Process: bounded by the replies of handler and broker that the call is given, because retrying until cancelled need not end; it uses every one of them.
- IndexerCode.Site.Reindex: bounded by the pages it is given, because a table that grows ahead of the walk need not let it end.
- Idempotency.OneRunAtATime: runs that start while Redis refuses the claim are unprotected by design and not counted.
