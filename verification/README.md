# Gitaly: protocols, proved

This project models the concurrent and stateful core of Gitaly, the Git storage server,
and proves what its protocols promise, for every input and every interleaving.

- **Disk cache** (`CacheLease.dfy`, `CacheSteps.dfy`, `CacheRuns.dfy`, `CacheObject.dfy`,
  `CacheLimits.dfy`, `CacheKey.dfy`, `CacheKeyFlags.dfy`): the lock-free lease protocol
  that invalidates cached responses through the file `latest` and the directory `pending`,
  as a state machine with one action per file operation; the cache's methods as runs of
  that machine; runs that show where its theorems end; and the composite cache key.
- **Concurrency limiter** (`Semaphores.dfy`, `SemaphoreRuns.dfy`, `Adaptive.dfy`,
  `Limiter.dfy`, `LimiterSteps.dfy`, `LimiterRuns.dfy`, `LimiterSizes.dfy`,
  `LimiterObject.dfy`): the resizable semaphore, the adaptive limits, and all calls of
  `Limit` with the reference-counted map of entries and their two semaphores.
- **WAL archiver** (`Archiver.dfy`, `ArchiverSystem.dfy`, `ArchiverSteps.dfy`,
  `ArchiverRuns.dfy`, `ArchiverLimits.dfy`): the scheduler object, and its runs together
  with workers that fail and acknowledgements that get lost.
- **Locking file writer** (`LockingWriter.dfy`, `LockingWriterObject.dfy`): the
  compare-and-swap on a file.
- **Bundle strategy** (`BundleStrategy.dfy`, `BundleRuns.dfy`) and **minimum occurrences**
  (`MinOccurrences.dfy`): two structures that forget, against the history they forget.
- **Praefect** (`Subtransactions.dfy`, `SubtransactionRuns.dfy`, `TransactionRuns.dfy`,
  `Praefect.dfy`, `Generations.dfy`): vote weights, the subtransaction, whole
  transactions, the routing of mutators, the classification of replicas afterwards, and
  the generations and jobs that record it.
- **Stream transducers** (`StderrBuffer.dfy`, `StderrStreams.dfy`, `Smudge.dfy`,
  `SmudgeSessions.dfy`, `ResetRefs.dfy`): the truncating buffer for standard error, the
  LFS smudge filter and the reset of references.

Objects that the source updates in place are classes, whose methods are proved against
functions on values; protocols are state machines over the source's critical sections or
single file operations, and their theorems are about all legal runs. `Options.dfy` and
`Durations.dfy` hold shared types; a difference of two times saturates as in Go.

## Where code and documentation differ

- The comment on the semaphore's waiters (internal/limiter/resizable_semaphore.go:35) calls
  the queue first-in first-out; lines 73 and 123 push to and take from the front, so the
  model's queue is last-in first-out.
- The walker removes a pending file at an age of one hour (internal/cache/walker.go:28-101),
  a lookup ignores it only beyond one hour (internal/cache/keyer.go:108-164). The lease
  theorems therefore need the lease to write strictly before that age.
- Freshness of a cached response needs its production to begin after the generation under
  which PutStream stores it was installed.
  internal/gitaly/service/smarthttp/cache.go:92-113 starts both at once, so this is an
  obligation of the caller, and a hypothesis of the theorems.
- The resize hook is there so that the semaphores match the limit
  (internal/limiter/concurrency_limiter.go:171-184), but an entry whose creation an update
  overlaps keeps the size of the previous limit until the next update.
- The collector of the bundle strategy treats an interval that is exactly used up as too
  long, the evaluation does not (internal/bundleuri/strategy_occurences.go:317 and 389). A
  request is stamped before it waits in the queue (line 235), so it can also be evaluated
  after a visit of the collector at a later time; what that changes is stated exactly.
- The request finalizer says of itself that a failed increment leaves secondaries that seem
  consistent (internal/praefect/coordinator.go:1106-1108). The theorem on generations is
  therefore about the writes that were recorded.

## Model

| member | source | states |
|---|---|---|
| `CacheRuns.InvalidatedNeverServed` | internal/cache/diskcache.go:226-324 | in every interleaving, once a lease has removed or replaced `latest`, no GetStream that begins later returns a response of a generation installed, or keyed, before that step; if the response was produced after that generation was installed, production began after that step and it shows a repository at least as new |
| `CacheRuns.LookupWaitsForLease` | internal/cache/keyer.go:108-164 | a key lookup that begins after StartLease returned, for a lease that writes its generation before its pending file is stale, has no key before that write, and afterwards only a generation installed at the write or later |
| `CacheRuns.LookupsShareNoKey` | internal/cache/keyer.go:108-164 | such a lookup shares no generation with any lookup that was complete before the write |
| `CacheRuns.LeaseNeverServesOlder` | internal/cache/diskcache.go:357-371 | a GetStream that begins while the lease is pending never serves a response of a generation installed, or keyed, before the lease wrote its own, hence (if made after that) none made before the mutation was over |
| `CacheRuns.RunKeepsInv` | internal/cache/keyer.go:61-100 | the invariant holds in every reachable state: each generation is installed once and after it was drawn, `latest` is as new as the last invalidation, a pending file is gone only once its lease is settled |
| `CacheSteps.InvStep` | internal/cache/keyer.go:173-271 | every single file operation of every caller, lease, the walker and the clock keeps that invariant |
| `CacheLimits.PutThenGet` | internal/cache/diskcache.go:278-324 | round trip: PutStream and then GetStream, alone, with or without `latest`, return exactly the stored stream, also one produced before the key was computed |
| `CacheLimits.EarlyStreamIsServed` | internal/cache/diskcache.go:278-324 | freshness needs its hypothesis: a run from the empty cache in which a stream read before a lease wrote its generation is served to a call that begins afterwards, and shows an older repository than there is |
| `CacheLimits.StaleLeaseIsIgnored` | internal/cache/walker.go:28-101 | the bound on the lease is tight: from any state whose pending files have all reached the stale age, with or without `latest`, the walker may remove them and a lookup gets a key although the leases have written nothing |
| `CacheLimits.StaleLookupGetsKey` | internal/cache/keyer.go:108-164 | isolation needs that bound: a run from the empty cache in which a lookup that begins after StartLease returned gets a key while the lease has written nothing |
| `CacheObject.CacheDirectory.ScanPending` | internal/cache/keyer.go:122-143 | the loop removes exactly the stale pending files and reports whether any other is left; its file operations are a run of the machine |
| `CacheObject.CacheDirectory.KeyPath` | internal/cache/keyer.go:108-164 | fails exactly when a pending file is not stale; otherwise yields the generation in `latest`, or a new one that is installed there |
| `CacheObject.CacheDirectory.GetStream` | internal/cache/diskcache.go:226-263 | returns what is stored under the current generation and request, and nothing while a lease is pending |
| `CacheObject.CacheDirectory.PutStream` | internal/cache/diskcache.go:278-324 | stores the stream under the current generation and request, and fails and stores nothing while a lease is pending |
| `CacheObject.CacheDirectory.StartLease` | internal/cache/keyer.go:173-200 | removes `latest` and creates the pending file |
| `CacheObject.CacheDirectory.EndLease` | internal/cache/diskcache.go:357-371 | installs the new generation, removes the pending file, and reports whether it was still there |
| `CacheKey.PrefixReadsBack` | internal/cache/keyer.go:319-321 | the length prefix of a string below 2^32 bytes has eight digits, reads back as the length, and the string and what follows it can be cut out again |
| `CacheKey.DecodeEncode` | internal/cache/keyer.go:300-311 | round trip: the concatenated prefixed fields decode to exactly the fields, for any number of fields below 2^32 bytes |
| `CacheKey.KeysAreDistinct` | internal/cache/keyer.go:281-321 | equal byte strings come only from equal version, method, generation, request and flag string |
| `CacheKeyFlags.SortedFlags` | internal/cache/keyer.go:294-298 | whatever order the map is walked in, the result is sorted and lists each written flag as often as there are flags written so |
| `CacheKeyFlags.FlagListIsUnique` | internal/cache/keyer.go:294-298 | there is only one such list, so the order of the map does not show |
| `CacheKeyFlags.CompositeKey` | internal/cache/keyer.go:281-314 | fails exactly when the method is missing or the request cannot be marshalled, otherwise feeds the hash the encoding of the five fields |
| `CacheKeyFlags.JoinIsInjective` | internal/cache/keyer.go:305-305 | the joined flag string determines the list, for flags without spaces |
| `CacheKeyFlags.BytesIdentifyTheCall` | internal/cache/keyer.go:281-321 | two lookups feed the hash the same bytes if and only if they agree in version, method, generation, request and in how many flags have each name and value |
| `CacheKeyFlags.FormatIsInjective` | internal/featureflag/featureflag.go:118-122 | what is written for a flag tells its name and its value |
| `Semaphores.NotifyGrants` | internal/limiter/resizable_semaphore.go:121-137 | lets through waiters of the queue only, keeps the accounts, and never lifts the holders above the size |
| `Semaphores.AcquireAccounts` | internal/limiter/resizable_semaphore.go:57-82 | the caller becomes a holder, a waiter or neither, and the token accounts follow |
| `Semaphores.StopAccounts` | internal/limiter/resizable_semaphore.go:84-109 | when cancellation races a grant the caller is told success exactly when it holds a token; otherwise it leaves the queue and slots go on to others |
| `Semaphores.TryAcquireAccounts` | internal/limiter/resizable_semaphore.go:141-155 | succeeds exactly when fewer tokens are held than the size |
| `Semaphores.ReleaseAccounts` | internal/limiter/resizable_semaphore.go:158-172 | gives back one token without underflow and lets through waiters that then fit |
| `Semaphores.ResizeAccounts` | internal/limiter/resizable_semaphore.go:186-261 | splits the holders into current and leftover at the new size and lets through waiters that then fit |
| `Semaphores.ReleaseOfNothing` | internal/limiter/resizable_semaphore.go:157-173 | a release without a token wraps the counter, and from then on the semaphore counts as full |
| `Semaphores.ResizableSemaphore.NotifyWaiters` | internal/limiter/resizable_semaphore.go:121-137 | the loop over the waiter list does what the specification says |
| `Semaphores.ResizableSemaphore.Acquire` | internal/limiter/resizable_semaphore.go:57-82 | new state and result as specified, up to the wait |
| `Semaphores.ResizableSemaphore.StopWaiter` | internal/limiter/resizable_semaphore.go:84-109 | new state and result as specified |
| `Semaphores.ResizableSemaphore.TryAcquire` | internal/limiter/resizable_semaphore.go:141-155 | new state and result as specified |
| `Semaphores.ResizableSemaphore.Release` | internal/limiter/resizable_semaphore.go:158-172 | new state as specified, for a token that is held |
| `Semaphores.ResizableSemaphore.Resize` | internal/limiter/resizable_semaphore.go:186-261 | new state as specified |
| `SemaphoreRuns.StepKeeps` | internal/limiter/resizable_semaphore.go:57-261 | every step keeps the accounts, and no step lifts the holders above the size by a grant |
| `SemaphoreRuns.TokensAccounted` | internal/limiter/resizable_semaphore.go:57-261 | in every run current = min(held, size), leftover = max(0, held - size), calls queue only while held >= size, a call told it holds a token does, a refused one does not, and Release never underflows |
| `Adaptive.StaysInRange` | internal/limiter/adaptive_calculator.go:244-275 | a calibration keeps the limit within its bounds, and a backoff lowers it strictly or leaves it at the minimum |
| `Adaptive.BackoffsReachMin` | internal/limiter/adaptive_calculator.go:258-262 | repeated backoffs reach the minimum after at most current - min of them |
| `Adaptive.CalmReachesMax` | internal/limiter/adaptive_calculator.go:247-252 | repeated calm intervals raise the limit one by one up to the maximum |
| `Adaptive.ResetLimits` | internal/limiter/adaptive_calculator.go:124-126 | after Start every limit has its initial value |
| `Adaptive.CalibrateLimits` | internal/limiter/adaptive_calculator.go:225-277 | the loop moves every limit to the next one of its own setting and calls its hooks exactly on a change; nothing happens once the context is done |
| `Adaptive.AdaptiveLimit.Update` | internal/limiter/adaptive_limit.go:67-77 | the limit has the new value, and the hooks are called with it exactly when it differs |
| `LimiterRuns.LimiterIsSound` | internal/limiter/concurrency_limiter.go:62-292 | in every interleaving of Limit calls, creations of entries and walks of the resize hook: no panic; calls of a key share one entry, whose reference count is the number of its users; the limit is in range; queue tokens + calls that returned only theirs = concurrency tokens + calls that hold only a queue token |
| `LimiterSizes.SizesFollowTheLimit` | internal/limiter/concurrency_limiter.go:173-184 | in every run, while no hook walks, an entry in the map has the present limit as its size, and the queue length more for its queue, unless the limit was updated after the entry's creation had read it and not since the insertion; a walking hook has resized what it has visited |
| `LimiterSizes.UndisturbedSizesAreExact` | internal/limiter/concurrency_limiter.go:173-184 | in every run in which no update falls between a creation's first read of the limit and its insertion, every entry has the present limit as its size, and the queue length more for its queue, whenever no hook walks |
| `LimiterSizes.OverlappedCreationIsStale` | internal/limiter/concurrency_limiter.go:245-270 | that exception is real: for every setting with room to grow there is a run after which an entry has the size of the previous limit |
| `LimiterRuns.DroppedEntryIsIdle` | internal/limiter/concurrency_limiter.go:275-292 | in every run an entry leaves the map only when both semaphores hold no token and no waiter |
| `LimiterRuns.AdmissionIsExact` | internal/limiter/concurrency_limiter.go:62-108 | in every run a call is turned away exactly when its entry has a queue and that is full, and an admitted call runs at once exactly when fewer calls run than its semaphore allows |
| `LimiterRuns.NextKeeps` | internal/limiter/concurrency_limiter.go:197-292 | every critical section of every call, every read of the limit, every update and every single resize keeps the invariant |
| `LimiterRuns.RunKeepsInv` | internal/limiter/concurrency_limiter.go:158-292 | the invariant holds in every reachable state |
| `LimiterSizes.RunKeepsSizes` | internal/limiter/concurrency_limiter.go:158-292 | and so does the one on the sizes |
| `LimiterObject.ConcurrencyLimiter.GetConcurrencyLimit` | internal/limiter/concurrency_limiter.go:245-270 | the map, updated in place, is that of the machine after the step: the entry of the key, or a new one with a size from each of the two reads of the limit, counted once more |
| `LimiterObject.ConcurrencyLimiter.PutConcurrencyLimit` | internal/limiter/concurrency_limiter.go:275-292 | panics exactly when there is no entry or nobody uses it, as the machine does; otherwise drops the entry with its last user |
| `LimiterObject.PutFindsEntry` | internal/limiter/concurrency_limiter.go:275-292 | in reachable states a call that leaves finds its entry in use, so the panics are not reached |
| `LimiterObject.ConcurrencyLimiter.LimitUpdated` | internal/limiter/concurrency_limiter.go:173-184 | the loop of the hook resizes both semaphores of exactly the entries in the map |
| `LimiterObject.HookResizes` | internal/limiter/concurrency_limiter.go:173-184 | which is, entry by entry, what two steps of the machine do |
| `ArchiverRuns.AcknowledgedIsArchived` | internal/backup/log_entry.go:282-441 | in every run every position a log manager has on record is backed by the store from the first low water mark on; successes come in order and without a gap, across failures and retries |
| `ArchiverRuns.SchedulerIsSound` | internal/backup/log_entry.go:235-279 | in every run the entry in flight of a partition is its next one; active jobs = entries in flight <= workers; a partition is active iff nextLSN <= highWaterMark; when the loop waits all workers are busy or every active partition has a job; the retry wait stays within its bounds |
| `ArchiverRuns.SuccessLowersBacklog` | internal/backup/log_entry.go:354-392 | in every run a success lowers the total backlog by one, and a failure leaves it |
| `ArchiverRuns.NoNotificationIsStranded` | internal/backup/log_entry.go:235-256 | in every run a notification that is in the list while the loop is not taking them in has its signal on the channel, so a waiting loop can go on to take it in |
| `ArchiverSteps.NoGap` | internal/backup/log_entry.go:299-321 | with the assumption on the low water mark, the gap branch is taken only for a new partition and changes no job |
| `ArchiverLimits.GapUnderJobSkips` | internal/backup/log_entry.go:308-321 | without that assumption there is, for every first entry and every later gap, a run from the start after which the position on record is past an entry that the log manager still had and the store never got |
| `ArchiverRuns.RunKeepsInv` | internal/backup/log_entry.go:235-441 | the invariant behind these holds in every reachable state |
| `Archiver.LogEntryArchiver.NotifyNewEntries` | internal/backup/log_entry.go:177-188 | appends the notification and leaves a signal on the channel |
| `Archiver.LogEntryArchiver.NotificationSignalled` | internal/backup/log_entry.go:245-252 | takes the signal and then all notifications |
| `Archiver.LogEntryArchiver.SendEntries` | internal/backup/log_entry.go:260-279 | the loop hands out exactly one job, for the next LSN, to each of a set of active partitions without a job, as many as there are free workers |
| `Archiver.LogEntryArchiver.IngestNotifications` | internal/backup/log_entry.go:282-330 | the loop takes in all notifications in order and acknowledges again what is already archived |
| `Archiver.LogEntryArchiver.ReceiveEntry` | internal/backup/log_entry.go:354-392 | new state, retry wait and acknowledged position as specified |
| `LockingWriter.CommitIsCompareAndSwap` | internal/safe/locking_file_writer.go:126-212 | in every interleaving of any number of writers each commit replaces exactly the version its writer saw at creation, no two commits replace the same version, and the lock file exists exactly while one writer owns it |
| `LockingWriter.RunKeepsInv` | internal/safe/locking_file_writer.go:47-212 | the lock and chain invariants hold in every reachable state |
| `LockingWriter.LockStep` | internal/safe/locking_file_writer.go:98-191 | every step keeps: the lock file has one owner, and a writer past its second check still sees the version it started from |
| `LockingWriter.NoTwoReplaceTheSame` | internal/safe/locking_file_writer.go:169-212 | in a chain of commits the replaced versions are all different |
| `LockingWriterObject.LockingFileWriter.CheckConcurrentModification` | internal/safe/locking_file_writer.go:193-212 | tells creation, deletion and modification apart, and none exactly when the version is the one seen |
| `LockingWriterObject.LockingFileWriter.Lock` | internal/safe/locking_file_writer.go:126-148 | undisturbed, it is the machine's check and creation; it succeeds exactly when that ends locked |
| `LockingWriterObject.LockingFileWriter.Commit` | internal/safe/locking_file_writer.go:169-191 | undisturbed, it is the machine's check, rename and unlock, with an error before or after the rename; it succeeds exactly when that ends closed, and then a commit was added |
| `LockingWriterObject.LockingFileWriter.Close` | internal/safe/locking_file_writer.go:98-122 | removes the lock file only if this writer holds it |
| `LockingWriterObject.UndisturbedCommits` | internal/safe/locking_file_writer.go:126-191 | a writer on the current version that nobody disturbs succeeds, with its file in place and the lock free |
| `BundleRuns.CollectionIsInvisible` | internal/bundleuri/strategy_occurences.go:298-405 | on every log in which request times of a repository do not go back and exceed earlier clock readings of the collector, the decisions with and without collections are the same |
| `BundleRuns.DecidesByHistory` | internal/bundleuri/strategy_occurences.go:276-332 | on such logs the strategy decides exactly as the whole history says: threshold requests within one interval, last bundle old enough, none under way |
| `BundleRuns.SameInstantIsVisible` | internal/bundleuri/strategy_occurences.go:373-397 | the time bound is tight: forgetting at `now` changes the decision for a request stamped `now` if and only if the window then spans exactly the interval |
| `BundleRuns.VisibleExactly` | internal/bundleuri/strategy_occurences.go:363-405 | the next request for a forgotten repository without a bundle under way, whatever its time stamp, is decided otherwise than without collections if and only if the forgotten window or the forgotten last bundle matters to it |
| `BundleRuns.RaceIsVisibleExactly` | internal/bundleuri/strategy_occurences.go:233-246 | so after every timely log, for a request stamped before the visit of the collector and evaluated after it |
| `BundleRuns.VisitIsVisibleExactly` | internal/bundleuri/strategy_occurences.go:363-405 | and after every log without collections, for any visit that forgets the repository and any request after it |
| `BundleRuns.CollectionCanBeVisible` | internal/bundleuri/strategy_occurences.go:233-246 | such races exist for every setting: threshold - 1 requests at one time, a visit an interval later or more, and a request that was stamped within the interval |
| `BundleRuns.RunAlike` | internal/bundleuri/strategy_occurences.go:298-405 | after every timely log, a repository that may have been collected and one that never was are alike: equal, or different only in times that can no longer count |
| `BundleRuns.UncollectedRemembers` | internal/bundleuri/strategy_occurences.go:298-344 | without collections the window holds the newest requests of the whole log |
| `BundleStrategy.RepositoryState.Shift` | internal/bundleuri/strategy_occurences.go:304-310 | the loop in place drops the oldest time and puts the new one first |
| `BundleStrategy.RepositoryState.Evaluate` | internal/bundleuri/strategy_occurences.go:298-332 | new state and decision as specified |
| `BundleStrategy.OccurrenceStrategy.EvaluateRequest` | internal/bundleuri/strategy_occurences.go:298-332 | changes only the repository of the request, creating it if needed |
| `BundleStrategy.OccurrenceStrategy.Process` | internal/bundleuri/strategy_occurences.go:251-274 | hands the request over exactly when it is wanted and the queue has room, and otherwise takes the mark back |
| `BundleStrategy.OccurrenceStrategy.DoneGenerating` | internal/bundleuri/strategy_occurences.go:334-344 | clears the mark and records the time of a success |
| `BundleStrategy.OccurrenceStrategy.LoadState` | internal/bundleuri/strategy_occurences.go:348-359 | finds or creates the state of a repository, and leaves the others |
| `BundleStrategy.OccurrenceStrategy.CollectGarbage` | internal/bundleuri/strategy_occurences.go:363-405 | the loop over the map, in any order, removes exactly the collectable repositories |
| `MinOccurrences.CountIsBetween` | internal/streamcache/min_occurrences.go:41-65 | in every run the count lies between the fetches since the key last went unfetched for longer than MinAge and all its fetches; no key is in both maps |
| `MinOccurrences.SteadyKeysAreExact` | internal/streamcache/min_occurrences.go:34-65 | a key fetched at least every MinAge is counted exactly over any number of rotations, so precisely its first N fetches miss the real cache |
| `MinOccurrences.RunKeeps` | internal/streamcache/min_occurrences.go:41-65 | the invariant behind these: a counter is new, or old since the last rotation, or was dropped more than MinAge after the last fetch |
| `MinOccurrences.Counter.Incr` | internal/streamcache/min_occurrences.go:41-65 | new maps, rotation time and count as specified |
| `MinOccurrences.Counter.Fetch` | internal/streamcache/min_occurrences.go:34-39 | goes to the real cache exactly when the count exceeds N |
| `StderrStreams.WritesShowTheStream` | internal/command/stderrbuffer.go:40-83 | with a one-byte separator any sequence of writes leaves the first bufLimit bytes of the whole stream with each line cut to lineLimit |
| `StderrStreams.ChunkBlindIff` | internal/command/stderrbuffer.go:40-83 | the buffer is independent of how the stream is split into writes if and only if a limit is zero or the separator is one byte |
| `StderrStreams.LongSeparatorsSplit` | internal/command/stderrbuffer.go:68-77 | for every longer separator and all positive limits some stream is shown differently when split differently |
| `StderrStreams.RenderedIsBytewise` | internal/command/stderrbuffer.go:50-81 | rendering line by line equals rendering byte by byte |
| `StderrBuffer.Buffer.Write` | internal/command/stderrbuffer.go:40-83 | the loop over lines does what one byte after the other would, takes all input, and slices within bounds |
| `StderrBuffer.NewStderrBuffer` | internal/command/stderrbuffer.go:23-38 | fails exactly for a negative limit; an empty separator becomes a newline |
| `StderrBuffer.Min` | internal/command/stderrbuffer.go:93-101 | the least of all arguments |
| `SmudgeSessions.AcceptsExactlySessions` | cmd/gitaly-lfs-smudge/smudge.go:82-287 | without input errors the filter accepts exactly the packets of well-formed sessions whose contents can be read, and sends greeting, capability and one answer per command, in order, each from that command's content only |
| `SmudgeSessions.Understood` | cmd/gitaly-lfs-smudge/smudge.go:96-272 | every well-formed beginning of a session is accepted and leaves the state it means |
| `SmudgeSessions.Recognized` | cmd/gitaly-lfs-smudge/smudge.go:96-272 | every accepted packet sequence is the text of a well-formed beginning of a session |
| `SmudgeSessions.FlushedIsWhole` | cmd/gitaly-lfs-smudge/smudge.go:270-287 | whatever the client sends, what was flushed by the end is what the longest well-formed beginning calls for: greeting, capability and whole answers to whole commands |
| `Smudge.Process` | cmd/gitaly-lfs-smudge/smudge.go:66-288 | the loop over the packets ends well exactly when the automaton does so between two commands and the input did not break off; in every case it has flushed the automaton's output for the packets before the first one refused |
| `Smudge.Reply` | cmd/gitaly-lfs-smudge/smudge.go:193-261 | the answer to one command: an error status, or success with the non-empty chunks, or none if reading breaks off |
| `Smudge.Relay` | cmd/gitaly-lfs-smudge/smudge.go:222-242 | the loop relays exactly the non-empty chunks in order |
| `SubtransactionRuns.QuorumIsPrimaryAndHalf` | internal/praefect/coordinator.go:322-355 | however the ballots fall, a value reaches the threshold if and only if the primary is for it and, with more than one secondary, at least half of them are |
| `SubtransactionRuns.RegistrationIsValid` | internal/praefect/transactions/transaction.go:93-104 | the registered threshold is never refused: it can be reached, and by one value only |
| `SubtransactionRuns.RegisterVoters` | internal/praefect/coordinator.go:322-355 | the loop registers the specified weights and threshold |
| `SubtransactionRuns.CheckTransaction` | internal/praefect/transactions/transaction.go:78-112 | which error is returned, exactly, and when the transaction is accepted |
| `SubtransactionRuns.CommitsFollowThePrimary` | internal/praefect/transactions/subtransaction.go:115-240 | in every run of votes, cancellations and stops, whoever commits voted what the primary voted and the primary has committed too, with at least half of the secondaries |
| `SubtransactionRuns.NobodyWaitsInVain` | internal/praefect/transactions/subtransaction.go:242-291 | in every run a voter that finds the subtransaction done has a result, and while it is not done a vote is still outstanding |
| `SubtransactionRuns.ResultsAreFinal` | internal/praefect/transactions/subtransaction.go:206-214 | no step changes a result that was given, nor the vote behind it |
| `SubtransactionRuns.RunKeepsInv` | internal/praefect/transactions/subtransaction.go:41-240 | the invariant behind these holds in every reachable state |
| `TransactionRuns.CommitsFollowThroughout` | internal/praefect/transactions/transaction.go:211-322 | in every run of a whole transaction a node that has committed a subtransaction has committed every earlier one too, each time on the vote with which the primary committed it |
| `TransactionRuns.TxStepKeeps` | internal/praefect/transactions/transaction.go:114-358 | every step of a transaction keeps: whoever is about to vote, or has voted, has committed everything before |
| `TransactionRuns.FirstPendingFollows` | internal/praefect/transactions/transaction.go:253-287 | the subtransaction a node is sent to is the first it has not committed |
| `Subtransactions.VoteKeeps` | internal/praefect/transactions/subtransaction.go:115-240 | casting a vote keeps the invariant: counts are the ballots, before the end nobody has a majority, afterwards exactly the voters for the majority have committed |
| `Subtransactions.LeaveKeeps` | internal/praefect/transactions/subtransaction.go:168-188 | so does canceling one voter, which takes its votes back |
| `Subtransactions.CloseKeeps` | internal/praefect/transactions/subtransaction.go:55-101 | so do canceling and stopping the whole |
| `Subtransactions.LateVote` | internal/praefect/transactions/subtransaction.go:206-237 | a vote after the end gives no value a majority that had none and takes none away |
| `Subtransactions.Subtransaction.QuorumCheck` | internal/praefect/transactions/subtransaction.go:268-291 | the loops find the value with a majority if there is one, and otherwise whether one is possible |
| `Subtransactions.Subtransaction.UpdateVoterState` | internal/praefect/transactions/subtransaction.go:143-240 | new state as specified; refused exactly when the voter cannot vote or leave |
| `Subtransactions.Subtransaction.CastVote` | internal/praefect/transactions/subtransaction.go:115-138 | succeeds exactly when the node is a voter that is undecided and has not voted; otherwise nothing changes |
| `Subtransactions.Subtransaction.CancelNodeVoter` | internal/praefect/transactions/subtransaction.go:389-405 | succeeds exactly when the node is an undecided voter and the subtransaction is not done |
| `Subtransactions.Subtransaction.Cancel` | internal/praefect/transactions/subtransaction.go:55-71 | the loop cancels exactly the undecided voters and ends the subtransaction |
| `Subtransactions.Subtransaction.Stop` | internal/praefect/transactions/subtransaction.go:73-101 | stops exactly the undecided voters, or fails and changes nothing if it was stopped before |
| `Praefect.RouteRepositoryMutator` | internal/praefect/router_per_repository.go:219-295 | which error is returned, exactly, and otherwise the primary, the healthy and consistent secondaries and the remaining targets, each in the order of assignment |
| `Praefect.HealthyNodes` | internal/praefect/router_per_repository.go:80-104 | the healthy nodes, or the error for a missing virtual storage, connection or node |
| `Praefect.GetUpdatedAndOutdatedSecondaries` | internal/praefect/coordinator.go:939-1037 | the dirtied flag and both lists, in every branch |
| `Praefect.Finalize` | internal/praefect/coordinator.go:906-912 | routing and classification together |
| `Generations.ConsistentHasEveryWrite` | internal/praefect/coordinator.go:1104-1190 | however mutators overlap, whatever views of the cluster routed them and whichever finalizers fail: every storage of the latest generation has carried out every recorded write, there always is one, and every other assigned storage has a replication job or its enqueueing failed |
| `Generations.GenerationCountsWrites` | internal/praefect/datastore/repository_store.go:204-255 | the generation of the repository counts the recorded writes |
| `Generations.RunKeepsInv` | internal/praefect/coordinator.go:1069-1190 | the invariant behind these holds in every reachable state |
| `Generations.ErrorsAreReported` | internal/praefect/coordinator.go:1109-1190 | a finalizer without an error, for a primary that may have changed, has moved the generation and left a job for every outdated replica |
| `Generations.RepositoryStore.IncrementGeneration` | internal/praefect/datastore/repository_store.go:204-255 | exactly the named replicas of the latest generation move on, and the repository with them; the three errors, exactly |
| `Generations.RepositoryStore.RequestFinalizer` | internal/praefect/coordinator.go:1069-1190 | the generations first; only if they moved, a job for each outdated replica that can be enqueued, and which error is returned |
| `Generations.RepositoryStore.TransactionFinalizer` | internal/praefect/coordinator.go:894-919 | records nothing if the primary is clean, and otherwise the two lists of the classification |
| `Praefect.ReplicasArePartitioned` | internal/praefect/coordinator.go:939-1037 | for distinct assigned storages and any outcome, the primary, the updated and the outdated replicas are the assigned storages, each exactly once |
| `Praefect.UpdatedExactly` | internal/praefect/coordinator.go:1010-1036 | a replica is updated if and only if it is assigned, not the primary, was healthy and consistent, committed with the primary and returned the same status |
| `Praefect.UpdatedAgreeWithPrimary` | internal/praefect/coordinator.go:1010-1036 | over every run of the transaction of a route, every replica reported as updated has committed every subtransaction on the vote with which the route's primary committed it |
| `Praefect.CleanPrimaryHidesNothing` | internal/praefect/coordinator.go:948-965 | over every run of the transaction of a route, if the primary is reported as clean then no node has committed any subtransaction |
| `ResetRefs.DifferenceResets` | internal/backup/repository.go:845-867 | applying the computed removals and updates gives exactly the references of the backup outside HEAD, and leaves HEAD |
| `ResetRefs.DifferenceMerges` | internal/backup/repository.go:845-867 | for any backup of which nothing is refused, even one that names references more than once: HEAD stays, names outside the backup go, and each other name ends at its one entry that differs from what was there, or stays if there is none |
| `ResetRefs.NoRefIsNamedTwice` | internal/backup/repository.go:893-895 | for a backup that names every reference once, so does the transaction |
| `ResetRefs.RefusedExactly` | internal/backup/repository.go:857-867 | for any backup, the updates name a reference twice if and only if two of its entries for that reference both differ from what is there |
| `ResetRefs.NothingIsRewritten` | internal/backup/repository.go:950-962 | every entry of the transaction changes its reference, and none names HEAD |
| `ResetRefs.RemovalsKeep` | internal/backup/repository.go:936-948 | the removals alone leave HEAD and the names of the backup, with their old targets, and nothing else |
| `ResetRefs.ComputeRemovals` | internal/backup/repository.go:846-855 | the loops compute the specified removals |
| `ResetRefs.ComputeUpdates` | internal/backup/repository.go:857-867 | the loop computes the specified updates |
| `ResetRefs.LocalRepository.UpdateRefs` | internal/backup/repository.go:903-929 | all updates are applied in order, or none; a batch that names a reference twice is refused |
| `ResetRefs.LocalRepository.ResetRefs` | internal/backup/repository.go:834-901 | when it succeeds, exactly; then the references of a backup that names each once are in place, and those of any other backup as `DifferenceMerges` says; in the optimistic mode, if the second transaction fails, no reference outside HEAD and the backup remains; on failure nothing has changed |

## Left out

- Metrics, logging, tracing, gRPC, SQL beyond the statement on generations, object stores, cgroups, process spawning and command lines.
- Hashing, UUIDs and clocks: generation IDs and file names are fresh, hashes are not modelled beyond the bytes fed to them, clocks do not go back.
- A mutator that crashes between StartLease and EndLease: the lease theorems are about leases that write their generation in time.
- What Go does when the resize hook walks the map while it is written (internal/limiter/concurrency_limiter.go:173-184): the walk visits entries that are in the map, and all of those that are there all the time.
- `queueLength` of the limiter, which can be negative for a moment because `release` returns the queue token first.
- The order in which semaphore waiters are served, which nothing in the source relies on.
- Wrap-around of LSNs, counters and vote weights: numbers are unbounded, except that releasing a semaphore of which nobody holds a token wraps its counter.
- Rounding in the backoff of an adaptive limit: the factor is a real number.
- The archiver's `Close` and the exit of its workers.
- BundleStrategy.Config: a maximum bundle age of exactly the smallest Duration, which a saturated difference cannot be told from.
- The in-place state of a subtransaction is a list of voters in registration order; the source walks a map of pointers in no order.
- The transaction manager: identifiers, lookup and the gRPC service around a transaction.
- `assignRepositoryToNodes` and read routing: they would add only single-call contracts.
- How replication jobs are carried out, and finalizers of changes other than updates: in `Generations` a replica that fell behind stays behind.
- Packet framing of the smudge filter (lengths in hexadecimal, packets of at most 65520 bytes) and what the LFS server answers.
- How Git carries out a reference transaction: it is accepted as a whole or not at all, and refused if it names a reference twice.
- Smudge.Process: does not count bytes of an answer whose contents break off that overflow the output buffer before the process fails.
- Restoring whole backups: manifests, bundles and custom hooks.
