# Verified models of five go-gallery components

This project models the parts of the go-gallery backend whose correctness depends on interleavings, crashes,
replays or the order in which a Go map is visited, and proves what holds in every run.  `dafny verify
dfyconfig.toml` checks all of it with Dafny 4.11.

| component | files |
|---|---|
| Kafka mirror (`kafka-streamer/`) | `KafkaBatcher`, `KafkaBatcherObject`, `KafkaTable`, `KafkaOwnerMessage`, `KafkaOwnerMirror`, `KafkaMirror`, `KafkaMirrorSafety`, `KafkaMirrorCommits`, `KafkaMirrorTable`, `KafkaMirrorResults`, `KafkaMirrorExamples`, `KafkaRetry`, `KafkaFill` |
| OpenSea connection manager (`opensea-streamer/main.go`) | `OpenseaManager`, `OpenseaManagerObject`, `OpenseaSystem`, `OpenseaOvershoot` |
| Highlight mint claims (`publicapi/mint.go`) | `Mint`, `MintSafety`, `MintResults`, `MintCall`, `MintObject` |
| Migration runner (`db/migrate.go`) | `Migrate`, `MigrateVersions` |
| Feed, digest and e-mail loops (`feed/merge.go`, `emails/`) | `FeedMerge`, `FeedGallery`, `Digest`, `Pagination` |
| Shared | `Options`, `Strings` |

How the models are built:

- An object whose methods update fields is a class, and each method is proved against a function on values
  (`Batcher`, `ConnectionManager`, `MintApi`, `Database`, the three feed receivers, `Spotlight`).  A protocol is a
  step relation over those values, with the same functions as its steps: `KafkaMirror.Do`, `OpenseaSystem.Do`,
  `Mint.Do`.  The main results are about every state that some run reaches.
- What the program cannot decide is a parameter or an arbitrary choice: which worker finishes first, what a
  database, broker, lock store or mint answers, whether a commit that was reported as failed was stored all the
  same, in which order a map is visited, what the clock shows.
- SQL that is called from these components is stated as what it does to a map, a set or an ordered page.  The
  owners upsert leaves `kafka_offset`, `kafka_partition` and `kafka_timestamp` of an existing row alone
  (`db/queries/mirror/query.sql:45-58`), the tokens upsert overwrites them
  (`db/queries/mirror/query.sql:329-367`); the model keeps that difference.

Where the code and its own documentation or evident intention differ, the model follows the code:

- `runStreamer` says that a topic may fail 10 times in 10 minutes (`kafka-streamer/main.go:252`).  A reset can
  fall between two runs of ten, so up to 20 errors within ten minutes are tolerated
  (`AtMostTwentyPerInterval`, `TwentyErrorsCanBeTolerated`).  The eleventh error panics exactly when no reset fell among
  the last ten (`PanicIff`).
- A batch whose submission failed keeps its recorded failures but not the entries they belong to.  Submitting it
  again without a reset, which a revocation delivered while the consumer closes would do, filters by the wrong
  indexes and can commit past a message that never reached the database (`ResubmitPassesSameSlice`,
  `CloseCanLoseAMessage`).  Commit safety holds in exactly the runs whose closings do not drop an entry that way which the
  database has not accepted before (`RunIsSettledIff`); after a failed commit there is none, after a failed submitF it
  depends on where the failures were (`FailedCommitThenClosing`, `RejectedThenClosing`).
- The same revocation can execute a part of a batch again whose offsets were stored although their commit was reported as
  failed.  The table then shows an older update of a key for good, with nothing left to replay (`CloseCanSpoilTheTable`).
  `ClosingGuardIff` says which batches any closing can be trusted with: for one that was not filtered before, those of
  which nothing is committed (`UncommittedIsGuarded`), and, once the offsets are stored, those that write no key twice
  with different effects, unless a message handed over earlier has the same effect (`LandedIsGuardedIff`).
  `Convergence`, `CaughtUp` and `AtMostOneBatchAhead` are stated for the runs in which no batch is given to submitF again
  without that guard; `RunIsExplainedIff` says exactly in which runs every key stays explained.
- After a successful commit the table can still be ahead of the committed offset: a batch that was executed
  and whose commit failed may be replayed in smaller pieces.  A commit always leaves the table at the in-order
  fold up to the committed offset only if batches hold one message (`CommitsConvergeIff`).
- A delete message whose record has a blank NFT ID is dropped although its key is known (`DroppedMessages`).
- `Locker.Lock` reads the key and then sets it (`service/throttle/throttle.go:33-47`).  Claims are exclusive if
  and only if that is one step and no two wallets share an L1 address (`ExclusiveIffAtomicAndInjective`).
- `guardMinting` does not release the user lock when the wallet lock fails (`LockLeftBehind`), and its release drops the
  errors of both unlocks; `UserLockLeftIff` and `WalletLockLeftIff` say for which calls a lock stays until it expires.
- A mint that was started and whose record cannot be saved is reported as an error and forgotten: the same user can mint
  again (`UnsavedMintIsRepeated`).
- `RunMigrations` turns "no change" into success only after a superuser run; without one it returns it as an error.
- The last flagged migration in directory order need not be the largest; it is exactly when no flagged number has more
  digits than the last one's (`LastIsLargestIff`), which the repository's six-digit numbers ensure.
- `combinedGalleryEvent.merge` keeps pointers to fields of its loop variable.  The module is built with Go 1.19
  (`go.mod:3`), where one variable serves all turns, so after the loop the group ID and the caption are the last event's,
  and empty if it has none (`LastEventHidesBoth`, `GroupIsLastIff`, `CaptionIsLastIff`).
- The comment in `combinedCollectionEvent.merge` says that a new collection makes the event a new-collection
  event; that is so only if the creation is the first event (`FoldedAction`, `CreatedLaterIsAnUpdate`).
- A negative quota makes the digest selection panic where it allocates its slice (`GetSpotlight`).

## Model

| member | source | states |
|---|---|---|
| KafkaBatcher.FinishCommutes | kafka-streamer/batcher.go:72-84 | two workers of a batch can finish in either order without a difference to entries or errors |
| KafkaBatcher.FinishThenDrain | kafka-streamer/batcher.go:72-84 | which worker finishes first makes no difference to what the batch is once all have finished |
| KafkaBatcher.AddKeepsFaithful | kafka-streamer/batcher.go:56-70 | adding keeps: one slot per message since the last reset, holding the message's parse or accompanied by its recorded failure unless its worker is outstanding |
| KafkaBatcher.FinishKeepsFaithful | kafka-streamer/batcher.go:72-84 | so does a worker that finishes, whether it parses, fails, or fails for a reason outside the message |
| KafkaBatcher.DrainKeepsFaithful | kafka-streamer/batcher.go:99-99 | and so does waiting for all workers, in whatever order they finish |
| KafkaBatcher.FilteredIsSequentialParse | kafka-streamer/batcher.go:101-122 | with no fatal error the filtered slice is the sequential parse of the added messages in read order with exactly the non-fatal failures left out, and the capacity passed to make is not negative |
| KafkaBatcher.SubmitSendsSequentialParse | kafka-streamer/batcher.go:94-141 | a Submit either stops at a fatal error and hands over nothing, or hands exactly that slice to submitF, however submitF and the commit end; a message with a fatal parse stops it |
| KafkaBatcher.SubmitEnds | kafka-streamer/batcher.go:94-141 | how a Submit ends: a recorded fatal failure, then more failures than entries, then submitF's error, then the commit's, decide in this order, and the last three had the filtered slice |
| KafkaBatcher.ReadyIff | kafka-streamer/batcher.go:56-92 | however its workers finish in between, a batch that started empty is ready if and only if it has as many messages as fit, or has one and the time of the first of them has run out |
| KafkaBatcher.ResubmitPassesSameSlice | kafka-streamer/batcher.go:94-141 | a second Submit without a Reset, with nothing failing any more, commits the right slice if and only if no failure is recorded, or the failures are no more than the entries left and all lie beyond them; if every message had failed it does nothing |
| KafkaBatcher.ResubmitCanLoseAMessage | kafka-streamer/batcher.go:101-140 | three messages, the first a non-fatal failure: the second Submit commits with one good message missing from the slice |
| KafkaBatcherObject.Batcher.constructor | kafka-streamer/batcher.go:38-54 | a new batcher is the empty batch with room for maxSize entries |
| KafkaBatcherObject.Batcher.Add | kafka-streamer/batcher.go:56-70 | the new state is the old one with the message in the next slot and its worker outstanding; a stopped batcher refuses and changes nothing; below capacity the buffer the workers write to is not replaced |
| KafkaBatcherObject.Batcher.WorkerDone | kafka-streamer/batcher.go:72-84 | a worker writes its own slot or records its own failure and nothing else |
| KafkaBatcherObject.Batcher.Wait | kafka-streamer/batcher.go:99-99 | waiting, with the workers finishing in arbitrary order, leaves what the sequential completion of all of them leaves |
| KafkaBatcherObject.Batcher.IsReady | kafka-streamer/batcher.go:86-92 | ready means not empty, and full or past the timeout; it is the readiness that the mirror's steps ask for |
| KafkaBatcherObject.Batcher.FilterErrors | kafka-streamer/batcher.go:109-121 | the entries become those whose index has no recorded failure, in order |
| KafkaBatcherObject.Batcher.Submit | kafka-streamer/batcher.go:94-141 | the object does what the value model's Submit does after all workers are done, including the failing cases and what they leave behind |
| KafkaBatcherObject.StatusEnds | kafka-streamer/batcher.go:94-141 | which status the object reports for each way a Submit can end, and what submitF got: nothing before a parse error, otherwise the values of the filtered slice |
| KafkaBatcherObject.Batcher.Reset | kafka-streamer/batcher.go:143-152 | after a reset nothing is outstanding and the batch is empty, in a buffer no worker knows |
| KafkaBatcherObject.Batcher.Stop | kafka-streamer/batcher.go:154-163 | stopping waits for the workers, happens once, and makes further adds fail |
| KafkaTable.TableIsLastWriterWins | db/queries/mirror/query.sql:1-58 | executing a slice leaves at each key the effect of its last entry for that key, or what was there |
| KafkaTable.LastEntryDecides | db/queries/mirror/query.sql:1-58 | after any entries the row of a key is the last entry's: gone if it deletes, with its columns if it upserts, and in the tokens table with its position |
| KafkaTable.OwnerPositionStays | db/queries/mirror/query.sql:45-58 | in the owners table it keeps the position of the upsert that made it |
| KafkaTable.InOrderReplayIsExact | db/queries/mirror/query.sql:1-58 | entries executed in order up to some point and then replayed whole give the table of a clean run, Kafka positions included, in both kinds of table |
| KafkaTable.OwnerPositionsDependOnHistory | db/queries/mirror/query.sql:45-58 | out of order this fails for the owners' Kafka positions: a concrete replay keeps the position of the later message |
| KafkaTable.ReplayedRowIff | db/queries/mirror/query.sql:1-58 | whatever a first attempt executed, the second leaves the row of a clean run, position included, if and only if its entries decide the row, or the first attempt left it, or its position, as it would have been |
| KafkaTable.ReplayAbsorbs | db/queries/mirror/query.sql:1-58 | entries whose keys are written again leave no trace in the columns: redelivery is idempotent |
| KafkaOwnerMessage.DroppedMessages | kafka-streamer/main.go:493-512 | the messages dropped as non-fatal are exactly the decodable ones that have an action and a blank NFT ID, deletes included |
| KafkaOwnerMessage.ActionIs | kafka-streamer/main.go:872-880 | the action is the value of the first header with the key "modType" in lower case, and there is none without such a header |
| KafkaOwnerMessage.ParsedIff | kafka-streamer/main.go:533-613 | a message is parsed if and only if its record decodes, that action is insert, update or delete, the NFT ID is not blank and has three parts of which the last is a number, and the quantity and the dates are absent or readable |
| KafkaOwnerMessage.UnreadableIsFatal | kafka-streamer/main.go:536-545 | a record that does not decode, or no action, stops the stream |
| KafkaOwnerMessage.EntryMatchesMessage | kafka-streamer/main.go:533-613 | an entry has its message's key; it deletes exactly when the action is delete; an upsert has the message's position, the second part of the record's NFT ID in lower case as contract, its third part as token, the record's address in lower case as owner, and the record's own NFT ID, quantity, dates and other columns |
| KafkaOwnerMessage.BlankExamples | kafka-streamer/main.go:495-498 | an NFT ID of spaces, tabs and line ends is blank, and one with a printable ASCII character is not |
| KafkaOwnerMessage.NftIdRoundTrip | kafka-streamer/main.go:493-512 | an ID composed of chain, contract and token is taken apart into lower-cased contract and token |
| KafkaOwnerMessage.NftIdOfRow | kafka-streamer/main.go:493-512 | and every upserted row has an ID composed of some chain, its contract before lower-casing, and its token |
| KafkaOwnerMirror.OwnersAreSound | kafka-streamer/main.go:533-613 | parseOwnerMessage is a parse function that all results about the mirror apply to |
| KafkaOwnerMirror.BlankDeleteKeepsRow | kafka-streamer/main.go:493-498 | a delete with a blank NFT ID changes nothing in the table the mirror converges to |
| KafkaMirrorSafety.StepKeepsCore | kafka-streamer/main.go:346-447 | every step of a consumer, a worker, the rebalance callback, the retry loop, a closing or a crash keeps offsets, ownership, batch capacity and what the batches hold |
| KafkaMirrorCommits.StepIsSettledIff | kafka-streamer/batcher.go:94-141 | commit safety survives a step if and only if the step is not a closing Submit that stores offsets and drops, filtering a filtered batch, an entry the database has not accepted |
| KafkaMirrorCommits.RunIsSettledIff | kafka-streamer/batcher.go:94-141 | commit safety holds in every state of a run if and only if all its closings are lossless in that sense |
| KafkaMirrorCommits.FailedCommitThenClosing | kafka-streamer/batcher.go:134-137 | after a commit that failed every closing Submit is lossless |
| KafkaMirrorCommits.RejectedThenClosing | kafka-streamer/batcher.go:129-132 | after a submitF that failed on new messages a closing Submit is lossless if and only if it does not get to storing offsets, or no failure was recorded, or all failures lie beyond the entries left and do not outnumber them |
| KafkaMirrorTable.StepIsExplainedIff | kafka-streamer/batcher.go:129-139 | every key stays explained by the log across a step if and only if the step leaves the keys of its batch explained, which only resubmitting a failed batch can fail to do |
| KafkaMirrorTable.RunIsExplainedIff | kafka-streamer/main.go:261-275 | every key is explained in every state of a run if and only if all its steps do |
| KafkaMirrorTable.ClosingGuardIff | kafka-streamer/main.go:384-390 | every closing Submit, whatever the database and the broker do, keeps all keys explained if and only if each entry it would hand over may be executed alone and what it would drop is explained without it |
| KafkaMirrorTable.UncommittedIsGuarded | kafka-streamer/main.go:384-390 | which holds of every batch that was not filtered before and of which nothing is committed |
| KafkaMirrorTable.LandedIsGuardedIff | kafka-streamer/batcher.go:134-137 | and of one whose offsets were stored by a failed commit if and only if each of its entries has the effect that the committed log has at its key, or that of a later message handed over before |
| KafkaMirrorTable.GuardedKeepsKeys | kafka-streamer/main.go:384-390 | a closing or a crash under the guard, like every other step, leaves the keys of its batch explained |
| KafkaMirrorTable.GuardedRunKeepsKeys | kafka-streamer/main.go:261-275 | in a run that gives no failed batch to submitF again without the guard every key is explained in every state |
| KafkaMirrorResults.CommitSafety | kafka-streamer/batcher.go:129-139 | in every run whose closings are lossless the committed offset never passes a message unless the database accepted its entry or its parse failed non-fatally |
| KafkaMirrorResults.OffsetsFollowTheDatabase | kafka-streamer/batcher.go:129-139 | offsets move, and messages count as delivered, only in a step in which submitF accepted the batch |
| KafkaMirrorResults.DueBatchIsCommitted | kafka-streamer/main.go:408-445 | in every run, a batch that is full or past its time and has no fatal failure is committed up to the read position at the next look at it, on a quiet topic too, if the database and the broker are well |
| KafkaMirrorResults.ErrorsEndTheLoop | kafka-streamer/main.go:346-447 | in every run a failed read, assignment, unassignment or Submit makes streamTopic return with its partitions still assigned |
| KafkaMirrorResults.RestartsFromCommitted | kafka-streamer/main.go:257-276 | the streamer then closes, starts over with an empty batch and reads each partition it is given from the committed offset, and nothing else changes |
| KafkaMirrorResults.CrashedStartsFromCommitted | kafka-streamer/main.go:346-447 | so does a process that crashed |
| KafkaMirrorResults.BatchIsTheUncommittedRange | kafka-streamer/main.go:375-447 | in every run, however its consumers close, the messages between committed offset and read position are exactly those of the current batch, per partition and in order |
| KafkaMirrorResults.RevocationCommitsEverythingRead | kafka-streamer/main.go:384-396 | a revocation that reports no error gives its partitions away with the committed offset at the read position |
| KafkaMirrorResults.Convergence | kafka-streamer/main.go:261-275 | after any failures, partial submissions, replays, guarded closings and crashes, once the committed offset has reached what was handed to the database the table shows, at each key, the in-order fold of the log up to it |
| KafkaMirrorResults.CaughtUp | kafka-streamer/main.go:261-275 | in such a run, when all of a partition is committed the table is the fold of the whole partition at each of its keys |
| KafkaMirrorResults.CaughtUpRow | db/queries/mirror/query.sql:1-58 | in those runs, with a partition committed, the last message whose entry has a key decides its row: absent after a delete, its columns after an upsert, and in the tokens table its position |
| KafkaMirrorResults.CaughtUpAbsent | db/queries/mirror/query.sql:1-58 | and a key without an entry on its partition has no row |
| KafkaMirrorResults.AtMostOneBatchAhead | kafka-streamer/batcher.go:129-139 | in such a run a key shows at any time the fold up to the committed offset or the effect of one message less than a batch beyond it |
| KafkaMirrorExamples.CommitsConvergeIff | kafka-streamer/batcher.go:129-140 | every commit that moves a partition's offset leaves its keys folded up to it, in all runs of all deployments of a batch size, closings of every kind included, if and only if that size is one |
| KafkaMirrorExamples.ShorterReplayRunsAhead | kafka-streamer/batcher.go:129-140 | the run behind that: two updates executed, their commit fails, and a replay commits only the first |
| KafkaMirrorExamples.CloseCanLoseAMessage | kafka-streamer/main.go:369-392 | a state with everything in order in which closing the consumer revokes its partitions and commits past a message that is neither delivered nor a failure |
| KafkaMirrorExamples.CloseCanSpoilTheTable | kafka-streamer/main.go:369-392 | a state with every key explained in which the closing Submit executes the older of two committed updates again and fails: all is committed and the table shows the older one |
| KafkaMirrorResults.NoLostOrStaleWrites | kafka-streamer/batcher.go:56-92 | in every run, however its consumers close, a batch stays within its capacity, outstanding workers belong to the current batch's slots, and a restart finds none |
| KafkaRetry.RunStreamer | kafka-streamer/main.go:257-276 | the loop stops at the first error that finds the budget used up |
| KafkaRetry.PanicIff | kafka-streamer/main.go:252-276 | an error panics if and only if ten came before it and no new window began with one of the ten after the first of these eleven |
| KafkaRetry.ElevenInAWindowPanic | kafka-streamer/main.go:252-276 | the documented rule for a window, the one from the start included: ten errors after its first one within the interval after it began make the last of them panic |
| KafkaRetry.PanicMeansElevenErrors | kafka-streamer/main.go:252-276 | a panic means that it and the ten errors before it lie within one reset interval |
| KafkaRetry.AtMostTwentyPerInterval | kafka-streamer/main.go:252-276 | any twenty-one tolerated errors in a row take longer than the interval |
| KafkaRetry.TwentyErrorsCanBeTolerated | kafka-streamer/main.go:252-276 | and twenty can fit into it without a panic |
| KafkaFill.Fill | kafka-streamer/main.go:1047-1091 | updates the IDs that came back and deletes, exactly if the numbers of both differ, the requested IDs that did not |
| KafkaFill.IdsConcat | kafka-streamer/main.go:1049-1060 | each response that is not nil is updated, once and in order |
| KafkaFill.DeletionIsExact | kafka-streamer/main.go:1061-1084 | the deletions are requested minus returned if and only if the lengths differ or everything requested was returned |
| KafkaFill.HonestResponsesAreExact | kafka-streamer/main.go:1061-1084 | which holds for every response that repeats nothing and contains only what was requested |
| KafkaFill.RepeatedIdHidesAMissingOne | kafka-streamer/main.go:1061-1084 | and not for one that repeats an ID in place of a missing one |
| OpenseaManager.PromoteAllEffect | opensea-streamer/main.go:409-430 | promoting a set of connections, in whatever order, gives exactly those one new pending request with its own new ID, its message and its timeout, and leaves the others alone |
| OpenseaManager.UpdateConservesWork | opensea-streamer/main.go:400-431 | for every visiting order: afterwards the limit is reached or every connected connection has a pending request, the limit is not newly exceeded, and nothing is sent if it was already reached |
| OpenseaManager.SubscribedReportKeepsLimit | opensea-streamer/main.go:345-356 | a subscribed report keeps subscribed plus pending within the limit if and only if it answers a pending request, repeats itself, or finds the limit not yet reached |
| OpenseaManager.OtherReportsKeepLimit | opensea-streamer/main.go:320-343 | every other report keeps it |
| OpenseaManagerObject.ConnectionManager.SetRemoteState | opensea-streamer/main.go:371-384 | after the loops over both maps the connection is in the set of its new state and in no other, none of its requests is pending, and the other connections' states and requests are as before |
| OpenseaManagerObject.ConnectionManager.RequestStateChange | opensea-streamer/main.go:386-398 | the request is behind those already sent to its connection and the pending one for its state under a new ID; other queues and pending requests are as before |
| OpenseaManagerObject.ConnectionManager.UpdateSubscribers | opensea-streamer/main.go:400-431 | the loop over the map, in an arbitrary order, promotes as many available connections as the limit leaves room for |
| OpenseaManagerObject.ConnectionManager.OnConnecting | opensea-streamer/main.go:320-330 | the handler is the report step of the system model |
| OpenseaManagerObject.ConnectionManager.OnConnected | opensea-streamer/main.go:332-343 | likewise; a report from a connection that was not connecting queues one reconnect request to it and nothing else |
| OpenseaManagerObject.ConnectionManager.OnSubscribed | opensea-streamer/main.go:345-356 | likewise for one that was not connected |
| OpenseaManagerObject.ConnectionManager.OnTimeout | opensea-streamer/main.go:358-364 | a reconnect request is queued for the connection if and only if the pending subscribe request has the timeout's ID, and nothing for any other |
| OpenseaManagerObject.ConnectionManager.DisconnectRandomConnection | opensea-streamer/main.go:305-318 | one reconnect request is queued to the picked connected connection, nothing to any other, and nothing at all if none is connected |
| OpenseaSystem.StepKeepsInv | opensea-streamer/main.go:282-303 | every step of the manager, of a connection, of its listener or of a timeout keeps the invariant behind the results below |
| OpenseaSystem.WholeSystemAgreement | opensea-streamer/main.go:371-384 | in every interleaving each connection is in exactly one set, that of the state it last reported, which is its own state whenever it is in its select loop |
| OpenseaSystem.ConnectedReportIsExpected | opensea-streamer/main.go:332-341 | in every interleaving a connected report finds its connection connecting, so the branch for an unexpected one is dead |
| OpenseaSystem.SubscriptionBound | opensea-streamer/main.go:345-431 | in every run subscribed plus pending exceed the limit by at most the connections subscribed now that had reported so without a pending request; pending ones are connected |
| OpenseaSystem.NoIdleConnection | opensea-streamer/main.go:400-431 | in every run, whatever the manager is told and in whatever order, the limit is reached or every connected connection has been asked to subscribe |
| OpenseaSystem.TimeoutIdentity | opensea-streamer/main.go:358-364 | a timeout queues one reconnect request to its connection if and only if the connection has reported nothing since that very subscribe request, and otherwise nothing |
| OpenseaSystem.RequestIsAnswered | opensea-streamer/main.go:518-602 | in every run a connection in its loop that takes a reconnect request starts a new listener; one that takes a subscribe request does so exactly if it was connected and could not write the subscription; nothing else changes |
| OpenseaSystem.ReportIsHeard | opensea-streamer/main.go:371-384 | its report puts it in the set it reported; it then dials if it was connecting, and is in its loop otherwise |
| OpenseaSystem.ConnectionLife | opensea-streamer/main.go:518-628 | in every run, whatever step is taken, a new listener reports connecting, dials, reports connected and is in its loop; it leaves the loop to report a confirmed subscription or, for exactly four reasons (a reconnect request, a subscription that cannot be written, a failed listener, missing events), to start a new listener |
| OpenseaSystem.QueueIsFifo | opensea-streamer/main.go:386-398 | in every run a connection takes its requests in the order in which they were sent, and none is lost |
| OpenseaSystem.ReconnectArrives | opensea-streamer/main.go:585-591 | so in every run a queued reconnect request, once those before it are taken, makes its connection report that it is connecting |
| OpenseaSystem.TimeoutReconnects | opensea-streamer/main.go:358-364 | which is what becomes of a timeout whose subscribe request is unanswered |
| OpenseaSystem.DisconnectReconnects | opensea-streamer/main.go:305-318 | of the connection that is picked every hour |
| OpenseaSystem.UnexpectedReconnects | opensea-streamer/main.go:345-356 | and of one that reports being subscribed without having been connected |
| OpenseaSystem.RequestBound | opensea-streamer/main.go:386-430 | between two reports of a connection it is sent at most one subscribe request and at most one reconnect request per timeout of it |
| OpenseaOvershoot.LimitCanBeExceeded | opensea-streamer/main.go:593-611 | a run of two connections with a limit of one that ends with both subscribed |
| MintSafety.GoKeepsInv | publicapi/mint.go:61-160 | every step of a claim request keeps the locking and checking invariant, with locks that are taken in one step |
| MintSafety.TrackKeepsInv | tokenprocessing/process.go:740-773 | a status update of a tracked claim keeps it |
| MintResults.MintExclusivity | publicapi/mint.go:42-245 | in every interleaving of any number of requests: at most one live claim per collection and user and per collection and address, no two requests for either past both locks before one of them starts to release, and at most one mint started for either while every mint could be recorded |
| MintResults.ExclusiveIffAtomicAndInjective | service/throttle/throttle.go:33-47 | no run has two such claims if and only if taking a lock is one step and no two wallets share an L1 address |
| MintResults.LockLeftBehind | publicapi/mint.go:49-53 | a run in which every request has been answered, nothing was claimed or minted, and a user is still locked out |
| MintResults.MintIsAccountedIff | publicapi/mint.go:140-146 | what a request has started is accounted for after its save step if and only if the save succeeds |
| MintResults.UnsavedMintIsRepeated | publicapi/mint.go:140-146 | a run with two mints of one user to one address and no claim |
| MintCall.FinishIsReachable | publicapi/mint.go:61-160 | a call that runs undisturbed is a run of the system, so all of the above holds after it |
| MintCall.CallMintsIff | publicapi/mint.go:61-160 | an undisturbed call mints, once, if and only if both locks are free, neither user nor address has a claim other than a failed transaction, the wallet is the user's, everything asked before the mint answers, and the mint is accepted |
| MintCall.CallSucceedsIff | publicapi/mint.go:61-160 | it answers with an ID if and only if it mints, the record is saved and its task is made; the ID is the new record's, and exactly then it is given to a task |
| MintCall.CallRecordsIff | publicapi/mint.go:118-149 | it saves one record, of the user and the address, if and only if a transaction was started or came back reverted and the save succeeds; its status says which of the two |
| MintCall.RefusedByLocks | publicapi/mint.go:77-83 | a lock that is taken answers that a mint is pending, a lock store that fails is another error, the user's lock before the wallet's |
| MintCall.RefusedForUser | publicapi/mint.go:166-204 | behind the locks a claim of the user's whose transaction succeeded or whose media are done or failed answers already claimed, else any claim but a failed transaction answers pending |
| MintCall.RefusedForWallet | publicapi/mint.go:206-245 | then a wallet that is not the user's, and the claims of its address in the same way, and the rate limit |
| MintCall.FailedAfterAsking | publicapi/mint.go:111-157 | the mint's own refusal is passed on, and a reverted transaction, an unsaved record and a task that is not made are errors |
| MintCall.UserLockLeftIff | publicapi/mint.go:42-59 | an undisturbed call that found the user's lock free leaves it taken if and only if it took it and did not get the wallet's or could not give it back |
| MintCall.WalletLockLeftIff | publicapi/mint.go:42-59 | one that found both free leaves the wallet's taken if and only if it took both and could not give this one back |
| MintObject.MintApi.GuardMinting | publicapi/mint.go:42-59 | both locks or an error, and after an error of the second the first stays taken |
| MintObject.MintApi.AlreadyClaimedByUser | publicapi/mint.go:166-204 | no error exactly when the query answers and the user has no live claim of the collection; which statuses stand for already claimed and which, without those, for pending |
| MintObject.MintApi.ValidateClaimableForWallet | publicapi/mint.go:206-245 | no error exactly when the query answers, the wallet is the user's and its address has no live claim; which error stands for which reason |
| MintObject.MintApi.ClaimHighlightMint | publicapi/mint.go:61-160 | one call, with a deferred release either half of which may fail, leaves locks, claims, tasks and mints as the request's own run in the system does, and answers, saves, tracks and mints exactly as the rows on an undisturbed call say |
| Migrate.Database.Migrate | db/migrate.go:188-195 | the driver moves to the target version by version, refuses a dirty database, a version it does not have and no move at all, and stops dirty at a version that fails |
| Migrate.Database.Up | db/migrate.go:214-219 | the driver applies all that is left, or refuses |
| Migrate.RunStreaks | db/migrate.go:182-208 | the loop leaves no flagged version unapplied, each version it applied was applied by its owner in order, every explicit move goes forward, and it panics only if the migrator's role is missing when needed |
| Migrate.RunMigrations | db/migrate.go:109-220 | a missing superuser client is an error exactly if the app's role is missing or the current version is below the last flagged one; however it ends, the versions after the current one were applied once each, in ascending order, by their owners, up to where it stopped; success means up to the top; every error has its cause; with nothing failing it ends at the top, with "no change" exactly if it was there and needed no superuser, and panics exactly if it needs one and the migrator's role stays missing |
| Migrate.SuperUserRequiredIff | db/migrate.go:78-104 | a superuser is needed if and only if the app's role is missing or a flagged version up to the last one is greater than the current one |
| Migrate.StrandedIff | db/migrate.go:129-146 | the migrator's role stays missing if and only if it is missing at the start and, where flagged versions begin at once and an unflagged one follows them, after those |
| Migrate.RoleCorrectIff | db/migrate.go:177-202 | that order uses the superuser for the flagged versions and only for them if and only if no flagged version comes after the reported last one |
| MigrateVersions.SuperMigrations | db/migrate.go:30-66 | the flagged versions of a directory and the last of them in directory order, or an error exactly if an up file cannot be opened or a flagged one has no number |
| MigrateVersions.FlaggedIff | db/migrate.go:40-56 | a file counts if and only if its name ends in "up.sql" and its first line is the flag |
| MigrateVersions.SignedNumbers | db/migrate.go:22-28 | a version is a number that may have a sign |
| MigrateVersions.NoNumber | db/migrate.go:22-28 | any other character, a sign alone and nothing at all are no numbers |
| MigrateVersions.VersionWraps | db/migrate.go:22-28 | a version is unsigned, so a negative number wraps round |
| MigrateVersions.LastIsLargestIff | db/migrate.go:40-63 | with numbers of one width, or without leading zeros, the last flagged version in directory order is the largest if and only if no flagged number has more digits |
| MigrateVersions.LastIsLargestForAnyIff | db/migrate.go:40-63 | with any mixture of widths and leading zeros it is if and only if no flagged number, its leading zeros dropped, is longer than the last one's, or as long and later in the dictionary |
| MigrateVersions.LastIsLargest | db/migrate.go:40-63 | so it is when all have the same width |
| MigrateVersions.WidthMatters | db/migrate.go:40-63 | without that it need not be |
| FeedMerge.CombinedCollectionEvent.Merge | feed/merge.go:59-108 | the loop folds the events into the receiver one by one |
| FeedMerge.FoldConcat | feed/merge.go:59-108 | merging xs and then ys is merging xs followed by ys |
| FeedMerge.FoldedAction | feed/merge.go:64-71 | Created if the first event with an action is Created, the common action if they all have one, otherwise Updated |
| FeedMerge.FoldedIds | feed/merge.go:104-105 | all event IDs in order, and new if and only if some event creates the collection |
| FeedMerge.FoldedCaption | feed/merge.go:73-75 | the receiver's caption unless it is blank, then the first one that is not, then the last event's |
| FeedMerge.FoldedData | feed/merge.go:77-87 | tokens of the last event whose action is CollectionCreated or TokensAddedToCollection, note of the last whose action is CollectionCreated or CollectorsNoteAddedToCollection, and the receiver's where there is no such event |
| FeedMerge.FoldedLast | feed/merge.go:89-103 | ID, actor, subject, gallery, collection, time and group are the last event's, and every other field is empty |
| FeedMerge.CreatedLaterIsAnUpdate | feed/merge.go:64-71 | a collection created after another event is new in an event that says Updated |
| FeedGallery.CombinedFollowEvent.Merge | feed/merge.go:35-51 | the loop folds the events into the receiver one by one |
| FeedGallery.NewFollowsConcat | feed/merge.go:35-51 | the new follows of a list are those of its parts one after the other |
| FeedGallery.NewFollowsAre | feed/merge.go:37-37 | and exactly the events that are no refollows |
| FeedGallery.FollowLists | feed/merge.go:35-51 | every follow that is not a refollow is listed once, in order, in all three lists |
| FeedGallery.FollowNamed | feed/merge.go:38-44 | the last of them gives the event its ID, actor, action, time and group and nothing else |
| FeedGallery.CombinedGalleryEvent.Merge | feed/merge.go:125-201 | the scanned fields and the two collection maps are functions of the events; the new collections and the caption are those of the fold over the collections in some order; group ID and scanned caption are the last event's, if any event has one |
| FeedGallery.AllShares | feed/merge.go:174-194 | in every order the maps are the same, each created collection is added once, and the caption is that of the last visited collection that has one |
| FeedGallery.EntryOfCollection | feed/merge.go:168-194 | a collection is new if and only if one of its own events is CollectionCreated; its tokens, if any, are those of its last CollectionCreated or TokensAddedToCollection event, its note that of its last CollectionCreated or CollectorsNoteAddedToCollection event, and without such events it has none |
| FeedGallery.CaptionOfCollection | feed/merge.go:191-193 | and its caption is the first of its own events' that is not blank |
| FeedGallery.NoCaptionOfCollection | feed/merge.go:191-193 | without such an event it has none |
| FeedGallery.InterleavingIsIrrelevant | feed/merge.go:127-166 | how the events of different collections are interleaved changes neither the maps nor the set of new collections |
| FeedGallery.GroupConcat | feed/merge.go:146-165 | a group has exactly its collection's events other than gallery updates and token notes, in their order |
| FeedGallery.CaptionIsDeterminedIff | feed/merge.go:169-193 | all orders in which the collections can be visited give one caption if and only if no two collections have different ones |
| FeedGallery.OrderDecidesCaption | feed/merge.go:169-193 | two events of two collections with a caption each: either can be the result |
| FeedGallery.GroupIsLastIff | feed/merge.go:129-134 | the group ID is that of the last event with one if and only if no event has one, the last event has one, or that ID is empty |
| FeedGallery.CaptionIsLastIff | feed/merge.go:143-145 | the scanned caption is that of the last event with one if and only if no event has one or the last event has |
| FeedGallery.PointersSeeTheLastEvent | feed/merge.go:129-145 | if any event has a group the group ID is the last event's, empty if that has none, and likewise the caption |
| FeedGallery.LastEventHidesBoth | feed/merge.go:129-145 | a group and a caption of an earlier event come out present and empty |
| FeedGallery.ScanMeaning | feed/merge.go:136-149 | the time is the last event's, and the gallery name is that of the last GalleryInfoUpdated event that has one |
| FeedGallery.ScannedDescription | feed/merge.go:150-152 | likewise its description |
| FeedGallery.InfoStays | feed/merge.go:146-153 | without such an event they stay |
| FeedGallery.ScanFirsts | feed/merge.go:137-142 | the first actor and gallery |
| FeedGallery.TokenNoteIsLast | feed/merge.go:154-163 | a token's note is the one last written for it in its collection |
| FeedGallery.OtherNotesStay | feed/merge.go:154-163 | a token that no such event is about keeps its note |
| Digest.Spotlight.Add | emails/digest.go:295-335 | the batched loop selects what a one-by-one selection does and asks for no entity after the quota is filled |
| Digest.GetSpotlight | emails/digest.go:234-293 | editorial and then trending IDs give the first n of the plain selection from both; the trending query matters only if the editorial IDs do not suffice; a negative n panics |
| Digest.ChosenMeaning | emails/digest.go:316-329 | the plain selection has each ID once, exactly the IDs that can be shown, each as its first success presents it |
| Digest.PickIsFetched | emails/digest.go:295-335 | a pick marked editorial has an editorial ID and the entity fetched for it, every other one a trending ID and its entity |
| Digest.ChosenGrows | emails/digest.go:308-334 | and follows the order of the list |
| Digest.EditorialIff | emails/digest.go:234-250 | a selected ID is marked editorial if and only if the editorial list could show it |
| Pagination.RunForUsers | emails/send.go:537-586 | while users come and go between pages: nobody is visited twice, only users of the window are and in order, everybody who stays is unless a query fails, and the loop ends for every page limit |
| Pagination.InWindowIff | emails/send.go:537-560 | the window holds the users created before the end of the run, except one created at the zero time without an ID |
| Pagination.PageKeepsVisited | emails/send.go:576-580 | moving the cursor to the last user of a full page skips nobody who stays |
| Pagination.ShortPageEnds | emails/send.go:572-574 | a page that is not full is the last: nobody who stays is left |
| Pagination.RunForFixedTable | emails/send.go:550-583 | with a table that does not change the loop visits each user of the window exactly once unless a query fails, and then none twice |

## Left out

- Kafka, Avro, Postgres, Redis, websockets, GraphQL, e-mail and task queues themselves: each call is a step that succeeds, fails or returns any allowed value.
- Read-only mode (`kafka-streamer/batcher.go:124-127`): it resets a batch without submitting it.
- Token messages (`parseTokenMessage`), `messageStats` and the filling of missing contracts: column copying and logging that would only add easy members.
- The capacity of the worker pool channel and of the request channels (10 each for the manager): queues are unbounded, so a send that blocks is not modelled.
- Consumers that go on after their session has timed out: a partition has one consumer at a time, and whether a revocation is delivered while a consumer closes is a step that may happen or not.
- KafkaBatcherObject.Batcher.Add: requires that no failure is recorded beyond the entries, which excludes adding after a failed Submit and before its Reset; the retry loop always resets.
- KafkaMirrorResults.CommitSafety: is about runs whose closings are lossless, because it is false of the others; RunIsSettledIff makes that exact and CloseCanLoseAMessage is such a run.
- KafkaMirrorResults.Convergence: is about runs that give no failed batch to submitF again without the guard, because it is false of others, and requires the committed offset to have reached what was handed to the database; RunIsExplainedIff, ClosingGuardIff and CommitsConvergeIff say how exact that is.
- KafkaMirrorResults.CaughtUp: is about the same runs; CloseCanSpoilTheTable is a run in which it fails.
- KafkaMirrorResults.AtMostOneBatchAhead: is about the same runs; CloseCanSpoilTheTable is a run in which it fails.
- Two readings of the clock within one error (`kafka-streamer/main.go:264-266`) are taken as one instant.
- The start of a connection, where its loop and its first listener run side by side (`opensea-streamer/main.go:465-468`): each connection is one thread from its first report on.
- Heartbeats, `addSeenEvent` and the bloom filter of the OpenSea streamer.
- Lock lifetimes: a lock outlasts the requests that hold it, and expires only afterwards.
- A mint that was started and whose answer is lost: the external service answers whether it started one.
- Authentication, validation of the arguments and the IP limiter's own state in the claim call; the limiter is one answer.
- Connection errors in SuperUserRequired; versions are the numbers 1 to the top one, each with one file.
- Sorting and filtering of trending posts before the selection (`emails/digest.go:284-289`).
- A nil map and an empty one are not distinguished in the gallery merge.
- The errors that the visits of the pagination run concurrently: they are visited in order, and which error is reported is not modelled.
