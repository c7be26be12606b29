# AstraIndexator verification

A Dafny model of the parts of AstraIndexator its correctness rests on: the lease-fenced delivery
protocol, the logical splitter, deterministic batching, content-addressed prepared artifacts,
reconciliation with an ambiguous remote, and block-tree validation. `dafny verify dfyconfig.toml`
checks the whole project.

## How the model is laid out

| files | what they hold |
|---|---|
| `Coordinator`, `Leases`, `Delivery`, `DurableAppend` | job row, attempts, checkpoint and batch rows as classes whose methods are the transactions; what the lease rows mean over time; the Append loop of one owner |
| `Protocol`, `ProtocolSafety`, `ProtocolTheorems`, `ProtocolReplay` | the protocol as a transition system: every transaction and every remote call is one step, any number of claims, clocks, crashes and late or repeated Append deliveries interleave |
| `CallWindow`, `Answers`, `Contract`, `Stages`, `Recovery` | what precedes every mutating call and what must be answered to it, the one contract of a delivery, what the stage says, and that a claimable job can always be carried to COMPLETED |
| `Greedy`, `FullPieces`, `Batching`, `Planning` | the greedy partition and the batch planner, and what both achieve, told without their loops |
| `Artifacts`, `Parts`, `ArtifactStore`, `Publishing`, `Publisher` | part writer and streaming reader, and their exact outcomes; concurrent publishers, their safety and progress; one publication step by step |
| `Text`, `Sentence`, `Chunks`, `Units`, `Document`, `Grouping`, `Fragments`, `Identity` | the splitter, from characters to fragment ids |
| `Boundaries`, `Filling`, `Fullness`, `Forcing`, `Outline`, `Seams`, `Joining`, `Settling` | what the splitter's loops achieve, told without them: where sentences end, that chunks and ranges are full, which units are forced, what units carry, where groups end, which groups merge |
| `Runs`, `Collisions` | when fragment ids of one document can collide: which id lists fragments can carry, and a document for every ambiguous pair of them |
| `Policy`, `Reconcile`, `Readiness`, `Backoff`, `Validation` | classifiers, the bounded loops against the remote, retry delays, the block tree |

Environment assumptions, each a parameter or a named predicate. Remote Start is idempotent by key
and remote Append by index and hash. SHA-256 is an injective function (`Injective`). JSON
encoding and parsing are an inverse pair without raw newlines (`Artifacts.Lawful`). Whitespace,
sentence rules, grapheme segmentation and word counting are functions of the runtime
(`Chunks.Lawful`): separators are whitespace, a segmentation concatenates back to its input, the
empty text has no words. Where a colliding document is built (`Collisions.Modest`), also: `a` is not
whitespace, neither `a` nor a newline ends a sentence, and no text counts more words than it has characters. Time is an integer that never goes back; backoff is over the reals.

## Findings

- Fragment ids can collide. Identities (source ids and highest continuation) are always distinct,
  but the id digests the source ids joined with commas. For element ids free of the field separator,
  every split has distinct fragment ids if and only if the ids in reading order are unambiguous: no two
  different lists picked from them, one ending where the other begins or earlier, have the same
  comma-join (`Collisions.SafeIffUnambiguous`). For every ambiguous list a document is constructed
  that the splitter cuts into two fragments with one id; the smallest family has ids `x`, `y` and `x,y`
  (`Collisions.CommasCollide`). Ids without commas are never ambiguous (`Runs.SplitIdsDistinct`). The program's own
  element ids are SHA-256 hex digests (src/astra_indexator/parser/model.py:102-121), so its parsers
  never produce the colliding input; ids from elsewhere can.
- Delays are monotone before the cap exactly when the jitter ratio is at most 1/3
  (`Backoff.MonotoneIffThird`); the configuration allows ratios up to 1.
- The splitter's guard errors on flushed groups and on fragments cannot occur. A split succeeds if and only
  if no word of an element has a grapheme cluster longer than the character guard and no unit over-counts:
  a single token, a piece of one, or a blank that alone exceeds the word guard (`Fragments.Split`, which also says
  which of the two errors each failing document gets).
- The "not connected" error of block validation cannot occur (`Validation.ValidateLogicalBlocks`).

## Model

| member | source | states |
|---|---|---|
| `Coordinator.JobStore.ClaimNext` | src/astra_indexator/application/coordinator.py:44-147 | claims exactly a claimable job, under a fresh generation that then owns the row, closing an abandoned attempt; otherwise changes nothing; keeps the lifecycle invariant |
| `Coordinator.JobStore.Renew` | src/astra_indexator/application/coordinator.py:149-161 | extends the lease exactly for a token that owns an unexpired PROCESSING row |
| `Coordinator.JobStore.SetStage` | src/astra_indexator/application/coordinator.py:163-181 | a stage change needs a non-blank stage and the fence |
| `Coordinator.JobStore.MarkCompleted` | src/astra_indexator/application/coordinator.py:183-209 | a token returned by a claim completes exactly while it owns the row; job and attempt change together or not at all |
| `Coordinator.JobStore.RetryLater` | src/astra_indexator/application/coordinator.py:211-251 | fenced move to RETRY_WAIT, all or nothing |
| `Coordinator.JobStore.HandleFailure` | src/astra_indexator/application/retry_policy.py:119-239 | abandon, reconcile, retry, dead letter or fail by class and budget; a scheduled retry has an attempt left; a stale lease changes nothing |
| `Coordinator.ClaimLifecycle` | src/astra_indexator/application/coordinator.py:81-147 | a claim keeps generation = attempt count = number of attempts and exactly the last attempt open |
| `Coordinator.ClaimKeepsIssued` | src/astra_indexator/application/coordinator.py:87-121 | tokens issued earlier keep naming their own attempt |
| `Coordinator.FinishLifecycle` | src/astra_indexator/application/coordinator.py:271-297 | a fenced release closes the owner's attempt and never fails half way for an issued token |
| `Leases.ClaimableExactly` | src/astra_indexator/application/coordinator.py:53-76 | a job with attempts left is claimable when it is new, when its retry is due, or when it is PROCESSING and no token owns it; never once terminal |
| `Leases.ClaimGivesLease` | src/astra_indexator/application/coordinator.py:81-124 | a claim gives its token, and no other, the job for exactly the lease |
| `Leases.ClaimAttempts` | src/astra_indexator/application/coordinator.py:81-147 | a claim adds the next attempt and closes an abandoned one as LEASE_EXPIRED; every other attempt stays as it was |
| `Leases.ClaimEndsOthers` | src/astra_indexator/application/coordinator.py:81-124 | after a claim no token issued before owns the job, now or later |
| `Leases.HeartbeatExtends` | src/astra_indexator/application/coordinator.py:149-161 | after a renewal the owner, and nobody else, owns the job until the new end and not longer; nothing else changes |
| `Leases.StageOnly` | src/astra_indexator/application/coordinator.py:163-181 | a stage change writes the stage and nothing else |
| `Leases.CompleteMeans` | src/astra_indexator/application/coordinator.py:183-209 | completion needs the fence, closes only the owner's attempt, and nobody owns or claims the job ever after |
| `Leases.FailureMeans` | src/astra_indexator/application/retry_policy.py:119-239 | each failure class leaves the job alone, makes it claimable exactly from the retry time on, or ends it, closing only the owner's attempt; only transient and dependency failures are retried |
| `Delivery.DeliveryRepository.Bind` | src/astra_indexator/persistence/delivery.py:52-82 | the session is write-once; another session is an integrity error and nothing changes |
| `Delivery.DeliveryRepository.Prepare` | src/astra_indexator/persistence/delivery.py:84-152 | stages only the next index, replays a pending one, skips an accepted one; rows stay ordered and only grow |
| `Delivery.DeliveryRepository.Accept` | src/astra_indexator/persistence/delivery.py:154-200 | accepts only the prepared next batch, idempotently; rows stay ordered and only grow |
| `Delivery.PrepareSafe` | src/astra_indexator/persistence/delivery.py:84-152 | a prepared batch is skipped exactly when its index is below next, else it is the next one |
| `Delivery.AcceptSafe` | src/astra_indexator/persistence/delivery.py:154-200 | next moves past the batch, by at most one, and no other row or fenced field moves |
| `Delivery.PrepareSucceeds` | src/astra_indexator/persistence/delivery.py:84-152 | in ordered rows no batch up to next that agrees with its row is refused |
| `Delivery.AcceptSucceeds` | src/astra_indexator/persistence/delivery.py:154-200 | in ordered rows a batch that agrees with its row is always acceptable |
| `Delivery.OutcomesExactly` | src/astra_indexator/persistence/delivery.py:84-200 | a bound session takes a batch exactly when its index is not beyond next and its row, if any, has the same hash, count and length; accepting needs the row; each error in exactly the other cases |
| `Delivery.EffectsExactly` | src/astra_indexator/persistence/delivery.py:84-200 | preparing adds at most the PREPARED row of the next batch; accepting that batch changes its status, next, last accepted and the session status, and an accepted one nothing |
| `DurableAppend.Deliver` | src/astra_indexator/application/durable_append_delivery.py:142-220 | succeeds exactly when no row contradicts the plan and every ownership check, window check and call of every turn passes; otherwise the error is that of the first turn that fails; sends each batch from the old next index on once, in order, and only behind an open window; success accepts the whole plan |
| `DurableAppend.DeliverOne` | src/astra_indexator/application/durable_append_delivery.py:173-219 | one turn ends well exactly if prepare, window, call and accept each pass, with the error of the first that does not; it calls exactly behind a passed window check, and next moves only for an answered call under a kept lease |
| `DurableAppend.EndIsUnique` | src/astra_indexator/application/durable_append_delivery.py:173-219 | a delivery that fails does so in one way: the turn, the error and what was sent are determined by rows, plan and environment |
| `ProtocolSafety.RunnerGood` | src/astra_indexator/application/astravector_delivery_coordinator.py:135-207 | every step of every worker keeps its knowledge true, the rows ordered and growing, and touches the job row only as a fenced stage change or completion |
| `ProtocolTheorems.ApplyInv` | src/astra_indexator/application/durable_append_delivery.py:109-220 | every event of the system keeps the invariant |
| `ProtocolTheorems.RunKeepsInv` | src/astra_indexator/application/durable_append_delivery.py:109-220 | the invariant holds after every run |
| `ProtocolTheorems.RemoteAlwaysMirrorsRows` | src/astra_indexator/application/durable_append_delivery.py:159-220 | in every interleaving the remote holds batches 0..next-1, possibly also the one prepared batch next, each with the hash of its durable row, in one session |
| `ProtocolTheorems.OneValidToken` | src/astra_indexator/application/coordinator.py:253-261 | at most one issued token is valid |
| `ProtocolTheorems.InvalidForEver` | src/astra_indexator/application/coordinator.py:44-147 | a token that expired, was superseded or was released never becomes valid again |
| `ProtocolTheorems.InvalidTokenIsInert` | src/astra_indexator/application/durable_append_delivery.py:48-64 | a step under an invalid token changes neither job row nor attempts nor session, batch rows, next index, final hash, fingerprint or zone |
| `ProtocolTheorems.JobLifecycle` | src/astra_indexator/application/coordinator.py:66-124 | after every run generation = attempt count = attempts <= max, attempt i has generation i, PROCESSING iff the last attempt alone is open, RETRY_WAIT has budget left |
| `ProtocolTheorems.TerminalAbsorbing` | src/astra_indexator/application/coordinator.py:53-76 | terminal statuses are absorbing |
| `ProtocolTheorems.CompletedMeansDelivered` | src/astra_indexator/application/astravector_delivery_coordinator.py:135-207 | a COMPLETED job has every planned batch accepted, final hash and zone durable, and a last status that is searchable and fully synced |
| `ProtocolTheorems.CompletionIsFenced` | src/astra_indexator/application/astravector_delivery_coordinator.py:344-347 | only the holder of the valid token takes the step to COMPLETED |
| `ProtocolReplay.EveryBlockExactlyOnce` | src/astra_indexator/application/durable_append_delivery.py:172-220 | when all workers reconstruct one document in any block order, as soon as the rows accept the whole plan the remote session holds exactly the plan, every block once and in order, whatever became of the workers |
| `ProtocolReplay.NoResendUnderLease` | src/astra_indexator/persistence/delivery.py:105-129 | over every run a worker with a valid lease only sends and accepts the batch that is next |
| `ProtocolReplay.HelpedTurn` | src/astra_indexator/application/durable_append_delivery.py:172-220 | with lease and calls holding, no turn meets an integrity or sequence error, whatever others left behind |
| `ProtocolReplay.ReplayDelivers` | src/astra_indexator/application/durable_append_delivery.py:142-220 | from any reachable state, accepted batches or not, and under any interference, an owner whose lease and calls hold never stops inside its loop, leaves it with the whole plan accepted after a bounded number of turns, and the plan stays accepted |
| `ProtocolReplay.ReplayPossible` | src/astra_indexator/application/durable_append_delivery.py:142-220 | such a run exists from any state of the invariant where the owner's window is open and its awaited call is in flight: a schedule without claims that leaves the loop with the whole plan accepted |
| `ProtocolReplay.CompletedHoldsDocument` | src/astra_indexator/application/astravector_delivery_coordinator.py:135-207 | a COMPLETED job leaves the remote session holding exactly the plan of its document |
| `ProtocolReplay.WindowExcludesOthers` | src/astra_indexator/application/durable_append_delivery.py:66-106 | if the window check passes, the lease is not shortened and the call ends within margin plus deadline, then nobody claimed the job meanwhile and the caller's token is still valid |
| `CallWindow.WindowMeans` | src/astra_indexator/application/durable_append_delivery.py:66-106 | the window is open exactly when the token without renewal would own the row at every moment until deadline and margin have passed |
| `CallWindow.CallIsChecked` | src/astra_indexator/application/durable_append_delivery.py:189-200 | whatever event brings a worker to a Start, Append or Finalize call is its own window check, taken in a state in which its window was open |
| `CallWindow.CallsFollowChecks` | src/astra_indexator/application/durable_append_delivery.py:189-200 | in every run, behind every worker at a mutating call there is a window check that it passed, with nothing of its own in between |
| `CallWindow.CallKeepsOwner` | src/astra_indexator/application/durable_append_delivery.py:189-200 | from that check on, in every continuation that keeps the lease, the token is valid and nobody claims until deadline and margin have passed |
| `CallWindow.OnlyCallsReach` | src/astra_indexator/application/durable_append_delivery.py:200 | nothing is put on the network and no session started but by a worker at its call, with the batch it stands at |
| `CallWindow.StaleTurnStops` | src/astra_indexator/application/durable_append_delivery.py:48-64 | a worker without a valid token stops at every step that is fenced, without any effect |
| `CallWindow.ActivationIsFenced` | src/astra_indexator/application/vector_activation.py:106-137 | the activation call and the polls behind it start under a valid token |
| `Answers.AnswersAreHeard` | src/astra_indexator/application/astravector_delivery_coordinator.py:135-207 | a worker gets past a Start, Append, Finalize, activation or status call only by an answer to its own call: a session, an acknowledgement, a zone with its status, or a status that evaluates to searchable |
| `Contract.OneFingerprint` | src/astra_indexator/application/astravector_delivery_coordinator.py:268-281 | in every run all workers past the fingerprint check carry the durable fingerprint, and so one and the same |
| `Stages.StageNamesPhase` | src/astra_indexator/application/astravector_delivery_coordinator.py:149-198 | in every run the stage of an owned job names the phase its owner is in |
| `Recovery.RecoveryPossible` | src/astra_indexator/application/astravector_delivery_coordinator.py:135-207 | after every run in which all workers carried one document under one contract, whatever they left half done, a claimable job can be claimed and carried through to COMPLETED without another claim, and the remote then holds exactly the document |
| `Greedy.GoIsPartition` | src/astra_indexator/astravector/batching.py:87-115 | the greedy pieces are non-empty, in order, concatenate to the input and respect both limits |
| `Greedy.GreedyIsMinimal` | src/astra_indexator/astravector/batching.py:87-115 | no order-preserving partition within the limits has fewer pieces |
| `Greedy.OversizeRulesOutPartition` | src/astra_indexator/astravector/batching.py:93-97 | an input with an oversize item has no partition at all |
| `FullPieces.GoExactly` | src/astra_indexator/astravector/batching.py:87-115 | the greedy pieces are the one partition within the limits whose every piece would break a limit with the next item added |
| `Batching.Partition` | src/astra_indexator/astravector/batching.py:87-115 | returns a smallest admissible partition, and rejects exactly the inputs that have none |
| `Batching.Plan` | src/astra_indexator/astravector/batching.py:65-81 | the planner computes the reference plan or the first error |
| `Batching.OrderedIgnoresInputOrder` | src/astra_indexator/astravector/batching.py:117-128 | the canonical order, or the error, depends on the blocks and not on their input order |
| `Batching.PlanIgnoresInputOrder` | src/astra_indexator/astravector/batching.py:65-81 | any permutation of the blocks gives the same batches, indexes and hashes |
| `Batching.PlanCoversBlocks` | src/astra_indexator/astravector/batching.py:65-81 | a plan holds every block once in ascending order, in numbered non-empty batches with only the final one marked last |
| `Planning.OrderedExactly` | src/astra_indexator/astravector/batching.py:117-128 | an empty document, two blocks with one id, or else two with one position are rejected, each with its own error, and nothing else is |
| `Planning.PlanExactly` | src/astra_indexator/astravector/batching.py:65-128 | planning succeeds exactly for admissible blocks none of which is too large, and names the first block in document order that is |
| `Planning.PlanDetermined` | src/astra_indexator/astravector/batching.py:65-115 | the plan is the only batch sequence that holds every block once in ascending order, within the limits, as full as possible, numbered, with its own hashes and lengths |
| `Artifacts.EncodePartitioned` | src/astra_indexator/prepared_artifacts/service.py:235-271 | fails exactly when one record exceeds the byte limit, else writes the greedy groups with their digest, count and length |
| `Artifacts.PiecesMinimal` | src/astra_indexator/prepared_artifacts/service.py:262-271 | the groups respect both limits and are as few as any such grouping |
| `Parts.PiecesExactly` | src/astra_indexator/prepared_artifacts/service.py:262-271 | the groups are the one grouping within both limits that is as full as it can be |
| `Artifacts.StreamPart` | src/astra_indexator/prepared_artifacts/service.py:322-356 | the outcome depends on the bytes and not on the chunks, and an accepted part matches its byte count, digest and record count |
| `Parts.LinesExactly` | src/astra_indexator/prepared_artifacts/service.py:330-338 | lines and remainder are the only division of the bytes into newline-terminated lines and a rest without newline |
| `Parts.StreamedExactly` | src/astra_indexator/prepared_artifacts/service.py:335-356 | a line that is no object, a truncated record, a digest or length that differs, a record count that differs: each failure exactly when it is the first thing wrong; else the records of the non-blank lines in order |
| `Artifacts.PartRoundTrip` | src/astra_indexator/prepared_artifacts/service.py:322-356 | a written part reads back as exactly its records |
| `Artifacts.OnlyWrittenBytesAccepted` | src/astra_indexator/prepared_artifacts/service.py:350-356 | no other bytes are accepted for a written part |
| `Artifacts.Load` | src/astra_indexator/prepared_artifacts/service.py:304-320 | elements and fragments are the records of their parts in order, or the first failure, or a totals mismatch; it depends on the bytes and not on the chunks |
| `Parts.LoadedExactly` | src/astra_indexator/prepared_artifacts/service.py:304-320 | loading succeeds exactly when every part is accepted and both totals match, and returns the records of each kind part by part; else the failure of the first part not accepted, or the totals |
| `Artifacts.PublishLoadRoundTrip` | src/astra_indexator/prepared_artifacts/service.py:191-232 | publishing and loading returns every record in order, for all limits that admit each record |
| `ArtifactStore.ManifestTotals` | src/astra_indexator/prepared_artifacts/service.py:191-232 | the totals in a published manifest are the numbers of elements and fragments |
| `ArtifactStore.PublishedLoads` | src/astra_indexator/prepared_artifacts/service.py:304-320 | loading a published manifest returns exactly the published elements and fragments, for every chunking of the stored parts |
| `ArtifactStore.SameIdSameParts` | src/astra_indexator/prepared_artifacts/service.py:94-106 | equal artifact ids mean equal identity, compatibility and parts, byte for byte |
| `ArtifactStore.SameKeySameBytes` | src/astra_indexator/prepared_artifacts/service.py:191-232 | two publications that reach one object key write the same bytes there |
| `ArtifactStore.StepInv` | src/astra_indexator/prepared_artifacts/store.py:68-75 | every store request, with a non-atomic exists-then-put, keeps the store consistent with all publications |
| `ArtifactStore.PublicationSafety` | src/astra_indexator/prepared_artifacts/service.py:276-280 | in every interleaving with crashes anywhere no publisher meets a conflict, and a stored manifest has all parts stored with the recorded digests and lengths |
| `Publishing.ObjectsNeverChange` | src/astra_indexator/prepared_artifacts/store.py:68-75 | once stored, no object changes in any continuation, although put-if-absent is not atomic |
| `Publishing.PublisherFinishes` | src/astra_indexator/prepared_artifacts/service.py:191-232 | a publisher scheduled twice for each of its objects has stored them all, whatever the others do and wherever they stop |
| `Publishing.PublishedCanBeLoaded` | src/astra_indexator/prepared_artifacts/service.py:304-320 | what a publisher has published loads back from the shared store as exactly its records, after every continuation and in every chunking |
| `Publisher.ObjectStore.PutImmutable` | src/astra_indexator/prepared_artifacts/service.py:276-280 | a stored object never changes, and different bytes under its key are a conflict |
| `Publisher.Publish` | src/astra_indexator/prepared_artifacts/service.py:191-232 | succeeds exactly when the lease is held before every put and no object clashes, and has then stored all objects, manifest last; a lost lease stops it before the next put, a clash with other bytes is the conflict, each with the prefix stored before it |
| `Publisher.NoClash` | src/astra_indexator/prepared_artifacts/service.py:276-280 | a publication into the store creates no conflict for any other publication |
| `Publisher.RepublishIdle` | src/astra_indexator/prepared_artifacts/service.py:276-280 | publishing again what is stored changes nothing |
| `Sentence.SplitUnicode` | src/astra_indexator/splitter/sentence.py:253-317 | terminates with non-blank trimmed disjoint slices in order, only whitespace before, between and after them, cut as the reference scan cuts |
| `Sentence.Decide` | src/astra_indexator/splitter/sentence.py:271-308 | at each position: a cut exactly where the reference has one, or how far to move on; `Boundaries` says what that means |
| `Boundaries.SlicesEndWell` | src/astra_indexator/splitter/sentence.py:253-317 | of the slices returned each ends by a paragraph break, a run of terminals with its closers that ends a sentence, or the end of the text; none by a boundary within a run that reads on; and every run that ends a sentence ends one |
| `Boundaries.RunStaysWhole` | src/astra_indexator/splitter/sentence.py:292-300 | no sentence ends inside a run, free of whitespace, that continues as reported speech or as an open ellipsis |
| `Boundaries.ParagraphsPart` | src/astra_indexator/splitter/sentence.py:261-269 | no sentence holds any of a paragraph break |
| `Boundaries.CutExactly` | src/astra_indexator/splitter/sentence.py:271-308 | a run with its closers ends a sentence exactly when it is an ellipsis or a terminal, no reported speech goes on behind it, and an ellipsis may end here, or a lone period is not guarded and has whitespace or nothing behind it |
| `Sentence.TracedContent` | src/astra_indexator/splitter/sentence.py:253-317 | the sentences lose nothing but whitespace |
| `Sentence.BoundaryOffsets` | src/astra_indexator/verification/linguistic.py:60-73 | on the scanner's output it never fails and returns exactly the ends of the true slices, all but the last |
| `Chunks.GraphemeBoundedChunks` | src/astra_indexator/splitter/service.py:397-419 | fails exactly on a cluster longer than the guard, else packs the clusters |
| `Chunks.PackTextOk` | src/astra_indexator/splitter/service.py:397-419 | the pieces keep the text and each fits the guard |
| `Chunks.ForceTextChunks` | src/astra_indexator/splitter/service.py:366-395 | the loop computes the reference chunks and fails exactly when an over-long word cannot be cut |
| `Chunks.ForceTextOk` | src/astra_indexator/splitter/service.py:366-395 | forced chunks keep the text, are non-empty, meet the character guard, and meet the word guard unless they are a single token, a piece of one, or blank |
| `Chunks.SentenceChunks` | src/astra_indexator/splitter/service.py:164-217 | the loop computes the reference chunks of a sentence list; `Fullness.SentenceChunksFull` says what they are |
| `Chunks.GatherOk` | src/astra_indexator/splitter/service.py:174-217 | every unforced chunk meets the character, word and sentence guards |
| `Chunks.GatherContent` | src/astra_indexator/splitter/service.py:174-217 | the chunks keep the text of the sentences |
| `Filling.FillIsFilled` | src/astra_indexator/splitter/service.py:174-217 | holding items until one more would be too much gives consecutive runs, each never too much, each full when a run follows |
| `Filling.FilledUnique` | src/astra_indexator/splitter/service.py:174-217 | there is only one such division of the items |
| `Fullness.SentenceChunksFull` | src/astra_indexator/splitter/service.py:174-217 | the chunks are the one division of the sentences into runs such that a run followed by a short sentence would, with it, exceed the characters, the words or the sentence count; long sentences are forced |
| `Fullness.FittingTextIsOneUnit` | src/astra_indexator/splitter/service.py:164-244 | sentences that fit together give one unit of all of them, not forced |
| `Fullness.ForcedChunksFull` | src/astra_indexator/splitter/service.py:366-395 | a forced text is cut into runs of its words with no room for the next word, long words apart |
| `Fullness.WordPiecesFull` | src/astra_indexator/splitter/service.py:397-419 | a long word is cut into runs of clusters with no room for the next cluster |
| `Fullness.RowRangesFull` | src/astra_indexator/splitter/service.py:300-363 | rows are divided into consecutive ranges with no room for the next row, oversized rows apart |
| `Forcing.TextForced` | src/astra_indexator/splitter/service.py:218-244 | the units of a text are forced exactly when there are several or a sentence was too long |
| `Forcing.TableForced` | src/astra_indexator/splitter/service.py:246-364 | the units of a table are forced from the second on, and the first exactly when its row was too long |
| `Units.TextUnits` | src/astra_indexator/splitter/service.py:164-244 | units of a text: its chunks, numbered |
| `Units.TextUnitsGood` | src/astra_indexator/splitter/service.py:164-244 | text units keep the text, meet the guards, and carry one id with continuations 0, 1, 2, ... |
| `Units.TableChunks` | src/astra_indexator/splitter/service.py:300-363 | the row loop computes the reference row ranges |
| `Units.RowChunksCover` | src/astra_indexator/splitter/service.py:263-364 | row ranges start at the first row, end at the last, and each begins after the previous one or continues the same oversized row |
| `Units.TableUnitsGood` | src/astra_indexator/splitter/service.py:246-364 | table units cover every row, keep the cells' text, meet the guards and are numbered |
| `Document.SortStable` | src/astra_indexator/splitter/service.py:132 | reading order is a stable sort by order_index |
| `Document.IterUnits` | src/astra_indexator/splitter/service.py:128-162 | yields the units of all elements in reading order, or of those before the first that cannot be cut |
| `Document.DocumentContent` | src/astra_indexator/splitter/service.py:128-162 | the units keep the text of every unsuppressed element, in order, and each is within the guards up to single tokens |
| `Document.DocumentNumbered` | src/astra_indexator/splitter/service.py:128-162 | with unique ids each element's units are contiguous and numbered upwards, also after empty ones are skipped |
| `Outline.HierarchyIsPath` | src/astra_indexator/splitter/service.py:139-142 | the hierarchy of a unit is the path of headings still open: each level holds the last heading of the document not closed by one at its level or above |
| `Outline.ListIntroMeans` | src/astra_indexator/splitter/service.py:144-155 | a list introduction stands exactly while only list items, blank or suppressed elements have followed a paragraph that ends with a colon |
| `Outline.UnitOrigin` | src/astra_indexator/splitter/service.py:128-364 | every unit comes from one unsuppressed element, with its id, kind, role and language, under the headings open there and with the list introduction or table header it must repeat |
| `Grouping.GroupUnits` | src/astra_indexator/splitter/service.py:70-110 | keeps the unit sequence; groups end exactly where a break rule says so, for the reason it gives; every group is within the hard guards; the only error is a unit that alone exceeds one |
| `Grouping.PlaceUnit` | src/astra_indexator/splitter/service.py:74-107 | placing a unit within the guards keeps every closed group and the buffer within the guards, with breaks where the rules say; so flush never raises its guard error |
| `Grouping.GroupingUnique` | src/astra_indexator/splitter/service.py:70-109 | the break rules determine the groups: any two groupings of one unit sequence that obey them are equal |
| `Seams.GroupsEndAtSeams` | src/astra_indexator/splitter/service.py:70-109 | in terms of sizes, headings and kinds: no unit inside a group meets one of the four guards, the unit behind each group meets the one its reason names and none before it, and only the hard guard forces |
| `Seams.OneSectionOneGroup` | src/astra_indexator/splitter/service.py:70-109 | units under one heading path that fit the soft limits together stay one group |
| `Seams.GroupsAreFull` | src/astra_indexator/splitter/service.py:87-107 | under one heading path a group is closed only when with the next unit it would exceed a hard or soft limit |
| `Grouping.ConsolidateSmallGroups` | src/astra_indexator/splitter/service.py:421-463 | the in-place loop computes the reference consolidation; the rules that determine it are the next rows |
| `Settling.SettledByRules` | src/astra_indexator/splitter/service.py:421-463 | the result's groups stand for consecutive original groups, joined and left apart by two rules: a small group takes in its successor, or else joins what stands before it |
| `Settling.SettlingUnique` | src/astra_indexator/splitter/service.py:421-463 | those rules leave no choice: they determine how the groups settle |
| `Settling.LonelySmall` | src/astra_indexator/splitter/service.py:421-482 | a small group that stays alone is compatible neither with the group the result holds before it nor with the original group behind it |
| `Settling.PairSettles` | src/astra_indexator/splitter/service.py:426-462 | two neighbours without exceptional units, under one parent heading, within the hard guards together, one of them small, become one group |
| `Grouping.ConsolidatedParts` | src/astra_indexator/splitter/service.py:421-482 | the result merges runs of neighbours: no exceptional unit in a merged run, one parent heading, at most one group not small, within the hard guards, forced if any was |
| `Grouping.ConsolidationKeeps` | src/astra_indexator/splitter/service.py:421-482 | the flattened units and the guards are kept, and every group with a table, code or exception-role unit stays as it was |
| `Fragments.SourceIdsOnce` | src/astra_indexator/splitter/service.py:547-551 | source ids are the ids of the units, each once |
| `Fragments.MaxContinuationMax` | src/astra_indexator/splitter/service.py:576 | the continuation is the highest among the units |
| `Fragments.RowFromLeast` | src/astra_indexator/splitter/service.py:577 | the first row is the least one among the units with rows, and absent exactly when no unit has rows |
| `Fragments.RowToGreatest` | src/astra_indexator/splitter/service.py:578 | the last row is the greatest one among the units with rows, and absent exactly when no unit has rows |
| `Fragments.FragmentTypeMeans` | src/astra_indexator/splitter/service.py:645-659 | each fragment type but OTHER is given exactly when the units are all of its kinds, SECTION exactly when one is a heading |
| `Fragments.GroupsDiffer` | src/astra_indexator/splitter/service.py:576-600 | of two groups with equal source ids the later has the higher continuation |
| `Fragments.IdentitiesDistinct` | src/astra_indexator/splitter/service.py:545-600 | fragments of one document pairwise differ in source ids or continuation |
| `Fragments.FailsIffLongCluster` | src/astra_indexator/splitter/service.py:366-419 | an element cannot be cut exactly when a word of its text or of one of its rows has a cluster longer than the character guard |
| `Fragments.TooLargeIffOverCounting` | src/astra_indexator/splitter/service.py:84-87 | a unit of the reader alone exceeds a guard exactly when it is a single token, a piece of one, or blank, with more words than the word guard |
| `Fragments.Split` | src/astra_indexator/splitter/service.py:70-126 | succeeds exactly when no element has an over-long cluster and no unit over-counts, and names the error of the first obstacle in reading order; without whitespace the fragments equal the unsuppressed element texts in order; every fragment meets all guards; identities are distinct; no flush or fragment guard error |
| `Identity.JoinInjective` | src/astra_indexator/splitter/service.py:581-599 | joined fields free of the separator determine the fields |
| `Identity.SameIdIff` | src/astra_indexator/splitter/service.py:581-600 | with separator-free ids two fragments share an id exactly when comma-joined source ids, text, type, continuation and row range agree |
| `Identity.SameIdSameIdentity` | src/astra_indexator/splitter/service.py:581-600 | equal fragment ids mean equal sources, continuation and text when ids hold no comma |
| `Identity.SameIdSameOrigin` | src/astra_indexator/splitter/service.py:581-600 | equal ids mean equal documents, versions and profile fields too |
| `Runs.FragmentsPrecede` | src/astra_indexator/splitter/service.py:547-551 | the source ids of an earlier fragment are picked, in order, from the element ids up to where those of a later one begin |
| `Runs.UnambiguousIdsDistinct` | src/astra_indexator/splitter/service.py:581-600 | unambiguous element ids give distinct fragment ids in every split of every document |
| `Runs.SplitIdsDistinct` | src/astra_indexator/splitter/service.py:581-600 | in particular unique ids free of commas and of the separator do |
| `Collisions.AmbiguousCollides` | src/astra_indexator/splitter/service.py:585 | for every ambiguous list of unique ids there is a document with these ids that splits into two fragments with one id |
| `Collisions.SafeIffUnambiguous` | src/astra_indexator/splitter/service.py:581-600 | a list of unique separator-free ids is safe for every profile and document if and only if it is unambiguous |
| `Collisions.CommasCollide` | src/astra_indexator/splitter/service.py:585 | for all distinct x and y, some document with ids x, y and "x,y" splits into fragments with one id |
| `Collisions.SplitsIntoOne` | src/astra_indexator/splitter/service.py:70-126 | a document and a profile determine the fragments |
| `Policy.SearchableMeansSynced` | src/astra_indexator/astravector/policy.py:104-224 | SEARCHABLE means nothing failed, pending or missing and, when bindings are expected, all of them synced |
| `Policy.DispositionMeans` | src/astra_indexator/astravector/policy.py:104-224 | which statuses contradict themselves, and for all others exactly when the answer is searchable, ready, terminal or wait |
| `Policy.FailuresMean` | src/astra_indexator/astravector/policy.py:58-93 | exactly which failures are retried with backoff and which are reconciled; all others are permanent |
| `Policy.ContainsMeans` | src/astra_indexator/astravector/policy.py:75-81 | a marker is found exactly when it stands somewhere in the message |
| `Reconcile.SendAndRead` | src/astra_indexator/application/finalize_reconciliation.py:155-237 | for every remote the loop ends with a legal trace: a re-send repeats the command right after ACTIVE was read, FINALIZING is only polled |
| `Reconcile.LegalBounded` | src/astra_indexator/application/finalize_reconciliation.py:152-211 | a legal trace has at most max attempts sends and max polls + max attempts - 1 reads |
| `Reconcile.TraceUnique` | src/astra_indexator/application/finalize_reconciliation.py:155-237 | the remote's answers determine the exchange: only one trace follows the rules to their end, so no call is left out or added |
| `Reconcile.ReconcilesExactly` | src/astra_indexator/application/finalize_reconciliation.py:81-95 | through the shared classifier, Finalize reconciles exactly after deadline, unavailable, aborted, or a precondition that says the session moved on and not that a hash differs |
| `Reconcile.Finalize` | src/astra_indexator/application/finalize_reconciliation.py:136-237 | the outcome is determined by the last call: direct ack, reconciled COMPLETED, pending, terminal, integrity or transport error |
| `Reconcile.Abort` | src/astra_indexator/application/abort_reconciliation.py:95-172 | the same discipline for Abort; COMPLETED is a conflict, FAILED and EXPIRED are already terminal |
| `Readiness.WaitUntilReady` | src/astra_indexator/application/vector_readiness.py:75-116 | observes at most max polls statuses, all WAIT but the last, whose verdict is the result |
| `Readiness.WaitForActive` | src/astra_indexator/application/vector_activation.py:140-172 | each status is seen right after a passed lease check, at most max polls of them; only SEARCHABLE succeeds, and terminal states keep polling |
| `Readiness.ActivateUntilSearchable` | src/astra_indexator/application/vector_activation.py:73-138 | the exact outcome in every environment: what was seen before, whether activation was called, what was polled after it under which lease checks, and the one result each ending has |
| `Readiness.OutcomeTrace` | src/astra_indexator/application/vector_activation.py:104-138 | activation is called exactly when the first status that is not WAIT says READY_TO_ACTIVATE and the lease is then held; at most once; a lost lease is reported exactly when a check in the trace failed |
| `Readiness.SucceedsExactly` | src/astra_indexator/application/vector_activation.py:73-172 | it succeeds exactly when the environment lets it: searchable at once, or ready, with every lease check passed and a searchable status within the budget of polls behind consistent ones |
| `Readiness.SearchableResult` | src/astra_indexator/application/vector_activation.py:73-172 | a result is the last status seen, searchable and fully synced |
| `Backoff.DelayBounds` | src/astra_indexator/application/retry_policy.py:71-82 | every delay is in [0, max] and within the jitter ratio of the capped exponential up to rounding |
| `Backoff.DelaysNeverDecrease` | src/astra_indexator/application/retry_policy.py:71-82 | with jitter at most 1/3 the next delay before the cap is never shorter, whatever the hashes |
| `Backoff.MonotoneIffThird` | src/astra_indexator/application/retry_policy.py:37-50 | monotone for all configurations and hashes if and only if the ratio is at most 1/3 |
| `Validation.Walk` | src/astra_indexator/astravector/validation.py:98-115 | the walk ends on every input, succeeds exactly when parent links reach the root, and names a block that really lies on a cycle |
| `Validation.Register` | src/astra_indexator/astravector/validation.py:50-72 | accepts exactly unique non-blank ids and unique non-negative order indexes, and finds the DOCUMENT blocks; otherwise names the first block that cannot be registered and the first thing wrong with it |
| `Validation.ValidateLogicalBlocks` | src/astra_indexator/astravector/validation.py:39-117 | accepts exactly the trees rooted at the one DOCUMENT block; no lookup misses; every other document is rejected for the first thing wrong with it in the order of the checks; never reports "not connected" |

## Left out

- `Coordinator.JobStore.ClaimNext`: one job row; does not model priorities, creation order and skip-locked selection among jobs, because the fencing theorems are about one job and claims arrive as events.
- Processing stages before delivery, job-event audit rows, error codes and messages, timestamps other than lease and retry times.
- `Protocol` treats Finalize reconciliation and vector polling as environment replies; their loops and budgets are in `Reconcile` and `Readiness`, with statuses recorded in the delivery rows only in `Protocol`. The window law therefore covers the first Finalize call; its repeats make no further check.
- `DurableAppend` runs one owner without interference; interleavings are the subject of the `Protocol` modules.
- An expired PROCESSING job on its last attempt is not claimable, so no theorem says that every job ends; `Recovery` says that a claimable one can.
- Remote adapters, proto mapping and SeaweedFS: only their contracts appear, as parameters.
- Canonical JSON, SHA-256, hash normalisation and the textual form of object keys and part paths: keys and paths are structured values.
- `parse_manifest_bytes` and the manifest schema checks: the manifest is a value.
- ICU sentence backend, abbreviation tables, protected periods, reporting and ellipsis rules, language detection: parameters of `Sentence.Rules` and `Chunks.Linguistics`.
- Fragment context prefix, hierarchy, languages, pages and roles: they do not enter text, guards or identity.
- Persisted batch statuses other than PREPARED and ACCEPTED, and delivery rows of other jobs.
- Source-link security checks, linguistic scoring, OCR, parsers and acquisition: external libraries or one-branch checks.
- Floating-point rounding in jitter: the model is over the reals.
