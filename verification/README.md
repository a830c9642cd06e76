# Verification of the kevent gateway and relay

This project models the parts of the gateway and the relay whose correctness depends on more than one
function: the job protocol between gateway, Redis, Kafka, S3 and relay; the chunked encryption of S3 objects;
the service registry; the LLM response cache and its key; token accounting; the set of result consumers; and
the paged listing of a consumer's jobs. `dafny verify dfyconfig.toml` checks everything.

## How it is organised

| file | subject |
|---|---|
| `Protocol.dfy` | the job protocol as a state machine: one action is one external call of one handler or goroutine |
| `ProtocolInvariant.dfy` | its inductive invariant, proved for every action |
| `JobTheorems.dfy`, `JobReasons.dfy`, `SingleDelivery.dfy`, `Priority.dfy` | what holds in every reachable state, and where a record's outcome comes from |
| `JobLimits.dfy` | concrete runs showing what does not hold, or not without a hypothesis |
| `JobLoss.dfy`, `JobDelivery.dfy` | exactly when an accepted job, or the result of a completed one, can be lost |
| `Handlers.dfy` | the handlers as sequential code, every call of which is a step of the machine with any interference before it |
| `Replay.dfy` | one partition of the result topic: the fetch/commit loop, crashes and restarts |
| `Codec.dfy` | `encryptStream`, `decryptStream` and `EncryptedSize`, one model for the two identical files |
| `PathPattern.dfy`, `RegistryIndex.dfy`, `RegistryOrder.dfy`, `Registry.dfy` | `{model}` templates; the registry's indexes; the lookups against a scan of the configuration, and exactly when they depend on map iteration order; the registry as a class |
| `Json.dfy`, `CacheKey.dfy` | JSON values and their canonical text; the cache key |
| `Usage.dfy`, `LlmProxy.dfy`, `LlmTokens.dfy`, `LlmHandler.dfy` | usage parsing and the Anthropic translation; the cache machine; token conservation; `ServeJSON` |
| `AnthropicRequest.dfy`, `AnthropicMessages.dfy` | the request translation for Anthropic, exactly when the cache in front of it is transparent, and what is sent, said without the loops |
| `Reconcile.dfy` | `ConsumerManager.Start` and `Reconcile` |
| `JobStore.dfy`, `JobListing.dfy` | job records and consumer indexes with expiry; paging |
| `Wrappers.dfy`, `Sequences.dfy` | `Option`, `Result`, 64-bit wrap-around; picking elements in order, texts laid one after the other |

Outside services are parameters or atomic steps: AES-GCM is a pair of functions (`Codec.Aead`), SHA-256 and the
printing of JSON scalars are functions (`CacheKey.Encoding`), the inference backend is a relation
(`LlmProxy.World`), and each S3, Redis or Kafka call of the job protocol succeeds, fails without effect, or fails
after having taken effect. In `Replay.dfy`, `LlmProxy.dfy` and `JobStore.dfy`, time, expiry, crashes and the
outcome of calls are steps of a run. Go's map iteration order is nondeterministic wherever the code iterates.

## Assumptions

- Job ids are fresh: a job is created once.
- A publish of an input event that reports an error did not enqueue the event. The fact `Abandoned` marks jobs for
  which a publish reported an error, and the guarantees that need the assumption exclude them;
  `JobLimits.FalsePublishErrorLosesInput` shows that they must.
- `SubscribeJobDone` is atomic: once it returns, notifications reach the subscription.
- A GET by anyone but the waiting handler, and the expiry of a record, mark the job `Disturbed`; the two guarantees
  about reading records back exclude such jobs.
- Opening undoes sealing, and sealing adds 16 bytes (`Codec.Opens`, `Codec.Sized`). For truncation, opening accepts
  under each nonce only what was sealed under it (`Codec.Authentic`, `Codec.Genuine`); `Codec.AuthenticCipherExists` shows
  that such a cipher exists for every plaintext under 2^48 bytes.
- The texts of JSON numbers and characters can be told apart (`Json.Readable`), and the hash has no collisions
  (`CacheKey.Faithful`).
- An Anthropic body that was translated is decoded as it was marshalled (`LlmTokens.Coherent`); every decoder that yields
  64-bit integers and reads back what is marshalled of such values meets this, and there is one
  (`LlmTokens.SixtyFourBitsSuffice`, `LlmTokens.CoherentExists`).
- For the request translation, marshalled objects are read back, all requests to Anthropic go to one URL, and a field is
  decided by the members whose names equal its own up to case (`AnthropicRequest.Speaks`, `Resolves`); the result about the
  cache compares requests that agree on the members spelled otherwise. `AnthropicRequest.SpeaksExists` constructs such a
  world for any backend and any way of folding case.
- A consumer group without a committed offset starts at the tail of the topic, and committed offsets do not get lost.
- Gateway and Redis share a clock, and the records' time to live is positive, as the configuration defaults ensure.

## What turned out not to hold as described

- `GetStatus` is commented as cleaning up after delivering the result, but it also deletes the result when reading it
  failed (internal/handler/jobs.go:316-343): `JobDelivery.ServingCleansUp`. So a completed job can lose its result exactly
  as long as nobody has read it: `JobDelivery.CanLoseResultIff`; `JobLimits.ResultDeletedUndelivered` is such a run.
- The relay swallows a failed publish of a completed event and deletes the input (relay/internal/relay/relay.go:179-183),
  after which the job can stay pending for ever: `JobLimits.CompletedEventCanBeLost`, `JobLimits.StuckForever`. Nothing else
  loses an accepted job (`JobTheorems.LostOnlyBySwallowing`, `JobLoss.StuckOnlyBySwallowing`), and it can happen exactly as
  long as no event of the job is logged (`JobLoss.CanGetStuckIff`).
- A completed or failed status is final exactly as long as the job's result events agree; one event that disagrees can
  overturn it by redelivery: `JobTheorems.FinalWhileEventsAgree`, `JobTheorems.OverturnedByRedelivery`.
- A message that could not be handled is said to be reprocessed after a restart (internal/kafka/consumer.go:160-164). It is,
  exactly when the group had a committed offset and nothing from this message on has been committed since:
  `Replay.RefetchedIff`. Otherwise its job keeps its record: `Replay.LaterCommitPassesFailure`, and before the first commit,
  where a restart goes to the tail (internal/kafka/consumer.go:139-141), `Replay.TailStartSkips`.
- A source that ends with an `io.ErrUnexpectedEOF` of its own, as the body of a broken HTTP connection does, is taken for one
  that ended (internal/crypto/aes.go:140-142, 188-190). Encryption then seals what there was of the plaintext and reports no
  error: `Codec.EncryptStream`, `Codec.StoreTruncated`. Decryption notices it, unless everything had arrived:
  `Codec.DecryptStream`, `Codec.CutIsNoticed`.
- At positive multiples of 2^48 bytes the chunk counter has wrapped, one more empty chunk is sealed under a nonce
  already used, and `EncryptedSize` is 16 bytes short: `Codec.WrapSealsAnEmptyChunk`, `Codec.SizeIsStreamLength`.
- `Key` and `rewriteBodyModel` panic on the JSON body `null` (internal/cache/key.go:44, internal/llmproxy/handler.go:231):
  `LlmHandler.Handler.ServeJSON`.
- The cache key omits the URL path: two paths of one definition can answer for each other. `LlmProxy.TransparentIff`
  gives the exact condition. In front of Anthropic, with the backend's model name filled in, neither the path nor a member
  that no field is decoded from matters, but a `stream` that is neither boolean nor null shares its key with a good request
  and is answered from the cache, while it would be refused directly: `AnthropicRequest.AnthropicTransparentIff`. Members
  spelled in another case, such as `Max_Tokens` or `Stream`, share the key as well, but Go decodes them and they are sent:
  `AnthropicRequest.SpellingReaches`, `AnthropicRequest.StreamSpellingReaches`. Without the backend's model name requests that
  share a key may still differ in the client's model name and in integers that round alike:
  `AnthropicRequest.UnrenamedDiffer`, `AnthropicRequest.ClientModelReaches`.
- When two operations of one configuration entry have templates (or wildcards) that fit a path, the map iteration order can
  decide the answer; `RegistryOrder.OrderIndependentIff` says exactly when. A later duplicate of a (type, model) pair leaves a
  stale default, and so does one of a (path, model) pair: `RegistryIndex.DefaultCurrentIff`,
  `RegistryIndex.PathDefaultCurrentIff`.
- With duplicate initial topics, `Start` leaks a consumer that no reload ever stops: `Reconcile.LeakedConsumerStays`,
  `Reconcile.OneConsumerIff`.
- Listings are newest first to the second only: exactly as far as the ids of jobs of one second grow with time
  (`JobListing.NewestFirstIff`). A job updated late can outlive its index entry (`JobListing.LateUpdateNotListed`); a stored
  job is listed exactly until the expiry that its index was last given with it (`JobListing.PagesListEveryJob`).

## Model

| member | source | states |
|---|---|---|
| ProtocolInvariant.NextInv | relay/internal/relay/relay.go:61-183 | every call of every handler keeps the protocol invariant, whether it succeeds, fails, or fails after taking effect |
| ProtocolInvariant.RunInv | internal/handler/sync.go:225-366 | so does every interleaving of handlers, goroutines, redeliveries, crashes and expiries |
| ProtocolInvariant.NextIsEffect | internal/handler/jobs.go:181-240 | besides bookkeeping an action changes the services only by the effect of its one call |
| JobTheorems.InputOutlivesNeed | relay/internal/relay/relay.go:93-183 | an enqueued job has its input stored, or its result was put, or a failed event for it is in the log |
| JobTheorems.LostOnlyBySwallowing | relay/internal/relay/relay.go:165-183 | unless a failed publish of its completed event was swallowed, an enqueued job has its input stored or an event of it logged |
| JobTheorems.AcknowledgedWhenSettled | relay/internal/relay/relay.go:93-109 | the relay answers 200 only when an event of the job is logged, or its result was put and the publish swallowed |
| JobTheorems.RecordsTellTheTruth | internal/storage/redis.go:194-206 | a record is pending and bare, failed with an error, or completed with its own result, put before and gone only by a cleanup |
| JobReasons.RecordsSayWhy | internal/kafka/consumer.go:178-180 | a failed record's error is that of a logged failed event of the job, or "failed to enqueue" after a publish that reported an error; a completed one repeats a logged completed event |
| JobReasons.EventsSayWhy | relay/internal/relay/relay.go:143-183 | every logged event is the completed event of its job, with its result reference and no error, or a failed one whose error is "inference: " and a message |
| JobReasons.InferenceReported | relay/internal/relay/relay.go:143-163 | when inference fails with a message the relay publishes just that message, and then removes the input |
| JobReasons.Compensates | internal/handler/jobs.go:228-241 | after a failed publish the record is marked failed with "failed to enqueue", the input is cleaned up and the answer is 500 |
| JobReasons.SyncPublishFails | internal/handler/sync.go:261-275 | a sync job whose publish failed is answered with 500, and its input and record are cleaned up |
| JobReasons.CompensationIsFinal | internal/handler/jobs.go:228-231 | if the publish had indeed no effect, the job stays marked so whatever follows, until its record goes |
| JobReasons.CleanupSteps | internal/handler/sync.go:335-350 | what each detached delete removes when it is applied, and that a failed first delete does not keep the second from being made |
| JobReasons.RelayCalls | relay/internal/relay/relay.go:115-183 | what each call of a relay request does to S3 and Kafka, applied or not, and that the input is dropped after the answer |
| JobReasons.GatewayCalls | internal/handler/jobs.go:181-241 | what each call of a gateway handler does to S3, Kafka and Redis, applied or not |
| JobReasons.ApplierCalls | internal/kafka/consumer.go:172-192 | what each call of handleResult does to Redis, field by field |
| JobTheorems.PutBeforePublish | relay/internal/relay/relay.go:165-183 | the result object of a completed event was put before the event was published |
| JobTheorems.NoResurrection | internal/storage/redis.go:110-119 | no step recreates a removed record or returns a decided one to pending |
| JobTheorems.DecidedStays | internal/storage/redis.go:194-206 | the single-step form: a decided record that survives a step is still decided |
| JobTheorems.NoLostWakeUp | internal/handler/sync.go:247-327 | when a notification has been accepted the sync handler had subscribed, and if it still waits its wait ends |
| JobTheorems.SubscribedThroughout | internal/handler/sync.go:247-358 | the subscription of a sync handler takes notifications from before its publish until its request ends |
| JobTheorems.NotificationArrives | internal/storage/redis.go:243-267 | a notification accepted while the handler is subscribed is in its mailbox in that step |
| JobTheorems.WokenHandlerReadsOutcome | internal/handler/sync.go:329-358 | a handler that leaves the wait loop reads a decided record, answers 422 to failed and fetches the job's own result if completed |
| JobTheorems.ReadBackFindsRecord | internal/kafka/consumer.go:178-192 | until a notification is accepted, the record updated by handleResult is there when it is read back |
| SingleDelivery.SingleDeliveryReadsBack | internal/kafka/consumer.go:178-192 | with a single delivery for the job the read inside handleResult never finds the record deleted |
| SingleDelivery.RunWeight | internal/kafka/consumer.go:172-192 | running handleResult calls and notifications of a job never outnumber its deliveries |
| JobTheorems.CleanedAfterDelivery | internal/handler/sync.go:335-350 | a result is removed only after it was read for a client or that read failed |
| JobTheorems.FinalWhileEventsAgree | internal/storage/redis.go:194-206 | a decided status is final while every result event of the job says the same |
| JobTheorems.OverturnedByRedelivery | internal/kafka/consumer.go:178-192 | one logged event that says otherwise can overturn it |
| JobTheorems.StatusFromEvents | internal/kafka/consumer.go:178-180 | a step that changes a decided status applies a logged event or follows a failed publish |
| JobLimits.CompletedEventCanBeLost | relay/internal/relay/relay.go:179-183 | a run after which an accepted job is pending with no input, no event and nobody to publish one |
| JobLimits.StuckForever | relay/internal/relay/relay.go:179-183 | such a job never gets an event and never leaves pending |
| JobLoss.CanGetStuckIff | relay/internal/relay/relay.go:165-183 | from a reachable state, an enqueued job can still get stuck for ever exactly when no event of it is logged |
| JobLoss.CanStillGetStuck | relay/internal/relay/relay.go:179-183 | the continuation that loses it: crashes, one more delivery, a swallowed publish, the delete of the input |
| JobLoss.StuckOnlyBySwallowing | relay/internal/relay/relay.go:179-183 | a job that is stuck for ever has had a publish swallowed |
| JobLimits.FalsePublishErrorLosesInput | internal/handler/jobs.go:228-240 | an enqueued event whose publish reported an error can lose its input |
| JobDelivery.ServingCleansUp | internal/handler/jobs.go:316-343 | a GET of a completed job reads the result exactly when the call succeeds and the object is there, and spawns the cleanup in any case |
| JobDelivery.FetchingCleansUp | internal/handler/sync.go:335-358 | so does the sync handler, which answers 200 exactly when it read the result |
| JobDelivery.CanLoseResult | internal/handler/jobs.go:316-343 | from any reachable state, one GET whose read fails loses the result of a completed job that was not delivered |
| JobDelivery.CanLoseResultIff | internal/handler/jobs.go:316-343 | a completed job can lose its result unread exactly as long as it has not been read |
| JobDelivery.MissingResult | internal/handler/sync.go:335-350 | in every reachable state the missing result of a completed job was read, or a failed read cleaned it up |
| JobLimits.ResultDeletedUndelivered | internal/handler/jobs.go:316-343 | a completed job's result can be deleted without having been delivered |
| JobLimits.OutsideGetBreaksReadBack | internal/kafka/consumer.go:184-189 | an outside GET can delete the record between update and read |
| JobLimits.RedeliveryBreaksReadBack | internal/kafka/consumer.go:184-192 | so can a second delivery racing with the cleanup of the woken handler |
| Priority.CounterCountsSyncRequests | relay/internal/relay/sync.go:17-25 | in every interleaving the counter of a pod equals its number of /sync requests in flight |
| Priority.GateOpensWhenIdle | relay/internal/relay/relay.go:61-69 | an async request passes the gate exactly when that number is zero, and else leaves with 503 |
| Priority.DeferredHasNoEffect | relay/internal/relay/relay.go:61-69 | a deferred request touches neither S3, Kafka nor Redis |
| Handlers.Process | relay/internal/relay/relay.go:115-183 | under any interference, no error means the outcome is secured, and an error leaves the request to be retried |
| Handlers.ServeEvent | relay/internal/relay/relay.go:73-110 | 200 only with the outcome secured, 500 otherwise |
| Handlers.ServeHTTP | relay/internal/relay/relay.go:61-69 | 503 exactly when a /sync request is in flight on the pod at the gate; 200 only with the outcome settled |
| Handlers.ServeHTTPSync | relay/internal/relay/sync.go:17-25 | the same for the priority endpoint, which is never deferred |
| Handlers.HandleResult | internal/kafka/consumer.go:172-192 | without an error the record got the event's status, reference and error, and was then found; only after that could anyone be notified; an error means nobody was |
| Handlers.Submit | internal/handler/jobs.go:176-240 | 202 exactly for a job that is enqueued and whose publish reported no error; once marking it failed succeeded, a remaining record says "failed to enqueue" |
| Handlers.HandleMultipartViaKafka | internal/handler/sync.go:225-366 | 200 only with the result read, 422 only after a notification, 504 only for an enqueued job |
| Handlers.AwaitResult | internal/handler/sync.go:300-366 | the same from the wait on |
| Handlers.GetStatus | internal/handler/jobs.go:276-344 | an inlined result was read; for a completed job a cleanup follows even when it was not |
| Replay.ReplayConverges | internal/kafka/consumer.go:139-180 | when updates fail only for records that are gone or not behind, and no start before the first commit skips an event of a stored job, then over any crashes every stored job has the status, reference and error of its last event once the partition is consumed |
| Replay.CaughtUp | internal/kafka/consumer.go:139-180 | over any run, once the partition is consumed a stored job was written from its last event, and has its status, reference and error, exactly when no event of it was passed since its last write |
| Replay.HarmlessExactly | internal/kafka/consumer.go:139-180 | with no stored record behind, a step leaves one behind exactly when it fails to write, or skips at the tail, an event newer than the record |
| Replay.HarmlessMissNothing | internal/kafka/consumer.go:160-164 | steps of that kind never leave a stored record behind |
| Replay.RefetchedIff | internal/kafka/consumer.go:139-168 | a restart after any further happenings fetches a message again exactly when the group had committed, not past it, and nothing from it on has been committed since |
| Replay.PassedStays | internal/kafka/consumer.go:139-168 | a message passed for good stays so |
| Replay.PassedKeepsRecord | internal/kafka/consumer.go:160-180 | a job whose events have all been passed for good keeps its record until another event comes or it is deleted |
| Replay.LaterCommitPassesFailure | internal/kafka/consumer.go:160-168 | a later commit can pass a message whose handling failed, and its job then stays pending whatever follows |
| Replay.TailStartSkips | internal/kafka/consumer.go:139-141 | so can a crash before the first commit |
| Replay.ResultConsumer.Consume | internal/kafka/consumer.go:147-180 | the loop, with crashes and other handlers between its turns, is a run of the machine and keeps its invariant |
| Replay.ResultConsumer.Turn | internal/kafka/consumer.go:147-168 | one turn of the loop is the machine's handling step; it commits exactly when the update and the read succeeded and the commit did |
| Replay.ResultConsumer.Drain | internal/kafka/consumer.go:147-168 | draining the partition brings exactly the stored jobs that were not passed over up to their last event, field by field |
| Codec.EncryptStream | internal/crypto/aes.go:105-147 | for any fragmentation writes a prefix of nonce prefix and sealed chunks, all of them if the sink takes them; an error exactly for a source that breaks with anything but an unexpected EOF, a full sink or no randomness |
| Codec.DecryptStream | internal/crypto/aes.go:150-195 | writes a prefix of the opened plaintext; an error exactly for an unclean stream, a broken source, a full sink, or an unexpected EOF where a chunk would start |
| Codec.EncryptChunk | internal/crypto/aes.go:127-146 | one loop turn ends the copy, with the error it reports, or writes exactly the next sealed piece |
| Codec.DecryptChunk | internal/crypto/aes.go:169-194 | one loop turn ends the copy, with the error it reports, or writes exactly the next opened piece |
| Codec.ReadFull | internal/crypto/aes.go:130-145 | fills the buffer from arbitrary fragments; ends short with EOF, unexpected EOF, or the error of the source, which may itself be an unexpected EOF |
| Codec.StoreTruncated | internal/crypto/aes.go:130-145 | a plaintext whose reader is cut is stored and loaded without error, as what there was of it |
| Codec.CutIsNoticed | internal/crypto/aes.go:169-194 | decrypting the first bytes of a stream from a cut connection reports no error exactly when they are all of it and its last chunk is short, and then the plaintext is complete |
| Codec.StoreAndLoad | relay/internal/crypto/aes.go:105-195 | encrypting and decrypting with any two fragmentations copies what the source gives without error |
| Codec.RoundTrip | internal/crypto/aes.go:105-195 | decrypting an encrypted stream gives exactly the plaintext, empty, aligned and wrapping ones included |
| Codec.ChunksJoin | internal/crypto/aes.go:127-138 | the sealed pieces join to the plaintext, all but the last full |
| Codec.Truncated | internal/crypto/aes.go:150-195 | every byte prefix yields whole chunks, and an error exactly inside the nonce prefix or a sealed chunk |
| Codec.Tampered | internal/crypto/aes.go:150-195 | whatever the sealed bytes are replaced by, only leading chunks of the plaintext are written, and the end is clean exactly for the leading sealed chunks in order |
| Codec.AuthenticCipherExists | internal/crypto/aes.go:150-195 | the assumptions of the truncation and tampering theorems can be met below 2^48 bytes |
| Codec.NoncesDistinct | internal/crypto/aes.go:123-128 | all chunk nonces differ exactly below 2^48 bytes (section 8 of NIST SP 800-38D) |
| Codec.WrapSealsAnEmptyChunk | internal/crypto/aes.go:127-138 | at 2^48 bytes an empty chunk is sealed again under the first nonce |
| Codec.NextCounter | internal/crypto/aes.go:127-128 | the 32-bit increment counts chunks modulo 2^32 |
| Codec.SizeIsStreamLength | internal/crypto/aes.go:59-74 | EncryptedSize is the written length exactly when it fits int64 and the plaintext is not a positive multiple of 2^48 |
| Codec.StreamLength | internal/crypto/aes.go:127-146 | the exact length of every stream |
| Codec.SizeOverflow | internal/crypto/aes.go:59-74 | EncryptedSize overflows exactly when the length does not fit int64, never below 2^48 |
| PathPattern.MatchInvertsSubstitution | internal/service/registry.go:84-121 | with one placeholder, a template matches a path with m exactly when m is non-empty, has no slash, and substituted gives the path |
| PathPattern.Match | internal/service/registry.go:84-103 | the loop over segments computes the recursive match |
| PathPattern.LastPlaceholderWins | internal/service/registry.go:90-102 | with two placeholder segments the last one wins |
| PathPattern.JoinSplit | internal/service/registry.go:86-86 | joining the segments of a path gives the path |
| RegistryOrder.RouteSyncAgrees | internal/service/registry.go:294-361 | in every order the operations may be visited in, RouteSync answers as a scan of the configuration does: exact path, else the first template or else wildcard of an operation of the first entry that has one; last writer, single model, default |
| RegistryOrder.SyncSays | internal/service/registry.go:294-361 | an answer is, field by field, an entry that lists a path or pattern that matches, and has the model of the path or the one asked for |
| RegistryOrder.WildcardFits | internal/service/registry.go:230-230 | a wildcard matches exactly the paths that begin with it up to and including its last slash |
| RegistryOrder.ShapeIff | internal/service/registry.go:184-204 | a path with the placeholder is a template, another one that ends in a slash and a star a wildcard, any other exact |
| RegistryOrder.PathsIff | internal/service/registry.go:180-188 | an entry is reachable under the non-empty paths of its operations exactly when it has a model and an inference URL or a sync topic |
| RegistryIndex.ResolveFinds | internal/service/registry.go:256-361 | a key and a model select the last entry of that model; no model selects the last entry if all have one model, else the last default, else the error naming the models |
| RegistryOrder.OrderIndependentIff | internal/service/registry.go:182-206 | the answer is the same for all orders of the operations exactly when the first fitting patterns of each operation of the first entry with one resolve alike |
| RegistryOrder.OrderIndependent | internal/service/registry.go:182-206 | in particular when no entry has two operations whose first fitting templates, or wildcards, differ |
| RegistryOrder.CandidateLeads | internal/service/registry.go:182-206 | each of those patterns is the one met first in some order of the operations |
| RegistryIndex.BuildReflects | internal/service/registry.go:142-249 | the built indexes hold, per path and pattern, the last entry of each model and the last default, patterns in order of first appearance |
| RegistryIndex.AddPathReflects | internal/service/registry.go:184-204 | indexing one more path keeps that |
| RegistryIndex.RouteAsyncAgrees | internal/service/registry.go:256-286 | RouteAsync answers as a scan of the configuration does |
| RegistryOrder.AsyncSays | internal/service/registry.go:256-286 | an answer by type is, field by field, the last entry of the type and model, or one of the type if no model was asked for; an unknown type, or model, is an error |
| RegistryIndex.DefaultCurrentIff | internal/service/registry.go:168-178 | the default of a type is the last entry marked so, and what its model name selects exactly when no later entry redefines that (type, model) pair |
| RegistryIndex.PathDefaultCurrentIff | internal/service/registry.go:184-247 | the same for the default of an exact path or a wildcard and its (path, model) pairs |
| Registry.Registry.NewRegistry | internal/service/registry.go:142-209 | the constructor builds these indexes in some order of the operations of each entry |
| Registry.Registry.IndexOperations | internal/service/registry.go:182-206 | visits the operations in any order and indexes the non-empty paths of each in their own order |
| Registry.Registry.IndexPath | internal/service/registry.go:184-204 | a path goes to the index of its shape |
| Registry.Registry.IndexRoute | internal/service/registry.go:213-249 | merges into the route of the pattern or appends one |
| Registry.Registry.RouteSync | internal/service/registry.go:294-361 | on a registry built from a configuration, answers as a scan of that configuration allows, with an entry that serves the path |
| Registry.Registry.RouteAsync | internal/service/registry.go:256-286 | on a registry built from a configuration, answers as a scan of that configuration does: the pair, the only model, the last default, or the error naming the models |
| Json.PrintInjective | internal/cache/key.go:64-74 | equal canonical texts are texts of equal JSON values at every depth (section 4 of RFC 8259) |
| Json.PrintUnique | internal/cache/key.go:64-74 | a printed value is read off unambiguously from what follows it |
| Json.SortedValueSame | internal/cache/key.go:76-117 | sortedValue returns an equal value |
| Json.KeysAscend | internal/cache/key.go:80-83 | keys are printed in ascending byte order, each once |
| Json.LeIff | internal/cache/key.go:80-83 | that order is the one by the first different character, prefixes first |
| CacheKey.Key | internal/cache/key.go:23-60 | the loop in any field order computes the key, with its not-cacheable, error and panic cases |
| CacheKey.KeyInjective | internal/cache/key.go:43-59 | cacheable bodies share a key exactly when provider and filtered fields, model overridden, are equal |
| CacheKey.KeyCounts | internal/cache/key.go:12-18 | two bodies that are not streamed share a key exactly when provider and registry model are the same and they agree on each of the sixteen other fields, named one by one |
| CacheKey.CacheableIff | internal/cache/key.go:23-41 | a body has a key exactly when it is an object that does not ask for a stream; null panics; anything else is an error, nothing at all is not |
| CacheKey.KeyTextInjective | internal/cache/key.go:58-58 | the same for the text that is hashed, for the providers that configuration allows |
| CacheKey.OrderBlind | internal/cache/key.go:64-117 | reordering the members of a body's objects, at any depth, does not change its key |
| CacheKey.IgnoredFields | internal/cache/key.go:10-18 | the client's model name, and any field but the sixteen and stream, does not change the key |
| Usage.TranslatedUsage | internal/llmproxy/provider/anthropic.go:218-235 | the input tokens are reported, and written, as prompt tokens, the output tokens as completion tokens, and their wrapping sum as the total |
| Usage.UsageRead | internal/llmproxy/provider/openai.go:38-52 | an OpenAI body reports its prompt_tokens and completion_tokens |
| Usage.TranslationKeepsUsage | internal/llmproxy/provider/anthropic.go:179-237 | a translated Anthropic body carries the usage reported for it |
| Usage.TranslatedText | internal/llmproxy/provider/anthropic.go:184-214 | the delivered message of the assistant is the texts of exactly the text blocks, one after the other in their order |
| Usage.TranslatedRest | internal/llmproxy/provider/anthropic.go:208-224 | id and model are kept, the object is a chat completion |
| Usage.TranslatedStop | internal/llmproxy/provider/anthropic.go:239-252 | there is one choice, and each stop reason has its finish reason |
| Usage.ReplyAccepted | internal/llmproxy/provider/anthropic.go:162-183 | a reply is refused exactly when it is no object or a member that is read has another type |
| Usage.AnthropicToOpenAI | internal/llmproxy/provider/anthropic.go:179-237 | the translation concatenates the text blocks in order and fails on what does not decode |
| LlmProxy.TransparentIff | internal/llmproxy/handler.go:65-195 | over all interleavings with delayed, failed and expired fills the cache is transparent exactly when requests that share a key share their successful answers |
| LlmProxy.TransparentOnOnePath | internal/llmproxy/handler.go:65-195 | for one definition and path: exactly when the counted fields decide the successful answers |
| LlmProxy.RunSound | internal/llmproxy/handler.go:179-195 | every cached or pending entry was a direct answer to a request with its key |
| LlmProxy.ReplayedDelivers | internal/llmproxy/handler.go:80-104 | a stored answer is delivered unchanged to the next request with its key |
| LlmProxy.CachedIff | internal/llmproxy/handler.go:65-78 | the cache is used exactly for requests without no-cache, to definitions with a time to live, whose body is an object that asks for no stream |
| LlmProxy.NameSelects | internal/llmproxy/provider/provider.go:51-57 | the provider name in a cache key selects the provider that is asked, and no other |
| LlmProxy.RewriteSetsModel | internal/llmproxy/handler.go:224-237 | for any provider, the forwarded body is the client's, with the backend's model in place of its own where one is set |
| AnthropicRequest.AnthropicTransparentIff | internal/llmproxy/provider/anthropic.go:18-40 | in front of Anthropic, with the backend's model name set, for requests that agree on members spelled in another case, the cache is transparent over all runs and paths exactly when no request with a malformed stream shares its key with one that can succeed |
| AnthropicRequest.SharedKeySentAlike | internal/llmproxy/provider/anthropic.go:79-150 | then requests that share a key are sent alike, or refused for their stream |
| AnthropicRequest.CountedFieldsDecide | internal/llmproxy/provider/anthropic.go:61-72 | the translation is decided by fields that the cache key counts, and stream |
| AnthropicRequest.SpellingReaches | internal/llmproxy/provider/anthropic.go:61-72 | a token limit under another spelling leaves the key as it is and reaches Anthropic |
| AnthropicRequest.StreamSpellingReaches | internal/cache/key.go:33-41 | so does a stream that is true under another spelling, and the key does not stand aside for it |
| AnthropicRequest.UnrenamedDiffer | internal/llmproxy/handler.go:110-118 | without that name, translated requests that share a key differ in model and max_tokens at most |
| AnthropicRequest.ClientModelReaches | internal/cache/key.go:43-44 | and in the model they do: the client's name reaches Anthropic and not the key |
| AnthropicRequest.OpenAIToAnthropic | internal/llmproxy/provider/anthropic.go:79-150 | the loops collect system texts, turns and stop sequences in order, with the failures of the decoding |
| AnthropicMessages.TurnsInOrder | internal/llmproxy/provider/anthropic.go:95-109 | the turns are exactly the messages that are not of the system, in order, each with its text and with the role user or assistant, or user for any other |
| AnthropicMessages.SystemInOrder | internal/llmproxy/provider/anthropic.go:95-103 | the system text is the texts of the system messages in order, a line each, after leading empty ones |
| AnthropicMessages.StopsInOrder | internal/llmproxy/provider/anthropic.go:118-130 | the stop sequences are the non-empty string, or exactly the strings of the list in order |
| AnthropicMessages.ParametersCopied | internal/llmproxy/provider/anthropic.go:111-143 | max_tokens goes before max_completion_tokens, and 4096 is the default; model, temperature, top_p and stream are copied |
| AnthropicMessages.RequestAccepted | internal/llmproxy/provider/anthropic.go:61-83 | a request is refused exactly when a field that is read has another type |
| AnthropicRequest.SpeaksExists | internal/llmproxy/provider/anthropic.go:18-40 | the assumptions about the provider can be met whatever the backend answers |
| LlmTokens.TokensConserved | internal/llmproxy/handler.go:86-167 | over any run the tokens tracked for an account are those in the bodies delivered to it: of 200 responses, plus of other statuses from OpenAI-format providers |
| LlmTokens.TrackedChange | internal/llmproxy/handler.go:155-167 | one delivery adds the billed tokens in its body to the account of its request and nothing to any other; anonymous requests add nothing |
| LlmTokens.TranslateUsageTrue | internal/llmproxy/provider/openai.go:33-52 | the usage counted for a response is the usage in its final body, Anthropic included |
| LlmTokens.SixtyFourBitsSuffice | internal/llmproxy/provider/anthropic.go:179-237 | decoders with 64-bit integers meet what these theorems assume of translated bodies |
| LlmTokens.CoherentExists | internal/llmproxy/provider/anthropic.go:179-237 | and there is such a decoder in every world |
| LlmHandler.Handler.ServeJSON | internal/llmproxy/handler.go:53-196 | under any interference the handler is a run of the machine; it panics exactly on the body null, where the cache is used or the model rewritten, and else answers with its own delivery |
| LlmHandler.Handler.Forward | internal/llmproxy/handler.go:106-195 | the part after a cache miss: 500 when it is refused, 502 without an answer, otherwise the backend's answer as it is, or translated for a successful one of Anthropic, or 500 where that fails |
| LlmHandler.Handler.ServedDirectly | internal/llmproxy/handler.go:65-104 | what was delivered is what the request may get without the cache |
| Reconcile.OneConsumerPerTopic | internal/kafka/consumer.go:70-118 | from distinct initial topics, after any reloads running consumers and latest topics correspond one to one |
| Reconcile.OneConsumerIff | internal/kafka/consumer.go:70-118 | after Start and any reloads the correspondence holds exactly when the initial topics were distinct |
| Reconcile.KeptTopicKeepsConsumer | internal/kafka/consumer.go:91-107 | a topic that stays configured keeps the same running consumer |
| Reconcile.ReconcileIdempotent | internal/kafka/consumer.go:82-107 | reconciling with the topics already served changes nothing |
| Reconcile.StartedBijective | internal/kafka/consumer.go:70-78 | after Start the correspondence holds exactly when the initial topics are distinct |
| Reconcile.LeakedConsumerStays | internal/kafka/consumer.go:110-118 | a consumer whose cancel function was overwritten runs on after any reloads |
| Reconcile.ConsumerManager.Start | internal/kafka/consumer.go:70-78 | one worker per service, the last of each topic kept |
| Reconcile.ConsumerManager.Reconcile | internal/kafka/consumer.go:82-107 | stops exactly the workers of removed topics and starts exactly one per added topic, of the type configured last for it, in any map order |
| JobListing.PagesListEveryJob | internal/storage/redis.go:136-190 | pages of any limits together list stored jobs of the consumer only, each once, by descending second and then id, and exactly those whose index, as last renewed with them, has not expired, which includes all within their time to live since creation |
| JobListing.NewestFirstIff | internal/storage/redis.go:131-136 | such a listing is newest first exactly when the ids of listed jobs of one second grow with time |
| JobListing.StaleNeverShifts | internal/storage/redis.go:174-188 | an expired record leaves a gap in its page and shifts no other job |
| JobListing.RangeIsSlice | internal/storage/redis.go:155-155 | the range is the page asked for even where the 64-bit end wraps around |
| JobListing.LateUpdateNotListed | internal/storage/redis.go:194-206 | a record refreshed by an update can outlive its index entry |
| JobListing.WithinASecondIdsDecide | internal/storage/redis.go:68-71 | within a second the order is by id |
| JobListing.Limit | internal/handler/jobs.go:366-374 | the limit is the requested one where that is between 1 and 100, 100 above, and 20 for none |
| JobListing.JobHandler.ListJobs | internal/handler/jobs.go:355-412 | 501 without a consumer header configured, 400 without a consumer, else the page with limit and offset in range |
| JobListing.RedisClient.SaveJob | internal/storage/redis.go:57-77 | record and index entry are written together and the index expiry starts anew |
| JobListing.RedisClient.UpdateJobResult | internal/storage/redis.go:194-229 | patches status, reference and error of an existing record and only its expiry starts anew |
| JobListing.RedisClient.DeleteJob | internal/storage/redis.go:110-119 | removes record and index entry together |
| JobListing.RedisClient.ListJobsByConsumer | internal/storage/redis.go:136-190 | returns the stored records of the page's ids in order and the size of the index |
| JobStore.RunInv | internal/storage/redis.go:57-119 | over any saves, updates, deletes and passing of time a stored job is in its consumer's index exactly until the expiry it was last kept for, which is no earlier than its creation plus the time to live, and indexes hold only their consumer's jobs |
| JobStore.SavedLives | internal/storage/redis.go:57-77 | a saved job that nothing touches is stored, as it was saved, exactly until its time to live has passed |
| JobStore.UpdatedLives | internal/storage/redis.go:194-229 | an update sets status, reference and error only, and the record then lives for whole seconds of the time to live, or an hour |
| JobStore.SavedIndexed | internal/storage/redis.go:57-77 | a save enters the job into the index of its consumer, if any, renews that index, and leaves all else as it is |
| JobStore.DeletedGone | internal/storage/redis.go:96-119 | a delete removes record and listing together and leaves all else as it is |
| JobStore.RankedDescends | internal/storage/redis.go:155-155 | ids are listed by descending score, then descending id |
| JobStore.RankedMembers | internal/storage/redis.go:155-155 | each member of the index is listed exactly once |

## Left out

- HTTP plumbing, multipart parsing and rebuilding, the direct reverse proxy, routing, health, logging and metrics.
- The keepalive ticks of the sync handler and its `committed` flag: a status written after the first tick is a no-op on the wire, so the codes of `Handlers.AwaitResult` are those the code writes.
- Malformed events, which the relay answers with 400 or 405, and result events that do not decode.
- Webhook delivery and its retries, and liveness in general: a swallowed publish makes "every job ends" false.
- Overflow of the int32 priority counter, which would take 2^31 requests in flight on one pod.
- The order of the result topic in `Protocol.dfy`, where it is a set that any event may be delivered from at any time; `Replay.dfy` has the order.
- A failed increment of the token tracker in Redis, which is logged and loses the count, and the rounding of its float64 scores.
- The content type of responses: a hit always says application/json.
- Streaming responses, and the building of upstream requests for providers other than Anthropic: `LlmProxy.World.build` stands for it.
- What `rewriteBodyModel` does to a body beyond setting the model: `LlmProxy.World.marshal` stands for the text it prints.
- AnthropicRequest.AnthropicTransparentIff: compares only requests that share a key and agree on the members spelled in another case, with one spelling of `stream`, because such members are sent and not counted; what two spellings of one field give together is left open.
- Go's case-insensitive matching of JSON member names elsewhere, and the rounding of JSON numbers to float64 before the key is printed: equality of values means equality of the decoded values.
- Key parsing and the pass-through when encryption is disabled.
- `MaxFileSizeForType`, `SyncPaths`, `OperationPath` and extension checks of the registry, and definition fields that are only carried along.
- Records in Redis that are not valid JSON, and the first pipeline of `ListJobsByConsumer`, whose results are discarded.
- Cancellation of all consumers at shutdown.
