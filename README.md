# ForgeLens content lifecycle, modelled in Dafny

ForgeLens is a multi-agent Instagram content pipeline. This project models
how a content record moves through its lifecycle and proves properties of
that model. The record is a JSON document in a Cosmos DB container, and four
status fields track it: `generation_status`, `media_review_status`,
`approval_status` and `publish_status`. Each stage of the pipeline reads the
record, checks its statuses, and then writes it back or hands its id to the
next stage over a Service Bus queue:

- generation is requested: the record is created "queued" and its id is put
  on the `media-generation` queue, and the record is deleted again when the
  send fails;
- the generation worker submits the record to fal.ai, polls the provider and
  stores the finished asset, resetting the review and approval statuses;
- the automated reviewer applies image moderation, then text moderation, then
  a language-model verdict, and records the outcome as the media review
  status. Only an "APPROVED" verdict is meant to put the
  record on the `review-pending` queue; as written the reviewer's module
  cannot be imported, so no record gets there (see "## Findings");
- a human approves, rejects or asks for edits. This is allowed only from
  "pending", and only an approval forwards the record to `review-approved`;
- the publisher checks the guards again (approved, media approved, not yet
  published), builds the caption, creates Instagram containers, polls
  video containers at most ten times, publishes, and marks the record
  published;
- queue workers and polling triggers settle their messages and use a
  notification flag so that each item is handled at most once.

Module by module (one Dafny file per source file; the `Legacy…` modules
are the earlier copies under `python/insta_agent/`):

| module | source |
|---|---|
| `Docs`, `Text`, `Ordering`, `Statuses`, `Wrappers` | JSON documents with Python's `get`/`update`/truthiness, the string operations used, `ORDER BY`/`sorted`, the four status enums, Option/Result |
| `Store` | the Cosmos DB container: records keyed by id, partitioned by `media_type` |
| `PythonImports` | Python's `from m import ...`: the ImportError for a name the module does not define |
| `CosmosDbService` | services/cosmos_db_service.py (the canonical store) |
| `MediaMetadataService` | services/media_metadata_service.py (the variant store) |
| `LegacyMediaMetadataService` | python/insta_agent/shared/services/media_metadata_service.py |
| `AzureBusService` | services/azure_bus_service.py, plus queues with complete/abandon settlement |
| `GenerationQueueService` | services/generation_queue_service.py |
| `InstaAccountTools`, `AccountTools`, `AccountInternalTools` | agents/insta_account/tools.py, agents/account/tools.py, agents/account/internal_tools.py |
| `MediaGenerationWorker` | services/queue_triggers/media_generation_worker.py |
| `FalAiService`, `ImageGeneratorService` | services/fal_ai_service.py, services/image_generator_service.py |
| `InstaPostGeneratorTools` | agents/insta_post_generator/tools.py |
| `LegacyInstaPostGeneratorTools`, `LegacyMediaGeneratorTools` | python/insta_agent/agents/insta_post_generator/tools.py, python/insta_agent/agents/media_generator/tools.py |
| `ContentSafetyService`, `ContentReviewerTools` | services/content_safety_service.py, agents/content_reviewer/tools.py |
| `ApproverTools`, `LegacyApproverTools` | agents/approver/tools.py, python/insta_agent/agents/approver/tools.py |
| `ReviewQueueService`, `LegacyReviewQueueService` | shared/services/review_queue_service.py, python/insta_agent/shared/services/review_queue_service.py |
| `PublisherTools`, `LegacyPublisherTools` | agents/publisher/tools.py, python/insta_agent/agents/publisher/tools.py |
| `PublisherQueueWorker`, `PublisherTriggerService` | services/queue_triggers/publisher_trigger_service.py, services/publisher_trigger_service.py |
| `CommunicatorQueueWorker`, `CommunicatorTriggerService`, `CommunicatorTools` | services/queue_triggers/communicator_trigger_service.py, services/communicator_trigger_service.py, agents/communicator/tools.py |

Records are `Docs.Doc = map<string, Value>`. This keeps Python's `**extra`
spread, where later keys win, and `item.update(updates)` exact. The container
is a class whose `items` map the service methods change. Queues are classes
holding their messages in order. External services are inputs: their answers
are parameters or oracle functions, with None standing for a call that
raised. Uuids and timestamps are fresh opaque parameters. The lifecycle
methods are imperative (read, check, write, send), and each is proved equal
to a specification function. The lemmas state the guards, the frames ("only
these fields change", "no other record changes") and the settlement rules.

Where the design documentation and the code disagree, the model follows the code:
- the generation worker never marks a record "failed": a provider status
  other than completed, or a status call that raises, leaves the record
  "submitted" for the next poll;
- moderation errors fail open (the content counts as safe, with the error
  recorded); only the language-model step fails closed (NEEDS_REVISION);
- the plan review cannot record its decision, because the store function it
  calls (`set_prompt_review_status`) does not exist.

The copies of the code also differ from each other, and each module follows
its own file:
- the insta-account frequency report creates a key for every post type, while
  the internal tools gather unknown types under "other";
- fal_ai_service has no default of 5 seconds for a missing duration, while the
  worker does;
- `publish_all_pending` counts as published only the results whose status
  starts with "published".

## Model

| member | source | states |
|---|---|---|
| Docs.Merge | services/cosmos_db_service.py:174 | `item.update(updates)`: the keys are the union of both, every key of `updates` takes its new value and every other key keeps its old one |
| Store.Container.constructor | services/cosmos_db_service.py:33-53 | a fresh container holds no records |
| Store.Container.Find | services/cosmos_db_service.py:152-164 | the cross-partition id lookup finds a record exactly when one is stored under that id, and returns it |
| Store.Container.ReadItem | python/insta_agent/shared/services/media_metadata_service.py:157-163 | `read_item(id, partition_key)` finds the record only when it is stored under that id in that media-type partition; otherwise None |
| Store.Container.CreateItem | services/cosmos_db_service.py:138 | `create_item` stores a record under its string id when that id is free and fails, changing nothing, on a missing or taken id |
| Store.Container.ReplaceItem | services/cosmos_db_service.py:175 | `replace_item` replaces the record stored under the id when the body keeps that id, and fails otherwise, changing nothing |
| Store.Container.DeleteItem | services/cosmos_db_service.py:179-191 | `delete_item` succeeds exactly when the record is in the named partition, and then removes it and only it; otherwise nothing changes |
| Store.Container.QueryBy | services/cosmos_db_service.py:316-329 | the query loop collects the matching records sorted by the key and cut to the limit |
| Store.QueryBySpec | services/cosmos_db_service.py:316-329 | every row matches and is stored, rows are in key order, there are at most `limit` of them, and every match is returned when the matches fit under the limit |
| Statuses.NamesRoundTrip | shared/services/review_queue_service.py:34-38 | reading back the string a status is stored as gives the same status, for all four lifecycle fields |
| Text.Strip | agents/publisher/tools.py:28 | `strip()` is no longer than its input, has no whitespace at either end, and is empty exactly when the input is blank |
| Text.StripSlice | agents/publisher/tools.py:28 | what `strip()` keeps is one contiguous slice of the input, every inner character kept, with only whitespace cut from either end |
| Text.LowerStrip | agents/insta_account/tools.py:163 | `s.strip().lower()` equals `s.lower().strip()` |
| Text.UpperStrip | agents/content_reviewer/tools.py:258 | `s.strip().upper()` equals `s.upper().strip()` |
| Text.RFind | agents/insta_account/tools.py:224 | `rfind` returns -1 exactly when the pattern does not occur, and otherwise the last index where it occurs |
| Text.SplitWsWords | shared/services/review_queue_service.py:116 | every piece of `split()` is a non-empty word without whitespace |
| Text.NatTextRoundTrip | services/fal_ai_service.py:84-103 | reading back the digits `str(n)` writes gives `n` |
| Text.IntTextInjective | services/fal_ai_service.py:84-103 | distinct integers are written as distinct strings |
| Text.NormalizedStable | services/queue_triggers/media_generation_worker.py:59 | trimming and lower-casing a trimmed, lower-cased hint changes nothing |
| Ordering.SortByPermutes | services/cosmos_db_service.py:319 | `ORDER BY` keeps exactly the rows it is given, with their multiplicities |
| Ordering.SortBySorted | services/cosmos_db_service.py:319 | `ORDER BY` puts the rows in key order, ascending or descending |
| Ordering.SortBySortedId | services/cosmos_db_service.py:319 | sorting rows already in key order leaves them as they are |
| Ordering.Take | services/cosmos_db_service.py:319 | `LIMIT n` keeps the first `n` rows, or all of them when there are fewer |
| CosmosDbService.Defaults | services/cosmos_db_service.py:55-77 | a call with only the required arguments gets post type "post", publish status "pending", no hashtags and no extra fields |
| CosmosDbService.HashtagsValue | services/cosmos_db_service.py:118 | `hashtags or []` is a list with one element per hashtag, and empty when none are given |
| CosmosDbService.NewRecordSpread | services/cosmos_db_service.py:99-136 | every key of `extra` overrides the default record, every other default keeps its value, and `fal_url` comes from `extra` when given there and from `source_media_url` otherwise |
| CosmosDbService.NewRecordDefaults | services/cosmos_db_service.py:99-132 | unless `extra` overrides them, a new record has the given id, both review statuses "pending", the publish status passed, empty Instagram ids, no `published_at`, the hashtags or [] and `created_at` now |
| CosmosDbService.NewRecordKey | services/cosmos_db_service.py:100-101 | unless `extra` overrides them, the record is stored under the new id in the partition of its media type |
| CosmosDbService.SaveMediaMetadata | services/cosmos_db_service.py:55-140 | the new record is created when its id is free and returned; a taken or missing id fails and changes nothing |
| CosmosDbService.UpdateContent | services/cosmos_db_service.py:167-176 | an unknown id yields None and writes nothing; a known one is replaced by the record merged with the updates, which is returned |
| CosmosDbService.GetContentById | services/cosmos_db_service.py:152-164 | returns a record exactly when one is stored under the id, and that record |
| CosmosDbService.RowsById | services/cosmos_db_service.py:155-164 | the id query's first row exists exactly when the id is stored, and is the stored record |
| CosmosDbService.DeleteMediaMetadata | services/cosmos_db_service.py:179-191 | True exactly when the record was in that partition, and then it alone is removed; False changes nothing |
| CosmosDbService.MediaReviewUpdates | services/cosmos_db_service.py:203-208 | the media-review setter writes exactly the status, time, score and notes fields |
| CosmosDbService.ApprovalUpdates | services/cosmos_db_service.py:220-224 | the approval setter writes exactly `approval_status`, `human_reviewed_at` and `human_reviewer_notes` |
| CosmosDbService.PublishedUpdates | services/cosmos_db_service.py:236-241 | publishing writes exactly status "published", both Instagram ids and `published_at` |
| CosmosDbService.SetMediaReviewStatus | services/cosmos_db_service.py:194-209 | an unknown id changes nothing; otherwise only the record's four media-review fields change |
| CosmosDbService.SetApprovalStatus | services/cosmos_db_service.py:212-225 | an unknown id changes nothing; otherwise only the record's three human-review fields change |
| CosmosDbService.MarkContentPublished | services/cosmos_db_service.py:228-242 | an unknown id changes nothing; otherwise only the record's four publication fields change |
| CosmosDbService.QueryContent | services/cosmos_db_service.py:285-329 | returns the rows of the conjunctive status query, newest first, cut to the limit |
| CosmosDbService.QueryContentSpec | services/cosmos_db_service.py:296-329 | every row is stored and satisfies every non-empty filter, rows are newest first, at most `limit`, and all matches are returned when they fit |
| MediaMetadataService.NewRecordSpread | services/media_metadata_service.py:94-123 | every key of `extra` overrides the default record; every other default keeps its value |
| MediaMetadataService.NewRecordDefaults | services/media_metadata_service.py:94-123 | unless `extra` overrides them, the record has the approval and publish statuses passed, empty `approved_by` and Instagram ids, no `queued_for_review_at` and `created_at` now |
| MediaMetadataService.NewRecordMedia | services/media_metadata_service.py:96-113 | unless `extra` overrides them, the record holds the media type, post type, prompt, account fields and hashtags passed |
| MediaMetadataService.NewRecordId | services/media_metadata_service.py:95 | unless `extra` overrides it, the record is stored under the new id |
| MediaMetadataService.SaveMediaMetadata | services/media_metadata_service.py:49-127 | the new record is created when its id is free and returned; otherwise nothing changes |
| MediaMetadataService.ApprovalUpdates | services/media_metadata_service.py:189-194 | the approval setter writes exactly `approval_status`, `approved_by` (empty), `reviewed_at` and `reviewer_notes` |
| MediaMetadataService.ApprovalFieldsDiffer | services/media_metadata_service.py:189-194 | this store's approval setter writes `reviewed_at` and not `human_reviewed_at`, the canonical store's the other way round |
| MediaMetadataService.SetApprovalStatus | services/media_metadata_service.py:181-195 | an unknown id changes nothing; otherwise only the four approval fields change |
| MediaMetadataService.QueryContent | services/media_metadata_service.py:255-295 | the conjunctive query over approval status, publish status and target account, newest first, cut to the limit |
| MediaMetadataService.QueryIgnoresMediaReview | services/media_metadata_service.py:265-276 | this store's query cannot filter on `media_review_status`: changing that field never changes whether a record matches |
| LegacyMediaMetadataService.NewRecord | python/insta_agent/shared/services/media_metadata_service.py:134-150 | every key of `extra` overrides the default record, every key comes from `extra` or the defaults, and the id and `created_at` are the ones given |
| LegacyMediaMetadataService.NoLifecycleFields | python/insta_agent/shared/services/media_metadata_service.py:134-150 | a legacy record has no lifecycle status fields unless `extra` supplies them |
| LegacyMediaMetadataService.SaveMediaMetadata | python/insta_agent/shared/services/media_metadata_service.py:97-154 | the record is created when its id is free and returned; otherwise nothing changes |
| LegacyMediaMetadataService.QueryMedia | python/insta_agent/shared/services/media_metadata_service.py:166-203 | the media query: records of the requested type (all when none), newest first, cut to the limit |
| LegacyMediaMetadataService.QueryMediaSpec | python/insta_agent/shared/services/media_metadata_service.py:178-203 | with a type, every row has it; every row is stored; rows are newest first and at most `limit`; with no type and few enough records, every record is returned |
| AzureBusService.ContentIdBody | services/azure_bus_service.py:127 | a message body holds exactly the `content_id` |
| AzureBusService.IdOrDefault | services/azure_bus_service.py:134 | `message_id or default`: a non-empty id is kept, an empty or missing one gives the default |
| AzureBusService.MessageIds | services/azure_bus_service.py:116-179 | the default message ids are the content id, `<id>-review` and `<id>-approved`; an explicit id wins; every body is `{"content_id": id}` |
| AzureBusService.DefaultIdsDistinct | services/azure_bus_service.py:134-178 | the three default message ids of one content id are pairwise distinct |
| AzureBusService.Queue.constructor | services/azure_bus_service.py:62-77 | a new queue is empty |
| AzureBusService.Queue.Send | services/azure_bus_service.py:41-59 | a delivered message is appended with the next sequence number; a refused send changes nothing |
| AzureBusService.Queue.Receive | services/azure_bus_service.py:80-113 | a receive returns at most `n` messages, the oldest ones, and all of them when there are no more than `n` |
| AzureBusService.Queue.Complete | services/azure_bus_service.py:80-113 | completing a message removes exactly the message with that sequence number |
| AzureBusService.Remove | services/azure_bus_service.py:80-113 | what remains after a completion is the queue without the completed message, in order |
| AzureBusService.Settled | services/azure_bus_service.py:80-113 | the sequence numbers settled are exactly those of the received messages whose processing returned |
| FalAiService.SoraDuration | services/fal_ai_service.py:80 | the Sora duration is 4, 8 or 12: the smallest of them not below the request, and 12 for a request above 12 |
| FalAiService.KlingDuration | services/fal_ai_service.py:91 | the Kling duration is the request clamped to 3..15 |
| FalAiService.SoraAspect | services/fal_ai_service.py:81 | Sora keeps a 9:16 or 16:9 frame and replaces any other by 9:16 |
| FalAiService.KlingAspect | services/fal_ai_service.py:92 | Kling keeps 9:16, 16:9 or 1:1 and replaces any other by 9:16 |
| FalAiService.ShapeVideo | services/fal_ai_service.py:75-105 | a model key containing "sora" gets Sora arguments, else one containing "kling" gets Kling arguments, else the request passes unchanged; each family's duration and frame bounds hold |
| FalAiService.ArgumentsFaithful | services/fal_ai_service.py:22-29 | the argument dictionary of each family has exactly the source's keys, the prompt and frame given, the duration as its decimal text (which reads back to the duration), and for images one image at safety tolerance "4" |
| FalAiService.SelectVideoModel | services/fal_ai_service.py:74 | a non-blank model id is used stripped; a blank or missing one falls back to the configured video model |
| FalAiService.BuildVideoArguments | services/fal_ai_service.py:66-105 | the family is chosen on the lower-cased selected model, and the prompt is passed on |
| FalAiService.DetectionIgnoresCase | services/fal_ai_service.py:75-77 | two model ids equal up to case get the same arguments |
| FalAiService.SelectImageModel | services/fal_ai_service.py:21 | `model_id or IMAGE_GENERATION_MODEL` |
| FalAiService.ImageRequest | services/fal_ai_service.py:12-30 | an image request goes to the selected model with the prompt, frame, format and resolution given |
| FalAiService.SubmitSummary | services/fal_ai_service.py:31-36 | a submission reports exactly provider, mode, model id and request id |
| ImageGeneratorService.ModelId | services/image_generator_service.py:25 | the stripped configured model, or the DALL-E deployment when that is blank |
| ImageGeneratorService.DalleSize | services/image_generator_service.py:46-56 | landscape frames map to 1792x1024, portrait and 4:5 frames to 1024x1792, everything else to 1024x1024 |
| ImageGeneratorService.DalleSizeTrimmed | services/image_generator_service.py:47 | the size ignores whitespace around the aspect ratio |
| ImageGeneratorService.Generate | services/image_generator_service.py:17-43 | a model id starting with "fal-ai/" in any case goes to fal.ai with the request unchanged; any other to DALL-E with the mapped size, quality "standard" and style "vivid" |
| ContentSafetyService.SeverityOf | services/content_safety_service.py:96 | `item.severity or 0` |
| ContentSafetyService.Tally | services/content_safety_service.py:91-105 | the analysis loop builds the summary of the answers, which is safe exactly when no category reaches the threshold |
| ContentSafetyService.AnalyzeText | services/content_safety_service.py:78-109 | text moderation returns the text result: blank text is not sent, only the first 10 000 characters are, and errors fail open |
| ContentSafetyService.AnalyzeImage | services/content_safety_service.py:112-151 | image moderation returns the image result: an empty URL is safe, errors fail open |
| ContentSafetyService.BlockedIff | services/content_safety_service.py:94-99 | a category is blocked exactly when some analysis of it reaches severity 2 |
| ContentSafetyService.SafeIffNoneBlocks | services/content_safety_service.py:101-105 | the content is safe exactly when no analysis reaches the threshold |
| ContentSafetyService.BlockedAreCategories | services/content_safety_service.py:94-99 | every blocked category is among the reported categories, which are exactly the analysed ones |
| ContentSafetyService.BlockedInOrder | services/content_safety_service.py:94-99 | blocked categories are listed in the order of the analyses |
| ContentSafetyService.DistinctThreshold | services/content_safety_service.py:94-99 | with one analysis per category, the reported severity of each is its analysis's, and the blocked ones are those reported at or above the threshold |
| ContentSafetyService.BlankTextSkipsService | services/content_safety_service.py:83-84 | blank or empty text is safe with no categories and never reaches the service |
| ContentSafetyService.OnlyHeadAnalysed | services/content_safety_service.py:88 | two texts that agree on their first 10 000 characters get the same result |
| ContentSafetyService.FailsOpen | services/content_safety_service.py:107-109 | a failing service yields a safe result carrying the error text, for text and for images |
| ContentSafetyService.EmptyUrlSafe | services/content_safety_service.py:117-118 | an empty image URL yields the default safe result |
| ReviewQueueService.Batch | shared/services/review_queue_service.py:247-249 | a receive takes at most 50 messages, the oldest ones |
| ReviewQueueService.BatchIsReceive | shared/services/review_queue_service.py:247-249 | the 50-message receive of a queue is exactly its first (at most) 50 messages |
| ReviewQueueService.MatchIndex | shared/services/review_queue_service.py:250-252 | the scan stops at the first received message whose body id is the item id; every earlier one differs |
| ReviewQueueService.ScanBatch | shared/services/review_queue_service.py:250-282 | the scan loop finds that first match and abandons exactly the messages before it |
| ReviewQueueService.CleanSplit | shared/services/review_queue_service.py:116 | stripping the pieces of `split()` and dropping empty ones changes nothing: the tags are the whitespace-separated words |
| ReviewQueueService.ResetUpdates | shared/services/review_queue_service.py:109-119 | re-queueing a stored record writes exactly approval status, publish status, queue time, caption, hashtags, post type and target account |
| ReviewQueueService.ResetFields | shared/services/review_queue_service.py:111-119 | the record returns to approval "pending" at the queue time, keeps its publish status, and each of caption, hashtags, post type and target account takes the new value when given and the stored one otherwise |
| ReviewQueueService.TagsAreWords | shared/services/review_queue_service.py:116 | the stored hashtags are the words of the hashtag text |
| ReviewQueueService.ResetRecord | shared/services/review_queue_service.py:107-120 | an existing record gets the reset fields merged in; an absent one leaves the store unchanged |
| ReviewQueueService.QueueForReview | shared/services/review_queue_service.py:72-140 | the store is reset first; a delivered send appends the review item under the content id (or a fresh uuid) and returns it; a refused send raises, leaving the queue unchanged and the reset in place |
| ReviewQueueService.ResetTouchesOnlyItem | shared/services/review_queue_service.py:107-120 | queueing changes no other record and adds none, and the queued record's approval status is "pending" |
| ReviewQueueService.ReviewItemShape | shared/services/review_queue_service.py:86-105 | a queued item is pending, unreviewed, with empty notes; the content id (when given) is the item id, body id and message id; the subject defaults to "Instagram Post" |
| ReviewQueueService.PeekQueue | shared/services/review_queue_service.py:225-238 | the peek returns the bodies of the first 50 messages that pass the account filter, sorted by `created_at` |
| ReviewQueueService.VisibleShown | shared/services/review_queue_service.py:232-236 | every kept body passes the account filter and is the body of a peeked message |
| ReviewQueueService.PeekSpec | shared/services/review_queue_service.py:225-238 | every peeked item passes the account filter and comes from the first 50 messages, and the list is in ascending `created_at` order |
| ReviewQueueService.FindItem | shared/services/review_queue_service.py:157-164 | the lookup returns an item with that id from the list, and None only when no item has it |
| ReviewQueueService.GetReviewStatus | shared/services/review_queue_service.py:154-178 | returns the review status of the three-step lookup (pending peek, approved peek, store) |
| ReviewQueueService.ReviewStatusOrder | shared/services/review_queue_service.py:154-178 | a pending item is reported from the pending queue; the store is read only when neither queue shows the item; the result is an error exactly when none of the three has it |
| ReviewQueueService.TransitionItem | shared/services/review_queue_service.py:240-284 | receive, scan and decision together make the step of the specification `Transition` on the queues and the store |
| ReviewQueueService.ApplyDecision | shared/services/review_queue_service.py:253-280 | completing the found message, recording the decision and forwarding an approval make the step `Apply` |
| ReviewQueueService.StatusOf | shared/services/review_queue_service.py:184-194 | approve, reject and request-edits map to the three decision statuses |
| ReviewQueueService.TransitionNotFound | shared/services/review_queue_service.py:284 | when no received message has the id, the result is an error, the store and queues are unchanged and every received message is abandoned |
| ReviewQueueService.TransitionFound | shared/services/review_queue_service.py:250-280 | the found message leaves the pending queue, the messages before it are abandoned and stay, the store gets the approval fields, and the returned body carries the new status and notes |
| ReviewQueueService.ApplyFound | shared/services/review_queue_service.py:253-257 | applying a decision removes the found message, records it in the store and in the returned body |
| ReviewQueueService.ForwardOnlyApproved | shared/services/review_queue_service.py:259-275 | only a delivered approval changes the approved queue, by one message with id `<id>-approved` whose body says "approved"; a rejection or edit request leaves it unchanged |
| ReviewQueueService.NoPendingPrecondition | shared/services/review_queue_service.py:240-284 | the outcome does not depend on the stored approval status: a decision on an already decided item goes through |
| ReviewQueueService.MarkPublished | shared/services/review_queue_service.py:200-219 | scan and completion of the approved queue make the step `MarkPublishedStep` |
| ReviewQueueService.MarkPublishedSpec | shared/services/review_queue_service.py:200-219 | an item not found gives an error and changes nothing; a found one leaves the approved queue, the returned body carries the media id, and the stored record becomes published with that media id |
| ReviewQueueService.QueueItemId | services/publisher_trigger_service.py:27 | a queued item names its record by a truthy content_id, and otherwise by its id |
| LegacyReviewQueueService.ShortId | python/insta_agent/shared/services/review_queue_service.py:110 | `str(uuid4())[:8]`: the first eight characters of the uuid text |
| LegacyReviewQueueService.QueueForReview | python/insta_agent/shared/services/review_queue_service.py:99-148 | a delivered send appends the review item under a fresh 8-character id and returns it; a refused send raises and leaves the queue unchanged; no store is touched |
| LegacyReviewQueueService.ItemsAgree | python/insta_agent/shared/services/review_queue_service.py:111-124 | the earlier review item has no content id, target account or post type, and every field it has equals the current service's item for the same arguments |
| LegacyReviewQueueService.TransitionItem | python/insta_agent/shared/services/review_queue_service.py:217-260 | receive, scan and decision make the queue-only step `Transition` |
| LegacyReviewQueueService.SameQueueEffects | python/insta_agent/shared/services/review_queue_service.py:217-260 | on the two queues, a decision has the same result, abandons the same messages and leaves the same queues as in the current service |
| LegacyReviewQueueService.ForwardOnlyApproved | python/insta_agent/shared/services/review_queue_service.py:217-260 | only a delivered approval adds one message, under `<id>-approved`; any other decision leaves the approved queue unchanged |
| LegacyReviewQueueService.MarkPublished | python/insta_agent/shared/services/review_queue_service.py:178-200 | scanning and completing the approved queue make the step `MarkPublishedStep` |
| LegacyReviewQueueService.SamePublishEffects | python/insta_agent/shared/services/review_queue_service.py:178-200 | publishing has the same result and queue effect as in the current service, without the store write |
| ApproverTools.StatusOf | agents/approver/tools.py:145-217 | approve, reject and request edits record "approved", "rejected" and "edit_requested" |
| ApproverTools.Decide | agents/approver/tools.py:135-227 | each decision tool is the guarded step `Review` on the store and the approved queue |
| ApproverTools.Record | agents/approver/tools.py:145-181 | on a pending record, the write and the best-effort forward are the step `Review` |
| ApproverTools.RefusalsChangeNothing | agents/approver/tools.py:137-143 | an unknown id answers not-found and a record that is not pending answers with its current status; neither writes nor sends |
| ApproverTools.DecisionRecorded | agents/approver/tools.py:145-147 | a decision on a pending record records the decision's status and notes on that record only and touches no field outside the four approval fields |
| ApproverTools.ForwardOnlyOnApprove | agents/approver/tools.py:149-181 | only an approval forwards, exactly one message `{"content_id": id}` with id `<id>-approved`; a failed forward still leaves the record approved and the result "approved"; reject and request-edits send nothing |
| ApproverTools.DecidedOnce | agents/approver/tools.py:140-143 | a record is decided once: a second decision is refused with the first decision's status and changes nothing |
| ApproverTools.CaptionPreview | agents/approver/tools.py:93 | the preview is the first 120 characters of `caption or ""`, the whole caption when shorter |
| ApproverTools.ViewAllPending | agents/approver/tools.py:83-100 | one summary entry per pending record returned by the query, in the query's order |
| ApproverTools.PendingListSpec | agents/approver/tools.py:85 | the pending list holds at most 100 records, all with approval status "pending" |
| ApproverTools.ViewApprovalHistory | agents/approver/tools.py:111-132 | one summary entry (id, approval status, review time, notes, topic, account) per record of the three status queries, concatenated, sorted by review time and cut to the limit, in that order; the count is the number of entries |
| ApproverTools.Summaries | agents/approver/tools.py:122-132 | one entry per record, in the records' order: id, approval status and review time as stored, notes and topic defaulting to "", account falling back to the target account name |
| ApproverTools.GatheredDecided | agents/approver/tools.py:114-116 | everything the three queries gather is approved, rejected or edit_requested |
| ApproverTools.HistorySpec | agents/approver/tools.py:111-121 | the history holds only decided records, newest `reviewed_at` (else `created_at`) first, at most `limit` |
| LegacyApproverTools.ImportFails | python/insta_agent/agents/approver/tools.py:9-10 | as written the module's import of `query_content` raises ImportError, so none of its tools can run |
| LegacyApproverTools.ViewAllPending | python/insta_agent/agents/approver/tools.py:52-54 | the pending list is the review queue's peek with no account filter |
| LegacyApproverTools.UnfilteredVisible | python/insta_agent/agents/approver/tools.py:14 | a service built without an account shows every peeked message, in queue order |
| LegacyApproverTools.Decide | python/insta_agent/agents/approver/tools.py:73-85 | each decision tool is the earlier queue's transition, with no check of the stored approval state |
| LegacyApproverTools.DecisionStatuses | python/insta_agent/agents/approver/tools.py:73-85 | approve, reject and request edits pass APPROVED, REJECTED and EDIT_REQUESTED; only approve can forward; a found item's body carries the status |
| LegacyApproverTools.ViewApprovalHistory | python/insta_agent/agents/approver/tools.py:62-70 | the history is the decided records sorted by review time, newest first, and the count is its length |
| LegacyApproverTools.ReviewedExactly | python/insta_agent/agents/approver/tools.py:65-68 | the filter keeps each decided record with its multiplicity and drops every other |
| LegacyApproverTools.HistorySpec | python/insta_agent/agents/approver/tools.py:65-70 | the history holds exactly the decided records, each as often as given, sorted by `reviewed_at` else `created_at`, descending |
| GenerationQueueService.DefaultRequest | services/generation_queue_service.py:148-164 | the keyword defaults: frame 1:1, resolution 1K, format png, 5 seconds, post type "post", no hashtags |
| GenerationQueueService.PlanStatuses | services/generation_queue_service.py:73-98 | a plan record has `generation_status` and `approval_status` "pending_review" and publish status "pending" |
| GenerationQueueService.QueuedStatuses | services/generation_queue_service.py:174-200 | a submitted record has `generation_status` "queued" and approval and publish status "pending" |
| GenerationQueueService.QueuedKey | services/generation_queue_service.py:174-202 | a submitted record is stored under its new id in the partition of its media type |
| GenerationQueueService.QueuedShape | services/generation_queue_service.py:180-182 | a video record gets an empty resolution and the duration; an image record the resolution and no duration |
| GenerationQueueService.QueuedRequestFields | services/generation_queue_service.py:174-189 | a submitted record carries the request's prompt, post type and target account |
| GenerationQueueService.CreateContentRecord | services/generation_queue_service.py:44-104 | saves the plan record when its id is free and returns it; sends nothing |
| GenerationQueueService.QueuedUpdates | services/generation_queue_service.py:114-118 | queueing a plan writes exactly generation status, approval status and request time |
| GenerationQueueService.RevertUpdates | services/generation_queue_service.py:137 | the revert writes `generation_status` only |
| GenerationQueueService.GenerationMessage | services/generation_queue_service.py:124-133 | the generation message's body is `{"content_id": id}` and its message id is the content id |
| GenerationQueueService.SubmitToQueue | services/generation_queue_service.py:106-146 | the record is marked queued before the send; a delivered send appends the message; a refused send reverts only `generation_status` and raises; an unknown id leaves the store unchanged |
| GenerationQueueService.RevertKeepsApproval | services/generation_queue_service.py:114-137 | after a failed send the record is back at "pending_review" but keeps approval "approved_by_reviewer" and the request time, and nothing outside the three queued fields changes |
| GenerationQueueService.SendOrRollback | services/generation_queue_service.py:205-230 | a delivered send appends the message and keeps the record; a refused one deletes the record from its partition and sends nothing |
| GenerationQueueService.SubmitGeneration | services/generation_queue_service.py:148-236 | a saved and delivered request stores exactly the new queued record and appends exactly one message for it; any failure leaves store and queue as they were and is reported |
| InstaAccountTools.TruncatePrompt | agents/insta_account/tools.py:219-231 | a prompt within the limit is kept; a longer one becomes a prefix of at most `limit` characters, cut after the last ". " past half the limit, or hard-cut when there is none |
| InstaAccountTools.ParseIso | agents/insta_account/tools.py:77-83 | a missing or empty value parses to nothing; otherwise the value is handed to the ISO parser |
| InstaAccountTools.ParseIsoZulu | agents/insta_account/tools.py:81 | a trailing "Z" is read as the offset "+00:00" |
| InstaAccountTools.InWindow | agents/insta_account/tools.py:193-199 | the items kept in the window are no more than the items read |
| InstaAccountTools.InWindowMembers | agents/insta_account/tools.py:195-199 | an item is in the window exactly when it was read and its published (or else created) timestamp parses and is not before the window start |
| InstaAccountTools.PostTypes | agents/insta_account/tools.py:200 | one lower-cased post type per counted item |
| InstaAccountTools.TallyCounts | agents/insta_account/tools.py:192-201 | the tally has a key for the four seeded types and for every type seen, and each seen type's count is its number of occurrences |
| InstaAccountTools.InWindowSnoc | agents/insta_account/tools.py:195-199 | reading one more item extends the window by that item exactly when it is in the window |
| InstaAccountTools.PostTypesSnoc | agents/insta_account/tools.py:200 | one more item adds its lower-cased post type at the end |
| InstaAccountTools.TallySnoc | agents/insta_account/tools.py:201 | counting one more type bumps that type's count by one, from 0 when absent |
| InstaAccountTools.CountsAfterTally | agents/insta_account/tools.py:191-201 | the loop's counts equal the tally of the post types of the in-window items |
| InstaAccountTools.CountByType | agents/insta_account/tools.py:191-209 | the loop reports as analysed the number of in-window items and as counts their tally by post type |
| InstaAccountTools.GetContentTypeFrequency | agents/insta_account/tools.py:173-209 | the frequency report counts the account's published rows read with the given limit and inside the window of `days` before now |
| InstaAccountTools.OfType | agents/insta_account/tools.py:163-168 | the filtered items are exactly the items whose post type or media type, lower-cased, is the requested type |
| InstaAccountTools.TypeFiltered | agents/insta_account/tools.py:163-170 | the history is at most `limit` long, drawn from the rows read, and of the requested type when one is given |
| InstaAccountTools.GetPostingHistory | agents/insta_account/tools.py:142-171 | Instagram's media are returned exactly when no content type is asked for and Instagram returns a non-empty list; otherwise at most `limit` published rows of this account and of the requested type |
| InstaAccountTools.StatusView | agents/insta_account/tools.py:374-387 | the status view has exactly the twelve status fields, copies each one the record has, and reports a missing approval status as "unknown" |
| InstaAccountTools.GetReviewStatus | agents/insta_account/tools.py:368-387 | the status is returned exactly when the record exists and belongs to this account, and is that record's status view |
| InstaAccountTools.RecordExtra | agents/insta_account/tools.py:267-275 | the extra fields of a generation record never override its id or media type |
| InstaAccountTools.RecordStatuses | agents/insta_account/tools.py:266-271 | a new generation record is queued, with media review and approval pending |
| InstaAccountTools.CreateContentRecord | agents/insta_account/tools.py:233-283 | the record is saved under a fresh id (an existing id is an error and changes nothing) and carries that id and the plan's media type |
| InstaAccountTools.Generate | agents/insta_account/tools.py:285-362 | a delivered request stores exactly the new record and appends exactly one media-generation message with its id; an error leaves the store and the queue as before |
| InstaAccountTools.ImagePlan | agents/insta_account/tools.py:285-300 | an image plan is a "post" whose prompt is at most 2000 characters |
| InstaAccountTools.VideoPlan | agents/insta_account/tools.py:325-339 | a video plan is a "reel" whose prompt is at most 2500 characters |
| AccountTools.SameRowsAsInstaTools | agents/account/tools.py:175-180 | the published-record query of this agent reads exactly the rows the Instagram account agent's query reads |
| AccountTools.GetPostingHistory | agents/account/tools.py:163-193 | Instagram's media exactly when no content type is asked for and Instagram returns a non-empty list; otherwise at most `limit` stored records, each published, of this account when it has an Instagram id, and of the requested type; the same history as the Instagram account agent's |
| AccountTools.GetContentTypeFrequency | agents/account/tools.py:195-231 | reports as analysed the number of the account's published records in the window of `days` before now, and as counts their tally by post type |
| AccountTools.ImageRequest | agents/account/tools.py:259-272 | the image request is a 5-second "post" with no video model, for this account, whose prompt is the original cut to at most 2000 characters |
| AccountTools.VideoRequest | agents/account/tools.py:286-299 | the video request is a "reel" of the requested duration and video model, for this account, whose prompt is the original cut to at most 2500 characters |
| AccountTools.Generate | agents/account/tools.py:259-307 | the generation queue's failure becomes an error result that changed neither store nor queue; a fresh id with a delivered message is queued, stores the submitted record and appends exactly one media-generation message with its id |
| AccountTools.GenerateImage | agents/account/tools.py:255-280 | a queued image record holds the cut prompt, post type "post" and the account's Instagram id; an error changed nothing |
| AccountTools.GenerateVideo | agents/account/tools.py:282-307 | a queued video record holds the cut prompt, post type "reel" and the requested duration; an error changed nothing |
| AccountTools.ErrorDoc | agents/account/tools.py:346 | an error answer carries the key "error" |
| AccountTools.GetReviewStatus | agents/account/tools.py:343-355 | a missing record gives "not found" and another account's record "access denied"; the queue's answer is passed on only when it is an error or it belongs to the account as well |
| AccountInternalTools.OfTypeSnoc | agents/account/internal_tools.py:93-98 | one more item adds itself to the type-filtered list exactly when its post type or media type is the requested type |
| AccountInternalTools.FilterByType | agents/account/internal_tools.py:91-99 | the filtering loop keeps, in order, exactly the items of the requested type |
| AccountInternalTools.GetRecentPostHistory | agents/account/internal_tools.py:80-107 | the history is the account's published records (three times `limit`, at least 30) filtered by type and cut to `limit`: the same items the account tools' history returns from the store |
| AccountInternalTools.InitialBucketKeys | agents/account/internal_tools.py:128 | the counts start with exactly the buckets post, reel, carousel and other |
| AccountInternalTools.Bucket | agents/account/internal_tools.py:139-143 | every post type falls into one of the four buckets, and into its own exactly when it is one of them |
| AccountInternalTools.BucketIncrement | agents/account/internal_tools.py:139-143 | the loop's update adds one to the item's bucket |
| AccountInternalTools.AddOne | agents/account/internal_tools.py:140-143 | adding one to a bucket keeps the bucket keys, plus that bucket |
| AccountInternalTools.BucketTallyKeys | agents/account/internal_tools.py:128-143 | the bucket counts always have exactly the four bucket keys |
| AccountInternalTools.BucketTallyKnown | agents/account/internal_tools.py:139-141 | the count of post, reel or carousel is its number of occurrences |
| AccountInternalTools.UnnamedCount | agents/account/internal_tools.py:142-143 | the types that fall into "other" number all types less the posts, reels and carousels |
| AccountInternalTools.BucketTallyOther | agents/account/internal_tools.py:142-143 | the "other" count is the number of types that are not post, reel or carousel |
| AccountInternalTools.KnownTypesAgree | agents/account/internal_tools.py:128-143 | for post, reel and carousel the bucket counts agree with the open-ended counts of the Instagram account tools |
| AccountInternalTools.BucketsAfterSnoc | agents/account/internal_tools.py:131-143 | one more item bumps its bucket when it is in the window and changes nothing otherwise |
| AccountInternalTools.BucketTallySnoc | agents/account/internal_tools.py:139-143 | counting one more type adds one to its bucket |
| AccountInternalTools.BucketsAfterTally | agents/account/internal_tools.py:127-143 | the loop's counts are the bucket tally of the post types of the in-window items |
| AccountInternalTools.CountByBucket | agents/account/internal_tools.py:127-152 | the loop reports as analysed the number of in-window items and as counts their bucket tally |
| AccountInternalTools.GetContentTypeFrequency | agents/account/internal_tools.py:109-152 | the report counts the account's published records read with the given limit and inside the window of `days` before now |
| CommunicatorTools.StatusDoc | agents/communicator/tools.py:33-35 | a failed status lookup is an answer with the key "error"; a found status is passed on unchanged |
| CommunicatorTools.ReminderUpdates | agents/communicator/tools.py:48 | the reminder's fields never overwrite the record's id |
| CommunicatorTools.SendReviewReminder | agents/communicator/tools.py:32-54 | the tool's answer, store and sent payloads are those of the reminder rule applied to the review queues and the store before the call |
| CommunicatorTools.ReminderRule | agents/communicator/tools.py:32-54 | a failed lookup is returned as is, sending and writing nothing; a payload goes out exactly when the status is found and the notification accepts it; the payload has exactly the five fields, its topic gains the note when there is one, and the stored record then gets the reminder time and note and nothing else |
| CommunicatorTools.RemindKeeps | agents/communicator/tools.py:47-48 | a reminder keeps every record key and changes no record but the reminded one |
| CommunicatorTools.RemindRule | agents/communicator/tools.py:34-54 | the reminder rule for any outcome of the status lookup |
| CommunicatorTools.SweepUpdates | agents/communicator/tools.py:76 | the sweep's fields never overwrite the record's id |
| CommunicatorTools.SweepEnds | agents/communicator/tools.py:75-79 | once the sweep stopped at the limit or a notification raised, later items change nothing |
| CommunicatorTools.SweepSnoc | agents/communicator/tools.py:62-79 | while the sweep goes on, one more pending item is one more step |
| CommunicatorTools.SweepItem | agents/communicator/tools.py:62-79 | one loop iteration: other accounts' items are passed over, items without an id or stored record are skipped, a notified record gets the sweep's fields |
| CommunicatorTools.NotifyPendingForAccount | agents/communicator/tools.py:57-86 | the sweep over all pending items yields exactly the run of the sweep steps on the store before the call |
| CommunicatorTools.SweepSpec | agents/communicator/tools.py:57-86 | `sent` counts the items notified, each pending, for the target account and naming a stored record; sent plus skipped is at most the pending count; at most `limit` are sent (at least one before the limit is checked); the store keeps its keys |
| CommunicatorQueueWorker.DictContentId | services/queue_triggers/communicator_trigger_service.py:32-33 | an absent or falsy content id gives the empty id; otherwise the id's text is stripped of surrounding white space |
| CommunicatorQueueWorker.FirstDictDecides | services/queue_triggers/communicator_trigger_service.py:28-54 | the first reading of the message that yields a dict decides the content id, even when a later reading would give one; with no dict the id is empty |
| CommunicatorQueueWorker.FirstDictAt | services/queue_triggers/communicator_trigger_service.py:28-54 | the id is taken from the first reading that yields a dict |
| CommunicatorQueueWorker.NoDictEmpty | services/queue_triggers/communicator_trigger_service.py:54 | no reading yields a dict: the id is empty |
| CommunicatorQueueWorker.NotifiedUpdates | services/queue_triggers/communicator_trigger_service.py:124-128 | the notification flag fields never overwrite the record's id |
| CommunicatorQueueWorker.ProcessContent | services/queue_triggers/communicator_trigger_service.py:101-130 | processing a content id leaves the store and the payloads sent as the processing rule says, starting from the store before the call |
| CommunicatorQueueWorker.NotifyOnce | services/queue_triggers/communicator_trigger_service.py:101-128 | a payload goes out exactly when reading succeeds, the record exists, is not yet flagged and the notification is accepted; then exactly the flag fields are merged into the record, and processing the same id again sends nothing |
| CommunicatorQueueWorker.PayloadTopic | services/queue_triggers/communicator_trigger_service.py:117 | the payload's topic is the description when set, else the stored topic, else "Pending review item" |
| CommunicatorQueueWorker.Listen | services/queue_triggers/communicator_trigger_service.py:77-92 | every received message is processed once |
| CommunicatorQueueWorker.Done | services/queue_triggers/communicator_trigger_service.py:82-92 | a message is completed exactly when its processing did not raise |
| CommunicatorQueueWorker.DoneSnoc | services/queue_triggers/communicator_trigger_service.py:77-92 | one more processed message adds its own completion flag at the end |
| CommunicatorQueueWorker.ListenBatch | services/queue_triggers/communicator_trigger_service.py:67-99 | one receive of up to ten messages processes them in order from the store before, and removes from the queue exactly the messages that did not raise |
| CommunicatorQueueWorker.HandleMessage | services/queue_triggers/communicator_trigger_service.py:78-86 | a message without a content id is not processed; any other message processes the record it names |
| CommunicatorQueueWorker.ListenSnoc | services/queue_triggers/communicator_trigger_service.py:77-92 | one more message in the batch is one more message step on the store left by the earlier ones |
| CommunicatorQueueWorker.SettlementRule | services/queue_triggers/communicator_trigger_service.py:78-92 | a message without a content id is completed untouched; a message is left for redelivery exactly when reading its record raises or a due notification raises (a payload the notifier cannot format; a failed delivery does not raise), and then nothing changed |
| CommunicatorQueueWorker.StepFlags | services/queue_triggers/communicator_trigger_service.py:101-128 | a message never clears a notification flag and sends at most one payload, for a record not flagged before and flagged after |
| CommunicatorQueueWorker.BatchNotifiesOnce | services/queue_triggers/communicator_trigger_service.py:67-128 | in one batch every payload names a record flagged afterwards, and no two payloads name the same record |
| CommunicatorTriggerService.RaisedSticks | services/communicator_trigger_service.py:38-61 | once an item of a tick raised, the later items of that tick change nothing |
| CommunicatorTriggerService.TickSnoc | services/communicator_trigger_service.py:40-61 | while the tick has not raised, one more pending item is one more step |
| CommunicatorTriggerService.TickItem | services/communicator_trigger_service.py:41-61 | one loop iteration from the store as it stands is exactly one tick step |
| CommunicatorTriggerService.RemindItem | services/communicator_trigger_service.py:27-60 | the agent's reminder for a stored, unflagged record, then the flag, is exactly the reminder step |
| CommunicatorTriggerService.RunTick | services/communicator_trigger_service.py:38-61 | a tick runs the steps over all pending items, in order, from the store before the tick |
| CommunicatorTriggerService.StepFlags | services/communicator_trigger_service.py:41-60 | the agent reminds an item exactly when its id is set, the record reads, exists and is unflagged, and the agent and the notification do not raise; then the record is flagged with this trigger as source; otherwise nothing changes; no flag is ever cleared |
| CommunicatorTriggerService.RemindFlags | services/communicator_trigger_service.py:52-60 | a reminder that went out adds its id and flags its record, keeping every earlier flag; one that raised changes nothing |
| CommunicatorTriggerService.TickRemindsOnce | services/communicator_trigger_service.py:38-61 | within a tick the reminded ids are distinct, none was flagged before and all are flagged after, and earlier flags stay |
| CommunicatorTriggerService.RemindedOnceStep | services/communicator_trigger_service.py:49-60 | adding the id of a record that was unflagged and is now flagged keeps the reminded ids distinct and flagged |
| CommunicatorTriggerService.RunRounds | services/communicator_trigger_service.py:63-69 | each tick is recorded once, whether it raised or not |
| CommunicatorTriggerService.RunForever | services/communicator_trigger_service.py:63-69 | the loop runs the given number of ticks, each from the store the previous one left, and a tick that raised is followed by the next |
| CommunicatorTriggerService.RunRound | services/communicator_trigger_service.py:64-69 | one more pass of the loop is one more tick |
| CommunicatorTriggerService.AppendReminded | services/communicator_trigger_service.py:63-69 | ids reminded in a later tick join those of earlier ticks without repetition, all still flagged |
| CommunicatorTriggerService.RemindsOnceForever | services/communicator_trigger_service.py:38-69 | across all ticks a record is reminded at most once, and every reminded record is flagged |
| PythonImports.FirstMissing | agents/content_reviewer/tools.py:22-26 | `from m import ...` binds its names in order: the first name the module lacks, with every earlier name defined, or none when all are defined |
| PythonImports.ImportFrom | agents/content_reviewer/tools.py:22-26 | an import statement raises exactly when one of its names is missing, and the ImportError names a missing one |
| ContentReviewerTools.ImportFails | agents/content_reviewer/tools.py:22-26 | as written the module's store import raises ImportError at `set_prompt_review_status`, so the module never loads |
| ContentReviewerTools.JoinStartsWithFirst | agents/content_reviewer/tools.py:209 | the joined text begins with its first line |
| ContentReviewerTools.LabelledJoinBlank | agents/content_reviewer/tools.py:209 | joined labelled lines are blank exactly when there are none |
| ContentReviewerTools.ReviewableBlankIff | agents/content_reviewer/tools.py:191-209 | the reviewable text is blank exactly when none of prompt, caption, hashtags, description, media type and post type is set |
| ContentReviewerTools.PartLabelled | agents/content_reviewer/tools.py:194-208 | a field gives one labelled line exactly when it is set |
| ContentReviewerTools.LabelledConcat | agents/content_reviewer/tools.py:193-208 | lines that each start with their label still do when put together |
| ContentReviewerTools.ReviewablePartsLabelled | agents/content_reviewer/tools.py:193-208 | each of the six possible lines carries its label, and there are none exactly when no field is set |
| ContentReviewerTools.ContextEmptyIff | agents/content_reviewer/tools.py:212-219 | the context is empty exactly when the record names neither an account nor an account key |
| ContentReviewerTools.HashtagsRendered | agents/content_reviewer/tools.py:198-202 | a list of hashtags renders as "#t1 #t2 ..." |
| ContentReviewerTools.TaggedStrs | agents/content_reviewer/tools.py:201 | each hashtag of the list is written with a leading "#" |
| ContentReviewerTools.LlmReply | agents/content_reviewer/tools.py:125-184 | a failed or unparsable model call gives the verdict NEEDS_REVISION with a summary |
| ContentReviewerTools.MapVerdict | agents/content_reviewer/tools.py:258-264 | APPROVED maps to approved and REJECTED to rejected, exactly; everything else maps to needs_revision, never pending |
| ContentReviewerTools.VerdictIgnoresCaseAndSpace | agents/content_reviewer/tools.py:258 | verdicts that differ only in letter case map to the same status |
| ContentReviewerTools.FallbackVerdict | agents/content_reviewer/tools.py:258 | the default verdict NEEDS_REVISION is already normalised |
| ContentReviewerTools.LlmFailsClosed | agents/content_reviewer/tools.py:148-264 | a failed model call reads NEEDS_REVISION and maps to needs_revision |
| ContentReviewerTools.LlmDecision | agents/content_reviewer/tools.py:258-265 | a decision from the model is marked as consulted and its status is the mapped verdict |
| ContentReviewerTools.PlanNeedsText | agents/content_reviewer/tools.py:235-239 | a stored plan is refused as having no reviewable text exactly when none of its text fields is set |
| ContentReviewerTools.PlanModerationVeto | agents/content_reviewer/tools.py:241-254 | text blocked by moderation is rejected whatever the model would answer |
| ContentReviewerTools.PlanApprovedOnlyIf | agents/content_reviewer/tools.py:241-273 | a plan is approved only when moderation passed and the model replied APPROVED |
| ContentReviewerTools.DecideMedia | agents/content_reviewer/tools.py:304-348 | the gate for a record with a blob URL computes exactly the media decision |
| ContentReviewerTools.ReviewGeneratedMedia | agents/content_reviewer/tools.py:276-349 | a missing record or one without a blob URL is an error that writes nothing; otherwise the record gets the decided status and summary merged in, and nothing else changes |
| ContentReviewerTools.MediaGateOrder | agents/content_reviewer/tools.py:304-336 | an image blocked by moderation is rejected whatever else the services say; a video never consults image moderation or the vision model; blocked text metadata is rejected without the model |
| ContentReviewerTools.MediaVerdictRecorded | agents/content_reviewer/tools.py:304-349 | the verdict `review_generated_media` returns is upper-case and the status it records is that verdict mapped, so "APPROVED" is returned exactly when "approved" is recorded |
| ContentReviewerTools.MediaApprovedOnlyIf | agents/content_reviewer/tools.py:304-345 | media is approved only when every moderation check that ran passed and the model that reviewed it replied APPROVED |
| ContentReviewerTools.ReviewTextGate | agents/content_reviewer/tools.py:352-379 | blank text calls nothing; blocked text never reaches the model; a failed model call reads NEEDS_REVISION |
| InstaPostGeneratorTools.JobCall | agents/insta_post_generator/tools.py:195-332 | an image job calls the image model with the job's prompt, aspect ratio, format and resolution; a video job resolves its model hint (empty or "kling" the default, "sora" the alternative, "fal-ai/..." itself), snaps a Sora duration up to 4, 8 or 12, clamps a Kling duration to 3..15 (keeping one already in range), and passes any other model the duration and aspect ratio as asked |
| InstaPostGeneratorTools.VideoCallAsWorker | agents/insta_post_generator/tools.py:301-332 | a video job gets exactly the call the media generation worker builds for a video record with the same prompt, duration, aspect ratio and model hint |
| InstaPostGeneratorTools.StatusUpdatesSpec | agents/insta_post_generator/tools.py:221-231 | the updates hold the status, error and update time, a completion time only for "completed" and a failure time only for "failed", with every extra update applied last |
| InstaPostGeneratorTools.MarkJobStatus | agents/insta_post_generator/tools.py:214-232 | the status updates are merged into the job's record; an unknown id writes nothing |
| InstaPostGeneratorTools.CompletedExtra | agents/insta_post_generator/tools.py:263-355 | the completed job's fields never touch the status fields or the id, and set the media type of the job |
| InstaPostGeneratorTools.VideoExtra | agents/insta_post_generator/tools.py:339-355 | the video fields leave the status fields and the id alone and set the media type "video" |
| InstaPostGeneratorTools.ImageExtra | agents/insta_post_generator/tools.py:263-281 | the image fields leave the status fields and the id alone and set the media type "image" |
| InstaPostGeneratorTools.ResultDoc | agents/insta_post_generator/tools.py:283-363 | the job result has exactly the content id, media type, blob URL, prompt and model, naming the job's record, the uploaded blob and the model used |
| InstaPostGeneratorTools.RunEntry | agents/insta_post_generator/tools.py:366-400 | a run ends "completed" with a result exactly when the provider hands back an asset, and "failed" with the provider's error otherwise; it records when it ended and keeps the entry's identity and request |
| InstaPostGeneratorTools.RunTouchesOwnRecord | agents/insta_post_generator/tools.py:366-400 | a run writes only the job's own record and keeps every record id |
| InstaPostGeneratorTools.UpdatedFrame | agents/insta_post_generator/tools.py:232 | updating one record keeps the ids and every other record |
| InstaPostGeneratorTools.RunRecord | agents/insta_post_generator/tools.py:369-400 | after a run the job's record mirrors the entry: the same final status, the error and failure time of a failed job, the completion time and media type of a completed one |
| InstaPostGeneratorTools.FinalMirrors | agents/insta_post_generator/tools.py:263-400 | whatever the record held, the last status write makes it mirror the final entry |
| InstaPostGeneratorTools.Marked | agents/insta_post_generator/tools.py:221-232 | after a status write the record holds the status and error, the completion or failure time for those statuses, and every extra update |
| InstaPostGeneratorTools.NormalizeJobType | agents/insta_post_generator/tools.py:733-735 | an empty job type is "image"; otherwise the trimmed, lower-cased type is kept exactly when it is "image" or "video" |
| InstaPostGeneratorTools.NormalizeJobTypeStable | agents/insta_post_generator/tools.py:733 | types differing only in case normalise alike, and a normalised type normalises to itself |
| InstaPostGeneratorTools.KnownTypeNormal | agents/insta_post_generator/tools.py:733-734 | "image" and "video" are accepted as they are |
| InstaPostGeneratorTools.SubmittedRecordJob | agents/insta_post_generator/tools.py:738-760 | the submitted record is keyed by its own id, stores the job id with status "submitted" and is not yet queued |
| InstaPostGeneratorTools.SubmittedRecordPending | agents/insta_post_generator/tools.py:738-760 | the submitted record is pending approval and publishing, has no blob yet, and takes its media type and model from the job type and its account from the request or else the business account |
| InstaPostGeneratorTools.PutKeepsJobsValid | agents/insta_post_generator/tools.py:762-777 | adding a well-formed entry keeps the job table well formed |
| InstaPostGeneratorTools.RunKeepsJobValid | agents/insta_post_generator/tools.py:366-400 | a run keeps an entry well formed and ends it "completed" or "failed" |
| InstaPostGeneratorTools.ExecuteJob | agents/insta_post_generator/tools.py:366-400 | the store ends as the run says: the record marked running, then completed with the asset's fields or failed with the error |
| InstaPostGeneratorTools.SavePending | agents/insta_post_generator/tools.py:738-760 | the pending record is created exactly when its id is free, and nothing else changes |
| InstaPostGeneratorTools.GenerationJobs.constructor | agents/insta_post_generator/tools.py:762 | the job table starts empty and well formed |
| InstaPostGeneratorTools.GenerationJobs.Submit | agents/insta_post_generator/tools.py:721-786 | an unknown job type is refused with nothing written; otherwise exactly the pending record and the "submitted" entry are added; a failed save adds neither |
| InstaPostGeneratorTools.GenerationJobs.Run | agents/insta_post_generator/tools.py:366-400 | running a job leaves the store and that entry as the run says and every other entry as it was |
| InstaPostGeneratorTools.GenerationJobs.Check | agents/insta_post_generator/tools.py:789-809 | an unknown job is an error "Job ... not found"; a known one reports its entry, with the result and the stored record exactly when completed and the error exactly when failed |
| InstaPostGeneratorTools.SubmitThenRun | agents/insta_post_generator/tools.py:721-786 | a new entry is well formed and "submitted" without a result, and its run ends "completed" or "failed", still well formed |
| InstaPostGeneratorTools.RecommendedLengthSpec | agents/insta_post_generator/tools.py:629-645 | the four known formats get distinct length guides; any other format gets "medium" |
| InstaPostGeneratorTools.CaptionBrief | agents/insta_post_generator/tools.py:636-651 | the brief has exactly its eight fields, the recommended length of the format, and "auto-select best fit" when no hook is given |
| InstaPostGeneratorTools.BucketsSum | agents/insta_post_generator/tools.py:664-666 | the broad, medium and niche bucket sizes add up to the requested count; for a non-negative count they are the floor quarter, the floor half and a remainder no smaller than the quarter |
| InstaPostGeneratorTools.CaptionContext | agents/insta_post_generator/tools.py:661 | an empty caption is shown as "N/A"; otherwise its first 200 characters |
| LegacyInstaPostGeneratorTools.FirstUnexpected | python/insta_agent/shared/services/media_metadata_service.py:97-112 | there is no undeclared keyword exactly when every passed keyword is declared; otherwise the reported position holds an undeclared keyword and every earlier one is declared |
| LegacyInstaPostGeneratorTools.BindError | python/insta_agent/shared/services/review_queue_service.py:99-108 | a keyword call raises a TypeError exactly when some passed keyword is not among the callee's declared parameters |
| LegacyInstaPostGeneratorTools.FirstUnexpectedAt | python/insta_agent/shared/services/media_metadata_service.py:97-112 | an undeclared keyword after keywords that all bind is the one the TypeError names |
| LegacyInstaPostGeneratorTools.ImageSaveRaises | python/insta_agent/agents/insta_post_generator/tools.py:213-231 | the image tool's save into the legacy store raises "unexpected keyword argument 'post_type'" |
| LegacyInstaPostGeneratorTools.VideoSaveRaises | python/insta_agent/agents/insta_post_generator/tools.py:332-347 | the video tool's save into the legacy store raises "unexpected keyword argument 'post_type'" |
| LegacyInstaPostGeneratorTools.QueueRaises | python/insta_agent/agents/insta_post_generator/tools.py:233-243 | the call into the legacy review queue would raise at its first keyword, content_id |
| LegacyInstaPostGeneratorTools.IntendedCallsBind | python/insta_agent/agents/insta_post_generator/tools.py:213-359 | every keyword the two tools pass binds in the content-record store and in the current review queue |
| LegacyInstaPostGeneratorTools.SaveAndQueueAsWritten | python/insta_agent/agents/insta_post_generator/tools.py:213-243 | a save whose keywords do not bind reports the TypeError and leaves store and queue unchanged; success implies that both calls bound |
| LegacyInstaPostGeneratorTools.GenerateImageAsWritten | python/insta_agent/agents/insta_post_generator/tools.py:176-267 | a provider failure is reported with the prompt and changes nothing; after a successful generation the save's TypeError is reported and nothing is recorded or queued; success only if both calls bind |
| LegacyInstaPostGeneratorTools.GenerateVideoAsWritten | python/insta_agent/agents/insta_post_generator/tools.py:270-381 | the same as the image tool, with the resolved video model in every error report |
| LegacyInstaPostGeneratorTools.QueuedRecordPending | python/insta_agent/agents/insta_post_generator/tools.py:213-255 | after the intended save and queueing, the new record is present under its id awaiting approval, every other record is unchanged, and the queued item carries the record's id |
| LegacyInstaPostGeneratorTools.SaveAndQueue | python/insta_agent/agents/insta_post_generator/tools.py:213-243 | an id clash changes nothing and is an error; otherwise the record is saved and reset for review, and the review item is appended to the queue exactly when it is delivered |
| LegacyInstaPostGeneratorTools.GenerateImage | python/insta_agent/agents/insta_post_generator/tools.py:176-267 | a provider failure changes nothing; otherwise a pending post record for the business account is saved and queued, and the report names the image model, the new id, both URLs, "pending" and "queued"; a failed send is an error after the write |
| LegacyInstaPostGeneratorTools.GenerateVideo | python/insta_agent/agents/insta_post_generator/tools.py:270-381 | the same for a pending reel with the resolved video model, which every report names |
| LegacyMediaGeneratorTools.VideoCall | python/insta_agent/agents/media_generator/tools.py:116-256 | an empty hint or "kling" picks the default model, "sora" the alternative, a "fal-ai/" id is used as given (lower-cased), anything else the default; Sora arguments exactly when the model id contains "sora", Kling arguments exactly when it contains "kling" but not "sora", with the Sora and Kling duration rules, otherwise the duration and aspect as given |
| LegacyMediaGeneratorTools.VideoCallAsJob | python/insta_agent/agents/media_generator/tools.py:116-256 | for a video job, the legacy tool resolves the same model and builds the same arguments as the generation worker |
| LegacyMediaGeneratorTools.IntOf | python/insta_agent/agents/media_generator/tools.py:180-181 | a width or height is recorded exactly when the provider returned an integer |
| LegacyMediaGeneratorTools.ImageRecord | python/insta_agent/agents/media_generator/tools.py:171-185 | a generated image's record is keyed by the new id, holds the image media type, the model, blob and provider URLs and the provider's description, and has no approval, publish or generation status: nothing marks it for review |
| LegacyMediaGeneratorTools.VideoRecord | python/insta_agent/agents/media_generator/tools.py:271-282 | a generated video's record is keyed by the new id, holds the video media type, the model, both URLs and the duration, and has no lifecycle status fields |
| LegacyMediaGeneratorTools.GenerateImage | python/insta_agent/agents/media_generator/tools.py:135-206 | a provider failure is reported with the prompt and writes nothing; an id clash is reported and writes nothing; otherwise exactly the new image record is added and the report names the image model, the id and both URLs |
| LegacyMediaGeneratorTools.GenerateVideo | python/insta_agent/agents/media_generator/tools.py:209-300 | the same for a video record, with the resolved model named in the failure reports too |
| LegacyMediaGeneratorTools.UploadMedia | python/insta_agent/agents/media_generator/tools.py:303-334 | a missing file is reported as "File not found: " and the path; the upload succeeds exactly when the file exists and the blob upload succeeds, and then the public URL, blob name and size are the blob's; an upload failure is reported with the path |
| LegacyMediaGeneratorTools.MissingFileNeverUploads | python/insta_agent/agents/media_generator/tools.py:311-313 | for a missing file the report is an error that does not depend on what the upload would have done |
| LegacyPublisherTools.AccountIdOf | python/insta_agent/agents/publisher/tools.py:32-33 | there is no id exactly when no configured account has the name; a found id is paired with that name in the configuration |
| LegacyPublisherTools.ResolveAccountSpec | python/insta_agent/agents/publisher/tools.py:30-38 | no name selects the default service; a name is accepted exactly when an account of that name has a non-empty id, which is then used; an unknown name is an error |
| LegacyPublisherTools.MockId | python/insta_agent/agents/publisher/tools.py:84-85 | a mock id starts with the prefix and an underscore and, for a full uuid, is thirteen characters longer than the prefix |
| LegacyPublisherTools.PublishContainer | python/insta_agent/agents/publisher/tools.py:128-229 | the publish step follows its specification: one publish call on the target, published with Instagram's media id or failed with its error |
| LegacyPublisherTools.PublishImagePost | python/insta_agent/agents/publisher/tools.py:110-138 | the image publish follows its specification (DryRunMakesNoCalls and LivePostsSpec give its properties) |
| LegacyPublisherTools.PublishReel | python/insta_agent/agents/publisher/tools.py:141-191 | the reel publish, with its polling loop, follows its specification (ReelChecks gives its properties) |
| LegacyPublisherTools.PublishCarousel | python/insta_agent/agents/publisher/tools.py:194-232 | the carousel publish, with its loop over the child images, follows its specification (CarouselCalls gives its properties) |
| LegacyPublisherTools.DryRunMakesNoCalls | python/insta_agent/agents/publisher/tools.py:112-208 | in dry-run mode no call reaches Instagram; the status is "published (dry-run)", the ids start with "media_" and "container_", the preview is the caption's first 100 characters, and a carousel counts one child per URL |
| LegacyPublisherTools.FinishPublishes | python/insta_agent/agents/publisher/tools.py:128-221 | the publish step appends exactly the publish call, and a published outcome carries the media id Instagram returned for it |
| LegacyPublisherTools.LivePostsSpec | python/insta_agent/agents/publisher/tools.py:110-232 | a live post on an unknown account fails before any call; a published post was published by its last call, on the resolved account's service, and names the account or "default" |
| LegacyPublisherTools.ReelChecks | python/insta_agent/agents/publisher/tools.py:156-191 | a reel creates its container first, checks it at most ten times, is published only right after a check answered FINISHED, and a time-out names the created container |
| LegacyPublisherTools.CarouselCalls | python/insta_agent/agents/publisher/tools.py:209-229 | a published carousel counts one child per URL, and its calls are one empty-caption image container per URL in order, the carousel with the caption, and the publish call |
| LegacyPublisherTools.CarouselRouted | python/insta_agent/agents/publisher/tools.py:209-229 | a published carousel created every child without error, then the carousel container, then published it |
| LegacyPublisherTools.CheckPublishStatus | python/insta_agent/agents/publisher/tools.py:235-243 | dry-run answers FINISHED without a call; otherwise the answer is one status check on the default service |
| LegacyPublisherTools.GetApprovedItems | python/insta_agent/agents/publisher/tools.py:101-107 | the items are the approved queue as the service peeks it, and the count is their number |
| LegacyPublisherTools.ApprovedItemsSpec | python/insta_agent/agents/publisher/tools.py:101-107 | without an account every peeked approved message is listed, as a permutation of the batch, sorted oldest first |
| LegacyPublisherTools.MarkAsPublished | python/insta_agent/agents/publisher/tools.py:246-248 | marking follows the earlier queue's mark-published step: the result, the abandoned messages and the new queue |
| PublisherQueueWorker.Listen | services/queue_triggers/publisher_trigger_service.py:46-62 | processing a batch yields one outcome per received message |
| PublisherQueueWorker.Done | services/queue_triggers/publisher_trigger_service.py:55-62 | a message is completed exactly when its processing did not raise |
| PublisherQueueWorker.ProcessContent | services/queue_triggers/publisher_trigger_service.py:71-111 | the processing follows its specification: store, outcome, Instagram calls and mails (GuardsBeforePublish and ConfirmOnlyAfterPublish give its properties) |
| PublisherQueueWorker.ListenBatch | services/queue_triggers/publisher_trigger_service.py:40-62 | one listener pass processes up to five received messages in order, as the batch specification says, and removes from the queue exactly the messages whose processing did not raise |
| PublisherQueueWorker.HandleMessage | services/queue_triggers/publisher_trigger_service.py:48-56 | a message with a falsy content id is not processed; otherwise its record is processed as specified |
| PublisherQueueWorker.ListenSnoc | services/queue_triggers/publisher_trigger_service.py:46-62 | a batch one message longer is the shorter batch followed by that message's step |
| PublisherQueueWorker.GuardsBeforePublish | services/queue_triggers/publisher_trigger_service.py:75-99 | nothing is published, written or mailed unless the record exists, is approved, has its media review approved and is not yet published; a refused record changes nothing |
| PublisherQueueWorker.ConfirmOnlyAfterPublish | services/queue_triggers/publisher_trigger_service.py:99-111 | at most one confirmation is mailed, only after a "published" result, for the stored record now marked published; a failed publish mails nothing |
| PublisherQueueWorker.NothingMailedAsWritten | services/queue_triggers/publisher_trigger_service.py:99-108 | as written no confirmation is mailed, while the store, the Instagram calls and the completed messages are as with a working mail |
| PublisherQueueWorker.MailDoesNotSettle | services/queue_triggers/publisher_trigger_service.py:103-108 | whether the confirmation mail succeeds changes neither the store, nor the Instagram calls, nor which messages are completed |
| PublisherQueueWorker.DoneSnoc | services/queue_triggers/publisher_trigger_service.py:55-62 | the completion flags of a longer batch extend those of the shorter one by the new message's flag |
| PublisherQueueWorker.MessageMailFree | services/queue_triggers/publisher_trigger_service.py:103-108 | for one message, the mail outcome changes neither the store, nor the calls, nor whether the processing raised |
| PublisherQueueWorker.SettlementRule | services/queue_triggers/publisher_trigger_service.py:49-62 | a message without a content id is completed untouched; processing raises exactly when the record read fails, and then nothing is changed |
| PublisherTriggerService.TickRunSnoc | services/publisher_trigger_service.py:26-49 | a tick over one more item is the shorter tick followed by that item's step, while nothing has raised |
| PublisherTriggerService.RaisedSticks | services/publisher_trigger_service.py:22-49 | once an item's processing raised, the rest of the tick does nothing |
| PublisherTriggerService.TickItem | services/publisher_trigger_service.py:27-49 | one item is handled as the tick step specifies: store, triggered ids, calls and whether it raised |
| PublisherTriggerService.RunTick | services/publisher_trigger_service.py:22-49 | a tick walks the approved items, oldest first, as the tick specification says, and leaves the store it reports |
| PublisherTriggerService.TickOrder | services/publisher_trigger_service.py:23-24 | the tick's items are the approved queue as peeked, sorted by creation time, oldest first |
| PublisherTriggerService.TriggerRule | services/publisher_trigger_service.py:27-48 | the agent is run for an item exactly when its id is set, the record read does not raise, the record exists, is approved and is not published, and the run does not raise; the run appends exactly that id and keeps the earlier calls; an item without an id or with a record failing the guards changes nothing |
| PublisherTriggerService.TriggeredFromRows | services/publisher_trigger_service.py:26-49 | every id the agent was run for is the id of one of the tick's items |
| PublisherTriggerService.PublishedNotRetriggered | services/publisher_trigger_service.py:38-48 | once the agent published a record, a later item with the same id does not run the agent again |
| PublisherTriggerService.PublishMarksRecord | agents/publisher/tools.py:128-215 | a record the publish tool published is stored with publish status "published" |
| PublisherTriggerService.RunRounds | services/publisher_trigger_service.py:51-57 | each round of the worker records whether its tick raised |
| PublisherTriggerService.RunForever | services/publisher_trigger_service.py:51-57 | the worker's loop follows the round specification for the given number of rounds |
| PublisherTriggerService.RunRound | services/publisher_trigger_service.py:53-57 | one more round extends the round specification by one tick; a tick that raises before reading any item leaves the store unchanged and the next round still runs |
| PublisherTriggerService.EarlierTicksKept | services/publisher_trigger_service.py:51-57 | later rounds only add to earlier ones: raised flags, triggered ids and calls of the first rounds are prefixes of those of all rounds |
| PublisherTools.NonEmptyTags | agents/publisher/tools.py:33 | the hashtag list keeps at most as many entries as it had |
| PublisherTools.CaptionCases | agents/publisher/tools.py:27-39 | the caption is the stripped caption alone when there are no hashtags, the hashtags alone when there is no caption, and otherwise the caption, a blank line and the hashtags |
| PublisherTools.TagsDropEmpty | agents/publisher/tools.py:33 | empty entries of a string hashtag list are dropped and the rest keep their text and order |
| PublisherTools.Filtered | agents/publisher/tools.py:33 | no kept hashtag is empty |
| PublisherTools.ChildErrorSticks | agents/publisher/tools.py:171-174 | once a child container creation raises, later URLs are never tried |
| PublisherTools.ChildrenInOrder | agents/publisher/tools.py:171-174 | without an error the loop made one child per URL, its calls being one empty-caption image container per URL in order; it never makes more calls than there are URLs |
| PublisherTools.PollBounded | agents/publisher/tools.py:179-195 | the status loop checks at most ten times, attempts in order, and ends in FINISHED only when its last check answered FINISHED |
| PublisherTools.RouteOf | agents/publisher/tools.py:128-177 | a refusal is never a publication |
| PublisherTools.PublishAndMark | agents/publisher/tools.py:176-212 | publishing a container follows its specification: one publish call, and on success the record is marked published with the media and container ids |
| PublisherTools.CreateChildren | agents/publisher/tools.py:171-174 | the child loop follows its specification (ChildrenInOrder and ChildErrorSticks give its properties) |
| PublisherTools.PublishCarousel | agents/publisher/tools.py:163-176 | the carousel path follows its specification (CarouselCalls and CarouselMarks give its properties) |
| PublisherTools.PollStatus | agents/publisher/tools.py:179-195 | the status loop follows its specification (PollBounded gives its properties) |
| PublisherTools.PublishVideo | agents/publisher/tools.py:177-196 | the video path follows its specification (VideoChecks and VideoMarks give its properties) |
| PublisherTools.PublishImage | agents/publisher/tools.py:197-199 | the image path follows its specification (ImageMarks gives its properties) |
| PublisherTools.PublishRecord | agents/publisher/tools.py:126-215 | publishing a record follows its specification on the Instagram service of the record's `target_account_id`: outcome, calls and the store after (GuardsMakeNoCalls and MarkedOnlyWhenPublished give its properties) |
| PublisherTools.EachUsesOwnAccount | agents/publisher/tools.py:157-161 | each record of a batch is published through the service of its own `target_account_id`; the services of other accounts never matter |
| PublisherTools.GuardsMakeNoCalls | agents/publisher/tools.py:128-170 | a record not approved, already published, without blob_url, or a carousel without URLs gets its refusal with no Instagram call and no write; an already-published record answers "ok" with its stored media id |
| PublisherTools.FinishMarks | agents/publisher/tools.py:176-212 | after the container exists, the outcome is published exactly when the publish call succeeds, and only then is the record marked, with that container |
| PublisherTools.CarouselMarks | agents/publisher/tools.py:163-202 | the carousel path writes the store only for a publication, which follows the publish call and marks the record with its media and container ids |
| PublisherTools.VideoUnfinishedMarks | agents/publisher/tools.py:178-195 | a video whose creation raised or whose checks did not end in FINISHED leaves the store alone and is not published |
| PublisherTools.VideoFinishedMarks | agents/publisher/tools.py:182-202 | a video whose checks ended in FINISHED writes the store only for a publication, marking the record with its ids |
| PublisherTools.VideoMarks | agents/publisher/tools.py:177-202 | the video path writes the store only for a publication, which follows the publish call and marks the record |
| PublisherTools.ImageMarks | agents/publisher/tools.py:197-202 | the image path writes the store only for a publication, which follows the publish call and marks the record |
| PublisherTools.MarkedOnlyWhenPublished | agents/publisher/tools.py:126-215 | whatever the route, the store is written only for a publication, which follows a successful publish call and marks exactly that record with the media and container ids |
| PublisherTools.CarouselCalls | agents/publisher/tools.py:163-176 | a published carousel had a non-empty URL list and made one empty-caption child per URL in order, then the carousel container with the built caption, then the publish call |
| PublisherTools.VideoChecks | agents/publisher/tools.py:177-196 | an approved, unpublished reel or video with a blob URL first creates its video container, checks it at most ten times, is published only after a check answered FINISHED, and otherwise is left unpublished and unwritten |
| PublisherTools.VideoPollChecks | agents/publisher/tools.py:179-196 | once the video container exists: at most ten checks, publication only after FINISHED, nothing written otherwise |
| PublisherTools.VideoEnds | agents/publisher/tools.py:179-196 | once the video container exists, FINISHED leads to the publish step and any other end writes nothing and is not a publication |
| PublisherTools.FinishCalls | agents/publisher/tools.py:176-199 | the publish step appends exactly the publish call, and a publication implies that call succeeded |
| PublisherTools.VideoRouted | agents/publisher/tools.py:129-177 | a record that passes the guards and is a reel or a video, not a carousel, takes the video path |
| PublisherTools.PublishContentById | agents/publisher/tools.py:218-222 | an unknown id is an error with no call and no write; otherwise the stored record is published as specified |
| PublisherTools.EachStep | agents/publisher/tools.py:249-251 | publishing one more record extends the batch by that record's outcome, calls and store |
| PublisherTools.CountsAsPublishedIff | agents/publisher/tools.py:252 | a status text starts with "published" exactly for a publication |
| PublisherTools.CountPublished | agents/publisher/tools.py:252-255 | the number of published outcomes is at most the number of outcomes |
| PublisherTools.CountStep | agents/publisher/tools.py:252-255 | counting one more outcome adds one exactly when it counts as published |
| PublisherTools.PublishBatch | agents/publisher/tools.py:245-255 | the loop publishes every record in order, as the batch specification says, and counts as published the publications and as failed all others |
| PublisherTools.PublishOldestFirst | agents/publisher/tools.py:243-263 | the records are published oldest first, and the summary counts every outcome, the publications and the rest |
| PublisherTools.PublishAllPending | agents/publisher/tools.py:225-263 | no approved pending record gives the empty summary with no call and no write; otherwise they are published oldest first and summarised |
| PublisherTools.CountsPublications | agents/publisher/tools.py:252-255 | the published count is the number of outcomes that are publications: an already-published record's "ok" counts as failed |
| PublisherTools.PublishedIndicesSnoc | agents/publisher/tools.py:252-255 | the published positions of a longer outcome list are those of the shorter list, plus the last one for a publication |
| PublisherTools.EachOnce | agents/publisher/tools.py:249-259 | the batch has one outcome per queried record, so "processed" is the number of records |
| PublisherTools.PendingOrder | agents/publisher/tools.py:227-243 | the records are taken oldest first, and every one is a stored record that is approved and pending publication |
| PublisherTools.ListInstagramAccounts | agents/publisher/tools.py:96-102 | every configured account is listed in order, the count is their number, and the default is the first name, or empty with no account |
| PublisherTools.ListContent | agents/publisher/tools.py:105-116 | the listed items are the query's rows for the filter and limit, and the count is their number |
| PublisherTools.HistoryRows | agents/publisher/tools.py:114-116 | the history lists only stored, published records, newest first, at most the limit |
| PublisherTools.GetContentDetails | agents/publisher/tools.py:119-123 | the answer is ok exactly for a stored id, and then it is the stored record |
| PublisherTools.SendPublishConfirmation | agents/publisher/tools.py:266-276 | the confirmation follows its specification (ConfirmOnlyPublished gives its properties) |
| PublisherTools.ConfirmOnlyPublished | agents/publisher/tools.py:266-276 | a confirmation goes out exactly for a stored record whose publish status is "published", and it is that record |
| PublisherTools.ConfirmationNeverSent | agents/publisher/tools.py:266-276 | as written no confirmation is sent: the tool raises exactly for a stored, published record and answers as intended otherwise |
| MediaGenerationWorker.ResolveVideoModel | services/queue_triggers/media_generation_worker.py:56-66 | an empty hint or "kling" picks the default model, "sora" the alternative, a "fal-ai/" id is kept trimmed and lower-cased, anything else falls back to the default |
| MediaGenerationWorker.ResolveFixedPoint | services/queue_triggers/media_generation_worker.py:59-65 | an explicit fal.ai id, once resolved, resolves to itself |
| MediaGenerationWorker.PrefixNonEmpty | services/queue_triggers/media_generation_worker.py:64 | a hint starting with "fal-ai/" is not empty |
| MediaGenerationWorker.ResolveIgnoresCase | services/queue_triggers/media_generation_worker.py:59 | hints that differ only in letter case resolve to the same model |
| MediaGenerationWorker.HintOf | services/queue_triggers/media_generation_worker.py:86 | a missing or falsy video_model is the empty hint, a string is used as given, and any other value makes the stripping raise |
| MediaGenerationWorker.DurationOf | services/queue_triggers/media_generation_worker.py:87 | a missing or falsy duration is 5 seconds, a non-zero integer is used as given, and any other value cannot be compared and raises |
| MediaGenerationWorker.BuildFalArguments | services/queue_triggers/media_generation_worker.py:79-126 | a record without a prompt raises; otherwise the arguments carry the record's prompt, and they are image arguments exactly when the media type is not "video" |
| MediaGenerationWorker.DefaultDuration | services/queue_triggers/media_generation_worker.py:87-116 | a video record without a duration is shaped as a 5-second request: Sora rounds it up to 8 seconds, Kling and other models keep 5 |
| MediaGenerationWorker.SubmittedUpdates | services/queue_triggers/media_generation_worker.py:197-202 | the submit writes exactly the four fields status, request id, model id and submission time, with status "submitted" |
| MediaGenerationWorker.SubmitStepSpec | services/queue_triggers/media_generation_worker.py:173-202 | only a stored record whose generation status is "queued" is submitted, when its arguments build and the submit returns; it then reads "submitted" with the request id and the resolved model id; every other record, and the whole store in the other outcomes, is unchanged |
| MediaGenerationWorker.RedeliverySkipped | services/queue_triggers/media_generation_worker.py:180-185 | a message delivered again after a successful submission is skipped and changes nothing |
| MediaGenerationWorker.SubmitToFal | services/queue_triggers/media_generation_worker.py:173-202 | the submission follows its specification (SubmitStepSpec gives its properties) |
| MediaGenerationWorker.ListenFold | services/queue_triggers/media_generation_worker.py:159-169 | processing a batch yields one outcome per received message |
| MediaGenerationWorker.Completes | services/queue_triggers/media_generation_worker.py:163-169 | a message is completed exactly when its processing did not raise |
| MediaGenerationWorker.CompletesSnoc | services/queue_triggers/media_generation_worker.py:159-169 | the completion flags of a longer batch extend those of the shorter one by the new message's flag |
| MediaGenerationWorker.ListenSnoc | services/queue_triggers/media_generation_worker.py:159-169 | a batch one message longer is the shorter batch followed by that message's step |
| MediaGenerationWorker.ListenBatch | services/queue_triggers/media_generation_worker.py:149-169 | one listener pass processes up to ten received messages in order, as the batch specification says, and removes from the queue exactly the messages whose processing returned normally |
| MediaGenerationWorker.HandleMessage | services/queue_triggers/media_generation_worker.py:161-163 | a message without a content id raises and stays on the queue; otherwise the named record is submitted as specified |
| MediaGenerationWorker.SubmittedRowsSpec | services/queue_triggers/media_generation_worker.py:227-237 | every polled row is a stored "submitted" record, the rows are in submission order, and there are at most 50 |
| MediaGenerationWorker.CompletionUpdates | services/queue_triggers/media_generation_worker.py:303-318 | the completion marks the record "completed" with the blob URL and both review statuses "pending", never writes the id, and adds a description exactly for an image |
| MediaGenerationWorker.HandleStepSpec | services/queue_triggers/media_generation_worker.py:275-367 | when the asset is stored, the record is marked "completed" with its blob URL and approval status "pending", and its media review status is the one the reviewer recorded for the completed record ("pending" when the review raised or answered an error); one review-pending message is sent exactly when the reviewer answered "APPROVED" and the send goes through, and the record is then recorded media-review "approved"; a failed fetch, download or upload changes nothing; other records are untouched |
| MediaGenerationWorker.CompletedFields | services/queue_triggers/media_generation_worker.py:303-320 | the completion write keeps every other record and sets "completed", the blob URL and both review statuses "pending" on its own |
| MediaGenerationWorker.ReviewConsistent | agents/content_reviewer/tools.py:336-349 | every answer of the media reviewer returns an upper-case verdict and records that verdict's mapped status |
| MediaGenerationWorker.ApprovedVerdictRecorded | services/queue_triggers/media_generation_worker.py:328-329 | the gate lets through only a reviewer's answer that recorded media review "approved" |
| MediaGenerationWorker.GateOnPending | services/queue_triggers/media_generation_worker.py:322-362 | on a record pending both reviews, the gate keeps approval "pending", records the reviewer's status (or keeps "pending" for an error answer), keeps the generation status and blob URL, and sends one message exactly for an "APPROVED" verdict whose send goes through, after which the media review is "approved" |
| MediaGenerationWorker.GateStepFrame | services/queue_triggers/media_generation_worker.py:322-362 | for any answer of the reviewer, the gate writes only the four media-review fields and `approval_status`, records a decision's status, and sends one message exactly for an "APPROVED" verdict whose send goes through, then setting approval "pending" |
| MediaGenerationWorker.UpdatedFrame | services/queue_triggers/media_generation_worker.py:320 | updating one stored record keeps every key and every other record, and sets the updated fields |
| MediaGenerationWorker.ReviewStepFrame | services/queue_triggers/media_generation_worker.py:322-362 | the review gate touches only the reviewer's four media-review fields and the approval status; the media review status becomes the status the reviewer decided (unchanged after an error answer or a raise); one message is sent exactly when the reviewer answered "APPROVED" and the send went through, and then approval is "pending" |
| MediaGenerationWorker.ReviewMessageId | services/queue_triggers/media_generation_worker.py:346-352 | the review-pending message has message id content id + "-review" and carries the content id |
| MediaGenerationWorker.PollFoldFrame | services/queue_triggers/media_generation_worker.py:245-273 | a poll tick touches only the records it walked, no record appears or disappears, and the queue only grows |
| MediaGenerationWorker.RowIdsSnoc | services/queue_triggers/media_generation_worker.py:245-246 | the walked ids of a longer row list include those of the shorter list and the new row's id |
| MediaGenerationWorker.PollStepFrame | services/queue_triggers/media_generation_worker.py:245-273 | one row touches at most the record it names and only appends to the queue |
| MediaGenerationWorker.HandleStepFrame | services/queue_triggers/media_generation_worker.py:275-367 | the completion handling touches at most its own record and only appends to the queue |
| MediaGenerationWorker.HandleCompleted | services/queue_triggers/media_generation_worker.py:275-367 | the completion handling on the store and the queue follows its specification (HandleStepSpec gives its properties) |
| MediaGenerationWorker.NoVerdictSendsNothing | services/queue_triggers/media_generation_worker.py:322-341 | when the review raises, the completion stores the asset, records no media review and sends no review-pending message |
| MediaGenerationWorker.TickAsWrittenSendsNothing | services/queue_triggers/media_generation_worker.py:322-341 | as written a poll tick never sends a review-pending message, whatever the provider and the reviewer answer |
| MediaGenerationWorker.SendForReview | services/queue_triggers/media_generation_worker.py:322-362 | the review gate on the store and the queue runs the media reviewer (ContentReviewerTools.ReviewGeneratedMedia, which records its decision) and then the send, as `ReviewStep` specifies (ReviewStepFrame and HandleStepSpec give its properties) |
| MediaGenerationWorker.Forward | services/queue_triggers/media_generation_worker.py:344-362 | after an "APPROVED" verdict the message is sent; a delivered send is followed by the approval "pending" write, a refused one changes nothing |
| MediaGenerationWorker.CheckSubmittedItems | services/queue_triggers/media_generation_worker.py:222-273 | the poll tick walks the submitted rows in order as the tick specification says, and a row whose handling raised ends the tick |
| MediaGenerationWorker.PollOne | services/queue_triggers/media_generation_worker.py:246-267 | a row without a request or model id, or whose status call raised or is not yet completed, is left alone; a completed one is handled |
| MediaGenerationWorker.PollFoldStep | services/queue_triggers/media_generation_worker.py:245-273 | a walk not yet cut short takes the next row as one step |
| MediaGenerationWorker.AbortSticks | services/queue_triggers/media_generation_worker.py:213-273 | once a tick is cut short, the rows after the cut change nothing |

## Left out

- SDK and HTTP clients (Cosmos DB, Service Bus, Blob Storage, fal.ai, Azure OpenAI, Content Safety, the Instagram Graph API) are not modelled. Their answers are parameters or oracle functions of the model, and a call that raises is an explicit outcome.
- Threads, `asyncio` tasks, `gather`, the `start_*_worker` locks and the client caches are left out because they are concurrency plumbing. Interleavings of the workers are not modelled.
- The sleeps between polls are left out, and so are the 30-second waits between Instagram status checks.
- The forever loops are bounded. Each queue worker is modelled by one received batch (`ListenBatch`). Each polling trigger's `run_forever` is modelled by a given number of ticks (`RunRounds`).
- Uuids and timestamps are opaque parameters, so their formats are not modelled. The earlier review queue takes the first 8 characters of its uuid parameter as the item id.
- Message delivery counts, lock expiry and dead-lettering are not modelled. An abandoned message stays in its queue.
- Logging, the agents' natural-language prompts and the LLM prompt texts are left out. A language-model answer is a parameter: a parsed verdict, or a failure.
- Downloading assets to local temporary files is left out, along with the local file path and file name reported back. Blob upload is part of the provider oracle.
- shared/services/media_metadata_service.py, shared/services/notification_service.py and services/review_queue_service.py are not part of this model. Code that imports them uses the store of services/cosmos_db_service.py (communicator tools) or of services/media_metadata_service.py (the review queue, and agents/account/internal_tools.py, which imports the store at line 15). Code that imports services/review_queue_service.py (the two polling triggers) uses the queue of shared/services/review_queue_service.py. A notification is `notify(payload)`, which returns or raises. The `notify_new_review` of services/notification_service.py raises only on a payload it cannot format. A failed e-mail or Slack delivery is caught inside it (lines 128 and 175), so it counts as accepted: the record is flagged and its message completed.
- agents/insta_post_generator/tools.py: `generate_image`, `generate_video`, `upload_media`, `refine_caption` and `notify_generation` are not modelled. They are direct provider, download and upload wrappers, or a pass-through to the review queue. The job path that shares their argument shaping (`_execute_*_job`, `_run_generation_job`) is modelled.
- python/insta_agent/agents/insta_post_generator/tools.py: `_resolve_video_model` and the video arguments are the same code as the media generator's, modelled by LegacyMediaGeneratorTools.VideoCall.
- python/insta_agent/agents/insta_post_generator/tools.py: `write_caption` and `suggest_hashtags` are the same code as the current file's, modelled by InstaPostGeneratorTools.CaptionBrief and InstaPostGeneratorTools.BucketsSum.
- python/insta_agent/agents/insta_post_generator/tools.py: `upload_media` and `refine_caption` are not modelled. They are blob and language-model I/O.
- agents/content_reviewer/tools.py: `get_review_guidelines` is not modelled, because it reads account profile files from disk.
- agents/content_reviewer/tools.py: the plan review's write through `set_prompt_review_status` is not modelled, because services/cosmos_db_service.py does not define that function. As written, importing that name makes the whole module fail to load (see "## Findings"). ContentReviewerTools.ReviewContentPlan models the plan review with that import dropped: it returns the decision and writes nothing.
- agents/account/tools.py and agents/account/internal_tools.py: `queue_for_review`, `get_pending_reviews` and `get_approved_items` only pass through to services/review_queue_service.py, which is not part of this model, and are not modelled. ReviewQueueService models the same operations of shared/services/review_queue_service.py. The `get_review_status` of agents/account/internal_tools.py is the same code as agents/account/tools.py, modelled by AccountTools.GetReviewStatus. It takes the queue's answer as a parameter.
- Web search (Tavily) and the trend/strategy tools are left out.
- python/insta_agent/agents/approver/tools.py: `view_details` is not modelled. The module imports `query_content`, which the earlier store does not define, so as written the module cannot be imported at all (see "## Findings"). LegacyApproverTools models its tools with that import dropped, and the history takes the list of records as input.
- python/insta_agent/agents/publisher/tools.py: `list_instagram_accounts` computes the same listing as the current file, which PublisherTools.ListInstagramAccounts models.
- agents/publisher/tools.py: `_get_ig_service` is called by no tool of that file and is not modelled. `_publish_record` ignores its `account_name` argument. It publishes through the Instagram service of the record's `target_account_id`, which the model's oracle family `igs` selects (PublisherTools.AccountOf). The InstagramService constructor raising for an unknown account is not modelled, because services/instagram_service.py is not part of this model.
- CaptionCases (PublisherTools.CaptionCases, PublisherTools.BuildCaption, PublisherTools.NonEmptyTags): `_build_caption` raises on a truthy caption that is not text (`.strip()`), on a truthy `hashtags` value that is neither text nor a list, and on a truthy hashtag entry that is not text (`" ".join`); PublisherTools.CaptionRaises names these records. The call is outside the try block, so `publish_content_by_id` raises and `publish_all_pending` stops its batch. The model instead shows such a caption or entry as its text and treats such a `hashtags` value as no hashtags, so the publish path (PublishRecord and everything built on it) does not model that raise.
- PublisherTools.PublishRecord: a video container that reports ERROR ends with the status code alone, not with the text the source builds from the whole status dict. A `blob_urls` value that cannot be iterated is modelled as a raised call. The final `mark_content_published` write is taken not to fail.
- FalAiService: the argument shaping is modelled, but the submit and poll calls are not. As in the source, a missing duration is not defaulted to 5.
- ImageGeneratorService: only the dispatch and the size mapping are modelled. The DALL-E and fal.ai calls are oracles.
- Docs.Show: Python's `str` of a value is modelled for strings, integers, booleans, None and lists. Escaping of quotes inside strings is not modelled.
- ReviewGeneratedMedia (ContentReviewerTools.ReviewGeneratedMedia): models the tool with the module's failing store import dropped. As written agents/content_reviewer/tools.py cannot be imported (ContentReviewerTools.ImportFails, see "## Findings"), so none of its tools runs, ReviewContentPlan and ReviewText included.
- HandleStepSpec (MediaGenerationWorker.HandleStepSpec): states the review gate as intended: the media reviewer (ContentReviewerTools.ReviewMedia) reviews the completed record and records its decision, with the answers of the services it consults as parameters. As written the gate's import always raises, so no review is recorded and no review-pending message is sent (MediaGenerationWorker.TickAsWrittenSendsNothing, see "## Findings"). A raise inside the reviewer after it recorded its decision is not modelled: the gate's parameter says whether the whole review raised.
- ViewAllPending (LegacyApproverTools.ViewAllPending): models the tool with the module's import of `query_content` dropped. As written python/insta_agent/agents/approver/tools.py cannot be imported (LegacyApproverTools.ImportFails, see "## Findings"), so the tool never runs.
- Decide (LegacyApproverTools.Decide): models the three decision tools with the module's import of `query_content` dropped. As written they never run, because the module cannot be imported (LegacyApproverTools.ImportFails).
- ConfirmOnlyPublished (PublisherTools.ConfirmOnlyPublished): states the intended confirmation. As written the published branch raises AttributeError, so `send_publish_confirmation` never answers "confirmation_sent" (PublisherTools.ConfirmationNeverSent, see "## Findings").
- SendPublishConfirmation (PublisherTools.SendPublishConfirmation): models the tool with a notifier method that exists. As written it raises for every stored, published record (PublisherTools.ConfirmAsWritten).
- ConfirmOnlyAfterPublish (PublisherQueueWorker.ConfirmOnlyAfterPublish): states the intended mail. As written no confirmation is ever mailed (PublisherQueueWorker.NothingMailedAsWritten, see "## Findings").
- MediaGenerationWorker.DurationOf: every truthy duration that is not an integer is modelled as raising, on every model. In the source only the Sora and Kling branches compare the duration: there `True` counts as 1 and text raises. The plain-model branch sends `str(duration)` whatever its type, and FalAiService.FalArgs carries an integer duration, so that branch's text and boolean durations are not modelled.
- Text: `isspace`, `lower` and `upper` are modelled on ASCII only. Python's are Unicode-aware, and `isspace` also counts the separators \x1c to \x1f, which Text.IsSpace does not.
- Store: ids are unique across a whole container. Cosmos DB makes them unique per partition key, so Store.Container.CreateItem refuses the same id in a second `media_type` partition, which Cosmos DB would accept.
- PublisherTriggerService.RunsPublishTool: the publisher agent is assumed to do exactly what `publish_content_by_id` does for the id it is told. services/publisher_trigger_service.py:41-48 only prompts a language-model agent, and what that agent actually does is not modelled.
- CommunicatorTriggerService: the communicator agent is assumed to call `send_review_reminder` once with the fixed note, as services/communicator_trigger_service.py prompts it to. What a language-model agent actually does is not modelled.

## Findings

| source | as written | input that shows it | evidently intended | confidence | as-written member | corrected member |
|---|---|---|---|---|---|---|
| python/insta_agent/agents/insta_post_generator/tools.py:213-243 | `generate_image` calls the earlier store's `save_media_metadata` with `post_type`, `target_account_id`, `description`, `approval_status` and `publish_status`, which it does not declare. It calls the earlier `queue_for_review` with `content_id`, which it does not declare either. | Any successful generation raises a TypeError at the save, after the asset has been uploaded. Nothing is recorded or queued, and the tool reports status "error". | Save through the content-record store, which accepts these keywords, and queue the new record for review, so that the tool reports `queue_status` "queued". | not executed | LegacyInstaPostGeneratorTools.GenerateImageAsWritten | LegacyInstaPostGeneratorTools.GenerateImage |
| python/insta_agent/agents/insta_post_generator/tools.py:332-359 | `generate_video` makes the same save and queue calls as `generate_image`, with keywords the earlier store and queue do not declare. | Any successful video generation raises a TypeError at the save, after the upload. Nothing is recorded or queued, and the tool reports status "error". | Record the video through the content-record store and queue it for review. | not executed | LegacyInstaPostGeneratorTools.GenerateVideoAsWritten | LegacyInstaPostGeneratorTools.GenerateVideo |
| agents/content_reviewer/tools.py:22-26 | The module imports `set_prompt_review_status` from services/cosmos_db_service.py, which does not define it. | Importing the module raises ImportError, so none of the reviewer's tools can run. The generation worker's review gate imports it for every finished generation. | Import only names the store defines, so that the media review runs and records its verdict. | not executed | ContentReviewerTools.ImportFails | ContentReviewerTools.ReviewGeneratedMedia |
| services/queue_triggers/media_generation_worker.py:322-341 | The review gate imports `review_generated_media` inside a try. The ImportError is logged and the step returns. | Any finished generation: the asset is stored and the record marked "completed", but no review-pending message is sent, whatever the reviewer would say. | The reviewer records its decision as `media_review_status`; an "APPROVED" verdict sends one review-pending message and sets `approval_status` "pending". | not executed | MediaGenerationWorker.TickAsWrittenSendsNothing | MediaGenerationWorker.HandleStepSpec |
| python/insta_agent/agents/approver/tools.py:9-10 | The module imports `query_content` from the earlier store, which does not define it. | Importing the module raises ImportError, so the pending list, the three decision tools and the history never run. | Import `query_content` from a store that defines it, as the content-record store does. | not executed | LegacyApproverTools.ImportFails | LegacyApproverTools.Decide |
| agents/publisher/tools.py:266-276 | `send_publish_confirmation` calls `notify_published`, which NotificationService (services/notification_service.py) does not define. | Any stored record whose publish status is "published": the tool raises AttributeError instead of answering "confirmation_sent". | Send the confirmation through a notifier method that exists, and answer "confirmation_sent". | not executed | PublisherTools.ConfirmationNeverSent | PublisherTools.ConfirmOnlyPublished |
| services/queue_triggers/publisher_trigger_service.py:99-108 | After each publication the worker calls `send_publish_confirmation` and logs its error. | Any batch in which a record is published: no confirmation mail is sent, and the message is still completed. | One confirmation mail per publication. | not executed | PublisherQueueWorker.NothingMailedAsWritten | PublisherQueueWorker.ConfirmOnlyAfterPublish |
