# Stormancer chat plugin core in Dafny

This project models the sequential core of the Stormancer chat server plugin:

- **The write-behind message log** (`ChatLog.ESChatLogRepository`).
  - `AddMessageLog` puts a message at the tail of a FIFO cache. Once the cache holds `maxChatLogSize` messages, it asks for a flush.
  - The flush is single-flight. It takes `n` messages off the front of the cache and cuts them into `floor(n / batchSize)` full batches plus one remainder batch. The remainder batch is added even when it is empty.
  - The batches are bulk-written one after another into the weekly index of the flush time.
  - The history query swaps a reversed range and splits it at the date of the oldest cached message, or at now when the cache is empty. The part before that boundary is asked of the store; the part after it is filtered from the cache. The two parts are concatenated and stably sorted by date.
  - The repository answers with the query as written (`History.SeekHistoryAsWritten`). The corrected query (`History.SeekHistory`) is stated beside it for the two findings below.
  - The cut into batches is in module `Batching`. The weeks, the filters, the store query, the sort and the merge are in module `History`.
- **The anti-flood handler** (`AntiFlood.ChatAntiFlood`).
  - Each user has a sliding window of arrival times, trimmed from the front.
  - A count above the threshold bans the user. A ban only ever extends the release time.
  - The jail check is inclusive and removes expired entries lazily.
  - A jailed user's message is narrowed to `Self` and tagged `flood`.
  - Disconnecting lifts the ban.
- **The chat service** (`ChatService.ChatService`).
  - A presence map keyed by peer holds no two entries with the same peer id.
  - Disconnecting removes the peer's entry, and fails for an unknown peer.
  - The receive pipeline is strictly ordered: refuse an unknown sender; build the message and a context aimed at `All`; run the handlers in order over that context; then append to the log, publish, and deliver. A subscriber of the message stream that throws stops the receive after publishing, so nothing is delivered (`streamOk`).
  - History is gated by the `loadHistory` setting.
- **The controller** (module `Controller`).
  - The routing callback broadcasts when the destination has `Others` and replies when it has `Self`.
  - Every failure is rewrapped as a client error.
  - A history becomes one DTO per message, in order.

Time is `DateTime` ticks (`Instant = nat`, ten million per second). Every "now" is a parameter.

Collaborators are abstract:
- The Elasticsearch store is a sequence of `StoredBatch(week, messages)`, one per accepted bulk write. Its query keeps the documents of the listed week indexes on the channel, then filters them by channel and date as `ESQuery` does.
- Event handlers are functions from a receive context to an optional new context. `None` stands for a handler that throws.
- The log repository, the message stream and the network are recorded as events in `ChatService.ChatService.trace`, in call order.

A few behaviours of the code are modelled as written:
- The anti-flood threshold is read from the `windowDuration` key, so the `windowNumberOfMessages` key is never consulted (`AntiFlood.ThresholdKeyIgnored`).
- A batch size of zero makes the flush task fault at once (a division by zero); nothing is dequeued.
- A negative batch size forms no full batch. The one remainder batch takes `n mod |batchSize|` messages, and the rest stay queued. This follows C#'s truncating division and the float "scrap" of the source.
- A rejected bulk write is not retried: its messages are recorded as lost (`lost`).
- A window duration below zero lets the dequeue loop empty the queue. `Peek` then throws, which ends the Rx pipeline (`Arrival.WindowFault`). The subscription has no error callback, so Rx rethrows the exception to the publisher: the receive that published the message fails after logging and publishing it, and the message is not delivered. The controller reports this as a client error (`streamOk` false in `ChatService.ChatService.OnMessageReceived` and `Controller.Message`).
- A flush writes every batch into the index of the week the flush ran in (ESChatLogRepository.cs:249), not the week of each message's date. The completeness lemma of the history query therefore assumes that each batch sits in the index of its messages' week (`History.IndexedByDate`). That holds when messages are flushed in the same week they were sent.

## Model

| member | source | states |
|---|---|---|
| ChatLog.ESChatLogRepository.constructor | Stormancer.Plugins.Chat.Server/Plugin/Repository/ESChatLogRepository.cs:30-55 | The cache starts empty with no flush running; a missing batchSize or maxChatLogSize setting is 1000; the conservation invariant holds. |
| ChatLog.ESChatLogRepository.OnSettingsChange | Stormancer.Plugins.Chat.Server/Plugin/Repository/ESChatLogRepository.cs:41-55 | Both sizes are re-read with default 1000; the cache, the flush and the store are unchanged. |
| ChatLog.ESChatLogRepository.AddMessageLog | Stormancer.Plugins.Chat.Server/Plugin/Repository/ESChatLogRepository.cs:158-165 | The message goes to the tail. A flush is requested exactly when the new count is at least maxChatLogSize; otherwise the cache is the old one plus the message and nothing else changes. |
| ChatLog.ESChatLogRepository.Flush | Stormancer.Plugins.Chat.Server/Plugin/Repository/ESChatLogRepository.cs:202-217 | Single flight. While a flush is writing, the same task is returned and nothing is dequeued. Otherwise a new task starts: it faults at once for batch size 0, and else takes SplitBatches of the queue, leaving the messages after DequeueCount queued unchanged. |
| ChatLog.ESChatLogRepository.TakeBatches | Stormancer.Plugins.Chat.Server/Plugin/Repository/ESChatLogRepository.cs:221-246 | The nested loops produce exactly SplitBatches(old cache); the cache becomes the old one minus its first DequeueCount messages. |
| ChatLog.ESChatLogRepository.DequeueFullBatches | Stormancer.Plugins.Chat.Server/Plugin/Repository/ESChatLogRepository.cs:225-237 | The outer loop runs the truncated quotient of rounds: it yields exactly the full batches, consecutive slices of batchSize taken from the front, and leaves the queue after them. |
| ChatLog.ESChatLogRepository.DequeueMany | Stormancer.Plugins.Chat.Server/Plugin/Repository/ESChatLogRepository.cs:230-235 | count TryDequeue calls take the first count messages, oldest first, and leave the rest in order; a negative count takes nothing. |
| ChatLog.ESChatLogRepository.CompleteFlush | Stormancer.Plugins.Chat.Server/Plugin/Repository/ESChatLogRepository.cs:249-256 | A writing flush appends its accepted batches to the store, in list order and under the flush week. Rejected batches become lost. The task completes, the cache is untouched, and the conservation invariant is kept. |
| ChatLog.ESChatLogRepository.WriteBatches | Stormancer.Plugins.Chat.Server/Plugin/Repository/ESChatLogRepository.cs:253-256 | The bulk writes, one per batch in order: the store grows by Written and the lost messages by Dropped. |
| ChatLog.ESChatLogRepository.SeekHistoryMessage | Stormancer.Plugins.Chat.Server/Plugin/Repository/ESChatLogRepository.cs:167-200 | The answer is the query as written (SeekHistoryAsWritten) over the current store and cache. No message comes back more often than it was appended here or held by the store beforehand. |
| ChatLog.WrittenOrDropped | Stormancer.Plugins.Chat.Server/Plugin/Repository/ESChatLogRepository.cs:253-256 | Every message of the written batches ends up either in the store or among the lost ones, exactly once (multiset equality). |
| ChatLog.FlushConserves | Stormancer.Plugins.Chat.Server/Plugin/Repository/ESChatLogRepository.cs:219-256 | Completing a flush keeps the store plus lost messages equal, as a multiset, to what preexisted plus everything drained. |
| ChatLog.StoredOrQueuedBound | Stormancer.Plugins.Chat.Server/Plugin/Repository/ESChatLogRepository.cs:158-256 | Under conservation, store plus cache never hold a message more often than it preexisted or was appended. |
| ChatLog.WrittenAllInOrder | Stormancer.Plugins.Chat.Server/Plugin/Repository/ESChatLogRepository.cs:253-256 | When every write is accepted, the store gets the batches one after another in list order and nothing is lost. |
| Batching.DequeueCount | Stormancer.Plugins.Chat.Server/Plugin/Repository/ESChatLogRepository.cs:221-245 | A flush never takes more than the n messages it counted, and takes all of them for a positive batch size. |
| Batching.TruncatedQuotientCounts | Stormancer.Plugins.Chat.Server/Plugin/Repository/ESChatLogRepository.cs:221-223 | C#'s truncated n / batchSize is the number of full-batch rounds when positive and gives no round otherwise. The scrap is the remainder size. Together they dequeue DequeueCount messages. |
| Batching.SplitBatchesShape | Stormancer.Plugins.Chat.Server/Plugin/Repository/ESChatLogRepository.cs:222-246 | For batchSize > 0: n / batchSize full batches of batchSize, then one batch of n mod batchSize, and their concatenation is the whole queue in FIFO order. |
| Batching.SplitBatchesNegative | Stormancer.Plugins.Chat.Server/Plugin/Repository/ESChatLogRepository.cs:222-246 | For batchSize < 0: no full batch; the remainder batch is the first n mod abs(batchSize) messages. |
| Batching.FlattenSplitBatches | Stormancer.Plugins.Chat.Server/Plugin/Repository/ESChatLogRepository.cs:225-246 | For any non-zero batch size, the batches concatenate to exactly the dequeued prefix. |
| Batching.SplitBatches | Stormancer.Plugins.Chat.Server/Plugin/Repository/ESChatLogRepository.cs:221-246 | The batches of one flush: one more than the truncated quotient of full batches, the last one of remainder size. |
| Batching.SplitBatchesExample | Stormancer.Plugins.Chat.Server/Plugin/Repository/ESChatLogRepository.cs:222-246 | 2500 messages with batch size 1000 give batches of 1000, 1000 and 500. |
| Batching.SplitBatchesTrailingEmpty | Stormancer.Plugins.Chat.Server/Plugin/Repository/ESChatLogRepository.cs:239-246 | A queue that is a multiple of the batch size still ends with an empty batch. |
| Batching.FlattenConcat | Stormancer.Plugins.Chat.Server/Plugin/Repository/ESChatLogRepository.cs:225-246 | Concatenating batch lists concatenates their messages. |
| History.WeekMonotone | Stormancer.Plugins.Chat.Server/Plugin/Repository/ESChatLogRepository.cs:150-153 | The week number, ticks divided by seven days of ticks, never decreases with time. |
| History.GetWeek | Stormancer.Plugins.Chat.Server/Plugin/Repository/ESChatLogRepository.cs:150-153 | The week number w of an instant places it within [w, w + 1) weeks of ticks. |
| History.GetWeeksAsWritten | Stormancer.Plugins.Chat.Server/Plugin/Repository/ESChatLogRepository.cs:139-143 | As written: consecutive weeks from week(start), numbering week(end) - week(start) of them, or 1 when that is 0. |
| History.GetWeeks | Stormancer.Plugins.Chat.Server/Plugin/Repository/ESChatLogRepository.cs:139-143 | Corrected: week(end) - week(start) + 1 consecutive weeks from week(start). |
| History.GetWeeksCovers | Stormancer.Plugins.Chat.Server/Plugin/Repository/ESChatLogRepository.cs:139-143 | A week is in the corrected list if and only if it lies between week(start) and week(end). |
| History.GetWeeksAsWrittenMissesLastWeek | Stormancer.Plugins.Chat.Server/Plugin/Repository/ESChatLogRepository.cs:139-143 | As written, a range that crosses into a later week never lists the week of its end. |
| History.GetWeeksAsWrittenWithin | Stormancer.Plugins.Chat.Server/Plugin/Repository/ESChatLogRepository.cs:139-143 | Every week the source lists is also in the corrected list. |
| History.SelectSpec | Stormancer.Plugins.Chat.Server/Plugin/Repository/ESChatLogRepository.cs:102-115 | The filter keeps exactly the messages on the channel with lo <= date <= hi, each as often as in its input. |
| History.Select | Stormancer.Plugins.Chat.Server/Plugin/Repository/ESChatLogRepository.cs:102-115 | The channel and closed date filter: never longer than its input, and everything it keeps is on the channel within [lo, hi]. |
| History.SelectMonotone | Stormancer.Plugins.Chat.Server/Plugin/Repository/ESChatLogRepository.cs:102-115 | Filtering a sub-multiset gives a sub-multiset of the filtered whole. |
| History.OnChannelSpec | Stormancer.Plugins.Chat.Server/Plugin/Repository/ESChatLogRepository.cs:73-81 | The term query keeps exactly the documents of the channel, never more often than stored. |
| History.IndexedDocumentsSound | Stormancer.Plugins.Chat.Server/Plugin/Repository/ESChatLogRepository.cs:69-98 | The search returns only stored documents of the channel, never more often than stored. |
| History.IndexedDocumentsComplete | Stormancer.Plugins.Chat.Server/Plugin/Repository/ESChatLogRepository.cs:69-98 | With batches indexed by date, a stored message of the channel whose week is listed is found. |
| History.IndexedDocumentsMonotone | Stormancer.Plugins.Chat.Server/Plugin/Repository/ESChatLogRepository.cs:69-98 | Searching more week indexes never returns fewer documents. |
| History.StoreQueryComplete | Stormancer.Plugins.Chat.Server/Plugin/Repository/ESChatLogRepository.cs:65-106 | With every week searched, the store query returns a message if and only if it is stored and lies in the range on the channel. |
| History.AsStored | Stormancer.Plugins.Chat.Server/Plugin/Repository/ESChatLogRepository.cs:253-256 | One stored batch per batch, in order, all under the given week. |
| History.StoreMessagesAsStored | Stormancer.Plugins.Chat.Server/Plugin/Repository/ESChatLogRepository.cs:253-256 | The stored messages of those batches are the batches concatenated. |
| History.StoreMessagesConcat | Stormancer.Plugins.Chat.Server/Plugin/Repository/ESChatLogRepository.cs:253-256 | Appending batches to the store appends their messages. |
| History.SortByDateProperties | Stormancer.Plugins.Chat.Server/Plugin/Repository/ESChatLogRepository.cs:199 | OrderBy by date yields a date-sorted permutation that keeps messages of equal date in input order (a stable sort). |
| History.SortByDateOfSorted | Stormancer.Plugins.Chat.Server/Plugin/Repository/ESChatLogRepository.cs:199 | Input already in date order comes out unchanged. |
| History.SortByDate | Stormancer.Plugins.Chat.Server/Plugin/Repository/ESChatLogRepository.cs:199 | OrderBy by date keeps the length; its order and stability are SortByDateProperties. |
| History.CachePart | Stormancer.Plugins.Chat.Server/Plugin/Repository/ESChatLogRepository.cs:191-197 | The cache side is asked only when the boundary is at or before hi, and keeps only messages of the range dated at or after the boundary. |
| History.StorePartAsWritten | Stormancer.Plugins.Chat.Server/Plugin/Repository/ESChatLogRepository.cs:184-189 | As written: the store is asked only when the boundary is strictly after lo, over the weeks the source lists; it yields only messages of the range dated at or before the boundary. |
| History.StorePart | Stormancer.Plugins.Chat.Server/Plugin/Repository/ESChatLogRepository.cs:184-189 | Corrected: the store is asked whenever the boundary is at or after lo, over every week of the range; same range bounds. |
| History.SeekHistoryAsWritten | Stormancer.Plugins.Chat.Server/Plugin/Repository/ESChatLogRepository.cs:167-200 | The query as written: the only failure is the Database not found client error, and every answer is sorted by date. |
| History.SeekHistory | Stormancer.Plugins.Chat.Server/Plugin/Repository/ESChatLogRepository.cs:167-200 | The corrected query: the same failure kind, and every answer is sorted by date. |
| History.SeekHistoryAsWrittenSymmetric | Stormancer.Plugins.Chat.Server/Plugin/Repository/ESChatLogRepository.cs:177-182 | As written, (start, end) and (end, start) give the same answer. |
| History.SeekHistoryAsWrittenMerge | Stormancer.Plugins.Chat.Server/Plugin/Repository/ESChatLogRepository.cs:169-199 | As written, the query fails exactly when the boundary is strictly after the lower end and the store is unreachable. Otherwise the answer is a permutation of the store part followed by the cache part that keeps equal dates in that order. |
| History.StorePartAsWrittenSound | Stormancer.Plugins.Chat.Server/Plugin/Repository/ESChatLogRepository.cs:186-189 | The store part as written holds only stored messages, never more often than stored. |
| History.SeekHistoryAsWrittenSound | Stormancer.Plugins.Chat.Server/Plugin/Repository/ESChatLogRepository.cs:167-200 | As written, every returned message was stored or cached and lies in the normalised range on the channel; multiplicities are bounded by store plus cache. |
| History.SeekHistoryAsWrittenWithinCorrected | Stormancer.Plugins.Chat.Server/Plugin/Repository/ESChatLogRepository.cs:139-200 | The two faults only lose messages: whenever the corrected query answers, the query as written answers too, with a sub-multiset of the corrected answer. |
| History.SeekHistorySymmetric | Stormancer.Plugins.Chat.Server/Plugin/Repository/ESChatLogRepository.cs:177-182 | For the corrected query: (start, end) and (end, start) give the same answer. |
| History.SeekHistoryMerge | Stormancer.Plugins.Chat.Server/Plugin/Repository/ESChatLogRepository.cs:169-199 | For the corrected query: it fails, with the Database not found client error, exactly when the boundary is at or after the lower end and the store is unreachable. Otherwise the answer is the corrected store part followed by the cache part, sorted stably by date. |
| History.StorePartSound | Stormancer.Plugins.Chat.Server/Plugin/Repository/ESChatLogRepository.cs:186-189 | For the corrected store part: only stored messages in the range on the channel, never more often than stored. |
| History.CachePartSound | Stormancer.Plugins.Chat.Server/Plugin/Repository/ESChatLogRepository.cs:193-197 | The cache part holds only cached messages in the range on the channel, never more often than cached. |
| History.CachePartWhole | Stormancer.Plugins.Chat.Server/Plugin/Repository/ESChatLogRepository.cs:169-175 | With a date-ordered cache, the scan from the boundary holds every cached message of the range. |
| History.SeekHistorySound | Stormancer.Plugins.Chat.Server/Plugin/Repository/ESChatLogRepository.cs:167-200 | For the corrected query: every returned message was stored or cached and lies in the normalised range on the channel; multiplicities are bounded by store plus cache. |
| History.SeekHistoryComplete | Stormancer.Plugins.Chat.Server/Plugin/Repository/ESChatLogRepository.cs:167-200 | Take batches indexed by date, a date-ordered cache, and nothing stored after the boundary. Then the corrected query succeeds, and its date-sorted answer holds exactly the stored or cached messages of the range. |
| History.SeekHistoryAsWrittenMissesLastWeek | Stormancer.Plugins.Chat.Server/Plugin/Repository/ESChatLogRepository.cs:139-143 | A message stored in week 1 is missed by the query as written over [0, one week + 1 tick], and found by the corrected one. |
| History.SeekHistoryAsWrittenMissesBoundaryTick | Stormancer.Plugins.Chat.Server/Plugin/Repository/ESChatLogRepository.cs:186-189 | A message stored at the tick of the cache head is missed as written when the range starts at that tick, and found by the corrected one. |
| AntiFlood.ReadSettings | Stormancer.Plugins.Chat.Server/Plugin/EventHandler/ChatAntiFlood.cs:38-42 | The jail and window durations default to 3 and 5. The threshold is the windowDuration value when that key is set, and 10 otherwise. |
| AntiFlood.ThresholdKeyIgnored | Stormancer.Plugins.Chat.Server/Plugin/EventHandler/ChatAntiFlood.cs:42 | The windowNumberOfMessages key has no effect on the settings. |
| AntiFlood.DefaultSettings | Stormancer.Plugins.Chat.Server/Plugin/EventHandler/ChatAntiFlood.cs:40-42 | An empty configuration gives 3 s, 5 s and 10 messages. |
| AntiFlood.ChatAntiFlood.constructor | Stormancer.Plugins.Chat.Server/Plugin/EventHandler/ChatAntiFlood.cs:29-36 | The settings are read; the jail and windows start empty, with no subscription. |
| AntiFlood.ChatAntiFlood.OnSettingsChange | Stormancer.Plugins.Chat.Server/Plugin/EventHandler/ChatAntiFlood.cs:38-58 | The settings become ReadSettings of the configuration; the jail, windows and subscription are unchanged. |
| AntiFlood.ChatAntiFlood.OnInit | Stormancer.Plugins.Chat.Server/Plugin/EventHandler/ChatAntiFlood.cs:110-114 | A pipeline is subscribed with empty per-user queues; the jail and settings are unchanged. |
| AntiFlood.BanRelease | Stormancer.Plugins.Chat.Server/Plugin/EventHandler/ChatAntiFlood.cs:85-90 | The stored release time is the new one or the old one, whichever is later. |
| AntiFlood.BanNeverShortens | Stormancer.Plugins.Chat.Server/Plugin/EventHandler/ChatAntiFlood.cs:85-90 | A ban jails the user, never shortens their release, and leaves every other user's entry as it was. |
| AntiFlood.BannedUntilRelease | Stormancer.Plugins.Chat.Server/Plugin/EventHandler/ChatAntiFlood.cs:85-108 | A banned user is jailed at every instant up to and including the release tick. |
| AntiFlood.BanSequenceKeepsLongest | Stormancer.Plugins.Chat.Server/Plugin/EventHandler/ChatAntiFlood.cs:85-90 | Bans of 1 s, 10 s and 1 s at the same instant leave the 10 s release time. |
| AntiFlood.ChatAntiFlood.Ban | Stormancer.Plugins.Chat.Server/Plugin/EventHandler/ChatAntiFlood.cs:85-90 | The jail becomes Banned at now + jailDuration seconds, so the release time is the later of the old and new ones. |
| AntiFlood.ChatAntiFlood.UserIsInJail | Stormancer.Plugins.Chat.Server/Plugin/EventHandler/ChatAntiFlood.cs:92-108 | The result is true if and only if an entry exists whose release is at or after now. An expired entry of that user is removed, and nothing else changes. |
| AntiFlood.JailCheckRemovesExpired | Stormancer.Plugins.Chat.Server/Plugin/EventHandler/ChatAntiFlood.cs:96-105 | After the check the user's entry remains if and only if they are jailed now; other users' entries are kept. |
| AntiFlood.LazyRemovalInvisible | Stormancer.Plugins.Chat.Server/Plugin/EventHandler/ChatAntiFlood.cs:96-105 | Removing an expired entry changes no jail check at the same or any later instant. |
| AntiFlood.TrimSuffix | Stormancer.Plugins.Chat.Server/Plugin/EventHandler/ChatAntiFlood.cs:70-74 | The dequeue loop keeps a suffix of the queue, stops at an entry within the window, and drops only entries outside it. |
| AntiFlood.TrimKeepsNewest | Stormancer.Plugins.Chat.Server/Plugin/EventHandler/ChatAntiFlood.cs:70-74 | With a non-negative window the queue stays non-empty and ends with the newest arrival. |
| AntiFlood.TrimNegativeEmpties | Stormancer.Plugins.Chat.Server/Plugin/EventHandler/ChatAntiFlood.cs:70-74 | With a negative window the loop empties the queue. |
| AntiFlood.WithinWindow | Stormancer.Plugins.Chat.Server/Plugin/EventHandler/ChatAntiFlood.cs:70-75 | The reference window: exactly the arrivals at most the window older than the newest. |
| AntiFlood.TrimIsWithinWindow | Stormancer.Plugins.Chat.Server/Plugin/EventHandler/ChatAntiFlood.cs:70-75 | For arrivals in time order, the trimmed queue is exactly the reference window. |
| AntiFlood.Trim | Stormancer.Plugins.Chat.Server/Plugin/EventHandler/ChatAntiFlood.cs:70-74 | The dequeue loop never lengthens the queue and stops at a front within the window or at the empty queue. |
| AntiFlood.ArrivalWindow | Stormancer.Plugins.Chat.Server/Plugin/EventHandler/ChatAntiFlood.cs:66-74 | An arrival at or after every queued one: the trimmed queue is the reference window, stays in time order, and every entry is within the window of the arrival. |
| AntiFlood.WindowsOrderedUpdate | Stormancer.Plugins.Chat.Server/Plugin/EventHandler/ChatAntiFlood.cs:66-74 | Replacing one user's queue by an ordered one keeps every queue ordered and no later than the newest arrival. |
| AntiFlood.ChatAntiFlood.RecordArrival | Stormancer.Plugins.Chat.Server/Plugin/EventHandler/ChatAntiFlood.cs:66-82 | Enqueue then trim. The user's queue becomes exactly their arrivals within the window of this one, and the queues stay ordered. The count is the queue length, and the user is banned exactly when it exceeds the threshold. An emptied queue faults and ends the pipeline. No pipeline means the arrival is not seen. With a non-negative window the count is positive. |
| AntiFlood.ChatAntiFlood.EnqueueAndTrim | Stormancer.Plugins.Chat.Server/Plugin/EventHandler/ChatAntiFlood.cs:70-74 | The user's queue becomes the trimmed queue, equal to the reference window with every entry within the window of the arrival; the other users' queues are kept. |
| AntiFlood.ChatAntiFlood.CountAndBan | Stormancer.Plugins.Chat.Server/Plugin/EventHandler/ChatAntiFlood.cs:71-82 | An empty queue faults and ends the pipeline. Otherwise the count is the queue length, and the user is banned exactly when it exceeds the threshold. |
| AntiFlood.FloodTag | Stormancer.Plugins.Chat.Server/Plugin/EventHandler/ChatAntiFlood.cs:119-124 | The DTO carries the serialised metadata of the tagged message; nothing but the metadata of the message and of the DTO changes. |
| AntiFlood.FloodTagProperties | Stormancer.Plugins.Chat.Server/Plugin/EventHandler/ChatAntiFlood.cs:119-124 | A tagged message reaches its sender only, other metadata keys are kept, and tagging twice is tagging once. |
| AntiFlood.ChatAntiFlood.OnMessageReceived | Stormancer.Plugins.Chat.Server/Plugin/EventHandler/ChatAntiFlood.cs:116-126 | A jailed sender's context becomes FloodTag of it; any other context is unchanged; the jail is checked lazily. |
| AntiFlood.ChatAntiFlood.OnDisconnected | Stormancer.Plugins.Chat.Server/Plugin/EventHandler/ChatAntiFlood.cs:128-133 | Only that user's entry is removed: they are jailed at no instant afterwards, and every other user's jail status is kept. |
| AntiFlood.ChatAntiFlood.OnShutDown | Stormancer.Plugins.Chat.Server/Plugin/EventHandler/ChatAntiFlood.cs:135-141 | The subscription is gone afterwards, however often it is called. |
| AntiFlood.ChatAntiFlood.Dispose | Stormancer.Plugins.Chat.Server/Plugin/EventHandler/ChatAntiFlood.cs:146-177 | The first call disposes the subscription and marks the object disposed; later calls change nothing. |
| ChatService.ChatService.constructor | Stormancer.Plugins.Chat.Server/Plugin/ChatService.cs:117-128 | Nobody is connected and nothing has been called; history is enabled only when the setting says so. |
| ChatService.ChatService.OnSettingsChange | Stormancer.Plugins.Chat.Server/Plugin/ChatService.cs:117-128 | loadHistory is the setting, false when it is missing. |
| ChatService.ChatService.OnConnected | Stormancer.Plugins.Chat.Server/Plugin/ChatService.cs:144-180 | A peer whose id is present changes nothing. Otherwise it is added as Connected, with the resolved user id and data, and every connected user is broadcast. The map never has two entries with one peer id. |
| ChatService.ChatService.OnDisconnected | Stormancer.Plugins.Chat.Server/Plugin/ChatService.cs:182-208 | An absent peer raises InvalidOperationException and nothing changes. Otherwise the entry is removed and broadcast as Disconnected. The disconnect handlers are then called in order up to the first that throws, which gives a client error. |
| ChatService.ChatService.OnMessageReceived | Stormancer.Plugins.Chat.Server/Plugin/ChatService.cs:210-256 | An unknown sender raises a client error before any call. A failing handler k raises a client error after calls to handlers 0..k only. Otherwise the final message is logged, then published. If a stream subscriber throws, the receive fails with that InvalidOperationException and nothing is delivered. Otherwise the final DTO is delivered to the final destination. Each call happens once. |
| ChatService.ChatService.RunHandlers | Stormancer.Plugins.Chat.Server/Plugin/ChatService.cs:244-251 | The handler loop computes RunFrom, recording a call to each handler up to and including the first that throws, or to all of them. |
| ChatService.ChatService.LoadHistory | Stormancer.Plugins.Chat.Server/Plugin/ChatService.cs:131-138 | With history disabled it raises a client error and asks nothing. Otherwise it asks the repository once and returns its answer. |
| ChatService.ChatService.GetConnectedUser | Stormancer.Plugins.Chat.Server/Plugin/ChatService.cs:263-266 | Every presence entry exactly once, and nothing else. |
| ChatService.HandlerCalls | Stormancer.Plugins.Chat.Server/Plugin/ChatService.cs:244-251 | The k-th call goes to the k-th handler, in registration order. |
| ChatService.DisconnectCalls | Stormancer.Plugins.Chat.Server/Plugin/ChatService.cs:199-207 | The k-th call goes to the k-th disconnect handler with the user id. |
| ChatService.RunFrom | Stormancer.Plugins.Chat.Server/Plugin/ChatService.cs:244-251 | Each handler gets the context its predecessor returned (Ctx). A failing run names the first handler that throws, every earlier one having returned; a run that gets through delivers what the last handler returned. |
| ChatService.CtxShift | Stormancer.Plugins.Chat.Server/Plugin/ChatService.cs:244-251 | Running from the next handler over what handler i returned gives the same context at every later step. |
| ChatService.RunFromIdentity | Stormancer.Plugins.Chat.Server/Plugin/ChatService.cs:241-251 | Handlers that leave the context alone deliver it as built. |
| ChatService.BuildMessage | Stormancer.Plugins.Chat.Server/Plugin/ChatService.cs:221-232 | The message is on the sender's scene, dated now, with the text, empty metadata and the sender's user id and data. |
| ChatService.InitialContext | Stormancer.Plugins.Chat.Server/Plugin/ChatService.cs:234-242 | The context starts from that message, a DTO with the text, clock and sender info, and destination All. |
| ChatService.FirstFailure | Stormancer.Plugins.Chat.Server/Plugin/ChatService.cs:200-207 | The index of the first handler that throws, every earlier one having returned. |
| ChatService.ConnectThenDisconnect | Stormancer.Plugins.Chat.Server/Plugin/ChatService.cs:144-208 | OnConnected then OnDisconnected of a peer whose id is not present: the presence map is as it was, and the user announced as gone is the one that connected, now Disconnected, unless a disconnect handler throws. |
| ChatService.CrossingMessageDelivered | Stormancer.Plugins.Chat.Server/Plugin/ChatService.cs:244-254 | The handlers check the jail before the message reaches the rate limiter. Take the jail RecordArrival leaves when the first message crosses the threshold, given as Banned of the checked jail. Then the message that bans its sender still goes to All, and the sender's next message up to the release goes to Self. |
| ChatTypes.AllIsSelfAndOthers | Stormancer.Plugins.Chat.Server/Plugin/EventHandler/ChatMsgReceivedContext.cs:8-10 | All is Self or Others; Self and Others each have only their own flag. |
| ChatTypes.MessageContext.constructor | Stormancer.Plugins.Chat.Server/Plugin/EventHandler/ChatMsgReceivedContext.cs:15-19 | The context holds the message, the DTO and the destination it was built with. |
| Controller.Route | Stormancer.Plugins.Chat.Server/Plugin/ChatController.cs:32-49 | A null DTO raises InvalidOperationException. Otherwise the DTO is broadcast if and only if the destination has Others, and sent back if and only if it has Self. |
| Controller.RouteTable | Stormancer.Plugins.Chat.Server/Plugin/ChatController.cs:39-47 | All broadcasts then replies, Self only replies, Others only broadcasts. |
| Controller.AsClientError | Stormancer.Plugins.Chat.Server/Plugin/ChatController.cs:51-55 | The rewrapped error is a client error carrying the same reason. |
| Controller.AsClientErrorIdempotent | Stormancer.Plugins.Chat.Server/Plugin/ChatController.cs:86-90 | Rewrapping twice is rewrapping once, and a client error is left as it is. |
| Controller.HistoryDto | Stormancer.Plugins.Chat.Server/Plugin/ChatController.cs:74-82 | The DTO copies text, user id and data, and stamps the converted date; the metadata is unset. |
| Controller.HistoryDtosPointwise | Stormancer.Plugins.Chat.Server/Plugin/ChatController.cs:72-84 | One DTO per message, the i-th made from the i-th message. |
| Controller.HistoryDtosConcat | Stormancer.Plugins.Chat.Server/Plugin/ChatController.cs:72-84 | Mapping a concatenation maps each part in turn. |
| Controller.HistoryDtos | Stormancer.Plugins.Chat.Server/Plugin/ChatController.cs:72-84 | One DTO per message. |
| Controller.ToDtos | Stormancer.Plugins.Chat.Server/Plugin/ChatController.cs:72-84 | The loop builds exactly HistoryDtos: same count and order, with text and user id copied. |
| Controller.Message | Stormancer.Plugins.Chat.Server/Plugin/ChatController.cs:28-56 | An unknown sender or a failing handler comes back as a client error, with nothing logged, published or delivered. A stream subscriber that throws comes back as a client error after logging and publishing, with nothing delivered. Otherwise the routing of the final DTO by the final destination succeeds, after the message was logged and published. |
| Controller.LoadHistory | Stormancer.Plugins.Chat.Server/Plugin/ChatController.cs:58-93 | Disabled history is a client error and the repository is not asked. Otherwise the requester's own channel is asked once. A repository error is rewrapped as a client error, and a history becomes its DTOs in order. |

## Left out

- Elasticsearch I/O is reduced to an abstract store (`CreateESClient`, `SearchAsync`, scrolling, `ClearScrollAsync`, `BulkAsync`, `GetIndex`). Which bulk writes the store accepts is the `accepted` parameter of `CompleteFlush`. Whether the search succeeds is the `storeReachable` parameter of the history query. The order in which Elasticsearch returns documents is taken as store order.
- A `BulkAsync` that throws would abort the rest of the flush without writing it. The model treats each batch on its own, so those batches also count as lost, but it does not mark the task as faulted.
- Concurrency is modelled sequentially: the concurrent queue and dictionaries, the double-checked lock in `Flush`, and the fire-and-forget flush from `AddMessageLog`. The asynchronous part of a flush is the separate `CompleteFlush` step.
- `DateTime.UtcNow`, the scene clock and `TimestampHelper` are parameters: the instants, `clock` and `toUnix`.
- The float scrap of `FlushImpl` is taken as the exact remainder. For very large counts, single-precision rounding could make the loop bound differ.
- Rx plumbing is replaced by the explicit per-user `RecordArrival` step: `Subject`, `GroupBy`, `SelectMany`, `Timestamp`, `Subscribe` and the message stream. Subscribing twice through `OnInit` without a shutdown, which leaks the first subscription, is not modelled.
- `JObject` parsing and serialisation: metadata is a map, and its serialised text is an opaque `JsonText`. Parsing the user's data can throw in the source; the model does not capture that.
- User-info resolution in `OnConnected` is given as `userId` and `data`. The error branch of that resolution is left out because it depends on the framework's serializers: the `Error` status and the packet sent back.
- The event handler runner is not part of this model. Handlers are assumed to run sequentially, with the first failure ending the run, since the error callbacks throw.
- `OnChatStarting` and `OnChatShuttingdown` of the chat service, the plugin's registration and its flush timer, the admin web API and the session-based user-info handler are lifecycle or HTTP glue, not part of this core.
- AntiFlood.ChatAntiFlood.RecordArrival: requires the arrival to be no earlier than the last one seen, as the scheduler clock that stamps arrivals gives. With a clock that goes back, the trimmed queue need not be the arrivals within the window (an entry 10 ticks old survives behind a later one), and the model does not describe that case.
- ChatService.ChatService.OnConnected: the broadcast is recorded as the set of connected users rather than a list in dictionary order.
- ChatService.ChatService.GetConnectedUser: the order of the values is not stated, because the dictionary gives none.
- ChatAntiFlood's two missing-key warnings look up misspelled keys. They only decide whether a log line is written, and logging is not modelled.

## Findings

| source | as written | input that shows it | evidently intended | confidence | as-written member | corrected member |
|---|---|---|---|---|---|---|
| Stormancer.Plugins.Chat.Server/Plugin/Repository/ESChatLogRepository.cs:139-143 | The week list has week(end) - week(start) entries (1 when equal), so a range crossing a week boundary omits the week of its end. | A message stored in week 1, dated exactly one week, and asked for over [0, one week + 1 tick] with the cache head after it: week 1 is never searched and the message is missing. | Search every week from week(start) to week(end) inclusive. | not executed | History.SeekHistoryAsWrittenMissesLastWeek | History.SeekHistoryComplete |
| Stormancer.Plugins.Chat.Server/Plugin/Repository/ESChatLogRepository.cs:186 | The store is asked only when the cache head is strictly later than start, but the store range is closed at the boundary. | A message stored at tick 5, the cache head also at tick 5, and the range [5, 10]: the store is skipped and the stored message is missing. | Ask the store whenever boundary >= start. | not executed | History.SeekHistoryAsWrittenMissesBoundaryTick | History.SeekHistoryComplete |
