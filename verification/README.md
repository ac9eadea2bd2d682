# A verified model of Thing Directory

Thing Directory keeps Thing Descriptions (JSON objects, "TDs") in an ordered key/value store, owns the
registration part of each TD (when it was created and modified, when it expires), and tells subscribers
about every change over server-sent events that can be resumed after a disconnection. This project
models that behaviour in Dafny 4.11 and proves what holds over every input, every run and every
reachable state. `dafny verify dfyconfig.toml` checks all of it.

## How the model is laid out

| file | what it models |
|---|---|
| `Json.dfy`, `JsonText.dfy`, `JsonRead.dfy` | JSON values, their printed form, a scanner that splits an array at its top-level commas, and a reader |
| `LevelDb.dfy`, `Ids.dfy` | the ordered key space and its range scans; event IDs as 8-byte keys and as hexadecimal text |
| `EventQueue.dfy`, `EventLog.dfy` | the rotating event queue as a class over byte keys, and as the tail of an append-only log |
| `Protocol.dfy`, `Seam.dfy`, `Sessions.dfy` | the notification protocol as a step system: concurrent producers, the Notifier buffer, the handler loop, readers and watchers of clients |
| `Hub.dfy`, `Visits.dfy` | the protocol from one quiet moment to the next, and one subscriber that comes and goes while it runs |
| `Anomalies.dfy`, `Careless.dfy` | runs in which events are lost, repeated or kept beyond the capacity, and a history that leaves a mirror wrong |
| `Notification.dfy`, `Sse.dfy` | the notification controller as a class, the data of its events, and the text of the event stream |
| `MergePatch.dfy` | JSON merge patches as the library applies and computes them, and as RFC 7396 defines them |
| `Registration.dfy`, `Storage.dfy`, `Catalog.dfy`, `Http.dfy`, `Answers.dfy`, `Sweep.dfy` | the registration, the store and its listings, the catalog controller, the HTTP handlers, what each request does in terms of the JSON sent and stored, and an expiry sweep while requests go on |
| `Mirror.dfy`, `Replays.dfy`, `Directory.dfy`, `Wire.dfy` | a client that rebuilds the store from its events, events applied more than once, the whole directory under any schedule, and the same client with nothing but the text of its streams |
| `XPath.dfy`, `DnsSd.dfy` | XPath results read back from node trees; escaping of DNS-SD instance names |

Code that changes fields or fills buffers is a class with methods (`LevelDBEventQueue`, `LevelDBStorage`,
the two controllers, `HTTPAPI`); each method is proved against a function on values, and the properties
are proved about those functions. The concurrent protocol is a state with a set of atomic steps: one step
for every channel operation and every ID allocation, and three for each `addRotate` (it reads the counter,
takes its snapshot, writes its batch).

## Main results

* **Mirror** (`Directory.MirrorRebuilds`, and `Wire.WireRebuilds` from the bytes on the wire): over every
  history of null-free requests that keep the ID, each made when the listeners of the one before have
  returned, and under every schedule of producers, queue, handler, readers and watchers, a subscriber to
  everything that applies "create" as put, "update" as an RFC 7396 merge and "delete" as removal holds exactly
  the store whenever it is subscribed and nothing is on its way, over any number of connections that break off
  anywhere, within a frame or between two. It may start from any store it fetches once the subscription has
  begun that brings its first event: events that this store already contains do no harm
  (`Replays.ReplayAbsorbs`), nor do events that are sent twice. The header it sends on returning is the ID of
  the last event it received whole (`Wire.ReturnsAsItself`). Its returns must be careful: no event above its
  last seen ID is beyond the capacity, or has been taken by the handler and not yet been written. What a
  return misses is exactly the wanted events that have been taken and are not yet written, and those that were
  rotated out (`Visits.MissedAre`), and the mirror is then an earlier store without them
  (`Directory.MirrorShows`). `Careless.CarelessReturnSpoils` is a history, for every capacity, with one
  careless return after which the mirror is not the store and nothing is on its way that could mend it.
* **One request** (`Mirror.MirrorFollows`): a mirror follows a request exactly if it fails or its event carries
  it, a condition on the request and the store alone: the exceptions are sweeps that remove something (they
  emit no event), updates that change the ID, and updates that put nulls where they do not survive a merge.
  `Mirror.NullFreeCarries` reduces that to the bodies of POST and PUT: patches may contain nulls.
* **Visits** (`Visits.VisitsTell`, `Visits.VisitsAreExact`): what a subscriber to any types receives over all
  its connections is its part of the log but for immediate repeats, at most one for each return that found an
  event waiting; without such returns it is exact.
* **Schedules** (`Hub.EverySchedule`): between two quiet moments one event, one subscription or one departure
  has the same outcome however the steps interleave.
* **Seam** (`Sessions.SeamTheorem`, `Seam.SingleProducerSeam`): what a subscription with a Last-Event-ID
  receives under arbitrary interleaving of any number of producers, event by event. It loses exactly the events
  whose producers are between "consumed" and "stored" and those that were rotated out, and repeats at most the
  one in the buffer; with one producer, and if nothing above the last seen ID was rotated out, both together
  are at most one event. `Anomalies.LossHappens` has a run that loses any given number of events, all of them
  stored a moment later, and `Anomalies.RepetitionHappens` one that sends an event twice.
* **Channels** (`Protocol.ReachableSafe`, `HandlerMoves`, `HandlerReturns`): no reachable state sends on a
  closed channel or closes one twice, and the handler always gets back to its select.
* **Queue** (`EventLog.QueueIsLog`, `Seam.ReachableBound`): the byte-keyed queue is the last `capacity`
  events of a log; with concurrent producers it never holds more than `capacity + 1`, and one more for each
  event that others write while one `addRotate` is under way, from the first write after the start on, however
  many events were there before. `Anomalies.BoundIsReached` has a run that stores exactly as many, for every
  capacity and every overlap.
* **Merge patches** (`MergePatch`): the library is RFC 7396 exactly when the patch keeps nulls out of the
  arrays it writes over non-objects; it is idempotent exactly on stable patches; a diff merges back exactly
  when the new value survives. A witness shows that the library is not idempotent in general.
* **Requests** (`Answers.PostDoes`, `PutDoes`, `PatchDoes`, `DeleteDoes`, `TickDoes`): for every request on every
  store the answer, errors included, the new store and the event, told by the members of the JSON that is sent
  and stored. `Answers.PostAccepts` and `Answers.PatchAccepts` say exactly when a POST or PATCH succeeds.
* **Catalog** (`Http.ReachableStoresAreGood`): in every store that requests and sweeps can produce one after
  the other (patches that change the ID aside) each TD carries its key as ID and a readable registration
  written by the server, whatever registration clients send. `Catalog.PatchTwiceSame` says exactly when a
  patch is accepted again and when it then changes nothing, `Http.PutTwice` when a PUT is.
* **Sweeps** (`Sweep.RemovesOnlyExpired`, `Sweep.RemovesRenewed`): with requests served at any moment between
  the snapshot of a sweep and each of its deletions, a deletion takes away one key whose expiry was past in the
  snapshot; it takes away a TD that has not expired if and only if the last request accepted on that key since
  renewed it. `Sweep.RenewedIsRemoved` is a run in which that happens.
* **Updates** (`MergePatch.DiffIsDifference`, `Notification.UpdateTells`): the event of an update holds the ID and
  exactly the members that have changed, at every depth.
* **Listings, streams, trees, names**: paged, whole and chunked listings agree, each TD once, in the bytewise
  order of the IDs (`Storage.ContentsAreListed`, `LevelDb.LessIsLexicographic`); event streams parse back to
  the events that were written whole (section 9.2.6 of the WHATWG HTML Standard); XPath results are an explicit
  normal form, or fail on an infinite number or NaN; escaped instance names split back uniquely.

## Where the code differs from its documentation or from what one expects

* `apidoc/openapi-spec.yml:368` promises RFC 7396. The library also deletes null elements of arrays where it
  prunes, so the model follows the library and `MergePatch.LibraryMeetsRfc7396` says when they agree.
* PATCH compares the ID in the body with the path only when the former is empty (`catalog/http.go:182`), so a
  patch can give a stored TD another ID (`Catalog.PatchCanDetachId`). `Http.KeepsId` excludes that where a
  property needs it.
* The expiry sweep deletes from the storage directly and emits nothing (`catalog/controller.go:509`); a TD
  renewed between the two phases of a sweep is still removed (`Sweep.RemovesRenewed`, `Sweep.RenewedIsRemoved`).
* `addRotate` takes no lock (`notification/ldb_eventqueue.go:64-77`), so calls whose snapshots precede each
  other's writes leave more events than the capacity allows for (`Anomalies.BoundIsReached`).
* A subscription that finds the newest event stored but not yet taken by the handler is sent it twice, and one
  that finds it taken but not yet stored is not sent it at all (`notification/controller.go:73-77`,
  `Anomalies.RepetitionHappens`, `Anomalies.LossHappens`).
* XPath results turn strings that read as numbers into numbers; a string such as "nan" makes the whole query
  fail when its result is marshalled (`XPath.FailsIffUnprintable`).
* A Last-Event-ID of 2^64-1 wraps, and every stored event is replayed (`EventQueue.AllAfterWraps`).
* A capacity of zero keeps one event, because the rotation does not see the entry written with it
  (`EventLog.Kept`).
* Beyond the last page the paging helper returns offset 0 and limit 0 (`Storage.WindowBounds`).

## Model

| member | source | states |
|---|---|---|
| Ids.KeyRoundTrip | notification/ldb_eventqueue.go:149-156 | the two conversions between IDs and 8-byte keys are inverse to each other |
| Ids.KeyOrder | notification/ldb_eventqueue.go:152-156 | bytewise order of keys is numeric order of IDs, for all uint64 pairs |
| Ids.HexRoundTrip | notification/ldb_eventqueue.go:112-115 | parsing the hexadecimal text of an ID gives the ID, as long as it is a uint64 |
| Ids.HexReads | notification/ldb_eventqueue.go:50-59 | a text is read digit by digit in base 16, small and capital letters alike, and nothing else is read |
| Ids.HexWrites | notification/ldb_eventqueue.go:112-115 | IDs are written in small letters without leading zeros |
| LevelDb.LessIsLexicographic | catalog/ldbstorage.go:141-156 | the key order is bytewise: a proper prefix first, else the smaller byte at the first difference |
| LevelDb.ScanInOrder | notification/ldb_eventqueue.go:66-70 | an iterator over a range yields exactly the keys from its start up to its limit, each once, in bytewise order |
| LevelDb.SortedUnique | catalog/ldbstorage.go:141-156 | iteration order is determined by the keys alone |
| EventQueue.LevelDBEventQueue.constructor | notification/ldb_eventqueue.go:26-44 | opening a database takes up the counter at the largest stored ID |
| EventQueue.LevelDBEventQueue.FetchLatestID | notification/ldb_eventqueue.go:128-146 | the last key, read as a number, or zero in an empty database |
| EventQueue.LevelDBEventQueue.GetNewID | notification/ldb_eventqueue.go:112-115 | the counter advances by one in uint64 and its hexadecimal text is returned |
| EventQueue.LevelDBEventQueue.AddRotate | notification/ldb_eventqueue.go:46-82 | one batch puts the event and drops exactly the expired snapshot keys; an ID that does not parse changes nothing |
| EventQueue.LevelDBEventQueue.GetAllAfter | notification/ldb_eventqueue.go:84-110 | the events of the range scan that starts after the ID, or an error if the ID does not parse |
| EventQueue.KeysAfterIsTail | notification/ldb_eventqueue.go:90-95 | the keys visited are those of the stored events above the ID, in ID order |
| EventQueue.AllAfterWraps | notification/ldb_eventqueue.go:93 | for the largest uint64 the start wraps to zero and everything is returned |
| EventQueue.LatestIsMaximum | notification/ldb_eventqueue.go:128-146 | the last key carries the largest stored ID |
| EventQueue.ExpiredIds | notification/ldb_eventqueue.go:63-71 | a rotation drops exactly the stored IDs that are `capacity` or more behind the counter |
| EventLog.NewIdRepresents | notification/ldb_eventqueue.go:112-115 | allocating on the byte-keyed queue is allocating on the numbered tape |
| EventLog.StoreRepresents | notification/ldb_eventqueue.go:46-82 | storing on the byte-keyed queue is storing on the numbered tape |
| EventLog.ReplayRepresents | notification/ldb_eventqueue.go:84-110 | reading after an ID is the replay of the tape, rendered |
| EventLog.ReplayContent | notification/ldb_eventqueue.go:90-103 | a replay holds every stored event in its range once, in increasing ID order |
| EventLog.ReopenRepresents | notification/ldb_eventqueue.go:38-42 | closing and reopening resumes the same state exactly if the newest ID is stored, or none was given out |
| EventLog.StoreAppends | notification/ldb_eventqueue.go:46-82 | allocate then store keeps "the last events of the log" and appends one |
| EventLog.ReplayIsLogSuffix | notification/ldb_eventqueue.go:84-110 | a replay is the suffix of the log above the ID, as far as it is retained |
| EventLog.QueueIsLog | notification/ldb_eventqueue.go:46-146 | after any sequential run: the stored keys, the result of reading after any ID, and the counter found on reopening |
| EventLog.StoreContent | notification/ldb_eventqueue.go:61-77 | one undisturbed rotation drops only IDs beyond the capacity and keeps the rest |
| EventLog.StoreBound | notification/ldb_eventqueue.go:63-77 | one undisturbed rotation, whatever the order of IDs, never takes the queue above capacity + 1 |
| Protocol.StepKeepsChannels | notification/controller.go:137-184 | every step of producers, handler and clients keeps the channel invariant |
| Protocol.ReachableSafe | notification/controller.go:51-64 | in every reachable state nothing has panicked and the active clients are exactly the subscribed channels not yet closed |
| Protocol.StepPanics | notification/controller.go:156-184 | a step panics exactly if it sends a wanted event on a closed channel or closes one again |
| Protocol.HandlerMoves | notification/controller.go:160-183 | inside a sending loop the handler, or the reader it waits for, can step, and has less left to do |
| Protocol.NobodyAddsWork | notification/controller.go:145-163 | no other step gives the busy handler more to do |
| Protocol.HandlerReturns | notification/controller.go:137-168 | from any safe state the handler can be brought back to its select within a bound |
| Protocol.ProjectConcat | notification/controller.go:172-184 | what a subscriber is sent of two stretches of events is what it is sent of each, in order |
| Seam.ReachableFlow | notification/controller.go:66-83 | in every run every issued event is unsent, buffered or consumed; what is stored is what was issued, and what is in flight is not stored |
| Seam.ReachableRetained | notification/ldb_eventqueue.go:63-77 | nothing that is issued in a run is dropped before it is beyond the capacity, whatever earlier runs have left and under whatever capacity |
| Seam.WithinCapacity | notification/ldb_eventqueue.go:63-77 | so events within the capacity are never rotated out |
| Seam.ReachableBound | notification/ldb_eventqueue.go:63-77 | however producers interleave, once an event is written at most capacity + 1 events are stored, and one more for each event written by others during one addRotate; until then no more than at the start |
| Anomalies.BoundIsReached | notification/ldb_eventqueue.go:64-77 | for every capacity and every number of overlapping writes a run that stores exactly that many events |
| Seam.SingleProducerBound | notification/ldb_eventqueue.go:63-77 | with one producer at a time at most capacity + 1 events are stored once one is written |
| Seam.LossAndDuplication | notification/controller.go:73-77 | at a subscription the lost events are exactly those of late producers and those rotated out, and only the buffered one can come twice |
| Seam.QuietIsExact | notification/controller.go:66-83 | with no producer in flight and an empty buffer nothing is repeated, and nothing is lost but what was rotated out |
| Seam.SingleProducerSeam | notification/controller.go:66-83 | with one producer at a time and nothing rotated out, loss and duplication together are at most one event, the newest consumed or stored |
| Sessions.SessionHolds | notification/controller.go:141-163 | from subscription on, delivered plus outstanding is the type-filtered stream |
| Sessions.StreamCounts | notification/controller.go:145-155 | each event above the last seen ID occurs zero, one or two times, as it is lost, repeated or neither |
| Sessions.SeamTheorem | notification/controller.go:66-170 | what a subscription has received whenever the handler is idle, which events it lost and which one can be repeated |
| Anomalies.LossHappens | notification/controller.go:73-77 | for any n a run in which a client that asks for all events is sent none of n, although all are stored when it comes to rest |
| Anomalies.RepetitionHappens | notification/controller.go:145-163 | a run in which a client is replayed an event and then sent it again |
| Hub.EverySchedule | notification/controller.go:66-170 | every run between two quiet states in which one event is produced, one client subscribes or one leaves has the same outcome, whatever the schedule |
| Hub.HeadingStep | notification/controller.go:66-184 | no step but those three changes what the next quiet state will be |
| Hub.SettleRuns | notification/controller.go:137-184 | from any safe state the handler and the readers can come to rest while producers wait |
| Hub.ProduceRuns | notification/controller.go:66-83 | from any quiet state a run exists that produces an event and is quiet again |
| Hub.ConnectRuns | notification/controller.go:141-155 | from any quiet state a run exists in which a new client subscribes and is replayed what it missed |
| Hub.DisconnectRuns | notification/controller.go:156-159 | from any quiet state a run exists in which a connected client leaves |
| Visits.ReplayReaches | notification/controller.go:145-155 | what a returning subscriber is replayed is the log above its last seen ID without what it misses, up to the handler or the event that waits for it |
| Visits.MoveKeepsExact | notification/controller.go:66-184 | every step of the server, every arrival and every departure, whatever had been received by then, keeps the story of a subscriber |
| Visits.VisitsTell | notification/controller.go:66-184 | at every moment of every run with one producer at a time, what has been received is, but for immediate repeats, the beginning of the wanted log without the missed events; all of it when the handler is idle, up to the end when nothing is on its way |
| Visits.MissedAre | notification/controller.go:73-77 | a return misses a wanted event exactly if its producer is late or it was rotated out |
| Visits.RotatedIsOld | notification/ldb_eventqueue.go:63-77 | what was rotated out is beyond the capacity, and never the newest event |
| Visits.NothingMissed | notification/controller.go:145-155 | a subscriber whose returns are careful has missed nothing |
| Visits.NothingRepeated | notification/controller.go:73-77 | a subscriber that never returns while an event waits in the Notifier is sent nothing twice |
| Visits.VisitsAreExact | notification/controller.go:137-184 | a subscriber whose returns are careful and find no event waiting receives exactly its part of the log, in increasing ID order |
| Notification.UpdateTells | notification/controller.go:99-123 | the data of an update event holds the old ID and exactly the changed members |
| Notification.UpdateRebuilds | notification/controller.go:99-123 | merging the data of an update event into the old TD gives the new one exactly if the ID is kept and the new TD survives |
| Notification.NullFreeUpdateRebuilds | notification/controller.go:99-123 | in particular it gives every new TD without null members that keeps the ID |
| Notification.CopyBrings | notification/controller.go:172-184 | one copy with the same ID and type if the type is wanted; as data everything with diff, else exactly the ID of the thing |
| Notification.CopiesAreProject | notification/controller.go:172-184 | what a subscription is sent of stored events is the projection of the numbered ones |
| Notification.MissedRepresents | notification/controller.go:146-151 | any Last-Event-ID header selects the replay it stands for, or none if it does not parse |
| Notification.HeaderSelects | notification/controller.go:145-155 | a subscription is replayed nothing without a header or with one that is no number, else exactly the stored events above it in order, and for the greatest number all |
| Notification.ConnectModels | notification/controller.go:141-155 | registering and replaying moves the hub to its connected state |
| Notification.CopiesAreDispatched | notification/controller.go:160-163 | sending to all active clients is dispatching on the hub |
| Notification.EventRepresents | notification/controller.go:66-83 | allocating and storing an event moves the tape of the hub |
| Notification.Controller.SendToSubscriber | notification/controller.go:172-184 | one copy if the type is wanted, trimmed to the ID without diff, on an open channel |
| Notification.Controller.HandleEvent | notification/controller.go:160-163 | the event is taken off the Notifier and sent to every active client |
| Notification.Controller.SendToAll | notification/controller.go:161-163 | every active client gets its copies, all others nothing |
| Notification.Controller.HandleSubscription | notification/controller.go:141-155 | the client is registered and sent what it missed |
| Notification.Controller.HandleUnsubscription | notification/controller.go:156-159 | the client is removed and its channel closed once |
| Notification.Controller.StoreAndNotify | notification/controller.go:66-83 | the event gets a new ID, waits in the Notifier and is stored; nobody has been sent it yet |
| Notification.Controller.CreateHandler | notification/controller.go:89-97 | a creation is announced under the next ID with the whole TD |
| Notification.Controller.UpdateHandler | notification/controller.go:99-123 | an update is announced under the next ID with the old ID of the TD and exactly the changed members |
| Notification.Controller.DeleteHandler | notification/controller.go:125-135 | a deletion is announced under the next ID with the ID of the TD alone |
| Sse.WriteEvents | notification/sse.go:67-78 | the stream is the frames of the events, in order |
| Sse.FrameText | notification/sse.go:72-75 | the text of one event: its type, its ID and its data as JSON |
| Sse.ReadFrames | notification/sse.go:67-78 | a conforming client reads back exactly the messages that were written whole, for all fields that fit on one line, and its last event ID is that of the last of them |
| Sse.ParseFrames | notification/sse.go:67-78 | in particular it reads back all of a stream that ends between two frames |
| Sse.FeedCut | notification/sse.go:72-75 | any part of a frame that breaks off dispatches nothing and leaves the last event ID alone, even if it contains the "id" line |
| Sse.StreamIsReadBack | notification/sse.go:67-78 | every event of the directory fits, whatever its TD contains, so its stream is read back as sent, as far as it came |
| Sse.IdResumes | notification/sse.go:58-59 | the ID a client read, sent back as Last-Event-ID, is understood as the number of that event |
| Sse.PathSelects | notification/sse.go:91-106 | no type selects all, a valid type itself, anything else is refused |
| MergePatch.PruneFixed | vendor/github.com/evanphx/json-patch/v5/merge.go:50-91 | pruning leaves a value alone exactly if there is nothing to prune |
| MergePatch.PruneKeeps | vendor/github.com/evanphx/json-patch/v5/merge.go:50-91 | pruning an array drops its nulls and keeps the rest, pruned, in order; pruning an object drops its null members |
| MergePatch.LibraryMerges | vendor/github.com/evanphx/json-patch/v5/merge.go:10-48 | the merge of the library, member by member |
| MergePatch.MergeIsRfc7396 | vendor/github.com/evanphx/json-patch/v5/merge.go:10-48 | without pruning inside arrays the merge is the algorithm of section 2 of RFC 7396 |
| MergePatch.LibraryMeetsRfc7396 | vendor/github.com/evanphx/json-patch/v5/merge.go:10-91 | the library does what RFC 7396 says exactly if the patch keeps nulls out of the arrays it writes over non-objects |
| MergePatch.MergeTwice | vendor/github.com/evanphx/json-patch/v5/merge.go:10-91 | merging the same patch again changes nothing exactly if the patch is stable on the target |
| MergePatch.RfcMergeIsStable | apidoc/openapi-spec.yml:368 | under RFC 7396 every patch is stable, so merging is idempotent there |
| MergePatch.LibraryMergeTwiceDiffers | vendor/github.com/evanphx/json-patch/v5/merge.go:29-48 | a concrete target and patch on which the library is not idempotent |
| MergePatch.DiffEmpty | vendor/github.com/evanphx/json-patch/v5/merge.go:332-386 | a computed patch is empty exactly between equal objects |
| MergePatch.DiffIsDifference | vendor/github.com/evanphx/json-patch/v5/merge.go:332-386 | a computed patch has exactly the changed members: null where one was removed, a difference again between objects, else the new value |
| MergePatch.DiffRoundTrip | vendor/github.com/evanphx/json-patch/v5/merge.go:204-221 | merging a computed patch back gives the new object exactly if it survives |
| MergePatch.CleanSurvives | vendor/github.com/evanphx/json-patch/v5/merge.go:332-386 | an object without null members survives whatever the old one was |
| MergePatch.MergedMember | vendor/github.com/evanphx/json-patch/v5/merge.go:29-48 | what a patch does to one member: kept, removed or replaced |
| MergePatch.MergeWithout | vendor/github.com/evanphx/json-patch/v5/merge.go:29-48 | merging treats members independently |
| MergePatch.MergesAgree | apidoc/openapi-spec.yml:368 | two values that an RFC 7396 patch makes equal stay so when another patch is merged into both before it |
| Registration.WriteRead | catalog/controller.go:376-407 | a registration the server writes is read back as it was |
| Registration.StampReads | catalog/controller.go:376-422 | the times of a registration made by the server are read back as they were made |
| Storage.LevelDBStorage.Add | catalog/ldbstorage.go:42-66 | a new key is stored; an empty or existing one is refused and nothing changes |
| Storage.LevelDBStorage.Update | catalog/ldbstorage.go:86-107 | an existing key is replaced; a missing one is refused and nothing changes |
| Storage.LevelDBStorage.Delete | catalog/ldbstorage.go:109-124 | the key is gone afterwards, and an error tells if it was missing |
| Storage.LevelDBStorage.Total | catalog/ldbstorage.go:196-210 | the scan counts the stored TDs |
| Storage.LevelDBStorage.List | catalog/ldbstorage.go:126-165 | every slot of a page is filled with the TD that belongs there; bad parameters are refused |
| Storage.LevelDBStorage.Fill | catalog/ldbstorage.go:139-156 | the scan loop fills every slot of its window from the stored TDs in key order |
| Storage.LevelDBStorage.ListAllBytes | catalog/ldbstorage.go:167-194 | the buffer is one JSON array of the stored bytes in key order |
| Storage.LevelDBStorage.IterateBytes | catalog/ldbstorage.go:242-273 | the channel carries the stored bytes in key order |
| Storage.PagingRejects | vendor/github.com/linksmart/service-catalog/v3/utils/pagination.go:71-83 | exactly which paging parameters are refused |
| Storage.WindowBounds | vendor/github.com/linksmart/service-catalog/v3/utils/pagination.go:45-69 | the window is the wanted stretch of the list, or empty at zero beyond its end |
| Storage.WindowIsPage | vendor/github.com/linksmart/service-catalog/v3/utils/pagination.go:45-69 | the window cuts out exactly the elements of the page |
| Storage.ContentsAreListed | catalog/ldbstorage.go:126-165 | a listing holds every stored TD once, in the bytewise order of the IDs |
| Storage.PageIsListed | catalog/ldbstorage.go:126-165 | a page is its stretch of that list, as far as it goes |
| Storage.PagesConcatenate | catalog/ldbstorage.go:126-165 | pages 1 to n, concatenated, are the first elements of the list, once each and in order |
| Storage.PagesComplete | catalog/controller.go:211-225 | once a page reaches the end the pages are the whole list and all later ones are empty |
| Storage.ListingSplits | catalog/ldbstorage.go:167-194 | splitting the listing at its top-level commas recovers exactly the stored bytes in key order |
| JsonText.RunPrint | catalog/ldbstorage.go:47-60 | a scanner passes over the bytes of any stored value as a whole, at any depth |
| JsonText.SplitRecovers | catalog/ldbstorage.go:167-194 | splitting an array recovers exactly the printed elements, whatever strings they contain |
| JsonRead.JsonRoundTrip | catalog/ldbstorage.go:47-81 | unmarshalling what was marshalled gives the value, for every value whose numbers have a text that stands for them |
| JsonText.PrintOneLine | notification/sse.go:67-75 | printed JSON has no line break and no NUL |
| JsonText.PrintSample | catalog/ldbstorage.go:47-60 | one value with an object, an array and a string, printed with its members in key order |
| JsonText.QuoteEscapes | catalog/ldbstorage.go:47-60 | in a printed string exactly quotes, backslashes, control characters and those unsafe in HTML or JavaScript are escaped |
| Catalog.RegisterDoes | catalog/controller.go:44-67 | exactly which TDs are accepted, with which error the others are refused, and every member of the registration an accepted one gets |
| Catalog.RegisteredIsGood | catalog/controller.go:60-67 | an accepted TD has the server's registration and is otherwise as sent |
| Catalog.AddKeepsGood | catalog/controller.go:44-77 | adding keeps every stored TD good |
| Catalog.ReplaceKeepsGood | catalog/controller.go:93-125 | updating finds the old registration readable and keeps the store good if the ID is kept |
| Catalog.PatchKeepsId | catalog/controller.go:128-155 | a patch keeps the ID exactly if it does not mention it or repeats it |
| Catalog.PatchCanDetachId | catalog/http.go:182-187 | a patch with another ID is accepted and detaches a TD from its key |
| Catalog.RegisteredTimes | catalog/controller.go:409-422 | an accepted registration repeats the TTL and, without one, the expiry; with one it expires a TTL from now |
| Catalog.PatchedOutside | catalog/controller.go:128-184 | outside the registration an accepted patch is a plain merge, and other keys stay |
| Catalog.PatchAgain | catalog/controller.go:128-184 | an accepted patch is accepted again exactly if what it leads to is valid and the times can be written |
| Catalog.PatchTwice | catalog/controller.go:128-184 | the same patch twice: outside the registration nothing changes the second time exactly if the patch is stable there |
| Catalog.PatchTwiceTimes | catalog/controller.go:165-174 | the same patch twice: the TTL stays, and the expiry too unless a TTL moves it |
| Catalog.PatchTwiceSame | catalog/controller.go:128-184 | the same patch twice: the registration differs in the time of modification and, with a TTL, the expiry alone, and the whole TD does exactly if the patch is stable outside it |
| Catalog.PatchTwiceDiffers | catalog/controller.go:145-155 | two accepted patches that are the same and leave different TDs |
| Catalog.Controller.Add | catalog/controller.go:44-77 | all of the outcome or nothing: store, event and ID |
| Catalog.Controller.ReplaceStored | catalog/controller.go:99-124 | validation, registration, write and event of an update, all or nothing |
| Catalog.Controller.Update | catalog/controller.go:93-125 | an update of a stored TD, or not found |
| Catalog.Controller.Patch | catalog/controller.go:128-184 | the merge of a patch into a stored TD, then an update |
| Catalog.Controller.Delete | catalog/controller.go:186-200 | the TD is removed and its deletion told, or not found |
| Catalog.Controller.ListAll | catalog/controller.go:211-225 | the page loop ends with every TD once, in the bytewise order of the IDs |
| Catalog.Controller.CollectExpired | catalog/controller.go:495-504 | exactly the TDs whose expiry is past, in key order, or a panic if and only if a stored registration cannot be read |
| Catalog.Controller.DeleteCollected | catalog/controller.go:507-513 | one deletion: the key that the collected TD carries as its ID, or a panic if it carries none |
| Catalog.Controller.RemoveCollected | catalog/controller.go:506-514 | the deletions in order, up to the first that panics |
| Catalog.Controller.CleanExpired | catalog/controller.go:487-516 | a tick deletes what it collected, as far as it gets; from a good store exactly the TDs go whose expiry is past, without panic |
| Sweep.RemovesOnlyExpired | catalog/controller.go:495-515 | with requests interleaved, each deletion takes away one key, whose expiry was past in the snapshot and which was not deleted before, and leaves all else as found |
| Sweep.RemovesAllExpired | catalog/controller.go:495-515 | and a sweep that ends has made a deletion for each such TD |
| Sweep.RemovesRenewed | catalog/controller.go:495-515 | a deletion takes away a TD that has not expired if and only if the last request accepted on its key since the snapshot renewed it |
| Sweep.RenewedIsRemoved | catalog/controller.go:495-515 | a run in which an expired TD is put again between the two phases, is live then, and is removed |
| Sweep.AcceptedExpiry | catalog/controller.go:409-422 | the expiry an accepted request leaves, computed from what it sends |
| Http.HTTPAPI.HandlePost | catalog/http.go:54-96 | answers, stores and tells as specified, errors included |
| Http.HTTPAPI.HandlePut | catalog/http.go:100-163 | the ID checks, then an update or else an addition |
| Http.HTTPAPI.HandlePatch | catalog/http.go:166-208 | the ID check, then a patch |
| Http.HTTPAPI.HandleDelete | catalog/http.go:240-256 | answers as the deletion went |
| Http.HTTPAPI.GetAll | catalog/http.go:345-392 | the chunks are the bytes of the listing in one piece |
| Answers.PostDoes | catalog/http.go:54-96 | POST: which bodies are refused and how; an accepted TD is stored under the URN as sent, with a new registration, and told |
| Answers.PutDoes | catalog/http.go:100-163 | PUT: which bodies are refused and how; the TD replaces the stored one or is added, and is told |
| Answers.PatchDoes | catalog/http.go:166-208 | PATCH: only an empty ID is refused by the ID check; the merge of the body replaces what is stored under the path |
| Answers.DeleteDoes | catalog/http.go:240-256 | DELETE: the TD goes and is told, or not found |
| Answers.TickDoes | catalog/controller.go:487-516 | a sweep takes away exactly the TDs whose expiry is past, and tells nobody |
| Answers.PostAccepts | catalog/controller.go:44-77 | a POST without an ID under a new URN is answered "created" exactly if the TD with that ID is valid and its times can be read and written; then it is stored and told as sent |
| Answers.PatchAccepts | catalog/controller.go:128-184 | a PATCH of a good TD is answered "no content" exactly if the ID in the body is not empty and the merged TD is valid with times that can be read and written; then the merge is stored and told, with the old creation time |
| Http.ServeKeepsGood | catalog/http.go:54-256 | every request and every sweep keeps the store good |
| Http.ReachableStoresAreGood | catalog/controller.go:44-184 | in every reachable store each TD has its key as ID and a server-written registration, created when it was added |
| Http.AllOrNothing | catalog/http.go:54-256 | a failing request changes and tells nothing; a succeeding one tells one event and touches no other key |
| Http.Successes | catalog/http.go:54-256 | on which keys DELETE, POST and PATCH succeed, and what is there afterwards |
| Http.PutUpserts | catalog/http.go:100-163 | PUT fails without a trace or leaves the sent TD: "created" exactly if it was new, else with the old creation time |
| Http.PutTwice | catalog/http.go:100-163 | repeating an accepted PUT is accepted exactly if the new times can be written; it then keeps the creation time and the TD outside its registration, else it changes nothing |
| Mirror.MirrorFollows | notification/controller.go:89-135 | a mirror follows a request exactly if the request fails or its event carries it, decided from the request and the store |
| Mirror.NullIsMissed | notification/controller.go:99-123 | a PUT with a null member is stored and missed by every mirror |
| Mirror.ReplaceFollows | notification/controller.go:99-123 | the condition for updates: same ID, and what is written outside the registration survives the merge |
| Mirror.RegistrationSurvives | catalog/controller.go:107-115 | the registration the server writes always survives |
| Mirror.SweepFollows | catalog/controller.go:506-514 | a sweep tells nobody: a mirror stays right exactly if nothing has expired |
| Mirror.MergeKeepsClean | catalog/controller.go:145-155 | merging never puts a null member into an object that had none |
| Mirror.NullFreeCarries | catalog/controller.go:44-200 | null-free POST and PUT bodies suffice for a mirror to follow every request but a removing sweep |
| Directory.ProjectAll | notification/controller.go:172-184 | a subscriber to all types with diff is sent the events as they are |
| Directory.RequestKeepsConsistent | catalog/controller.go:44-200 | a request keeps the store equal to the replayed log and what listeners are still to be told |
| Directory.MoveKeepsConsistent | notification/controller.go:66-170 | so does every step of the protocol and every move of the subscriber |
| Replays.ApplyTwice | notification/controller.go:160-183 | applying an event again at once changes nothing |
| Replays.EventsAgree | notification/controller.go:89-135 | two mirrors that one event makes equal stay so when another event comes in between |
| Replays.ReplayAbsorbs | notification/controller.go:145-155 | a stretch of events may be applied to a store that some of them have already changed |
| Directory.MirrorShows | notification/controller.go:66-184 | at any idle moment a mirror is the store after some number of events, without those that were missed |
| Directory.StoreIsPast | catalog/controller.go:44-200 | every store of the past is what the log makes of the first one, up to some event |
| Directory.ReplayFromLater | notification/controller.go:145-155 | replaying the log from any point onto the store of a later one leads to the same end |
| Directory.MirrorRebuilds | notification/controller.go:66-184 | under every schedule, after careful returns and with nothing on its way, all a subscriber has received, applied to any store it could fetch since it began, gives exactly the store |
| Directory.FetchedSince | catalog/controller.go:211-225 | every store that is fetched after the subscription that brings the first event will do |
| Careless.CarelessReturnSpoils | notification/controller.go:66-155 | a history with one return while an event is taken and not yet written: with nothing on its way the mirror lacks a TD of the store |
| Wire.StreamsAreRead | notification/sse.go:67-78 | the texts of any number of connections, each broken off anywhere, are read back as the messages of the events they brought whole |
| Wire.HeaderIsLastSeen | notification/sse.go:58-59 | the last event ID of the client, sent back as a header, is understood as the last event it received whole |
| Wire.ReturnsAsItself | notification/sse.go:58-59 | so the subscriber that returns in a history sends exactly the header its story assumes |
| Wire.MessagesCarry | notification/sse.go:69-75 | applying the messages of some events is applying the events |
| Wire.WireRebuilds | notification/sse.go:38-79 | the mirror theorem from the texts of all connections, each as far as it came |
| XPath.GetObjectFromXPathNode | catalog/controller.go:457-481 | the recursion and its sibling loops end, with the value the tree stands for |
| XPath.ReadsNormal | vendor/github.com/antchfx/jsonquery/node.go:117-171 | the tree of any value is read back as its normal form |
| XPath.NormalIffPlain | catalog/controller.go:440-481 | a value comes back unchanged exactly if it is plain: no nulls, empty arrays, empty strings or names, and no strings that look like numbers or booleans |
| XPath.TextBecomes | catalog/controller.go:440-481 | a text becomes a number, true, false or itself |
| XPath.OddValuesBecome | catalog/controller.go:457-481 | nulls and empty arrays become empty objects, an empty string an array, and an object with an empty member name the array of its values in the order of the names |
| XPath.FailsIffUnprintable | catalog/controller.go:351-365 | marshalling the result fails exactly if a string in it reads as an infinity or NaN |
| DnsSd.EscapesEachCharacter | discovery.go:19-25 | the two replacements together escape each character once |
| DnsSd.EscapesBackslashAndDot | discovery.go:19-25 | exactly backslashes and dots are escaped, each by a backslash |
| DnsSd.UnescapeEscaped | discovery.go:19-25 | one unescaping pass gives back every name |
| DnsSd.FirstLabelOfEscaped | discovery.go:19-25 | an escaped name has no unescaped dot, and is exactly the first label of a full name |
| DnsSd.FullNamesDiffer | discovery.go:28-32 | different instances or suffixes never make the same full name |

## Left out

- Notification.Controller.StoreAndNotify: the methods of the class run one after the other and for fewer than 2^64 - 1 events; how their parts interleave is in `Protocol`, where allocating an ID is one atomic step although the source increments without a lock.
- Seam.ReachableBound: of each `addRotate`, reading the counter, taking the snapshot and writing the batch are each one step.
- Start of a run: the server opens a database that a queue has written, of any size and whatever its capacity was then, with no client connected; the counter is the newest ID stored there, so the log of a run begins with the events up to that one. The capacity is fixed while the server runs, and the visits of a subscriber lie within one run.
- Concurrent requests: each request and each deletion of a sweep is one atomic step on the store, although the source takes no lock between reading a TD and writing it back; two updates of one TD that overlap are not modelled.
- EventQueue.LevelDBEventQueue.constructor: opens databases that a queue has written; other keys would make the source panic.
- Sse.ReadFrames: the reconnection time that a "retry" field would set is not part of a message.
- Directory.MirrorRebuilds: a subscriber that leaves before it has received anything starts again, and fetches the store again; fetching it is one step between two requests.
- Order of listeners: the catalog starts them in goroutines of their own; the mirror and visit results take each as returned before the next request, though not as dispatched.
- JSON text of stored TDs and events: stores hold values; that marshalling and unmarshalling gives them back is `JsonRead.JsonRoundTrip`, with the number format as a parameter and without white space, which the server never writes.
- Parameters: the number format, time parsing and formatting, the conversion of a TTL to a duration (nanoseconds as integers, without overflow), schema validation, generated URNs and the clock.
- LevelDB itself: an ordered map with snapshot scans and atomic batches; storage errors and crashes between operations do not occur.
- Behaviour after shutdown, cancellation of a chunked listing by the client, and wait groups.
- `Get`, `GetMany`, JSONPath and XPath search, validation endpoint, the index page, the specification proxy, routing, authentication and error bodies: they add no state.
- The "diff" query parameter and response headers: I/O around the modelled branches.
- Registration with DNS-SD and the service catalog, configuration and environment: I/O.
- The evaluation of XPath and JSONPath expressions: libraries; only the tree of a value and its decoding are modelled, on values rather than linked nodes.
- The "retrieved" time of a registration: the source never sets it.
