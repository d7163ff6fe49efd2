# Verification of the asynchronous video pipeline

A Dafny 4.11 model of the upload, job, event, table and mail chain, with proofs over all its runs.
`dafny verify dfyconfig.toml` checks the whole project.

## What is modelled

A gateway stores an uploaded video, inserts a PENDING row and publishes a job. A worker takes the job,
fetches the source, extracts its frames, stores the archive and reports what happened as lifecycle
events. A topic exchange copies the events to the gateway's status consumer, the only writer of the
`videos` table, and failures also to the notifier, which mails the owner.

`Protocol` is this chain as one state machine. Each action is one effect of one participant: a request
handler, the broker, a worker goroutine, a status-consumer goroutine or a notifier goroutine. Actions
interleave in any order. `Invariant` and `Safety` show what holds after every action, `Guarantees` states
the results, `Drain` shows that a pipeline left alone comes to rest and what became of each upload, and
`Outcomes` bounds how many outcomes one video can be told. `Loss` is a run in which an accepted upload is
lost, `Overwrite` one in which a DONE row becomes FAILED.

`Cluster` holds the same state in objects that are updated in place: broker, object store, table, mail
relay. Every one of its methods is one action, and the object carries the list of actions performed so
far, so it is always in a state the protocol can reach. `Services` and `Gateway` are the services' own
code over the cluster. Between two effects of a method everybody else may take any number of steps
(`Interfere` and its relatives: the body does nothing, and callers rely only on a contract that allows
every step of the others).

Beside the pipeline stand smaller parts: `Topology` (declaring exchanges and queues, and where a
message goes), `Consumption` (the prefetch-bounded consumption loop), `RateLimit` (the fixed window kept
in Redis), `Backoff` (the startup retry loop) and `FrameArchive` (the archive and the order of its frames).
`FileNames` decides which uploads are accepted by name. `EndToEnd` puts the archive builder in the place of
the pipeline's extraction.

## How the outside world is treated

- An effect on a remote system works, fails, or is ambiguous: it took place but the caller sees an
  error. A lost reply, a timeout and a cancelled context are all ambiguous or failed effects.
- A lost connection returns an outstanding message to its queue with the redelivered flag set, while the
  goroutine that was handling it runs on; its later ack or nack reaches no delivery and has no effect.
  One action returns one message, so losing a whole connection is a series of them.
- Any ready message may be delivered next, and any number may be in progress. This allows more runs than
  the prefetch counts do, so what is proved holds under every prefetch count.
- How an effect goes is a parameter of the method that asks for it, so a contract says exactly what the
  answer is under every combination of outcomes.
- Generated identifiers (row ids, the random part of a source key) are any value not in use.
- Extraction is a fixed function of the source, which may also fail on any attempt.
- Object keys and the two user-facing failure texts are named values; formatting them is injective.

## Where the code and its documentation differ

The model follows the code.

- `docs/adr/0004-asynchronous-processing-rabbitmq.md:22-23` promises that nothing is silently lost. Only
  the jobs queue has a dead-letter exchange. A terminal event whose table update fails twice is dropped,
  and the video stays PENDING with an empty dead-letter queue: `Loss.AcceptedVideoCanBeLost` is such a
  run. `Drain.LostExactlyWhen`: once everything has settled an accepted video is lost outside the
  dead-letter queue exactly if its job was acknowledged and every attempt to apply a terminal event of it
  failed in the store. `Drain.NothingIsLost`: with nothing dead-lettered or dropped, nothing is lost.
- `internal/worker/worker.go:79-81` calls status events idempotent. That is so for repetitions of one
  outcome. `MarkDone` and `MarkFailed` are unguarded, so two different outcomes overwrite each other in
  order of arrival: `Overwrite.DoneCanBecomeFailed` is such a run, and
  `VideoTable.OrderBlindIffTerminalsAgree` says which lists of events are order-sensitive. One video gets
  two outcomes only if its job lost its connection or a terminal report on it was ambiguous:
  `Outcomes.OneOutcome`.
- `internal/gateway/ratelimit.go:28-30` describes windows that reset. If the one EXPIRE of a lifetime
  fails (`RateLimit.FailedExpireSticks`), or the reply to its first INCR is lost
  (`RateLimit.LostReplySticks`), the key never expires (`RateLimit.ResetsIffExpiryComes`) and after the
  limit no call from that address is allowed again (`RateLimit.StuckDeniesForGood`).
- `internal/worker/consumer.go:17-20` says the prefetch count caps the jobs in flight. A count of 0 means
  no limit in AMQP: `Consumption.NoCapWithoutPrefetch`.
- `internal/processing/processing.go:47-48` returns the sorted list of frames. It is in frame order
  exactly up to 99999 frames: `FrameArchive.FiveDigitFrames`.
- A row that went from DONE to FAILED keeps its archive key. Lifecycle results say so instead of
  claiming that FAILED rows have none.

## Model

| member | source | states |
|---|---|---|
| Guarantees.NoAcceptedJobVanishes | internal/gateway/video_handler.go:86-101 | In every reachable state the job behind a 202 is queued, held by a running handler, dead-lettered after a redelivery, or acknowledged, and then a terminal event for its video has been published; it is never dropped. |
| Guarantees.DoneRowIsTrue | internal/worker/worker.go:117-136 | In every reachable state a DONE row names its own archive, which exists and holds the frames of the very source the row points to; the count is the archive's entry count, positive, and the error is empty, even after repeated or concurrent reprocessing. |
| Guarantees.OtherRowsAreTrue | migrations/0001_init.up.sql:28-39 | A FAILED row carries a non-empty reason that was published for this video; a row not yet terminal has no archive, no frames and no error. |
| Guarantees.StepRefinesLifecycle | internal/repository/postgres/video.go:89-116 | Every step of every run leaves each video alone, inserts it as PENDING, moves PENDING to PROCESSING, or moves it to DONE or FAILED. |
| Guarantees.RunRespectsLifecycle | internal/repository/postgres/video.go:89-116 | Over any stretch of any run a row keeps its identity columns, does not return to PENDING, never leaves the set DONE and FAILED, and keeps a recorded archive key and count. |
| Guarantees.RowSummarisesItsEvents | internal/gateway/status_consumer.go:92-120 | In every reachable state a row equals the closed-form summary of the events applied to it, and is terminal exactly when a terminal event was applied. |
| Guarantees.AgreedOutcomeIsFinal | docs/adr/0011-database-per-service-single-writer.md:42-46 | If all terminal events published for a video write the same values, the row is that write as soon as one of them has been applied, under any duplication and order of arrival. |
| Guarantees.MessagesReferToRealVideos | internal/gateway/video_handler.go:57-93 | Every job or event in any queue, in flight, settled or dead-lettered names an existing row; a job agrees with it on owner, key and name and its source is stored; the archive of a done event exists with the reported number of frames. |
| Guarantees.CountersCountActions | internal/worker/consumer.go:80-85 | The per-message counters used to bound retries are the numbers of deliveries and losses in the run. |
| Guarantees.RetriesAreBounded | internal/worker/consumer.go:68-90 | On all three queues a message is requeued at most once, delivered at most twice more than connections were lost with it, and dead-lettered or dropped only when redelivered or undecodable; only jobs are dead-lettered. |
| Guarantees.DeliveriesSettleOnce | internal/worker/consumer.go:66-91 | In any run a delivery is settled exactly once if its handler has finished and not at all before. |
| Guarantees.HandleIsSound | internal/worker/worker.go:83-140 | A worker goroutine has published no terminal event before it decides, exactly one if it reports success and at most one if it reports an error, always for the video of its own job. |
| Guarantees.FailuresFanOut | internal/messaging/topology.go:46-63 | In every reachable state the status queue and the notifications queue have received the same failure events, namely those published. |
| Guarantees.FailuresListed | internal/messaging/topology.go:46-63 | An event is among the failures a queue received exactly if a message of that queue carries it. |
| Guarantees.FailuresCounted | internal/messaging/topology.go:46-63 | A queue received as many failures as it has failure messages. |
| Guarantees.MailsAreWarranted | internal/notifier/notifier.go:33-58 | Every mail reports a failure published for that video and goes to the address captured when its owner uploaded it. |
| Guarantees.NoticesAreAccountedFor | internal/notifier/consumer.go:54-72 | Every failure notification with an address is queued, in flight, mailed, or was dropped on a redelivery. |
| Drain.StepDrains | internal/worker/consumer.go:66-91 | Every step other than a new upload, a lost connection or a foreign message lowers one measure over all queues, handlers and uploads, although a job delivery may add status and notification messages. |
| Drain.InternalRunsAreShort | internal/worker/consumer.go:66-91 | A run of such steps is no longer than the drop in the measure. |
| Drain.UnsettledCanMove | internal/worker/consumer.go:29-54 | A message that is queued or held always has a possible next step. |
| Drain.RestMeansAccounted | load/spike.js:148-151 | In every reachable state in which no participant can move every request has been answered, all queues are empty and each video answered 202 is DONE or FAILED, dead-lettered, or had a terminal event dropped on a redelivery. |
| Drain.EveryDrainEnds | load/spike.js:148-151 | From every reachable state every run of such steps is no longer than the measure, and where it can go no further every request is answered, the queues are empty and every accepted video is accounted for. |
| Drain.QueuesCanDrain | load/spike.js:148-151 | From every reachable state, so also after any such run, the steps can be continued until no participant can move, without further uploads or losses. |
| Drain.NothingIsLost | docs/adr/0004-asynchronous-processing-rabbitmq.md:20-29 | If the queues are empty and nothing was dead-lettered or dropped, every video answered 202 is DONE or FAILED. |
| Drain.LostExactlyWhen | internal/gateway/status_consumer.go:76-86 | In a settled run an accepted video is unfinished and not dead-lettered exactly if its job was acknowledged and every update for a terminal event of it failed in the store; then such an event was published and all status copies of such events were dropped on a redelivery. |
| Drain.TerminalIffUpdated | internal/gateway/status_consumer.go:92-120 | Over any run a row is DONE or FAILED exactly if some update for a terminal event of it took place in the store, whether or not the consumer learned of it. |
| Outcomes.OutcomesAtMostDeliveries | internal/worker/consumer.go:66-91 | In any run a video is told at most as many terminal events as its one job message was delivered. |
| Outcomes.OneOutcome | internal/worker/worker.go:123-139 | If the job never lost its connection and no terminal report on it was ambiguous, at most one terminal event is published for the video, however often the job is retried. |
| Outcomes.UndisturbedOutcomeIsFinal | docs/adr/0011-database-per-service-single-writer.md:42-46 | Under the same condition, an applied terminal event is the row from then on; DONE and FAILED do not overwrite each other. |
| Overwrite.DoneCanBecomeFailed | internal/repository/postgres/video.go:98-116 | A run, for every extraction that can succeed, in which the row is DONE and later FAILED with the archive key still in it: an ambiguous success report, a retry whose download fails. |
| Loss.AcceptedVideoCanBeLost | docs/adr/0004-asynchronous-processing-rabbitmq.md:22-23 | A run without any lost connection after which the upload was answered 202, all queues are empty, the dead-letter queue holds nothing, and the row is PENDING. |
| Safety.StepExtends | docs/adr/0011-database-per-service-single-writer.md:42-46 | No step removes or rewrites a stored object, a row's identity, a settled message, a published event or a sent mail. |
| Safety.StepKeepsInv | internal/worker/worker.go:94-174 | Every step of every participant, under every effect, keeps all eleven parts of the invariant. |
| Safety.ReachableInv | internal/worker/worker.go:94-174 | The invariant holds in every reachable state. |
| VideoTable.FoldIsSummary | internal/gateway/status_consumer.go:92-120 | Replaying any list of events on a row gives the row read off the list: status and error from the last terminal event, archive key and count from the last done event, PROCESSING only without a terminal one. |
| VideoTable.RowsFoldIndependently | internal/gateway/status_consumer.go:92-120 | Replaying events on the table changes each row by its own events only and neither adds nor removes rows. |
| VideoTable.AgreeingListsFoldAlike | docs/adr/0011-database-per-service-single-writer.md:42-46 | Two lists that contain the same terminal write and no other give the same row, whatever else differs: order, duplicates, missing processing events. |
| VideoTable.OrderBlindIffTerminalsAgree | internal/repository/postgres/video.go:98-116 | All permutations of a list of events give the same row exactly when its terminal events write the same values. |
| VideoTable.DifferentVideosCommute | internal/repository/postgres/video.go:92-116 | Events for different videos commute on the whole table. |
| VideoTable.VideoRepository.Create | internal/repository/postgres/video.go:27-39 | Inserts one PENDING row with the given owner, name, key and creation time and empty result columns; no other row changes, and an error may be reported although the row is there. |
| VideoTable.VideoRepository.MarkProcessing | internal/repository/postgres/video.go:92-95 | The table changes as by one processing event: only a row still PENDING advances, and a missing row is no error. |
| VideoTable.VideoRepository.MarkDone | internal/repository/postgres/video.go:98-107 | The table changes as by one done event, whatever the row's status was. |
| VideoTable.VideoRepository.MarkFailed | internal/repository/postgres/video.go:110-116 | The table changes as by one failure event, of which only the reason counts; the archive key stays. |
| VideoTable.VideoRepository.GetByID | internal/repository/postgres/video.go:42-55 | The row, nothing if there is none, or the failure of the store; a missing row is no failure. |
| VideoTable.VideoRepository.ListByUser | internal/repository/postgres/video.go:58-87 | All rows the query yields in its order, or an error and nothing if reading breaks anywhere up to the end. |
| Cluster.Broker.Route | internal/messaging/publisher.go:48-68 | One copy is appended to each queue the declared bindings route the message to, and to no other. |
| Cluster.Broker.PublishVideoJob | internal/messaging/publisher.go:28-30 | A job that lands becomes exactly one message, in the jobs queue. |
| Cluster.Broker.PublishEvent | internal/messaging/publisher.go:32-46 | An event that lands becomes one message in the status queue, decodable under the routing key it was sent with, and, if it is a failure, one in the notifications queue. |
| Cluster.Broker.Ack | internal/worker/consumer.go:88-90 | Removes the message if the delivery is still outstanding, and does nothing under a stale tag. |
| Cluster.Broker.Nack | internal/messaging/topology.go:18-41 | Requeues with the flag set, or sends the message where its queue's dead-letter exchange routes it, or discards it if the queue has none; nothing happens under a stale tag. |
| Cluster.OthersLeaveHandlerAlone | internal/worker/consumer.go:46-52 | Whatever the other participants do, a handler's position and its count of published terminal events stay as they were. |
| Cluster.OthersLeaveUploadAlone | internal/gateway/video_handler.go:28-102 | Whatever the other participants do, an upload's own record stays as it was. |
| Cluster.Cluster.Holds | internal/worker/worker.go:94-174 | The objects satisfy the invariant whenever they represent a state reached by recorded actions. |
| Services.Worker.Process | internal/worker/worker.go:94-140 | Under any failures and interference the goroutine's own steps are those of the source, in its order, up to the one that decides the outcome. Done exactly if the directory, the transfer, a non-empty extraction, the archive and its report all work; failed exactly if the transfer or extraction does not and that report works; an error otherwise. Nil means the newest publication is its one terminal event, agrees with the outcome and is true: its archive is in the store with that many frames, or it is the job's failure with a reason. |
| Services.Worker.Fail | internal/worker/worker.go:144-174 | One attempt to publish the failure with the job's own owner, address and name and the given reason: outcome failed if it goes out, an error otherwise. |
| Services.Worker.Work | internal/worker/worker.go:110-121 | Only the transfer can fail: the source of a job is in the store. An unreadable one leads to the one attempt to publish a failure and to nothing else, a readable one to extraction; the outcome is decided as for the whole attempt. |
| Services.Worker.Extract | internal/worker/worker.go:117-121 | A failed or empty extraction leads to the one attempt to publish a failure and to nothing else; frames lead to delivery. |
| Services.Worker.Deliver | internal/worker/worker.go:123-139 | The archive is stored first, and only if that works is the done event attempted; done exactly if both work. Then the store holds these frames under the video's key and the newest publication names that key and their number. |
| Services.AttemptSplits | internal/worker/worker.go:94-174 | The infra-versus-processing split over the steps of an attempt: a failure is reported exactly after an unreadable source or a failed extraction; the outcome is failed or done exactly if that report went out, and an error exactly if the scratch directory, the archive or a report could not be made. |
| Services.Worker.Handle | internal/worker/worker.go:83-89 | This goroutine leaves the in-flight gauge and is counted once, under the outcome its publication shows, while the worker's other goroutines enter and leave; gauge and counters stay exact for all of them. |
| Services.Worker.JobStarted | internal/observability/metrics.go:54-59 | The gauge is the number of goroutines inside. |
| Services.Worker.JobFinished | internal/observability/metrics.go:62-69 | The gauge is the number of goroutines inside and each counter the number that ended with its outcome. |
| Services.Worker.ProcessDelivery | internal/worker/consumer.go:68-91 | One settlement is the last step. Acknowledged: the job decoded and exactly one terminal event is out. Error: requeued if this was the first delivery, otherwise dead-lettered. Undecodable: dead-lettered at once. A message that a lost connection had taken back stays where it is. |
| Services.StatusConsumer.Apply | internal/gateway/status_consumer.go:92-120 | The event of each routing key has its own effect on the table; an error exactly if the store failed on a decoded event; an undecodable one changes nothing and counts as handled. |
| Services.StatusConsumer.ProcessDelivery | internal/gateway/status_consumer.go:76-86 | One settlement is the last step. Acknowledged: a decoded event is among those applied. Store failure: requeued if this was the first delivery, otherwise dropped. A message already taken back stays where it is. |
| Services.Notifier.Handle | internal/notifier/notifier.go:33-59 | No address: skipped, nothing sent. Otherwise sent to that address with that reason and counted as sent, or, exactly if the relay fails, counted as failed and an error. |
| Services.Notifier.ProcessDelivery | internal/notifier/consumer.go:54-72 | One settlement is the last step. Acknowledged: a notification with an address has been mailed. Send failure: requeued if this was the first delivery, otherwise dropped. Undecodable: dropped at once. |
| FileNames.ExtIsLastSuffix | internal/gateway/video_handler.go:43 | The extension is the suffix from the last dot after the last slash, and empty exactly if there is no such dot. |
| FileNames.LowerExtIffEndsIn | internal/gateway/video_handler.go:43 | For every name and extension: the lower-cased extension is this one exactly if the name ends in it, letter by letter in either case. |
| FileNames.AllowedIffVideoName | internal/gateway/video_handler.go:20-44 | The check accepts exactly the names that end, in any mix of cases, in one of the seven extensions written out. |
| Gateway.Server.HandleUpload | internal/gateway/video_handler.go:28-102 | 413 exactly for a file over the limit; 400 exactly for a missing file or, within the limit, a name that ends in none of the seven extensions; 202 exactly for the rest that opens if storing, inserting and publishing all work; otherwise 500. A refused upload changes nothing; any other starts its record and makes its own actions in order up to the first that failed. A 202 means the source is stored under the owner and extension, the row exists and agrees with it, and the jobs queue was sent the job with the owner's address. |
| Gateway.Server.Store | internal/gateway/video_handler.go:57-101 | The same from storing the source on. |
| Gateway.Server.Register | internal/gateway/video_handler.go:72-101 | The same from the insertion on. |
| Gateway.Server.Enqueue | internal/gateway/video_handler.go:79-101 | The same from the address lookup on; an unknown address does not fail the upload. |
| Gateway.Server.DownloadURL | internal/gateway/video_handler.go:181-192 | A link exactly for a finished video with an archive key whose signature works, and then to that key. |
| Gateway.RowVouchesForUrl | internal/gateway/video_handler.go:181-192 | A row seen DONE at any time vouches, then and later, for an archive of a source uploaded by the row's owner. |
| Gateway.Server.HandleList | internal/gateway/video_handler.go:105-120 | An error exactly if reading breaks. Otherwise all of the caller's videos and no others, once each, newest first, with a link exactly for the DONE ones whose signature works; every link is for that video's own archive, which exists and was made from a source the caller uploaded, although rows change while the list is built. |
| Gateway.Server.HandleGet | internal/gateway/video_handler.go:123-129 | 400 exactly if the parameter is no id, 500 exactly if it is one and the store is down, 404 exactly if the store answers and the row is absent or another user's, the caller's own row otherwise; with a link exactly if it is DONE and the signature works, to this video's own archive. |
| Gateway.Server.HandleDownload | internal/gateway/video_handler.go:132-148 | The same 400 and 404; 409 exactly for an own video that is not DONE, a redirect exactly for one that is and whose signature works, 500 otherwise. The redirect goes to the archive of this very video, which exists and was made from the caller's own source. |
| Gateway.Server.OwnedVideo | internal/gateway/video_handler.go:153-177 | 400 exactly if the parameter is no id, 500 exactly if it is one and the store is down, 404 exactly if the store answers and the row is absent or another user's, the caller's own row otherwise. |
| Gateway.Server.ForeignLooksMissing | internal/gateway/video_handler.go:170-175 | Two servers whose tables agree on the caller's own rows answer alike, whatever else the tables hold. |
| Gateway.Server.DoneHasKey | internal/gateway/video_handler.go:137 | The empty-key half of the download guard never decides alone: a DONE row always has its archive key. |
| Topology.LiteralTopicMatch | internal/messaging/topology.go:46-63 | By the topic rules of AMQP 0-9-1 a binding key without wildcards matches its own text only. |
| Topology.Wildcards | internal/messaging/topology.go:43-45 | By the same rules `#` matches every key and `*` every key of one word. |
| Topology.EventRoutes | internal/messaging/topology.go:46-63 | Once the topology stands, for every key: the status queue gets exactly the three lifecycle keys, the notifications queue exactly failures, the job queues no events. |
| Topology.JobRoutes | internal/messaging/topology.go:18-41 | A job key reaches the jobs queue and nothing else, other keys reach nothing, and whatever is dead-lettered reaches the dead-letter queue. |
| Topology.DeadLettering | internal/messaging/topology.go:26-30 | Of the consumed queues only the jobs queue has a dead-letter exchange. |
| Topology.DeclareProgresses | internal/messaging/topology.go:16-66 | From any partial topology the next declaration of a run is accepted, stays within the target and undoes nothing. |
| Topology.TopologyConverges | internal/messaging/topology.go:11-15 | For any number of services declaring in any interleaving: never outside the target, no declaration refused, and equal to the target once one run has finished. |
| Topology.Channel.DeclareTopology | internal/messaging/topology.go:16-66 | With others declaring meanwhile, nil is returned exactly if all thirteen declarations were answered, and then the whole target stands. |
| Topology.Channel.DeclareJobs | internal/messaging/topology.go:18-41 | The first six declarations in order; stops at the first error. |
| Topology.Channel.DeclareEvents | internal/messaging/topology.go:43-63 | The remaining declarations in order; stops at the first error. |
| Topology.Channel.BindStatusQueue | internal/messaging/topology.go:59-63 | The binding loop: all three keys are bound unless one attempt fails. |
| Consumption.ConsumeIsDisciplined | internal/worker/consumer.go:21-56 | Under every schedule: at most prefetch deliveries are being handled, each delivery received is settled exactly once, when its handling ends, and after the loop returns no goroutine it started is left. |
| Consumption.DrainStartsNothing | internal/gateway/status_consumer.go:52-69 | Once shutdown or a closed channel is seen no further delivery is taken. |
| Consumption.NoCapWithoutPrefetch | internal/worker/consumer.go:21-25 | With a prefetch count of 0 any number of deliveries can be handled at once. |
| Consumption.CapIsReached | internal/worker/consumer.go:17-25 | Any number of deliveries up to a positive prefetch count can be handled at once. |
| Consumption.RunsAreHeeded | internal/worker/consumer.go:36-55 | Of what is offered, whatever is possible takes place: a run of the discipline offered as it is happens as it is. |
| Consumption.Consumer.Consume | internal/worker/consumer.go:21-56 | An error exactly if QoS or the subscription fails, and then nothing happened. Otherwise exactly the possible part of what is offered takes place, and a run of the discipline offered as it is happens as it is, so no delivery is left untaken that could be taken; it returns exactly when draining with the wait group at zero, and then nothing is in progress. |
| RateLimit.AllowedIffEarly | internal/gateway/ratelimit.go:28-40 | Over all replicas an error-free call is allowed exactly when fewer than limit increments came before it in the same lifetime of the key. |
| RateLimit.ExpireHitsItsOwnLifetime | internal/gateway/ratelimit.go:33-38 | An EXPIRE, however late, finds the lifetime whose INCR returned 1 alive and without an expiry. |
| RateLimit.LifetimeBound | internal/gateway/ratelimit.go:11-13 | No lifetime of the key allows more than limit calls. |
| RateLimit.WindowBound | internal/gateway/ratelimit.go:11-13 | Over any run of any number of replicas, of the calls counted in a half-open interval as long as the window at most twice limit are allowed. |
| RateLimit.WindowEnds | internal/gateway/ratelimit.go:33-38 | If the EXPIRE of a lifetime lands at time t, then in every continuation the calls counted later than t + window are exactly those of later lifetimes. |
| RateLimit.FirstAfterWindow | internal/gateway/ratelimit.go:28-40 | The first call counted after that has rank 1, and without an error it is allowed under every positive limit. |
| RateLimit.ResetsIffExpiryComes | internal/gateway/ratelimit.go:28-38 | A counting key can still be reset exactly when its expiry is set or its first caller has yet to send EXPIRE. |
| RateLimit.FailedExpireSticks | internal/gateway/ratelimit.go:33-38 | One call whose EXPIRE fails leaves a counting key that nothing can reset. |
| RateLimit.LostReplySticks | internal/gateway/ratelimit.go:29-32 | So does one INCR whose reply is lost. |
| RateLimit.StuckForGood | internal/gateway/ratelimit.go:28-40 | Such a key stays so in every continuation, counts every call, and answers each by its count alone or with an error. |
| RateLimit.StuckDeniesForGood | internal/gateway/ratelimit.go:28-40 | Once it has counted to the limit, in every continuation every later call is denied or meets an error. |
| RateLimit.OthersLeaveCallAlone | internal/gateway/ratelimit.go:28-40 | No other replica changes what a call was told. |
| RateLimit.RedisServer.Incr | internal/gateway/ratelimit.go:29-32 | The reply is the call's rank in the current lifetime; a lost reply is an error although it was counted. |
| RateLimit.RedisServer.Expire | internal/gateway/ratelimit.go:35-37 | Answers the call that sent it and no other; if it lands, the key expires one window from now, and otherwise has no expiry. |
| RateLimit.RedisLimiter.Allow | internal/gateway/ratelimit.go:28-40 | With other replicas acting between its two commands: an error exactly when INCR fails, or EXPIRE fails for the first call of a lifetime; otherwise the answer is the one recorded for this call's rank, and a first call leaves the key to expire one window after its EXPIRE landed. |
| Backoff.DelayDoubles | internal/platform/retry.go:38-42 | The code's capped doubling yields min(500 * 2^(k-1), 5000) ms for the k-th wait. |
| Backoff.CappedFromFifth | internal/platform/retry.go:16-17 | From the fifth on every wait is 5000 ms. |
| Backoff.FirstWaits | internal/platform/retry.go:16-42 | The first four waits are 500, 1000, 2000 and 4000 ms. |
| Backoff.TotalClosedForm | internal/platform/retry.go:16-42 | The first n waits, n at least 4, sum to 7500 + 5000 * (n - 4) ms. |
| Backoff.TotalGrows | internal/platform/retry.go:16-42 | The sum of n waits is at least 500 * n ms, so every deadline bounds the attempts. |
| Backoff.StartupAttemptsBounded | cmd/worker/main.go:33-36 | Under the services' 90-second startup context there are at most 22 attempts. |
| Backoff.RetryConnect | internal/platform/retry.go:15-44 | The attempts are exactly those up to the first that succeeds, ends after the deadline, or whose wait would not be over before the context; success is returned exactly when the last one succeeded; the waits are the closed form; n attempts mean the first n - 2 waits fit the deadline. |
| FrameArchive.BaseOfJoin | internal/processing/zip.go:47 | A file's entry name is its name within its directory. |
| FrameArchive.ZipFiles | internal/processing/zip.go:14-31 | Fails exactly if the archive cannot be created or some file cannot be added; otherwise one entry per file, in order, under its base name and with its bytes. |
| FrameArchive.ArchiveIsFaithful | internal/processing/zip.go:11-13 | For a listing of one directory the entries are flat, pairwise distinct and in order, and unpacking them restores exactly the directory. |
| FrameArchive.Run | internal/processing/processing.go:25-45 | A result exactly if every step succeeds and there is a frame; its entries are the extracted frames in listing order, its count their number, and unpacking gives them back. |
| FrameArchive.SortedIffNumbersFit | internal/processing/processing.go:49-66 | For names padded to w digits the sorted listing of n frames is in frame order exactly when n is below 10^w. |
| FrameArchive.FortySecondFrame | internal/processing/processing.go:50 | The name of frame 42 is frame_00042.png. |
| FrameArchive.FiveDigitFrames | internal/processing/processing.go:50 | With the width in use that is up to 99999 frames. |
| EndToEnd.DoneRowUnpacks | internal/processing/processing.go:25-45 | With the archive builder as the extraction: in every reachable state the archive a DONE row names unpacks to exactly the files ffmpeg left for the uploaded bytes, and the row counts them. |
| EndToEnd.SortedIsUnique | internal/processing/processing.go:66 | A set of file names has one sorted listing. |
| EndToEnd.DoneRowIsInFrameOrder | internal/processing/processing.go:49-66 | For frames numbered from 1, up to 99999 of them, entry k of the archive of a DONE row is frame k + 1. |

## Left out

- Consumption.ConsumeIsDisciplined: the cap on concurrent handling is stated for a positive prefetch count, because AMQP gives 0 the meaning of no limit.
- Drain.NothingIsLost: asks that nothing was dead-lettered or dropped, because without it the promise is false; see `Loss.AcceptedVideoCanBeLost`.
- Drain.QueuesCanDrain: fairness is not modelled; a schedule that stops while a step is possible does not come to rest, every other one does by `Drain.EveryDrainEnds`.
- Overwrite.DoneCanBecomeFailed: asks that extraction can succeed on the run's source, because no row can be DONE otherwise.
- FrameArchive.ZipFiles: the archive is a list of entries; compression and the deferred `Close` of the writer, whose error the source ignores, are not modelled.
- RateLimit.WindowBound: time is in whole milliseconds and a key is gone at the first tick after its expiry; Redis's rounding of shorter windows is not modelled.
- Services.Worker.Process: removing the scratch directory and the job timeout are not modelled, except that the timeout may make any effect fail.
- ffmpeg, the file system, S3, SMTP, PostgreSQL, Redis and AMQP client libraries: replaced by maps, sequences and effects that work, fail or are ambiguous.
- JSON: a message body is the decoded payload or undecodable; a done or failed event with a missing field cannot occur, and a foreign message is always undecodable.
- Status messages with an unknown routing key: the declared bindings route none, so they are the undecodable case.
- Broker disk loss and unconfirmed publishes: a publish that returns nil was routed.
- The publisher's mutex: each publish is one atomic action; the three event publishers are one method that takes the event.
- Users: registration, login, tokens and the deletion cascade from `users` to `videos`; the caller's id is given, and addresses are a map.
- The text of presigned URLs and their expiry: a URL is the key it signs.
- Mail subject and body: a mail is its address, the video and the reason.
- `updated_at`, `occurred_at`, log lines, duration histograms and the metrics endpoint.
- Lower-casing of letters whose lower case is not ASCII: an extension with such a letter is refused either way.
- File names with characters that `Glob` treats specially in the work directory's path.
- The rate-limit middleware's choice to let a request pass when the limiter fails: one branch.
- Configuration, HTTP routing, signals and process start, apart from the retry loop and the topology.
