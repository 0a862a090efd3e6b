# RabbitMQ queue driver for Laravel — a Dafny model

This project models the core of `avto-dev/amqp-rabbit-laravel-queue`. That package is a Laravel
queue driver that keeps jobs as AMQP messages in a RabbitMQ queue. The model covers:

- **the queue** (`Queue`): `push`, `later` and `pushRaw` build one persistent JSON message per job,
  with a clamped priority, an optional delay for the delay plugin and a `job-` message id. `pop`
  wraps the next ready message in a job;
- **the job** (`Job`): id, body, queue and attempt count. `delete` acknowledges the message.
  `release` acknowledges it and then publishes a copy with `job-attempts` raised by one;
- **the worker** (`Worker`): the RabbitMQ `daemon` loop. It subscribes a callback, lets it
  handle delivered messages, and re-subscribes while the queue should resume and nothing asks
  it to stop. It also covers `needToStop`, `getTimeoutForWork` and `stopWorkerIfLostConnection`;
- **the failed-job store** (`RabbitQueueFailedJobProvider`): failed jobs are archived as
  messages. `all`, `find` and `forget` scan the archive by draining it into a temporary queue
  and moving back the messages a filter keeps. `log` archives one message and `flush` purges;
- **the job state** (`JobState`): an ordered key/value map that refuses closures and
  resources, with `serialize`/`unserialize`;
- **the connector** (`Connector::connect`): configuration checks and defaults;
- **the exchange-bind listeners**: they bind a queue to its delayed-jobs exchange when the
  exchange is created, and unbind it when the exchange is deleted. The map behind this comes
  from the `queue.connections` configuration.

The broker is a class (`Amqp.Broker`). Its state is:

- the ready messages of every queue, in order;
- the messages the delay plugin holds;
- the delivered but unsettled messages (a multiset);
- the bindings;
- a log of every operation.

Each operation of the driver that touches the broker is a method whose contract gives the new value of every one of these fields.

Where the broker can fail, the failure is an input:

- In the failed-job scan, a `publishes(leg, message)` oracle says whether a publish succeeds.
- In the worker, each delivery carries the framework's answers: should the daemon run, did the
  conversion throw, what did the job do, has memory run out, should the queue restart.
- In the listeners, a `HandleFault` value says where `handle` throws.

The clock, the `sha1` digest behind message ids and the queue factory's name resolution are
parameters.

Files: `wrappers.dfy` (Option/Result), `php_values.dfy` (PHP scalars, `(int)`/`(bool)` casts,
`isset`, `is_numeric`), `amqp.dfy` (the broker), `framework.dfy` (exception handler, event
dispatcher), `interacts_with_jobs.dfy`, `has_priority.dfy`, `jobs.dfy`, `queues.dfy`,
`job_states.dfy`, `workers.dfy`, `failed_jobs.dfy`, `connectors.dfy`,
`exchange_bind_listeners.dfy`.

## Model

| member | source | states |
|---|---|---|
| InteractsWithJobs.NormalizePriorityValue | src/InteractsWithJobsTrait.php:20-29 | the result always lies in 0..255; a negative value gives 0, a value of 255 or more gives 255, and a value in range is kept |
| InteractsWithJobs.NormalizeIsClamp | src/Queue.php:123-132 | the queue's own copy of the rule is the clamp max(0, min(255, v)) |
| InteractsWithJobs.NormalizeIsIdempotent | src/InteractsWithJobsTrait.php:20-29 | normalising an already normalised priority changes nothing |
| InteractsWithJobs.DelayToMilliseconds | src/InteractsWithJobsTrait.php:41-46 | integer seconds become seconds × 1000; a float is scaled by 1000 and truncated toward zero, so it lies within 1 ms of the exact value and on the side of zero; a non-float delay is a whole number of seconds |
| InteractsWithJobs.GenerateMessageId | src/InteractsWithJobsTrait.php:65-68 | the id is the prefix followed by the first (at most eight) characters of the digest |
| InteractsWithJobs.GeneratedIdShape | src/InteractsWithJobsTrait.php:65-68 | for a 40-character hexadecimal sha1 digest, the id is the prefix and exactly eight letters or digits |
| HasPriority.Priority | src/HasPriorityTrait.php:14-28 | without a `priority` property the priority is 0; otherwise it is the `(int)` cast of the property, clamped into 0..255 |
| HasPriority.PriorityIsStableUnderProducerClamp | src/HasPriorityTrait.php:14-28 | a trait priority passes the producer's normalisation unchanged |
| Jobs.AttemptsOf | src/Job.php:99-102 | 1 when the message has no `job-attempts` property; otherwise the integer stored there |
| Jobs.RequeueCopy | src/Job.php:80-82 | the clone has the same body, headers, id, priority, delivery mode and other properties; only `job-attempts` is set |
| Jobs.AttemptsAfterRelease | src/Job.php:80-82 | the released copy has exactly one attempt more than the original |
| Jobs.AttemptsAfterReleases | src/Job.php:76-94 | after k releases the attempt count has grown by k; a message that never had the property counts 1 + k |
| Jobs.ReleaseDelay | src/Job.php:86-89 | a delivery delay is configured if and only if the delay is positive, and it is then delay × 1000 ms |
| Jobs.JobIdOf | src/Job.php:58-61 | the message id, or the empty string when the message has none |
| Jobs.Job.constructor | src/Job.php:42-53 | keeps the broker, consumer queue, message and connection name; the job is neither deleted nor released |
| Jobs.Job.GetJobId | src/Job.php:58-61 | the job id is the message's id read as a string |
| Jobs.Job.GetRawBody | src/Job.php:115-118 | the body exactly as received |
| Jobs.Job.GetQueue | src/Job.php:107-110 | the name of the consumer's queue |
| Jobs.Job.Attempts | src/Job.php:99-102 | the attempt count of the job's message |
| Jobs.Job.Delete | src/Job.php:66-71 | marks the job deleted and acknowledges exactly this message once; nothing else in the broker changes |
| Jobs.Job.Release | src/Job.php:76-94 | marks the job released; the log shows the acknowledgement BEFORE the publish of the copy to the consumer's queue; a non-positive delay appends the copy to that queue, a positive one hands it to the delay plugin with delay × 1000 ms |
| Queues.QueueMessageId | src/Queue.php:141-144 | every producer message id starts with `job-` |
| Queues.QueueMessageIdShape | src/Queue.php:141-144 | for a real sha1 digest the id is `job-` and exactly eight letters or digits |
| Queues.PushedMessageShape | src/Queue.php:90-114 | every pushed message carries the payload, is persistent, has JSON content type and the timestamp header, has a priority in 0..255 and a `job-` id, and counts as a first attempt |
| Queues.PushedPriority | src/Queue.php:99-101 | the priority is set only from a set integer `priority` option, and then to its clamp; otherwise it stays 0 |
| Queues.PushPriorityPrecedence | src/Queue.php:71-82 | a prioritized job's own priority beats the priority argument, an integer argument beats nothing, and nothing leaves priority 0 |
| Queues.LaterMatchesPush | src/Queue.php:166-179 | `later` sends the same message `push` would, and `push` never sets a delay |
| Queues.DeliveryDelayOfValues | src/Queue.php:103-108 | a non-zero integer delay gives delay × 1000 ms; a float gives its value × 1000 truncated toward zero, so 0.5 s is 500 ms and 0.1 s is 100 ms; a delay that comes to 0 ms, null, a boolean or a missing option gives none |
| Queues.DeliveryDelayOfStrings | src/Queue.php:103-108 | a numeric string is read by the `(int)` cast as whole seconds and gives that many seconds × 1000 ms; a non-numeric string, or one that casts to 0, gives no delay |
| Queues.Queue.constructor | src/Queue.php:43-49 | the stored time to run is max(0, time_to_run) |
| Queues.Queue.GetTimeToRun | src/Queue.php:202-205 | never negative |
| Queues.Queue.PushRaw | src/Queue.php:90-114 | publishes exactly one message, the one `PushedMessage` describes, to this queue: appended when there is no delay, handed to the delay plugin with the configured milliseconds otherwise; nothing else changes |
| Queues.Queue.Push | src/Queue.php:71-82 | appends the pushed message with the priority `push` chooses, with no delay |
| Queues.Queue.Later | src/Queue.php:166-179 | publishes that same message: without an effective delay it is appended to this queue and the delay plugin is untouched; with one, the queue is untouched and the plugin holds it for the derived milliseconds; nothing else changes |
| Queues.Queue.Pop | src/Queue.php:184-195 | null, with nothing in the broker changed, when the queue is empty; otherwise a fresh, unsettled job for the oldest message, which leaves the queue and joins the unacknowledged messages, and the receive is logged; the delay plugin, the bindings and the temporary-queue counter are untouched |
| JobStates.Insert | src/JobState.php:34-41 | a present key is overwritten in place, keeping every key's position; a new key is appended; keys stay distinct |
| JobStates.Remove | src/JobStateInterface.php:50-55 | the key is gone, exactly the other entries remain, and keys stay distinct |
| JobStates.GetAfterPut | src/JobState.php:34-41 | after an accepted put, get(key) is the value and every other key is where it was |
| JobStates.ForgetRemoves | src/JobStateInterface.php:50-55 | after forget, the key is absent and every other key keeps its presence and value |
| JobStates.DecodeEncode | src/JobState.php:16-27 | decoding the serialization of a well-formed value without closures or resources gives the value back and leaves the rest of the input untouched |
| JobStates.DecodeValueWellFormed | src/JobState.php:24-27 | a decoded value never holds an array with a repeated key, at any depth |
| JobStates.DecodeItemsWellFormed | src/JobState.php:24-27 | decoding entries into entries with distinct keys keeps the keys distinct, since a repeated key overwrites |
| JobStates.PlainIsSerializable | src/JobState.php:16-19 | a state without closures or resources can always be serialized |
| JobStates.UnserializedItems | src/JobState.php:24-27 | the stored items always have distinct keys, whatever the data |
| JobStates.SerializeRoundTrip | src/JobState.php:16-27 | unserialize(serialize(state)) restores the same keys, values and order, also when other data follows the serialized state |
| JobStates.JobState.constructor | src/JobState.php:11 | the state holds the given items |
| JobStates.JobState.All | src/JobStateInterface.php:9-14 | all items |
| JobStates.JobState.Has | src/JobStateInterface.php:16-23 | true if and only if some entry has the key |
| JobStates.JobState.Get | src/JobStateInterface.php:25-33 | the value stored under the key; when no entry has it, what calling a closure default returns, or any other default itself |
| JobStates.JobState.IsEmpty | src/JobStateInterface.php:43-48 | true if and only if there are no items |
| JobStates.JobState.Put | src/JobState.php:34-41 | a closure or a resource is refused with "Wrong value passed" (if and only if) and nothing changes; any other value is inserted |
| JobStates.JobState.Forget | src/JobStateInterface.php:50-55 | the items become Remove(items, key) |
| JobStates.JobState.Serialize | src/JobState.php:16-19 | serialization fails if and only if a closure is nested somewhere in the state |
| JobStates.JobState.Unserialize | src/JobState.php:24-27 | the items are replaced by the decoded ones and keep distinct keys |
| Workers.GetTimeoutForWork | src/Worker.php:140-149 | a non-negative worker timeout gives that many seconds in milliseconds; a negative one defers to the queue's timeout |
| Workers.NeedToStop | src/Worker.php:175-186 | stop if and only if the worker should quit, memory is exceeded, a restart is due, or stopWhenEmpty is set and no job ran |
| Workers.NeedToStopAfterJob | src/Worker.php:107-109 | after a job has run, stopWhenEmpty plays no part in the decision |
| Workers.LostConnection | src/Worker.php:156-161 | AMQP exchange and connection exceptions always count as lost connections; other faults count only when the framework says so |
| Workers.ConsumerTagFor | src/Worker.php:58-60 | a consumer tag is set if and only if the configured tag is truthy in PHP, and it is then the tag, a dash and a unique suffix |
| Workers.Worker.StopWorkerIfLostConnection | src/Worker.php:154-162 | shouldQuit becomes old shouldQuit OR lost connection; it is never cleared |
| Workers.QuitAfterKeeps | src/Worker.php:154-162 | once shouldQuit is set, no sequence of handled deliveries clears it |
| Workers.Worker.RunJob | src/Worker.php:100-102 | the job deletes or releases its message (logged as that settlement) and the run is recorded; only a release without delay puts a copy back on this queue, only a release with a delay hands one to the delay plugin, and nothing else in the broker changes; a clean run reports nothing and keeps shouldQuit, an escaping exception is reported and sets shouldQuit exactly when it means a lost connection |
| Workers.Worker.HandleMessage | src/Worker.php:65-112 | paused queue: reject without requeue, pause, go on; conversion failure: reject, report, set shouldQuit on a lost connection, sleep 3 s, go on; otherwise the job runs and settles its message, an exception escaping it is reported and sets shouldQuit on a lost connection, and consuming goes on exactly when NeedToStop is false; the message is settled exactly once, the queue and the delay plugin gain exactly the requeued or delayed copy, and the connection stays open |
| Workers.Worker.DeliverNext | src/Worker.php:63-115 | one delivery of the subscription loop: nothing at all changes when the queue is empty; otherwise the oldest message is received and handled, and the queue, the delay plugin, the log, the reports and shouldQuit become what `Deliver` says of the old ones; no other queue changes, the callback's answer is returned, and the connection stays open |
| Workers.ConsumeRun | src/Worker.php:115 | a subscription never handles more messages than the broker delivers |
| Workers.ConsumeQuits | src/Worker.php:63-115 | after a subscription shouldQuit is what the deliveries it handled, in order, make of the starting value |
| Workers.ConsumeReports | src/Worker.php:86-102 | after a subscription the reports are the old ones followed by those of the handled deliveries, in order |
| Workers.ConsumeStops | src/Worker.php:107-115 | every callback of a subscription but the last returned true, and a subscription that handled fewer messages than the broker delivered ended because the last callback returned false or the queue ran dry |
| Workers.ConsumeKeepsQuit | src/Worker.php:154-162 | a subscription never clears shouldQuit |
| Workers.Worker.ConsumeLoop | src/Worker.php:115 | started at a point of a subscription that leads to a given end state, the receive loop reaches exactly that state; other queues, unsettled messages and bindings are untouched |
| Workers.Worker.Consume | src/Worker.php:115 | the queue, the delay plugin, the log, the reports and shouldQuit end exactly as `ConsumeRun` describes, and the count of handled messages is its count; no other queue, unsettled message or binding changes; every callback before the last asked to go on, consuming ended early only on a false answer or an empty queue, and shouldQuit and the reports are exactly what the handled deliveries add |
| Workers.Worker.Subscribe | src/Worker.php:62-120 | one pass of the `do … while` loop: the subscription changes the state exactly as `ConsumeRun` says, and the result is the loop condition (resume, and no need to stop) evaluated on the new shouldQuit |
| Workers.DaemonRun | src/Worker.php:62-120 | the loop records one shouldQuit and one count per subscription, at most one per cycle; it ends early only after a subscription, its last record is the final shouldQuit, and without any subscription nothing changes |
| Workers.WithinAt | src/Worker.php:115 | no subscription handles more messages than its cycle delivers |
| Workers.QuitChainAt | src/Worker.php:63-120 | the i-th subscription starts from the shouldQuit the previous one left (or the initial one) and ends with what its handled deliveries make of it |
| Workers.QuitChainKeeps | src/Worker.php:154-162 | along the subscriptions shouldQuit is never cleared: a set initial value stays set, and once set after a subscription it stays set after every later one |
| Workers.ResubscribeChainAt | src/Worker.php:118-119 | every subscription but the last was followed by a re-subscribe because the queue should resume and the worker need not stop; the loop closed exactly when that condition failed after the last one, and otherwise it still held when the cycles ran out |
| Workers.DaemonQuits | src/Worker.php:62-120 | the loop's shouldQuit records form the chain `QuitChainAt` reads out, starting from the initial shouldQuit |
| Workers.DaemonReports | src/Worker.php:86-102 | after the loop the reports are the old ones followed by those of every subscription's handled deliveries, in order |
| Workers.DaemonResubscribes | src/Worker.php:118-119 | the loop's records satisfy the re-subscribe rule `ResubscribeChainAt` reads out |
| Workers.Worker.DaemonLoop | src/Worker.php:62-120 | started at a point of the loop that leads to a given end state, the loop reaches exactly that state, with one shouldQuit record and one count per subscription; other queues, unsettled messages and bindings are untouched |
| Workers.Worker.ConsumeCycles | src/Worker.php:62-120 | the state ends as `DaemonRun` describes, with its records and its `closed`; the records form the shouldQuit chain and the re-subscribe chain, and the reports gain those of every subscription in order; nothing else in the broker changes |
| Workers.Worker.Daemon | src/Worker.php:41-130 | the state and the records are those of `DaemonRun`, so shouldQuit after every subscription follows its handled deliveries and is never cleared (`QuitChainAt`, `QuitChainKeeps`), and the loop went on exactly while the queue should resume and the worker need not stop (`ResubscribeChainAt`); the reports are those of every subscription in order; without resume, or with stopWhenEmpty, it subscribes exactly once; when the loop ends it closes the connection once and stops; no other queue, unsettled message or binding changes |
| FailedJobs.ToRecord | src/Failed/RabbitQueueFailedJobProvider.php:140-150 | a record's id, payload, connection, queue, exception and failed-at come from the message's id, body and properties (null when absent) |
| FailedJobs.Records | src/Failed/RabbitQueueFailedJobProvider.php:136-154 | one record per message, in the same order |
| FailedJobs.SelectMembers | src/Failed/RabbitQueueFailedJobProvider.php:219-224 | a message survives the filter if and only if it was scanned and the callback did not return false for it |
| FailedJobs.DrainAcknowledgesEveryReceipt | src/Failed/RabbitQueueFailedJobProvider.php:204-212 | in the first phase every received message is acknowledged, whether its publish worked or not |
| FailedJobs.RestoreAcknowledgesEveryReceipt | src/Failed/RabbitQueueFailedJobProvider.php:219-233 | in the second phase every received message is acknowledged, whether it was dropped, sent back or lost |
| FailedJobs.ScanWithoutLossKeepsArchive | src/Failed/RabbitQueueFailedJobProvider.php:196-236 | a scan that keeps everything, with no failed publish, leaves the archive exactly as it was, and neither leg (to the temporary queue, back to the archive) reports a fault for any destination |
| FailedJobs.FailedPublishLosesOnlyThatMessage | src/Failed/RabbitQueueFailedJobProvider.php:204-212 | a message whose publish to the temporary queue fails reaches neither queue, and every other message is still scanned |
| FailedJobs.ForgetKeepsTheRest | src/Failed/RabbitQueueFailedJobProvider.php:161-176 | with no failed publish, forget(id) leaves exactly the messages with another id, in order; the kept and removed parts add up to the archive |
| FailedJobs.Limit | src/Failed/RabbitQueueFailedJobProvider.php:87 | text within the limit is kept; longer text becomes a prefix of at most limit characters followed by "...", and what was cut from the first limit characters is exactly their trailing whitespace |
| FailedJobs.FailedJobId | src/Failed/RabbitQueueFailedJobProvider.php:108-111 | every failed-job id starts with `failed-job-` |
| FailedJobs.FailedJobIdShape | src/Failed/RabbitQueueFailedJobProvider.php:108-111 | for a real sha1 digest the id is `failed-job-` and exactly eight letters or digits |
| FailedJobs.LoggedJobReadsBack | src/Failed/RabbitQueueFailedJobProvider.php:79-99 | the record `all()` makes of a logged message has the returned id and the logged connection, queue, payload and time, and an exception text of at most 10240 + 3 characters, equal to the original when that fits |
| FailedJobs.RabbitQueueFailedJobProvider.constructor | src/Failed/RabbitQueueFailedJobProvider.php:67-72 | keeps the broker, archive queue and exception handler |
| FailedJobs.RabbitQueueFailedJobProvider.Log | src/Failed/RabbitQueueFailedJobProvider.php:79-99 | publishes exactly one message to the archive and returns the id set on it |
| FailedJobs.DrainingStep | src/Failed/RabbitQueueFailedJobProvider.php:204-212 | one more message through the first phase keeps the description of where it stands: the rest of the archive, what reached the temporary queue, and the operations and faults so far |
| FailedJobs.RestoringStep | src/Failed/RabbitQueueFailedJobProvider.php:219-233 | one more message through the second phase keeps the description of where it stands: the rest of the temporary queue, what the filter kept and what made it back, and the operations and faults so far |
| FailedJobs.RabbitQueueFailedJobProvider.DrainNext | src/Failed/RabbitQueueFailedJobProvider.php:204-212 | one message of the first phase: nothing when the archive is empty; otherwise its head is taken, sent to the temporary queue when the publish works, reported when it fails, and acknowledged either way |
| FailedJobs.RabbitQueueFailedJobProvider.DrainToTemporary | src/Failed/RabbitQueueFailedJobProvider.php:203-212 | empties the archive; the temporary queue receives exactly the messages whose publish worked, in order; failed publishes are reported; every message is acknowledged |
| FailedJobs.RabbitQueueFailedJobProvider.RestoreNext | src/Failed/RabbitQueueFailedJobProvider.php:219-232 | one message of the second phase: nothing when the temporary queue is empty; otherwise its head is taken, sent back when kept and the publish works, reported when kept and it fails, and acknowledged either way |
| FailedJobs.RabbitQueueFailedJobProvider.RestoreFromTemporary | src/Failed/RabbitQueueFailedJobProvider.php:218-233 | empties the temporary queue; the archive receives, in order, the messages the filter keeps whose publish works; failures are reported; every message is acknowledged |
| FailedJobs.RabbitQueueFailedJobProvider.FilterMessagesInQueue | src/Failed/RabbitQueueFailedJobProvider.php:196-236 | the archive ends with the filter-kept, successfully returned messages in archive order; the temporary queue is created and deleted; log and reports are both phases in sequence; no message is left unacknowledged |
| FailedJobs.RabbitQueueFailedJobProvider.All | src/Failed/RabbitQueueFailedJobProvider.php:136-154 | one record per scanned message, in archive order; the archive keeps every scanned message whose publish back works, one temporary queue is used, the log is both phases and the deletion of that queue, the reports are both phases' failed publishes; unsettled messages, the delay plugin and the bindings are untouched |
| FailedJobs.RabbitQueueFailedJobProvider.Find | src/Failed/RabbitQueueFailedJobProvider.php:120-127 | the first record of `all()` with that id, or nothing exactly when no record has it; the broker and the reports change exactly as in `all()` |
| FailedJobs.RabbitQueueFailedJobProvider.Forget | src/Failed/RabbitQueueFailedJobProvider.php:161-176 | the archive keeps the scanned messages with another id; the result is true if and only if a scanned message had the id; one temporary queue is used, the log is both phases and its deletion, the reports are both phases' failed publishes; unsettled messages, the delay plugin and the bindings are untouched |
| FailedJobs.RabbitQueueFailedJobProvider.Flush | src/Failed/RabbitQueueFailedJobProvider.php:181-184 | the archive is empty and the purge is logged; no other queue, unsettled message, delayed message, binding or counter changes |
| PhpValues.StringToIntIsTruncation | src/HasPriorityTrait.php:17-19 | `(int)` of a string is its numeric prefix read as a number and truncated toward zero; a prefix without point or exponent gives the same integer read directly |
| PhpValues.CastOfDigits | src/Job.php:101 | a run of digits, with or without a minus sign, casts to its decimal value and is numeric |
| PhpValues.SpacesSkipped | src/Queue.php:103-107 | leading whitespace changes neither the `(int)` cast of a string nor whether it is numeric |
| PhpValues.FractionTruncated | src/Queue.php:103-107 | digits, a point and digits form a numeric string whose `(int)` cast is the whole part |
| PhpValues.ExponentScales | src/Connector.php:77 | digits, `e` and digits form a numeric string whose `(int)` cast is the whole part times ten to the exponent |
| Connectors.Connect | src/Connector.php:65-85 | fails with the connection error if and only if `connection` is missing or null (checked first), and with the queue-id error if and only if only `queue_id` is; succeeds exactly when both are set, with those ids; a delayed exchange exists if and only if its id is set; `timeout` is the `(int)` cast of its entry or 0 and `resume` the `(bool)` cast of its entry or false, each read on its own |
| Connectors.ConnectDefaults | src/Connector.php:77-78 | without `timeout` and `resume`, the timeout is 0 and resume is false |
| Connectors.ConnectCastsOptions | src/Connector.php:77-78 | a set `timeout` entry goes through the `(int)` cast and a set `resume` entry through the `(bool)` cast, each whether or not the other is set |
| Connectors.ConnectIgnoresOtherKeys | src/Connector.php:65-85 | entries other than the five the connector reads do not change the result |
| ExchangeBindListeners.Contribution | src/Listeners/AbstractExchangeBindListener.php:80-86 | a section contributes if and only if its driver is `rabbitmq` and both ids are strings, and then it contributes `delayed_exchange_id => queue_id` |
| ExchangeBindListeners.BindingsSnoc | src/Listeners/AbstractExchangeBindListener.php:78-88 | a later section's pair is written over the map built so far |
| ExchangeBindListeners.BindingsDomain | src/Listeners/AbstractExchangeBindListener.php:78-88 | an exchange id is mapped if and only if some section contributes it (so no sections give the empty map) |
| ExchangeBindListeners.BindingsLastWins | src/Listeners/AbstractExchangeBindListener.php:78-88 | a mapped exchange id maps to the queue id of the last section that contributes it |
| ExchangeBindListeners.GetBindingsMap | src/Listeners/AbstractExchangeBindListener.php:70-91 | the loop builds exactly the map the sections add up to; a missing configuration gives no sections |
| ExchangeBindListeners.ListenerBinding | src/Listeners/CreateExchangeBind.php:28-31 | a binding exists if and only if the exchange id is mapped; it binds the resolved queue to the event's exchange with the queue name as routing key |
| ExchangeBindListeners.CreateExchangeBind.constructor | src/Listeners/AbstractExchangeBindListener.php:50-61 | the map is computed once, from the configuration |
| ExchangeBindListeners.CreateExchangeBind.Handle | src/Listeners/CreateExchangeBind.php:22-42 | unmapped exchange: nothing happens; mapped: one bind, then one `queue.delayed-jobs.exchange.bind` event with the queue and exchange ids; a failure is reported, nothing after it happens, and no event is dispatched; queues, unsettled and delayed messages and the temporary-queue counter are untouched |
| ExchangeBindListeners.RemoveExchangeBind.constructor | src/Listeners/AbstractExchangeBindListener.php:50-61 | the map is computed once, from the configuration |
| ExchangeBindListeners.RemoveExchangeBind.Handle | src/Listeners/RemoveExchangeBind.php:18-38 | unmapped exchange: nothing happens; mapped: one unbind, then one `queue.delayed-jobs.exchange.unbind` event; a failure is reported, nothing after it happens, and no event is dispatched; queues, unsettled and delayed messages and the temporary-queue counter are untouched |

## Left out

- Real broker I/O is not modelled: connections, channels, `Queue::size` (a `declareQueue` count after `usleep`), blocking receives with a time-out, and closing a connection. The broker is the `Amqp.Broker` class, and `pop` is modelled as a non-blocking receive.
- Message order is the broker's delivery order. Concurrent scans of the archive by several processes are not modelled.
- A publish outside the failed-job scan (`push`, `later`, `release`, `log`) always succeeds in the model. An exception there would propagate to the caller.
- `reject($message)` uses the queue-interop default, requeue = false, so a rejected message is not returned to the queue.
- `pushRaw` selects the delay-plugin strategy whenever the `delay` option is set and numeric, whether or not a delayed exchange is configured. A zero delay makes the producer publish directly.
- `secondsUntil` for `DateTimeInterface` and `DateInterval` delays is left out; delays are integer or float seconds.
- Float delays use exact real arithmetic, not IEEE rounding, so 0.1 s is exactly 100 ms here.
- `createPayload` is left out: the payload is a string parameter.
- `sha1(serialize(...))` of the id arguments is left out. The digest is a parameter, and `microtime` and `Str::random` only feed it.
- The clock is a parameter (`now`).
- PHP `serialize` is modelled as a token sequence with the same nesting (array size, key/value entries, end marker). The byte format is not modelled.
- Resources serialize as integer 0, as in PHP.
- `JobStates.JobState.Unserialize`: data that does not begin with a serialized array stores no items; PHP would store `false` or the scalar. As in PHP, whatever follows a serialized array is ignored.
- `JobStates.JobState.Put`: objects other than closures are not modelled. PHP's `put` accepts any value except a resource or a closure, objects included.
- `JobStates.JobState.Serialize`: fails exactly when a closure is nested in the state. PHP also throws for other objects it cannot serialize, which the model does not have.
- `JobStates.JobState.Get`: a closure default is represented by what calling it returns (the `called` parameter), not by its code.
- `Amqp.Broker.Send` and `Amqp.Broker.ReceiveNoWait`: every queue the driver publishes to or reads from is assumed to be declared. Apart from `size`, which declares the job queue, the driver declares no queue before `pushRaw`, `release`, `log` or `pop`. In RabbitMQ, a message published through the default exchange to an undeclared queue is dropped, and a receive from one fails with NOT_FOUND. So `push`, `later`, `release` and `log` to an undeclared queue would not add a message, and `pop` would throw, where the model appends or returns nothing.
- PHP's coercion of numeric-string array keys to integers is not modelled.
- `Connectors.Connect`: the connection and queue factories are not modelled, so the settings keep the configured ids. The shown `Connector::connect` passes six arguments to a four-argument `Queue` constructor; `Queues.Queue` therefore carries `timeout` and `resume` as plain fields.
- `Workers.Worker.Daemon`: only the RabbitMQ branch is modelled; the parent daemon for other connections is not. The framework (`daemonShouldRun`, `memoryExceeded`, `queueShouldRestart`, `causedByLostConnection`, running the job, signals, timeouts, sleeping) is represented by its answers and effects as inputs and events. The broker's pushes are bounded by the given cycles.
- `Workers.Worker.HandleMessage`: the framework's `process` (job events, marking a job failed after too many attempts, releasing a job whose handler throws) is represented by its result: the settlement the job performs and the exception, if any, that escapes it. A settlement that itself throws part-way is not modelled.
- `FailedJobs.ToRecord`: `failed_at` is kept as the raw property value, not as a Carbon date.
- `FailedJobs.Limit` counts characters, not the display width of multibyte text.
- The publish oracle gives a fixed answer per leg and message, so a message that occurs twice fails or succeeds the same way both times.
- PHP integer overflow is not modelled (for example `delay * 1000`, or `(int)` of a string or float beyond the integer range).
- `is_numeric` follows PHP 7: leading whitespace only. PHP 8 also accepts trailing whitespace. Hexadecimal, `inf` and `nan` strings are not numeric in either version.
- `ExchangeBindListeners.CreateExchangeBind.Handle`: the queue factory's resolution of a queue id to its name is a function parameter. `$event->exchange` is the exchange's name. A non-array connections section does not occur.
- Interfaces, container wiring, commands and the job-state binding listener are not part of this model, and neither are the tests.
