# Auklet C client: a verified model

The client reads messages from an instrumented application, converts and stores them, merges them
with what earlier processes left on disk, limits the bytes sent per billing period, and publishes
them over MQTT. Every stage is a goroutine; the stages are joined by channels. This project models
the stages in Dafny, one by one and wired together, and proves what they keep over whole runs,
with crashes, restarts, failed writes and every interleaving.

How the files fit together:

| part | files | form |
|---|---|---|
| billing calendar | `Calendar.dfy` | Gregorian months, `AddDate(0, 1, 0)` with overflow, the `ensureFuture` loop |
| data limiter | `Limiter.dfy`, `DataLimiter.dfy`, `LimiterRuns.dfy`, `LimiterBudget.dfy` | a step function with the snapshot file and restarts; an imperative class proved against it; theorems over runs |
| message store | `Base64.dfy`, `Envelope.dfy`, `Names.dfy`, `Store.dfy`, `Persistor.dfy` | the file format down to the character, names, the storage limit; imperative directory and persistor proved against it |
| mergers | `Merge.dfy` | worker goroutines, wait group, channel of any capacity, close, as an interleaved step system |
| agent side | `Agent.dfy`, `Converter.dfy` | the two servers, the requester and the converter as methods with loops |
| whole client | `Pipeline.dfy` and `PipelineShutdown`, `PipelineContents`, `PipelineOutputs`, `PipelineDelivery`, `PipelineLoss`, `PipelineCopies`, `PipelineBudget` | all stages in one step system; shutdown, what each stage sends, at-least-once and when it fails, bounded duplication, bytes at the broker |
| configuration polling | `Polling.dfy` | the polling goroutine and its three channels of capacity one |

Clocks, the choices of `select`, the outcomes of file operations, of writes to the agent and of
publishing, the encodings of payloads and the arrival of configurations are parameters of the
methods and steps; the theorems hold for all of them. `Broker.Len` is `len(m.Bytes)`, and a message
with no file system attached has no path.

Where the code does less than its comments or its configuration say, the code is modelled as it is,
and the exact condition under which it does what they say is proved, in both directions:

- `ensureFuture` says that the period end will be in the future; it may equal now. It does so exactly
  when now lies on the monthly sequence from the period end (`Calendar.StrictlyFutureIff`).
- `DataLimiter` says that it limits the bytes per period. The count is also cleared by every
  configuration that arrives and by every timer that finds the period end not yet past, and a crash
  can forget one message; each of these lets one more budget through. From every limiter just reset,
  all runs that keep the period end keep to the budget exactly when none of the three happens
  (`LimiterBudget.PeriodPromiseIff`).
- `FilePersistor.Save` truncates the file before it writes. Every new process finds a budget exactly
  when, at each start, the last save that was not refused had been written in full
  (`LimiterBudget.KeepsBudgetIff`).
- The storage limit is checked against raw bytes while base64 in a JSON envelope is written. When an
  accepted message leaves the directory within the limit itself is `Store.WithinLimitIff`. A bound of
  6/5 of the limit, one envelope and four bytes holds over all runs exactly when no measurement is
  made while `Stat` of the directory fails, or the limit is too negative to accept anything
  (`Store.StorageBoundIff`).
- The requester speaks of two write errors in a row; it stops on the second error of all. It takes,
  sends and returns as its comment says exactly when no write succeeds between the first two failed
  ones (`Agent.CommentHoldsIff`).
- A stored message is meant to stay on disk until it is delivered. From any start, and whenever the
  loader lists the directory, no saved message is ever lost (not on disk, not acknowledged, no copy
  on its way) exactly when no file carries a name that the new process will generate (its id may be
  that of an earlier process), no file is read while it is half written, and the files that may be
  unreadable for a moment neither hold anything that the broker lacks nor are still to be written
  (`PipelineLoss.DeliveryIff`). In the other cases the loader publishes what it found instead, and
  the acknowledgement of that removes the file. A loader that lists the directory before its process
  stores a message never reads a file half written (`PipelineDelivery.ListsFirstReadsWhole`).
- The polling goroutine sends to the requester before it sends to the limiter. Configurations keep
  reaching the limiter exactly while the requester lives (`Polling.ReachesLimiterIff`).

## Model

| member | source | states |
|---|---|---|
| Calendar.YearStart | message/limiter.go:83 | the calendar that the month arithmetic rests on is the Gregorian one: counting days month by month agrees, for every year before or after year 0, with the closed leap-year formula |
| Calendar.BeforeIsEarlierDate | message/limiter.go:81 | comparing instants is comparing (month, day, time of day), and equal instants are equal dates |
| Calendar.AddMonthIsDate | message/limiter.go:83 | adding a month is normalising the same day of the next month, as `time.Date` does |
| Calendar.AddMonthAddsMonthLength | message/limiter.go:83 | adding one month moves the instant by exactly the length of the starting month, whatever the day, so 31 January lands in March |
| Calendar.EnsuredFuture | message/limiter.go:80-87 | terminates for every period end and now; the result is not before now, is the input when that was not before now, and otherwise lies less than 31 days after now |
| Calendar.EnsureFuture | message/limiter.go:80-87 | the loop returns that period end |
| Calendar.FirstIterate | message/limiter.go:80-87 | the result is the first of the monthly iterates that is not before now |
| Calendar.EnsureFutureClosedForm | message/limiter.go:80-87 | for days 1 to 28 the whole loop is one jump of a number of months known in advance, keeping day and time of day |
| Calendar.IterateKeepsDayIff | message/limiter.go:80-87 | for any day, repeated months keep the day of the month exactly when every month passed has that day; once lost, the day is at most the third |
| Calendar.StrictlyFutureIff | message/limiter.go:77-87 | the commented promise of a future period end, for every period end and now: it fails exactly when the monthly sequence passes through now, which is said without iterating, by the first month that lacks the day |
| Calendar.NotStrictlyFuture | message/limiter.go:77-87 | an input for which the promise fails |
| Calendar.ApplyOnBillingDay | message/limiter.go:208-211 | for a billing day in 1 to 28 at most one month is added, and the new period end is midnight on that day, not before now and less than 31 days away |
| Calendar.ApplyLandsOnDayIff | message/limiter.go:91-93 | for every billing day, valid or not, exactly when the new period end falls on it |
| DataLimiters.FilePersistor.Save | message/persistor.go:15-22 | the three ways a save ends: the snapshot replaced, refused with the old one kept, or torn |
| DataLimiters.DataLimiter.constructor | message/limiter.go:40-55 | a new process starts with the account on file, and with no budget when the load fails |
| DataLimiters.DataLimiter.InitialState | message/limiter.go:140-146 | arms the timer for the period end and waits over budget exactly above nine tenths of it |
| DataLimiters.DataLimiter.Increment | message/limiter.go:108-111 | only the count moves, by n, and that account is what the save writes |
| DataLimiters.DataLimiter.HandleMessage | message/limiter.go:163-187 | account, state, file and output after a message are those of the limiter's step function, in all branches and for every outcome of the save |
| DataLimiters.DataLimiter.StartThisPeriod | message/limiter.go:97-106 | the new period end is the first month from the old one that is not before now, the count is cleared, both are saved, and nothing is sent |
| DataLimiters.DataLimiter.Apply | message/limiter.go:208-218 | the new period end is the first month from midnight on the configured day of this month that is not before now; budget installed, count cleared even when nothing changed, saved, back to the initial state |
| DataLimiters.DataLimiter.Turn | message/limiter.go:129-225 | one state function with one choice of `select` is one step of the state machine; the output is closed exactly on reaching the terminal state |
| DataLimiters.DataLimiter.Serve | message/limiter.go:114-117 | the loop over state functions is a run of the state machine, so the theorems over runs are about this loop |
| LimiterRuns.TickMeans | message/limiter.go:97-101 | the timer: the period end becomes the first monthly iterate not before now, stays when it is not before now already, and keeps day and time of day for days 1 to 28; the count is 0, the budget is kept, nothing is sent, and a written save holds that account |
| LimiterRuns.ConfigureMeans | message/limiter.go:208-218 | a configuration: its budget in bytes and its limit flag, the count 0, and as period end the first of the months from midnight on its day, normalised, that is not before now; for days 1 to 28 on that day within 31 days |
| LimiterRuns.RestartMeans | message/limiter.go:45-52 | a new process has the account on file, or no budget and a period that ended at midnight on the first day of year 1 |
| LimiterRuns.PeriodEndAhead | message/limiter.go:77-101 | after any run, the period end in force is not before the time of the last timer or configuration of that process |
| LimiterRuns.AlwaysConsistent | message/limiter.go:140-225 | in every reachable state, over crashes, failed saves, timers and configurations: over budget only with a budget, and under budget only at or below nine tenths of it |
| LimiterRuns.CountTracksBytes | message/limiter.go:103-111 | between resets the count moves by exactly the bytes sent on, whatever saves fail, and budget and period end stay |
| LimiterRuns.EpochSendsPrefix | message/limiter.go:148-205 | within one epoch the messages sent are a prefix of those received, in order; a message is in it exactly when no prefix sum up to it crosses threshold or budget and no earlier save failed |
| LimiterRuns.UnlimitedSendsAll | message/limiter.go:163-187 | without a budget every message is sent, whatever saves fail |
| LimiterRuns.Utilisation | message/limiter.go:163-187 | with messages of at most a tenth of the budget and good saves, an epoch is over budget exactly when it has sent more than nine tenths, and it never sends more than the budget |
| LimiterRuns.EpochAccounting | message/limiter.go:103-187 | from a saved reset, over any crashes and refused saves: bytes sent are the count plus the bytes of the messages lost from it, at most one message is lost per restart, and k restarts allow at most k+1 budgets |
| LimiterBudget.RunBound | message/limiter.go:13-14 | over any run in which each process start finds its last save that was not refused written, the bytes sent are at most one budget more than there are timers, configurations and restarts together |
| LimiterBudget.KeepsBudgetIff | message/limiter.go:51-52 | over any run with limited configurations, every process that starts has a budget exactly when at each start the last save that was not refused was written; a torn file repaired in time does no harm |
| LimiterBudget.GreedyRun | message/limiter.go:208-218 | the bound is reached from every limiter just reset: for any numbers of configurations, restarts and timers, some run that leaves the period end where it is sends that many budgets and one more; configurations need a period end at midnight, where they put it |
| LimiterBudget.PeriodEndKept | message/limiter.go:208-211 | over such runs, restarts and refused saves included, the period end stays the same, and no configuration can be among them unless it is at midnight |
| LimiterBudget.PeriodPromiseIff | message/limiter.go:13-14 | from every limiter just reset, one budget is kept by all runs that leave the period end where it is exactly when no configuration arrives, no process starts and no timer fires in them; where the period end is not at midnight no configuration leaves it there |
| LimiterBudget.CutSaveLosesBudget | message/persistor.go:15-22 | the shortest run of the failing half of KeepsBudgetIff: after one cut save and a restart anything is sent |
| Base64.RoundTrip | broker/message.go:31-35 | decoding undoes the base64 encoding of the bytes member, for all bytes |
| Base64.EncodedLength | broker/message.go:31-35 | base64 takes four characters for every three bytes begun |
| Base64.Alphabet | broker/message.go:31-35 | the digits are those of section 4 of RFC 4648, one by one |
| Base64.TestVectors | broker/message.go:31-35 | four test vectors of section 10 of RFC 4648 |
| Envelope.MarshalText | broker/message.go:31-38 | the file holds the members error, topic and bytes, in this order, texts escaped and bytes in base64 or null |
| Envelope.EscapeExamples | broker/message.go:219 | quotes, backslashes, line breaks, control characters and HTML characters are escaped as encoding/json escapes them |
| Envelope.ReadQuoted | broker/message.go:219 | reading back a JSON string as encoding/json escapes it gives the same text, for every text |
| Envelope.MarshalRoundTrip | broker/message.go:130-142 | a saved message is loaded back exactly: error, topic and bytes, a nil slice included |
| Envelope.StoredSizeFormula | broker/message.go:214-225 | the size of a file is the envelope's plus four bytes for every three begun |
| Names.NameInjective | broker/message.go:169-171 | two generated names are equal only for the same process id and the same count |
| Names.NameReads | broker/message.go:169 | a name is the directory, a slash, digits that read as the process id, a dash, and digits that read as the count |
| Store.CreateThenLoad | broker/message.go:157-173 | a created message is found under the next name, loads back exactly, and leaves every other file alone |
| Store.CreateMeans | broker/message.go:157-173 | a creation is refused for want of a measurement, refused as full exactly when ten times the bytes with the measured size exceed nine times the limit (a negative limit has its own truncated threshold), failed exactly when it fits and the write is not complete, and created otherwise; what changes in each case, and nothing else |
| Store.DirSizeWithout | broker/message.go:175-190 | the measured size does not depend on the order in which files are summed |
| Store.CreationBound | broker/message.go:157-173 | one creation, complete or cut off anywhere, leaves the size unchanged or at most 6/5 of the limit plus one envelope and four bytes |
| Store.StorageBound | broker/message.go:157-190 | under any interleaving of creations, whose measurements are at least what is left in the directory, and removals, the directory never exceeds the larger of its starting size and that bound |
| Store.WithinLimitIff | broker/message.go:163 | exactly when an accepted message, with bytes or without, leaves the directory within the configured limit itself |
| Store.LimitExceeded | broker/message.go:163 | an accepted message that takes the directory over its limit |
| Store.BlindGrows | broker/message.go:195-198 | the failing half of StorageBoundIff: while the directory cannot be found, files are added without any bound |
| Store.StorageBoundIff | broker/message.go:157-198 | from any start with unused names and for every limit, all runs keep the bound exactly when measurements made while the directory cannot be found are ruled out, or the limit is too negative for any message |
| Persistors.MessageDir.Size | broker/message.go:175-212 | while other goroutines remove files, the result is the size at the time of listing, hence not less than what is left, or an error exactly when something could not be looked at; a directory not found counts as empty |
| Persistors.MeasureMeans | broker/message.go:175-212 | measuring fails exactly when the directory is found and cannot be read or a listed file cannot be looked at, and else gives the size at the time of listing, or nothing for a directory not found |
| Persistors.SeenMeans | broker/message.go:181-187 | a listed file is seen, with its content, exactly when it may be looked at and nobody removed it before its turn |
| Persistors.MessageDir.Load | broker/message.go:111-142 | one message per listed file, in listing order, with the file's content or an error where it vanished or is malformed, each owning its path |
| Persistors.MessageDir.Remove | broker/message.go:229-236 | at most the message's own file disappears, and it stays when the file system refuses; a message without a file system removes nothing |
| Persistors.MessageDir.Serve | broker/mqtt.go:98-114 | the acknowledged messages are published in order and each once; a file disappears exactly when a message of its path was acknowledged and the removal succeeded, so the file of a refused message stays; a file that is gone had a message of its path published |
| Persistors.Persistor.CreateMessage | broker/message.go:157-173 | with removals going on: the answer is an error exactly when measuring failed, full exactly when bytes and the directory's size at listing do not fit the limit, created exactly when they fit and the write is complete; and files and counter are those of one creation of the store |
| Persistors.Persistor.CreateMeasured | broker/message.go:163-172 | the same after the measurement: created exactly when it was measured, bytes and size fit and the write is complete, with files and counter for every outcome |
| Merge.NextInv | message/merge.go:33-47 | every step keeps: the channel history is an interleaving of what the workers received less what they hold, the wait group counts live workers, and the close comes after all of them |
| Merge.MergeCorrect | message/merge.go:33-47 | for any number of sources and any capacity: output and buffer interleave prefixes of the sources in their order, nothing lost or duplicated, the buffer within capacity, and closed only when every source is closed and forwarded |
| Merge.NoSendAfterClose | agent/merge.go:36-50 | after the close only the consumer can move |
| Merge.StepWorks | message/merge.go:33-47 | every step strictly decreases remaining messages, messages on their way and live workers |
| Merge.NotStuck | agent/merge.go:36-50 | with sources that close, a state that is not final has a possible step, with a buffer or without one |
| Merge.MergeCompletes | message/merge.go:33-47 | runs are bounded in length, and a run that cannot continue has closed the output after delivering an interleaving of all sources in full |
| Agent.Server.Serve | agent/server.go:53-89 | the output is the messages before the first undecodable item, then one cleanExit exactly when no item anywhere in the stream is an event; the output closes before Done |
| Agent.DataPointServer.Serve | agent/datapoint.go:36-65 | the output is the data points before the first undecodable item, and nothing else |
| Agent.RunRequester | agent/requester.go:37-71 | returns exactly at the first done or at the second failed write of all, whichever is first, reports an error only in the second case, and ends as the code's stopping rule says |
| Agent.TwoInARowStops | agent/requester.go:48-62 | two failed writes in a row always stop it |
| Agent.StopsWithoutTwoInARow | agent/requester.go:48-62 | it also stops without two in a row |
| Agent.CommentHoldsIff | agent/requester.go:48-62 | inputs taken, message sent and return agree with the commented rule of two errors in a row exactly when no write succeeds between the first two failed writes before a done |
| Converters.Converter.Serve | schema/convert.go:91-116 | the loop, with the directory measured anew for each message and the limit in force then, has the output, files and counter of the specification of its turns |
| Converters.Converter.ServeUnstored | schema/convert.go:91-116 | without a Persistor: one message without a file for each input that is not "log" or "applog", in order, with the topic, bytes and error that its type calls for |
| Converters.ConverterRefines | schema/convert.go:91-143 | exactly one output for each input that is not "log" or "applog", in order; exactly when the directory was measured, the payload fits the limit and the write was complete, it has the topic of its type, the encoder's bytes and error (for other types no bytes and an error that names the type) and owns a file that loads back to it until removed; otherwise it is the error on "logs" that owns no file, with the reason |
| Converters.ConvertTells | schema/convert.go:118-143 | "profile" goes to profiler, "event" and "cleanExit" to events, "datapoint" to datapoints, with the encoder's bytes and error; any other kept type goes to logs with an error that names it |
| Converters.TurnLeaves | schema/convert.go:94-114 | a turn leaves every file alone but the one of the next name and those that others remove |
| Converters.CleanExitIsEvent | agent/server.go:86-88 | what is made of a stream without an event ends in a message on "events", unless that message cannot be stored |
| Converters.PathsDistinct | broker/message.go:169-172 | no two messages of one Persistor ever own the same path, even after failed saves |
| PipelineShutdown.StepOrderly | cmd/client/main.go:319-347 | every step of the wired client, restarts included, keeps the closing order: wait groups count live workers, and a stage closes only after its input is closed and drained |
| PipelineShutdown.StepWorks | cmd/client/main.go:319-347 | every step of the pipeline strictly decreases the work left; timers, ticks and configurations never increase it |
| PipelineShutdown.NotStuck | cmd/client/main.go:319-347 | no deadlock: an orderly state that is not finished has an enabled step of the pipeline itself |
| PipelineShutdown.Shutdown | cmd/client/main.go:319-347 | with finite agent streams the pipeline takes a bounded number of steps however the environment interleaves, and where it cannot go on it is finished with every channel closed |
| PipelineShutdown.NoPanic | message/merge.go:45-46 | no step closes a closed channel or sends on one, for all nine channels |
| PipelineShutdown.ClosedExactlyOnce | cmd/client/main.go:319-347 | in a finished run every channel was closed exactly once |
| PipelineContents.StepMerging | message/merge.go:33-47 | every step of the client moves the two mergers by at most one step of their own, so both keep the invariant of Merge |
| PipelineContents.StepServing | agent/server.go:75-89 | what the two servers have sent and what their streams still call for stays the same in every step |
| PipelineOutputs.ConvertSends | schema/convert.go:94-114 | a conversion in the client sends what must be made of the message, stored exactly when measured, fitting and written, logs what is stored, and drops "log" and "applog" |
| PipelineOutputs.StagesSend | cmd/client/main.go:319-347 | over every run of a process: the agent merger receives a beginning of the items before the first undecodable one and then one cleanExit exactly without an event, all of it once that worker has finished, and the data points likewise; both mergers interleave what they received; the message merger receives, in order, what the converter makes of the kept messages delivered, one message per listed path, and what the requester reports on the same inputs as its method; the limit in force is the last that arrived |
| PipelineOutputs.PublishesInOrder | broker/mqtt.go:104-113 | over every run of a process the producer tries each message handed over once and in order, and what is published besides is what was acknowledged of these |
| PipelineOutputs.PublishMeans | broker/mqtt.go:104-113 | a refused message changes nothing; an acknowledged one is published and its own file goes exactly when the removal succeeds |
| PipelineOutputs.FinishedPassesAll | cmd/client/main.go:319-347 | a finished run has passed everything on: all that the servers send reached the converter, all that was made of it, listed and reported reached the limiter, each source in its order, and without a budget all of it was handed to the producer |
| PipelineDelivery.StepDelivers | broker/mqtt.go:104-113 | each step of the client that reads no file half written, restarts and late listings included, keeps the delivery invariant on disk, broker, messages in flight and files still to be loaded |
| PipelineDelivery.AtLeastOnce | broker/message.go:111-173 | from the start of a process, over any run of crashing and restarting processes with whole reads and fresh process ids, whenever the loader lists, every message whose save succeeded is on disk with its content or was itself acknowledged, also when the limiter drops it, the broker refuses it, a removal fails or another save is cut off |
| PipelineDelivery.ListsFirstReadsWhole | broker/message.go:111-127 | in every run in which each loader lists the directory before its process stores a message, no file is read half written, whatever the scheduling allows |
| PipelineLoss.DeliveryIff | cmd/client/main.go:321-347 | from every start without a loss so far: no process within the policy ever loses a saved message, whatever its agent sends and whenever its loader lists, exactly when no file carries one of its coming names, no file is read half written, and the files that may be unreadable hold nothing that the broker lacks and carry no coming name |
| PipelineLoss.NameTakenLoses | broker/message.go:169-171 | whatever the directory, the account and the log: with a file under any coming name, however high its count, some run leaves nothing of a saved message, on disk, at the broker or on its way |
| PipelineLoss.HalfReadLoses | broker/message.go:111-142 | whatever the start: when the file of a message is read half written, some run leaves nothing of that message |
| PipelineLoss.UnreadableLoses | broker/message.go:130-142 | whatever the start, nothing may be left of a saved message that the broker lacks when its file is unreadable once |
| PipelineLoss.ComingNameLoses | broker/message.go:130-142 | whatever the start, nothing may be left of a message that this process stores when its own file is unreadable once |
| PipelineCopies.StepBounded | broker/message.go:111-127 | each step keeps the number of copies of a path, in flight and published, within one from the converter and one from the loader |
| PipelineCopies.BoundedDuplication | broker/mqtt.go:104-113 | in one process a path it created reaches the broker at most twice, and one left over at most once |
| PipelineBudget.StepSimulates | message/limiter.go:148-218 | each step of the client is a run of the limiter's state machine, with the hand-over to the producer split from the charge |
| PipelineBudget.RunSimulates | message/limiter.go:114-117 | whole runs of the client refine runs of that state machine |
| PipelineBudget.BrokerBytes | cmd/client/main.go:321-347 | from the start of a process with a limited snapshot, over any run of the whole client in which each start finds its last save that was not refused written, the broker acknowledges at most one budget more than there are timers, configurations and restarts |
| Polling.LimiterStarves | cmd/client/main.go:361-389 | once the requester has ended, at most two more configurations reach the limiter, and at most one unless the goroutine is about to send |
| Polling.ReachesLimiterIff | agent/requester.go:56-60 | from every state within the capacities, every number of configurations can reach the limiter exactly while the requester lives |

## Left out

- HTTP calls, credentials, TLS and the MQTT connection: publishing is a step that succeeds or fails.
- Starting the application, its checksum, exit status and signal: the calls are taken to return.
- The `serial` and `dumper` modes, device metrics, flags, environment and logging: input and output only.
- JSON tokenising of the agent streams and msgpack encoding: a stream is a sequence of decode outcomes, a payload is any bytes and any error text.
- Time zones, daylight saving and the monotonic clock: a time is a month, day and nanosecond of the day at a fixed offset.
- Real rates of timers and tickers: they fire at any time, so the requester's change of period and a non-positive period that stops the ticker have no effect on what is proved.
- Machine integers: numbers are mathematical, so the model holds for budgets, counts and limits where 9 times the budget or limit, 1000000 times the megabytes, and the sums fit 64 bits.
- Texts that are not valid UTF-8: encoding/json replaces the invalid bytes, so such an error text is not read back as it was.
- Reading of message files in other layouts: the model accepts the layout that the client writes; other member orders, spaces, unknown members, line breaks inside base64 and fields kept from a file with a bad member are not modelled.
- Error texts: constants stand for the texts of failed file operations and of a full store, and the quoting of an unknown message type shows no escapes.
- MemPersistor: its saves append to a buffer; only the file form is used by the client.
- Stored snapshots of the limiter as JSON: a snapshot is its account; a torn one does not load.
- Aliasing of channels: the mergers and the wired client are step systems with explicit channel contents, not classes; the stages with a single goroutine are also given as classes.
- Pipeline steps: receiving, converting and storing one message is one step of the converter, and `initial` runs in the step that leads to it; the finer steps of the limiter are those of `Limiter.Step`.
- LimiterRuns.EpochAccounting: excludes saves that are cut off after truncation, because such a save loses the snapshot.
- Files being written: a creation is one step, taken when its file is opened, so the message counts as saved from then on; only the loader is shown the file half written, and a crash during the write is a write that failed and then a restart.
- PipelineDelivery.AtLeastOnce: has the premises of PipelineLoss.DeliveryIff (whole reads and fresh names), because without any one of them the code loses messages; it does not restrict when the loader lists the directory.
- Store.StorageBound: is for one creating process with a fixed limit, and for measurements of a directory that was found; StorageBoundIff shows that the last is needed.
