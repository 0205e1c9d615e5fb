# IntegrationBundle synchronisation core, modelled in Dafny

This project models the orchestration at the heart of the Oro integration
bundle. There, an integration "channel" owns a transport and a list of
connector names, and those connectors are synchronised with a remote system.
The model covers:

- the **reverse-sync queue handler**. It fills in a message's defaults,
  rejects a message without an integration id, and runs the reverse sync of
  one integration inside a unique job. It then tells the queue ACK or REJECT;
- the **one-way sync processor**. For every connector of a channel, in order,
  it resolves the connector type (logging and skipping one the registry
  cannot resolve) and picks import or validation mode. It then builds the job
  configuration, runs the job, folds the job result into a report
  (`processImport`) and logs it. Only in import mode does it stamp the
  transport's last sync date;
- the **paged REST iterator**. This is a cursor that loads pages lazily from
  a client;
- the **connector base class**. It has a lazily connected transport, an
  append-only list of sync processors, and a fan-out of each batch to them;
- the **channel entity** with its two-way link to its transport, and the
  **channel repository**: two query filters, a per-id memo of loaded
  channels, and a guarded status append;
- the **two console commands**:
  - reverse sync: ordered option checks, the "already running" early exit
    keyed by a serialised argument string, and the processor run with its
    exception downgraded to a critical log entry;
  - one-way sync: `--run` switches to import, and a log closure prints a
    summary per result.

Collaborators whose code is not part of this model are oracles: function-typed
parameters or `const` fields fixed at construction. These are the types
registry, processor registry, job executor, job runner, reverse-sync
processor, entity manager look-ups, page loader, transport `init`/`call`, and
the sync processors' per-batch results. What is asked of them is recorded as
a plain (non-ghost) sequence of events, in order, and the contracts are
stated over those sequences.

Objects the source updates in place are classes with `modifies` clauses:
`Channel`, `Transport`, `ChannelRepository`, `SyncProcessor`, `RestIterator`,
`Connector` and the console `Output`. Each state-changing method is tied to a
pure function of the old state (`Plan`, `AfterNext`, `AfterLoadNextPage`,
`BatchCalls`, `SummaryLines`, …), and the lemmas prove the promised
properties about those functions.

The modules are as follows. Each one maps to one source file, except the
helper modules `Wrappers` and `Php`:

- `Wrappers`: Option and Result;
- `Php`: a PHP value model with truthiness, `empty`, string conversion,
  and decimal printing together with its parse inverse;
- `Async`: Async/ReversSyncIntegrationProcessor.php;
- `SyncProcessing`: Provider/SyncProcessor.php;
- `RestClient`: Provider/Rest/Client/AbstractRestIterator.php;
- `Connectors`: Provider/AbstractConnector.php;
- `Entity`: Entity/Channel.php, plus the transport entity;
- `Repository`: Entity/Repository/ChannelRepository.php;
- `ReverseSyncCommand`: Command/ReverseSyncCommand.php;
- `SyncCommand`: Command/SyncCommand.php.

Two behaviours of the code that the model keeps as written:

- **Missing or disabled integration.** The handler's closure returns false,
  so the handler answers REJECT, not ACK. Its unit tests expect REJECT as
  well (Tests/Unit/Async/ReversSyncIntegrationProcessorTest.php:122 and
  :152).
- **`enabled` flag.** Channel.php declares neither an `enabled` flag nor a
  status history, yet the repository and the handler rely on both. The
  model gives `Channel` the extra fields `enabled` and `statuses`.

## Model

| member | source | states |
|---|---|---|
| Async.SubscribedTopics | Async/ReversSyncIntegrationProcessor.php:68-71 | the processor subscribes to exactly one topic, the reverse-sync topic |
| Async.WithDefaults | Async/ReversSyncIntegrationProcessor.php:80-85 | a body that is an array keeps every key it has and gains exactly integrationId, connector and connector_parameters; a missing one defaults to null, null and the empty array; a body that is not an array yields null |
| Async.JobName | Async/ReversSyncIntegrationProcessor.php:91 | the job name is the prefix `oro_integration:revers_sync_integration:` followed by the integration id converted to a string |
| Async.Closure | Async/ReversSyncIntegrationProcessor.php:95-126 | the integration is looked up first with the body's id; the closure returns false iff the integration is missing or disabled, having called only `find`; otherwise the connector type is resolved with (integration type, message connector), second; an exception of the registry escapes with its message and a one-way connector raises "Unable to perform revers sync …", both with no further call; the reverse processor is called iff the integration is found, enabled and has a two-way connector, and then exactly once, last, with (integration, connector, connector_parameters); what it raises escapes; the closure returns true iff that call was made and raised nothing |
| Async.Process | Async/ReversSyncIntegrationProcessor.php:76-129 | a body that is not JSON, or whose integrationId is falsy, raises before any collaborator is called; otherwise exactly one unique run is requested, first, owned by the message id and named JobName(integrationId); an already running job means REJECT with no further call; otherwise the closure's calls follow the runUnique call and an exception of the closure escapes unchanged; ACK iff the closure returned true, REJECT iff it returned false or the job was running |
| Async.ReverseSyncRunsOnce | Async/ReversSyncIntegrationProcessor.php:76-129 | the handler calls the reverse-sync processor once when the message is valid, its job is not running and the integration is found, enabled and two-way, and never otherwise |
| Async.ClosureReverseSyncCount | Async/ReversSyncIntegrationProcessor.php:95-126 | the closure calls the reverse-sync processor once when the integration is found, enabled and two-way, and never otherwise |
| Async.OneWayConnectorRaises | Async/ReversSyncIntegrationProcessor.php:110-117 | for an enabled integration with a one-way connector, the handler raises "Unable to perform revers sync for integration "<id>" and connector type "<connector>"" and never calls the reverse-sync processor |
| Async.RedeliveryKeepsJobName | Async/ReversSyncIntegrationProcessor.php:78-95 | two deliveries of the same body request the same job name, each owned by its own message id |
| Async.ClosureCallsHaveNoRunUnique | Async/ReversSyncIntegrationProcessor.php:95-126 | the closure itself never requests a unique run, so the handler requests exactly one |
| SyncProcessing.FirstErrors | Provider/SyncProcessor.php:162-169 | `array_slice(list, 0, 100)`: a prefix of the list, of length min(len, 100) |
| SyncProcessing.ProcessImport | Provider/SyncProcessor.php:134-179 | `counts.errors` is the number of failure exceptions plus the number of context errors; the detail counters exist iff there is a context; `process` = add + replace + update + delete − error_entries; success iff the job succeeded and process is defined and positive; the message key is import_success iff the job succeeded; `exceptions` is passed through untruncated; `errors` is empty when the error count is 0 and otherwise is the first ≤100 items of the failure exceptions followed by the context errors |
| SyncProcessing.ModeFor | Provider/SyncProcessor.php:70-76 | import mode iff `force`, validation mode otherwise |
| SyncProcessing.JobNameFor | Provider/SyncProcessor.php:70-76 | with `force`, the connector's import job name; otherwise its validation job name (`getImportJobName(true)`) |
| SyncProcessing.ConfigurationFor | Provider/SyncProcessor.php:78-100 | the configuration is keyed by the mode; the processor alias is the first alias registered under TYPE_IMPORT for the connector's entity, or none; then entity, channel name, batch size 15, max empty ranges 2, connector |
| SyncProcessing.Lookup | Provider/SyncProcessor.php:192-194 | the channel found has the requested name and comes from the table; null means no channel has that name |
| SyncProcessing.PlanRequestsEveryConnector | Provider/SyncProcessor.php:62-69 | every configured connector is asked of the registry exactly once, in configured order, even when earlier ones fail to resolve |
| SyncProcessing.PlanRunsResolvedConnectors | Provider/SyncProcessor.php:62-101 | jobs are executed for exactly the connectors that resolve, in configured order |
| SyncProcessing.PlanConformsToMode | Provider/SyncProcessor.php:70-105 | in every run, aliases are looked up under import mode; every executed job uses ModeFor(force) with batch size 15 and max empty ranges 2; a persist or flush occurs only when `force` holds |
| SyncProcessing.FirstResolved | Provider/SyncProcessor.php:62-69 | the index of the first connector the registry resolves: every connector before it fails to resolve, and it resolves unless it is the list's length |
| SyncProcessing.Reached | Provider/SyncProcessor.php:62-105 | the connectors a run gets through form a prefix of the configured list |
| SyncProcessing.ReachedFirstResolved | Provider/SyncProcessor.php:62-105 | a transport-less run whose first resolved connector is at index i has reached exactly the connectors up to i, and some connector resolves |
| SyncProcessing.TransportlessRunsOneJob | Provider/SyncProcessor.php:62-114 | without a transport, every connector up to and including the first resolved one is asked of the registry, and only that one's job is run |
| SyncProcessing.Resolved | Provider/SyncProcessor.php:62-69 | the connectors that resolve, in configured order: each one is configured on the channel and the registry resolves it |
| SyncProcessing.StepRequestsAndRuns | Provider/SyncProcessor.php:63-101 | one connector's step asks the registry about that connector exactly once, and runs a job for it iff it resolves |
| SyncProcessing.StepConformsToMode | Provider/SyncProcessor.php:70-105 | every event of one connector's step conforms to the mode that `force` selects |
| SyncProcessing.SyncProcessor.constructor | Provider/SyncProcessor.php:41-51 | the collaborators are stored, no log closure is set and nothing has been asked yet |
| SyncProcessing.SyncProcessor.SetLogClosure | Provider/SyncProcessor.php:208-213 | the closure is installed and the processor itself is returned |
| SyncProcessing.SyncProcessor.Log | Provider/SyncProcessor.php:218-226 | the closure is called once with the argument list when one is set; otherwise nothing happens |
| SyncProcessing.SyncProcessor.SaveLastSyncDate | Provider/SyncProcessor.php:114-125 | returns true iff the mode is import; then lastSyncDate becomes the current time and the transport is persisted and flushed; otherwise nothing changes |
| SyncProcessing.SyncProcessor.GetChannelByName | Provider/SyncProcessor.php:189-201 | returns the channel with that name, or fails with "Channel '<name>' not found" exactly when no channel has it |
| SyncProcessing.SyncProcessor.ProcessConnector | Provider/SyncProcessor.php:63-114 | one connector's events are appended as ConnectorStep specifies; it fails, with PHP's TypeError message for saveLastSyncDate, iff the channel has no transport and the connector resolves; with a transport, lastSyncDate is stamped iff `force` holds and the connector resolves, and the transport keeps its channel |
| SyncProcessing.SyncProcessor.ProcessConnectors | Provider/SyncProcessor.php:62-114 | the events appended are the Plan over the connectors reached: all of them, or without a transport those up to the first that resolves; it fails, with the TypeError message, iff there is no transport and some connector resolves; with a transport, lastSyncDate is stamped iff `force` holds and some connector resolves, and the transport keeps its channel |
| SyncProcessing.SyncProcessor.ProcessNext | Provider/SyncProcessor.php:62-114 | one turn of the loop extends the Plan from the first i connectors to the first i + 1; when it fails, the run has reached exactly Reached and some connector resolves |
| SyncProcessing.SyncProcessor.Process | Provider/SyncProcessor.php:56-114 | an unknown channel name fails with its message and records nothing; otherwise the run's events are the Plan of the connectors reached on the found channel; it fails with the TypeError message iff the channel has no transport and some connector resolves; a present transport is stamped only in import mode and keeps its channel |
| SyncCommand.DryRunWritesNothing | Provider/SyncProcessor.php:104-125 | a run without `--run` never persists or flushes, whichever connectors resolve; the transport's lastSyncDate itself is kept by RunWithClosure and Execute |
| RestClient.AfterLoadNextPage | Provider/Rest/Client/AbstractRestIterator.php:137-151 | firstLoaded is set and the old rows are dropped; the result is true iff the new rows are non-empty and the total count is truthy; a page with data sets rows, total count and offset 0; falsy page data leaves the offset null and keeps the total count |
| RestClient.AfterNext | Provider/Rest/Client/AbstractRestIterator.php:73-83 | the position grows by one; when rows[offset+1] is set it is served with no load; otherwise a page is loaded and current becomes its first row, or null when loading failed |
| RestClient.RewindStartsOver | Provider/Rest/Client/AbstractRestIterator.php:108-118 | after a rewind the key is 0 and the first page has been loaded; the result depends on nothing of the earlier cursor but the client's progress |
| RestClient.RewindValidIff | Provider/Rest/Client/AbstractRestIterator.php:96-118 | after a rewind, current is non-null iff the page loaded has rows, a truthy total count and a set first row; current is then that row |
| RestClient.NextNAdvancesKey | Provider/Rest/Client/AbstractRestIterator.php:73-83 | k calls of next advance the key by exactly k, whether or not an item was found |
| RestClient.NextNServesPage | Provider/Rest/Client/AbstractRestIterator.php:75-81 | inside a page whose remaining rows are set, k calls of next serve those rows in order and load no page |
| RestClient.RestIterator.constructor | Provider/Rest/Client/AbstractRestIterator.php:17-52 | the field defaults: nothing loaded, no rows, offset −1, position −1, current and total count null |
| RestClient.RestIterator.Current | Provider/Rest/Client/AbstractRestIterator.php:65-68 | returns current and changes nothing |
| RestClient.RestIterator.Key | Provider/Rest/Client/AbstractRestIterator.php:88-91 | returns the position and changes nothing |
| RestClient.RestIterator.LoadNextPage | Provider/Rest/Client/AbstractRestIterator.php:137-151 | the new state and the result are AfterLoadNextPage of the old state |
| RestClient.RestIterator.Next | Provider/Rest/Client/AbstractRestIterator.php:73-83 | the new state is AfterNext of the old state; the position grows by one |
| RestClient.RestIterator.Rewind | Provider/Rest/Client/AbstractRestIterator.php:108-118 | the new state is AfterRewind (all fields reset, then one next); the key is 0 |
| RestClient.RestIterator.Valid | Provider/Rest/Client/AbstractRestIterator.php:96-103 | rewinds only when no page has been loaded yet; otherwise the state is unchanged; the result is true iff current is non-null |
| RestClient.RestIterator.Count | Provider/Rest/Client/AbstractRestIterator.php:123-130 | rewinds only when no page has been loaded yet; otherwise the state is unchanged; returns the total count |
| Connectors.BatchCalls | Provider/AbstractConnector.php:87-89 | one call per registered processor, in registration order, each with the batch |
| Connectors.BatchOutcome | Provider/AbstractConnector.php:84-92 | true iff some processor is registered and the last processor's result is non-empty; earlier results do not matter |
| Connectors.Connector.constructor | Provider/AbstractConnector.php:9-27 | no channel, isConnected false, no processors, no calls yet |
| Connectors.Connector.Connect | Provider/AbstractConnector.php:32-41 | without a channel it fails with "There's no configured channel in connector" and changes nothing; otherwise isConnected becomes the transport's init result, which is also returned |
| Connectors.Connector.CallTransport | Provider/AbstractConnector.php:50-57 | connects first only when isConnected is exactly false, and a failed connect aborts; then the call is delegated to the transport with (action, params) and its answer is returned |
| Connectors.Connector.SetChannel | Provider/AbstractConnector.php:63-68 | only the channel changes; returns the connector |
| Connectors.Connector.AddSyncProcessor | Provider/AbstractConnector.php:73-76 | appends at the end; earlier processors stay as they were |
| Connectors.Connector.ProcessSyncBatch | Provider/AbstractConnector.php:84-92 | every processor is called once, in order (BatchCalls), and the result is BatchOutcome |
| Entity.Channel.constructor | Entity/Channel.php:23-61 | a new channel has no id and every field unset |
| Entity.Channel.Load | Entity/Channel.php:26-32 | the id is assigned only when the ORM hydrates a row; there is no setter for it |
| Entity.Channel.SetName | Entity/Channel.php:76-89 | only the name changes and getName returns it; returns the channel |
| Entity.Channel.SetType | Entity/Channel.php:96-109 | only the type changes and getType returns it; returns the channel |
| Entity.Channel.SetConnectors | Entity/Channel.php:148-161 | only the connectors change, stored as given (same order), and getConnectors returns them; returns the channel |
| Entity.Channel.SetTransport | Entity/Channel.php:116-122 | the channel holds the transport and the transport points back at the channel; other fields are unchanged |
| Entity.Channel.ClearTransport | Entity/Channel.php:135-141 | the old transport's back-link is cleared, then the channel drops the transport; a transport must be present |
| Entity.Channel.AddStatus | Entity/Repository/ChannelRepository.php:90 | the status is appended to the history; nothing else changes |
| Entity.Transport.SetLastSyncDate | Provider/SyncProcessor.php:120 | sets the last sync date and keeps the channel link |
| Repository.ConfiguredChannelsForSync | Entity/Repository/ChannelRepository.php:23-37 | exactly the table's channels that have a transport and are enabled, and are of the given type when one is given |
| Repository.ChannelsByType | Entity/Repository/ChannelRepository.php:47-56 | exactly the table's channels whose type equals the argument |
| Repository.FindById | Entity/Repository/ChannelRepository.php:70 | the channel found has the id and comes from the table; null iff no channel has it |
| Repository.ChannelRepository.Merge | Entity/Repository/ChannelRepository.php:72 | merging yields the channel itself or the table's instance with the same id |
| Repository.ChannelRepository.GetOrLoadById | Entity/Repository/ChannelRepository.php:65-76 | an id with no entry or a null entry is queried and its result cached; a cached non-null entry is merged, not re-queried; only the entry for that id changes |
| Repository.ChannelRepository.AddStatus | Entity/Repository/ChannelRepository.php:84-94 | with the entity manager closed nothing happens; otherwise the merged channel gains the status and merge, persist and flush happen in that order; the merged channel's name, type, transport, enabled flag and connectors are unchanged either way |
| ReverseSyncCommand.DefaultDefinitionEveryFiveMinutes | Command/ReverseSyncCommand.php:34-37 | the cron definition is the five fields `*/5 * * * *` |
| ReverseSyncCommand.RunningJobArgs | Command/ReverseSyncCommand.php:148-153 | the running key is `["--channel=<id>", "--connector=<c>", "--params='<p>'"]` |
| ReverseSyncCommand.RunningJobArgsInjective | Command/ReverseSyncCommand.php:148-153 | two different option triples never share a running key, provided the channel id and the connector contain no double quote |
| ReverseSyncCommand.FirstMissing | Command/ReverseSyncCommand.php:64-74 | options are checked in the order channel id, connector, params, and the first empty one gives its own message |
| ReverseSyncCommand.Execute | Command/ReverseSyncCommand.php:54-112 | a missing option raises its message before anything is asked; the running check is the first call, made with RunningJobArgs; a running job logs a warning and returns 0 with nothing else called; an unknown channel raises "Channel with given ID not found"; the processor runs iff the options are present, no job is running and the channel is found |
| ReverseSyncCommand.FoundChannelCompletes | Command/ReverseSyncCommand.php:95-111 | once the channel is found, the command logs the run notice and the processor's exception (if any) as its only critical entry, then "Completed", and returns 0 |
| SyncCommand.FirstArgument | Command/SyncCommand.php:49 | the closure reads the first element of the argument list, when there is one |
| SyncCommand.StatsOf | Command/SyncCommand.php:59-68 | a report with a context prints read, process, update, add, delete in that order; any other argument prints one single-digit value five times |
| SyncCommand.SummaryLines | Command/SyncCommand.php:48-69 | the last line is the stats line; when success is strictly true it is the only line; otherwise "There was some errors:" comes first, then the errors one per line in order |
| SyncCommand.LoggedLines | Command/SyncCommand.php:48-74 | a run with no log call prints nothing from the closure |
| SyncCommand.StatsLineReadsBack | Command/SyncCommand.php:59-68 | the stats line holds exactly five bracketed integers, and parsing them back gives read, process, update, add, delete in that order |
| SyncCommand.LogClosure | Command/SyncCommand.php:48-69 | the closure writes exactly SummaryLines of the first argument |
| SyncCommand.WriteEach | Command/SyncCommand.php:55-57 | the errors are written one per line, in order, after what was already written |
| SyncCommand.RunWithClosure | Command/SyncCommand.php:71-74 | the closure is installed before the run; an unknown id fails with "Channel '<id>' not found" and no event; otherwise its events are the Plan of the connectors reached on the found channel with `force` set to `--run`, and it fails with the TypeError message iff the channel has no transport and some connector resolves; the found channel's transport, if any, is stamped with the current time iff `--run` is given and some connector resolves, is left as it was otherwise (in particular on a dry run), and keeps its channel link |
| SyncCommand.WriteRun | Command/SyncCommand.php:71-76 | the closure's lines follow the run's log calls in order, and "Completed" comes last only when the run returned |
| SyncCommand.Execute | Command/SyncCommand.php:41-77 | the description line comes first; the processor then runs with the closure installed and `force` set to `--run`, with the events of RunWithClosure; the closure's lines follow in the order of the log calls; "Completed" is written last unless the processor raised (an unknown channel, or a transport-less channel with a resolving connector), in which case its exception escapes; the found channel's transport is stamped iff `--run` is given and some connector resolves, is untouched on a dry run, and keeps its channel link |

## Left out

- **PHP arrays.** Ordered, mixed-key PHP arrays are modelled as finite maps, so key order is not modelled. JSON decoding is an oracle: a message carries its decoded body, or none when the body is not valid JSON.
- **Lists.** Two arrays are modelled as sequences instead: the REST iterator's `rows`, read as a list indexed from 0, and a channel's connectors. A new channel's connectors are the empty list, where the PHP field starts as null. Both read the same on every path the model covers.
- **The TypeError text.** `TransportTypeError` abbreviates PHP's message: the class names are unqualified and the ", called in … on line N" suffix is dropped.
- **`runUnique`'s mutual exclusion.** The job runner's locking is concurrency in code that is not part of this model. "Already running" is modelled only as runUnique answering falsy without running the closure.
- **The job-table count query** of the reverse command is an oracle over the serialised argument string.
- **`setSQLLogger(null)`** in the handler's closure has no observable effect in the model and is left out.
- **Logger wiring in the reverse command.** ReverseSyncCommand::execute hands its output logger to the processor's logger strategy (`setLogger`) and switches off the SQL logger (`setSQLLogger(null)`). Neither call changes what the model observes, and both are left out.
- **Floating-point values.** `Php.Value` has no float case. A JSON number with a fraction or an exponent, and an integer beyond PHP_INT_MAX (which PHP decodes as a float), are outside the model; `Int` is unbounded.
- Connectors.Connector.CallTransport: the `$params = []` default of `call` is not modelled; a caller that omits it is modelled by passing the empty array.
- **The current time** is a `now` parameter, and one run uses one timestamp.
- **Transport.php** is not part of this model. Its channel back-link and its `lastSyncDate` setter are given their plain meaning.
- **Connector configuration.** The connector's `configure` call is recorded as an event. The configuration's `connector` entry holds the connector name rather than the connector object.
- **Entity-manager calls** (persist, flush, merge) are recorded as events. Merging yields the table's instance with the same id.
- **A channel without a transport.** The registry's `getTransportTypeBySettingEntity` is an oracle of the channel type alone, and `configure` is recorded as an event; neither is modelled as failing on a null transport. The modelled failure is the one the source itself makes: `saveLastSyncDate` declares a `Transport` parameter, so a null transport raises PHP 7's TypeError once a resolved connector's report has been logged. The error text is fixed as `TransportTypeError`.
- SyncCommand.StatsOf: a plain-string log argument (an unresolved connector's message) is indexed as PHP 5.4 to 7.4 does: every counter reads the string's first character. PHP 8 would raise instead.
- **Console objects.** The console input is the option values, and the output is a list of lines. In SyncCommand.Execute, the closure's lines are appended after the processor run, in call order. That gives the same output as printing them during the run.
- **AbstractRestIterator's page loaders.** `loadPage`, `getRowsFromPageData` and `getTotalCountFromPageData` are given together as a sequence of page answers. A null rows answer is the empty row list.
- **Channel settings.** Channel.php declares no `getSettings`, so the connector's transport `init` is given the channel itself.
- **An unset processor list.** AbstractConnector's processor list starts empty; in PHP it is unset, and an unset list gives the same result (false).
- **Getters.** Channel's getters have no contracts of their own. What each returns is stated by the setters' ensures.
- **Where the dry-run property lives.** The dry-run lemma follows from the mode property of the processor's run plan. It is placed in the command module because `--run` is what chooses the mode.
- **Out of scope:** the controllers, forms, the SOAP transport, the connector context mediator, and the scheduler tests exercise code outside this model. They are not modelled.
