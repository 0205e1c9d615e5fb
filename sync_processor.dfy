/**
 * The one-way synchronisation orchestrator (Provider/SyncProcessor.php).
 * For every connector configured on a channel it resolves the connector type
 * (skipping, with a log entry, one the registry cannot resolve), chooses
 * import or validation ("dry run") mode, builds the job configuration, runs
 * the job, folds the job result into a report, hands the report to the log
 * closure and, in import mode only, stamps the transport's lastSyncDate.
 * The types registry, processor registry and job executor are oracles in
 * `SyncEnv`; what is asked of them and of the entity manager is recorded in
 * the processor's `events`.
 */
module SyncProcessing {

  import opened Wrappers
  import opened Entity

  const DEFAULT_BATCH_SIZE := 15
  /** Passed in every job configuration; nothing reads it yet. */
  const DEFAULT_EMPTY_RANGES_COUNT := 2
  /** At most this many errors and exceptions are reported. */
  const MAX_REPORTED_ERRORS := 100

  const ImportSuccessMessage := "oro_importexport.import.import_success"
  const ImportErrorMessage := "oro_importexport.import.import_error"

  /** ProcessorRegistry::TYPE_IMPORT and ProcessorRegistry::TYPE_IMPORT_VALIDATION. */
  datatype Mode = Import | ImportValidation

  /** What the types registry resolves a connector name to. */
  datatype ConnectorType = ConnectorType(
    importJobName: string,      // getImportJobName()
    validationJobName: string,  // getImportJobName(true)
    importEntity: string)       // getImportEntityFQCN()

  /** The configuration handed to the job executor under the mode's key. */
  datatype JobConfiguration = JobConfiguration(
    mode: Mode,
    processorAlias: Option<string>,   // None: `reset` of an empty alias list
    entityName: string,
    channelName: string,
    batchSize: int,
    maxEmptyRanges: int,
    connector: string)

  /** The counters and errors of an import context. */
  datatype Context = Context(
    read: nat, add: nat, replace: nat, update: nat, delete: nat, errorEntries: nat,
    errors: seq<string>)

  /** What the job executor returns. */
  datatype JobResult = JobResult(successful: bool, failureExceptions: seq<string>, context: Option<Context>)

  /** The counters that exist only when the job produced a context. */
  datatype Detail = Detail(process: int, read: nat, add: nat, replace: nat, update: nat, delete: nat, errorEntries: nat)

  datatype Counts = Counts(errors: nat, detail: Option<Detail>)

  /** The array processImport returns. */
  datatype ImportResult = ImportResult(
    success: bool,
    message: string,
    exceptions: seq<string>,
    counts: Counts,
    errors: seq<string>)

  /** The failure exceptions followed by the context's errors. */
  function AllErrors(jobResult: JobResult): seq<string>
  {
    jobResult.failureExceptions + (if jobResult.context.Some? then jobResult.context.value.errors else [])
  }

  /** `array_slice($list, 0, 100)`. */
  function FirstErrors(list: seq<string>): (r: seq<string>)
    ensures |r| == if |list| <= MAX_REPORTED_ERRORS then |list| else MAX_REPORTED_ERRORS
    ensures r == list[..|r|]
  {
    if |list| <= MAX_REPORTED_ERRORS then list else list[..MAX_REPORTED_ERRORS]
  }

  /**
   * processImport's fold of a job result (the executeJob call itself is the
   * caller's): the error count, the counters of the context, the success
   * flag, the message key, the untruncated exceptions and the capped error
   * list.
   */
  function ProcessImport(jobResult: JobResult): (r: ImportResult)
    ensures r.counts.errors == |jobResult.failureExceptions|
      + (if jobResult.context.Some? then |jobResult.context.value.errors| else 0)
    ensures r.counts.detail.Some? <==> jobResult.context.Some?
    ensures jobResult.context.Some? ==>
      var c := jobResult.context.value;
      var d := r.counts.detail.value;
      && d.process == c.add + c.replace + c.update + c.delete - c.errorEntries
      && d.read == c.read && d.add == c.add && d.replace == c.replace
      && d.update == c.update && d.delete == c.delete && d.errorEntries == c.errorEntries
    ensures r.success <==> jobResult.successful && r.counts.detail.Some? && r.counts.detail.value.process > 0
    ensures jobResult.context.None? ==> !r.success
    ensures r.message == (if jobResult.successful then ImportSuccessMessage else ImportErrorMessage)
    ensures r.exceptions == jobResult.failureExceptions
    ensures r.counts.errors == 0 ==> r.errors == []
    ensures |r.errors| == (if r.counts.errors <= MAX_REPORTED_ERRORS then r.counts.errors else MAX_REPORTED_ERRORS)
    ensures r.errors == AllErrors(jobResult)[..|r.errors|]
  {
    var message := if jobResult.successful then ImportSuccessMessage else ImportErrorMessage;
    var exceptionCount := |jobResult.failureExceptions|;
    var counts :=
      match jobResult.context
      case None => Counts(exceptionCount, None)
      case Some(c) =>
        var process0 := 0;
        var process1 := process0 + c.add;
        var process2 := process1 + c.replace;
        var process3 := process2 + c.update;
        var process4 := process3 + c.delete;
        var process := process4 - c.errorEntries;
        Counts(exceptionCount + |c.errors|,
               Some(Detail(process, c.read, c.add, c.replace, c.update, c.delete, c.errorEntries)));
    var errors := if counts.errors != 0 then FirstErrors(AllErrors(jobResult)) else [];
    var success := jobResult.successful && counts.detail.Some? && counts.detail.value.process > 0;
    ImportResult(success, message, jobResult.failureExceptions, counts, errors)
  }

  /** An argument of a `log(...)` call. */
  datatype LogValue = Text(text: string) | Report(result: ImportResult)

  /** The collaborators of the processor. */
  datatype SyncEnv = SyncEnv(
    /** TypesRegistry::getConnectorType(type, name); Err carries the exception message. */
    connectorType: (Option<string>, string) -> Result<ConnectorType, string>,
    /** ProcessorRegistry::getProcessorAliasesByEntity(mode, entity). */
    processorAliases: (Mode, string) -> seq<string>,
    /** TypesRegistry::getTransportTypeBySettingEntity(transport, type): the transport implementation. */
    transportType: Option<string> -> string,
    /** JobExecutor::executeJob(mode, jobName, configuration). */
    execute: (Mode, string, JobConfiguration) -> JobResult)

  /** What the processor asks of its collaborators, in order. */
  datatype Event =
    | ConnectorRequested(channelType: Option<string>, connector: string)
    | AliasesRequested(mode: Mode, entity: string)
    | Configured(connector: string, transportType: string)
    | Executed(mode: Mode, jobName: string, configuration: JobConfiguration)
    | Logged(args: seq<LogValue>)
    | Persisted
    | Flushed

  function ModeFor(force: bool): (m: Mode)
    ensures m == Import <==> force
  {
    if force then Import else ImportValidation
  }

  function JobNameFor(ct: ConnectorType, force: bool): (r: string)
    ensures force ==> r == ct.importJobName
    ensures !force ==> r == ct.validationJobName
  {
    if force then ct.importJobName else ct.validationJobName
  }

  function ConfigurationFor(env: SyncEnv, ct: ConnectorType, channelName: string, connector: string, force: bool): (r: JobConfiguration)
    ensures r.mode == ModeFor(force) && r.entityName == ct.importEntity && r.channelName == channelName
    ensures r.batchSize == 15 && r.maxEmptyRanges == 2 && r.connector == connector
    ensures var aliases := env.processorAliases(Import, ct.importEntity);
      r.processorAlias == if aliases == [] then None else Some(aliases[0])
  {
    var aliases := env.processorAliases(Import, ct.importEntity);
    JobConfiguration(ModeFor(force), if aliases == [] then None else Some(aliases[0]),
                     ct.importEntity, channelName, DEFAULT_BATCH_SIZE, DEFAULT_EMPTY_RANGES_COUNT, connector)
  }

  /** The events of `log(value)`: one call of the closure, when a closure is set. */
  function LogEvents(logging: bool, value: LogValue): seq<Event>
  {
    if logging then [Logged([value])] else []
  }

  /**
   * The events of processing one configured connector. Without a transport
   * a resolved connector's step ends with the log call: saveLastSyncDate's
   * `Transport` type hint rejects null, in either mode.
   */
  function ConnectorStep(env: SyncEnv, channelName: string, channelType: Option<string>,
                         connector: string, force: bool, logging: bool, hasTransport: bool): seq<Event>
  {
    [ConnectorRequested(channelType, connector)] +
    match env.connectorType(channelType, connector)
    case Err(text) => LogEvents(logging, Text(text))
    case Ok(ct) =>
      var config := ConfigurationFor(env, ct, channelName, connector, force);
      var result := ProcessImport(env.execute(ModeFor(force), JobNameFor(ct, force), config));
      [AliasesRequested(Import, ct.importEntity),
       Configured(connector, env.transportType(channelType)),
       Executed(ModeFor(force), JobNameFor(ct, force), config)]
      + LogEvents(logging, Report(result))
      + (if force && hasTransport then [Persisted, Flushed] else [])
  }

  /** The events of processing `connectors` in order. */
  function Plan(env: SyncEnv, channelName: string, channelType: Option<string>,
                connectors: seq<string>, force: bool, logging: bool, hasTransport: bool): seq<Event>
  {
    if connectors == [] then []
    else
      Plan(env, channelName, channelType, connectors[..|connectors| - 1], force, logging, hasTransport)
        + ConnectorStep(env, channelName, channelType, connectors[|connectors| - 1], force, logging, hasTransport)
  }

  /** The index of the first connector the registry resolves, or the length when none does. */
  function FirstResolved(env: SyncEnv, channelType: Option<string>, connectors: seq<string>): (k: nat)
    ensures k <= |connectors|
    ensures k < |connectors| ==> env.connectorType(channelType, connectors[k]).Ok?
    ensures forall j :: 0 <= j < k ==> !env.connectorType(channelType, connectors[j]).Ok?
    decreases |connectors|
  {
    if connectors == [] then 0
    else if env.connectorType(channelType, connectors[0]).Ok? then 0
    else 1 + FirstResolved(env, channelType, connectors[1..])
  }

  /**
   * The connectors process gets through: all of them, or, without a
   * transport, those up to and including the first one that resolves.
   */
  function Reached(env: SyncEnv, channelType: Option<string>, connectors: seq<string>, hasTransport: bool): (r: seq<string>)
    ensures |r| <= |connectors| && r == connectors[..|r|]
  {
    var k := FirstResolved(env, channelType, connectors);
    if hasTransport || k == |connectors| then connectors else connectors[..k + 1]
  }

  /** The events of process on a found channel. */
  function RunPlan(env: SyncEnv, channelName: string, c: Channel, force: bool, logging: bool): seq<Event>
    reads c
  {
    Plan(env, channelName, c.channelType, Reached(env, c.channelType, c.connectors, c.transport != null),
         force, logging, c.transport != null)
  }

  /** process raises saveLastSyncDate's TypeError: the channel has no transport and some connector resolves. */
  predicate FailsOnTransport(env: SyncEnv, c: Channel)
    reads c
  {
    c.transport == null && Resolved(env, c.channelType, c.connectors) != []
  }

  /**
   * An abbreviation of PHP 7's TypeError message for a null passed to
   * saveLastSyncDate's `Transport` parameter: the class names are left
   * unqualified and the ", called in … on line N" suffix is dropped.
   */
  const TransportTypeError := "Argument 2 passed to SyncProcessor::saveLastSyncDate() must be an instance of Transport, null given"

  /** A connector the registry cannot resolve: the request, then the logged message. */
  lemma UnresolvedStepEvents(env: SyncEnv, before: seq<Event>, channelName: string, channelType: Option<string>,
                             connector: string, force: bool, logging: bool, hasTransport: bool)
    requires env.connectorType(channelType, connector).Err?
    ensures before + ConnectorStep(env, channelName, channelType, connector, force, logging, hasTransport)
      == before + [ConnectorRequested(channelType, connector)]
         + LogEvents(logging, Text(env.connectorType(channelType, connector).error))
  {
  }

  /** A resolved connector: the step's events one append at a time, as process makes them. */
  lemma ResolvedStepEvents(env: SyncEnv, before: seq<Event>, channelName: string, channelType: Option<string>,
                           connector: string, force: bool, logging: bool, hasTransport: bool)
    requires env.connectorType(channelType, connector).Ok?
    ensures var ct := env.connectorType(channelType, connector).value;
      var config := ConfigurationFor(env, ct, channelName, connector, force);
      var result := ProcessImport(env.execute(ModeFor(force), JobNameFor(ct, force), config));
      before + ConnectorStep(env, channelName, channelType, connector, force, logging, hasTransport)
      == before + [ConnectorRequested(channelType, connector)] + [AliasesRequested(Import, ct.importEntity)]
         + [Configured(connector, env.transportType(channelType))] + [Executed(ModeFor(force), JobNameFor(ct, force), config)]
         + LogEvents(logging, Report(result)) + (if force && hasTransport then [Persisted, Flushed] else [])
  {
    var ct := env.connectorType(channelType, connector).value;
    var config := ConfigurationFor(env, ct, channelName, connector, force);
    var result := ProcessImport(env.execute(ModeFor(force), JobNameFor(ct, force), config));
    var first := ConnectorRequested(channelType, connector);
    var aliases := AliasesRequested(Import, ct.importEntity);
    var configured := Configured(connector, env.transportType(channelType));
    var executed := Executed(ModeFor(force), JobNameFor(ct, force), config);
    var logged := LogEvents(logging, Report(result));
    var saved: seq<Event> := if force && hasTransport then [Persisted, Flushed] else [];
    assert ConnectorStep(env, channelName, channelType, connector, force, logging, hasTransport)
      == [first] + ([aliases, configured, executed] + logged + saved);
    AppendOneByOne(before, first, aliases, configured, executed, logged, saved);
  }

  /** Appending a step all at once or one piece at a time gives the same sequence. */
  lemma AppendOneByOne<T>(before: seq<T>, first: T, a: T, b: T, c: T, logged: seq<T>, saved: seq<T>)
    ensures before + ([first] + ([a, b, c] + logged + saved))
      == before + [first] + [a] + [b] + [c] + logged + saved
  {
    assert [a, b, c] == [a] + [b] + [c];
  }

  /** The first channel of the table with the given name, or null. */
  function Lookup(channels: seq<Channel>, name: string): (r: Channel?)
    reads channels
    ensures r != null ==> r in channels && r.name == Some(name)
    ensures r == null ==> forall c :: c in channels ==> c.name != Some(name)
  {
    if channels == [] then null
    else if channels[0].name == Some(name) then channels[0]
    else Lookup(channels[1..], name)
  }

  /** The objects Process may change besides the processor: the found channel's transport. */
  function Target(channels: seq<Channel>, name: string): set<object>
    reads channels, Lookup(channels, name)
  {
    var c := Lookup(channels, name);
    if c != null && c.transport != null then {c.transport} else {}
  }

  function ChannelNotFound(name: string): string
  {
    "Channel '" + name + "' not found"
  }

  class SyncProcessor {
    const env: SyncEnv
    /** Whether a log closure has been set. */
    var logging: bool
    var events: seq<Event>

    constructor (collaborators: SyncEnv)
      ensures env == collaborators && !logging && events == []
    {
      env := collaborators;
      logging, events := false, [];
    }

    method SetLogClosure() returns (r: SyncProcessor)
      modifies this`logging
      ensures r == this && logging
    {
      logging := true;
      r := this;
    }

    /** Calls the closure, when one is set, with the argument list. */
    method Log(value: LogValue)
      modifies this`events
      ensures events == old(events) + LogEvents(logging, value)
    {
      if logging {
        events := events + [Logged([value])];
      }
    }

    /** Stamps and flushes the transport in import mode; a dry run writes nothing. */
    method SaveLastSyncDate(mode: Mode, transport: Transport, now: Timestamp) returns (saved: bool)
      modifies this`events, transport
      ensures saved <==> mode == Import
      ensures saved ==> transport.lastSyncDate == Some(now) && events == old(events) + [Persisted, Flushed]
      ensures !saved ==> transport.lastSyncDate == old(transport.lastSyncDate) && events == old(events)
      ensures transport.channel == old(transport.channel)
    {
      if mode != Import {
        return false;
      }
      transport.SetLastSyncDate(now);
      events := events + [Persisted];
      events := events + [Flushed];
      return true;
    }

    /** findOneBy(['name' => name]), raising "Channel '<name>' not found". */
    method GetChannelByName(channels: seq<Channel>, name: string) returns (r: Result<Channel, string>)
      ensures r.Ok? ==> r.value in channels && r.value.name == Some(name) && r.value == Lookup(channels, name)
      ensures r.Err? <==> forall c :: c in channels ==> c.name != Some(name)
      ensures r.Err? ==> r.error == ChannelNotFound(name)
    {
      var i := 0;
      while i < |channels|
        invariant 0 <= i <= |channels|
        invariant Lookup(channels, name) == Lookup(channels[i..], name)
      {
        if channels[i].name == Some(name) {
          return Ok(channels[i]);
        }
        assert channels[i..][1..] == channels[i + 1..];
        i := i + 1;
      }
      return Err(ChannelNotFound(name));
    }

    /**
     * The body of process's loop for one configured connector. Without a
     * transport, a resolved connector fails at saveLastSyncDate after its
     * report has been logged.
     */
    method ProcessConnector(channel: Channel, channelName: string, connector: string, force: bool, now: Timestamp)
      returns (r: Result<(), string>)
      modifies this`events, channel.transport
      ensures r.Err? <==> channel.transport == null && env.connectorType(channel.channelType, connector).Ok?
      ensures r.Err? ==> r.error == TransportTypeError
      ensures events == old(events)
        + ConnectorStep(env, channelName, channel.channelType, connector, force, logging, channel.transport != null)
      ensures channel.transport != null ==>
        && channel.transport.lastSyncDate ==
             (if force && env.connectorType(channel.channelType, connector).Ok? then Some(now) else old(channel.transport.lastSyncDate))
        && channel.transport.channel == old(channel.transport.channel)
    {
      ghost var before := events;
      var channelType := channel.channelType;
      var transport := channel.transport;
      events := events + [ConnectorRequested(channelType, connector)];
      var resolved := env.connectorType(channelType, connector);
      if resolved.Err? {
        // log and continue
        Log(Text(resolved.error));
        UnresolvedStepEvents(env, before, channelName, channelType, connector, force, logging, transport != null);
        return Ok(());
      }
      var realConnector := resolved.value;
      var mode := ModeFor(force);
      var jobName := JobNameFor(realConnector, force);
      events := events + [AliasesRequested(Import, realConnector.importEntity)];
      var configuration := ConfigurationFor(env, realConnector, channelName, connector, force);
      events := events + [Configured(connector, env.transportType(channelType))];
      events := events + [Executed(mode, jobName, configuration)];
      var result := ProcessImport(env.execute(mode, jobName, configuration));
      Log(Report(result));
      if transport == null {
        ResolvedStepEvents(env, before, channelName, channelType, connector, force, logging, false);
        return Err(TransportTypeError);
      }
      var saved := SaveLastSyncDate(mode, transport, now);
      ResolvedStepEvents(env, before, channelName, channelType, connector, force, logging, true);
      return Ok(());
    }

    /** process's loop over the channel's connectors; it stops at the first failure. */
    method ProcessConnectors(channel: Channel, channelName: string, force: bool, now: Timestamp)
      returns (r: Result<(), string>)
      modifies this`events, channel.transport
      ensures events == old(events) + Plan(env, channelName, channel.channelType,
        Reached(env, channel.channelType, channel.connectors, channel.transport != null), force, logging, channel.transport != null)
      ensures r.Err? <==> channel.transport == null && Resolved(env, channel.channelType, channel.connectors) != []
      ensures r.Err? ==> r.error == TransportTypeError
      ensures channel.transport != null ==>
        && channel.transport.lastSyncDate ==
             (if force && Resolved(env, channel.channelType, channel.connectors) != [] then Some(now)
              else old(channel.transport.lastSyncDate))
        && channel.transport.channel == old(channel.transport.channel)
    {
      var connectors := channel.connectors;
      var hasTransport := channel.transport != null;
      ghost var start := if hasTransport then channel.transport.lastSyncDate else None;
      ghost var link := if hasTransport then channel.transport.channel else null;
      var i := 0;
      while i < |connectors|
        invariant 0 <= i <= |connectors|
        invariant events == old(events) + Plan(env, channelName, channel.channelType, connectors[..i], force, logging, hasTransport)
        invariant !hasTransport ==> Resolved(env, channel.channelType, connectors[..i]) == []
        invariant hasTransport ==>
          channel.transport.lastSyncDate ==
            (if force && Resolved(env, channel.channelType, connectors[..i]) != [] then Some(now) else start)
        invariant hasTransport ==> channel.transport.channel == link
      {
        var step := ProcessNext(channel, channelName, i, force, now, old(events), start);
        if step.Err? {
          return step;
        }
        i := i + 1;
      }
      TakeAll(connectors);
      if !hasTransport {
        ReachedAll(env, channel.channelType, connectors);
      }
      return Ok(());
    }

    /**
     * One turn of process's loop, from the first i connectors to the first
     * i + 1; when it fails, the run has reached its end.
     */
    method ProcessNext(channel: Channel, channelName: string, i: nat, force: bool, now: Timestamp,
                       ghost start: seq<Event>, ghost date: Option<Timestamp>) returns (r: Result<(), string>)
      requires i < |channel.connectors|
      requires events == start + Plan(env, channelName, channel.channelType, channel.connectors[..i], force, logging, channel.transport != null)
      requires channel.transport == null ==> Resolved(env, channel.channelType, channel.connectors[..i]) == []
      requires channel.transport != null ==>
        channel.transport.lastSyncDate ==
          (if force && Resolved(env, channel.channelType, channel.connectors[..i]) != [] then Some(now) else date)
      modifies this`events, channel.transport
      ensures r.Ok? ==>
        && events == start + Plan(env, channelName, channel.channelType, channel.connectors[..i + 1], force, logging, channel.transport != null)
        && (channel.transport == null ==> Resolved(env, channel.channelType, channel.connectors[..i + 1]) == [])
      ensures r.Err? ==>
        && channel.transport == null && Resolved(env, channel.channelType, channel.connectors) != []
        && r.error == TransportTypeError
        && events == start + Plan(env, channelName, channel.channelType, Reached(env, channel.channelType, channel.connectors, false), force, logging, false)
      ensures channel.transport != null ==>
        && r.Ok?
        && channel.transport.lastSyncDate ==
             (if force && Resolved(env, channel.channelType, channel.connectors[..i + 1]) != [] then Some(now) else date)
        && channel.transport.channel == old(channel.transport.channel)
    {
      var channelType := channel.channelType;
      var connectors := channel.connectors;
      var hasTransport := channel.transport != null;
      PlanSnoc(env, channelName, channelType, connectors, i, force, logging, hasTransport);
      AppendAssoc(start, Plan(env, channelName, channelType, connectors[..i], force, logging, hasTransport),
        ConnectorStep(env, channelName, channelType, connectors[i], force, logging, hasTransport));
      r := ProcessConnector(channel, channelName, connectors[i], force, now);
      ResolvedSnoc(env, channelType, connectors, i);
      if r.Err? {
        ReachedFirstResolved(env, channelType, connectors, i);
      }
    }

    /**
     * Runs the channel's connectors in order. The channel itself is not
     * changed; its transport's lastSyncDate is stamped only in import mode and
     * only when some connector resolved. A channel without a transport runs
     * until its first resolved connector, then fails.
     */
    method Process(channels: seq<Channel>, channelName: string, force: bool, now: Timestamp) returns (r: Result<(), string>)
      modifies this`events, Target(channels, channelName)
      ensures Lookup(channels, channelName) == null ==> r == Err(ChannelNotFound(channelName)) && events == old(events)
      ensures |events| >= |old(events)|
      ensures Lookup(channels, channelName) != null ==>
        var c := Lookup(channels, channelName);
        && events == old(events) + RunPlan(env, channelName, c, force, logging)
        && (r.Err? <==> FailsOnTransport(env, c))
        && (r.Err? ==> r.error == TransportTypeError)
        && (c.transport != null ==>
              && c.transport.lastSyncDate ==
                   (if force && Resolved(env, c.channelType, c.connectors) != [] then Some(now) else old(c.transport.lastSyncDate))
              && c.transport.channel == old(c.transport.channel))
    {
      var found := GetChannelByName(channels, channelName);
      if found.Err? {
        return Err(found.error);
      }
      var channel := found.value;
      assert Target(channels, channelName) == if channel.transport != null then {channel.transport} else {};
      r := ProcessConnectors(channel, channelName, force, now);
      assert Lookup(channels, channelName) == channel;
    }
  }

  /** A transport-less run that fails at connector i has reached exactly the connectors up to i. */
  lemma ReachedFirstResolved(env: SyncEnv, channelType: Option<string>, connectors: seq<string>, i: nat)
    requires i < |connectors| && Resolved(env, channelType, connectors[..i]) == []
    requires env.connectorType(channelType, connectors[i]).Ok?
    ensures FirstResolved(env, channelType, connectors) == i
    ensures Reached(env, channelType, connectors, false) == connectors[..i + 1]
    ensures Resolved(env, channelType, connectors) != []
  {
    ResolvedNone(env, channelType, connectors[..i]);
    forall j | 0 <= j < i
      ensures !env.connectorType(channelType, connectors[j]).Ok?
    {
      assert connectors[..i][j] == connectors[j];
    }
    assert FirstResolved(env, channelType, connectors) == i;
    ResolvedContains(env, channelType, connectors, i);
  }

  /** A connector the registry resolves is among the list's resolved connectors. */
  lemma {:induction false} ResolvedContains(env: SyncEnv, channelType: Option<string>, connectors: seq<string>, i: nat)
    requires i < |connectors| && env.connectorType(channelType, connectors[i]).Ok?
    ensures connectors[i] in Resolved(env, channelType, connectors)
    decreases |connectors|
  {
    var n := |connectors| - 1;
    if i < n {
      ResolvedContains(env, channelType, connectors[..n], i);
    }
  }

  /** A transport-less run in which no connector resolves reaches every connector. */
  lemma ReachedAll(env: SyncEnv, channelType: Option<string>, connectors: seq<string>)
    requires Resolved(env, channelType, connectors) == []
    ensures FirstResolved(env, channelType, connectors) == |connectors|
    ensures Reached(env, channelType, connectors, false) == connectors
  {
    ResolvedNone(env, channelType, connectors);
  }

  /** Nothing resolves in a list whose resolved connectors are none. */
  lemma {:induction false} ResolvedNone(env: SyncEnv, channelType: Option<string>, connectors: seq<string>)
    requires Resolved(env, channelType, connectors) == []
    ensures forall j :: 0 <= j < |connectors| ==> !env.connectorType(channelType, connectors[j]).Ok?
    decreases |connectors|
  {
    if connectors != [] {
      var n := |connectors| - 1;
      ResolvedNone(env, channelType, connectors[..n]);
      assert forall j :: 0 <= j < n ==> connectors[..n][j] == connectors[j];
    }
  }

  lemma PlanSnoc(env: SyncEnv, channelName: string, channelType: Option<string>,
                 connectors: seq<string>, i: nat, force: bool, logging: bool, hasTransport: bool)
    requires i < |connectors|
    ensures Plan(env, channelName, channelType, connectors[..i + 1], force, logging, hasTransport)
      == Plan(env, channelName, channelType, connectors[..i], force, logging, hasTransport)
         + ConnectorStep(env, channelName, channelType, connectors[i], force, logging, hasTransport)
  {
    assert connectors[..i + 1][..i] == connectors[..i];
  }

  // Sequence facts used as hints in the proofs below; they model nothing of
  // the source.

  lemma AppendEmpty<T>(s: seq<T>)
    ensures s + [] == s
  {
  }

  lemma AppendAssoc<T>(a: seq<T>, b: seq<T>, c: seq<T>)
    ensures (a + b) + c == a + (b + c)
  {
  }

  lemma TakeAll<T>(s: seq<T>)
    ensures s[..|s|] == s
  {
  }

  lemma SnocLast<T>(s: seq<T>)
    requires |s| > 0
    ensures s[..|s| - 1] + [s[|s| - 1]] == s
  {
  }

  lemma ResolvedSnoc(env: SyncEnv, channelType: Option<string>, connectors: seq<string>, i: nat)
    requires i < |connectors|
    ensures Resolved(env, channelType, connectors[..i + 1])
      == Resolved(env, channelType, connectors[..i])
         + (if env.connectorType(channelType, connectors[i]).Ok? then [connectors[i]] else [])
  {
    assert connectors[..i + 1][..i] == connectors[..i];
  }

  /** The connector names asked of the types registry, in order. */
  function Requested(events: seq<Event>): seq<string>
  {
    if events == [] then []
    else (if events[0].ConnectorRequested? then [events[0].connector] else []) + Requested(events[1..])
  }

  /** The connectors whose jobs were run, in order. */
  function ExecutedConnectors(events: seq<Event>): seq<string>
  {
    if events == [] then []
    else (if events[0].Executed? then [events[0].configuration.connector] else []) + ExecutedConnectors(events[1..])
  }

  /** The connectors of the list that the registry resolves, in order. */
  function Resolved(env: SyncEnv, channelType: Option<string>, connectors: seq<string>): (r: seq<string>)
    ensures forall c :: c in r ==> c in connectors && env.connectorType(channelType, c).Ok?
  {
    if connectors == [] then []
    else
      var last := connectors[|connectors| - 1];
      Resolved(env, channelType, connectors[..|connectors| - 1])
        + (if env.connectorType(channelType, last).Ok? then [last] else [])
  }

  /**
   * What every event of a run satisfies: processor aliases are looked up in
   * import mode whatever the mode, jobs run in the mode `force` selects with
   * the default batch settings, and the entity manager is used only in
   * import mode.
   */
  predicate ConformsToMode(e: Event, force: bool)
  {
    && (e.AliasesRequested? ==> e.mode == Import)
    && (e.Executed? ==>
          && e.mode == ModeFor(force) && e.configuration.mode == ModeFor(force)
          && e.configuration.batchSize == DEFAULT_BATCH_SIZE
          && e.configuration.maxEmptyRanges == DEFAULT_EMPTY_RANGES_COUNT)
    && ((e.Persisted? || e.Flushed?) ==> force)
  }

  predicate AllConformToMode(events: seq<Event>, force: bool)
  {
    forall k :: 0 <= k < |events| ==> ConformsToMode(events[k], force)
  }

  lemma {:induction false} RequestedAppend(a: seq<Event>, b: seq<Event>)
    ensures Requested(a + b) == Requested(a) + Requested(b)
    decreases |a|
  {
    if a == [] {
      assert a + b == b;
    } else {
      var e := a[0];
      assert a + b == [e] + (a[1..] + b);
      assert a == [e] + a[1..];
      RequestedCons(e, a[1..] + b);
      RequestedCons(e, a[1..]);
      RequestedAppend(a[1..], b);
    }
  }

  lemma {:induction false} ExecutedConnectorsAppend(a: seq<Event>, b: seq<Event>)
    ensures ExecutedConnectors(a + b) == ExecutedConnectors(a) + ExecutedConnectors(b)
    decreases |a|
  {
    if a == [] {
      assert a + b == b;
    } else {
      var e := a[0];
      assert a + b == [e] + (a[1..] + b);
      assert a == [e] + a[1..];
      ExecutedConnectorsCons(e, a[1..] + b);
      ExecutedConnectorsCons(e, a[1..]);
      ExecutedConnectorsAppend(a[1..], b);
    }
  }

  lemma RequestedCons(e: Event, rest: seq<Event>)
    ensures Requested([e] + rest) == (if e.ConnectorRequested? then [e.connector] else []) + Requested(rest)
  {
    assert ([e] + rest)[1..] == rest;
  }

  lemma ExecutedConnectorsCons(e: Event, rest: seq<Event>)
    ensures ExecutedConnectors([e] + rest) == (if e.Executed? then [e.configuration.connector] else []) + ExecutedConnectors(rest)
  {
    assert ([e] + rest)[1..] == rest;
  }

  lemma {:induction false} NoRequests(events: seq<Event>)
    requires forall k :: 0 <= k < |events| ==> !events[k].ConnectorRequested?
    ensures Requested(events) == []
    decreases |events|
  {
    if events != [] {
      NoRequests(events[1..]);
    }
  }

  lemma {:induction false} NoExecutions(events: seq<Event>)
    requires forall k :: 0 <= k < |events| ==> !events[k].Executed?
    ensures ExecutedConnectors(events) == []
    decreases |events|
  {
    if events != [] {
      NoExecutions(events[1..]);
    }
  }

  /** The events after a step's job: the log call and, in import mode, persist and flush. */
  predicate Quiet(events: seq<Event>)
  {
    forall k :: 0 <= k < |events| ==> !events[k].ConnectorRequested? && !events[k].Executed?
  }

  lemma QuietTail(logging: bool, value: LogValue, saved: bool)
    ensures Quiet(LogEvents(logging, value) + (if saved then [Persisted, Flushed] else []))
  {
  }

  /** A resolved step: request, alias lookup, configure, execute, then quiet events. */
  lemma ResolvedStepCounts(first: Event, aliases: Event, configured: Event, executed: Event, tail: seq<Event>)
    requires first.ConnectorRequested? && executed.Executed?
    requires !aliases.ConnectorRequested? && !aliases.Executed? && !configured.ConnectorRequested? && !configured.Executed?
    requires !first.Executed? && !executed.ConnectorRequested?
    requires Quiet(tail)
    ensures Requested([first, aliases, configured, executed] + tail) == [first.connector]
    ensures ExecutedConnectors([first, aliases, configured, executed] + tail) == [executed.configuration.connector]
  {
    NoRequests(tail);
    NoExecutions(tail);
    assert [first, aliases, configured, executed] + tail == [first] + ([aliases] + ([configured] + ([executed] + tail)));
    RequestedCons(executed, tail);
    RequestedCons(configured, [executed] + tail);
    RequestedCons(aliases, [configured] + ([executed] + tail));
    RequestedCons(first, [aliases] + ([configured] + ([executed] + tail)));
    ExecutedConnectorsCons(executed, tail);
    ExecutedConnectorsCons(configured, [executed] + tail);
    ExecutedConnectorsCons(aliases, [configured] + ([executed] + tail));
    ExecutedConnectorsCons(first, [aliases] + ([configured] + ([executed] + tail)));
  }

  /** One connector's step asks the registry about that connector only, and runs its job only when it resolves. */
  lemma StepRequestsAndRuns(env: SyncEnv, channelName: string, channelType: Option<string>,
                            connector: string, force: bool, logging: bool, hasTransport: bool)
    ensures var step := ConnectorStep(env, channelName, channelType, connector, force, logging, hasTransport);
      && Requested(step) == [connector]
      && ExecutedConnectors(step) == if env.connectorType(channelType, connector).Ok? then [connector] else []
  {
    var first := ConnectorRequested(channelType, connector);
    match env.connectorType(channelType, connector)
    case Err(text) =>
      var tail := LogEvents(logging, Text(text));
      NoRequests(tail);
      NoExecutions(tail);
      RequestedCons(first, tail);
      ExecutedConnectorsCons(first, tail);
    case Ok(ct) =>
      var config := ConfigurationFor(env, ct, channelName, connector, force);
      var result := ProcessImport(env.execute(ModeFor(force), JobNameFor(ct, force), config));
      var tail := LogEvents(logging, Report(result)) + (if force && hasTransport then [Persisted, Flushed] else []);
      QuietTail(logging, Report(result), force && hasTransport);
      var executed := Executed(ModeFor(force), JobNameFor(ct, force), config);
      assert ConnectorStep(env, channelName, channelType, connector, force, logging, hasTransport)
        == [first, AliasesRequested(Import, ct.importEntity), Configured(connector, env.transportType(channelType)), executed] + tail;
      ResolvedStepCounts(first, AliasesRequested(Import, ct.importEntity),
                         Configured(connector, env.transportType(channelType)), executed, tail);
  }

  lemma RequestedSnoc(prefix: seq<Event>, step: seq<Event>, done: seq<string>, c: string)
    requires Requested(prefix) == done && Requested(step) == [c]
    ensures Requested(prefix + step) == done + [c]
  {
    RequestedAppend(prefix, step);
  }

  lemma ExecutedSnoc(prefix: seq<Event>, step: seq<Event>, done: seq<string>, ran: seq<string>)
    requires ExecutedConnectors(prefix) == done && ExecutedConnectors(step) == ran
    ensures ExecutedConnectors(prefix + step) == done + ran
  {
    ExecutedConnectorsAppend(prefix, step);
  }

  /** Every configured connector is asked of the registry, once and in order, resolved or not. */
  lemma {:induction false} PlanRequestsEveryConnector(env: SyncEnv, channelName: string, channelType: Option<string>,
                                                      connectors: seq<string>, force: bool, logging: bool, hasTransport: bool)
    ensures Requested(Plan(env, channelName, channelType, connectors, force, logging, hasTransport)) == connectors
    decreases |connectors|
  {
    if connectors != [] {
      var n := |connectors| - 1;
      PlanRequestsEveryConnector(env, channelName, channelType, connectors[..n], force, logging, hasTransport);
      StepRequestsAndRuns(env, channelName, channelType, connectors[n], force, logging, hasTransport);
      RequestedSnoc(Plan(env, channelName, channelType, connectors[..n], force, logging, hasTransport),
                    ConnectorStep(env, channelName, channelType, connectors[n], force, logging, hasTransport),
                    connectors[..n], connectors[n]);
      SnocLast(connectors);
    }
  }

  /**
   * A connector the registry cannot resolve is skipped and the following
   * ones still run: the jobs run are exactly those of the resolved
   * connectors, in the channel's order.
   */
  lemma {:induction false} PlanRunsResolvedConnectors(env: SyncEnv, channelName: string, channelType: Option<string>,
                                                      connectors: seq<string>, force: bool, logging: bool, hasTransport: bool)
    ensures ExecutedConnectors(Plan(env, channelName, channelType, connectors, force, logging, hasTransport))
      == Resolved(env, channelType, connectors)
    decreases |connectors|
  {
    if connectors != [] {
      var n := |connectors| - 1;
      PlanRunsResolvedConnectors(env, channelName, channelType, connectors[..n], force, logging, hasTransport);
      StepRequestsAndRuns(env, channelName, channelType, connectors[n], force, logging, hasTransport);
      ExecutedSnoc(Plan(env, channelName, channelType, connectors[..n], force, logging, hasTransport),
                   ConnectorStep(env, channelName, channelType, connectors[n], force, logging, hasTransport),
                   Resolved(env, channelType, connectors[..n]),
                   if env.connectorType(channelType, connectors[n]).Ok? then [connectors[n]] else []);
    }
  }

  lemma {:induction false} NoneResolved(env: SyncEnv, channelType: Option<string>, connectors: seq<string>)
    requires forall j :: 0 <= j < |connectors| ==> !env.connectorType(channelType, connectors[j]).Ok?
    ensures Resolved(env, channelType, connectors) == []
    decreases |connectors|
  {
    if connectors != [] {
      NoneResolved(env, channelType, connectors[..|connectors| - 1]);
    }
  }

  /**
   * A channel without a transport runs at most one job: the one of its first
   * resolved connector, after which saveLastSyncDate fails. Every connector
   * before it is still asked of the registry.
   */
  lemma TransportlessRunsOneJob(env: SyncEnv, channelName: string, channelType: Option<string>,
                                connectors: seq<string>, force: bool, logging: bool)
    ensures var k := FirstResolved(env, channelType, connectors);
      var events := Plan(env, channelName, channelType, Reached(env, channelType, connectors, false), force, logging, false);
      && Requested(events) == (if k < |connectors| then connectors[..k + 1] else connectors)
      && ExecutedConnectors(events) == (if k < |connectors| then [connectors[k]] else [])
  {
    var k := FirstResolved(env, channelType, connectors);
    var reached := Reached(env, channelType, connectors, false);
    PlanRequestsEveryConnector(env, channelName, channelType, reached, force, logging, false);
    PlanRunsResolvedConnectors(env, channelName, channelType, reached, force, logging, false);
    if k < |connectors| {
      NoneResolved(env, channelType, connectors[..k]);
      ResolvedSnoc(env, channelType, connectors, k);
    } else {
      NoneResolved(env, channelType, connectors);
    }
  }

  lemma StepConformsToMode(env: SyncEnv, channelName: string, channelType: Option<string>,
                           connector: string, force: bool, logging: bool, hasTransport: bool)
    ensures AllConformToMode(ConnectorStep(env, channelName, channelType, connector, force, logging, hasTransport), force)
  {
    match env.connectorType(channelType, connector)
    case Err(text) =>
    case Ok(ct) =>
      var config := ConfigurationFor(env, ct, channelName, connector, force);
      var result := ProcessImport(env.execute(ModeFor(force), JobNameFor(ct, force), config));
      var head := [ConnectorRequested(channelType, connector), AliasesRequested(Import, ct.importEntity),
                   Configured(connector, env.transportType(channelType)),
                   Executed(ModeFor(force), JobNameFor(ct, force), config)];
      var tail := LogEvents(logging, Report(result)) + (if force && hasTransport then [Persisted, Flushed] else []);
      assert ConnectorStep(env, channelName, channelType, connector, force, logging, hasTransport) == head + tail;
      assert AllConformToMode(head, force);
      TailConforms(logging, Report(result), force, hasTransport);
      ConformAppend(head, tail, force);
  }

  lemma TailConforms(logging: bool, value: LogValue, force: bool, hasTransport: bool)
    ensures AllConformToMode(LogEvents(logging, value) + (if force && hasTransport then [Persisted, Flushed] else []), force)
  {
  }

  lemma ConformAppend(a: seq<Event>, b: seq<Event>, force: bool)
    requires AllConformToMode(a, force) && AllConformToMode(b, force)
    ensures AllConformToMode(a + b, force)
  {
    forall k | 0 <= k < |a + b|
      ensures ConformsToMode((a + b)[k], force)
    {
      if k < |a| {
        assert (a + b)[k] == a[k];
      } else {
        assert (a + b)[k] == b[k - |a|];
      }
    }
  }

  /**
   * Every event of a run conforms to its mode; in particular a dry run
   * (`force` false) never persists or flushes anything.
   */
  lemma {:induction false} PlanConformsToMode(env: SyncEnv, channelName: string, channelType: Option<string>,
                                              connectors: seq<string>, force: bool, logging: bool, hasTransport: bool)
    ensures AllConformToMode(Plan(env, channelName, channelType, connectors, force, logging, hasTransport), force)
    decreases |connectors|
  {
    if connectors != [] {
      var n := |connectors| - 1;
      var done := Plan(env, channelName, channelType, connectors[..n], force, logging, hasTransport);
      var step := ConnectorStep(env, channelName, channelType, connectors[n], force, logging, hasTransport);
      PlanConformsToMode(env, channelName, channelType, connectors[..n], force, logging, hasTransport);
      StepConformsToMode(env, channelName, channelType, connectors[n], force, logging, hasTransport);
      ConformAppend(done, step, force);
    }
  }
}
