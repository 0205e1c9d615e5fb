/**
 * The reverse-sync console command (Command/ReverseSyncCommand.php): the
 * ordered validation of its three options, the early exit when a job with
 * the same arguments is already running, the channel lookup, and the run
 * of the reverse processor with its exception turned into a critical log
 * entry. The "already running" count query over the job table, the
 * repository lookup and the processor are oracles; the console input and
 * output objects become the option values and the list of log entries.
 */
module ReverseSyncCommand {

  import opened Wrappers
  import opened Php

  const CommandName := "oro:integration:reverse:sync"

  const ChannelIdRequired := "Channel id require."
  const ConnectorTypeRequired := "Connector type require."
  const ParametersRequired := "Parameters require."
  const ChannelNotFound := "Channel with given ID not found"
  const AlreadyRunning := "Job already running. Terminating...."
  const Completed := "Completed"

  /** The channel the repository returns; only its name is used here. */
  datatype LoadedChannel = LoadedChannel(name: Option<string>)

  /** The collaborators of execute. */
  datatype CommandEnv = CommandEnv(
    /** Whether a running job of this command has exactly these serialised args. */
    running: string -> bool,
    /** ChannelRepository::getOrLoadById. */
    load: string -> Option<LoadedChannel>,
    /** The processor's process(channel, connector, params); Some carries an exception message. */
    reverseSync: (LoadedChannel, string, string) -> Option<string>)

  /** What execute asks of its collaborators, in order. */
  datatype CommandCall =
    | RunningQueried(args: string)
    | ChannelLoaded(channelId: string)
    | ProcessorRun(channel: LoadedChannel, connector: string, params: string)

  datatype LogEntry = Warning(text: string) | Notice(text: string) | Critical(text: string)

  /** How execute ends: a thrown exception's message, or an exit code; plus the log and the calls. */
  datatype Outcome = Outcome(thrown: Option<string>, exitCode: int, log: seq<LogEntry>, calls: seq<CommandCall>)

  /** getDefaultDefinition: the cron schedule. */
  function DefaultDefinition(): string
  {
    "*/5 * * * *"
  }

  /** Space-separated cron fields. */
  function JoinFields(fields: seq<string>): string
  {
    if fields == [] then ""
    else if |fields| == 1 then fields[0]
    else fields[0] + " " + JoinFields(fields[1..])
  }

  /** The schedule's five fields: every fifth minute of every hour, day, month and weekday. */
  lemma DefaultDefinitionEveryFiveMinutes()
    ensures DefaultDefinition() == JoinFields(["*/5", "*", "*", "*", "*"])
  {
    var fields := ["*/5", "*", "*", "*", "*"];
    assert fields[1..][1..][1..][1..] == ["*"];
  }

  /** The `args` value a running job of this command is matched on. */
  function RunningJobArgs(channelId: string, connector: string, params: string): (r: string)
    ensures r == "[\"--channel=" + channelId + "\"" + ConnectorPart(connector, params)
  {
    "[\"--channel=" + channelId + "\", \"--connector=" + connector + "\", \"--params='" + params + "'\"]"
  }

  lemma CancelPrefix(p: string, x: string, y: string)
    requires p + x == p + y
    ensures x == y
  {
    assert x == (p + x)[|p|..];
    assert y == (p + y)[|p|..];
  }

  lemma CancelSuffix(x: string, y: string, q: string)
    requires x + q == y + q
    ensures x == y
  {
    assert x == (x + q)[..|x|];
    assert y == (y + q)[..|y|];
  }

  /** A quote-free word followed by a quote is determined by the string it starts. */
  lemma SplitAtQuote(x: string, y: string, x': string, y': string)
    requires '"' !in x && '"' !in x'
    requires x + "\"" + y == x' + "\"" + y'
    ensures x == x' && y == y'
  {
    var s := x + "\"" + y;
    IndexOfAfter(x, '"', y);
    IndexOfAfter(x', '"', y');
    assert x + "\"" + y == x + ['"'] + y && x' + "\"" + y' == x' + ['"'] + y';
    assert x == s[..|x|] && x' == s[..|x'|];
    assert "\"" + y == s[|x|..];
    assert "\"" + y' == s[|x'|..];
    CancelPrefix("\"", y, y');
  }

  /**
   * The running-job key tells option values apart as long as the channel id
   * and the connector contain no double quote; the params may contain anything.
   */
  lemma RunningJobArgsInjective(channelId: string, connector: string, params: string,
                                channelId': string, connector': string, params': string)
    requires '"' !in channelId && '"' !in connector && '"' !in channelId' && '"' !in connector'
    requires RunningJobArgs(channelId, connector, params) == RunningJobArgs(channelId', connector', params')
    ensures channelId == channelId' && connector == connector' && params == params'
  {
    var rest := ConnectorPart(connector, params);
    var rest' := ConnectorPart(connector', params');
    ChannelSplit(channelId, rest, channelId', rest');
    var tail := ParamsPart(params);
    var tail' := ParamsPart(params');
    assert rest == ", \"--connector=" + (connector + "\"" + tail);
    assert rest' == ", \"--connector=" + (connector' + "\"" + tail');
    CancelPrefix(", \"--connector=", connector + "\"" + tail, connector' + "\"" + tail');
    SplitAtQuote(connector, tail, connector', tail');
    ParamsSplit(params, params');
  }

  function ConnectorPart(connector: string, params: string): string
  {
    ", \"--connector=" + connector + "\"" + ParamsPart(params)
  }

  function ParamsPart(params: string): string
  {
    ", \"--params='" + params + "'\"]"
  }

  lemma ChannelSplit(channelId: string, rest: string, channelId': string, rest': string)
    requires '"' !in channelId && '"' !in channelId'
    requires "[\"--channel=" + channelId + "\"" + rest == "[\"--channel=" + channelId' + "\"" + rest'
    ensures channelId == channelId' && rest == rest'
  {
    var head := "[\"--channel=";
    assert head + channelId + "\"" + rest == head + (channelId + "\"" + rest);
    assert head + channelId' + "\"" + rest' == head + (channelId' + "\"" + rest');
    CancelPrefix(head, channelId + "\"" + rest, channelId' + "\"" + rest');
    SplitAtQuote(channelId, rest, channelId', rest');
  }

  lemma ParamsSplit(params: string, params': string)
    requires ParamsPart(params) == ParamsPart(params')
    ensures params == params'
  {
    var last := ", \"--params='";
    assert ParamsPart(params) == last + (params + "'\"]");
    assert ParamsPart(params') == last + (params' + "'\"]");
    CancelPrefix(last, params + "'\"]", params' + "'\"]");
    CancelSuffix(params, params', "'\"]");
  }

  function RunNotice(channelName: Option<string>, connector: string): string
  {
    "Run sync for \"" + (if channelName.Some? then channelName.value else "") + "\" channel and \"" + connector + "\" connector."
  }

  /** The first empty option's message, in the order channel id, connector, params. */
  function FirstMissing(channelId: Option<string>, connector: Option<string>, params: Option<string>): (r: Option<string>)
    ensures r.None? <==> !EmptyOption(channelId) && !EmptyOption(connector) && !EmptyOption(params)
    ensures EmptyOption(channelId) ==> r == Some(ChannelIdRequired)
    ensures !EmptyOption(channelId) && EmptyOption(connector) ==> r == Some(ConnectorTypeRequired)
    ensures !EmptyOption(channelId) && !EmptyOption(connector) && EmptyOption(params) ==> r == Some(ParametersRequired)
  {
    if EmptyOption(channelId) then Some(ChannelIdRequired)
    else if EmptyOption(connector) then Some(ConnectorTypeRequired)
    else if EmptyOption(params) then Some(ParametersRequired)
    else None
  }

  /** execute with the three option values. */
  function Execute(env: CommandEnv, channelId: Option<string>, connector: Option<string>, params: Option<string>): (o: Outcome)
    ensures FirstMissing(channelId, connector, params).Some? ==>
      o == Outcome(FirstMissing(channelId, connector, params), 0, [], [])
    ensures FirstMissing(channelId, connector, params).None? ==>
      var key := RunningJobArgs(channelId.value, connector.value, params.value);
      && |o.calls| >= 1 && o.calls[0] == RunningQueried(key)
      && (env.running(key) ==> o == Outcome(None, 0, [Warning(AlreadyRunning)], [RunningQueried(key)]))
      && (!env.running(key) ==> |o.calls| >= 2 && o.calls[1] == ChannelLoaded(channelId.value))
      && (!env.running(key) && env.load(channelId.value).None? ==>
            o == Outcome(Some(ChannelNotFound), 0, [], [RunningQueried(key), ChannelLoaded(channelId.value)]))
    ensures o.thrown.None? ==> o.exitCode == 0
    ensures (exists k :: 0 <= k < |o.calls| && o.calls[k].ProcessorRun?) <==>
      && FirstMissing(channelId, connector, params).None?
      && !env.running(RunningJobArgs(channelId.value, connector.value, params.value))
      && env.load(channelId.value).Some?
  {
    match FirstMissing(channelId, connector, params)
    case Some(message) => Outcome(Some(message), 0, [], [])
    case None =>
      var key := RunningJobArgs(channelId.value, connector.value, params.value);
      if env.running(key) then
        Outcome(None, 0, [Warning(AlreadyRunning)], [RunningQueried(key)])
      else
        match env.load(channelId.value)
        case None => Outcome(Some(ChannelNotFound), 0, [], [RunningQueried(key), ChannelLoaded(channelId.value)])
        case Some(channel) =>
          var failure := env.reverseSync(channel, connector.value, params.value);
          var calls := [RunningQueried(key), ChannelLoaded(channelId.value), ProcessorRun(channel, connector.value, params.value)];
          assert calls[2].ProcessorRun?;
          Outcome(None, 0,
                  [Notice(RunNotice(channel.name, connector.value))]
                  + (if failure.Some? then [Critical(failure.value)] else [])
                  + [Notice(Completed)],
                  calls)
  }

  /**
   * Once the channel is found the command always ends normally: it notices
   * the run, logs the processor's exception (if any) as critical, notices
   * completion and exits with 0.
   */
  lemma FoundChannelCompletes(env: CommandEnv, channelId: Option<string>, connector: Option<string>, params: Option<string>)
    requires FirstMissing(channelId, connector, params).None?
    requires !env.running(RunningJobArgs(channelId.value, connector.value, params.value))
    requires env.load(channelId.value).Some?
    ensures var o := Execute(env, channelId, connector, params);
      var channel := env.load(channelId.value).value;
      var failure := env.reverseSync(channel, connector.value, params.value);
      && o.thrown == None && o.exitCode == 0
      && o.calls[2..] == [ProcessorRun(channel, connector.value, params.value)]
      && o.log[0] == Notice(RunNotice(channel.name, connector.value))
      && o.log[|o.log| - 1] == Notice(Completed)
      && (failure.Some? ==> o.log[1] == Critical(failure.value))
      && (forall e :: e in o.log && e.Critical? ==> failure == Some(e.text))
      && |o.log| == if failure.Some? then 3 else 2
  {
  }
}
