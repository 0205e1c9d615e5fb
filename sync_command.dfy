/**
 * The one-way sync console command (Command/SyncCommand.php): it prints its
 * description, installs a log closure on the sync processor, runs the
 * processor on the named channel in import mode when `--run` is given and
 * in validation mode otherwise, and prints "Completed". The closure turns
 * each logged import result into summary lines. The console output is the
 * list of lines written.
 */
module SyncCommand {

  import opened Wrappers
  import opened Php
  import opened Entity
  import opened SyncProcessing

  const Description := "Sync entities (currently only importing magento customers)"
  const ErrorHeader := "There was some errors:"
  const Completed := "Completed"

  /** The console output stream. */
  class Output {
    var lines: seq<string>

    constructor ()
      ensures lines == []
    {
      lines := [];
    }

    method WriteLn(line: string)
      modifies this
      ensures lines == old(lines) + [line]
    {
      lines := lines + [line];
    }

    method WriteLines(more: seq<string>)
      modifies this
      ensures lines == old(lines) + more
    {
      lines := lines + more;
    }
  }

  /** `$context[0]`: the first argument the processor passed to log, if any. */
  function FirstArgument(args: seq<LogValue>): (r: Option<LogValue>)
    ensures r.Some? <==> |args| > 0
    ensures r.Some? ==> r.value == args[0]
  {
    if args == [] then None else Some(args[0])
  }

  /** `$context['success'] === true`: only an import result can be strictly true. */
  predicate Succeeded(arg: Option<LogValue>)
  {
    arg.Some? && arg.value.Report? && arg.value.result.success
  }

  /**
   * `$context['errors']` as the foreach sees it: an import result's errors;
   * for a plain message or a missing argument it is not an array, and the
   * loop body never runs.
   */
  function ErrorsOf(arg: Option<LogValue>): seq<string>
  {
    if arg.Some? && arg.value.Report? then arg.value.result.errors else []
  }

  /**
   * What `%d` prints for the counters read, process, update, add and delete.
   * An import result without a context has none of these counters, and a
   * missing index prints 0. A plain message is a string: indexing it with a
   * word reads its first character (PHP 5.4 to 7.4 behaviour), and that
   * one-character string prints as its digit, or 0.
   */
  function StatsOf(arg: Option<LogValue>): (r: seq<int>)
    ensures |r| == 5
    ensures arg.Some? && arg.value.Report? && arg.value.result.counts.detail.Some? ==>
      var d := arg.value.result.counts.detail.value;
      r == [d.read, d.process, d.update, d.add, d.delete]
    ensures !(arg.Some? && arg.value.Report? && arg.value.result.counts.detail.Some?) ==>
      forall k :: 0 <= k < 5 ==> 0 <= r[k] < 10 && r[k] == r[0]
  {
    match arg
    case None => [0, 0, 0, 0, 0]
    case Some(Report(result)) =>
      (match result.counts.detail
       case None => [0, 0, 0, 0, 0]
       case Some(d) => [d.read, d.process, d.update, d.add, d.delete])
    case Some(Text(message)) =>
      var v := if |message| > 0 && IsDigit(message[0]) then DigitValue(message[0]) else 0;
      [v, v, v, v, v]
  }

  function Bracketed(value: int): string
  {
    "[" + IntToString(value) + "]"
  }

  /** The stats line, counters in the order read, process, update, add, delete. */
  function StatsLine(read: int, process: int, update: int, add: int, delete: int): string
  {
    "Stats: read " + (Bracketed(read) + FromProcess(process, update, add, delete))
  }

  function FromProcess(process: int, update: int, add: int, delete: int): string
  {
    ", process " + (Bracketed(process) + FromUpdated(update, add, delete))
  }

  function FromUpdated(update: int, add: int, delete: int): string
  {
    ", updated " + (Bracketed(update) + FromAdded(add, delete))
  }

  function FromAdded(add: int, delete: int): string
  {
    ", added " + (Bracketed(add) + FromDelete(delete))
  }

  function FromDelete(delete: int): string
  {
    ", delete " + (Bracketed(delete) + [])
  }

  /** The lines the closure writes for one log call. */
  function SummaryLines(arg: Option<LogValue>): (lines: seq<string>)
    ensures |lines| >= 1
    ensures var s := StatsOf(arg); lines[|lines| - 1] == StatsLine(s[0], s[1], s[2], s[3], s[4])
    ensures Succeeded(arg) ==> |lines| == 1
    ensures !Succeeded(arg) ==> lines[0] == ErrorHeader && lines[1..|lines| - 1] == ErrorsOf(arg)
  {
    var s := StatsOf(arg);
    (if Succeeded(arg) then [] else [ErrorHeader] + ErrorsOf(arg))
      + [StatsLine(s[0], s[1], s[2], s[3], s[4])]
  }

  /** The stats line for the closure's argument. */
  function StatsLineOf(arg: Option<LogValue>): string
  {
    var s := StatsOf(arg);
    StatsLine(s[0], s[1], s[2], s[3], s[4])
  }

  lemma SummaryLinesSplit(arg: Option<LogValue>)
    ensures SummaryLines(arg) == (if Succeeded(arg) then [] else [ErrorHeader] + ErrorsOf(arg)) + [StatsLineOf(arg)]
  {
  }

  /** What the closure writes over a sequence of processor events, in order. */
  function LoggedLines(events: seq<Event>): (lines: seq<string>)
    ensures (forall k :: 0 <= k < |events| ==> !events[k].Logged?) ==> lines == []
    decreases |events|
  {
    if events == [] then []
    else
      (if events[0].Logged? then SummaryLines(FirstArgument(events[0].args)) else [])
        + LoggedLines(events[1..])
  }

  // ---------------------------------------------------------------------
  // Reading the stats line back.

  /** The texts between square brackets, left to right. */
  function BracketValues(s: string): seq<string>
    decreases |s|
  {
    if s == [] then []
    else if s[0] != '[' then BracketValues(s[1..])
    else
      var inner := s[1..];
      var k := IndexOf(inner, ']');
      if k == |inner| then [] else [inner[..k]] + BracketValues(inner[k + 1..])
  }

  lemma {:induction false} SkipLabel(caption: string, rest: string)
    requires '[' !in caption
    ensures BracketValues(caption + rest) == BracketValues(rest)
    decreases |caption|
  {
    if caption != [] {
      var s := caption + rest;
      assert s[0] == caption[0] && caption[0] in caption;
      assert s[1..] == caption[1..] + rest;
      SkipLabel(caption[1..], rest);
    } else {
      assert caption + rest == rest;
    }
  }

  lemma TakeValue(v: string, rest: string)
    requires ']' !in v
    ensures BracketValues("[" + v + "]" + rest) == [v] + BracketValues(rest)
  {
    var s := "[" + v + "]" + rest;
    var inner := v + "]" + rest;
    assert s[1..] == inner;
    IndexOfAfter(v, ']', rest);
    assert inner == v + [']'] + rest;
    assert inner[..|v|] == v;
    assert inner[|v| + 1..] == rest;
  }

  lemma NoBrackets(i: int)
    ensures '[' !in IntToString(i) && ']' !in IntToString(i)
  {
    var s := IntToString(i);
    assert forall k :: 0 <= k < |s| ==> s[k] == '-' || IsDigit(s[k]);
  }

  lemma TakeCounter(caption: string, value: int, rest: string)
    requires '[' !in caption
    ensures BracketValues(caption + (Bracketed(value) + rest)) == [IntToString(value)] + BracketValues(rest)
  {
    SkipLabel(caption, Bracketed(value) + rest);
    NoBrackets(value);
    assert Bracketed(value) + rest == "[" + IntToString(value) + "]" + rest;
    TakeValue(IntToString(value), rest);
  }

  lemma FromDeleteValues(delete: int)
    ensures BracketValues(FromDelete(delete)) == [IntToString(delete)]
  {
    TakeCounter(", delete ", delete, []);
  }

  lemma FromAddedValues(add: int, delete: int)
    ensures BracketValues(FromAdded(add, delete)) == [IntToString(add)] + [IntToString(delete)]
  {
    TakeCounter(", added ", add, FromDelete(delete));
    FromDeleteValues(delete);
  }

  lemma FromUpdatedValues(update: int, add: int, delete: int)
    ensures BracketValues(FromUpdated(update, add, delete))
      == [IntToString(update)] + ([IntToString(add)] + [IntToString(delete)])
  {
    TakeCounter(", updated ", update, FromAdded(add, delete));
    FromAddedValues(add, delete);
  }

  lemma FromProcessValues(process: int, update: int, add: int, delete: int)
    ensures BracketValues(FromProcess(process, update, add, delete))
      == [IntToString(process)] + ([IntToString(update)] + ([IntToString(add)] + [IntToString(delete)]))
  {
    TakeCounter(", process ", process, FromUpdated(update, add, delete));
    FromUpdatedValues(update, add, delete);
  }

  lemma ReadCaptionUnbracketed()
    ensures '[' !in "Stats: read "
  {
  }

  lemma FiveDisplay<T>(x1: T, x2: T, x3: T, x4: T, x5: T)
    ensures [x1] + ([x2] + ([x3] + ([x4] + [x5]))) == [x1, x2, x3, x4, x5]
  {
  }

  /**
   * The stats line loses nothing: its bracketed numbers, read left to
   * right, are the five counters in the order read, process, update, add,
   * delete.
   */
  lemma StatsLineValues(read: int, process: int, update: int, add: int, delete: int)
    ensures BracketValues(StatsLine(read, process, update, add, delete))
      == [IntToString(read), IntToString(process), IntToString(update), IntToString(add), IntToString(delete)]
  {
    ReadCaptionUnbracketed();
    TakeCounter("Stats: read ", read, FromProcess(process, update, add, delete));
    FromProcessValues(process, update, add, delete);
    FiveDisplay(IntToString(read), IntToString(process), IntToString(update), IntToString(add), IntToString(delete));
  }

  lemma StatsLineReadsBack(read: int, process: int, update: int, add: int, delete: int)
    ensures var values := BracketValues(StatsLine(read, process, update, add, delete));
      && |values| == 5
      && forall k :: 0 <= k < 5 ==> IsIntString(values[k]) && ParseInt(values[k]) == [read, process, update, add, delete][k]
  {
    StatsLineValues(read, process, update, add, delete);
    IntToStringRoundTrip(read);
    IntToStringRoundTrip(process);
    IntToStringRoundTrip(update);
    IntToStringRoundTrip(add);
    IntToStringRoundTrip(delete);
  }

  // ---------------------------------------------------------------------
  // The command.

  /**
   * The log closure: the error header and the errors one per line unless
   * the result's success is strictly true, then the stats line.
   */
  method LogClosure(output: Output, args: seq<LogValue>)
    modifies output
    ensures output.lines == old(output.lines) + SummaryLines(FirstArgument(args))
  {
    var context := FirstArgument(args);
    SummaryLinesSplit(context);
    if !Succeeded(context) {
      output.WriteLn(ErrorHeader);
      WriteEach(output, ErrorsOf(context));
    }
    output.WriteLn(StatsLineOf(context));
  }

  /** The closure's foreach: one line per error, in order. */
  method WriteEach(output: Output, errors: seq<string>)
    modifies output
    ensures output.lines == old(output.lines) + errors
  {
    for i := 0 to |errors|
      invariant output.lines == old(output.lines) + errors[..i]
    {
      output.WriteLn(errors[i]);
      assert errors[..i + 1] == errors[..i] + [errors[i]];
    }
    assert errors[..|errors|] == errors;
  }

  /**
   * execute: the description line, then the processor run with `force` set
   * to the `--run` flag, then "Completed" unless the processor raised (an
   * unknown channel, or a transport-less channel with a resolved connector). The
   * closure's lines for every log call of the run appear in between, in
   * the order of the calls.
   */
  method Execute(output: Output, processor: SyncProcessor, channels: seq<Channel>, channelId: string,
                 run: bool, now: Timestamp) returns (r: Result<(), string>)
    modifies output, processor, Target(channels, channelId)
    ensures processor.logging
    ensures old(Lookup(channels, channelId)) == null ==>
      r == Err(ChannelNotFound(channelId)) && processor.events == old(processor.events)
    ensures old(Lookup(channels, channelId)) != null ==>
      var c := old(Lookup(channels, channelId));
      && processor.events == old(processor.events) + RunPlan(processor.env, channelId, c, run, true)
      && (r.Err? <==> FailsOnTransport(processor.env, c))
      && (r.Err? ==> r.error == TransportTypeError)
    ensures old(Lookup(channels, channelId)) != null && old(Lookup(channels, channelId)).transport != null ==>
      var c := old(Lookup(channels, channelId));
      && c.transport.lastSyncDate ==
           (if run && Resolved(processor.env, c.channelType, c.connectors) != [] then Some(now) else old(c.transport.lastSyncDate))
      && c.transport.channel == old(c.transport.channel)
    ensures !run && old(Lookup(channels, channelId)) != null && old(Lookup(channels, channelId)).transport != null ==>
      old(Lookup(channels, channelId)).transport.lastSyncDate == old(Lookup(channels, channelId).transport.lastSyncDate)
    ensures |processor.events| >= |old(processor.events)|
    ensures output.lines == old(output.lines) + [Description]
      + LoggedLines(processor.events[|old(processor.events)|..])
      + (if r.Ok? then [Completed] else [])
  {
    ghost var c := Lookup(channels, channelId);
    ghost var t := if c != null then c.transport else null;
    label start:
    output.WriteLn(Description);
    assert Lookup(channels, channelId) == c;
    assert c != null ==> unchanged@start(c);
    assert t != null ==> unchanged@start(t);
    var before := processor.events;
    r := RunWithClosure(processor, channels, channelId, run, now);
    label run:
    WriteRun(output, processor.events[|before|..], r.Ok?);
    assert c != null ==> unchanged@run(c);
    assert t != null ==> unchanged@run(t);
  }

  /** `setLogClosure($closure)->process($channelId, $force)`. */
  method RunWithClosure(processor: SyncProcessor, channels: seq<Channel>, channelId: string,
                        run: bool, now: Timestamp) returns (r: Result<(), string>)
    modifies processor, Target(channels, channelId)
    ensures processor.logging
    ensures old(Lookup(channels, channelId)) == null ==>
      r == Err(ChannelNotFound(channelId)) && processor.events == old(processor.events)
    ensures old(Lookup(channels, channelId)) != null ==>
      var c := old(Lookup(channels, channelId));
      && processor.events == old(processor.events) + RunPlan(processor.env, channelId, c, run, true)
      && (r.Err? <==> FailsOnTransport(processor.env, c))
      && (r.Err? ==> r.error == TransportTypeError)
    ensures old(Lookup(channels, channelId)) != null && old(Lookup(channels, channelId)).transport != null ==>
      var c := old(Lookup(channels, channelId));
      && c.transport.lastSyncDate ==
           (if run && Resolved(processor.env, c.channelType, c.connectors) != [] then Some(now) else old(c.transport.lastSyncDate))
      && c.transport.channel == old(c.transport.channel)
    ensures !run && old(Lookup(channels, channelId)) != null && old(Lookup(channels, channelId)).transport != null ==>
      old(Lookup(channels, channelId)).transport.lastSyncDate == old(Lookup(channels, channelId).transport.lastSyncDate)
    ensures |processor.events| >= |old(processor.events)|
  {
    ghost var c := Lookup(channels, channelId);
    var withClosure := processor.SetLogClosure();
    assert Lookup(channels, channelId) == c;
    r := withClosure.Process(channels, channelId, run, now);
    assert Lookup(channels, channelId) == c;
  }

  /** What follows the description: the closure's lines, then "Completed" when the run did not throw. */
  method WriteRun(output: Output, events: seq<Event>, completed: bool)
    modifies output
    ensures output.lines == old(output.lines) + LoggedLines(events) + (if completed then [Completed] else [])
  {
    output.WriteLines(LoggedLines(events));
    if completed {
      output.WriteLn(Completed);
    } else {
      AppendEmpty(output.lines);
    }
  }

  /**
   * A dry run (no `--run`) of a channel writes no sync date: the run's
   * events never persist or flush, whichever connectors resolve. That the
   * transport's lastSyncDate itself stays as it was is an ensures of
   * RunWithClosure and Execute.
   */
  lemma DryRunWritesNothing(env: SyncEnv, channelName: string, channelType: Option<string>,
                             connectors: seq<string>, hasTransport: bool)
    ensures var events := Plan(env, channelName, channelType, connectors, false, true, hasTransport);
      forall k :: 0 <= k < |events| ==> !events[k].Persisted? && !events[k].Flushed?
  {
    PlanConformsToMode(env, channelName, channelType, connectors, false, true, hasTransport);
  }
}
