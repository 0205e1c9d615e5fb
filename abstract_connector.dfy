/**
 * The connector base class (Provider/AbstractConnector.php): a lazily
 * connected transport, the channel it is configured for, and the sync
 * processors every fetched batch is fanned out to. The transport's `init`
 * and `call` and the processors' `process` are oracles fixed at
 * construction; the calls made on them are recorded in order. The channel's
 * settings (`getSettings`) are not declared by Channel.php, so `init` is
 * given the channel itself.
 */
module Connectors {

  import opened Wrappers
  import opened Php
  import opened Entity

  const NoChannelMessage := "There's no configured channel in connector"

  /** A call made on the transport. */
  datatype TransportCall = Init(channel: Channel) | Call(action: string, params: Value)

  /** `$processor->process($batch)` on the processor registered with the given handle. */
  datatype ProcessorCall = ProcessorCall(processor: nat, batch: Value)

  /** The calls processSyncBatch makes: every registered processor, in registration order. */
  function BatchCalls(processors: seq<nat>, batch: Value): (r: seq<ProcessorCall>)
    ensures |r| == |processors|
    ensures forall k :: 0 <= k < |r| ==> r[k] == ProcessorCall(processors[k], batch)
  {
    seq(|processors|, k requires 0 <= k < |processors| => ProcessorCall(processors[k], batch))
  }

  /**
   * The foreach of processSyncBatch, which overwrites `$result` on every
   * processor, followed by `!empty($result)`: the last processor's result
   * decides alone, and no processor means false.
   */
  function BatchOutcome(process: (nat, Value) -> Value, processors: seq<nat>, batch: Value): (b: bool)
    ensures b <==> |processors| > 0 && Truthy(process(processors[|processors| - 1], batch))
  {
    if processors == [] then false
    else
      var rest := processors[1..];
      if rest == [] then Truthy(process(processors[0], batch))
      else
        assert rest[|rest| - 1] == processors[|processors| - 1];
        BatchOutcome(process, rest, batch)
  }

  class Connector {
    /** What `transport->init(settings)` answers for a channel. */
    const init: Channel -> Value
    /** What `transport->call(action, params)` answers. */
    const respond: (string, Value) -> Value
    /** What a registered processor's `process(batch)` answers. */
    const process: (nat, Value) -> Value

    var channel: Channel?
    /** Whatever the last init returned; initially false. */
    var isConnected: Value
    /** The registered processors, as handles into `process`. */
    var processors: seq<nat>
    var transportCalls: seq<TransportCall>
    var processorCalls: seq<ProcessorCall>

    constructor (initOracle: Channel -> Value, respondOracle: (string, Value) -> Value,
                 processOracle: (nat, Value) -> Value)
      ensures init == initOracle && respond == respondOracle && process == processOracle
      ensures channel == null && isConnected == Bool(false) && processors == []
      ensures transportCalls == [] && processorCalls == []
    {
      init := initOracle;
      respond := respondOracle;
      process := processOracle;
      channel := null;
      isConnected := Bool(false);
      processors := [];
      transportCalls := [];
      processorCalls := [];
    }

    /**
     * connect: fails without a channel; otherwise the transport's init result
     * becomes `isConnected` and is returned.
     */
    method Connect() returns (r: Result<Value, string>)
      modifies this`isConnected, this`transportCalls
      ensures channel == null ==>
        r == Err(NoChannelMessage) && isConnected == old(isConnected) && transportCalls == old(transportCalls)
      ensures channel != null ==>
        && r == Ok(init(channel)) && isConnected == init(channel)
        && transportCalls == old(transportCalls) + [Init(channel)]
    {
      if channel == null {
        return Err(NoChannelMessage);
      }
      isConnected := init(channel);
      transportCalls := transportCalls + [Init(channel)];
      r := Ok(isConnected);
    }

    /**
     * call: connects first only when `isConnected` is exactly false (a
     * failed connect aborts the call), then delegates to the transport
     * whatever init answered.
     */
    method CallTransport(action: string, params: Value) returns (r: Result<Value, string>)
      modifies this`isConnected, this`transportCalls
      ensures old(isConnected) == Bool(false) && channel == null ==>
        r == Err(NoChannelMessage) && transportCalls == old(transportCalls) && isConnected == old(isConnected)
      ensures old(isConnected) == Bool(false) && channel != null ==>
        && r == Ok(respond(action, params)) && isConnected == init(channel)
        && transportCalls == old(transportCalls) + [Init(channel), Call(action, params)]
      ensures old(isConnected) != Bool(false) ==>
        && r == Ok(respond(action, params)) && isConnected == old(isConnected)
        && transportCalls == old(transportCalls) + [Call(action, params)]
    {
      if isConnected == Bool(false) {
        var connected := Connect();
        if connected.Err? {
          return Err(connected.error);
        }
      }
      transportCalls := transportCalls + [Call(action, params)];
      r := Ok(respond(action, params));
    }

    /** setChannel: only the channel changes; returns the connector. */
    method SetChannel(c: Channel) returns (r: Connector)
      modifies this`channel
      ensures r == this && channel == c
    {
      channel := c;
      r := this;
    }

    /** addSyncProcessor: appends; the processors registered before stay as they were. */
    method AddSyncProcessor(p: nat)
      modifies this`processors
      ensures processors == old(processors) + [p]
      ensures processors[..|old(processors)|] == old(processors)
    {
      processors := processors + [p];
    }

    /** processSyncBatch: every processor once, in order; the last result decides. */
    method ProcessSyncBatch(batch: Value) returns (b: bool)
      modifies this`processorCalls
      ensures processorCalls == old(processorCalls) + BatchCalls(processors, batch)
      ensures b == BatchOutcome(process, processors, batch)
    {
      var result: Option<Value> := None;
      var i := 0;
      while i < |processors|
        invariant 0 <= i <= |processors|
        invariant processorCalls == old(processorCalls) + BatchCalls(processors[..i], batch)
        invariant result == if i == 0 then None else Some(process(processors[i - 1], batch))
      {
        result := Some(process(processors[i], batch));
        processorCalls := processorCalls + [ProcessorCall(processors[i], batch)];
        assert BatchCalls(processors[..i + 1], batch) == BatchCalls(processors[..i], batch) + [ProcessorCall(processors[i], batch)];
        i := i + 1;
      }
      assert processors[..i] == processors;
      b := result.Some? && Truthy(result.value);
    }
  }
}
