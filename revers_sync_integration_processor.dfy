/**
 * The message-queue handler for "reverse sync requested" messages
 * (Async/ReversSyncIntegrationProcessor.php). It fills in the message's
 * defaults, rejects a message without an integration id, and runs the reverse
 * synchronisation of one integration inside a unique job named after the
 * integration id. The collaborators (entity manager, types registry, job
 * runner, reverse-sync processor) are oracles in `Env`; every call made to
 * them is recorded, in order, in the run's `calls`.
 */
module Async {

  import opened Wrappers
  import opened Php

  datatype Topic = ReversSyncIntegration

  /** The topics this processor consumes: only the reverse-sync topic. */
  function SubscribedTopics(): (r: seq<Topic>)
    ensures |r| == 1 && forall t :: t in r <==> t == ReversSyncIntegration
  {
    [ReversSyncIntegration]
  }

  /** What the processor tells the message queue. */
  datatype Status = Ack | Reject

  /** The exceptions the handler lets escape. */
  datatype Failure =
    | MalformedJson                       // raised while decoding the body
    | InvalidMessage                      // "The message invalid. It must have integrationId set"
    | ConnectorTypeUnknown(text: string)  // raised by the types registry
    | NotTwoWay(text: string)             // "Unable to perform revers sync for integration ..."
    | ReverseSyncFailed(text: string)     // raised by the reverse-sync processor

  /** A queue message; `decodedBody` is None when the body is not valid JSON. */
  datatype Message = Message(messageId: string, decodedBody: Option<Value>)

  /** What `find` returns for an integration: its id, type and enabled flag. */
  datatype Integration = Integration(id: Option<int>, integrationType: Option<string>, enabled: bool)

  datatype ConnectorKind = OneWay | TwoWay

  /** The collaborators. */
  datatype Env = Env(
    /** EntityManager::find(Integration::class, id). */
    find: Value -> Option<Integration>,
    /** TypesRegistry::getConnectorType(type, name); Err carries the message of what the registry raises. */
    connectorType: (Option<string>, Value) -> Result<ConnectorKind, string>,
    /** The unique job is already running: runUnique returns a falsy value without running the closure. */
    alreadyRunning: bool,
    /** ReverseSyncProcessor::process(integration, connector, parameters): the message of what it raises, if anything. */
    reverseSync: (Integration, Value, Value) -> Option<string>)

  /** A call made to a collaborator. */
  datatype Call =
    | RunUnique(ownerId: string, jobName: string)
    | Find(id: Value)
    | GetConnectorType(integrationType: Option<string>, connector: Value)
    | ReverseSync(integration: Integration, connector: Value, parameters: Value)

  /** The outcome of handling a message and the calls made on the way. */
  datatype Run<T> = Run(outcome: Result<T, Failure>, calls: seq<Call>)

  type Body = map<Key, Value>

  const IntegrationIdKey := StrKey("integrationId")
  const ConnectorKey := StrKey("connector")
  const ConnectorParametersKey := StrKey("connector_parameters")
  const JobNamePrefix := "oro_integration:revers_sync_integration:"

  function Defaults(): Body
  {
    map[IntegrationIdKey := Null, ConnectorKey := Null, ConnectorParametersKey := Arr(map[])]
  }

  /**
   * `array_replace_recursive(defaults, body)`. The defaults hold no non-empty
   * array, so replacing recursively is replacing key by key. A body that is
   * not an array makes the call return null.
   */
  function WithDefaults(body: Value): (r: Option<Body>)
    ensures body.Arr? <==> r.Some?
    ensures r.Some? ==> r.value.Keys == body.entries.Keys + {IntegrationIdKey, ConnectorKey, ConnectorParametersKey}
    ensures r.Some? ==> forall k :: k in body.entries ==> r.value[k] == body.entries[k]
    ensures r.Some? && IntegrationIdKey !in body.entries ==> r.value[IntegrationIdKey] == Null
    ensures r.Some? && ConnectorKey !in body.entries ==> r.value[ConnectorKey] == Null
    ensures r.Some? && ConnectorParametersKey !in body.entries ==> r.value[ConnectorParametersKey] == Arr(map[])
  {
    if body.Arr? then Some(Defaults() + body.entries) else None
  }

  /** A field of a body that went through WithDefaults (or null). */
  function Field(b: Body, k: Key): Value
  {
    if k in b then b[k] else Null
  }

  function JobName(integrationId: Value): (r: string)
    ensures |r| >= |JobNamePrefix| && r[..|JobNamePrefix|] == JobNamePrefix
    ensures r[|JobNamePrefix|..] == ToPhpString(integrationId)
  {
    JobNamePrefix + ToPhpString(integrationId)
  }

  /** `sprintf('%s', $integration->getId())`: null prints as the empty string. */
  function IdText(id: Option<int>): string
  {
    if id.Some? then IntToString(id.value) else ""
  }

  function NotTwoWayText(integration: Integration, connector: Value): string
  {
    "Unable to perform revers sync for integration \"" + IdText(integration.id)
      + "\" and connector type \"" + ToPhpString(connector) + "\""
  }

  /**
   * The closure handed to runUnique: look the integration up, give up
   * (false) when it is missing or disabled, insist on a two-way connector,
   * then run the reverse synchronisation and report true.
   */
  function Closure(b: Body, env: Env): (r: Run<bool>)
    ensures |r.calls| >= 1 && r.calls[0] == Find(Field(b, IntegrationIdKey))
    ensures r.outcome == Ok(false) <==>
      env.find(Field(b, IntegrationIdKey)).None? || !env.find(Field(b, IntegrationIdKey)).value.enabled
    ensures !Enabled(b, env) ==> r == Run(Ok(false), [Find(Field(b, IntegrationIdKey))])
    ensures ReverseSyncCalled(r.calls) <==> Enabled(b, env) && ConnectorIsTwoWay(b, env)
    ensures r.outcome == Ok(true) <==> ReverseSyncCalled(r.calls) && ReverseSyncSucceeds(b, env)
    ensures Enabled(b, env) ==>
      var integration := env.find(Field(b, IntegrationIdKey)).value;
      var kind := env.connectorType(integration.integrationType, Field(b, ConnectorKey));
      && |r.calls| >= 2
      && r.calls[..2] == [Find(Field(b, IntegrationIdKey)), GetConnectorType(integration.integrationType, Field(b, ConnectorKey))]
      && (kind.Err? ==> r == Run(Err(ConnectorTypeUnknown(kind.error)), r.calls[..2]))
      && (kind == Ok(OneWay) ==> r == Run(Err(NotTwoWay(NotTwoWayText(integration, Field(b, ConnectorKey)))), r.calls[..2]))
      && (ReverseSyncCalled(r.calls) ==>
            && r.calls[2..] == [ReverseSync(integration, Field(b, ConnectorKey), Field(b, ConnectorParametersKey))]
            && var raised := env.reverseSync(integration, Field(b, ConnectorKey), Field(b, ConnectorParametersKey));
               raised.Some? ==> r.outcome == Err(ReverseSyncFailed(raised.value)))
  {
    var id := Field(b, IntegrationIdKey);
    var connector := Field(b, ConnectorKey);
    var found := env.find(id);
    if found.None? || !found.value.enabled then
      Run(Ok(false), [Find(id)])
    else
      var integration := found.value;
      var lookup := [Find(id), GetConnectorType(integration.integrationType, connector)];
      match env.connectorType(integration.integrationType, connector)
      case Err(text) => Run(Err(ConnectorTypeUnknown(text)), lookup)
      case Ok(OneWay) => Run(Err(NotTwoWay(NotTwoWayText(integration, connector))), lookup)
      case Ok(TwoWay) =>
        var parameters := Field(b, ConnectorParametersKey);
        var calls := lookup + [ReverseSync(integration, connector, parameters)];
        assert calls[2].ReverseSync? && calls[2..] == [calls[2]];
        match env.reverseSync(integration, connector, parameters)
        case Some(text) => Run(Err(ReverseSyncFailed(text)), calls)
        case None => Run(Ok(true), calls)
  }

  /** The integration is found and enabled. */
  predicate Enabled(b: Body, env: Env)
  {
    env.find(Field(b, IntegrationIdKey)).Some? && env.find(Field(b, IntegrationIdKey)).value.enabled
  }

  /** The registry resolves the found integration's connector to a two-way one. */
  predicate ConnectorIsTwoWay(b: Body, env: Env)
    requires Enabled(b, env)
  {
    var integration := env.find(Field(b, IntegrationIdKey)).value;
    env.connectorType(integration.integrationType, Field(b, ConnectorKey)) == Ok(TwoWay)
  }

  /** The reverse-sync processor, called on the found integration, raises nothing. */
  predicate ReverseSyncSucceeds(b: Body, env: Env)
  {
    && Enabled(b, env)
    && var integration := env.find(Field(b, IntegrationIdKey)).value;
       env.reverseSync(integration, Field(b, ConnectorKey), Field(b, ConnectorParametersKey)).None?
  }

  predicate ReverseSyncCalled(calls: seq<Call>)
  {
    exists k :: 0 <= k < |calls| && calls[k].ReverseSync?
  }

  /** Number of RunUnique calls in a call sequence. */
  function RunUniqueCount(calls: seq<Call>): nat
  {
    if calls == [] then 0 else (if calls[0].RunUnique? then 1 else 0) + RunUniqueCount(calls[1..])
  }

  /**
   * The handler. `message invalid` is raised before any collaborator is
   * called; otherwise exactly one unique run is requested, keyed by the job
   * name and owned by the message id, and the status is ACK exactly when the
   * run's result is truthy.
   */
  function Process(message: Message, env: Env): (r: Run<Status>)
    ensures message.decodedBody.None? ==> r == Run(Err(MalformedJson), [])
    ensures message.decodedBody.Some? && !IsValid(message.decodedBody.value) ==> r == Run(Err(InvalidMessage), [])
    ensures r.outcome == Err(InvalidMessage) ==> r.calls == []
    ensures message.decodedBody.Some? && IsValid(message.decodedBody.value) ==>
      && |r.calls| >= 1
      && r.calls[0] == RunUnique(message.messageId, JobName(message.decodedBody.value.entries[IntegrationIdKey]))
      && RunUniqueCount(r.calls) == 1
    ensures env.alreadyRunning && r.calls != [] ==> r == Run(Ok(Reject), r.calls[..1])
    ensures r.outcome == Ok(Ack) <==> r.calls != [] && Closure(MergedBody(message), env).outcome == Ok(true) && !env.alreadyRunning
    ensures r.outcome == Ok(Reject) <==> r.calls != [] && (env.alreadyRunning || Closure(MergedBody(message), env).outcome == Ok(false))
    ensures RunsClosure(message, env) ==>
      var inner := Closure(MergedBody(message), env);
      && r.calls[1..] == inner.calls
      && (inner.outcome.Err? ==> r.outcome == Err(inner.outcome.error))
  {
    match message.decodedBody
    case None => Run(Err(MalformedJson), [])
    case Some(decoded) =>
      if !IsValid(decoded) then Run(Err(InvalidMessage), [])
      else
        var b := WithDefaults(decoded).value;
        var start := RunUnique(message.messageId, JobName(Field(b, IntegrationIdKey)));
        if env.alreadyRunning then Run(Ok(Reject), [start])
        else
          var inner := Closure(b, env);
          ClosureCallsHaveNoRunUnique(b, env);
          var calls := [start] + inner.calls;
          assert calls[1..] == inner.calls;
          match inner.outcome
          case Err(e) => Run(Err(e), calls)
          case Ok(result) => Run(Ok(if result then Ack else Reject), calls)
  }

  /** The message passes the checks and its unique job is not already running, so the closure runs. */
  predicate RunsClosure(message: Message, env: Env)
  {
    message.decodedBody.Some? && IsValid(message.decodedBody.value) && !env.alreadyRunning
  }

  /** A decoded body passes the integrationId check. */
  predicate IsValid(decoded: Value)
  {
    decoded.Arr? && Truthy(Field(WithDefaults(decoded).value, IntegrationIdKey))
  }

  /** The body after WithDefaults, for a message whose body decoded to an array. */
  function MergedBody(message: Message): Body
  {
    if message.decodedBody.Some? && message.decodedBody.value.Arr? then WithDefaults(message.decodedBody.value).value else map[]
  }

  /**
   * A redelivered message (same body, another message id) asks for the same
   * unique job under a different owner.
   */
  lemma RedeliveryKeepsJobName(m1: Message, m2: Message, env: Env)
    requires m1.decodedBody == m2.decodedBody && m1.decodedBody.Some? && IsValid(m1.decodedBody.value)
    ensures Process(m1, env).calls[0].jobName == Process(m2, env).calls[0].jobName
    ensures Process(m1, env).calls[0].ownerId == m1.messageId
    ensures Process(m2, env).calls[0].ownerId == m2.messageId
  {
  }

  lemma ClosureCallsHaveNoRunUnique(b: Body, env: Env)
    ensures RunUniqueCount(Closure(b, env).calls) == 0
  {
    var calls := Closure(b, env).calls;
    assert forall k :: 0 <= k < |calls| ==> !calls[k].RunUnique?;
    NoRunUniqueCountsZero(calls);
  }

  lemma {:induction false} NoRunUniqueCountsZero(calls: seq<Call>)
    requires forall k :: 0 <= k < |calls| ==> !calls[k].RunUnique?
    ensures RunUniqueCount(calls) == 0
  {
    if calls != [] {
      NoRunUniqueCountsZero(calls[1..]);
    }
  }

  /** Number of calls to the reverse-sync processor in a call sequence. */
  function ReverseSyncCount(calls: seq<Call>): nat
  {
    if calls == [] then 0 else (if calls[0].ReverseSync? then 1 else 0) + ReverseSyncCount(calls[1..])
  }

  /**
   * The handler calls the reverse-sync processor at most once: exactly when
   * the closure runs and finds an enabled integration with a two-way
   * connector. A missing or disabled integration, a one-way connector, an
   * invalid message or a job already running means no call at all.
   */
  lemma ReverseSyncRunsOnce(message: Message, env: Env)
    ensures ReverseSyncCount(Process(message, env).calls) ==
      if RunsClosure(message, env) && Enabled(MergedBody(message), env) && ConnectorIsTwoWay(MergedBody(message), env)
      then 1 else 0
  {
    var calls := Process(message, env).calls;
    if calls != [] {
      assert calls == [calls[0]] + calls[1..];
      ReverseSyncCountAppend([calls[0]], calls[1..]);
      if RunsClosure(message, env) {
        ClosureReverseSyncCount(MergedBody(message), env);
      } else {
        assert calls[1..] == [];
      }
    }
  }

  /** The closure calls the reverse-sync processor once when the integration is enabled and two-way, and never otherwise. */
  lemma ClosureReverseSyncCount(b: Body, env: Env)
    ensures ReverseSyncCount(Closure(b, env).calls) == if Enabled(b, env) && ConnectorIsTwoWay(b, env) then 1 else 0
  {
    var calls := Closure(b, env).calls;
    if Enabled(b, env) {
      assert calls == calls[..2] + calls[2..];
      ReverseSyncCountAppend(calls[..2], calls[2..]);
      assert calls[..2][1..] == [calls[1]];
      if ConnectorIsTwoWay(b, env) {
        assert calls[2..][1..] == [];
      } else {
        assert calls[2..] == [];
      }
    }
  }

  lemma {:induction false} ReverseSyncCountAppend(a: seq<Call>, b: seq<Call>)
    ensures ReverseSyncCount(a + b) == ReverseSyncCount(a) + ReverseSyncCount(b)
    decreases |a|
  {
    if a == [] {
      assert a + b == b;
    } else {
      assert (a + b)[0] == a[0] && (a + b)[1..] == a[1..] + b;
      ReverseSyncCountAppend(a[1..], b);
    }
  }

  /**
   * A message for an enabled integration whose connector is one-way makes the
   * handler raise "Unable to perform revers sync …" without calling the
   * reverse-sync processor.
   */
  lemma OneWayConnectorRaises(message: Message, env: Env)
    requires RunsClosure(message, env) && Enabled(MergedBody(message), env)
    requires var b := MergedBody(message);
      env.connectorType(env.find(Field(b, IntegrationIdKey)).value.integrationType, Field(b, ConnectorKey)) == Ok(OneWay)
    ensures var b := MergedBody(message);
      Process(message, env).outcome
        == Err(NotTwoWay(NotTwoWayText(env.find(Field(b, IntegrationIdKey)).value, Field(b, ConnectorKey))))
    ensures ReverseSyncCount(Process(message, env).calls) == 0
  {
    ReverseSyncRunsOnce(message, env);
  }
}
