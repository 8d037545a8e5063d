/**
 * The backend client handle a plugin registry entry may hold, and the values
 * that travel through it. The request and response types of the plugin SDK are
 * opaque here: each carries its wire bytes and nothing else is looked at.
 *
 * A client is an arbitrary deterministic process: it records every call it
 * receives, and its answer to a call is a function (its Behaviour) of the whole
 * sequence of calls received so far, the current one last. No assumption is
 * made about what that function is, so whatever the model proves about a
 * registry entry holds for every client.
 */
module Backend {
  import opened Wrappers
  import opened Bytes

  /** A cancellable execution context; cancellation itself is not modelled. */
  datatype Context = Context(token: nat)

  datatype QueryDataRequest = QueryDataRequest(raw: seq<byte>)
  datatype QueryDataResponse = QueryDataResponse(raw: seq<byte>)
  datatype CallResourceRequest = CallResourceRequest(raw: seq<byte>)
  /** The callback through which a resource call streams its response chunks. */
  datatype CallResourceResponseSender = CallResourceResponseSender(token: nat)
  datatype CheckHealthRequest = CheckHealthRequest(raw: seq<byte>)
  datatype CheckHealthResult = CheckHealthResult(raw: seq<byte>)
  datatype CollectMetricsRequest = CollectMetricsRequest(raw: seq<byte>)
  datatype CollectMetricsResult = CollectMetricsResult(raw: seq<byte>)
  datatype SubscribeStreamRequest = SubscribeStreamRequest(raw: seq<byte>)
  datatype SubscribeStreamResponse = SubscribeStreamResponse(raw: seq<byte>)
  datatype PublishStreamRequest = PublishStreamRequest(raw: seq<byte>)
  datatype PublishStreamResponse = PublishStreamResponse(raw: seq<byte>)
  datatype RunStreamRequest = RunStreamRequest(raw: seq<byte>)
  /** The sender through which a running stream pushes its data. */
  datatype StreamSender = StreamSender(token: nat)

  /** The errors a registry entry can return. */
  datatype Error =
    | PluginUnavailable                  // backendplugin.ErrPluginUnavailable: no client attached
    | NoClientToStart(pluginID: string)  // Start on an entry without a client
    | BackendFailure(message: string)    // whatever the client itself reports, passed on verbatim

  /** A Go `(*Response, error)` pair: either half may be nil. */
  datatype Reply<+T> = Reply(response: Option<T>, err: Option<Error>)

  /** The reply of every request/response passthrough when no client is attached. */
  function Unavailable<T>(): (r: Reply<T>)
    ensures r.response.None? && r.err == Some(PluginUnavailable)
  {
    Reply(None, Some(PluginUnavailable))
  }

  /** One call received by a client, with its arguments. */
  datatype Call =
    | StartCall(ctx: Context)
    | StopCall(ctx: Context)
    | DecommissionCall
    | QueryDataCall(ctx: Context, queryReq: QueryDataRequest)
    | CallResourceCall(ctx: Context, resourceReq: CallResourceRequest, resourceSender: CallResourceResponseSender)
    | CheckHealthCall(ctx: Context, healthReq: CheckHealthRequest)
    | CollectMetricsCall(ctx: Context, metricsReq: CollectMetricsRequest)
    | SubscribeStreamCall(ctx: Context, subscribeReq: SubscribeStreamRequest)
    | PublishStreamCall(ctx: Context, publishReq: PublishStreamRequest)
    | RunStreamCall(ctx: Context, runReq: RunStreamRequest, streamSender: StreamSender)

  /** How a client answers, given the calls it has received (the current one last). */
  datatype Behaviour = Behaviour(
    start: seq<Call> -> Option<Error>,
    stop: seq<Call> -> Option<Error>,
    decommission: seq<Call> -> Option<Error>,
    queryData: seq<Call> -> Reply<QueryDataResponse>,
    callResource: seq<Call> -> Option<Error>,
    checkHealth: seq<Call> -> Reply<CheckHealthResult>,
    collectMetrics: seq<Call> -> Reply<CollectMetricsResult>,
    subscribeStream: seq<Call> -> Reply<SubscribeStreamResponse>,
    publishStream: seq<Call> -> Reply<PublishStreamResponse>,
    runStream: seq<Call> -> Option<Error>,
    // the process-state queries read the history without adding to it
    isManaged: seq<Call> -> bool,
    isDecommissioned: seq<Call> -> bool,
    exited: seq<Call> -> bool)

  /** A live connection to a plugin's backend process (backendplugin.Plugin). */
  class BackendClient {
    const behaviour: Behaviour
    var history: seq<Call>

    constructor (b: Behaviour)
      ensures behaviour == b && history == []
    {
      behaviour := b;
      history := [];
    }

    method Start(ctx: Context) returns (err: Option<Error>)
      modifies this
      ensures history == old(history) + [StartCall(ctx)]
      ensures err == behaviour.start(history)
    {
      history := history + [StartCall(ctx)];
      err := behaviour.start(history);
    }

    method Stop(ctx: Context) returns (err: Option<Error>)
      modifies this
      ensures history == old(history) + [StopCall(ctx)]
      ensures err == behaviour.stop(history)
    {
      history := history + [StopCall(ctx)];
      err := behaviour.stop(history);
    }

    method Decommission() returns (err: Option<Error>)
      modifies this
      ensures history == old(history) + [DecommissionCall]
      ensures err == behaviour.decommission(history)
    {
      history := history + [DecommissionCall];
      err := behaviour.decommission(history);
    }

    method QueryData(ctx: Context, req: QueryDataRequest) returns (r: Reply<QueryDataResponse>)
      modifies this
      ensures history == old(history) + [QueryDataCall(ctx, req)]
      ensures r == behaviour.queryData(history)
    {
      history := history + [QueryDataCall(ctx, req)];
      r := behaviour.queryData(history);
    }

    method CallResource(ctx: Context, req: CallResourceRequest, sender: CallResourceResponseSender)
      returns (err: Option<Error>)
      modifies this
      ensures history == old(history) + [CallResourceCall(ctx, req, sender)]
      ensures err == behaviour.callResource(history)
    {
      history := history + [CallResourceCall(ctx, req, sender)];
      err := behaviour.callResource(history);
    }

    method CheckHealth(ctx: Context, req: CheckHealthRequest) returns (r: Reply<CheckHealthResult>)
      modifies this
      ensures history == old(history) + [CheckHealthCall(ctx, req)]
      ensures r == behaviour.checkHealth(history)
    {
      history := history + [CheckHealthCall(ctx, req)];
      r := behaviour.checkHealth(history);
    }

    method CollectMetrics(ctx: Context, req: CollectMetricsRequest) returns (r: Reply<CollectMetricsResult>)
      modifies this
      ensures history == old(history) + [CollectMetricsCall(ctx, req)]
      ensures r == behaviour.collectMetrics(history)
    {
      history := history + [CollectMetricsCall(ctx, req)];
      r := behaviour.collectMetrics(history);
    }

    method SubscribeStream(ctx: Context, req: SubscribeStreamRequest) returns (r: Reply<SubscribeStreamResponse>)
      modifies this
      ensures history == old(history) + [SubscribeStreamCall(ctx, req)]
      ensures r == behaviour.subscribeStream(history)
    {
      history := history + [SubscribeStreamCall(ctx, req)];
      r := behaviour.subscribeStream(history);
    }

    method PublishStream(ctx: Context, req: PublishStreamRequest) returns (r: Reply<PublishStreamResponse>)
      modifies this
      ensures history == old(history) + [PublishStreamCall(ctx, req)]
      ensures r == behaviour.publishStream(history)
    {
      history := history + [PublishStreamCall(ctx, req)];
      r := behaviour.publishStream(history);
    }

    method RunStream(ctx: Context, req: RunStreamRequest, sender: StreamSender) returns (err: Option<Error>)
      modifies this
      ensures history == old(history) + [RunStreamCall(ctx, req, sender)]
      ensures err == behaviour.runStream(history)
    {
      history := history + [RunStreamCall(ctx, req, sender)];
      err := behaviour.runStream(history);
    }

    function IsManaged(): bool
      reads this
    {
      behaviour.isManaged(history)
    }

    function IsDecommissioned(): bool
      reads this
    {
      behaviour.isDecommissioned(history)
    }

    function Exited(): bool
      reads this
    {
      behaviour.exited(history)
    }
  }
}
