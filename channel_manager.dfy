/** The channel registry of `src/core/ChannelManager.ts`: channels and
    their processors by id, the MLLP server of each deployed TCP channel,
    and the answer the server's `message` handler gives. Starting and
    stopping a server are abstract actions that succeed or fail with an
    error passed in. */
module ChannelManager {
  import opened Wrappers
  import opened JsValue
  import opened Models
  import opened ChannelProcessor
  import MLLPServer
  import HL7Parser

  const TcpListener := Str("TCP Listener")

  const MissingProperties := Error("Missing TCP listener properties")

  function NotFound(channelId: string): Exception {
    Error("Channel not found: " + channelId)
  }

  // ---------------------------------------------------------------- the message handler

  /** The response the `message` handler passes back: the source result's
      message when there is a result, `''` when the message was filtered out
      or processing threw. */
  function Response(result: Result<Option<ProcessResult>, Exception>): (r: Value)
    ensures result.Success? && result.value.Some? ==> r == result.value.value.sourceResult.message
    ensures !(result.Success? && result.value.Some?) ==> r == Str("")
  {
    match result
    case Success(Some(pr)) => pr.sourceResult.message
    case _ => Str("")
  }

  /** The handler of a channel with a processor, as a listener of the MLLP
      server: an `async` function that catches every error, so it never
      throws out of `emit` and calls back exactly once, after awaiting the
      processor. */
  function ChannelListener(engine: Engine, pre: Value, source: Connector, ds: seq<Connector>, post: Value): Value -> MLLPServer.Emission {
    m => MLLPServer.Emission([], None, [Response(ProcessEval(engine, pre, source, ds, post, m).outcome)])
  }

  /** Neither a filtered message nor a processing error gets a NACK: both
      are answered with an `AA` ACK quoting the message's control id. */
  lemma FilteredOrFailedIsAcked(engine: Engine, pre: Value, source: Connector, ds: seq<Connector>, post: Value,
                                message: string, clock: MLLPServer.Clock)
    requires var r := ProcessEval(engine, pre, source, ds, post, HL7Parser.Decoded(message)).outcome;
             !(r.Success? && r.value.Some?)
    ensures MLLPServer.ProcessMessage(message, ChannelListener(engine, pre, source, ds, post), clock)
         == [HL7Parser.AddMllpFraming(MLLPServer.CreateAckMessage(MLLPServer.MessageControlId(message), "AA", "", clock))]
  {
    MLLPServer.ShouldAckCases(Str(""));
  }

  /** A processed message whose source output is a non-empty string is sent
      back framed, as it is. */
  lemma ProcessedTextIsSent(engine: Engine, pre: Value, source: Connector, ds: seq<Connector>, post: Value,
                            message: string, clock: MLLPServer.Clock)
    requires var r := ProcessEval(engine, pre, source, ds, post, HL7Parser.Decoded(message)).outcome;
             r.Success? && r.value.Some? && r.value.value.sourceResult.message.Str? &&
             !MLLPServer.ShouldAck(r.value.value.sourceResult.message)
    ensures var r := ProcessEval(engine, pre, source, ds, post, HL7Parser.Decoded(message)).outcome;
            (MLLPServer.ProcessMessage(message, ChannelListener(engine, pre, source, ds, post), clock)
             == [HL7Parser.AddMllpFraming(r.value.value.sourceResult.message.s)])
  {
  }

  // ---------------------------------------------------------------- the registry

  class ChannelManager {
    const engine: Engine
    var channels: map<Value, Channel>
    var processors: map<Value, ChannelProcessor>
    var servers: map<Value, MLLPServer.Server>
    var debugMode: bool

    /** Every channel has its processor, built on that channel and this
        manager's engine, and no two channels share a server (each server is
        created for the channel it is recorded under). */
    ghost predicate Valid()
      reads this, processors.Values
    {
      && channels.Keys == processors.Keys
      && (forall id | id in processors :: processors[id].channel == channels[id] && processors[id].engine == engine)
      && (forall a, b | a in servers && b in servers && a != b :: servers[a] != servers[b])
    }

    /** `new ChannelManager(debugMode)`; `engine` stands for the
        `JavaScriptExecutor` each processor creates. */
    constructor(engine: Engine, debugMode: bool)
      ensures Valid()
      ensures this.engine == engine && this.debugMode == debugMode
      ensures channels == map[] && processors == map[] && servers == map[]
    {
      this.engine := engine;
      this.debugMode := debugMode;
      channels := map[];
      processors := map[];
      servers := map[];
    }

    /** `addChannel(channel)`: the channel and a new processor for it are
        stored under its id, replacing any earlier entry. */
    method AddChannel(channel: Channel)
      requires Valid()
      modifies this
      ensures Valid()
      ensures channels == old(channels)[channel.id := channel]
      ensures channel.id in processors && fresh(processors[channel.id])
      ensures processors[channel.id].debugMode == debugMode
      ensures processors == old(processors)[channel.id := processors[channel.id]]
      ensures servers == old(servers) && debugMode == old(debugMode)
      ensures GetChannel(channel.id) == Some(channel)
    {
      channels := channels[channel.id := channel];
      var processor := new ChannelProcessor(channel, engine, debugMode);
      processors := processors[channel.id := processor];
    }

    /** `getChannel(channelId)` */
    function GetChannel(channelId: Value): (r: Option<Channel>)
      reads this
      ensures r.Some? <==> channelId in channels
      ensures r.Some? ==> r.value == channels[channelId]
    {
      if channelId in channels then Some(channels[channelId]) else None
    }

    /** `deployChannel(channelId)`: an unknown id throws `Channel not found`
        and changes nothing; otherwise the deploy script runs first, a throw
        there creates no server, and only a `TCP Listener` source gets one —
        recorded only once it has started. */
    method DeployChannel(channelId: string, listenError: Option<Exception>) returns (r: Eval<()>)
      requires Valid()
      modifies this
      ensures Valid()
      ensures channels == old(channels) && processors == old(processors) && debugMode == old(debugMode)
      ensures Str(channelId) !in channels ==> r == Eval(Failure(NotFound(channelId)), []) && servers == old(servers)
      ensures Str(channelId) in channels ==>
                var channel := channels[Str(channelId)];
                var deployed := LifecycleEval(engine, channel.deployScript);
                && r.runs == deployed.runs
                && (deployed.outcome.Failure? ==> r.outcome == deployed.outcome && servers == old(servers))
                && (deployed.outcome.Success? && channel.sourceConnector.transportName != TcpListener ==>
                      r.outcome == Success(()) && servers == old(servers))
                && (deployed.outcome.Success? && channel.sourceConnector.transportName == TcpListener ==>
                      var listener := ListenerProperties(channel.sourceConnector.properties);
                      && (listener.None? ==> r.outcome == Failure(MissingProperties) && servers == old(servers))
                      && (listener.Some? && listenError.Some? ==> r.outcome == Failure(listenError.value) && servers == old(servers))
                      && (listener.Some? && listenError.None? ==>
                            && r.outcome == Success(())
                            && channel.id in servers && fresh(servers[channel.id])
                            && servers == old(servers)[channel.id := servers[channel.id]]
                            && servers[channel.id].port == ParseIntValue(Get(listener.value, "port"))
                            && servers[channel.id].host == Or(Get(listener.value, "host"), Str("0.0.0.0"))
                            && servers[channel.id].listening))
    {
      if Str(channelId) !in channels || Str(channelId) !in processors {
        return Eval(Failure(NotFound(channelId)), []);
      }
      var channel := channels[Str(channelId)];
      var processor := processors[Str(channelId)];
      var deployed := processor.Deploy();
      if deployed.outcome.Failure? {
        return deployed;
      }
      if channel.sourceConnector.transportName != TcpListener {
        return deployed;
      }
      var started := SetupMllpServer(channel, listenError);
      if started.Fail? {
        return Eval(Failure(started.error), deployed.runs);
      }
      return deployed;
    }

    /** `setupMllpServer(channel)`: missing properties throw; the host
        defaults to every interface; the server is recorded under the
        channel's id only after `start` succeeds. */
    method SetupMllpServer(channel: Channel, listenError: Option<Exception>) returns (r: Outcome<Exception>)
      modifies this
      ensures channels == old(channels) && processors == old(processors) && debugMode == old(debugMode)
      ensures var listener := ListenerProperties(channel.sourceConnector.properties);
              && (listener.None? ==> r == Fail(MissingProperties) && servers == old(servers))
              && (listener.Some? && listenError.Some? ==> r == Fail(listenError.value) && servers == old(servers))
              && (listener.Some? && listenError.None? ==>
                    && r == Pass
                    && channel.id in servers && fresh(servers[channel.id])
                    && servers == old(servers)[channel.id := servers[channel.id]]
                    && servers[channel.id].port == ParseIntValue(Get(listener.value, "port"))
                    && servers[channel.id].host == Or(Get(listener.value, "host"), Str("0.0.0.0"))
                    && servers[channel.id].debugMode == debugMode
                    && servers[channel.id].listening)
    {
      var listener := ListenerProperties(channel.sourceConnector.properties);
      if listener.None? {
        return Fail(MissingProperties);
      }
      var port := ParseIntValue(Get(listener.value, "port"));
      var host := Or(Get(listener.value, "host"), Str("0.0.0.0"));
      var server := new MLLPServer.Server(port, host, debugMode);
      r := server.Start(listenError);
      if r.Fail? {
        return;
      }
      servers := servers[channel.id := server];
    }

    /** The handler's answer to one message: the processor is looked up when
        the message arrives; a missing one throws, which gives `''`. */
    method OnMessage(channelId: Value, message: Value) returns (response: Value)
      requires Valid()
      ensures channelId !in processors ==> response == Str("")
      ensures channelId in processors ==>
                var channel := channels[channelId];
                response == Response(ProcessEval(engine, channel.preprocessingScript, channel.sourceConnector,
                                                 channel.EnabledDestinations(), channel.postprocessingScript, message).outcome)
    {
      if channelId !in processors {
        return Str("");
      }
      var result := processors[channelId].ProcessMessage(message);
      response := Response(result.outcome);
    }

    /** `undeployChannel(channelId)`: an unknown id throws and changes
        nothing; the channel's server, if any, is stopped and removed before
        the undeploy script runs; a failed stop keeps the entry and skips the
        script. No other channel's server is touched. */
    method UndeployChannel(channelId: string, closeError: Option<Exception>) returns (r: Eval<()>)
      requires Valid()
      modifies this, if Str(channelId) in servers then {servers[Str(channelId)]} else {}
      ensures Valid()
      ensures channels == old(channels) && processors == old(processors) && debugMode == old(debugMode)
      ensures Str(channelId) !in channels ==> r == Eval(Failure(NotFound(channelId)), []) && servers == old(servers)
      ensures Str(channelId) in channels && Str(channelId) in old(servers) && closeError.Some? ==>
                r == Eval(Failure(closeError.value), []) && servers == old(servers)
      ensures Str(channelId) in channels && (Str(channelId) !in old(servers) || closeError.None?) ==>
                && r == LifecycleEval(engine, channels[Str(channelId)].undeployScript)
                && servers == old(servers) - {Str(channelId)}
      ensures Str(channelId) in channels && Str(channelId) in old(servers) ==>
                var server := old(servers)[Str(channelId)];
                && server.connections == map[]
                && server.debugMode == old(server.debugMode)
                && server.listening == (if closeError.None? then false else old(server.listening))
    {
      if Str(channelId) !in channels || Str(channelId) !in processors {
        return Eval(Failure(NotFound(channelId)), []);
      }
      var processor := processors[Str(channelId)];
      if Str(channelId) in servers {
        var server := servers[Str(channelId)];
        var stopped := server.Stop(closeError);
        if stopped.Fail? {
          return Eval(Failure(stopped.error), []);
        }
        servers := servers - {Str(channelId)};
      }
      r := processor.Undeploy();
    }

    /** `stopAllServers()`: every server is stopped, failures are logged
        and skipped, and the registry is emptied. A server whose close
        succeeded is no longer listening; one whose close failed keeps its
        state but loses its connections. */
    method StopAllServers(closeErrors: Value -> Option<Exception>)
      requires Valid()
      modifies this, servers.Values
      ensures Valid()
      ensures servers == map[]
      ensures channels == old(channels) && processors == old(processors) && debugMode == old(debugMode)
      ensures forall id | id in old(servers) ::
                && old(servers)[id].connections == map[]
                && old(servers)[id].debugMode == old(servers[id].debugMode)
                && old(servers)[id].listening == (if closeErrors(id).None? then false else old(servers[id].listening))
    {
      StopServers(servers, closeErrors);
      servers := map[];
    }

    /** `setDebugMode(debugMode)`: the manager, every processor and every
        server. */
    method SetDebugMode(debugMode: bool)
      requires Valid()
      modifies this, processors.Values, servers.Values
      ensures Valid()
      ensures this.debugMode == debugMode
      ensures channels == old(channels) && processors == old(processors) && servers == old(servers)
      ensures forall id | id in processors :: processors[id].debugMode == debugMode
      ensures forall id | id in servers :: servers[id].debugMode == debugMode
      ensures forall id | id in servers ::
                servers[id].listening == old(servers[id].listening) && servers[id].connections == old(servers[id].connections)
    {
      this.debugMode := debugMode;
      SetProcessorsDebugMode(processors, debugMode);
      SetServersDebugMode(servers, debugMode);
    }
  }

  /** What `stop` leaves of a server: no connections, and listening only
      when `close` failed and it was listening before. */
  ghost predicate StoppedAs(server: MLLPServer.Server, closeError: Option<Exception>, wasListening: bool)
    reads server
  {
    server.connections == map[] && server.listening == (if closeError.None? then false else wasListening)
  }

  /** The loop of `stopAllServers` over `this.servers`: each server is
      stopped with its own `close` outcome, and a failure does not keep the
      others from being stopped. */
  method StopServers(servers: map<Value, MLLPServer.Server>, closeErrors: Value -> Option<Exception>)
    requires forall a, b | a in servers && b in servers && a != b :: servers[a] != servers[b]
    modifies servers.Values
    ensures forall id | id in servers :: servers[id].debugMode == old(servers[id].debugMode)
    ensures forall id | id in servers :: StoppedAs(servers[id], closeErrors(id), old(servers[id].listening))
  {
    var left := servers.Keys;
    while left != {}
      invariant left <= servers.Keys
      invariant forall id | id in servers :: servers[id].debugMode == old(servers[id].debugMode)
      invariant forall id | id in servers.Keys - left :: StoppedAs(servers[id], closeErrors(id), old(servers[id].listening))
      invariant forall id | id in left :: servers[id].listening == old(servers[id].listening)
      decreases |left|
    {
      var id :| id in left;
      var _ := servers[id].Stop(closeErrors(id));
      left := left - {id};
    }
  }

  /** The loop over `this.processors.values()`. */
  method SetProcessorsDebugMode(processors: map<Value, ChannelProcessor>, debugMode: bool)
    modifies processors.Values
    ensures forall id | id in processors :: processors[id].debugMode == debugMode
  {
    var todo := processors.Keys;
    while todo != {}
      invariant todo <= processors.Keys
      invariant forall id | id in processors.Keys - todo :: processors[id].debugMode == debugMode
      decreases |todo|
    {
      var id :| id in todo;
      processors[id].SetDebugMode(debugMode);
      todo := todo - {id};
    }
  }

  /** The loop over `this.servers.values()`. */
  method SetServersDebugMode(servers: map<Value, MLLPServer.Server>, debugMode: bool)
    modifies servers.Values
    ensures forall id | id in servers :: servers[id].debugMode == debugMode
    ensures forall id | id in servers ::
              servers[id].listening == old(servers[id].listening) && servers[id].connections == old(servers[id].connections)
  {
    var left := servers.Keys;
    while left != {}
      invariant left <= servers.Keys
      invariant forall id | id in servers.Keys - left :: servers[id].debugMode == debugMode
      invariant forall id | id in servers ::
                  servers[id].listening == old(servers[id].listening) && servers[id].connections == old(servers[id].connections)
      decreases |left|
    {
      var id :| id in left;
      servers[id].SetDebugMode(debugMode);
      left := left - {id};
    }
  }

  /** `properties.listenerConnectorProperties`, when both are truthy. */
  function ListenerProperties(properties: Value): (r: Option<Value>)
    ensures r.Some? <==> Truthy(properties) && Truthy(Get(properties, "listenerConnectorProperties"))
  {
    if Truthy(properties) && Truthy(Get(properties, "listenerConnectorProperties")) then
      Some(Get(properties, "listenerConnectorProperties"))
    else None
  }
}
