/**
 * The server facade. The transport server is a recorder: `trigger` and
 * `sendToUser` append to `calls`. Payloads are forwarded unchanged; there is
 * no outbound gate.
 */
module Server {
  import opened Codec
  import opened Gate
  import opened Factory

  /** The channel argument of the transport's `trigger`: one name or an array of names. */
  datatype Target = OneChannel(name: string) | ManyChannels(names: seq<string>)

  /** A call the facade makes on the transport server. */
  datatype ServerCall =
    | Trigger(target: Target, event: string, data: Value)
    | ToUser(userId: string, event: string, data: Value)

  /** The `channel_id` argument of `invoke`: one id or an array of ids. */
  datatype ChannelIdArg = SingleId(id: InstanceId) | IdArray(ids: seq<InstanceId>)

  /** The ids an `invoke` argument names, in order. */
  function IdsOf(arg: ChannelIdArg): seq<InstanceId> {
    match arg
    case SingleId(id) => [id]
    case IdArray(ids) => ids
  }

  /** The channel names a trigger target addresses, in order. */
  function TargetNames(t: Target): seq<string> {
    match t
    case OneChannel(name) => [name]
    case ManyChannels(names) => names
  }

  /**
   * The target `invoke` passes to `trigger`: an array argument becomes an
   * array of names, a single id a single name; either way one name per id,
   * in order, each the wire name of (kind, that id).
   */
  function InvokeTarget(sep: Separator, kind: string, arg: ChannelIdArg): (t: Target)
    ensures t.ManyChannels? <==> arg.IdArray?
    ensures |TargetNames(t)| == |IdsOf(arg)|
    ensures forall i :: 0 <= i < |IdsOf(arg)| ==> TargetNames(t)[i] == WireName(kind, sep, IdsOf(arg)[i])
  {
    match arg
    case IdArray(ids) => ManyChannels(WireNames(kind, sep, ids))
    case SingleId(id) => OneChannel(WireName(kind, sep, id))
  }

  /** The server class the factory returns. */
  class TypeSafeServer {
    const config: Config
    /** The calls made on the transport server, oldest first. */
    var calls: seq<ServerCall>

    constructor (config: Config)
      ensures this.config == config && calls == []
    {
      this.config := config;
      calls := [];
    }

    /** `invoke`: triggers the event, with the data unchanged, on the wire name of every id given. */
    method Invoke(kind: string, channelId: ChannelIdArg, event: string, data: Value)
      modifies this
      ensures calls == old(calls) + [Trigger(InvokeTarget(config.separator, kind, channelId), event, data)]
    {
      if channelId.IdArray? {
        var channels := WireNames(kind, config.separator, channelId.ids);
        calls := calls + [Trigger(ManyChannels(channels), event, data)];
      } else {
        calls := calls + [Trigger(OneChannel(WireName(kind, config.separator, channelId.id)), event, data)];
      }
    }

    /** `sendToUser`: forwarded to the transport unchanged. */
    method SendToUser(userId: string, event: string, data: Value)
      modifies this
      ensures calls == old(calls) + [ToUser(userId, event, data)]
    {
      calls := calls + [ToUser(userId, event, data)];
    }
  }
}
