/**
 * Client and server agree on channel names: a server `invoke` for a kind and
 * some ids addresses exactly the channels a client joins for that kind and
 * those ids, under the same factory configuration.
 */
module Agreement {
  import opened Codec
  import opened Gate
  import opened Factory
  import opened Client
  import opened Server

  /** A server `invoke` that names an id reaches the channel a client joins for that (kind, id). */
  lemma InvokeReachesJoined(sep: Separator, kind: string, id: InstanceId, arg: ChannelIdArg)
    requires id in IdsOf(arg)
    ensures WireName(kind, sep, id) in TargetNames(InvokeTarget(sep, kind, arg))
  {
    var i :| 0 <= i < |IdsOf(arg)| && IdsOf(arg)[i] == id;
    assert TargetNames(InvokeTarget(sep, kind, arg))[i] == WireName(kind, sep, id);
  }

  /**
   * Conversely, when no kind contains the separator, an `invoke` reaches a
   * joined channel only if it is for the same kind and names an id that
   * renders to the same string.
   */
  lemma InvokeReachesOnlyMatching(sep: Separator, kind: string, arg: ChannelIdArg, joinedKind: string, joinedId: InstanceId)
    requires sep.Char() !in kind && sep.Char() !in joinedKind
    requires WireName(joinedKind, sep, joinedId) in TargetNames(InvokeTarget(sep, kind, arg))
    ensures joinedKind == kind
    ensures exists id :: id in IdsOf(arg) && IdString(id) == IdString(joinedId)
  {
    var names := TargetNames(InvokeTarget(sep, kind, arg));
    var i :| 0 <= i < |names| && names[i] == WireName(joinedKind, sep, joinedId);
    WireNameInjective(joinedKind, kind, sep, joinedId, IdsOf(arg)[i]);
    assert IdsOf(arg)[i] in IdsOf(arg);
  }

  /** Leaving a channel unsubscribes exactly the name that joining it subscribed. */
  lemma LeaveUndoesJoin(calls: seq<ClientCall>, kind: string, sep: Separator, id: InstanceId)
    requires WireName(kind, sep, id) !in Subscribed(calls)
    ensures Subscribed(calls + [Subscribe(WireName(kind, sep, id)), Unsubscribe(WireName(kind, sep, id))]) == Subscribed(calls)
  {
    JoinThenLeave(calls, kind, sep, id);
  }

  /**
   * End to end under one configuration: the client joins (kind, id), the
   * server invokes (kind, id); the name the client subscribed is the one
   * the server triggered, with the event and data forwarded unchanged.
   */
  method JoinAndInvoke(config: Config, kind: string, id: InstanceId, event: string, data: Value)
    returns (subscribed: string, triggered: ServerCall)
    ensures triggered == Trigger(OneChannel(subscribed), event, data)
    ensures subscribed == WireName(kind, config.separator, id)
  {
    var client := new TypeSafeClient(config);
    var channel := client.JoinChannel(kind, id);
    var server := new TypeSafeServer(config);
    server.Invoke(kind, SingleId(id), event, data);
    subscribed := client.calls[0].channel;
    triggered := server.calls[0];
  }

  /** The scenario of a `room` channel with the default separator. */
  lemma RoomScenario()
    ensures WireName("room", DefaultSeparator, StrId("42")) == "room.42"
    ensures WireName("room", DefaultSeparator, IntId(42)) == "room.42"
    ensures InvokeTarget(DefaultSeparator, "room", IdArray([StrId("42"), StrId("43")])) ==
              ManyChannels(["room.42", "room.43"])
  {
    assert NatToDecimal(42) == NatToDecimal(4) + [DigitChar(2)];
    var names := WireNames("room", DefaultSeparator, [StrId("42"), StrId("43")]);
    assert names[0] == "room.42" && names[1] == "room.43";
    assert names == ["room.42", "room.43"];
  }
}
