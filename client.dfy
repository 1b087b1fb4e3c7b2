/**
 * The client facade. The transport client is a recorder: `subscribe`,
 * `unsubscribe` and the user-scoped `bind` append to `calls`, and a channel's
 * `bind` appends to that channel's `bindings`. A recorded handler is the
 * wrapper the facade installs, described by what it closes over.
 */
module Client {
  import opened Wrappers
  import opened Codec
  import opened Gate
  import opened Factory

  /** A wrapped callback the facade hands to the transport. */
  datatype Handler =
    | ListenHandler(kind: string, event: string, callback: Callback)  // made by a channel's `listen`
    | MemberHandler(event: string, callback: Callback)                // made by `member.bind`

  /** One registration of a handler under an event name. */
  datatype Binding = Binding(event: string, handler: Handler)

  /** A call the facade makes on the transport client. */
  datatype ClientCall =
    | Subscribe(channel: string)
    | Unsubscribe(channel: string)
    | UserBind(binding: Binding)

  /**
   * Running a handler on an inbound payload. The listen wrapper reads
   * `setup[kind][event]` outside the `try`, so an undeclared kind throws a
   * TypeError there; an undeclared event yields an `undefined` schema, whose
   * failure `parseData` catches. The member wrapper reads `userEvents[event]`.
   */
  function Handle(config: Config, h: Handler, data: Value): (d: Delivery)
    ensures d == TypeErrorThrown <==> h.ListenHandler? && h.kind !in config.setup
    ensures d.Invoked? ==> d.callback == h.callback && d.value != Undefined
  {
    match h
    case ListenHandler(kind, event, cb) =>
      if kind !in config.setup then TypeErrorThrown else Gated(Lookup(config.setup[kind], event), cb, data)
    case MemberHandler(event, cb) =>
      Gated(Lookup(config.userEvents, event), cb, data)
  }

  /** A listen handler runs the callback exactly on a defined parse of a declared (kind, event), with the parsed value. */
  lemma ListenHandlerGates(config: Config, kind: string, event: string, cb: Callback, data: Value, v: Value)
    ensures kind !in config.setup ==> Handle(config, ListenHandler(kind, event, cb), data) == TypeErrorThrown
    ensures Handle(config, ListenHandler(kind, event, cb), data) == Invoked(cb, v) <==>
              kind in config.setup && event in config.setup[kind] &&
              config.setup[kind][event](data) == Returned(v) && v != Undefined
    ensures kind in config.setup && event !in config.setup[kind] ==>
              Handle(config, ListenHandler(kind, event, cb), data) == Dropped
  {
    if kind in config.setup {
      GatedInvokesIffAccepted(Lookup(config.setup[kind], event), cb, data, v);
    }
  }

  /** A member handler applies the same gate with the user-event schema of its event. */
  lemma MemberHandlerGates(config: Config, event: string, cb: Callback, data: Value, v: Value)
    ensures Handle(config, MemberHandler(event, cb), data) != TypeErrorThrown
    ensures Handle(config, MemberHandler(event, cb), data) == Invoked(cb, v) <==>
              event in config.userEvents && config.userEvents[event](data) == Returned(v) && v != Undefined
  {
    GatedInvokesIffAccepted(Lookup(config.userEvents, event), cb, data, v);
  }

  /**
   * The transport's emit of `event`: each binding under that name runs its
   * handler, in registration order. A handler that throws ends the emit, so
   * bindings after it are not reached.
   */
  function Dispatch(config: Config, bindings: seq<Binding>, event: string, data: Value): (r: seq<Delivery>)
    ensures |r| <= |bindings|
    ensures forall i :: 0 <= i < |r| - 1 ==> r[i] != TypeErrorThrown
  {
    if bindings == [] then []
    else if bindings[0].event != event then Dispatch(config, bindings[1..], event, data)
    else
      var d := Handle(config, bindings[0].handler, data);
      if d == TypeErrorThrown then [d] else [d] + Dispatch(config, bindings[1..], event, data)
  }

  /**
   * Registering one more binding adds its delivery, if any, after all earlier
   * ones, unless an earlier handler already threw and ended the emit.
   */
  lemma {:induction false} DispatchAppend(config: Config, bindings: seq<Binding>, b: Binding, event: string, data: Value)
    ensures Dispatch(config, bindings + [b], event, data) ==
              if TypeErrorThrown in Dispatch(config, bindings, event, data) then Dispatch(config, bindings, event, data)
              else Dispatch(config, bindings, event, data) + (if b.event == event then [Handle(config, b.handler, data)] else [])
  {
    if bindings != [] {
      assert (bindings + [b])[1..] == bindings[1..] + [b];
      DispatchAppend(config, bindings[1..], b, event, data);
    }
  }

  /** Bindings under other event names receive nothing. */
  lemma {:induction false} DispatchOtherEvents(config: Config, bindings: seq<Binding>, event: string, data: Value)
    requires forall i :: 0 <= i < |bindings| ==> bindings[i].event != event
    ensures Dispatch(config, bindings, event, data) == []
  {
    if bindings != [] {
      DispatchOtherEvents(config, bindings[1..], event, data);
    }
  }

  /**
   * With `listen` the only registration for an event, each inbound delivery
   * runs the wrapper exactly once.
   */
  lemma ListenDeliversOnce(config: Config, before: seq<Binding>, kind: string, event: string, cb: Callback, data: Value)
    requires forall i :: 0 <= i < |before| ==> before[i].event != event
    ensures Dispatch(config, before + [Binding(event, ListenHandler(kind, event, cb))], event, data) ==
              [Handle(config, ListenHandler(kind, event, cb), data)]
  {
    DispatchAppend(config, before, Binding(event, ListenHandler(kind, event, cb)), event, data);
    DispatchOtherEvents(config, before, event, data);
  }

  /** The channel names the recorded calls leave subscribed. */
  function Subscribed(calls: seq<ClientCall>): set<string> {
    if calls == [] then {}
    else
      var before := Subscribed(calls[..|calls| - 1]);
      match calls[|calls| - 1]
      case Subscribe(name) => before + {name}
      case Unsubscribe(name) => before - {name}
      case UserBind(_) => before
  }

  /** Joining then leaving the same identity leaves its wire name unsubscribed and every other subscription as it was. */
  lemma JoinThenLeave(calls: seq<ClientCall>, kind: string, sep: Separator, id: InstanceId)
    ensures Subscribed(calls + [Subscribe(WireName(kind, sep, id)), Unsubscribe(WireName(kind, sep, id))]) ==
              Subscribed(calls) - {WireName(kind, sep, id)}
  {
    var name := WireName(kind, sep, id);
    var c1 := calls + [Subscribe(name)];
    var c2 := c1 + [Unsubscribe(name)];
    assert c2 == calls + [Subscribe(name), Unsubscribe(name)];
    assert c2[..|c2| - 1] == c1;
    assert c1[..|c1| - 1] == calls;
  }

  /** A channel object handed out by the transport's `subscribe`. */
  class Channel {
    const name: string
    /** The kind captured by the `listen` closure, once `joinChannel` has assigned it. */
    var listen: Option<string>
    /** The transport's registrations on this channel. */
    var bindings: seq<Binding>

    constructor (name: string)
      ensures this.name == name && listen == None && bindings == []
    {
      this.name := name;
      listen := None;
      bindings := [];
    }

    /** The transport's `channel.bind`, as a recorder. */
    method Bind(event: string, handler: Handler)
      modifies this`bindings
      ensures bindings == old(bindings) + [Binding(event, handler)]
    {
      bindings := bindings + [Binding(event, handler)];
    }

    /** `channel.listen`: registers, under the event name, the gate for (captured kind, event) around the callback. */
    method Listen(event: string, callback: Callback)
      requires listen.Some?
      modifies this`bindings
      ensures bindings == old(bindings) + [Binding(event, ListenHandler(listen.value, event, callback))]
    {
      Bind(event, ListenHandler(listen.value, event, callback));
    }
  }

  /** The client class the factory returns. */
  class TypeSafeClient {
    const config: Config
    /** The calls made on the transport client, oldest first. */
    var calls: seq<ClientCall>

    /** The constructor; its `member` object is modelled by `MemberBind`. */
    constructor (config: Config)
      ensures this.config == config && calls == []
    {
      this.config := config;
      calls := [];
    }

    /** Subscribes to the wire name of (kind, id) and installs `listen` on the returned channel. */
    method JoinChannel(kind: string, id: InstanceId) returns (channel: Channel)
      modifies this
      ensures fresh(channel)
      ensures channel.name == WireName(kind, config.separator, id)
      ensures channel.listen == Some(kind) && channel.bindings == []
      ensures calls == old(calls) + [Subscribe(channel.name)]
      ensures Subscribed(calls) == old(Subscribed(calls)) + {channel.name}
    {
      var name := WireName(kind, config.separator, id);
      calls := calls + [Subscribe(name)];
      assert calls[..|calls| - 1] == old(calls);
      channel := new Channel(name);
      channel.listen := Some(kind);
    }

    /** Unsubscribes the wire name of (kind, id). */
    method LeaveChannel(kind: string, id: InstanceId)
      modifies this
      ensures calls == old(calls) + [Unsubscribe(WireName(kind, config.separator, id))]
      ensures Subscribed(calls) == old(Subscribed(calls)) - {WireName(kind, config.separator, id)}
    {
      calls := calls + [Unsubscribe(WireName(kind, config.separator, id))];
      assert calls[..|calls| - 1] == old(calls);
    }

    /** `member.bind`: registers, under the event name, the gate for the user event around the callback. */
    method MemberBind(event: string, callback: Callback)
      modifies this
      ensures calls == old(calls) + [UserBind(Binding(event, MemberHandler(event, callback)))]
      ensures Subscribed(calls) == old(Subscribed(calls))
    {
      calls := calls + [UserBind(Binding(event, MemberHandler(event, callback)))];
      assert calls[..|calls| - 1] == old(calls);
    }
  }
}
