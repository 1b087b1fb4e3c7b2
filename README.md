# pusher-zod: a verified model of channel naming and the payload gate

pusher-zod puts a typed layer in front of the `pusher-js` client and the `pusher` server.
Its runtime logic lives in `src/index.ts` and has two parts:

- **Channel-identity encoding.** A (channel kind, instance id) pair becomes one wire channel
  name: the kind, then the configured separator, then the id as a string, with no escaping.
  The client builds this name to subscribe (`joinChannel`) and to unsubscribe (`leaveChannel`).
  The server builds it to trigger (`invoke`), for one id or for an array of ids.
- **The payload gate.** `parseData` runs a schema's `parse`, turns any throw into `undefined`,
  and never throws itself. The wrappers installed by a channel's `listen` and by `member.bind`
  call the user's callback only when the gated value is not `undefined`, and they pass the parsed
  value, not the raw one.

The model has these modules:

- `Codec` (codec.dfy): the separator option, decimal rendering of integer ids, and wire names.
  A reference splitter states when a wire name can be decoded back unambiguously.
- `Gate` (gate.dfy): payload values, schemas as abstract total functions, `parseData`, and the
  gated wrapper.
- `Factory` (factory.dfy): what the default-export factory captures, and its option defaults.
- `Client` (client.dfy): the `TypeSafeClient` and `Channel` classes over a recording transport.
- `Server` (server.dfy): the `TypeSafeServer` class over a recording transport.
- `Agreement` (agreement.dfy): client and server address the same channels.
- `Wrappers` (wrappers.dfy): `Option`.

The transport is a recorder. The client's `subscribe`, `unsubscribe` and user-scoped `bind` append
to `TypeSafeClient.calls`. A channel's `bind` appends to `Channel.bindings`. The server's `trigger`
and `sendToUser` append to `TypeSafeServer.calls`. A recorded wrapper is described by what its
closure captures: the channel kind, the event name and the user's callback. `Client.Handle` gives
what running a wrapper on a payload does. `Client.Dispatch` and `Client.Subscribed` are a reading
of the recorded calls. `Dispatch` delivers an event to every binding under its name, in
registration order, and stops at the first wrapper that throws a TypeError of its own. User
callbacks are assumed to return normally. `Subscribed` is the set of names
currently subscribed.

Three edge cases of the gate follow from the code:

- The wrappers test `parsedData !== undefined` (src/index.ts:78, src/index.ts:101). So a schema
  that accepts a payload and returns `undefined` still has that delivery dropped
  (`Gate.GatedDropsIffRejected`).
- An event missing from a declared kind makes `setup[kind][event]` `undefined`
  (src/index.ts:100). Calling `parse` on it throws a TypeError inside the `try` of `parseData`
  (src/index.ts:157), which the `catch` turns into `undefined`. The delivery is dropped.
- A kind missing from `setup` makes `setup[kind][event]` itself throw a TypeError at
  src/index.ts:100. That is outside the `try`, so the throw escapes the wrapper
  (`Client.ListenHandlerGates`).

## Model

| member | source | states |
|---|---|---|
| `Codec.ParseSeparator` | src/index.ts:15 | the option type admits a string exactly when it is one of the seven one-character strings `_ - = @ , . ;`, and the admitted separator is that character |
| `Codec.SeparatorRoundTrip` | src/index.ts:15 | every separator constructor is admitted by the option type and reads back as itself |
| `Codec.SeparatorCharInjective` | src/index.ts:15 | distinct separators are distinct characters |
| `Codec.DefaultIsDot` | src/index.ts:11 | the default separator is `.` |
| `Factory.MakeConfig` | src/index.ts:10-16 | an omitted separator becomes `.`, omitted user events become the empty table, and `setup` is captured unchanged |
| `Codec.NatToDecimal` | src/index.ts:96 | the decimal rendering of a natural number is a non-empty digit string with no leading zero |
| `Codec.DecimalRoundTrip` | src/index.ts:96 | reading back the decimal rendering gives the number rendered |
| `Codec.IntToDecimal` | src/index.ts:96 | an integer renders with a leading `-` exactly when it is negative; the rest is exactly the decimal rendering of its magnitude |
| `Codec.IntToDecimalInjective` | src/index.ts:96 | distinct integers render to distinct strings |
| `Codec.IdString` | src/index.ts:96 | a string id is used verbatim, with no escaping; an integer id is its canonical decimal rendering (no leading zero), a digit string denoting it, after a `-` when negative |
| `Codec.WireName` | src/index.ts:96 | the wire name is the kind, then the separator character, then the id string, with nothing added or escaped; the same template stands at lines 113, 134 and 139 |
| `Codec.WireNames` | src/index.ts:133-135 | mapping ids to names keeps the length and the order, and element i is the wire name of ids[i] |
| `Codec.WireNamesAppend` | src/index.ts:133-135 | mapping a concatenation of id lists concatenates the mapped lists |
| `Codec.WireNamesMembership` | src/index.ts:133-135 | a name is in the mapped list exactly when it is the wire name of one of the ids |
| `Codec.SplitAtFirstRecovers` | src/index.ts:96 | splitting `prefix + sep + rest` at the first separator recovers both parts when the prefix is free of the separator |
| `Codec.WireNameSplits` | src/index.ts:96 | when the kind does not contain the separator, splitting a wire name at its first separator recovers the kind and the id string |
| `Codec.WireNameInjective` | src/index.ts:96 | two identities whose kinds are free of the separator share a wire name only if they have the same kind and the same id string |
| `Codec.IntIdWireNameInjective` | src/index.ts:96 | among integer ids with kinds free of the separator, equal wire names mean equal kind and equal id |
| `Codec.SeparatorInKindCollides` | src/index.ts:96 | with no escaping, a kind that contains the separator (`a.b` with id `c`) collides with another identity (`a` with id `b.c`) |
| `Codec.StringAndIntIdsCollide` | src/index.ts:96 | a string id that spells an integer has the same wire name as that integer id |
| `Gate.Lookup` | src/index.ts:100 | a schema-table lookup is defined exactly for declared keys and gives the declared schema |
| `Gate.ParseData` | src/index.ts:152-162 | `parseData` returns the schema's parsed value when `parse` returns, and `undefined` when it throws or there is no schema; it never throws |
| `Gate.ParseDataSound` | src/index.ts:152-162 | `parseData` gives a defined value exactly when the schema returned a defined value for this payload, and then it is that value |
| `Gate.Gated` | src/index.ts:99-103 | the gated wrapper raises nothing of its own, on every parse outcome, and only ever calls its own callback |
| `Gate.GatedInvokesIffAccepted` | src/index.ts:99-103 | the callback runs with v exactly when the schema returns the defined value v for the payload |
| `Gate.GatedDropsIffRejected` | src/index.ts:99-103 | the delivery is dropped exactly when there is no schema, the schema throws, or it returns `undefined` |
| `Gate.GatedPassesParsedNotRaw` | src/index.ts:102 | when the schema transforms the payload, the callback gets the parsed value and not the raw payload |
| `Client.ListenHandlerGates` | src/index.ts:99-103 | the listen wrapper runs the callback exactly on a defined parse under `setup[kind][event]`; an undeclared event is dropped and an undeclared kind throws a TypeError |
| `Client.MemberHandlerGates` | src/index.ts:76-79 | the member wrapper raises nothing of its own and runs the callback exactly on a defined parse under `userEvents[event]` |
| `Client.Handle` | src/index.ts:99-103 | running a wrapper throws a TypeError of its own exactly when it is a listen wrapper whose kind is not in `setup`; an invoked callback is the wrapper's own and never receives `undefined` |
| `Client.Dispatch` | src/index.ts:104 | an emit yields at most one delivery per binding, and no delivery follows a wrapper that threw a TypeError of its own |
| `Client.DispatchAppend` | src/index.ts:104 | a new binding's delivery comes after every earlier binding's delivery for the same event, unless an earlier wrapper threw a TypeError of its own and ended the emit |
| `Client.DispatchOtherEvents` | src/index.ts:104 | bindings under other event names get nothing |
| `Client.ListenDeliversOnce` | src/index.ts:98-104 | when a listen wrapper is the only binding for its event, each inbound delivery runs it exactly once |
| `Client.JoinThenLeave` | src/index.ts:95-113 | joining and then leaving one identity removes its wire name and leaves every other subscription as it was |
| `Client.Channel.constructor` | src/index.ts:95-97 | a channel handed out by `subscribe` has the subscribed name and no bindings yet |
| `Client.Channel.Bind` | src/index.ts:104 | `channel.bind` appends exactly one binding and changes nothing else |
| `Client.Channel.Listen` | src/index.ts:98-105 | `listen` registers, under the event name, the gate for the captured kind and that event around the user's callback |
| `Client.TypeSafeClient.constructor` | src/index.ts:67-83 | a new client has the factory's configuration and has made no transport calls |
| `Client.TypeSafeClient.JoinChannel` | src/index.ts:91-107 | joining subscribes exactly the wire name of (kind, id) under the configured separator, and returns a channel with that name whose `listen` captures the kind |
| `Client.TypeSafeClient.LeaveChannel` | src/index.ts:109-114 | leaving unsubscribes exactly the wire name that joining subscribes for the same (kind, id) |
| `Client.TypeSafeClient.MemberBind` | src/index.ts:71-81 | `member.bind` registers the user-event gate around the callback under the event name, and subscriptions are unchanged |
| `Server.InvokeTarget` | src/index.ts:132-142 | an id array gives an array of names and a single id gives a single name; either way there is one name per id, in order, each the wire name of (kind, that id) |
| `Server.TypeSafeServer.constructor` | src/index.ts:125 | a new server has the factory's configuration and has made no transport calls |
| `Server.TypeSafeServer.Invoke` | src/index.ts:126-143 | `invoke` makes one `trigger` call on those names, forwarding the event name and the data unchanged |
| `Server.TypeSafeServer.SendToUser` | src/index.ts:144-150 | `sendToUser` forwards the user id, event and data unchanged |
| `Agreement.InvokeReachesJoined` | src/index.ts:132-142 | a server `invoke` naming an id triggers the very wire name the client subscribes for that (kind, id) at line 96 |
| `Agreement.InvokeReachesOnlyMatching` | src/index.ts:132-142 | when kinds are free of the separator, an `invoke` reaches a joined channel only if it has the same kind and names an id with the same id string |
| `Agreement.LeaveUndoesJoin` | src/index.ts:95-113 | for a channel not already subscribed, joining then leaving restores the subscription set |
| `Agreement.JoinAndInvoke` | src/index.ts:95-142 | under one configuration, the name the client subscribes is the name the server triggers, with the event and data unchanged |
| `Agreement.RoomScenario` | src/index.ts:138-142 | `room` with id `"42"` or `42` and the default separator is `room.42`, and ids `["42","43"]` give `["room.42","room.43"]` |

## Left out

- Network, connection and authorisation behaviour of the transports (`super.subscribe`,
  `super.unsubscribe`, `super.trigger`, `super.sendToUser`, `this.user.bind`). These live in
  `pusher-js` and `pusher`, which are not part of this model. They are recorded calls.
- Client.TypeSafeClient.JoinChannel: each join yields a fresh channel object. `pusher-js` may
  instead hand back the channel object it already holds for that name.
- Client.Dispatch and Client.Subscribed: these are an abstraction of how the transport delivers
  events and tracks subscriptions, not code of this repository.
- Gate.Gated and Client.Dispatch: user callbacks are opaque and are assumed to return normally.
  The source calls them outside any `try` (src/index.ts:78, src/index.ts:102). So a callback
  that throws would propagate out of its wrapper and end the emit. `Delivery` has no case for
  that, and `Dispatch` carries on past an `Invoked` delivery.
- The semantics of zod schemas. A schema is an abstract, deterministic, total function. Because
  the function is deterministic, the second parse at line 102 equals the first parse at line 100.
- The `console.error` logging of a failed parse (line 159). It is output only.
- The type-level machinery (`EventKeys`, `MyChannel`, `MyPusherClient`, `MyPusherServer`). It is
  compile-time inference only; event names and kinds are plain strings here, so `String(eventName)`
  is the identity.
- Codec.Separator: the restriction to seven characters exists only in the TypeScript type at
  src/index.ts:15. An untyped caller's `channel_id_separator` reaches the template strings
  unchecked. The model admits only the seven characters.
- Codec.IntToDecimal: renders every integer in plain decimal. JavaScript prints numbers of
  magnitude 10^21 and above in exponent notation, and cannot represent every integer above 2^53
  exactly. Non-integer ids are left out for the same reason.
- The promises returned by `trigger` and `sendToUser`, which belong to transport concurrency.
- The `context` argument of `bind`, `listen` and `member.bind`, and the values that `bind` and
  `member.bind` return. These are passed through to or from the transport untouched.
- The spread of `this.user`'s other members into `member`. It copies transport members and has
  no logic.
- The raw, ungated `bind` and `unbind` inherited from the transport.
- Keys that a JavaScript object inherits from its prototype (such as `toString`). The schema
  tables treat them as absent.
- Channel introspection (`getChannels`, `getPrivateChannels`), batched publishing and
  wire-name decoding. No code in `src/index.ts` defines these. `Codec.SplitAtFirst` is only a
  reference used to state when names are unambiguous.
