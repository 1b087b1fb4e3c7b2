/**
 * The default-export factory. It captures the schema registry for channel
 * events (`setup`), the separator option and the user-event schemas; the
 * client and server classes it returns read all three from this capture.
 */
module Factory {
  import opened Wrappers
  import opened Codec
  import opened Gate

  /** What the factory captures: channel kind -> event name -> schema, the separator, user event -> schema. */
  datatype Config = Config(
    setup: map<string, map<string, Schema>>,
    separator: Separator,
    userEvents: map<string, Schema>)

  /** The factory's option handling: an omitted separator is the dot, omitted user events are the empty table. */
  function MakeConfig(
    setup: map<string, map<string, Schema>>,
    separator: Option<Separator>,
    userEvents: Option<map<string, Schema>>): (c: Config)
    ensures c.setup == setup
    ensures separator.None? ==> c.separator.Char() == '.'
    ensures separator.Some? ==> c.separator == separator.value
    ensures userEvents.None? ==> c.userEvents == map[]
    ensures userEvents.Some? ==> c.userEvents == userEvents.value
  {
    Config(
      setup,
      if separator.Some? then separator.value else DefaultSeparator,
      if userEvents.Some? then userEvents.value else map[])
  }
}
