/** The naming configuration the engine consumes: three default template
    lists (streams, endpoints, devices) and an ordered list of overrides.
    Loading it from a file is not part of this model. */
module Config {
  import opened Tags
  import opened NameTemplates

  /** The categories an override can apply to. */
  datatype OverrideType = Device | Endpoint | Stream

  /** Use `templates` for any object of one of the `types` whose `property`
      resolves to exactly `value`. */
  datatype NameOverride = NameOverride(
    types: seq<OverrideType>,
    property: Tag,
    value: string,
    templates: seq<NameTemplate>)

  datatype Names = Names(
    stream: seq<NameTemplate>,
    endpoint: seq<NameTemplate>,
    device: seq<NameTemplate>,
    overrides: seq<NameOverride>)
}
