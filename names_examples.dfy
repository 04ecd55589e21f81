/** The unit-test scenarios of the resolution engine, as lemmas over the
    same fixture: a device with a name and a nick, a node with a name and a
    nick, and a client with an application name. */
module NamesExamples {
  import opened Wrappers
  import Tags
  import opened NameTemplates
  import opened Objects
  import Config
  import opened Names

  const DeviceId: ObjectId := 0
  const ClientId: ObjectId := 2

  function FixtureDevice(): Device {
    Device(Some("Device name"), Some("Device nick"), None)
  }

  function FixtureNode(): Node {
    Node(Some("Node name"), Some("Node nick"), None, None, None, None, None)
  }

  function FixtureClient(): Client {
    Client(Some("Client name"), None)
  }

  function FixtureState(): State {
    State(map[DeviceId := FixtureDevice()], map[ClientId := FixtureClient()])
  }

  /** The fixture node after it was announced as an `Audio/Sink`. */
  function SinkNode(): Node {
    FixtureNode().(mediaClass := Some(MediaClass(true, false)))
  }

  function Tpl(tag: Tags.Tag): NameTemplate {
    [TagRef(tag)]
  }

  /** A sink node uses the endpoint list. */
  lemma RenderEndpoint()
    ensures Resolve(Default().(endpoint := [Tpl(Tags.Node(Tags.NodeNick))]), FixtureState(), NodeObj(SinkNode()))
         == Some("Node nick")
  {
    RenderTag(Tags.Node(Tags.NodeNick), (tag: Tags.Tag) => ResolveTag(FixtureState(), NodeObj(SinkNode()), tag));
  }

  /** A template whose tag is missing is skipped; the node's name is used. */
  lemma RenderEndpointMissingTag()
    ensures Resolve(Default().(endpoint := [Tpl(Tags.Node(Tags.NodeDescription))]), FixtureState(), NodeObj(SinkNode()))
         == Some("Node name")
  {
  }

  lemma RenderDeviceMissingTag()
    ensures Resolve(Default().(device := [Tpl(Tags.Device(Tags.DeviceDescription))]), FixtureState(), DeviceObj(FixtureDevice()))
         == Some("Device name")
  {
  }

  /** A linked node answers device tags from its device. */
  lemma RenderEndpointLinkedDevice()
    ensures Resolve(Default().(endpoint := [Tpl(Tags.Device(Tags.DeviceNick))]), FixtureState(),
                    NodeObj(SinkNode().(deviceId := Some(DeviceId))))
         == Some("Device nick")
  {
    var n := SinkNode().(deviceId := Some(DeviceId));
    RenderTag(Tags.Device(Tags.DeviceNick), (tag: Tags.Tag) => ResolveTag(FixtureState(), NodeObj(n), tag));
  }

  lemma RenderEndpointLinkedDeviceMissingTag()
    ensures Resolve(Default().(endpoint := [Tpl(Tags.Device(Tags.DeviceDescription))]), FixtureState(),
                    NodeObj(SinkNode().(deviceId := Some(DeviceId))))
         == Some("Node name")
  {
    var n := SinkNode().(deviceId := Some(DeviceId));
    RenderTag(Tags.Device(Tags.DeviceDescription), (tag: Tags.Tag) => ResolveTag(FixtureState(), NodeObj(n), tag));
  }

  /** Without a link, device tags are absent even though the device exists. */
  lemma RenderEndpointNoLinkedDevice()
    ensures Resolve(Default().(endpoint := [Tpl(Tags.Device(Tags.DeviceNick))]), FixtureState(), NodeObj(SinkNode()))
         == Some("Node name")
  {
    RenderTag(Tags.Device(Tags.DeviceNick), (tag: Tags.Tag) => ResolveTag(FixtureState(), NodeObj(SinkNode()), tag));
  }

  /** A node without a media class uses the stream list. */
  lemma RenderStream()
    ensures Resolve(Default().(stream := [Tpl(Tags.Node(Tags.NodeNick))]), FixtureState(), NodeObj(FixtureNode()))
         == Some("Node nick")
  {
    RenderTag(Tags.Node(Tags.NodeNick), (tag: Tags.Tag) => ResolveTag(FixtureState(), NodeObj(FixtureNode()), tag));
  }

  /** A linked node answers client tags from its client. */
  lemma RenderStreamLinkedClient()
    ensures Resolve(Default().(stream := [Tpl(Tags.Client(Tags.ApplicationName))]), FixtureState(),
                    NodeObj(FixtureNode().(clientId := Some(ClientId))))
         == Some("Client name")
  {
    var n := FixtureNode().(clientId := Some(ClientId));
    RenderTag(Tags.Client(Tags.ApplicationName), (tag: Tags.Tag) => ResolveTag(FixtureState(), NodeObj(n), tag));
  }

  /** The first template that renders wins. */
  lemma RenderPrecedence()
    ensures Resolve(Default().(stream := [Tpl(Tags.Node(Tags.NodeDescription)), Tpl(Tags.Node(Tags.NodeNick))]),
                    FixtureState(), NodeObj(FixtureNode()))
         == Some("Node nick")
  {
    var f := (tag: Tags.Tag) => ResolveTag(FixtureState(), NodeObj(FixtureNode()), tag);
    RenderTag(Tags.Node(Tags.NodeDescription), f);
    RenderTag(Tags.Node(Tags.NodeNick), f);
  }

  /** An override for streams whose node name matches replaces the default. */
  lemma RenderOverrideMatch()
    ensures Resolve(Default().(overrides := [Config.NameOverride([Config.Device, Config.Stream],
                                 Tags.Node(Tags.NodeName), "Node name",
                                 [Tpl(Tags.Node(Tags.NodeDescription)), Tpl(Tags.Node(Tags.NodeNick))])]),
                    FixtureState(), NodeObj(FixtureNode()))
         == Some("Node nick")
  {
    var f := (tag: Tags.Tag) => ResolveTag(FixtureState(), NodeObj(FixtureNode()), tag);
    RenderTag(Tags.Node(Tags.NodeDescription), f);
    RenderTag(Tags.Node(Tags.NodeNick), f);
  }

  /** An override for other categories is skipped: the default stream
      template needs a media name, so the node's name is used. */
  lemma RenderOverrideTypeMismatch()
    ensures Resolve(Default().(overrides := [Config.NameOverride([Config.Device],
                                 Tags.Node(Tags.NodeName), "Node name", [Tpl(Tags.Node(Tags.NodeNick))])]),
                    FixtureState(), NodeObj(FixtureNode()))
         == Some("Node name")
  {
  }

  lemma RenderOverrideValueMismatch()
    ensures Resolve(Default().(overrides := [Config.NameOverride([Config.Device],
                                 Tags.Node(Tags.NodeDescription), "Node name", [Tpl(Tags.Node(Tags.NodeNick))])]),
                    FixtureState(), NodeObj(FixtureNode()))
         == Some("Node name")
  {
  }

  /** A matching override with no templates gives the node's own name. */
  lemma RenderOverrideEmptyTemplates()
    ensures Resolve(Default().(overrides := [Config.NameOverride([Config.Device, Config.Stream],
                                 Tags.Node(Tags.NodeName), "Node name", [])]),
                    FixtureState(), NodeObj(FixtureNode()))
         == Some("Node name")
  {
  }

  /** An override for streams that matches on category but not on value is
      skipped: the node has no description. */
  lemma OverrideValueOnlyMismatch()
    ensures Resolve(Default().(overrides := [Config.NameOverride([Config.Stream],
                                 Tags.Node(Tags.NodeDescription), "Node name", [Tpl(Tags.Node(Tags.NodeNick))])]),
                    FixtureState(), NodeObj(FixtureNode()))
         == Some("Node name")
  {
  }
}
