/** Display-name resolution (src/config/names.rs): the default template
    lists, how each object kind answers a tag, how the template list for an
    object is selected (overrides first, then the category default), and
    `Resolve`, which renders the first template that can be rendered and
    otherwise falls back on the object's own name. */
module Names {
  import opened Wrappers
  import Tags
  import opened NameTemplates
  import opened Seqs
  import opened Objects
  import Config

  // ---------------------------------------------------------------------
  // Default templates

  /** `{node:node.name}: {node:media.name}` */
  function DefaultStream(): seq<NameTemplate> {
    [[TagRef(Tags.Node(Tags.NodeName)), Literal(": "), TagRef(Tags.Node(Tags.MediaName))]]
  }

  /** `{device:device.nick}`, then `{node:node.description}` */
  function DefaultEndpoint(): seq<NameTemplate> {
    [[TagRef(Tags.Device(Tags.DeviceNick))], [TagRef(Tags.Node(Tags.NodeDescription))]]
  }

  /** `{device:device.nick}`, then `{device:device.description}` */
  function DefaultDevice(): seq<NameTemplate> {
    [[TagRef(Tags.Device(Tags.DeviceNick))], [TagRef(Tags.Device(Tags.DeviceDescription))]]
  }

  /** The built-in configuration: the three default lists and no overrides. */
  function Default(): (names: Config.Names)
    ensures names.overrides == []
    ensures |names.stream| == 1 && |names.endpoint| == 2 && |names.device| == 2
  {
    Config.Names(DefaultStream(), DefaultEndpoint(), DefaultDevice(), [])
  }

  // ---------------------------------------------------------------------
  // Tag resolution, per object kind

  /** A device answers its own tags only; it forwards nothing. */
  function DeviceResolveTag(d: Device, tag: Tags.Tag): (r: Option<string>)
    ensures tag == Tags.Device(Tags.DeviceName) ==> r == d.name
    ensures tag == Tags.Device(Tags.DeviceNick) ==> r == d.nick
    ensures tag == Tags.Device(Tags.DeviceDescription) ==> r == d.description
    ensures !tag.Device? ==> r == None
  {
    match tag
    case Device(DeviceName) => d.name
    case Device(DeviceNick) => d.nick
    case Device(DeviceDescription) => d.description
    case Node(_) => None
    case Client(_) => None
  }

  /** A client answers its own tags only; it forwards nothing. */
  function ClientResolveTag(c: Client, tag: Tags.Tag): (r: Option<string>)
    ensures tag == Tags.Client(Tags.ApplicationName) ==> r == c.applicationName
    ensures tag == Tags.Client(Tags.ApplicationProcessBinary) ==> r == c.applicationProcessBinary
    ensures !tag.Client? ==> r == None
  {
    match tag
    case Client(ApplicationName) => c.applicationName
    case Client(ApplicationProcessBinary) => c.applicationProcessBinary
    case Node(_) => None
    case Device(_) => None
  }

  /** The device a node is linked to, if it has a device id and the state
      knows that id. */
  function LinkedDevice(state: State, n: Node): Option<Device> {
    match n.deviceId
    case None => None
    case Some(id) => Get(state.devices, id)
  }

  /** The client a node is linked to, if it has a client id and the state
      knows that id. */
  function LinkedClient(state: State, n: Node): Option<Client> {
    match n.clientId
    case None => None
    case Some(id) => Get(state.clients, id)
  }

  /** A node answers its own tags, forwards device tags to its linked
      device and client tags to its linked client; a missing link is an
      absent value, not an error. */
  function NodeResolveTag(state: State, n: Node, tag: Tags.Tag): (r: Option<string>)
    ensures tag == Tags.Node(Tags.NodeName) ==> r == n.name
    ensures tag == Tags.Node(Tags.NodeNick) ==> r == n.nick
    ensures tag == Tags.Node(Tags.NodeDescription) ==> r == n.description
    ensures tag == Tags.Node(Tags.MediaName) ==> r == n.mediaName
    ensures tag.Device? && (n.deviceId == None || n.deviceId.value !in state.devices) ==> r == None
    ensures tag.Device? && n.deviceId.Some? && n.deviceId.value in state.devices ==>
      r == DeviceResolveTag(state.devices[n.deviceId.value], tag)
    ensures tag.Client? && (n.clientId == None || n.clientId.value !in state.clients) ==> r == None
    ensures tag.Client? && n.clientId.Some? && n.clientId.value in state.clients ==>
      r == ClientResolveTag(state.clients[n.clientId.value], tag)
  {
    match tag
    case Node(NodeName) => n.name
    case Node(NodeNick) => n.nick
    case Node(NodeDescription) => n.description
    case Node(MediaName) => n.mediaName
    case Device(_) =>
      (match LinkedDevice(state, n)
       case None => None
       case Some(d) => DeviceResolveTag(d, tag))
    case Client(_) =>
      match LinkedClient(state, n)
      case None => None
      case Some(c) => ClientResolveTag(c, tag)
  }

  // ---------------------------------------------------------------------
  // Nameable objects

  /** The object kinds that have a display name: devices and nodes.
      Clients only answer tags on behalf of a node. */
  datatype Nameable = DeviceObj(device: Device) | NodeObj(node: Node)

  /** Tag resolution dispatched on the object kind. */
  function ResolveTag(state: State, obj: Nameable, tag: Tags.Tag): Option<string> {
    match obj
    case DeviceObj(d) => DeviceResolveTag(d, tag)
    case NodeObj(n) => NodeResolveTag(state, n, tag)
  }

  /** The object's own name, used when no template renders. */
  function Fallback(obj: Nameable): Option<string> {
    match obj
    case DeviceObj(d) => d.name
    case NodeObj(n) => n.name
  }

  /** A node whose media class marks it as a sink or a source. */
  predicate IsEndpoint(n: Node) {
    n.mediaClass.Some? && (n.mediaClass.value.isSink || n.mediaClass.value.isSource)
  }

  /** The category an object is named under, decided from its current
      media class: devices are devices, sink and source nodes are
      endpoints, every other node is a stream. */
  function Category(obj: Nameable): (c: Config.OverrideType)
    ensures c == Config.Device <==> obj.DeviceObj?
    ensures c == Config.Endpoint <==> obj.NodeObj? && IsEndpoint(obj.node)
    ensures c == Config.Stream <==> obj.NodeObj? && !IsEndpoint(obj.node)
  {
    match obj
    case DeviceObj(_) => Config.Device
    case NodeObj(n) => if IsEndpoint(n) then Config.Endpoint else Config.Stream
  }

  /** The configured default list of a category. */
  function DefaultTemplates(names: Config.Names, c: Config.OverrideType): seq<NameTemplate> {
    match c
    case Device => names.device
    case Endpoint => names.endpoint
    case Stream => names.stream
  }

  // ---------------------------------------------------------------------
  // Override selection

  /** The override applies to `obj` looked at as category `c`: `c` is among
      its types and its property resolves to exactly its value. */
  predicate Matches(state: State, obj: Nameable, o: Config.NameOverride, c: Config.OverrideType) {
    c in o.types && ResolveTag(state, obj, o.property) == Some(o.value)
  }

  /** `overrides[i]` is the first override that applies. */
  ghost predicate FirstMatch(state: State, obj: Nameable, overrides: seq<Config.NameOverride>,
                             c: Config.OverrideType, i: int)
  {
    && 0 <= i < |overrides|
    && Matches(state, obj, overrides[i], c)
    && forall j :: 0 <= j < i ==> !Matches(state, obj, overrides[j], c)
  }

  /** The templates of the first applicable override, in list order. */
  function NameOverride(state: State, obj: Nameable, overrides: seq<Config.NameOverride>,
                        c: Config.OverrideType): (r: Option<seq<NameTemplate>>)
    ensures r == None <==> forall i :: 0 <= i < |overrides| ==> !Matches(state, obj, overrides[i], c)
    ensures r.Some? ==> exists i :: FirstMatch(state, obj, overrides, c, i) && r == Some(overrides[i].templates)
  {
    FindMap(overrides, (o: Config.NameOverride) =>
      if Matches(state, obj, o, c) then Some(o.templates) else None)
  }

  /** The template list for `obj`: the first applicable override's list for
      its category, even an empty one, and otherwise the category's
      default list. */
  function Templates(state: State, names: Config.Names, obj: Nameable): (ts: seq<NameTemplate>)
    ensures (forall i :: 0 <= i < |names.overrides| ==> !Matches(state, obj, names.overrides[i], Category(obj)))
      ==> ts == DefaultTemplates(names, Category(obj))
    ensures forall i :: FirstMatch(state, obj, names.overrides, Category(obj), i) ==>
      ts == names.overrides[i].templates
  {
    match obj
    case DeviceObj(_) =>
      NameOverride(state, obj, names.overrides, Config.Device).GetOr(names.device)
    case NodeObj(n) =>
      if IsEndpoint(n) then
        NameOverride(state, obj, names.overrides, Config.Endpoint).GetOr(names.endpoint)
      else
        NameOverride(state, obj, names.overrides, Config.Stream).GetOr(names.stream)
  }

  // ---------------------------------------------------------------------
  // Resolution

  /** Renders a template with the object's own tag resolution. */
  function RenderWith(state: State, obj: Nameable, t: NameTemplate): Option<string> {
    Render(t, (tag: Tags.Tag) => ResolveTag(state, obj, tag))
  }

  /** `ts[k]` is the first template in `ts` that renders for `obj`. */
  ghost predicate FirstRendering(state: State, obj: Nameable, ts: seq<NameTemplate>, k: int) {
    && 0 <= k < |ts|
    && RenderWith(state, obj, ts[k]).Some?
    && forall j :: 0 <= j < k ==> RenderWith(state, obj, ts[j]) == None
  }

  /** Some template in `ts` renders for `obj`. */
  ghost predicate SomeRenders(state: State, obj: Nameable, ts: seq<NameTemplate>) {
    exists k :: 0 <= k < |ts| && RenderWith(state, obj, ts[k]).Some?
  }

  /** The display name of `obj`: the render of the first template of its
      selected list that renders; the object's own name when none does,
      including when the list is empty. */
  function Resolve(names: Config.Names, state: State, obj: Nameable): (r: Option<string>)
    ensures SomeRenders(state, obj, Templates(state, names, obj)) ==>
      exists k :: FirstRendering(state, obj, Templates(state, names, obj), k)
               && r == RenderWith(state, obj, Templates(state, names, obj)[k])
    ensures !SomeRenders(state, obj, Templates(state, names, obj)) ==> r == Fallback(obj)
  {
    FindMap(Templates(state, names, obj), (t: NameTemplate) => RenderWith(state, obj, t))
      .Or(Fallback(obj))
  }
}

/** Properties of display-name resolution. */
module NamesProperties {
  import opened Wrappers
  import Tags
  import opened NameTemplates
  import opened Seqs
  import opened Objects
  import Config
  import opened Names

  /** Two states in which `obj` answers every tag alike give it the same
      name: resolution sees the state only through tag resolution. */
  lemma ResolveCongruence(names: Config.Names, s1: State, s2: State, obj: Nameable)
    requires forall tag :: ResolveTag(s1, obj, tag) == ResolveTag(s2, obj, tag)
    ensures Resolve(names, s1, obj) == Resolve(names, s2, obj)
  {
    var c := Category(obj);
    var m1 := (o: Config.NameOverride) => if Matches(s1, obj, o, c) then Some(o.templates) else None;
    var m2 := (o: Config.NameOverride) => if Matches(s2, obj, o, c) then Some(o.templates) else None;
    FindMapExt(names.overrides, m1, m2);
    assert NameOverride(s1, obj, names.overrides, c) == NameOverride(s2, obj, names.overrides, c);
    var ts := Templates(s1, names, obj);
    assert ts == Templates(s2, names, obj);
    var f1 := (tag: Tags.Tag) => ResolveTag(s1, obj, tag);
    var f2 := (tag: Tags.Tag) => ResolveTag(s2, obj, tag);
    forall k | 0 <= k < |ts|
      ensures RenderWith(s1, obj, ts[k]) == RenderWith(s2, obj, ts[k])
    {
      RenderExt(ts[k], f1, f2);
    }
    FindMapExt(ts, (t: NameTemplate) => RenderWith(s1, obj, t), (t: NameTemplate) => RenderWith(s2, obj, t));
  }

  /** A device is a leaf of tag resolution: its name does not depend on the
      state at all. */
  lemma DeviceNameIgnoresState(names: Config.Names, s1: State, s2: State, d: Device)
    ensures Resolve(names, s1, DeviceObj(d)) == Resolve(names, s2, DeviceObj(d))
  {
    ResolveCongruence(names, s1, s2, DeviceObj(d));
  }

  /** A node's name depends on the state only through the device and the
      client it is linked to. */
  lemma NodeNameDependsOnlyOnLinks(names: Config.Names, s1: State, s2: State, n: Node)
    requires LinkedDevice(s1, n) == LinkedDevice(s2, n)
    requires LinkedClient(s1, n) == LinkedClient(s2, n)
    ensures Resolve(names, s1, NodeObj(n)) == Resolve(names, s2, NodeObj(n))
  {
    ResolveCongruence(names, s1, s2, NodeObj(n));
  }

  /** An override that does not apply to `obj` (its types exclude the
      object's category, or its property has another value) changes
      nothing, wherever it stands in the list. */
  lemma {:induction false} NonMatchingOverrideSkipped(names: Config.Names, state: State, obj: Nameable,
                                                      o: Config.NameOverride, i: nat)
    requires !Matches(state, obj, o, Category(obj))
    requires i <= |names.overrides|
    ensures Resolve(names.(overrides := names.overrides[..i] + [o] + names.overrides[i..]), state, obj)
         == Resolve(names, state, obj)
  {
    var c := Category(obj);
    var m := (o: Config.NameOverride) => if Matches(state, obj, o, c) then Some(o.templates) else None;
    FindMapSkip(names.overrides, m, o, i);
    var names' := names.(overrides := names.overrides[..i] + [o] + names.overrides[i..]);
    assert NameOverride(state, obj, names'.overrides, c) == NameOverride(state, obj, names.overrides, c);
    assert Templates(state, names', obj) == Templates(state, names, obj);
  }

  /** Once an override applies, it replaces the defaults entirely: the
      name is the same whatever the three default lists are. */
  lemma MatchingOverrideReplacesDefaults(names: Config.Names, state: State, obj: Nameable, i: nat,
                                         stream: seq<NameTemplate>, endpoint: seq<NameTemplate>,
                                         device: seq<NameTemplate>)
    requires FirstMatch(state, obj, names.overrides, Category(obj), i)
    ensures Resolve(names, state, obj)
         == Resolve(Config.Names(stream, endpoint, device, names.overrides), state, obj)
  {
  }

  /** A matching override with no templates yields the object's own name;
      the defaults are not tried. */
  lemma EmptyOverrideFallsBack(names: Config.Names, state: State, obj: Nameable, i: nat)
    requires FirstMatch(state, obj, names.overrides, Category(obj), i)
    requires names.overrides[i].templates == []
    ensures Resolve(names, state, obj) == Fallback(obj)
  {
  }

  /** With no overrides, a device is named by the first of its nick, its
      description and its name that is present. */
  lemma DefaultDeviceName(state: State, d: Device)
    ensures Resolve(Default(), state, DeviceObj(d)) == d.nick.Or(d.description).Or(d.name)
  {
    var obj := DeviceObj(d);
    var ts := Templates(state, Default(), obj);
    assert ts == DefaultDevice();
    var f := (tag: Tags.Tag) => ResolveTag(state, obj, tag);
    RenderTag(Tags.Device(Tags.DeviceNick), f);
    RenderTag(Tags.Device(Tags.DeviceDescription), f);
  }

  /** With no overrides, a sink or source node is named by the nick of its
      linked device, else its own description, else its own name. */
  lemma DefaultEndpointName(state: State, n: Node)
    requires IsEndpoint(n)
    ensures Resolve(Default(), state, NodeObj(n))
         == (if n.deviceId.Some? && n.deviceId.value in state.devices
             then state.devices[n.deviceId.value].nick else None)
            .Or(n.description).Or(n.name)
  {
    var obj := NodeObj(n);
    var ts := Templates(state, Default(), obj);
    assert ts == DefaultEndpoint();
    var f := (tag: Tags.Tag) => ResolveTag(state, obj, tag);
    RenderTag(Tags.Device(Tags.DeviceNick), f);
    RenderTag(Tags.Node(Tags.NodeDescription), f);
  }

  /** With no overrides, any other node is named "<name>: <media name>"
      when it has both, and otherwise by its own name. */
  lemma DefaultStreamName(state: State, n: Node)
    requires !IsEndpoint(n)
    ensures Resolve(Default(), state, NodeObj(n))
         == if n.name.Some? && n.mediaName.Some?
            then Some(n.name.value + ": " + n.mediaName.value)
            else n.name
  {
    var obj := NodeObj(n);
    var ts := Templates(state, Default(), obj);
    assert ts == DefaultStream();
    var f := (tag: Tags.Tag) => ResolveTag(state, obj, tag);
    var t := ts[0];
    assert t == [TagRef(Tags.Node(Tags.NodeName))] + [Literal(": ")] + [TagRef(Tags.Node(Tags.MediaName))];
    RenderAppend([TagRef(Tags.Node(Tags.NodeName))] + [Literal(": ")], [TagRef(Tags.Node(Tags.MediaName))], f);
    RenderAppend([TagRef(Tags.Node(Tags.NodeName))], [Literal(": ")], f);
    RenderTag(Tags.Node(Tags.NodeName), f);
    RenderTag(Tags.Node(Tags.MediaName), f);
    RenderLiteral(": ", f);
  }
}
