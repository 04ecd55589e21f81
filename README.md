# Display-name resolution of wiremix, modelled in Dafny

This project models how wiremix picks one display name for an audio
device or node (`src/config/names.rs`). The name comes from user templates
such as `{device:device.nick}`, with a fixed order of precedence:

1. **Overrides.** The first override in list order applies if two things
   hold: its category list contains the object's category, and its
   property tag resolves to exactly its value. Its template list is then
   used, even when that list is empty.
2. **Category defaults.** Otherwise the object uses the default list for
   its category. A device is a device. A node whose media class is a sink
   or a source is an endpoint. Every other node is a stream.
3. **First render wins.** The templates of the chosen list are tried in
   order, and the first one that renders is the name.
4. **Fallback.** If none renders, the object's own `name` is used; that
   may be absent too.

Tags are resolved per object kind. Devices and clients answer only their
own tags. A node answers its own tags, and forwards device tags and client
tags to the device and client it is linked to by id. A missing id, or an
id the state does not know, gives an absent value.

Files and modules:

- `wrappers.dfy` (`Wrappers`): `Option` with `Or` and `GetOr`, and map lookup.
- `tags.dfy` (`Tags`): the three tag enumerations and `Tag`.
- `name_template.dfy` (`NameTemplates`): templates as segment sequences and
  their rendering. This is an assumption, because the template module is
  not part of this model. Rendering goes left to right, copying literals
  and substituting tag values, and is all-or-nothing: one absent tag and
  the whole render is absent.
- `seqs.dfy` (`Seqs`): `FindMap`, the ordered "first success" scan
  (Rust's `find_map`). It is used both for override lookup and for the
  scan over a template list in `Resolve`.
- `objects.dfy` (`Objects`): the device, node and client records, and the
  state that maps ids to devices and clients.
- `config.dfy` (`Config`): `Names`, `NameOverride` and `OverrideType`.
  These are declared in the configuration module, which is not part of
  this model; the records only carry data.
- `names.dfy` (`Names`, `NamesProperties`): the engine and the properties
  proved about it.
- `names_examples.dfy` (`NamesExamples`): the rendering tests of
  `names.rs`, each stated as a lemma over the same fixture, plus one
  override that differs on its value only.

Everything is pure, as in the source. There are only functions and lemmas,
and the two ordered scans are recursive functions over sequences.

An override's categories are a list (`Vec`), tested with `contains`, not a
set.

## Model

| member | source | states |
|---|---|---|
| `NameTemplates.Render` | src/config/names.rs:51 | Assumed renderer of a parsed template (the template module is not part of this model). The render is present exactly when every tag the template refers to resolves. |
| `NameTemplates.RenderAppend` | src/config/names.rs:51 | Rendering a concatenation of two templates gives the concatenation of their renders, and fails when either half fails. |
| `NameTemplates.RenderExt` | src/config/names.rs:51 | A render depends on the resolver only at the tags the template refers to. |
| `NameTemplates.RenderTag` | src/config/names.rs:51 | A one-tag template renders to that tag's value, or is absent with it. |
| `NameTemplates.RenderLiteral` | src/config/names.rs:51 | A one-literal template always renders, to the literal. |
| `Seqs.FindMap` | src/config/names.rs:91-96 | The scan is absent exactly when every element fails. Otherwise it equals the result of the first element that succeeds. |
| `Seqs.FindMapExt` | src/config/names.rs:47-52 | Two scans over one list agree when their functions agree on every element. |
| `Seqs.FindMapSkip` | src/config/names.rs:91-96 | Inserting a failing element anywhere in the list leaves the scan unchanged. |
| `Names.Default` | src/config/names.rs:57-66 | The default configuration has no overrides, one stream template, two endpoint templates and two device templates. |
| `Names.DeviceResolveTag` | src/config/names.rs:100-117 | A device gives its own name, nick or description for the three device tags, and absent for every node or client tag. |
| `Names.ClientResolveTag` | src/config/names.rs:195-213 | A client gives its application name or process binary for the client tags, and absent for every node or device tag. |
| `Names.NodeResolveTag` | src/config/names.rs:138-161 | A node gives its own fields for node tags. A device or client tag is absent when the link id is missing or unknown to the state. Otherwise it is the linked device's or client's answer. |
| `Names.Category` | src/config/names.rs:173-190 | An object is a device, or a sink/source node (endpoint), or any other node (stream), and these are exactly the three cases. |
| `Names.NameOverride` | src/config/names.rs:85-97 | The result is absent exactly when no override has the category and an exactly matching property value. Otherwise it is the templates of the first such override. |
| `Names.Templates` | src/config/names.rs:124-192 | The first matching override for the object's category supplies the list, even an empty one. With no matching override, the category's default list is used. |
| `Names.Resolve` | src/config/names.rs:42-54 | The name is the render of the first template in the selected list that renders. Earlier failures are skipped and later templates are not consulted. When none renders, including an empty list, the name is the fallback `name`. |
| `NamesProperties.ResolveCongruence` | src/config/names.rs:42-54 | Resolution sees the state only through tag resolution. Two states in which the object answers every tag alike give the same name. |
| `NamesProperties.DeviceNameIgnoresState` | src/config/names.rs:100-136 | A device is a leaf of tag resolution, so its name is the same in every state. |
| `NamesProperties.NodeNameDependsOnlyOnLinks` | src/config/names.rs:138-161 | A node's name depends on the state only through its linked device and linked client. |
| `NamesProperties.NonMatchingOverrideSkipped` | src/config/names.rs:91-96 | Inserting, anywhere in the list, an override whose category or value does not match leaves the name unchanged. |
| `NamesProperties.MatchingOverrideReplacesDefaults` | src/config/names.rs:168-192 | Once an override matches, the name does not depend on the three default lists. |
| `NamesProperties.EmptyOverrideFallsBack` | src/config/names.rs:177-190 | A first matching override with no templates gives the fallback name, and the defaults are not tried. |
| `NamesProperties.DefaultDeviceName` | src/config/names.rs:25-30 | Under the defaults, a device's name is its nick, else its description, else its name. |
| `NamesProperties.DefaultEndpointName` | src/config/names.rs:18-23 | Under the defaults, a sink/source node's name is its linked device's nick, else its description, else its name. |
| `NamesProperties.DefaultStreamName` | src/config/names.rs:14-16 | Under the defaults, a stream node's name is "name: media name" when it has both, and otherwise its name. |
| `NamesExamples.RenderEndpoint` | src/config/names.rs:291-310 | A sink node with endpoint list `{node:node.nick}` is named "Node nick". |
| `NamesExamples.RenderEndpointMissingTag` | src/config/names.rs:312-333 | A missing node description falls back to "Node name". |
| `NamesExamples.RenderDeviceMissingTag` | src/config/names.rs:335-348 | A missing device description falls back to "Device name". |
| `NamesExamples.RenderEndpointLinkedDevice` | src/config/names.rs:350-374 | A linked sink node resolves `{device:device.nick}` to "Device nick". |
| `NamesExamples.RenderEndpointLinkedDeviceMissingTag` | src/config/names.rs:376-401 | A linked device without a description leaves the node its own name. |
| `NamesExamples.RenderEndpointNoLinkedDevice` | src/config/names.rs:403-424 | An unlinked node resolves no device tag and is named "Node name". |
| `NamesExamples.RenderStream` | src/config/names.rs:426-438 | A node without a media class uses the stream list: "Node nick". |
| `NamesExamples.RenderStreamLinkedClient` | src/config/names.rs:440-457 | A node linked to a client resolves `{client:application.name}` to "Client name". |
| `NamesExamples.RenderPrecedence` | src/config/names.rs:459-474 | A failing first template is skipped; the second gives "Node nick". |
| `NamesExamples.RenderOverrideMatch` | src/config/names.rs:476-496 | A matching stream override is used in place of the defaults: "Node nick". |
| `NamesExamples.RenderOverrideTypeMismatch` | src/config/names.rs:498-515 | An override for devices only is skipped for a stream node, which ends at "Node name". |
| `NamesExamples.RenderOverrideValueMismatch` | src/config/names.rs:517-534 | An override for devices only, whose property value also differs, is skipped for a stream node: "Node name". The source test mismatches on type as well as on value. |
| `NamesExamples.OverrideValueOnlyMismatch` | src/config/names.rs:92-94 | A stream override whose category matches but whose property (the absent node description) is not "Node name" is skipped: "Node name". |
| `NamesExamples.RenderOverrideEmptyTemplates` | src/config/names.rs:536-553 | A matching override with no templates gives "Node name". |

## Left out

- Template parsing (source strings such as `"{device:device.nick}"` into
  templates and tags): the parser is not part of this model. The default
  templates at src/config/names.rs:14-30 are written directly as segment
  sequences.
- `NameTemplates.Render` is an assumption about the template module, which
  is not part of this model. It renders segments left to right, copying
  literals and substituting each tag's value, and is absent as soon as one
  tag is absent. The default-name lemmas and the examples rely on both
  halves.
- `MediaClass::is_sink` and `is_source` are foreign. A media class is
  modelled by the two booleans they would return.
- The event ingestion that builds the state and the records (`State::update`,
  the capture manager, monitor events, object id construction) is left
  out. The examples build records and maps directly, and object ids are
  natural numbers.
- Rust lifetimes, borrowing and cloning: strings are plain values.
- Configuration file loading and deserialisation.
- `Names.DeviceResolveTag` and `Names.ClientResolveTag` take no state
  parameter, because the source ignores it (`_state`).
- Clients are never named themselves: the source implements only tag
  resolution for them, and the model has no fallback or template list for
  a client.
