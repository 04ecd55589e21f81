/** Tags name one property of one kind of object: a device, a node or a
    client. They are the placeholders a name template refers to and the
    properties a name override matches on. */
module Tags {

  datatype DeviceTag = DeviceName | DeviceNick | DeviceDescription

  datatype NodeTag = NodeName | NodeNick | NodeDescription | MediaName

  datatype ClientTag = ApplicationName | ApplicationProcessBinary

  datatype Tag =
    | Device(device: DeviceTag)
    | Node(node: NodeTag)
    | Client(client: ClientTag)
}
