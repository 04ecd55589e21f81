/** The object records the engine reads: devices, nodes and clients, each
    with properties that may not have been observed yet, and the state
    that maps object ids to devices and clients. */
module Objects {
  import opened Wrappers

  type ObjectId = nat

  datatype Device = Device(
    name: Option<string>,
    nick: Option<string>,
    description: Option<string>)

  datatype Client = Client(
    applicationName: Option<string>,
    applicationProcessBinary: Option<string>)

  /** What the engine needs of a node's media class: whether it is a sink
      and whether it is a source. */
  datatype MediaClass = MediaClass(isSink: bool, isSource: bool)

  datatype Node = Node(
    name: Option<string>,
    nick: Option<string>,
    description: Option<string>,
    mediaName: Option<string>,
    mediaClass: Option<MediaClass>,
    deviceId: Option<ObjectId>,
    clientId: Option<ObjectId>)

  datatype State = State(devices: map<ObjectId, Device>, clients: map<ObjectId, Client>)
}
