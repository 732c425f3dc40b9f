/** What the desktop reducers and containers see of devices and clients: plain records.
    A device is known by its handle (object identity in the app); its class decides
    whether it can be selected by default and whether it is an archive. */
module Targets {
  /** The class of a device object. */
  datatype DeviceClass = Generic | Android | IOS | Mac | Archived

  /** A `BaseDevice`: `supportsOS` is the set of client operating systems it accepts. */
  datatype Device = Device(
    handle: nat,
    kind: DeviceClass,
    serial: string,
    title: string,
    os: string,
    deviceType: string,
    devicePlugins: seq<string>,
    supportedOS: set<string>)

  /** A client's query: `{app, os, device, device_id}`. */
  datatype Query = Query(app: string, os: string, device: string, deviceId: string)

  /** A connected `Client`: its id, its query and the plugins it reported. */
  datatype ClientView = ClientView(handle: nat, id: string, query: Query, plugins: seq<string>)
}
