// src/backend/endpoint.rs: the values that discovery tasks and the service manager exchange.
module Endpoints {

  type Port = n: nat | n < 0x1_0000

  datatype IpAddr = V4(octets: seq<nat>) | V6(segments: seq<nat>)

  datatype SocketAddr = SocketAddr(ip: IpAddr, port: Port)

  /** What a discovery task tells the service manager. */
  datatype EndpointEvent =
    | Add(
        uid: string,
        isAvailable: bool,
        externalPort: Port,
        externalProtocol: string,
        backendAddress: SocketAddr,
        backendProtocol: string)
    | Delete(uid: string)
    | Suspend(uid: string)
    | Resume(uid: string)

  datatype EndpointId = EndpointId(endpointDiscoveryName: string, uid: string)

  datatype Endpoint = Endpoint(isAvailable: bool, address: SocketAddr, protocol: string)

  /** What the service manager tells its subscriber. */
  datatype PortEvent = Open(port: Port, protocol: string) | Close(port: Port)
}
