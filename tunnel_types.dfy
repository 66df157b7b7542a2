/**
 * The records exchanged between the server and the client (src/types/tunnel.ts).
 * Timestamps are the values of a monotone counter rather than dates.
 */
module TunnelTypes {

  /** A stored tunnel record as the server returns it. */
  datatype Tunnel = Tunnel(
    id: string,
    name: string,
    serviceType: string,
    hostname: string,
    localPort: int,
    localHost: string,
    protocol: string,
    userId: string,
    createdAt: nat,
    updatedAt: nat)

  /** The six business fields a client submits to create a tunnel. */
  datatype CreateTunnelData = CreateTunnelData(
    name: string,
    serviceType: string,
    hostname: string,
    localPort: int,
    localHost: string,
    protocol: string)

  /** The business fields plus the id of the record being edited. */
  datatype UpdateTunnelData = UpdateTunnelData(
    id: string,
    name: string,
    serviceType: string,
    hostname: string,
    localPort: int,
    localHost: string,
    protocol: string)

  /** The two shell commands rendered for a tunnel. */
  datatype TunnelCommands = TunnelCommands(configCommand: string, runCommand: string)

  /** One entry of a service-type defaults table: the suggested port and protocol. */
  datatype PortDefaults = PortDefaults(port: int, protocol: string)
}
