/** Network endpoints, as GraphNode uses them: an IPv4 address and a 16-bit port. */
module Endpoints {
  type Octet = x: int | 0 <= x < 256

  type Port = x: int | 0 <= x < 0x1_0000

  datatype Address = IPv4(a: Octet, b: Octet, c: Octet, d: Octet)

  datatype Endpoint = Endpoint(address: Address, port: Port)

  const LOCALHOST := IPv4(127, 0, 0, 1)

  /** The node that only accepts and answers (include/GraphNode.h:30). */
  const FIRST_ENDPOINT := Endpoint(LOCALHOST, 12345)

  const FIRST: Port := FIRST_ENDPOINT.port

  /** Every node lives on the local host, so an endpoint is determined by its port. */
  function At(p: Port): Endpoint {
    Endpoint(LOCALHOST, p)
  }

  /** The conversion of an int to the unsigned short that an endpoint stores. */
  function PortOf(n: int): Port {
    n % 0x1_0000
  }
}
