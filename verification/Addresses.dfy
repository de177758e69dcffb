/** Addresses with ports, and IPv4 addresses written as IPv6 ones. */
module Addresses {
  import opened Bytes

  /** Four bytes, sixteen bytes, or something that is not an address. */
  datatype AddrPort = AddrPort(ip: bytes, port: nat)

  const MAPPED: bytes := [0, 0, 0, 0, 0, 0, 0, 0, 0, 0, 255, 255]

  function Unmap(ip: bytes): (r: bytes)
    ensures |ip| in {4, 16} ==> |r| in {4, 16}
  {
    if |ip| == 16 && ip[..12] == MAPPED then ip[12..] else ip
  }
}
