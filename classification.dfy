/**
  Packets as the scheduler sees them, and the classifier that sends each packet
  to the first or the second weighted queue.
 */
module Classification {

  /** IPv4 protocol numbers the classifier recognises. */
  const UdpProtocol: nat := 17
  const TcpProtocol: nat := 6

  /**
    A packet with its headers already decoded: the simulator's unique id, the
    size in bytes, the IPv4 protocol number and the transport destination port.
   */
  datatype Packet = Packet(uid: nat, size: nat, protocol: nat, dstPort: nat)

  /** The two traffic classes: the first and the second weighted queue. */
  datatype Class = First | Second

  function Other(c: Class): Class {
    if c == First then Second else First
  }

  /**
    UDP and TCP packets whose destination port is the configured port go to the
    second queue; everything else, including every other protocol, goes to the
    first queue.
   */
  function Classify(p: Packet, secondQueuePort: nat): (c: Class)
    ensures c == Second <==>
              (p.protocol == UdpProtocol || p.protocol == TcpProtocol) && p.dstPort == secondQueuePort
  {
    if p.protocol == UdpProtocol then
      if p.dstPort == secondQueuePort then Second else First
    else if p.protocol == TcpProtocol then
      if p.dstPort == secondQueuePort then Second else First
    else
      First
  }
}
