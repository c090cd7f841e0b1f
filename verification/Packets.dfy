/** What travels between the parties of a simulation. */
module Packets {
  import opened Events

  /** Who sends or receives; the printed names are one-to-one with these. */
  datatype Name = Root | Org(id: nat) | User(id: nat) | Peer(id: nat) | RevocationAuthority

  datatype Packet = Packet(from: Name, to: Name, what: Object)
}
