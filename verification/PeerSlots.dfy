/** Peer slots: every node numbers the other nodes in ring order, starting at its successor. */
module PeerSlots {

  /** The node in slot `slot` of `node`. */
  function PeerRank(node: nat, nodes: nat, slot: nat): nat
    requires node < nodes && slot < nodes - 1
  {
    var r := node + 1 + slot;
    if r >= nodes then r - nodes else r
  }

  /** The slot of node `mine` in the table of node `peer`. */
  function SlotAtPeer(mine: nat, peer: nat, nodes: nat): int
    requires mine < nodes && peer < nodes
  {
    var slot := mine - peer - 1;
    if slot < 0 then slot + nodes else slot
  }

  /** The two maps are inverse to each other, and no node is its own peer. */
  lemma SlotsInverse(node: nat, peer: nat, nodes: nat, slot: nat)
    requires node < nodes && peer < nodes && peer != node && slot < nodes - 1
    ensures PeerRank(node, nodes, slot) < nodes && PeerRank(node, nodes, slot) != node
    ensures SlotAtPeer(PeerRank(node, nodes, slot), node, nodes) == slot
    ensures 0 <= SlotAtPeer(peer, node, nodes) < nodes - 1
    ensures PeerRank(node, nodes, SlotAtPeer(peer, node, nodes)) == peer
  {
  }
}
