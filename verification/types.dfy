/** The messages and records that every protocol of the framework shares. */
module Types {
  type Node = int
  type View = nat
  type Id = int

  /** The all-zero identifier: the parent named by the first block. */
  const GENESIS: Id := 0

  datatype Option<+T> = None | Some(value: T)

  /** `valid` is the verdict of the signature check on the certificate's signers. */
  datatype QC = QC(leader: Node, view: View, blockId: Id, signers: set<Node>, valid: bool)

  /** `valid` is the verdict of the signature check on the vote. */
  datatype Vote = Vote(view: View, voter: Node, blockId: Id, valid: bool)

  /** `hasQC` is false for a block that was sent without a certificate. */
  datatype Block = Block(id: Id, view: View, prevId: Id, qc: QC, hasQC: bool, proposer: Node)

  datatype Tmo = Tmo(view: View, node: Node, highQC: QC)

  /** The certificate a replica starts from. */
  const GENESIS_QC := QC(0, 0, GENESIS, {}, true)
}
