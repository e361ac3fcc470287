/**
 * The part of the schema-change operations package (scop) that the
 * foreign-key transition rule uses: transaction phases and the operations
 * its emission functions produce.
 */
module Scop {
  import opened Scpb

  /** The phases of the enclosing schema-change transaction, in execution order. */
  datatype Phase = StatementPhase | PreCommitPhase | PostCommitPhase {

    /** Position of the phase in execution order. */
    function Rank(): nat {
      match this
      case StatementPhase => 0
      case PreCommitPhase => 1
      case PostCommitPhase => 2
    }
  }

  /**
   * What an emission function returns: the placeholder for a transition that
   * is declared but not implemented, or the operation that removes a
   * foreign-key reference from a table descriptor.
   */
  datatype Op =
    | NotImplemented
    | DropForeignKeyRef(tableID: DescID, name: string, outbound: bool)
}
