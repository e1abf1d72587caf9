/** Records and errors of the block tree of execution receipts. */
module TreeTypes {
  import opened ReceiptTypes

  /** A stored receipt and, in order, every operator that submitted it. */
  datatype Node = Node(receipt: Receipt, operators: seq<OperatorId>)

  /** A bundle in the inbox of a domain block. */
  datatype Digest = Digest(header: nat, extrinsicsRoot: nat, size: nat)

  datatype TreeError =
    | InvalidExtrinsicsRoots | UnknownParentBlockReceipt | BuiltOnUnknownConsensusBlock | InFutureReceipt
    | PrunedReceipt | StaleReceipt | NewBranchReceipt | BadGenesisReceipt | MissingDomainBlock
    | InvalidExecutionTrace | UnavailableConsensusBlockHash | OverwritingER | UnmatchedNewHeadReceipt
    | BadReceiptNotFound | ChallengingGenesisReceipt | BadReceiptAlreadyReported | ParentReceiptNotFound
    | UnexpectedReceiptGap | ExpectingReceiptGap | BadOperator
    // a fee overflow or a failed transfer update while confirming
    | TransfersFailed
    // an index into the reported bundles out of range, which would abort the call
    | BundleIndexOutOfRange

  datatype Outcome<+T> = Done(value: T) | Failed(error: TreeError) {
    predicate IsFailure() { Failed? }
    function PropagateFailure<U>(): Outcome<U>
      requires Failed?
    {
      Failed(error)
    }
    function Extract(): T
      requires Done?
    {
      value
    }
  }
}
