/** Execution receipts and their hashes. */
module ReceiptTypes {

  type OperatorId = nat

  /** A bundle as an execution receipt reports it. */
  datatype InboxedBundle = InboxedBundle(extrinsicsRoot: nat, invalid: bool)

  /** `wellFormed` stands for the trace-root and state-root checks, `body` for every field that is
      only hashed. */
  datatype Receipt = Receipt(number: nat, consensus: nat, consensusHash: nat, bundles: seq<InboxedBundle>,
                             parent: ReceiptHash, wellFormed: bool, body: nat)

  /** Hashing is injective: a hash either remembers its receipt or is the hash of none. */
  datatype ReceiptHash = HashOf(receipt: Receipt) | OtherHash(bits: nat)
}
