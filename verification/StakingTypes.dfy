/** Records, errors and configuration of the staking pallet. */
module StakingTypes {
  import opened ReceiptTypes

  type AccountId = nat
  type Percent = x: nat | x <= 100

  datatype Option<+T> = None | Some(value: T)

  datatype Error =
    | InsufficientShares | ZeroWithdraw | MinimumOperatorStake | UnknownOperator
    | MinimumNominatorStake | BalanceUnderflow | BalanceOverflow | NotOperatorOwner | OperatorNotRegistered
    | OperatorNotDeactivated | UnknownNominator | ShareUnderflow | ShareOverflow
    | MissingOperatorEpochSharePrice | MissingWithdrawal | UnlockPeriodNotComplete
    | OperatorNotDeregistered | TooManyWithdrawals | ZeroDeposit | ZeroSharePrice
    | ReactivationDelayPeriodIncomplete | OperatorNotRegisteredOrDeactivated | BundleStorageFund

  datatype Result<+T> = Ok(value: T) | Err(error: Error) {
    predicate IsFailure() { Err? }
    function PropagateFailure<U>(): Result<U>
      requires Err?
    {
      Err(error)
    }
    function Extract(): T
      requires Ok?
    {
      value
    }
  }

  /** A deposit waiting for the share price of the epoch it was made in. */
  datatype Pending = Pending(epoch: nat, amount: nat, storageFee: nat)

  datatype Deposit = Deposit(shares: nat, storageFee: nat, pending: Option<Pending>)

  datatype InBalance = InBalance(unlockAt: nat, amount: nat, storageFee: nat)

  /** A withdrawal waiting for the share price of the epoch it was requested in. */
  datatype InShares = InShares(epoch: nat, unlockAt: nat, shares: nat, storageFee: nat)

  datatype Withdrawal = Withdrawal(total: nat, totalStorageFee: nat, queue: seq<InBalance>,
                                   inShares: Option<InShares>)

  const NO_DEPOSIT := Deposit(0, 0, None)
  const NO_WITHDRAWAL := Withdrawal(0, 0, [], None)

  datatype OperatorStatus =
    | Registered
    | Deregistered(epoch: nat, unlockAt: nat)
    | Slashed
    | PendingSlash
    | InvalidBundle(receipt: ReceiptHash)
    | Deactivated(until: nat)

  /** The status every check must use: the stored one may be stale while a slash is pending. */
  function StatusOf(stored: OperatorStatus, pendingSlash: bool): OperatorStatus {
    if stored.Slashed? then Slashed else if pendingSlash then PendingSlash else stored
  }

  datatype Config = Config(minOperatorStake: nat, withdrawalLimit: nat, lockingPeriod: nat, activationDelay: nat)
}
