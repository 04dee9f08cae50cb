/** What the approval program sees of the ledger: the invoking application call,
    the atomic group it belongs to, a few global values, and the application's
    global and local state. */
module Ledger {
  import opened Avm

  /** An account address. On the ledger every address is 32 bytes long; the model
      admits any length so that the consequences of that length can be stated. */
  type Address = Bytes

  predicate IsLedgerAddress(a: Address)
  {
    |a| == 32
  }

  /** The `type_enum` of a transaction. */
  datatype TxnType = Payment | KeyRegistration | AssetConfig | AssetTransfer | AssetFreeze | ApplicationCall

  /** One transaction of the atomic group, with the fields the program reads through
      `Gtxn[n]`. A field that does not apply to the transaction's type reads as zero. */
  datatype GroupTxn = GroupTxn(kind: TxnType, receiver: Address, amount: Uint64, applicationId: Uint64)

  datatype OnComplete = NoOp | OptIn | CloseOut | ClearState | UpdateApplication | DeleteApplication

  /** The transaction that runs the approval program (`Txn`). */
  datatype AppCall = AppCall(applicationId: Uint64, onCompletion: OnComplete, sender: Address, args: seq<Bytes>)

  /** Values the program reads from the ledger and takes as given: the application's
      own address, its creator, the minimum transaction fee, and the balance and
      minimum balance of the application's account. */
  datatype Env = Env(appAddress: Address, creator: Address, minFee: Uint64, balance: Uint64, minBalance: Uint64)

  /** A payment the program submits as an inner transaction. */
  datatype InnerPayment = InnerPayment(receiver: Address, amount: Uint64)

  /** The application's state: the global key "total" and the local key "staked" of
      every account that has opted in (an account absent from `staked` has not). */
  datatype PoolState = PoolState(total: Uint64, staked: map<Address, Uint64>)

  /** What one run of the approval program decides. A rejected call changes nothing
      and pays nothing: the ledger discards its writes and inner transactions. */
  datatype Outcome = Reject | Accept(state: PoolState, payments: seq<InnerPayment>)
}
