# Stake pool with flash loans: the approval program in Dafny

This project models the approval program of an Algorand application, `approval_program` in
`contracts.py`. It is written in PyTeal for TEAL version 5. The application is a stake pool
that also lends uncollateralised "flash" loans. Each loan must be repaid in the same atomic
group.

The approval program runs once per application call. It reads the global key `total`, the
caller's local key `staked`, the invoking transaction (`Txn`) and the other transactions of
its atomic group (`Gtxn[n]`). It then approves or rejects. On approval it may have written
new values for `total` and `staked`, and it may have submitted inner payments.

## Layout

- `avm.dfy` (module `Avm`): uint64 values whose `+`, `-` and `*` abort the program on
  overflow, byte strings, `btoi` as a partial big-endian decode (it fails on more than 8
  bytes), and `itob` as its inverse.
- `ledger.dfy` (module `Ledger`): the invoking call, the group transactions, the ledger values
  the program reads, the application state, inner payments and the outcome of a call
  (`Reject`, or `Accept` with the new state and the payments).
- `group_scan.dfy` (module `GroupScan`): `check_payment`, `checkRepay` and the duplicate-call
  test as predicates. `HandleLoan` is the loan handler as a method with the program's two
  `For` loops as `while` loops. It is proved against `LoanApproved`, a definition by
  quantifiers over the examined group positions.
- `approval.dfy` (module `Approval`): the specification. `ApprovalOutcome` decides every call
  in closed form over unbounded integers, with one function per handler.
- `pool.dfy` (module `Pool`): class `StakePool`, with the fields `total` and `staked`. It runs
  the program step by step: `localGet`, `localPut`, `globalPut`, aborting arithmetic and the
  `Cond` dispatch. `Execute` adds the ledger's rule that a rejected call keeps no writes. Each
  method is proved equal to its specification function.
- `stake_sum.dfy` (module `StakeSum`): the sum of all stakes, which `total` is meant to equal.
- `properties.dfy` (module `Properties`): the properties of the program, for all inputs.

## Consequences of the code as written

The model follows the code, within the ledger rules listed under "## Left out". Four consequences of the code are proved as lemmas.

- The handlers read their amount as `arg2 = Btoi(Txn.application_args[0])` (contracts.py:9).
  That argument is the opcode itself. A loan therefore always asks for `btoi("loan")` =
  1819238766, and a withdrawal always asks for `btoi("withdraw")` = 8604536554778681719
  (`OpcodeAmounts`).
- Each loan loop adds 1 to `i` in its body and 1 more in its step (contracts.py:87-95). So only
  group positions 0, 2, 4, … are examined (`OddPositionsIgnored`).
- `checkDup` compares call targets with `Btoi(contract_addr)` (contracts.py:74). A ledger
  address has 32 bytes, so `btoi` aborts the program. PyTeal's `And` evaluates both operands,
  so this happens at the first examined position. No loan is ever approved
  (`LoanNeverApprovedOnLedger`), and neither is the walk-through's loan
  (`StakingWalkthrough`).
- Withdrawal and close-out never write `total` (contracts.py:39-48, 108-119). Both break the
  intended equality between `total` and the sum of the stakes
  (`WithdrawLeavesTotalAboveStakes`, `CloseOutLeavesStakeInTotal`). Redeem does not check who
  calls (`RedeemIgnoresSender`).

## Model

| member | source | states |
|---|---|---|
| `Avm.Btoi` | contracts.py:9 | `btoi` succeeds exactly on strings of at most 8 bytes, and its value fits in that many bytes |
| `Avm.BtoiOfItob` | contracts.py:9 | `btoi` decodes the 8-byte big-endian encoding of every uint64 back to that value |
| `Avm.BtoiPadded` | contracts.py:9 | `btoi` of a string of at most 8 bytes is the uint64 whose 8-byte encoding is that string with leading zero bytes added |
| `Avm.ItobOfBtoi` | contracts.py:9 | on 8-byte strings `btoi` loses nothing: re-encoding its value gives the string back |
| `GroupScan.CheckPayment` | contracts.py:18-21 | `check_payment`: group transaction 0 exists, is a payment, and its receiver is the application's address |
| `GroupScan.CheckRepay` | contracts.py:64-69 | `checkRepay`: the transaction is a payment to the application of at least the required amount; one that repays a requirement repays every smaller one |
| `GroupScan.IsLoanCall` | contracts.py:74 | the first conjunct of `checkDup`: the transaction is an application call to the given id |
| `GroupScan.RequiredRepayment` | contracts.py:67 | `arg2 * 101 / 100` aborts exactly when `arg2 * 101` overflows uint64; otherwise it is 101% of `arg2` rounded down |
| `GroupScan.DuplicateScanStep` | contracts.py:87-89 | one pass of the duplicate loop examines position `i` and skips `i + 1`: a call is seen, or a second one found, only through position `i` |
| `GroupScan.DuplicateGuard` | contracts.py:72-90 | the first loop runs to its end exactly when the group is empty, or `btoi` of the address succeeds and no two examined positions call that id |
| `GroupScan.RepaymentSearch` | contracts.py:92-96 | the second loop approves exactly when the amount and its 101% are computable and an examined position repays it, and then pays `btoi(arg)` to the caller |
| `GroupScan.HandleLoan` | contracts.py:84-97 | the two loops approve exactly when `LoanApproved` holds: every examined (even) position passes `checkDup` without a second call to the application, and one repays; the loan `btoi(arg)` is then paid to the caller |
| `Approval.ApprovalOutcome` | contracts.py:140-147 | `program`: a creation call sets `total` to 0 and approves; any other approved call is an opt-in, close-out or no-op; an approved call submits at most one payment; only creation, opt-in and no-op calls can change `total` |
| `Pool.StakePool.LocalGet` | contracts.py:10 | `App.localGet(Int(0), Bytes("staked"))` has a value exactly when the caller has opted in, and it is the caller's stake; reading the local state of an account that has not opted in aborts the program, which is why fund, withdraw and close-out reject for such a caller |
| `Pool.StakePool.GlobalPut` | contracts.py:25 | writes `total` and nothing else |
| `Pool.StakePool.LocalPut` | contracts.py:33 | writes the caller's `staked` and nothing else |
| `Pool.StakePool.HandleCreate` | contracts.py:24-27 | sets `total` to 0 and approves, as `CreateOutcome` |
| `Pool.StakePool.HandleOptIn` | contracts.py:31-36 | the step-by-step run (check_payment, localPut, checked add, globalPut) agrees with `OptInOutcome` |
| `Pool.StakePool.HandleCloseOut` | contracts.py:39-48 | reading the stake and subtracting the fee agrees with `CloseOutOutcome` and writes nothing |
| `Pool.StakePool.HandleFund` | contracts.py:100-105 | the step-by-step run agrees with `FundOutcome` |
| `Pool.StakePool.HandleWithdrawal` | contracts.py:108-119 | the assert, the payment and the checked debit agree with `WithdrawOutcome` |
| `Pool.StakePool.HandleRedeem` | contracts.py:122-131 | the three checked subtractions agree with `RedeemOutcome` and write nothing |
| `Pool.StakePool.HandleNoOp` | contracts.py:133-138 | dispatch on the first argument agrees with `NoOpOutcome`; the loan branch runs `HandleLoan` |
| `Pool.StakePool.Program` | contracts.py:140-147 | the `Cond` dispatch agrees with `ApprovalOutcome` |
| `Pool.StakePool.Execute` | contracts.py:140-147 | an approved call leaves exactly the state and payments of `ApprovalOutcome`; a rejected one leaves the state unchanged and pays nothing |
| `Properties.LoanAmount` | contracts.py:9 | in the loan handler `arg2` is `btoi("loan")` = 1819238766 |
| `Properties.WithdrawAmount` | contracts.py:9 | in the withdrawal handler `arg2` is `btoi("withdraw")` = 8604536554778681719 |
| `Properties.OpcodeAmounts` | contracts.py:8-9 | collects `LoanAmount` and `WithdrawAmount`: `arg2` is `btoi` of the opcode: 1819238766 for "loan", 8604536554778681719 for "withdraw"; a loan must be repaid with 1837431153 |
| `Properties.CreationSetsTotalToZero` | contracts.py:24-27 | corollary of `ApprovalOutcome`: a call with application id 0 sets `total` to 0, keeps the stakes and approves, whatever its on-completion action |
| `Properties.UpdateAndDeleteReject` | contracts.py:144-145 | update and delete calls always reject |
| `Properties.UnmatchedCallsReject` | contracts.py:133-147 | clear-state, a no-op without arguments, or an unknown opcode rejects |
| `Properties.DepositNeedsPaymentToApplication` | contracts.py:18-21 | an approved opt-in or fund call has group transaction 0 as a payment to the application |
| `Properties.OptInCreditsPayment` | contracts.py:31-36 | opt-in approves iff transaction 0 pays the application and `total` does not overflow; the stake becomes that payment and `total` grows by it |
| `Properties.FundCreditsPayment` | contracts.py:100-105 | fund approves iff transaction 0 pays the application, the caller has opted in and neither sum overflows; stake and `total` both grow by the payment |
| `Properties.WithdrawPaysAndDebits` | contracts.py:108-119 | withdraw approves iff the amount is at most the stake and the rest covers the fee; it pays exactly the amount, debits amount plus fee and leaves `total` unchanged |
| `Properties.CloseOutPaysStakeLessFee` | contracts.py:39-48 | close-out approves iff the stake covers the fee, pays the stake less the fee to the caller, and writes nothing |
| `Properties.LoanPaysWhenRepaid` | contracts.py:64-97 | a loan approves iff the group passes the duplicate guard and repays 1837431153 at an examined position; it then pays 1819238766 to the caller and changes no state |
| `Properties.DuplicateLoanCallRejects` | contracts.py:72-90 | two calls to the application at even positions make a loan call reject |
| `Properties.LoanNeverApprovedOnLedger` | contracts.py:74 | with a 32-byte application address `btoi` aborts, so every loan call rejects |
| `Properties.RepaymentThreshold` | contracts.py:64-69 | a transaction repays a loan of `a` iff it pays the application at least 101% of `a` rounded down, so one unit less fails |
| `Properties.OddPositionsIgnored` | contracts.py:87-95 | changing a transaction at an odd group position never changes whether a loan is approved |
| `Properties.RedeemPaysCreator` | contracts.py:122-131 | redeem approves iff balance covers `total`, minimum balance and fee; the creator is paid the remainder and no state changes |
| `Properties.RedeemIgnoresSender` | contracts.py:122-131 | redeem never checks who calls: the sender never changes its outcome (with account availability left out) |
| `Properties.OptInKeepsTotalEqualToStakes` | contracts.py:31-36 | a first opt-in keeps `total` equal to the sum of the stakes |
| `Properties.FundKeepsTotalEqualToStakes` | contracts.py:100-105 | fund keeps `total` equal to the sum of the stakes |
| `Properties.WithdrawLeavesTotalAboveStakes` | contracts.py:108-119 | withdraw takes amount plus fee out of the stakes but not out of `total` |
| `Properties.CloseOutLeavesStakeInTotal` | contracts.py:39-48 | once the ledger drops the closing account's record, `total` still counts its stake |
| `Properties.StakingWalkthrough` | contracts.py:24-119 | create, opt in with 1000 and fund with 500 give stake and `total` 1500; the loan and the withdrawal that follow reject |

## Left out

- `compileTeal` and writing the `.teal` files (contracts.py:149, 156-163): code generation and file output.
- `clear_state_program` (contracts.py:152-154): it approves unconditionally and has no logic.
- Inner transaction submission: an emitted payment is only an output record. Whether the application's account can fund it, and how its fee is paid, are left to the ledger.
- `Balance`, `MinBalance`, `min_txn_fee`, the creator and the application address are inputs (`Env`). The TEAL 5 account-availability rules are not modelled: `balance` and `min_balance` may only name an available account, and an inner payment's receiver must be one too (the sender always is). So redeem, which pays the creator, also depends on whether the creator is listed in the call's accounts or is the caller; `RedeemIgnoresSender` states the missing sender check with this rule left out.
- CreateOutcome: an account that opts in with the creation call itself has local state but no `staked` key, because `handle_create` writes only `total`. `localGet` reads a missing key as 0, so that account can later fund. The model keeps only accounts with a `staked` key in `staked`. Such an account would be represented as `staked[a] == 0`, but `CreateOutcome` does not add it, so in the model a later fund by it rejects.
- Atomic-group commit, signing and submission belong to the ledger. The model only discards a rejected call's writes (`Execute`).
- The ledger allocates the caller's local state before an opt-in runs and releases it after a close-out. Neither effect appears in an outcome, which shows only the program's own writes. `CloseOutLeavesStakeInTotal` states what the release does to the sum.
- Ledger-side checks are not modelled: an account cannot opt in twice, a group has 1 to 16 transactions, and the invoking call is one of them. The group and the invoking call are independent inputs.
- A clear-state call never reaches this program: the ledger runs `clear_state_program` instead and drops the caller's local state whatever it returns. The `ClearState` branch of `ApprovalOutcome`, and the clear-state case of `UnmatchedCallsReject`, therefore describe no real call. The dropped `staked` stays counted in `total`, as `CloseOutLeavesStakeInTotal` shows for close-out.
- The scratch slots `i` and `num_calls` are uint64 on the AVM. `i` is modelled as an unbounded integer; with at most 16 transactions it never nears the limit.
