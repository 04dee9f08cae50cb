/** What the approval program decides, as one function of the application's state,
    the invoking call, its atomic group and the ledger's values: one function per
    handler, each stated directly over unbounded integers, and the dispatcher. */
module Approval {
  import opened Avm
  import opened Ledger
  import opened GroupScan

  /** The opcodes recognised in the call's first argument, as bytes. */
  const FUND: Bytes := [0x66, 0x75, 0x6e, 0x64]                          // "fund"
  const WITHDRAW: Bytes := [0x77, 0x69, 0x74, 0x68, 0x64, 0x72, 0x61, 0x77]  // "withdraw"
  const LOAN: Bytes := [0x6c, 0x6f, 0x61, 0x6e]                          // "loan"
  const REDEEM: Bytes := [0x72, 0x65, 0x64, 0x65, 0x65, 0x6d]              // "redeem"

  /** `handle_create`: "total" starts at 0. */
  ghost function CreateOutcome(s: PoolState): Outcome
  {
    Accept(s.(total := 0), [])
  }

  /** `handle_optin`: the first transaction pays the application; the caller's stake is
      set to that payment and "total" grows by it, unless "total" would overflow. */
  ghost function OptInOutcome(s: PoolState, call: AppCall, group: seq<GroupTxn>, env: Env): Outcome
  {
    if CheckPayment(group, env.appAddress) && s.total + group[0].amount <= UINT64_MAX then
      Accept(PoolState(s.total + group[0].amount, s.staked[call.sender := group[0].amount]), [])
    else Reject
  }

  /** `handle_closeout`: the caller's stake less the fee is paid back to the caller. */
  ghost function CloseOutOutcome(s: PoolState, call: AppCall, env: Env): Outcome
  {
    if call.sender in s.staked && env.minFee <= s.staked[call.sender] then
      Accept(s, [InnerPayment(call.sender, s.staked[call.sender] - env.minFee)])
    else Reject
  }

  /** `handle_loan`, with `arg` the call's first argument. */
  ghost function LoanOutcome(s: PoolState, call: AppCall, arg: Bytes, group: seq<GroupTxn>, env: Env): Outcome
  {
    if LoanApproved(arg, group, env.appAddress) then
      Accept(s, [InnerPayment(call.sender, Btoi(arg).value)])
    else Reject
  }

  /** `handle_fund`: the first transaction pays the application; the caller's stake and
      "total" both grow by that payment, unless either would overflow. */
  ghost function FundOutcome(s: PoolState, call: AppCall, group: seq<GroupTxn>, env: Env): Outcome
  {
    if && CheckPayment(group, env.appAddress)
       && call.sender in s.staked
       && s.staked[call.sender] + group[0].amount <= UINT64_MAX
       && s.total + group[0].amount <= UINT64_MAX
    then
      Accept(PoolState(s.total + group[0].amount,
                       s.staked[call.sender := s.staked[call.sender] + group[0].amount]), [])
    else Reject
  }

  /** `handle_withdrawal`, with `arg` the call's first argument: `btoi(arg)` is paid to
      the caller, whose stake drops by that amount and the fee; "total" is not written. */
  ghost function WithdrawOutcome(s: PoolState, call: AppCall, arg: Bytes, env: Env): Outcome
  {
    if && Btoi(arg).Some?
       && call.sender in s.staked
       && Btoi(arg).value + env.minFee <= s.staked[call.sender]
    then
      Accept(s.(staked := s.staked[call.sender := s.staked[call.sender] - Btoi(arg).value - env.minFee]),
             [InnerPayment(call.sender, Btoi(arg).value)])
    else Reject
  }

  /** `handle_redeem`: what the application holds beyond "total", its minimum balance and
      the fee is paid to the creator, whoever calls. */
  ghost function RedeemOutcome(s: PoolState, env: Env): Outcome
  {
    if s.total + env.minBalance + env.minFee <= env.balance then
      Accept(s, [InnerPayment(env.creator, env.balance - s.total - env.minBalance - env.minFee)])
    else Reject
  }

  /** `handle_noop`: dispatch on the first argument; a missing argument or any other
      opcode rejects. */
  ghost function NoOpOutcome(s: PoolState, call: AppCall, group: seq<GroupTxn>, env: Env): Outcome
  {
    if |call.args| == 0 then Reject
    else if call.args[0] == FUND then FundOutcome(s, call, group, env)
    else if call.args[0] == WITHDRAW then WithdrawOutcome(s, call, call.args[0], env)
    else if call.args[0] == LOAN then LoanOutcome(s, call, call.args[0], group, env)
    else if call.args[0] == REDEEM then RedeemOutcome(s, env)
    else Reject
  }

  /** `program`: creation is recognised before the call's on-completion action is;
      updates and deletions reject, and so does a clear-state action, which no branch
      matches. */
  ghost function ApprovalOutcome(s: PoolState, call: AppCall, group: seq<GroupTxn>, env: Env): (o: Outcome)
    ensures call.applicationId == 0 ==> o == Accept(s.(total := 0), [])
    ensures o.Accept? && call.applicationId != 0 ==>
              call.onCompletion == OptIn || call.onCompletion == CloseOut || call.onCompletion == NoOp
    ensures o.Accept? ==> |o.payments| <= 1
    ensures o.Accept? && o.state.total != s.total ==>
              call.applicationId == 0 || call.onCompletion == OptIn || call.onCompletion == NoOp
  {
    if call.applicationId == 0 then CreateOutcome(s)
    else
      match call.onCompletion
      case OptIn => OptInOutcome(s, call, group, env)
      case CloseOut => CloseOutOutcome(s, call, env)
      case UpdateApplication => Reject
      case DeleteApplication => Reject
      case NoOp => NoOpOutcome(s, call, group, env)
      case ClearState => Reject
  }
}
