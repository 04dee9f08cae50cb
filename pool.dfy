/** The approval program run step by step against the application's state, the way
    the program changes it: `App.globalPut("total")` and `App.localPut("staked")`,
    with the AVM's aborting arithmetic, inner payments submitted as they are built,
    and every write of a rejected call discarded by the ledger. */
module Pool {
  import opened Avm
  import opened Ledger
  import opened GroupScan
  import opened Approval

  /** The run of a handler agrees with its specification `o`: it approves exactly when
      `o` accepts, and then leaves the state and the payments `o` names. */
  ghost predicate Agrees(approved: bool, state: PoolState, payments: seq<InnerPayment>, o: Outcome)
  {
    approved == o.Accept? && (approved ==> o == Accept(state, payments))
  }

  class StakePool {
    /** The global key "total". */
    var total: Uint64
    /** The local key "staked" of each account that has opted in. */
    var staked: map<Address, Uint64>

    function State(): (s: PoolState)
      reads this
    {
      PoolState(total, staked)
    }

    constructor (s: PoolState)
      ensures State() == s
    {
      total := s.total;
      staked := s.staked;
    }

    /** `App.globalPut(Bytes("total"), v)`. */
    method GlobalPut(v: Uint64)
      modifies this
      ensures State() == old(State()).(total := v)
    {
      total := v;
    }

    /** `App.localPut(Int(0), Bytes("staked"), v)` for the calling account, whose local
        state the ledger has allocated (at opt-in, before the program runs). */
    method LocalPut(account: Address, v: Uint64)
      modifies this
      ensures State() == old(State()).(staked := old(staked)[account := v])
    {
      staked := staked[account := v];
    }

    /** `App.localGet(Int(0), Bytes("staked"))`; None when the account has not opted in,
        which aborts the program. */
    function LocalGet(account: Address): (v: Option<Uint64>)
      reads this
      ensures v.Some? <==> account in staked
      ensures v.Some? ==> v.value == staked[account]
    {
      if account in staked then Some(staked[account]) else None
    }

    method HandleCreate() returns (approved: bool, payments: seq<InnerPayment>)
      modifies this
      ensures Agrees(approved, State(), payments, CreateOutcome(old(State())))
    {
      GlobalPut(0);
      return true, [];
    }

    method HandleOptIn(call: AppCall, group: seq<GroupTxn>, env: Env) returns (approved: bool, payments: seq<InnerPayment>)
      modifies this
      ensures Agrees(approved, State(), payments, OptInOutcome(old(State()), call, group, env))
    {
      if !CheckPayment(group, env.appAddress) {
        return false, [];
      }
      LocalPut(call.sender, group[0].amount);
      var newTotal := Add(total, group[0].amount);
      if newTotal.None? {
        return false, [];
      }
      GlobalPut(newTotal.value);
      return true, [];
    }

    method HandleCloseOut(call: AppCall, env: Env) returns (approved: bool, payments: seq<InnerPayment>)
      ensures Agrees(approved, State(), payments, CloseOutOutcome(State(), call, env))
    {
      var stake := LocalGet(call.sender);
      if stake.None? {
        return false, [];
      }
      var amount := Sub(stake.value, env.minFee);
      if amount.None? {
        return false, [];
      }
      return true, [InnerPayment(call.sender, amount.value)];
    }

    method HandleFund(call: AppCall, group: seq<GroupTxn>, env: Env) returns (approved: bool, payments: seq<InnerPayment>)
      modifies this
      ensures Agrees(approved, State(), payments, FundOutcome(old(State()), call, group, env))
    {
      if !CheckPayment(group, env.appAddress) {
        return false, [];
      }
      var stake := LocalGet(call.sender);
      if stake.None? {
        return false, [];
      }
      var newStake := Add(stake.value, group[0].amount);
      if newStake.None? {
        return false, [];
      }
      LocalPut(call.sender, newStake.value);
      var newTotal := Add(total, group[0].amount);
      if newTotal.None? {
        return false, [];
      }
      GlobalPut(newTotal.value);
      return true, [];
    }

    method HandleWithdrawal(call: AppCall, arg: Bytes, env: Env) returns (approved: bool, payments: seq<InnerPayment>)
      modifies this
      ensures Agrees(approved, State(), payments, WithdrawOutcome(old(State()), call, arg, env))
    {
      var arg2 := Btoi(arg);
      if arg2.None? {
        return false, [];
      }
      var stake := LocalGet(call.sender);
      if stake.None? || !(arg2.value <= stake.value) {
        return false, [];
      }
      payments := [InnerPayment(call.sender, arg2.value)];
      var rest := Sub(stake.value, arg2.value);
      var newStake := Sub(rest.value, env.minFee);
      if newStake.None? {
        return false, [];
      }
      LocalPut(call.sender, newStake.value);
      return true, payments;
    }

    method HandleRedeem(env: Env) returns (approved: bool, payments: seq<InnerPayment>)
      ensures Agrees(approved, State(), payments, RedeemOutcome(State(), env))
    {
      var afterTotal := Sub(env.balance, total);
      if afterTotal.None? {
        return false, [];
      }
      var afterMinBalance := Sub(afterTotal.value, env.minBalance);
      if afterMinBalance.None? {
        return false, [];
      }
      var amount := Sub(afterMinBalance.value, env.minFee);
      if amount.None? {
        return false, [];
      }
      return true, [InnerPayment(env.creator, amount.value)];
    }

    method HandleNoOp(call: AppCall, group: seq<GroupTxn>, env: Env) returns (approved: bool, payments: seq<InnerPayment>)
      modifies this
      ensures Agrees(approved, State(), payments, NoOpOutcome(old(State()), call, group, env))
    {
      if |call.args| == 0 {
        return false, [];
      }
      var arg1 := call.args[0];
      if arg1 == FUND {
        approved, payments := HandleFund(call, group, env);
      } else if arg1 == WITHDRAW {
        approved, payments := HandleWithdrawal(call, arg1, env);
      } else if arg1 == LOAN {
        var loan := HandleLoan(call.sender, arg1, group, env.appAddress);
        if loan.Some? {
          return true, [loan.value];
        }
        return false, [];
      } else if arg1 == REDEEM {
        approved, payments := HandleRedeem(env);
      } else {
        return false, [];
      }
    }

    /** `program`: the dispatcher. A rejected branch may leave writes behind; `Execute`
        discards them. */
    method Program(call: AppCall, group: seq<GroupTxn>, env: Env) returns (approved: bool, payments: seq<InnerPayment>)
      modifies this
      ensures Agrees(approved, State(), payments, ApprovalOutcome(old(State()), call, group, env))
    {
      if call.applicationId == 0 {
        approved, payments := HandleCreate();
      } else if call.onCompletion == OptIn {
        approved, payments := HandleOptIn(call, group, env);
      } else if call.onCompletion == CloseOut {
        approved, payments := HandleCloseOut(call, env);
      } else if call.onCompletion == UpdateApplication {
        return false, [];
      } else if call.onCompletion == DeleteApplication {
        return false, [];
      } else if call.onCompletion == NoOp {
        approved, payments := HandleNoOp(call, group, env);
      } else {
        return false, [];
      }
    }

    /** One call of the application as the ledger applies it: an approved call keeps its
        writes and payments, a rejected one keeps neither. */
    method Execute(call: AppCall, group: seq<GroupTxn>, env: Env) returns (approved: bool, payments: seq<InnerPayment>)
      modifies this
      ensures ApprovalOutcome(old(State()), call, group, env) ==
                (if approved then Accept(State(), payments) else Reject)
      ensures !approved ==> State() == old(State()) && payments == []
    {
      var saved := State();
      approved, payments := Program(call, group, env);
      if !approved {
        total, staked, payments := saved.total, saved.staked, [];
      }
    }
  }
}
