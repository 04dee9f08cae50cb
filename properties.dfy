/** Properties of the approval program, stated over `ApprovalOutcome` for every state,
    call, group and ledger value. */
module Properties {
  import opened Avm
  import opened Ledger
  import opened GroupScan
  import opened Approval
  import opened StakeSum

  /** The amounts the program works with: `arg2` is `btoi` of the opcode itself. */
  const LOAN_AMOUNT := 1819238766
  const WITHDRAW_AMOUNT := 8604536554778681719

  /** `btoi("loan")`. */
  lemma LoanAmount()
    ensures Btoi(LOAN) == Some(LOAN_AMOUNT)
  {
    assert BigEndian([0x6c]) == 0x6c by {
      BigEndianAppend([], 0x6c);
    }
    assert BigEndian([0x6c, 0x6f]) == 27759 by {
      BigEndianAppend([0x6c], 0x6f);
      assert [0x6c] + [0x6f] == [0x6c, 0x6f];
    }
    assert BigEndian([0x6c, 0x6f, 0x61]) == 7106401 by {
      BigEndianAppend([0x6c, 0x6f], 0x61);
      assert [0x6c, 0x6f] + [0x61] == [0x6c, 0x6f, 0x61];
    }
    assert BigEndian([0x6c, 0x6f, 0x61, 0x6e]) == 1819238766 by {
      BigEndianAppend([0x6c, 0x6f, 0x61], 0x6e);
      assert [0x6c, 0x6f, 0x61] + [0x6e] == [0x6c, 0x6f, 0x61, 0x6e];
    }
  }

  /** `btoi("withdraw")`. */
  lemma WithdrawAmount()
    ensures Btoi(WITHDRAW) == Some(WITHDRAW_AMOUNT)
  {
    assert BigEndian([0x77]) == 0x77 by {
      BigEndianAppend([], 0x77);
    }
    assert BigEndian([0x77, 0x69]) == 30569 by {
      BigEndianAppend([0x77], 0x69);
      assert [0x77] + [0x69] == [0x77, 0x69];
    }
    assert BigEndian([0x77, 0x69, 0x74]) == 7825780 by {
      BigEndianAppend([0x77, 0x69], 0x74);
      assert [0x77, 0x69] + [0x74] == [0x77, 0x69, 0x74];
    }
    assert BigEndian([0x77, 0x69, 0x74, 0x68]) == 2003399784 by {
      BigEndianAppend([0x77, 0x69, 0x74], 0x68);
      assert [0x77, 0x69, 0x74] + [0x68] == [0x77, 0x69, 0x74, 0x68];
    }
    assert BigEndian([0x77, 0x69, 0x74, 0x68, 0x64]) == 512870344804 by {
      BigEndianAppend([0x77, 0x69, 0x74, 0x68], 0x64);
      assert [0x77, 0x69, 0x74, 0x68] + [0x64] == [0x77, 0x69, 0x74, 0x68, 0x64];
    }
    assert BigEndian([0x77, 0x69, 0x74, 0x68, 0x64, 0x72]) == 131294808269938 by {
      BigEndianAppend([0x77, 0x69, 0x74, 0x68, 0x64], 0x72);
      assert [0x77, 0x69, 0x74, 0x68, 0x64] + [0x72] == [0x77, 0x69, 0x74, 0x68, 0x64, 0x72];
    }
    assert BigEndian([0x77, 0x69, 0x74, 0x68, 0x64, 0x72, 0x61]) == 33611470917104225 by {
      BigEndianAppend([0x77, 0x69, 0x74, 0x68, 0x64, 0x72], 0x61);
      assert [0x77, 0x69, 0x74, 0x68, 0x64, 0x72] + [0x61] == [0x77, 0x69, 0x74, 0x68, 0x64, 0x72, 0x61];
    }
    assert BigEndian([0x77, 0x69, 0x74, 0x68, 0x64, 0x72, 0x61, 0x77]) == 8604536554778681719 by {
      BigEndianAppend([0x77, 0x69, 0x74, 0x68, 0x64, 0x72, 0x61], 0x77);
      assert [0x77, 0x69, 0x74, 0x68, 0x64, 0x72, 0x61] + [0x77] == [0x77, 0x69, 0x74, 0x68, 0x64, 0x72, 0x61, 0x77];
    }
  }

  /** The opcode amounts of `LoanAmount` and `WithdrawAmount` together, and the repayment
      a loan of the "loan" amount requires. */
  lemma OpcodeAmounts()
    ensures Btoi(LOAN) == Some(LOAN_AMOUNT)
    ensures Btoi(WITHDRAW) == Some(WITHDRAW_AMOUNT)
    ensures RequiredRepayment(LOAN_AMOUNT) == Some(1837431153)
  {
    LoanAmount();
    WithdrawAmount();
  }

  predicate IsNoOpWith(call: AppCall, opcode: Bytes)
  {
    call.applicationId != 0 && call.onCompletion == NoOp && |call.args| > 0 && call.args[0] == opcode
  }

  // ----- Dispatch -----

  /** A creation call sets "total" to 0 and approves, whatever its on-completion action:
      a corollary of `ApprovalOutcome`'s contract, stated over the state's parts. */
  lemma CreationSetsTotalToZero(s: PoolState, call: AppCall, group: seq<GroupTxn>, env: Env)
    requires call.applicationId == 0
    ensures ApprovalOutcome(s, call, group, env) == Accept(PoolState(0, s.staked), [])
  {
  }

  lemma UpdateAndDeleteReject(s: PoolState, call: AppCall, group: seq<GroupTxn>, env: Env)
    requires call.applicationId != 0
    requires call.onCompletion == UpdateApplication || call.onCompletion == DeleteApplication
    ensures ApprovalOutcome(s, call, group, env) == Reject
  {
  }

  /** A clear-state action, a no-op call without arguments, or an unknown opcode rejects. */
  lemma UnmatchedCallsReject(s: PoolState, call: AppCall, group: seq<GroupTxn>, env: Env)
    requires call.applicationId != 0
    requires || call.onCompletion == ClearState
             || (call.onCompletion == NoOp && |call.args| == 0)
             || (call.onCompletion == NoOp && |call.args| > 0 && call.args[0] !in {FUND, WITHDRAW, LOAN, REDEEM})
    ensures ApprovalOutcome(s, call, group, env) == Reject
  {
  }

  // ----- Deposits -----

  /** Opt-in and fund approve only if group transaction 0 is a payment to the application. */
  lemma DepositNeedsPaymentToApplication(s: PoolState, call: AppCall, group: seq<GroupTxn>, env: Env)
    requires call.applicationId != 0 && (call.onCompletion == OptIn || IsNoOpWith(call, FUND))
    requires ApprovalOutcome(s, call, group, env).Accept?
    ensures |group| > 0 && group[0].kind == Payment && group[0].receiver == env.appAddress
  {
  }

  lemma OptInCreditsPayment(s: PoolState, call: AppCall, group: seq<GroupTxn>, env: Env)
    requires call.applicationId != 0 && call.onCompletion == OptIn
    ensures var o := ApprovalOutcome(s, call, group, env);
      && (o.Accept? <==> CheckPayment(group, env.appAddress) && s.total + group[0].amount <= UINT64_MAX)
      && (o.Accept? ==> o == Accept(PoolState(s.total + group[0].amount,
                                              s.staked[call.sender := group[0].amount]), []))
  {
  }

  lemma FundCreditsPayment(s: PoolState, call: AppCall, group: seq<GroupTxn>, env: Env)
    requires IsNoOpWith(call, FUND)
    ensures var o := ApprovalOutcome(s, call, group, env);
      && (o.Accept? <==>
            && CheckPayment(group, env.appAddress)
            && call.sender in s.staked
            && s.staked[call.sender] + group[0].amount <= UINT64_MAX
            && s.total + group[0].amount <= UINT64_MAX)
      && (o.Accept? ==> o == Accept(PoolState(s.total + group[0].amount,
                                              s.staked[call.sender := s.staked[call.sender] + group[0].amount]), []))
  {
  }

  // ----- Withdrawal and close-out -----

  /** Withdraw asks for `btoi("withdraw")`: it rejects when that exceeds the caller's stake
      or when the stake left is below the fee, and otherwise pays that amount and debits
      it and the fee from the stake, leaving "total" as it was. */
  lemma WithdrawPaysAndDebits(s: PoolState, call: AppCall, group: seq<GroupTxn>, env: Env)
    requires IsNoOpWith(call, WITHDRAW)
    ensures var o := ApprovalOutcome(s, call, group, env);
      && (o.Accept? <==>
            && call.sender in s.staked
            && WITHDRAW_AMOUNT <= s.staked[call.sender]
            && env.minFee <= s.staked[call.sender] - WITHDRAW_AMOUNT)
      && (o.Accept? ==>
            && o.payments == [InnerPayment(call.sender, WITHDRAW_AMOUNT)]
            && o.state.total == s.total
            && o.state.staked == s.staked[call.sender := s.staked[call.sender] - WITHDRAW_AMOUNT - env.minFee])
  {
    OpcodeAmounts();
  }

  lemma CloseOutPaysStakeLessFee(s: PoolState, call: AppCall, group: seq<GroupTxn>, env: Env)
    requires call.applicationId != 0 && call.onCompletion == CloseOut
    ensures var o := ApprovalOutcome(s, call, group, env);
      && (o.Accept? <==> call.sender in s.staked && env.minFee <= s.staked[call.sender])
      && (o.Accept? ==> o == Accept(s, [InnerPayment(call.sender, s.staked[call.sender] - env.minFee)]))
  {
  }

  // ----- Loans -----

  /** A loan call approves exactly when the group passes the duplicate guard and repays
      101% (rounded down) of `btoi("loan")` at an examined position; it then pays that
      amount to the caller and changes no state. */
  lemma LoanPaysWhenRepaid(s: PoolState, call: AppCall, group: seq<GroupTxn>, env: Env)
    requires IsNoOpWith(call, LOAN)
    ensures var o := ApprovalOutcome(s, call, group, env);
      && (o.Accept? <==>
            && |group| > 0
            && Btoi(env.appAddress).Some?
            && !DuplicateLoanCall(group, Btoi(env.appAddress).value)
            && Repaid(group, env.appAddress, 1837431153))
      && (o.Accept? ==> o == Accept(s, [InnerPayment(call.sender, LOAN_AMOUNT)]))
  {
    OpcodeAmounts();
  }

  /** Two calls to the application at examined positions make a loan call reject,
      whatever the group repays. */
  lemma DuplicateLoanCallRejects(s: PoolState, call: AppCall, group: seq<GroupTxn>, env: Env, j: nat, k: nat)
    requires IsNoOpWith(call, LOAN)
    requires Btoi(env.appAddress).Some?
    requires j < k < |group| && j % 2 == 0 && k % 2 == 0
    requires IsLoanCall(group[j], Btoi(env.appAddress).value) && IsLoanCall(group[k], Btoi(env.appAddress).value)
    ensures ApprovalOutcome(s, call, group, env) == Reject
  {
  }

  /** The duplicate guard compares call targets with `btoi` of the application's address,
      and `btoi` aborts on the 32 bytes of a ledger address: no loan is ever approved. */
  lemma LoanNeverApprovedOnLedger(s: PoolState, call: AppCall, group: seq<GroupTxn>, env: Env)
    requires IsNoOpWith(call, LOAN)
    requires IsLedgerAddress(env.appAddress)
    ensures ApprovalOutcome(s, call, group, env) == Reject
  {
  }

  /** A transaction repays a loan of `a` exactly when it is a payment to the application
      of at least 101% of `a` rounded down, so one unit less does not. */
  lemma RepaymentThreshold(t: GroupTxn, appAddress: Address, a: Uint64)
    requires RequiredRepayment(a).Some?
    ensures CheckRepay(t, appAddress, RequiredRepayment(a).value) <==>
              t.kind == Payment && t.receiver == appAddress && (t.amount + 1) * 100 > a * 101
  {
  }

  /** Only even group positions are examined: what an odd position holds never changes
      whether a loan is approved. */
  lemma OddPositionsIgnored(arg: Bytes, group: seq<GroupTxn>, appAddress: Address, k: nat, t: GroupTxn)
    requires k < |group| && k % 2 == 1
    ensures LoanApproved(arg, group[k := t], appAddress) == LoanApproved(arg, group, appAddress)
  {
  }

  // ----- Redeem -----

  /** Redeem pays the creator the balance beyond "total", the minimum balance and the
      fee, rejects when that would underflow, and changes no state. */
  lemma RedeemPaysCreator(s: PoolState, call: AppCall, group: seq<GroupTxn>, env: Env)
    requires IsNoOpWith(call, REDEEM)
    ensures var o := ApprovalOutcome(s, call, group, env);
      && (o.Accept? <==> s.total + env.minBalance + env.minFee <= env.balance)
      && (o.Accept? ==>
            && o.state == s
            && |o.payments| == 1
            && o.payments[0].receiver == env.creator
            && o.payments[0].amount + s.total + env.minBalance + env.minFee == env.balance)
  {
  }

  /** Redeem does not look at who calls. This states the missing sender check with the
      ledger's account-availability rule for the creator left out. */
  lemma RedeemIgnoresSender(s: PoolState, call: AppCall, group: seq<GroupTxn>, env: Env, anyone: Address)
    requires IsNoOpWith(call, REDEEM)
    ensures ApprovalOutcome(s, call.(sender := anyone), group, env) == ApprovalOutcome(s, call, group, env)
  {
  }

  // ----- "total" against the sum of the stakes -----

  /** An account opting in for the first time keeps "total" equal to the sum of the stakes. */
  lemma OptInKeepsTotalEqualToStakes(s: PoolState, call: AppCall, group: seq<GroupTxn>, env: Env)
    requires call.applicationId != 0 && call.onCompletion == OptIn
    requires call.sender !in s.staked && s.total == SumOf(s.staked)
    requires ApprovalOutcome(s, call, group, env).Accept?
    ensures var o := ApprovalOutcome(s, call, group, env); o.state.total == SumOf(o.state.staked)
  {
    SumOfUpdate(s.staked, call.sender, group[0].amount);
  }

  lemma FundKeepsTotalEqualToStakes(s: PoolState, call: AppCall, group: seq<GroupTxn>, env: Env)
    requires IsNoOpWith(call, FUND)
    requires s.total == SumOf(s.staked)
    requires ApprovalOutcome(s, call, group, env).Accept?
    ensures var o := ApprovalOutcome(s, call, group, env); o.state.total == SumOf(o.state.staked)
  {
    SumOfUpdate(s.staked, call.sender, s.staked[call.sender] + group[0].amount);
  }

  /** A withdrawal takes the amount and the fee out of the stakes but not out of "total". */
  lemma WithdrawLeavesTotalAboveStakes(s: PoolState, call: AppCall, group: seq<GroupTxn>, env: Env)
    requires IsNoOpWith(call, WITHDRAW)
    requires ApprovalOutcome(s, call, group, env).Accept?
    ensures var o := ApprovalOutcome(s, call, group, env);
      o.state.total == s.total && SumOf(o.state.staked) == SumOf(s.staked) - WITHDRAW_AMOUNT - env.minFee
  {
    OpcodeAmounts();
    SumOfUpdate(s.staked, call.sender, s.staked[call.sender] - WITHDRAW_AMOUNT - env.minFee);
  }

  /** After a close-out the ledger drops the caller's local state, but "total" still
      counts the caller's stake. */
  lemma CloseOutLeavesStakeInTotal(s: PoolState, call: AppCall, group: seq<GroupTxn>, env: Env)
    requires call.applicationId != 0 && call.onCompletion == CloseOut
    requires s.total == SumOf(s.staked)
    requires ApprovalOutcome(s, call, group, env).Accept?
    ensures var o := ApprovalOutcome(s, call, group, env);
      o.state.total == SumOf(o.state.staked - {call.sender}) + s.staked[call.sender]
  {
    SumOfRemove(s.staked, call.sender);
  }

  // ----- A pool's life -----

  /** Create, opt in with 1000, fund with 500: the caller's stake and "total" are both
      1500. A loan call repaid with 101 and a withdrawal then both reject. */
  lemma StakingWalkthrough(app: Address, user: Address, env: Env, appId: Uint64)
    requires IsLedgerAddress(app) && env.appAddress == app && appId != 0
    ensures
      var call := GroupTxn(ApplicationCall, [], 0, appId);
      var created := ApprovalOutcome(PoolState(0, map[]), AppCall(0, NoOp, user, []), [call], env);
      var optedIn := ApprovalOutcome(created.state, AppCall(appId, OptIn, user, []),
                                     [GroupTxn(Payment, app, 1000, 0), call], env);
      var funded := ApprovalOutcome(optedIn.state, AppCall(appId, NoOp, user, [FUND]),
                                    [GroupTxn(Payment, app, 500, 0), call], env);
      && created.Accept? && optedIn.Accept? && funded.Accept?
      && funded.state == PoolState(1500, map[user := 1500])
      && ApprovalOutcome(funded.state, AppCall(appId, NoOp, user, [LOAN]),
                         [call, GroupTxn(Payment, app, 101, 0)], env) == Reject
      && ApprovalOutcome(funded.state, AppCall(appId, NoOp, user, [WITHDRAW]), [call], env) == Reject
  {
  }
}
