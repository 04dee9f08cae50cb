/** The program's questions about the atomic group: did the group's first
    transaction pay the application (`check_payment`), does a transaction repay a
    loan (`checkRepay`), and is the loan requested more than once (`checkDup`). The
    loan handler asks the last two in two loops. */
module GroupScan {
  import opened Avm
  import opened Ledger

  /** `check_payment`: transaction 0 of the group is a payment to the application.
      (A group always holds the calling transaction; an empty one could not be read.) */
  predicate CheckPayment(group: seq<GroupTxn>, appAddress: Address)
  {
    |group| > 0 && group[0].kind == Payment && group[0].receiver == appAddress
  }

  /** `arg2 * 101 / 100`: the least repayment of a loan of `arg2`, 101% rounded down;
      None when the multiplication overflows and the program aborts. */
  function RequiredRepayment(arg2: Uint64): (r: Option<Uint64>)
    ensures r.Some? <==> arg2 * 101 <= UINT64_MAX
    ensures r.Some? ==> r.value * 100 <= arg2 * 101 < r.value * 100 + 100
  {
    match Mul(arg2, 101)
    case None => None
    case Some(p) => Some(p / 100)
  }

  /** `checkRepay`: the transaction is a payment to the application of at least `required`.
      A transaction that repays some requirement repays every smaller one. */
  predicate CheckRepay(t: GroupTxn, appAddress: Address, required: Uint64)
    ensures CheckRepay(t, appAddress, required) ==>
              forall lower: Uint64 :: lower <= required ==> CheckRepay(t, appAddress, lower)
  {
    t.receiver == appAddress && t.amount >= required && t.kind == Payment
  }

  /** The first conjunct of `checkDup`: the transaction calls the application whose id is `appId`. */
  predicate IsLoanCall(t: GroupTxn, appId: Uint64)
  {
    t.kind == ApplicationCall && t.applicationId == appId
  }

  /** Group position `k` is one the loan handler's loops look at: both loops add 1 to
      the index in their body and 1 more in their step, so only even positions are seen. */
  predicate Examined(k: int, groupSize: int)
  {
    0 <= k < groupSize && k % 2 == 0
  }

  /** Some examined position below `bound` calls application `appId`. */
  ghost predicate LoanCallSeenBelow(group: seq<GroupTxn>, appId: Uint64, bound: int)
  {
    exists j :: Examined(j, |group|) && j < bound && IsLoanCall(group[j], appId)
  }

  /** Two examined positions below `bound` call application `appId`. */
  ghost predicate DuplicateLoanCallBelow(group: seq<GroupTxn>, appId: Uint64, bound: int)
  {
    exists j, k ::
      Examined(j, |group|) && Examined(k, |group|) && j < k < bound &&
      IsLoanCall(group[j], appId) && IsLoanCall(group[k], appId)
  }

  ghost predicate DuplicateLoanCall(group: seq<GroupTxn>, appId: Uint64)
  {
    DuplicateLoanCallBelow(group, appId, |group|)
  }

  /** Some examined position below `bound` repays at least `required` to the application. */
  ghost predicate RepaidBelow(group: seq<GroupTxn>, appAddress: Address, required: Uint64, bound: int)
  {
    exists k :: Examined(k, |group|) && k < bound && CheckRepay(group[k], appAddress, required)
  }

  ghost predicate Repaid(group: seq<GroupTxn>, appAddress: Address, required: Uint64)
  {
    RepaidBelow(group, appAddress, required, |group|)
  }

  /** When the loan handler approves: the group is not empty, the application's address
      decodes with `btoi` (the duplicate guard compares call targets with it), no two
      examined positions call that id, the requested amount `btoi(arg)` and its 101%
      are computable, and an examined position repays it. */
  ghost predicate LoanApproved(arg: Bytes, group: seq<GroupTxn>, appAddress: Address)
  {
    && |group| > 0
    && Btoi(appAddress).Some?
    && !DuplicateLoanCall(group, Btoi(appAddress).value)
    && Btoi(arg).Some?
    && RequiredRepayment(Btoi(arg).value).Some?
    && Repaid(group, appAddress, RequiredRepayment(Btoi(arg).value).value)
  }

  /** What one step of the duplicate guard adds: position `i` is examined, `i + 1` is not. */
  lemma DuplicateScanStep(group: seq<GroupTxn>, appId: Uint64, i: int)
    requires 0 <= i < |group| && i % 2 == 0
    ensures LoanCallSeenBelow(group, appId, i + 2) <==>
              LoanCallSeenBelow(group, appId, i) || IsLoanCall(group[i], appId)
    ensures DuplicateLoanCallBelow(group, appId, i + 2) <==>
              DuplicateLoanCallBelow(group, appId, i) ||
              (LoanCallSeenBelow(group, appId, i) && IsLoanCall(group[i], appId))
  {
  }

  /** The first loop of `handle_loan`: `checkDup` at every examined position, with
      `numCalls` recording whether a call to the application was seen. It passes when the
      loop runs to its end. */
  method DuplicateGuard(group: seq<GroupTxn>, appAddress: Address) returns (passed: bool)
    ensures passed <==> |group| == 0 || (Btoi(appAddress).Some? && !DuplicateLoanCall(group, Btoi(appAddress).value))
  {
    var numCalls: Uint64 := 0;
    var i := 0;
    while i < |group|
      invariant 0 <= i <= |group| + 1 && i % 2 == 0
      invariant numCalls == 0 || (numCalls == 1 && i > 0)
      invariant i > 0 ==> Btoi(appAddress).Some?
      invariant i > 0 ==> (numCalls == 1 <==> LoanCallSeenBelow(group, Btoi(appAddress).value, i))
      invariant i > 0 ==> !DuplicateLoanCallBelow(group, Btoi(appAddress).value, i)
    {
      // checkDup(i): `And` evaluates both operands, so `btoi` of the address runs every time
      var appId := Btoi(appAddress);
      if appId.None? {
        return false;
      }
      DuplicateScanStep(group, appId.value, i);
      if group[i].kind == ApplicationCall && group[i].applicationId == appId.value {
        if numCalls == 1 {
          return false;
        }
        numCalls := 1;
      }
      i := i + 1;  // the loop body's own increment
      i := i + 1;  // the loop's step
    }
    return true;
  }

  /** The second loop of `handle_loan`: `checkRepay` at every examined position; the first
      repayment found pays the loan `btoi(arg)` to the caller (`send_funds`). */
  method RepaymentSearch(sender: Address, arg: Bytes, group: seq<GroupTxn>, appAddress: Address)
    returns (loan: Option<InnerPayment>)
    ensures loan.Some? <==>
              && |group| > 0
              && Btoi(arg).Some?
              && RequiredRepayment(Btoi(arg).value).Some?
              && Repaid(group, appAddress, RequiredRepayment(Btoi(arg).value).value)
    ensures loan.Some? ==> Btoi(arg).Some? && loan.value == InnerPayment(sender, Btoi(arg).value)
  {
    var i := 0;
    while i < |group|
      invariant 0 <= i <= |group| + 1 && i % 2 == 0
      invariant i > 0 ==> Btoi(arg).Some? && RequiredRepayment(Btoi(arg).value).Some?
      invariant i > 0 ==> !RepaidBelow(group, appAddress, RequiredRepayment(Btoi(arg).value).value, i)
    {
      // checkRepay(i): `arg2 * 101 / 100` is evaluated at every examined position
      var arg2 := Btoi(arg);
      if arg2.None? {
        return None;
      }
      var required := RequiredRepayment(arg2.value);
      if required.None? {
        return None;
      }
      if CheckRepay(group[i], appAddress, required.value) {
        assert Examined(i, |group|);
        return Some(InnerPayment(sender, arg2.value));
      }
      i := i + 1;  // the loop body's own increment
      i := i + 1;  // the loop's step
    }
    return None;
  }

  /** `handle_loan`: the duplicate guard over the group, then the search for a repayment;
      either loop rejecting, or the second one ending, rejects the call. */
  method HandleLoan(sender: Address, arg: Bytes, group: seq<GroupTxn>, appAddress: Address)
    returns (loan: Option<InnerPayment>)
    ensures loan.Some? <==> LoanApproved(arg, group, appAddress)
    ensures loan.Some? ==> Btoi(arg).Some? && loan.value == InnerPayment(sender, Btoi(arg).value)
  {
    var passed := DuplicateGuard(group, appAddress);
    if !passed {
      return None;
    }
    loan := RepaymentSearch(sender, arg, group, appAddress);
  }
}
