/** The balance arithmetic of the bank accounts, as pure transitions.

    Amounts and balances are exact `real` numbers. The program keeps them in
    IEEE-754 binary floating point, so its results can differ from these in the
    last bits; nothing here models that rounding.

    A `ValueError` raised by the program is an `Outcome` of `Failed(e)`; the
    balance after a failed call is the balance before it, because the program
    raises before it touches the balance.
 */
module Ledger {

  /** The two reasons the program gives for refusing a deposit or a withdrawal. */
  datatype Error = InvalidAmount | InsufficientFunds

  /** What a call reports: it went through, or it raised. */
  datatype Outcome = Done | Failed(error: Error)

  /** What a call reports, together with the balance it leaves behind. */
  datatype Step = Step(outcome: Outcome, balance: real)

  /** Depositing `amount` into an account holding `balance`. */
  function Deposit(balance: real, amount: real): (s: Step)
    ensures s.outcome.Done? <==> amount > 0.0
    ensures s.outcome.Failed? ==> s.outcome.error == InvalidAmount && s.balance == balance
    ensures s.outcome.Done? ==> s.balance == balance + amount && s.balance > balance
    ensures balance >= 0.0 ==> s.balance >= 0.0
  {
    if amount <= 0.0 then Step(Failed(InvalidAmount), balance)
    else Step(Done, balance + amount)
  }

  /** Withdrawing `amount` from an account holding `balance`. */
  function Withdraw(balance: real, amount: real): (s: Step)
    // a non-positive amount is refused first, whatever the balance
    ensures amount <= 0.0 ==> s == Step(Failed(InvalidAmount), balance)
    ensures 0.0 < amount && balance < amount ==> s == Step(Failed(InsufficientFunds), balance)
    ensures s.outcome.Done? <==> 0.0 < amount <= balance
    ensures s.outcome.Done? ==> s.balance == balance - amount && 0.0 <= s.balance < balance
    ensures balance >= 0.0 ==> s.balance >= 0.0
  {
    if amount <= 0.0 then Step(Failed(InvalidAmount), balance)
    else if amount > balance then Step(Failed(InsufficientFunds), balance)
    else Step(Done, balance - amount)
  }

  /** Crediting one period of interest at `rate` to a savings balance. */
  function AddInterest(balance: real, rate: real): (b: real)
    ensures b == balance * (1.0 + rate)
    ensures balance >= 0.0 && rate >= 0.0 ==> b >= balance
    ensures balance > 0.0 && rate > 0.0 ==> b > balance
  {
    balance + balance * rate
  }

  /** Interest compounds: a second credit is paid on the first, so crediting
      twice differs from crediting once unless no interest is paid at all. */
  lemma InterestCompounds(balance: real, rate: real)
    ensures AddInterest(AddInterest(balance, rate), rate) == balance * (1.0 + rate) * (1.0 + rate)
    ensures AddInterest(AddInterest(balance, rate), rate) == AddInterest(balance, rate)
        <==> balance == 0.0 || rate == 0.0 || rate == -1.0
  {
    var once := AddInterest(balance, rate);
    assert AddInterest(once, rate) == once + once * rate;
    if AddInterest(once, rate) == once {
      ZeroProduct(once, rate);
      if once == 0.0 {
        ZeroProduct(balance, 1.0 + rate);
      }
    }
  }

  // A product of reals is zero only when a factor is.
  lemma ZeroProduct(x: real, y: real)
    requires x * y == 0.0
    ensures x == 0.0 || y == 0.0
  {
    if y != 0.0 {
      assert x == (x * y) / y;
    }
  }

  /** A withdrawal of what was just deposited restores the balance. */
  lemma WithdrawUndoesDeposit(balance: real, amount: real)
    requires balance >= 0.0 && amount > 0.0
    ensures Deposit(balance, amount).outcome == Done
    ensures Withdraw(Deposit(balance, amount).balance, amount) == Step(Done, balance)
  {
  }

  /** A deposit of what was just withdrawn restores the balance. */
  lemma DepositUndoesWithdraw(balance: real, amount: real)
    requires Withdraw(balance, amount).outcome == Done
    ensures Deposit(Withdraw(balance, amount).balance, amount) == Step(Done, balance)
  {
  }

  /** One call on an account. `InterestOp` is the savings-only `add_interest`. */
  datatype Op = DepositOp(amount: real) | WithdrawOp(amount: real) | InterestOp

  /** The effect of one call on a savings account paying `rate`. */
  function Apply(balance: real, rate: real, op: Op): Step
  {
    match op
    case DepositOp(amount) => Deposit(balance, amount)
    case WithdrawOp(amount) => Withdraw(balance, amount)
    case InterestOp => Step(Done, AddInterest(balance, rate))
  }

  /** A sequence of calls made one after the other by a caller that does not
      catch errors: the first failure stops the sequence, and the account keeps
      the balance it had when that call raised. */
  function Run(balance: real, rate: real, ops: seq<Op>): Step
    decreases |ops|
  {
    if ops == [] then Step(Done, balance)
    else
      var s := Apply(balance, rate, ops[0]);
      if s.outcome.Failed? then s else Run(s.balance, rate, ops[1..])
  }

  /** No sequence of deposits, withdrawals and interest credits at a
      non-negative rate takes a non-negative balance below zero. */
  lemma {:induction false} RunKeepsNonNegative(balance: real, rate: real, ops: seq<Op>)
    requires balance >= 0.0 && rate >= 0.0
    ensures Run(balance, rate, ops).balance >= 0.0
    decreases |ops|
  {
    if ops != [] {
      var s := Apply(balance, rate, ops[0]);
      assert s.balance >= 0.0;
      if s.outcome.Done? {
        RunKeepsNonNegative(s.balance, rate, ops[1..]);
      }
    }
  }

  /** Without interest credits and without failures, the final balance is the
      initial one plus the deposits minus the withdrawals. */
  function NetFlow(ops: seq<Op>): real
    decreases |ops|
  {
    if ops == [] then 0.0
    else
      (match ops[0]
       case DepositOp(amount) => amount
       case WithdrawOp(amount) => -amount
       case InterestOp => 0.0)
      + NetFlow(ops[1..])
  }

  lemma {:induction false} RunWithoutFailureIsNetFlow(balance: real, rate: real, ops: seq<Op>)
    requires forall i :: 0 <= i < |ops| ==> !ops[i].InterestOp?
    requires Run(balance, rate, ops).outcome == Done
    ensures Run(balance, rate, ops).balance == balance + NetFlow(ops)
    decreases |ops|
  {
    if ops != [] {
      var s := Apply(balance, rate, ops[0]);
      assert !ops[0].InterestOp?;
      RunWithoutFailureIsNetFlow(s.balance, rate, ops[1..]);
    }
  }
}
