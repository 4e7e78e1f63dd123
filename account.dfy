/** The bank accounts of bank_management_system.py as one class.

    `CheckingAccount` and `SavingsAccount` share their `deposit` and
    `withdraw` bodies word for word, so one class stands for both and a
    `kind` tag records which one an object is; only a savings account has an
    interest rate and `AddInterest`.

    Amounts are exact `real` numbers, not IEEE-754 floats (see module Ledger).
    The program prints a line after each successful call; that output is not
    modelled.
 */
module Bank {
  import opened Ledger

  /** Which of the two account classes an object is. */
  datatype AccountKind = CheckingAccount | SavingsAccount(interestRate: real)

  class Account {
    // Set once when the account is opened and never reassigned.
    const accountNumber: string
    const accountHolder: string
    const kind: AccountKind
    // The only state the operations change. The program does not check the
    // opening balance, so a negative balance is possible.
    var balance: real

    /** Opens a checking account. */
    constructor Checking(accountNumber: string, accountHolder: string, initialBalance: real := 0.0)
      ensures this.accountNumber == accountNumber && this.accountHolder == accountHolder
      ensures kind == CheckingAccount && balance == initialBalance
    {
      this.accountNumber := accountNumber;
      this.accountHolder := accountHolder;
      kind := CheckingAccount;
      balance := initialBalance;
    }

    /** Opens a savings account; the rate is stored as given, unchecked. */
    constructor Savings(accountNumber: string, accountHolder: string,
                        initialBalance: real := 0.0, interestRate: real := 0.02)
      ensures this.accountNumber == accountNumber && this.accountHolder == accountHolder
      ensures kind == SavingsAccount(interestRate) && balance == initialBalance
    {
      this.accountNumber := accountNumber;
      this.accountHolder := accountHolder;
      kind := SavingsAccount(interestRate);
      balance := initialBalance;
    }

    /** The current balance; reads the account and changes nothing. */
    method GetBalance() returns (b: real)
      ensures b == balance
    {
      b := balance;
    }

    method Deposit(amount: real) returns (r: Outcome)
      modifies this`balance
      ensures Step(r, balance) == Ledger.Deposit(old(balance), amount)
      ensures r == Failed(InvalidAmount) <==> amount <= 0.0
      ensures r.Failed? ==> balance == old(balance)
      ensures r.Done? ==> balance == old(balance) + amount
      ensures old(balance) >= 0.0 ==> balance >= 0.0
    {
      if amount <= 0.0 {
        return Failed(InvalidAmount);
      }
      balance := balance + amount;
      r := Done;
    }

    method Withdraw(amount: real) returns (r: Outcome)
      modifies this`balance
      ensures Step(r, balance) == Ledger.Withdraw(old(balance), amount)
      ensures amount <= 0.0 ==> r == Failed(InvalidAmount)
      ensures 0.0 < amount && old(balance) < amount ==> r == Failed(InsufficientFunds)
      ensures r.Failed? ==> balance == old(balance)
      ensures r.Done? ==> balance == old(balance) - amount && balance >= 0.0
      ensures old(balance) >= 0.0 ==> balance >= 0.0
    {
      if amount <= 0.0 {
        return Failed(InvalidAmount);
      }
      if amount > balance {
        return Failed(InsufficientFunds);
      }
      balance := balance - amount;
      r := Done;
    }

    /** Credits one period of interest; defined on savings accounts only. */
    method AddInterest()
      requires kind.SavingsAccount?
      modifies this`balance
      ensures balance == Ledger.AddInterest(old(balance), kind.interestRate)
      ensures balance == old(balance) * (1.0 + kind.interestRate)
      ensures old(balance) >= 0.0 && kind.interestRate >= 0.0 ==> balance >= old(balance)
    {
      var interest := balance * kind.interestRate;
      balance := balance + interest;
    }
  }

  /** The checking half of the program's demonstration: 500 -> 700 -> 550. */
  method CheckingDemo() returns (deposited: Outcome, withdrew: Outcome, final: real)
    ensures deposited == Done && withdrew == Done
    ensures final == 550.0
  {
    var account := new Account.Checking("CHK12345", "John Doe", 500.0);
    deposited := account.Deposit(200.0);
    withdrew := account.Withdraw(150.0);
    final := account.GetBalance();
  }

  /** The savings half of the demonstration: 1000 -> 1300 -> 1200, then
      interest at 3% brings it to 1236. */
  method SavingsDemo() returns (deposited: Outcome, withdrew: Outcome, final: real)
    ensures deposited == Done && withdrew == Done
    ensures final == 1236.0
  {
    var account := new Account.Savings("SAV67890", "Jane Doe", 1000.0, 0.03);
    deposited := account.Deposit(300.0);
    withdrew := account.Withdraw(100.0);
    account.AddInterest();
    final := account.GetBalance();
  }

  /** Overdrawing fails and leaves the balance as it was: 100, withdraw 150. */
  method OverdrawDemo() returns (withdrew: Outcome, final: real)
    ensures withdrew == Failed(InsufficientFunds)
    ensures final == 100.0
  {
    var account := new Account.Checking("CHK12345", "John Doe", 100.0);
    withdrew := account.Withdraw(150.0);
    final := account.GetBalance();
  }
}
