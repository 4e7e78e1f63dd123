# Bank accounts: balance logic

A model of the account classes in `bank_management_system.py`. There are two account
kinds, a checking account and a savings account. Each holds a balance that `deposit`
and `withdraw` change in place after checking their argument. A savings account also
has an interest rate, and `add_interest` credits `balance * rate` to its balance.

The model has two modules:

- `Ledger` (`ledger.dfy`) holds the balance transitions as pure functions over exact
  `real` numbers: `Deposit`, `Withdraw` and `AddInterest`. It also defines `Run`, which
  replays a sequence of calls, and the lemmas about all of these.
- `Bank` (`account.dfy`) holds the class `Account`. Its `balance` field is mutable, and
  its methods `modifies this`balance` and are proved against the `Ledger` functions.
  The two Python subclasses have identical `deposit` and `withdraw` bodies. So one
  class stands for both, and a `kind` tag (`CheckingAccount` or
  `SavingsAccount(interestRate)`) records which one an object is.
  `accountNumber`, `accountHolder` and `kind` are `const`, so no operation can change
  them.
- Where the program raises `ValueError`, the model returns `Failed(InvalidAmount)` or
  `Failed(InsufficientFunds)` and leaves the balance as it was.
- Amounts are exact reals, not IEEE-754 floats. The program's results may differ from
  the model's in the last bits of a float.
- The program does not check the opening balance or the interest rate. So the model's
  non-negativity results assume `balance >= 0`, and for interest also `rate >= 0`,
  instead of claiming them for every account.

## Model

| member | source | states |
|---|---|---|
| `Ledger.Deposit` | bank_management_system.py:54-57 | A deposit goes through exactly when `amount > 0`. Otherwise it fails with `InvalidAmount` and the balance is unchanged. On success the balance grows by exactly `amount`. A non-negative balance stays non-negative. |
| `Ledger.Withdraw` | bank_management_system.py:60-65 | A non-positive amount fails with `InvalidAmount` whatever the balance, because that check comes first. A positive amount above the balance fails with `InsufficientFunds`. Both failures leave the balance unchanged. A withdrawal succeeds exactly when `0 < amount <= balance`. Success lowers the balance by exactly `amount`, and the new balance is `>= 0`. |
| `Ledger.AddInterest` | bank_management_system.py:106-109 | The new balance is `balance * (1 + rate)`. With a non-negative balance and rate it never decreases, and with a positive balance and rate it strictly increases. |
| `Ledger.InterestCompounds` | bank_management_system.py:106-109 | Two credits give `balance * (1 + rate)^2`. A second credit changes the balance unless the balance is 0 or the rate is 0 or -1, so the operation is not idempotent. |
| `Ledger.WithdrawUndoesDeposit` | bank_management_system.py:54-65 | Take a non-negative balance and a positive amount. Depositing that amount and then withdrawing it succeeds and restores the balance. |
| `Ledger.DepositUndoesWithdraw` | bank_management_system.py:54-65 | After a successful withdrawal, depositing the same amount succeeds and restores the balance. |
| `Ledger.RunKeepsNonNegative` | bank_management_system.py:54-66 | Take a non-negative balance and rate. No sequence of deposits, withdrawals and interest credits takes the balance below zero. The sequence stops at the first error, as an uncaught `ValueError` would stop it. |
| `Ledger.RunWithoutFailureIsNetFlow` | bank_management_system.py:54-65 | A sequence of deposits and withdrawals in which none fails ends at the opening balance plus the deposits minus the withdrawals. |
| `Bank.Account.Checking` | bank_management_system.py:18-21 | Opens a checking account. It stores the number, the holder and the opening balance unchecked. The opening balance defaults to 0. |
| `Bank.Account.Savings` | bank_management_system.py:88-90 | Opens a savings account. It stores the number, the holder, the opening balance (default 0) and the rate (default 0.02), all unchecked. |
| `Bank.Account.GetBalance` | bank_management_system.py:33-35 | Returns the current balance and modifies nothing. |
| `Bank.Account.Deposit` | bank_management_system.py:54-57 | The reported outcome and the new balance are those of `Ledger.Deposit` on the old balance. It fails with `InvalidAmount` exactly when `amount <= 0`, and then the balance is unchanged. Otherwise the balance is the old balance plus `amount`. Only `balance` may change. |
| `Bank.Account.Withdraw` | bank_management_system.py:60-65 | The reported outcome and the new balance are those of `Ledger.Withdraw` on the old balance. `InvalidAmount` is checked before `InsufficientFunds`, and either failure leaves the balance unchanged. Success lowers it by exactly `amount` to a value `>= 0`. Only `balance` may change. |
| `Bank.Account.AddInterest` | bank_management_system.py:106-109 | Available on savings accounts only. The new balance is `old * (1 + interestRate)`, which is `Ledger.AddInterest`. With a non-negative balance and rate the balance does not decrease. Only `balance` may change. |
| `Bank.CheckingDemo` | bank_management_system.py:115-122 | The demonstration's checking account goes 500 → 700 → 550, and both calls succeed. |
| `Bank.SavingsDemo` | bank_management_system.py:116-129 | The demonstration's savings account at rate 0.03 goes 1000 → 1300 → 1200 → 1236, and both calls succeed. |
| `Bank.OverdrawDemo` | bank_management_system.py:63-64 | Withdrawing 150 from a balance of 100 fails with `InsufficientFunds`, and the balance stays 100. |

## Left out

- Console output: the line each operation prints after a successful call (lines 58, 66, 96, 104, 110).
- `__str__` (lines 37-39): it only formats the account as text with two decimals.
- The `main()` driver and the `__main__` guard (lines 113-132): scripted console I/O. Their numbers reappear in `CheckingDemo` and `SavingsDemo`.
- The `ABC`/`@abstractmethod` declarations (lines 1, 23-31): Python dispatch with no behaviour of its own.
- IEEE-754 rounding: balances and interest are exact reals here. No result is claimed to be float-exact.
- Calling `add_interest` on a checking account: in Python this raises `AttributeError` because the method does not exist. Here it is excluded by `requires kind.SavingsAccount?`.
- Reassigning the public attributes `account_number`, `account_holder` or `interest_rate` from outside the class: the program itself never does this, and the model makes them constants.
