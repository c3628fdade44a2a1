# Bank account ledger, modelled in Dafny

The system is a single `Account` class (`bank.py`): an owner label and a
balance, changed only by `deposit`, `withdraw` and `transfer`, each of
which validates its amount and raises `ValueError` on a bad one, plus a
`get_balance` read. The constructor takes any starting balance (default 0)
and checks nothing. Because `bank.py` never validates the starting
balance, `balance >= 0` is an invariant that every operation preserves,
not one that the class establishes. One consequence is
that depositing an amount and then withdrawing it restores the balance
only from a non-negative start (`Scenarios.RoundTripNeedsNonNegative`).

The model has three modules:

- `Bank` (`bank.dfy`): an immutable `Account(owner, balance)` value and
  pure functions for the constructor and the four operations. A raised
  `ValueError` becomes one of five `Error` constructors, one per message.
  `Deposit` and `Withdraw` return `Result<Account>`. Both raise before
  they mutate, so on an error the caller keeps the account it had. On
  success the new account's balance is the number Python returns.
  `Transfer` returns both accounts as they stand after the call, next to
  the error it raised, if any. The inner withdraw and deposit are applied
  one after the other, exactly as in the source. A failure in the second
  step would therefore show up as a debited source next to an error. For
  a destination that is an `Account`, the contract proves that this never
  happens: every error leaves both accounts as they were.
- `Ledger` (`ledger.dfy`): several accounts in a sequence, addressed by
  position, and calls on them made one after another, as the tests do.
  Addressing by position lets a transfer name the same account twice,
  which is what Python's `a.transfer(x, a)` does through aliasing.
  `TransferAt` follows the source step by step on the shared state. The
  lemmas cover the combined balance, non-negativity, owners, reads and
  a cycle of transfers.
- `Scenarios` (`scenarios.dfy`): the concrete cases of `test_bank.py`.

Amounts and balances are unbounded `int`, like Python's integers.

## Model

| member | source | states |
|---|---|---|
| `Bank.Open` | bank.py:2-4 | The account keeps the owner and the starting balance exactly as given. There is no check, so a negative balance is accepted. The balance defaults to 0. |
| `Bank.Deposit` | bank.py:6-10 | Fails if and only if `amount <= 0`, and then with `DepositNonPositive`. On success the owner is kept, the balance grows by exactly `amount`, and a non-negative balance stays non-negative. |
| `Bank.Withdraw` | bank.py:12-18 | Succeeds if and only if `0 < amount <= balance`. Positivity is checked first: `amount <= 0` gives `WithdrawNonPositive` whatever the balance. A positive amount above the balance gives `WithdrawInsufficient`. On success the owner is kept, the balance drops by exactly `amount`, and a withdrawal from a negative balance is always refused, so a successful one leaves a balance `>= 0`. |
| `Bank.Transfer` | bank.py:23-29 | Succeeds if and only if `0 < amount <= src.balance`. Otherwise it fails with `TransferNonPositive` or `TransferInsufficient`, in that order of checks. Every failure leaves both accounts unchanged, so for a destination that is an `Account` the inner withdraw and deposit never raise and nothing is half-applied. On success the source loses and the destination gains exactly `amount`. The sum of the two balances, the owners and non-negativity are always preserved. |
| `Bank.DepositWithdrawRoundTrip` | bank.py:6-18 | For a positive amount, depositing then withdrawing it gives back the original account if and only if the balance was not negative. Withdrawing then depositing a covered amount always gives the account back. |
| `Ledger.TransferAt` | bank.py:23-29 | This is the transfer on shared state, where source and destination may be the same account. It raises exactly when the pre-checks fail, with the transfer-specific error, and then changes nothing. Otherwise it returns None. Accounts other than the two named are never touched. |
| `Ledger.Step` | bank.py:6-29 | One call keeps the number of accounts, and a raised error leaves every account unchanged. A deposit raises exactly when `amount <= 0`, and then with `DepositNonPositive`. Otherwise it adds `amount` to the named account and leaves every other account as it was. A withdrawal raises exactly when `amount` is not in `(0, balance]`, with `WithdrawNonPositive` for `amount <= 0` and `WithdrawInsufficient` otherwise. Otherwise it subtracts `amount` from the named account only. A deposit or withdrawal that does not raise replies with the new balance of the named account. A transfer is `TransferAt`. `get_balance` returns the balance and changes nothing. |
| `Ledger.TransferAtMoves` | bank.py:26-29 | A transfer that passes the pre-checks between two different accounts debits one and credits the other by `amount`, and replies None. |
| `Ledger.TransferAtMatchesTransfer` | bank.py:23-29 | Between two different positions, the shared-state transfer agrees with the two-account `Bank.Transfer`. The resulting accounts are the same, and so is the error or its absence. |
| `Ledger.SelfTransferIsNoOp` | bank.py:23-29 | `a.transfer(x, a)` never changes anything. It raises exactly when the pre-checks fail. |
| `Ledger.TransferAtConservesTotal` | bank.py:23-29 | A transfer never changes the combined balance of all accounts, whether it succeeds or fails. |
| `Ledger.StepTotal` | bank.py:6-29 | A successful deposit adds exactly its amount to the combined balance. A successful withdrawal removes exactly its amount. Transfers, reads and failed calls leave it unchanged. |
| `Ledger.StepPreservesNonNegative` | bank.py:6-29 | One call keeps every balance `>= 0` if all were `>= 0` before. |
| `Ledger.RunPreservesNonNegative` | bank.py:6-29 | Any sequence of calls keeps every balance `>= 0` if all were `>= 0` at the start. This includes failed calls whose error the caller catches. |
| `Ledger.StepPreservesOwners` | bank.py:1-29 | One call never changes an owner: only `__init__` sets it. |
| `Ledger.RunPreservesOwners` | bank.py:1-29 | No sequence of calls changes an owner or the number of accounts. |
| `Ledger.ReadBalanceIsGetBalance` | bank.py:20-21 | `get_balance` as a call replies with the account's balance, as `Bank.GetBalance` reads it, and leaves every account unchanged. |
| `Ledger.RunIgnoresReads` | bank.py:20-21 | `get_balance` is a pure read: dropping every read from a sequence of calls does not change the final state. |
| `Ledger.TransfersConserveTotal` | bank.py:23-29 | Any sequence of transfers, successful or not, keeps the combined balance. |
| `Ledger.CircularTransferRestores` | test_bank.py:121-132 | Take three different accounts, where the first can pay `amount` and the other two are not overdrawn. Transfers of `amount` around the cycle then restore every account. |
| `Scenarios.InitialBalance` | test_bank.py:12-17 | A new account reads 0 by default, and 100 when opened with 100. |
| `Scenarios.DepositReturnsNewBalance` | test_bank.py:19-22 | Depositing 50 into an empty account yields 50. |
| `Scenarios.WithdrawReturnsNewBalance` | test_bank.py:24-27 | Withdrawing 30 from 100 yields 70. |
| `Scenarios.TransferMovesAmount` | test_bank.py:33-38 | Transferring 30 from 100 to 50 leaves 70 and 80. |
| `Scenarios.RefusedCalls` | test_bank.py:40-77 | Each refused call gives the error the test expects and changes no account. |
| `Scenarios.ParameterizedRun` | test_bank.py:90-96 | This is the body of the parametrised test: it transfers from standard if standard can cover the amount, otherwise from premium, and does nothing for a non-positive amount. The two accounts always sum to 1100. The test does not catch errors, so the transfer's error is part of the result: it is raised, as `TransferInsufficient`, exactly when the amount exceeds 1000, which fails the test body. |
| `Scenarios.ParameterizedRowTwoAsWritten` | test_bank.py:85-98 | The second row as written, `(200, 800, 300)`, fails. Premium sends 200 to standard, so standard reads 300, not 800. |
| `Scenarios.ParameterizedTransfers` | test_bank.py:85-98 | No row raises. Rows `(50, 50, 1050)` and `(0, 100, 1000)` pass as written. The second row passes with its expected values swapped to `(200, 300, 800)`. |
| `Scenarios.MultipleTransfers` | test_bank.py:100-119 | After 500/300/200, two transfers succeed and the third is refused as insufficient. The accounts end at 400/350/250. |
| `Scenarios.CircularTransfer` | test_bank.py:121-132 | Three accounts at 300 each send 100 around the cycle and end at 300. |
| `Scenarios.RoundTripNeedsNonNegative` | bank.py:2-18 | Nothing validates the constructor's balance. From -10, a deposit of 5 gives -5, and withdrawing 5 from -5 is refused. So the deposit/withdraw round trip needs the non-negativity invariant. |

## Findings

| source | as written | input that shows it | evidently intended | confidence | as-written member | corrected member |
|---|---|---|---|---|---|---|
| test_bank.py:87 | The parametrised row `(200, 800, 300)` expects standard to read 800 and premium to read 300 after the transfer. | Amount 200 is more than standard's 100, so premium transfers 200 to standard (lines 94-95). Standard then reads 300 and premium 800, and the assertion at line 97 fails. | `(200, 300, 800)`: the expected balances of the two accounts swapped back. | high; not executed | `Scenarios.ParameterizedRowTwoAsWritten` | `Scenarios.ParameterizedTransfers` |

## Left out

- Error messages are not modelled as text. Each message is one `Error` constructor.
- Floating-point amounts are left out. So are non-numeric amounts and the `TypeError` Python raises on them. Amounts and balances are integers.
- Object identity is modelled only as a position in `Ledger`'s sequence of accounts. The two-account `Bank.Transfer` assumes two distinct accounts. Self-transfer is covered by `Ledger.SelfTransferIsNoOp`.
- Bank.Transfer: the destination is always an `Account`. In Python the destination may be an object without a `deposit` method: in `a.transfer(10, None)`, bank.py:28 debits the source `a`, and bank.py:29 then raises `AttributeError` on the destination, leaving a half-applied transfer. The atomicity the contract proves covers only `Account` destinations. The same holds for `Ledger.TransferAt`.
- The owner is modelled as a string. Python accepts any object there (bank.py:3), but nothing in the class reads it, so no result depends on its type.
- Concurrency is not modelled because the class has none.
- The pytest fixtures and parametrisation machinery are not modelled. Their cases appear as the `Scenarios` lemmas.
