/** A single ledger account (bank.py): an owner label and a balance that
    changes only through deposit, withdraw and transfer.

    Python mutates the account in place and raises ValueError on a bad
    amount. Here an account is an immutable value, an operation returns
    the account (or pair of accounts) as it stands after the call, and a
    raised ValueError is one of the five Error constructors, one per
    message in the source.
 */
module Bank {

  /** One constructor per ValueError message raised in bank.py: a
      non-positive amount, for each of the three operations, and a
      balance too small, for withdraw and for transfer. */
  datatype Error =
    | DepositNonPositive
    | WithdrawNonPositive
    | WithdrawInsufficient
    | TransferNonPositive
    | TransferInsufficient

  datatype Option<+T> = None | Some(value: T)

  /** The outcome of deposit or withdraw. Both raise before touching the
      balance, so on Err the account is the one passed in; on Ok the value
      is the updated account, whose balance is what Python returns. */
  datatype Result<+T> = Ok(value: T) | Err(error: Error)

  datatype Account = Account(owner: string, balance: int)

  /** The source account and the destination account of a transfer. */
  datatype Pair = Pair(src: Account, dst: Account)

  /** What a transfer leaves behind: both accounts as they stand after the
      call, and the error it raised, if any. Transfer mutates in two steps,
      so an error raised by the second step would find the first applied;
      keeping the accounts next to the error lets the model say whether
      that can happen. */
  datatype Transferred = Transferred(accounts: Pair, raised: Option<Error>)

  /** The invariant the operations preserve (nothing establishes it). */
  predicate NonNegative(a: Account) {
    a.balance >= 0
  }

  /** Account(owner, balance=0): no validation, any starting balance. */
  function Open(owner: string, balance: int := 0): (a: Account)
    ensures a.owner == owner
    ensures a.balance == balance
  {
    Account(owner, balance)
  }

  function GetBalance(a: Account): int {
    a.balance
  }

  function Deposit(a: Account, amount: int): (r: Result<Account>)
    ensures r.Err? <==> amount <= 0
    ensures r.Err? ==> r.error == DepositNonPositive
    ensures r.Ok? ==> r.value.owner == a.owner
    ensures r.Ok? ==> r.value.balance - a.balance == amount > 0
    ensures r.Ok? && NonNegative(a) ==> NonNegative(r.value)
  {
    if amount <= 0 then Err(DepositNonPositive)
    else Ok(a.(balance := a.balance + amount))
  }

  /** Positivity is checked before sufficiency, so a non-positive amount
      reports WithdrawNonPositive whatever the balance is. */
  function Withdraw(a: Account, amount: int): (r: Result<Account>)
    ensures r.Ok? <==> 0 < amount <= a.balance
    ensures amount <= 0 ==> r == Err(WithdrawNonPositive)
    ensures 0 < amount && a.balance < amount ==> r == Err(WithdrawInsufficient)
    ensures r.Ok? ==> r.value.owner == a.owner
    ensures r.Ok? ==> a.balance - r.value.balance == amount > 0
    ensures r.Ok? ==> NonNegative(r.value)
  {
    if amount <= 0 then Err(WithdrawNonPositive)
    else if amount > a.balance then Err(WithdrawInsufficient)
    else Ok(a.(balance := a.balance - amount))
  }

  /** src.transfer(amount, dst) for two distinct accounts: the two
      pre-checks, then withdraw on src, then deposit on dst, each step
      applied as Python applies it, so that an error from the deposit
      would leave src already debited. The contract shows that neither
      inner step can raise once the pre-checks pass: every error leaves
      both accounts as they were, and the only errors are the two
      transfer-specific ones. */
  function Transfer(src: Account, dst: Account, amount: int): (r: Transferred)
    ensures r.raised.None? <==> 0 < amount <= src.balance
    ensures amount <= 0 ==> r.raised == Some(TransferNonPositive)
    ensures 0 < amount && src.balance < amount ==> r.raised == Some(TransferInsufficient)
    ensures r.raised.Some? ==> r.accounts == Pair(src, dst)
    ensures r.raised.None? ==> src.balance - r.accounts.src.balance == amount
    ensures r.raised.None? ==> r.accounts.dst.balance - dst.balance == amount
    ensures r.accounts.src.balance + r.accounts.dst.balance == src.balance + dst.balance
    ensures r.accounts.src.owner == src.owner && r.accounts.dst.owner == dst.owner
    ensures NonNegative(src) && NonNegative(dst) ==>
              NonNegative(r.accounts.src) && NonNegative(r.accounts.dst)
  {
    if amount <= 0 then Transferred(Pair(src, dst), Some(TransferNonPositive))
    else if amount > src.balance then Transferred(Pair(src, dst), Some(TransferInsufficient))
    else
      match Withdraw(src, amount)
      case Err(e) => Transferred(Pair(src, dst), Some(e))
      case Ok(src') =>
        match Deposit(dst, amount)
        case Err(e) => Transferred(Pair(src', dst), Some(e))
        case Ok(dst') => Transferred(Pair(src', dst'), None)
  }

  /** A deposit undone by a withdrawal of the same positive amount gives
      back the original account exactly when the balance was not negative:
      from -10, a deposit of 5 leaves -5, and withdrawing 5 from -5 is
      refused as insufficient. A covered withdrawal undone by a deposit
      always gives the account back. */
  lemma DepositWithdrawRoundTrip(a: Account, amount: int)
    requires amount > 0
    ensures Withdraw(Deposit(a, amount).value, amount) == Ok(a) <==> NonNegative(a)
    ensures amount <= a.balance ==> Deposit(Withdraw(a, amount).value, amount) == Ok(a)
  {
  }
}
