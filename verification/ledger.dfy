/** Several accounts at once, addressed by position, with calls made on
    them one after another: the setting of the multi-account tests
    (test_bank.py). Addressing accounts by position lets a transfer name
    the same account as source and destination, which is what Python's
    a.transfer(x, a) does through object aliasing.
 */
module Ledger {
  import opened Bank

  /** One method call on one of the accounts. */
  datatype Op =
    | DepositTo(at: nat, amount: int)
    | WithdrawFrom(at: nat, amount: int)
    | TransferBetween(from: nat, to: nat, amount: int)
    | ReadBalance(at: nat)

  /** What a Python call hands back: a number, None, or a raised error. */
  datatype Reply = Value(n: int) | NoValue | Raised(error: Error)

  /** The accounts after a call, and the call's reply. */
  datatype Outcome = Outcome(accounts: seq<Account>, reply: Reply)

  predicate InRange(op: Op, n: nat) {
    match op
    case DepositTo(i, _) => i < n
    case WithdrawFrom(i, _) => i < n
    case TransferBetween(i, j, _) => i < n && j < n
    case ReadBalance(i) => i < n
  }

  predicate AllInRange(ops: seq<Op>, n: nat) {
    forall op | op in ops :: InRange(op, n)
  }

  predicate AllNonNegative(accounts: seq<Account>) {
    forall k | 0 <= k < |accounts| :: NonNegative(accounts[k])
  }

  predicate SameOwners(before: seq<Account>, after: seq<Account>) {
    |before| == |after| && forall k | 0 <= k < |before| :: after[k].owner == before[k].owner
  }

  /** The combined balance of all the accounts. */
  function Total(accounts: seq<Account>): int {
    if |accounts| == 0 then 0 else accounts[0].balance + Total(accounts[1..])
  }

  /** accounts[i].transfer(amount, accounts[j]), with i == j allowed: the
      two pre-checks on accounts[i], then withdraw on accounts[i], then
      deposit on accounts[j] of the sequence the withdrawal left behind.
      An error from an inner step keeps the mutation made before it, as
      Python does. */
  function TransferAt(accounts: seq<Account>, i: nat, j: nat, amount: int): (r: Outcome)
    requires i < |accounts| && j < |accounts|
    ensures |r.accounts| == |accounts|
    ensures r.reply.Raised? <==> !(0 < amount <= accounts[i].balance)
    ensures r.reply.Raised? ==> r.accounts == accounts
    ensures amount <= 0 ==> r.reply == Raised(TransferNonPositive)
    ensures 0 < amount && accounts[i].balance < amount ==> r.reply == Raised(TransferInsufficient)
    ensures r.reply.Raised? || r.reply == NoValue
    ensures forall k | 0 <= k < |accounts| && k != i && k != j :: r.accounts[k] == accounts[k]
  {
    if amount <= 0 then Outcome(accounts, Raised(TransferNonPositive))
    else if amount > accounts[i].balance then Outcome(accounts, Raised(TransferInsufficient))
    else
      match Withdraw(accounts[i], amount)
      case Err(e) => Outcome(accounts, Raised(e))
      case Ok(src) =>
        var withdrawn := accounts[i := src];
        match Deposit(withdrawn[j], amount)
        case Err(e) => Outcome(withdrawn, Raised(e))
        case Ok(dst) => Outcome(withdrawn[j := dst], NoValue)
  }

  /** One call. Deposit and withdraw return the new balance, get_balance
      returns the balance and changes nothing, transfer returns None. */
  function Step(accounts: seq<Account>, op: Op): (r: Outcome)
    requires InRange(op, |accounts|)
    ensures |r.accounts| == |accounts|
    ensures r.reply.Raised? ==> r.accounts == accounts
    ensures op.ReadBalance? ==> r == Outcome(accounts, Value(GetBalance(accounts[op.at])))
    ensures (op.DepositTo? || op.WithdrawFrom?) && !r.reply.Raised? ==>
              r.reply == Value(r.accounts[op.at].balance)
    ensures op.DepositTo? ==> (r.reply.Raised? <==> op.amount <= 0)
    ensures op.DepositTo? && r.reply.Raised? ==> r.reply == Raised(DepositNonPositive)
    ensures op.WithdrawFrom? && r.reply.Raised? ==>
              r.reply == Raised(if op.amount <= 0 then WithdrawNonPositive else WithdrawInsufficient)
    ensures op.DepositTo? && !r.reply.Raised? ==>
              r.accounts == accounts[op.at := accounts[op.at].(balance := accounts[op.at].balance + op.amount)]
    ensures op.WithdrawFrom? ==> (r.reply.Raised? <==> !(0 < op.amount <= accounts[op.at].balance))
    ensures op.WithdrawFrom? && !r.reply.Raised? ==>
              r.accounts == accounts[op.at := accounts[op.at].(balance := accounts[op.at].balance - op.amount)]
    ensures op.TransferBetween? ==> r == TransferAt(accounts, op.from, op.to, op.amount)
  {
    match op
    case DepositTo(i, amount) =>
      (match Deposit(accounts[i], amount)
       case Err(e) => Outcome(accounts, Raised(e))
       case Ok(a) => Outcome(accounts[i := a], Value(a.balance)))
    case WithdrawFrom(i, amount) =>
      (match Withdraw(accounts[i], amount)
       case Err(e) => Outcome(accounts, Raised(e))
       case Ok(a) => Outcome(accounts[i := a], Value(a.balance)))
    case TransferBetween(i, j, amount) =>
      TransferAt(accounts, i, j, amount)
    case ReadBalance(i) =>
      Outcome(accounts, Value(GetBalance(accounts[i])))
  }

  /** Links the read call of a ledger to Bank.GetBalance: it replies with
      the balance GetBalance reads and leaves every account as it was. This
      is Step's read case, stated on its own. */
  lemma ReadBalanceIsGetBalance(accounts: seq<Account>, i: nat)
    requires i < |accounts|
    ensures Step(accounts, ReadBalance(i)) == Outcome(accounts, Value(GetBalance(accounts[i])))
  {
  }

  /** The calls in order, each raised error caught by the caller and the
      next call made on whatever state the failed one left. */
  function Run(accounts: seq<Account>, ops: seq<Op>): (r: seq<Account>)
    requires AllInRange(ops, |accounts|)
    ensures |r| == |accounts|
    decreases |ops|
  {
    if |ops| == 0 then accounts
    else Run(Step(accounts, ops[0]).accounts, ops[1..])
  }

  /** The replies of the calls in order. */
  function Replies(accounts: seq<Account>, ops: seq<Op>): (r: seq<Reply>)
    requires AllInRange(ops, |accounts|)
    ensures |r| == |ops|
    decreases |ops|
  {
    if |ops| == 0 then []
    else
      var o := Step(accounts, ops[0]);
      [o.reply] + Replies(o.accounts, ops[1..])
  }

  function WithoutReads(ops: seq<Op>): (r: seq<Op>)
    ensures forall op | op in r :: op in ops && !op.ReadBalance?
    ensures |r| <= |ops|
  {
    if |ops| == 0 then []
    else if ops[0].ReadBalance? then WithoutReads(ops[1..])
    else [ops[0]] + WithoutReads(ops[1..])
  }

  // ---------------------------------------------------------------------
  // Combined balance

  lemma {:induction false} TotalUpdate(accounts: seq<Account>, i: nat, a: Account)
    requires i < |accounts|
    ensures Total(accounts[i := a]) == Total(accounts) - accounts[i].balance + a.balance
    decreases |accounts|
  {
    if i > 0 {
      assert accounts[i := a][1..] == accounts[1..][i - 1 := a];
      TotalUpdate(accounts[1..], i - 1, a);
    }
  }

  /** A transfer, to another account or to the same one, never changes the
      combined balance, whether it succeeds or not. */
  lemma TransferAtConservesTotal(accounts: seq<Account>, i: nat, j: nat, amount: int)
    requires i < |accounts| && j < |accounts|
    ensures Total(TransferAt(accounts, i, j, amount).accounts) == Total(accounts)
  {
    if 0 < amount <= accounts[i].balance {
      var src := Withdraw(accounts[i], amount).value;
      var withdrawn := accounts[i := src];
      TotalUpdate(accounts, i, src);
      TotalUpdate(withdrawn, j, Deposit(withdrawn[j], amount).value);
    }
  }

  /** How one call moves the combined balance: a successful deposit adds
      its amount, a successful withdrawal removes its amount, anything else
      (a transfer, a read, a failed call) leaves it as it was. */
  lemma StepTotal(accounts: seq<Account>, op: Op)
    requires InRange(op, |accounts|)
    ensures var r := Step(accounts, op);
      Total(r.accounts) == Total(accounts) +
        (if r.reply.Raised? then 0
         else if op.DepositTo? then op.amount
         else if op.WithdrawFrom? then -op.amount
         else 0)
  {
    match op
    case DepositTo(i, amount) =>
      if amount > 0 { TotalUpdate(accounts, i, Deposit(accounts[i], amount).value); }
    case WithdrawFrom(i, amount) =>
      if 0 < amount <= accounts[i].balance { TotalUpdate(accounts, i, Withdraw(accounts[i], amount).value); }
    case TransferBetween(i, j, amount) =>
      TransferAtConservesTotal(accounts, i, j, amount);
    case ReadBalance(_) =>
  }

  // ---------------------------------------------------------------------
  // Transfers in the two-account model and in the ledger agree

  /** Between two different positions, TransferAt is Bank.Transfer applied
      to the two accounts there: same error, same resulting accounts. */
  lemma TransferAtMatchesTransfer(accounts: seq<Account>, i: nat, j: nat, amount: int)
    requires i < |accounts| && j < |accounts| && i != j
    ensures var r := TransferAt(accounts, i, j, amount);
      var t := Transfer(accounts[i], accounts[j], amount);
      && r.accounts == accounts[i := t.accounts.src][j := t.accounts.dst]
      && (t.raised.None? <==> r.reply == NoValue)
      && (t.raised.Some? ==> r.reply == Raised(t.raised.value))
  {
    if 0 < amount <= accounts[i].balance {
      assert accounts[i := Withdraw(accounts[i], amount).value][j] == accounts[j];
    } else {
      assert accounts[i := accounts[i]][j := accounts[j]] == accounts;
    }
  }

  /** a.transfer(x, a): the withdrawal and the deposit hit the same
      account, so a transfer to oneself never changes anything; it still
      raises exactly when the pre-checks fail. */
  lemma SelfTransferIsNoOp(accounts: seq<Account>, i: nat, amount: int)
    requires i < |accounts|
    ensures TransferAt(accounts, i, i, amount).accounts == accounts
    ensures TransferAt(accounts, i, i, amount).reply.Raised? <==> !(0 < amount <= accounts[i].balance)
  {
    if 0 < amount <= accounts[i].balance {
      var src := Withdraw(accounts[i], amount).value;
      assert Deposit(src, amount).value == accounts[i];
    }
  }

  // ---------------------------------------------------------------------
  // Properties of any sequence of calls

  /** balance >= 0 survives any sequence of calls, failed ones included,
      provided it held at the start. */
  lemma {:induction false} RunPreservesNonNegative(accounts: seq<Account>, ops: seq<Op>)
    requires AllInRange(ops, |accounts|)
    requires AllNonNegative(accounts)
    ensures AllNonNegative(Run(accounts, ops))
    decreases |ops|
  {
    if |ops| > 0 {
      StepPreservesNonNegative(accounts, ops[0]);
      RunPreservesNonNegative(Step(accounts, ops[0]).accounts, ops[1..]);
    }
  }

  lemma StepPreservesNonNegative(accounts: seq<Account>, op: Op)
    requires InRange(op, |accounts|)
    requires AllNonNegative(accounts)
    ensures AllNonNegative(Step(accounts, op).accounts)
  {
  }

  /** No call changes an owner, and the number of accounts stays. */
  lemma StepPreservesOwners(accounts: seq<Account>, op: Op)
    requires InRange(op, |accounts|)
    ensures SameOwners(accounts, Step(accounts, op).accounts)
  {
  }

  /** No sequence of calls changes an owner or the number of accounts. */
  lemma {:induction false} RunPreservesOwners(accounts: seq<Account>, ops: seq<Op>)
    requires AllInRange(ops, |accounts|)
    ensures SameOwners(accounts, Run(accounts, ops))
    decreases |ops|
  {
    if |ops| > 0 {
      StepPreservesOwners(accounts, ops[0]);
      RunPreservesOwners(Step(accounts, ops[0]).accounts, ops[1..]);
    }
  }

  /** get_balance is a pure read: dropping every read from a sequence of
      calls leaves the final state as it was. */
  lemma {:induction false} RunIgnoresReads(accounts: seq<Account>, ops: seq<Op>)
    requires AllInRange(ops, |accounts|)
    ensures AllInRange(WithoutReads(ops), |accounts|)
    ensures Run(accounts, WithoutReads(ops)) == Run(accounts, ops)
    decreases |ops|
  {
    if |ops| > 0 {
      assert forall op | op in ops[1..] :: op in ops;
      RunIgnoresReads(Step(accounts, ops[0]).accounts, ops[1..]);
      if ops[0].ReadBalance? {
        RunIgnoresReads(accounts, ops[1..]);
      } else {
        assert WithoutReads(ops)[0] == ops[0];
        assert WithoutReads(ops)[1..] == WithoutReads(ops[1..]);
      }
    }
  }

  predicate OnlyTransfers(ops: seq<Op>) {
    forall op | op in ops :: op.TransferBetween?
  }

  /** Transfers only move money between the accounts: any sequence of them,
      successful or not, keeps the combined balance. */
  lemma {:induction false} TransfersConserveTotal(accounts: seq<Account>, ops: seq<Op>)
    requires AllInRange(ops, |accounts|)
    requires OnlyTransfers(ops)
    ensures Total(Run(accounts, ops)) == Total(accounts)
    decreases |ops|
  {
    if |ops| > 0 {
      StepTotal(accounts, ops[0]);
      assert forall op | op in ops[1..] :: op in ops;
      TransfersConserveTotal(Step(accounts, ops[0]).accounts, ops[1..]);
    }
  }

  function Cycle(a: nat, b: nat, c: nat, amount: int): seq<Op> {
    [TransferBetween(a, b, amount), TransferBetween(b, c, amount), TransferBetween(c, a, amount)]
  }

  /** A transfer between two different positions that passes the
      pre-checks debits one, credits the other and replies None. */
  lemma TransferAtMoves(accounts: seq<Account>, i: nat, j: nat, amount: int)
    requires i < |accounts| && j < |accounts| && i != j
    requires 0 < amount <= accounts[i].balance
    ensures TransferAt(accounts, i, j, amount) ==
      Outcome(accounts[i := accounts[i].(balance := accounts[i].balance - amount)]
                      [j := accounts[j].(balance := accounts[j].balance + amount)], NoValue)
  {
  }

  /** Running calls one after another: the first call, then the rest. */
  lemma RunCons(accounts: seq<Account>, op: Op, rest: seq<Op>)
    requires InRange(op, |accounts|) && AllInRange(rest, |accounts|)
    ensures AllInRange([op] + rest, |accounts|)
    ensures Run(accounts, [op] + rest) == Run(Step(accounts, op).accounts, rest)
    ensures Replies(accounts, [op] + rest) == [Step(accounts, op).reply] + Replies(Step(accounts, op).accounts, rest)
  {
    assert ([op] + rest)[1..] == rest;
  }

  /** Running the cycle is making its three transfers one after another. */
  lemma RunCycle(accounts: seq<Account>, a: nat, b: nat, c: nat, amount: int)
    requires a < |accounts| && b < |accounts| && c < |accounts|
    ensures AllInRange(Cycle(a, b, c, amount), |accounts|)
    ensures var s1 := TransferAt(accounts, a, b, amount).accounts;
      var s2 := TransferAt(s1, b, c, amount).accounts;
      Run(accounts, Cycle(a, b, c, amount)) == TransferAt(s2, c, a, amount).accounts
  {
    var t1, t2, t3 := TransferBetween(a, b, amount), TransferBetween(b, c, amount), TransferBetween(c, a, amount);
    var s1 := TransferAt(accounts, a, b, amount).accounts;
    var s2 := TransferAt(s1, b, c, amount).accounts;
    assert Run(s2, [t3]) == TransferAt(s2, c, a, amount).accounts by {
      RunCons(s2, t3, []);
      assert [t3] + [] == [t3];
    }
    assert Run(s1, [t2, t3]) == Run(s2, [t3]) by {
      RunCons(s1, t2, [t3]);
      assert [t2] + [t3] == [t2, t3];
    }
    RunCons(accounts, t1, [t2, t3]);
    assert [t1] + [t2, t3] == Cycle(a, b, c, amount);
  }

  /** Three transfers of the same amount around a cycle of three different
      accounts (a to b, b to c, c to a) restore every account,
      as soon as a can pay the first one and b and c are not overdrawn. */
  lemma CircularTransferRestores(accounts: seq<Account>, a: nat, b: nat, c: nat, amount: int)
    requires a < |accounts| && b < |accounts| && c < |accounts|
    requires a != b && b != c && c != a
    requires 0 < amount <= accounts[a].balance
    requires accounts[b].balance >= 0 && accounts[c].balance >= 0
    ensures AllInRange(Cycle(a, b, c, amount), |accounts|)
    ensures Run(accounts, Cycle(a, b, c, amount)) == accounts
  {
    RunCycle(accounts, a, b, c, amount);
    TransferAtMoves(accounts, a, b, amount);
    var s1 := TransferAt(accounts, a, b, amount).accounts;
    TransferAtMoves(s1, b, c, amount);
    var s2 := TransferAt(s1, b, c, amount).accounts;
    TransferAtMoves(s2, c, a, amount);
    var s3 := TransferAt(s2, c, a, amount).accounts;
    forall k | 0 <= k < |accounts| ensures s3[k] == accounts[k] {
      if k == a || k == b || k == c {
        assert s3[k].balance == accounts[k].balance;
      }
    }
    assert s3 == accounts;
  }
}
