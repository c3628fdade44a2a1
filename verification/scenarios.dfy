/** The concrete situations the test suite (test_bank.py) checks, stated
    as facts about the model. Each failing call is checked for the error
    the test expects, and the accounts are checked as the test reads them
    afterwards.
 */
module Scenarios {
  import opened Bank
  import opened Ledger

  lemma InitialBalance()
    ensures GetBalance(Open("John Doe")) == 0
    ensures GetBalance(Open("Jane Doe", 100)) == 100
  {
  }

  lemma DepositReturnsNewBalance()
    ensures Deposit(Open("John Doe"), 50) == Ok(Account("John Doe", 50))
  {
  }

  lemma WithdrawReturnsNewBalance()
    ensures Withdraw(Open("John Doe", 100), 30) == Ok(Account("John Doe", 70))
  {
  }

  lemma TransferMovesAmount()
    ensures Transfer(Open("John Doe", 100), Open("Jane Doe", 50), 30)
         == Transferred(Pair(Account("John Doe", 70), Account("Jane Doe", 80)), None)
  {
  }

  /** Every refused call names its own error; the account is untouched
      because a refused call hands back no new account. */
  lemma RefusedCalls()
    ensures Deposit(Open("John Doe", 100), -50) == Err(DepositNonPositive)
    ensures Withdraw(Open("Jane Doe", 100), 150) == Err(WithdrawInsufficient)
    ensures Withdraw(Open("Alice Smith", 100), -50) == Err(WithdrawNonPositive)
    ensures Transfer(Open("Bob Johnson", 100), Open("Charlie Brown", 50), -30)
         == Transferred(Pair(Open("Bob Johnson", 100), Open("Charlie Brown", 50)), Some(TransferNonPositive))
    ensures Transfer(Open("David Lee", 100), Open("Eva Green", 50), 150)
         == Transferred(Pair(Open("David Lee", 100), Open("Eva Green", 50)), Some(TransferInsufficient))
  {
  }

  /** The body of the parametrised transfer test: a standard account
      (100) at position 0 and a premium account (1000) at 1; a positive
      amount goes from standard when standard can cover it, from premium
      otherwise, and a non-positive amount is not transferred at all. The
      result is the two accounts as the test reads them afterwards and the
      reply of the transfer. The test does not catch errors, so a raised
      reply means the test body itself fails with that error: that happens
      exactly when premium cannot cover the amount either. */
  function ParameterizedRun(amount: int): (r: Outcome)
    ensures |r.accounts| == 2
    ensures r.accounts[0].balance + r.accounts[1].balance == 1100
    ensures r.reply.Raised? <==> amount > 1000
    ensures r.reply.Raised? ==> r.reply == Raised(TransferInsufficient)
  {
    var start := [Open("Standard User", 100), Open("Premium User", 1000)];
    TransferAtConservesTotal(start, 0, 1, amount);
    TransferAtConservesTotal(start, 1, 0, amount);
    if amount > 0 then
      if amount <= start[0].balance then Step(start, TransferBetween(0, 1, amount))
      else Step(start, TransferBetween(1, 0, amount))
    else Outcome(start, NoValue)
  }

  /** One row of the parametrised test passes when the body raises nothing,
      the standard account reads expectedFrom and the premium account
      reads expectedTo. */
  predicate ParameterizedRowPasses(amount: int, expectedFrom: int, expectedTo: int) {
    var r := ParameterizedRun(amount);
    !r.reply.Raised? && r.accounts[0].balance == expectedFrom && r.accounts[1].balance == expectedTo
  }

  /** The second row as written, (200, 800, 300), fails: 200 is more than
      standard holds, so premium sends 200 to standard, which then reads
      300 while premium reads 800. */
  lemma ParameterizedRowTwoAsWritten()
    ensures !ParameterizedRowPasses(200, 800, 300)
    ensures ParameterizedRun(200).accounts[0].balance == 300
  {
  }

  /** The three rows with the second one's expected values the right way
      round: (50, 50, 1050), (200, 300, 800), (0, 100, 1000). */
  lemma ParameterizedTransfers()
    ensures ParameterizedRowPasses(50, 50, 1050)
    ensures ParameterizedRowPasses(200, 300, 800)
    ensures ParameterizedRowPasses(0, 100, 1000)
  {
  }

  /** Alice 500, Bob 300, Charlie 200: two transfers go through, the third
      is refused and changes nothing. */
  lemma MultipleTransfers()
    ensures var start := [Open("Alice", 500), Open("Bob", 300), Open("Charlie", 200)];
      var ops := [TransferBetween(0, 1, 100), TransferBetween(1, 2, 50), TransferBetween(2, 0, 300)];
      && Run(start, ops) == [Open("Alice", 400), Open("Bob", 350), Open("Charlie", 250)]
      && Replies(start, ops) == [NoValue, NoValue, Raised(TransferInsufficient)]
  {
    var start := [Open("Alice", 500), Open("Bob", 300), Open("Charlie", 200)];
    var s1 := [Open("Alice", 400), Open("Bob", 400), Open("Charlie", 200)];
    var s2 := [Open("Alice", 400), Open("Bob", 350), Open("Charlie", 250)];
    RunCons(s2, TransferBetween(2, 0, 300), []);
    RunCons(s1, TransferBetween(1, 2, 50), [TransferBetween(2, 0, 300)]);
    RunCons(start, TransferBetween(0, 1, 100), [TransferBetween(1, 2, 50), TransferBetween(2, 0, 300)]);
    assert [TransferBetween(0, 1, 100)] + [TransferBetween(1, 2, 50), TransferBetween(2, 0, 300)]
        == [TransferBetween(0, 1, 100), TransferBetween(1, 2, 50), TransferBetween(2, 0, 300)];
  }

  /** Alice, Bob and Charlie at 300 each, 100 sent round the circle. */
  lemma CircularTransfer()
    ensures var start := [Open("Alice", 300), Open("Bob", 300), Open("Charlie", 300)];
      Run(start, Cycle(0, 1, 2, 100)) == start
  {
    CircularTransferRestores([Open("Alice", 300), Open("Bob", 300), Open("Charlie", 300)], 0, 1, 2, 100);
  }

  /** The constructor accepts a negative balance, and from there the
      deposit/withdraw round trip does not come back: -10 plus 5 is -5,
      and 5 cannot be withdrawn from -5. */
  lemma RoundTripNeedsNonNegative()
    ensures !NonNegative(Open("A", -10))
    ensures Deposit(Open("A", -10), 5) == Ok(Open("A", -5))
    ensures Withdraw(Open("A", -5), 5) == Err(WithdrawInsufficient)
  {
  }
}
