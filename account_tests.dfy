/**
 * The account's test scenarios as client code: each method performs the
 * calls of one test on a fresh account and its postcondition is what that
 * test asserts, derived from the contracts of Account alone.
 */
module AccountTests {
  import opened AccountSpec
  import opened AccountEntity

  /** setUp: every scenario starts from a new account owned by "Edgar". */
  method SetUp() returns (a: Account)
    ensures fresh(a) && a.Valid()
    ensures a.State() == AccountState("Edgar", 0.0, false)
  {
    EdgarIsValid();
    var r := Account.Create("Edgar");
    a := r.value;
  }

  /** A deposit of 132.97 leaves the balance at exactly 132.97. */
  method DepositSucceeds() returns (o: Outcome, balance: real)
    ensures o == Pass && balance == 132.97
  {
    var a := SetUp();
    o := a.Deposit(132.97);
    balance := a.GetBalance();
  }

  /** A deposit of -5000 fails with InvalidAmount and changes nothing. */
  method DepositNegativeAmount() returns (o: Outcome, balance: real)
    ensures o == Fail(InvalidAmount) && balance == 0.0
  {
    var a := SetUp();
    o := a.Deposit(-5000.0);
    balance := a.GetBalance();
  }

  /** After blocking, a deposit of 1500.30 fails with AccountBlocked. */
  method DepositIntoBlockedAccount() returns (o: Outcome, balance: real)
    ensures o == Fail(AccountBlocked) && balance == 0.0
  {
    var a := SetUp();
    a.Block();
    o := a.Deposit(1500.30);
    balance := a.GetBalance();
  }

  /** Depositing 1000 and withdrawing 500 leaves exactly 500. */
  method WithdrawSucceeds() returns (o: Outcome, balance: real)
    ensures o == Pass && balance == 500.0
  {
    var a := SetUp();
    var d := a.Deposit(1000.0);
    assert d == Pass;
    o := a.Withdraw(500.0);
    balance := a.GetBalance();
  }

  /** Withdrawing 500 from an empty account fails with InsufficientFunds. */
  method WithdrawInsufficientFunds() returns (o: Outcome, balance: real)
    ensures o == Fail(InsufficientFunds) && balance == 0.0
  {
    var a := SetUp();
    o := a.Withdraw(500.0);
    balance := a.GetBalance();
  }

  /**
   * With 1000 deposited and the account blocked, withdrawing 500 fails with
   * AccountBlocked although the funds would suffice; the 1000 stay.
   */
  method WithdrawFromBlockedAccount() returns (o: Outcome, balance: real)
    ensures o == Fail(AccountBlocked) && balance == 1000.0
  {
    var a := SetUp();
    var d := a.Deposit(1000.0);
    assert d == Pass;
    a.Block();
    o := a.Withdraw(500.0);
    balance := a.GetBalance();
  }

  /** Creating an account named "Edgar4 " fails with InvalidName. */
  method CreateWithInvalidCharacters() returns (r: Result<Account>)
    ensures r == Failure(InvalidName)
  {
    Edgar4IsInvalid();
    r := Account.Create("Edgar4 ");
  }
}
