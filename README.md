# Bank account model (banking-core)

A Dafny model of `ContaBancaria`, the bank-account entity of banking-core. An account has an
owner name, an exact-decimal balance and a blocked flag. Four guarded operations act on it:

- construction validates the owner name;
- `depositar` (deposit) adds a positive amount to an unblocked account;
- `sacar` (withdraw) takes an amount from an unblocked account that holds enough;
- `bloquearConta` (block) sets the blocked flag.

Every failure is one of four error kinds, and a failed operation changes nothing. Its
behaviour is taken from its unit tests in `src/test/java/com/br/domain/ContaBancariaTest.java`.

The project has three modules:

- `AccountSpec` (`account_spec.dfy`) is the value-level specification. It defines the error
  kinds (`InvalidName`, `InvalidAmount`, `AccountBlocked`, `InsufficientFunds`). It defines
  `AccountState` and one pure transition per operation (`Open`, `Deposit`, `Withdraw`,
  `Block`), plus `Run`, which applies a sequence of calls and stops at the first failure, as a
  thrown exception would. Its lemmas state the account's promises: round trips, the frozen
  blocked state, the non-negative balance, and exact net effect over any sequence of calls.
- `AccountEntity` (`account.dfy`) is the mutable class `Account`. It has a `const owner` and the
  fields `balance` and `blocked`, which `Deposit`, `Withdraw` and `Block` update in place. Each
  method is proved against the transition of the same name in `AccountSpec`. The predicate
  `Applied` ties them together: on success the method returns `Pass` and the new state is the
  transition's result; on failure it returns the error and the state is unchanged. A Java
  constructor that throws becomes the static method `Account.Create`, which returns
  `Failure(InvalidName)` or a fresh account.
- `AccountTests` (`account_tests.dfy`) holds the seven test scenarios and `setUp` as client
  methods. Each one runs the test's calls on a fresh `Account`. Its postcondition is the
  test's assertion, proved from the class contracts and the name-policy lemmas. Where a failed
  operation must leave the balance unchanged, the postcondition states that too.

Design choices:

- Balances and amounts are `real`. These are exact rationals, so sums are exact, as with
  `BigDecimal`.
- Deposit checks "amount positive" first, then "not blocked". Withdraw checks "not blocked"
  first, then "enough balance". No test combines two failing conditions, so these orders are
  a design choice and not a fact taken from the tests.
- The name policy is: non-empty, made only of ASCII letters and spaces. The tests fix only
  that "Edgar" is accepted and "Edgar4 " is refused. `EdgarIsValid`, `Edgar4IsInvalid` and
  `DigitMakesNameInvalid` are the facts proved about the policy.
- Withdraw does not check that the amount is positive. On an unblocked account, a zero or
  negative withdrawal succeeds and does not lower the balance (`WithdrawNonPositive`).
- Blocking sets the flag rather than flipping it, so blocking an already blocked account
  changes nothing (`BlockIdempotent`). The tests block an account only once.

## Model

| member | source | states |
|---|---|---|
| `AccountSpec.Open` | src/test/java/com/br/domain/ContaBancariaTest.java:17-20 | construction succeeds exactly when the name passes the policy; the new account has that owner, balance 0, is unblocked and satisfies the invariant; otherwise it fails with InvalidName |
| `AccountSpec.Deposit` | src/test/java/com/br/domain/ContaBancariaTest.java:22-56 | succeeds iff the amount is positive and the account unblocked; a non-positive amount fails with InvalidAmount, a blocked account with AccountBlocked; on success the balance rises by exactly the amount, and owner and flag are kept |
| `AccountSpec.Withdraw` | src/test/java/com/br/domain/ContaBancariaTest.java:58-96 | succeeds iff the account is unblocked and the amount is at most the balance; blocked fails with AccountBlocked regardless of funds, too little balance with InsufficientFunds; on success the balance changes by exactly minus the amount and stays non-negative |
| `AccountSpec.Block` | src/test/java/com/br/domain/ContaBancariaTest.java:45-56 | the account becomes blocked; owner and balance are unchanged and the invariant is kept |
| `AccountSpec.DigitMakesNameInvalid` | src/test/java/com/br/domain/ContaBancariaTest.java:98-105 | any name with a digit at any position is refused with InvalidName |
| `AccountSpec.EdgarIsValid` | src/test/java/com/br/domain/ContaBancariaTest.java:17-20 | "Edgar" opens an account with balance 0 that is not blocked |
| `AccountSpec.Edgar4IsInvalid` | src/test/java/com/br/domain/ContaBancariaTest.java:98-105 | "Edgar4 " is refused with InvalidName |
| `AccountSpec.DepositThenWithdraw` | src/test/java/com/br/domain/ContaBancariaTest.java:58-70 | withdrawing the amount just deposited succeeds and restores the account exactly |
| `AccountSpec.WithdrawThenDeposit` | src/test/java/com/br/domain/ContaBancariaTest.java:58-70 | depositing a positive amount just withdrawn succeeds and restores the account exactly |
| `AccountSpec.BlockedRefusesMoves` | src/test/java/com/br/domain/ContaBancariaTest.java:83-96 | after blocking, every deposit fails (with AccountBlocked for a positive amount) and every withdrawal fails with AccountBlocked |
| `AccountSpec.BlockIdempotent` | src/test/java/com/br/domain/ContaBancariaTest.java:45-56 | blocking a blocked account changes nothing |
| `AccountSpec.WithdrawNonPositive` | src/test/java/com/br/domain/ContaBancariaTest.java:72-81 | withdraw has no positivity check: a zero or negative withdrawal from an unblocked account succeeds and does not lower the balance |
| `AccountSpec.RunKeepsInvariant` | src/test/java/com/br/domain/ContaBancariaTest.java:58-70 | no successful sequence of deposits, withdrawals and blocks makes the balance negative or changes the owner |
| `AccountSpec.RunNetEffect` | src/test/java/com/br/domain/ContaBancariaTest.java:58-70 | after a successful sequence of calls, the balance equals the start balance plus all deposits minus all withdrawals, exactly |
| `AccountSpec.RunWhileBlocked` | src/test/java/com/br/domain/ContaBancariaTest.java:83-96 | from a blocked account, a sequence of calls succeeds iff it contains only blocks, and then it leaves the account unchanged |
| `AccountEntity.Account.constructor` | src/test/java/com/br/domain/ContaBancariaTest.java:17-20 | for an accepted name, the new object is valid and holds the state `Open` gives |
| `AccountEntity.Account.Create` | src/test/java/com/br/domain/ContaBancariaTest.java:98-105 | yields a fresh, valid account in the state `Open` gives exactly when `Open` succeeds; otherwise fails with InvalidName |
| `AccountEntity.Account.GetBalance` | src/test/java/com/br/domain/ContaBancariaTest.java:29 | returns the current balance, which is never negative, and changes nothing |
| `AccountEntity.Account.Deposit` | src/test/java/com/br/domain/ContaBancariaTest.java:22-56 | keeps the invariant; returns Pass and moves to `AccountSpec.Deposit`'s state, or returns its error and changes nothing |
| `AccountEntity.Account.Withdraw` | src/test/java/com/br/domain/ContaBancariaTest.java:58-96 | keeps the invariant; returns Pass and moves to `AccountSpec.Withdraw`'s state, or returns its error and changes nothing |
| `AccountEntity.Account.Block` | src/test/java/com/br/domain/ContaBancariaTest.java:45-56 | keeps the invariant and moves to `AccountSpec.Block`'s state |
| `AccountTests.SetUp` | src/test/java/com/br/domain/ContaBancariaTest.java:17-20 | a fresh valid account owned by "Edgar", with balance 0, not blocked |
| `AccountTests.DepositSucceeds` | src/test/java/com/br/domain/ContaBancariaTest.java:22-31 | depositing 132.97 succeeds and the balance read back is exactly 132.97 |
| `AccountTests.DepositNegativeAmount` | src/test/java/com/br/domain/ContaBancariaTest.java:33-43 | depositing -5000 fails with InvalidAmount and the balance stays 0 |
| `AccountTests.DepositIntoBlockedAccount` | src/test/java/com/br/domain/ContaBancariaTest.java:45-56 | after blocking, depositing 1500.30 fails with AccountBlocked |
| `AccountTests.WithdrawSucceeds` | src/test/java/com/br/domain/ContaBancariaTest.java:58-70 | deposit 1000 then withdraw 500 succeeds and leaves exactly 500 |
| `AccountTests.WithdrawInsufficientFunds` | src/test/java/com/br/domain/ContaBancariaTest.java:72-81 | withdrawing 500 from a new account fails with InsufficientFunds |
| `AccountTests.WithdrawFromBlockedAccount` | src/test/java/com/br/domain/ContaBancariaTest.java:83-96 | with 1000 deposited and the account blocked, withdrawing 500 fails with AccountBlocked and the 1000 remain |
| `AccountTests.CreateWithInvalidCharacters` | src/test/java/com/br/domain/ContaBancariaTest.java:98-105 | creating an account named "Edgar4 " fails with InvalidName |

## Left out

- The service `ContaBancariaService` and its repository (`adicionarUsuario`, `buscarUsuarioPelaID`, `buscarTodosUsuarios`). The service only forwards each call to `ContaBancariaRepository`, and that repository is not part of this model. Id assignment and set ordering are therefore not modelled.
- The account identifier, which the repository assigns; the account never reads it.
- Exception message strings. Errors are datatype cases, because the tests spell the blocked message two ways ("conta esta bloqueada" and "Conta esta Bloqueada").
- `BigDecimal`'s scale-sensitive `equals` (for example, 500 and 500.0 are unequal). Amounts are exact numbers without a scale.
- An unblock operation. No test uses one, so once blocked, an account stays blocked in this model.
- The exact character policy of the Java constructor. The model uses "non-empty, ASCII letters and spaces". It proves only the accepted and refused names the tests use, and the general rule that any digit makes a name invalid.
- Concurrent use of one account. The account is single-threaded, as in the source.
