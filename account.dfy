/**
 * The bank account entity (ContaBancaria) as a mutable object: an owner
 * fixed at construction, and a balance and a blocked flag that depositar,
 * sacar and bloquearConta update in place. Every method is proved against
 * the transition of the same name in AccountSpec.
 */
module AccountEntity {
  import opened AccountSpec

  class Account {
    const owner: string
    var balance: real
    var blocked: bool

    /** The account's observable state, as a value. */
    function State(): (s: AccountState)
      reads this
    {
      AccountState(owner, balance, blocked)
    }

    /** The object invariant: a valid owner name and a non-negative balance. */
    ghost predicate Valid()
      reads this
    {
      Invariant(State())
    }

    /** Builds the account once its name has passed validation (see Open). */
    constructor (name: string)
      requires ValidName(name)
      ensures Valid()
      ensures Open(name) == Success(State())
    {
      owner := name;
      balance := 0.0;
      blocked := false;
    }

    /**
     * `new ContaBancaria(name)`: validates the name, and either yields a
     * fresh, empty, unblocked account or fails with InvalidName.
     */
    static method Create(name: string) returns (r: Result<Account>)
      ensures r.Success? <==> Open(name).Success?
      ensures r.Failure? ==> r == Failure(InvalidName)
      ensures r.Success? ==> fresh(r.value) && r.value.Valid()
      ensures r.Success? ==> Open(name) == Success(r.value.State())
    {
      if !ValidName(name) {
        return Failure(InvalidName);
      }
      var a := new Account(name);
      r := Success(a);
    }

    /** getSaldo: reads the balance and changes nothing. */
    method GetBalance() returns (b: real)
      requires Valid()
      ensures b == State().balance && b >= 0.0
    {
      b := balance;
    }

    /** depositar */
    method Deposit(amount: real) returns (o: Outcome)
      requires Valid()
      modifies this
      ensures Valid()
      ensures Applied(AccountSpec.Deposit(old(State()), amount), old(State()), o, State())
    {
      if amount <= 0.0 {
        return Fail(InvalidAmount);
      }
      if blocked {
        return Fail(AccountBlocked);
      }
      balance := balance + amount;
      o := Pass;
    }

    /** sacar */
    method Withdraw(amount: real) returns (o: Outcome)
      requires Valid()
      modifies this
      ensures Valid()
      ensures Applied(AccountSpec.Withdraw(old(State()), amount), old(State()), o, State())
    {
      if blocked {
        return Fail(AccountBlocked);
      }
      if balance < amount {
        return Fail(InsufficientFunds);
      }
      balance := balance - amount;
      o := Pass;
    }

    /** bloquearConta */
    method Block()
      requires Valid()
      modifies this
      ensures Valid()
      ensures State() == AccountSpec.Block(old(State()))
    {
      blocked := true;
    }
  }
}
