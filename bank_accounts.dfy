/**
 * Savings and checking accounts. Both keep a balance that `deposit` and
 * `withdraw` update after guard checks; a failed check raises ValueError in
 * the source, which is an `Err` here with the balance untouched. The two
 * account classes differ only in their withdraw limit and overdraft limit, so
 * they are one class whose `kind` says which it is.
 */
module Banking {
  import opened Wrappers

  datatype AccountKind = Savings | Checking(overdraftLimit: int)

  datatype AccountError = NegativeAmount | InsufficientBalance | ExceedsOverdraftLimit

  /** 0 for a savings account, the limit given at construction for a checking account. */
  function OverdraftLimit(kind: AccountKind): int
  {
    match kind
    case Savings => 0
    case Checking(limit) => limit
  }

  /** Both account kinds: a negative amount is refused, anything else is added. */
  function Deposited(balance: int, amount: int): (r: Result<int, AccountError>)
    ensures r.Ok? <==> amount >= 0
    ensures r.Ok? ==> r.value - balance == amount
  {
    if amount < 0 then Err(NegativeAmount) else Ok(balance + amount)
  }

  /**
   * Savings refuses a negative amount and one above the balance; checking
   * refuses a negative amount and one above balance plus overdraft limit.
   * Either way the withdrawal goes ahead exactly when the amount lies between
   * 0 and balance plus the kind's overdraft limit.
   */
  function Withdrawn(kind: AccountKind, balance: int, amount: int): (r: Result<int, AccountError>)
    ensures r.Ok? <==> 0 <= amount <= balance + OverdraftLimit(kind)
    ensures r.Ok? ==> balance - r.value == amount
  {
    match kind
    case Savings =>
      if amount < 0 then Err(NegativeAmount)
      else if amount > balance then Err(InsufficientBalance)
      else Ok(balance - amount)
    case Checking(limit) =>
      if amount < 0 then Err(NegativeAmount)
      else if amount > balance + limit then Err(ExceedsOverdraftLimit)
      else Ok(balance - amount)
  }

  /** One call made on an account. */
  datatype Operation = Deposit(amount: int) | Withdraw(amount: int)

  /** The balance after one call; a refused call leaves it as it was. */
  function Applied(kind: AccountKind, balance: int, op: Operation): int
  {
    var outcome := match op
      case Deposit(a) => Deposited(balance, a)
      case Withdraw(a) => Withdrawn(kind, balance, a);
    if outcome.Ok? then outcome.value else balance
  }

  /** The balance after the calls `ops`, made in order. */
  function Run(kind: AccountKind, balance: int, ops: seq<Operation>): int
    decreases |ops|
  {
    if ops == [] then balance else Run(kind, Applied(kind, balance, ops[0]), ops[1..])
  }

  /**
   * A balance that starts at or above minus the overdraft limit stays there
   * under any sequence of deposits and withdrawals: a savings balance that
   * starts non-negative never goes negative.
   */
  lemma {:induction false} RunKeepsLimit(kind: AccountKind, balance: int, ops: seq<Operation>)
    requires balance >= -OverdraftLimit(kind)
    ensures Run(kind, balance, ops) >= -OverdraftLimit(kind)
    decreases |ops|
  {
    if ops != [] {
      RunKeepsLimit(kind, Applied(kind, balance, ops[0]), ops[1..]);
    }
  }

  /** Withdrawing what was just deposited restores the balance, for both kinds. */
  lemma DepositThenWithdraw(kind: AccountKind, balance: int, amount: int)
    requires balance >= -OverdraftLimit(kind) && amount >= 0
    ensures Withdrawn(kind, Deposited(balance, amount).value, amount) == Ok(balance)
  {
  }

  class Account {
    const kind: AccountKind
    var balance: int

    constructor SavingsAccount(balance: int)
      ensures kind == Savings && this.balance == balance
      ensures GetOverdraftLimit() == 0
    {
      kind := Savings;
      this.balance := balance;
    }

    constructor CheckingAccount(balance: int, overdraftLimit: int)
      ensures kind == Checking(overdraftLimit) && this.balance == balance
      ensures GetOverdraftLimit() == overdraftLimit
    {
      kind := Checking(overdraftLimit);
      this.balance := balance;
    }

    function GetBalance(): int
      reads this
    {
      balance
    }

    function GetOverdraftLimit(): int
    {
      OverdraftLimit(kind)
    }

    method Deposit(amount: int) returns (outcome: Result<int, AccountError>)
      modifies this
      ensures outcome == Deposited(old(balance), amount)
      ensures balance == if outcome.Ok? then outcome.value else old(balance)
    {
      if amount < 0 {
        return Err(NegativeAmount);
      }
      balance := balance + amount;
      return Ok(balance);
    }

    method Withdraw(amount: int) returns (outcome: Result<int, AccountError>)
      modifies this
      ensures outcome == Withdrawn(kind, old(balance), amount)
      ensures balance == if outcome.Ok? then outcome.value else old(balance)
      ensures old(balance) >= -GetOverdraftLimit() ==> balance >= -GetOverdraftLimit()
    {
      if amount < 0 {
        return Err(NegativeAmount);
      }
      match kind {
        case Savings =>
          if amount > balance {
            return Err(InsufficientBalance);
          }
        case Checking(limit) =>
          if amount > balance + limit {
            return Err(ExceedsOverdraftLimit);
          }
      }
      balance := balance - amount;
      return Ok(balance);
    }
  }

  /**
   * The module-level demo: savings 1000 + 500 - 200 ends at 1300; checking
   * 1000 + 200 - 600 ends at 600 with its overdraft limit of 500.
   */
  method Demo() returns (savings: int, checking: int, limit: int)
    ensures savings == 1300 && checking == 600 && limit == 500
  {
    var savingsAccount := new Account.SavingsAccount(1000);
    var _ := savingsAccount.Deposit(500);
    var _ := savingsAccount.Withdraw(200);
    savings := savingsAccount.GetBalance();

    var checkingAccount := new Account.CheckingAccount(1000, 500);
    var _ := checkingAccount.Deposit(200);
    var _ := checkingAccount.Withdraw(600);
    checking := checkingAccount.GetBalance();
    limit := checkingAccount.GetOverdraftLimit();
  }
}
