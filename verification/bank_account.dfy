/**
  `BankAccount` and its subclass `InterestBearingAccount`.

  Both classes share the owner, the balance, `deposit` and `withdraw`; the
  subclass adds a rate fixed at construction and `deposit_interest`. The
  hierarchy is a tagged variant: `Basic` is a plain `BankAccount`,
  `InterestBearing` an `InterestBearingAccount`. The owner is of any type
  (a `Person` in one file, anything in the other).

  A `Transaction` is one call of `deposit` or `withdraw`; `Run` replays a
  sequence of them, and `Net` is their independent arithmetic summary.
*/
module BankAccount {

  datatype Account<O> =
    | Basic(owner: O, balance: real)
    | InterestBearing(owner: O, balance: real, rate: real)

  /** `BankAccount.new(owner:)`. */
  function NewBankAccount<O>(owner: O): (a: Account<O>)
    ensures a.Basic? && a.owner == owner && a.balance == 0.0
  {
    Basic(owner, 0.0)
  }

  /** `InterestBearingAccount.new(owner:, rate:)`: the base initialiser, then the rate. */
  function NewInterestBearingAccount<O>(owner: O, rate: real): (a: Account<O>)
    ensures a.InterestBearing? && a.owner == owner && a.balance == 0.0 && a.rate == rate
  {
    InterestBearing(owner, 0.0, rate)
  }

  /** `deposit(amount)`: adds the amount, whatever its sign. */
  function Deposit<O>(a: Account<O>, amount: real): (r: Account<O>)
    ensures r.balance - a.balance == amount
    ensures r == a.(balance := r.balance)
  {
    a.(balance := a.balance + amount)
  }

  /** `withdraw(amount)`: subtracts the amount; the balance may go below zero. */
  function Withdraw<O>(a: Account<O>, amount: real): (r: Account<O>)
    ensures a.balance - r.balance == amount
    ensures r == a.(balance := r.balance)
  {
    a.(balance := a.balance - amount)
  }

  /** No overdraft guard: withdrawing more than the balance leaves it negative. */
  lemma WithdrawCanOverdraw<O>(owner: O)
    ensures Withdraw(NewBankAccount(owner), 50.0).balance < 0.0
  {
  }

  lemma DepositWithdrawInverse<O>(a: Account<O>, amount: real)
    ensures Withdraw(Deposit(a, amount), amount) == a
    ensures Deposit(Withdraw(a, amount), amount) == a
  {
  }

  /** `InterestBearingAccount#deposit_interest`: the balance grows by the factor `1 + rate`. */
  function DepositInterest<O>(a: Account<O>): (r: Account<O>)
    requires a.InterestBearing?
    ensures r.InterestBearing? && r.owner == a.owner && r.rate == a.rate
    ensures r.balance == a.balance * (1.0 + a.rate)
  {
    a.(balance := a.balance + a.rate * a.balance)
  }

  /** `deposit_interest` leaves an empty account empty, whatever the rate. */
  lemma InterestOnZero<O>(a: Account<O>)
    requires a.InterestBearing? && a.balance == 0.0
    ensures DepositInterest(a) == a
  {
  }

  /** Base to the power `n`. */
  function Pow(base: real, n: nat): real {
    if n == 0 then 1.0 else base * Pow(base, n - 1)
  }

  /** `deposit_interest` called `n` times in a row. */
  function CompoundInterest<O>(a: Account<O>, n: nat): (r: Account<O>)
    requires a.InterestBearing?
    ensures r.InterestBearing? && r.owner == a.owner && r.rate == a.rate
  {
    if n == 0 then a else DepositInterest(CompoundInterest(a, n - 1))
  }

  /** After `n` interest payments the balance is `b * (1 + rate)^n`. */
  lemma {:induction false} CompoundInterestBalance<O>(a: Account<O>, n: nat)
    requires a.InterestBearing?
    ensures CompoundInterest(a, n).balance == a.balance * Pow(1.0 + a.rate, n)
  {
    if n > 0 {
      CompoundInterestBalance(a, n - 1);
      var x, p := 1.0 + a.rate, Pow(1.0 + a.rate, n - 1);
      assert CompoundInterest(a, n).balance == (a.balance * p) * x;
      assert Pow(x, n) == x * p;
      assert (a.balance * p) * x == a.balance * (x * p);
    }
  }

  /**
    The demonstration: a new interest-bearing account at rate 1/10, after
    depositing 200 and paying interest once, holds 220 (in exact arithmetic).
  */
  lemma DemoInterest<O>(owner: O)
    ensures DepositInterest(Deposit(NewInterestBearingAccount(owner, 0.1), 200.0)).balance == 220.0
  {
  }

  /** One call of `deposit` or `withdraw`. */
  datatype Transaction = Deposited(amount: real) | Withdrawn(amount: real)

  function Apply<O>(a: Account<O>, t: Transaction): Account<O> {
    match t
    case Deposited(x) => Deposit(a, x)
    case Withdrawn(x) => Withdraw(a, x)
  }

  /** Replays the transactions, first to last. */
  function Run<O>(a: Account<O>, ts: seq<Transaction>): Account<O>
    decreases |ts|
  {
    if ts == [] then a else Run(Apply(a, ts[0]), ts[1..])
  }

  /** What one transaction adds to the balance. */
  function Effect(t: Transaction): real {
    match t
    case Deposited(x) => x
    case Withdrawn(x) => -x
  }

  /** The sum of the effects of the transactions. */
  function Net(ts: seq<Transaction>): real {
    if ts == [] then 0.0 else Effect(ts[0]) + Net(ts[1..])
  }

  function TotalDeposited(ts: seq<Transaction>): real {
    if ts == [] then 0.0
    else (if ts[0].Deposited? then ts[0].amount else 0.0) + TotalDeposited(ts[1..])
  }

  function TotalWithdrawn(ts: seq<Transaction>): real {
    if ts == [] then 0.0
    else (if ts[0].Withdrawn? then ts[0].amount else 0.0) + TotalWithdrawn(ts[1..])
  }

  /** The net effect is the deposits minus the withdrawals. */
  lemma {:induction false} NetIsDepositsMinusWithdrawals(ts: seq<Transaction>)
    ensures Net(ts) == TotalDeposited(ts) - TotalWithdrawn(ts)
  {
    if ts != [] {
      NetIsDepositsMinusWithdrawals(ts[1..]);
    }
  }

  /**
    After any sequence of deposits and withdrawals the balance has moved by
    their net effect, and nothing else about the account has changed.
  */
  lemma {:induction false} RunBalance<O>(a: Account<O>, ts: seq<Transaction>)
    ensures Run(a, ts) == a.(balance := a.balance + TotalDeposited(ts) - TotalWithdrawn(ts))
  {
    NetIsDepositsMinusWithdrawals(ts);
    RunNet(a, ts);
  }

  lemma {:induction false} RunNet<O>(a: Account<O>, ts: seq<Transaction>)
    ensures Run(a, ts) == a.(balance := a.balance + Net(ts))
    decreases |ts|
  {
    if ts != [] {
      RunNet(Apply(a, ts[0]), ts[1..]);
    }
  }

  lemma {:induction false} NetAppend(xs: seq<Transaction>, ys: seq<Transaction>)
    ensures Net(xs + ys) == Net(xs) + Net(ys)
  {
    if xs == [] {
      assert xs + ys == ys;
    } else {
      assert (xs + ys)[1..] == xs[1..] + ys;
      NetAppend(xs[1..], ys);
    }
  }

  /** Taking one transaction out of the sequence removes exactly its effect. */
  lemma NetRemove(ts: seq<Transaction>, k: nat)
    requires k < |ts|
    ensures Net(ts) == Effect(ts[k]) + Net(ts[..k] + ts[k + 1..])
  {
    assert ts == ts[..k] + ([ts[k]] + ts[k + 1..]);
    NetAppend(ts[..k], [ts[k]] + ts[k + 1..]);
    NetAppend(ts[..k], ts[k + 1..]);
    assert ([ts[k]] + ts[k + 1..])[1..] == ts[k + 1..];
  }

  lemma MultisetRemove<T>(s: seq<T>, k: nat)
    requires k < |s|
    ensures multiset(s[..k] + s[k + 1..]) == multiset(s) - multiset{s[k]}
  {
    assert s == s[..k] + [s[k]] + s[k + 1..];
  }

  /** The net effect does not depend on the order of the transactions. */
  lemma {:induction false} NetPermutation(ts: seq<Transaction>, us: seq<Transaction>)
    requires multiset(ts) == multiset(us)
    ensures Net(ts) == Net(us)
    decreases |ts|
  {
    if ts == [] {
      assert |us| == |multiset(us)| == 0;
    } else {
      var t := ts[0];
      assert t in multiset(us);
      var k :| 0 <= k < |us| && us[k] == t;
      var rest := us[..k] + us[k + 1..];
      MultisetRemove(us, k);
      assert ts == [t] + ts[1..];
      assert multiset(ts[1..]) == multiset(rest);
      NetPermutation(ts[1..], rest);
      NetRemove(us, k);
    }
  }

  /** Replaying the same transactions in any order gives the same account. */
  lemma RunOrderIndependent<O>(a: Account<O>, ts: seq<Transaction>, us: seq<Transaction>)
    requires multiset(ts) == multiset(us)
    ensures Run(a, ts) == Run(a, us)
  {
    RunNet(a, ts);
    RunNet(a, us);
    NetPermutation(ts, us);
  }
}
