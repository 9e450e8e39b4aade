/**
  `SimpleAccount`, the entity that includes `Saveable`: an owner name, an
  account name and a balance. Its identifier is `"#{owner_name}-#{account_name}"`,
  its snapshot (`to_h`) is the ordered hash of its three fields, and it is
  saved to the file `"#{safe_id}.json"`.

  Objects are modelled as immutable values: `deposit` and `withdraw` return the
  account after the update.
*/
module SimpleAccount {
  import opened Wrappers
  import Saveable

  datatype SimpleAccount = SimpleAccount(ownerName: string, accountName: string, balance: real)

  /** A JSON-serialisable field value of a snapshot. */
  datatype Value = Str(s: string) | Num(n: real)

  /** An ordered hash from field name to value, as `to_h` builds it. */
  type Snapshot = seq<(string, Value)>

  /** `SimpleAccount.new(owner_name, account_name)`. */
  function New(ownerName: string, accountName: string): (a: SimpleAccount)
    ensures a.ownerName == ownerName && a.accountName == accountName
    ensures a.balance == 0.0
  {
    SimpleAccount(ownerName, accountName, 0.0)
  }

  /** `SimpleAccount#id`: the owner name, a hyphen, the account name. */
  function Id(a: SimpleAccount): (id: string)
    ensures |id| == |a.ownerName| + 1 + |a.accountName|
    ensures id[..|a.ownerName|] == a.ownerName
    ensures id[|a.ownerName|] == '-'
    ensures id[|a.ownerName| + 1..] == a.accountName
  {
    a.ownerName + "-" + a.accountName
  }

  /** The name of the file `save` writes: `"#{safe_id}.json"`. */
  function FileName(a: SimpleAccount): (name: string)
    ensures |name| == |a.ownerName| + |a.accountName| + 6
    ensures name[..|Id(a)|] == Saveable.SafeId(Id(a))
  {
    Saveable.StorageFileName(Id(a))
  }

  /** `SimpleAccount#to_h`. */
  function ToH(a: SimpleAccount): (h: Snapshot)
    ensures |h| == 3
    ensures h[0].0 == "owner_name" && h[1].0 == "account_name" && h[2].0 == "balance"
    ensures h[0].1 == Str(a.ownerName) && h[1].1 == Str(a.accountName) && h[2].1 == Num(a.balance)
  {
    [("owner_name", Str(a.ownerName)),
     ("account_name", Str(a.accountName)),
     ("balance", Num(a.balance))]
  }

  /**
    Reads an account back from a snapshot: exactly the three keys, in the
    order `to_h` writes them, with a string, a string and a number.
  */
  function FromH(h: Snapshot): (r: Option<SimpleAccount>)
    ensures r.Some? ==> |h| == 3
  {
    if |h| == 3
       && h[0].0 == "owner_name" && h[0].1.Str?
       && h[1].0 == "account_name" && h[1].1.Str?
       && h[2].0 == "balance" && h[2].1.Num?
    then Some(SimpleAccount(h[0].1.s, h[1].1.s, h[2].1.n))
    else None
  }

  /** The snapshot holds everything needed to rebuild the account. */
  lemma SnapshotRoundTrip(a: SimpleAccount)
    ensures FromH(ToH(a)) == Some(a)
  {
  }

  /** A snapshot reads back as an account exactly when it is that account's `to_h`. */
  lemma SnapshotReadsBackIff(h: Snapshot, a: SimpleAccount)
    ensures FromH(h) == Some(a) <==> h == ToH(a)
  {
    if FromH(h) == Some(a) {
      assert h[0] == ("owner_name", Str(a.ownerName));
      assert h[1] == ("account_name", Str(a.accountName));
      assert h[2] == ("balance", Num(a.balance));
    }
  }

  /** `SimpleAccount#deposit`: adds the amount; no check on its sign. */
  function Deposit(a: SimpleAccount, amount: real): (r: SimpleAccount)
    ensures r.balance - a.balance == amount
    ensures r.ownerName == a.ownerName && r.accountName == a.accountName
  {
    a.(balance := a.balance + amount)
  }

  /** `SimpleAccount#withdraw`: subtracts the amount; no overdraft check. */
  function Withdraw(a: SimpleAccount, amount: real): (r: SimpleAccount)
    ensures a.balance - r.balance == amount
    ensures r.ownerName == a.ownerName && r.accountName == a.accountName
  {
    a.(balance := a.balance - amount)
  }

  /** Depositing and then withdrawing the same amount (or the other way round) restores the account. */
  lemma DepositWithdrawInverse(a: SimpleAccount, amount: real)
    ensures Withdraw(Deposit(a, amount), amount) == a
    ensures Deposit(Withdraw(a, amount), amount) == a
  {
  }

  /** Neither update changes the identifier, so the account keeps its storage file. */
  lemma UpdatesKeepFileName(a: SimpleAccount, amount: real)
    ensures FileName(Deposit(a, amount)) == FileName(a)
    ensures FileName(Withdraw(a, amount)) == FileName(a)
  {
  }

  /**
    The demonstration at the end of the file: John Best's Budget account,
    after depositing 150, is saved as `john_best-budget.json` with the
    snapshot owner "John Best", account "Budget", balance 150.
  */
  lemma JohnBestBudget()
    ensures Id(Deposit(New("John Best", "Budget"), 150.0)) == "John Best-Budget"
    ensures FileName(Deposit(New("John Best", "Budget"), 150.0)) == "john_best-budget.json"
    ensures ToH(Deposit(New("John Best", "Budget"), 150.0))
         == [("owner_name", Str("John Best")), ("account_name", Str("Budget")), ("balance", Num(150.0))]
  {
    var id := Id(Deposit(New("John Best", "Budget"), 150.0));
    assert id == "John Best-Budget";
    KeyOfJohnBestBudget(id);
  }

  lemma KeyOfJohnBestBudget(id: string)
    requires id == "John Best-Budget"
    ensures Saveable.SafeId(id) == "john_best-budget"
  {
    Saveable.SafeIdPointwise(id);
    assert forall i :: 0 <= i < |id| ==> Saveable.SafeIdChar(id[i]) == "john_best-budget"[i];
  }

  /**
    Two different accounts can be saved to the same file: "A b"/"x" and
    "a_b"/"x" normalise alike, and so do "a-b"/"c" and "a"/"b-c", whose
    identifiers are already equal. The later save overwrites the earlier.
  */
  lemma SharedStorageFile()
    ensures New("A b", "x") != New("a_b", "x")
    ensures FileName(New("A b", "x")) == FileName(New("a_b", "x"))
    ensures New("a-b", "c") != New("a", "b-c")
    ensures Id(New("a-b", "c")) == Id(New("a", "b-c"))
  {
    var x, y := Id(New("A b", "x")), Id(New("a_b", "x"));
    assert x == "A b-x" && y == "a_b-x";
    Saveable.SafeIdPointwise(x);
    Saveable.SafeIdPointwise(y);
    assert Saveable.SafeId(x) == "a_b-x" == Saveable.SafeId(y);
    assert "A b"[0] != "a_b"[0];
    assert Id(New("a-b", "c")) == "a-b-c" == Id(New("a", "b-c"));
  }
}
