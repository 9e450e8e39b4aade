# Persistable accounts and persons, modelled in Dafny

A model of the small object logic in a Ruby teaching repository:

- the `Saveable` mixin, which turns an entity's identifier into a
  file-system-safe storage key (`safe_id`) and names the JSON file it saves to
  (`saveable.dfy`);
- `SimpleAccount`, the entity that includes `Saveable`: identity
  `owner-account`, an ordered three-field snapshot (`to_h`), and `deposit` and
  `withdraw` (`simple_account.dfy`);
- `BankAccount` and its subclass `InterestBearingAccount`: a balance that
  starts at 0, unguarded `deposit` and `withdraw`, and `deposit_interest`
  (`bank_account.dfy`);
- `Person`: `full_name` and the personal-identity-number date extractor
  `cpr_date_str` / `date_str` for the shape `\A\d{8}-\d{6}\z`
  (`person.dfy`).

Ruby objects are modelled as immutable Dafny values; each mutating method
returns the updated object. Balances and rates are `real`, so all arithmetic
is exact. The class hierarchy is a tagged variant (`Account.Basic`,
`Account.InterestBearing`). The `Person` constructor is the datatype
constructor itself, which stores its three arguments unchanged. Ruby's `nil`
is `Wrappers.Option.None`.

Each operation is paired with something independent of its body: the
`safe_id` pipeline (downcase, then `tr`, then `gsub`) with a one-character
table; `to_h` with a reader `FromH` that rebuilds the account; replayed
deposits and withdrawals with their net sum; repeated interest with a power;
`full_name` with a split at the first space; and the anchored regular
expression with a direct statement of the shape it accepts.

`SimpleAccount` declares `attr_reader :id`, but the `def id` after it
replaces that reader; the model follows `def id`.

## Model

| member | source | states |
|---|---|---|
| Saveable.SafeId | 10_ruby_modules_and_inheritance/02_mixin.rb:13-15 | the key has the identifier's length and every character is in `[0-9a-z_-]` |
| Saveable.SafeIdPointwise | 10_ruby_modules_and_inheritance/02_mixin.rb:14 | the downcase/tr/gsub pipeline maps character by character: space to `_`, `A`-`Z` to `a`-`z`, key characters unchanged, anything else to `-` |
| Saveable.SafeIdAppend | 10_ruby_modules_and_inheritance/02_mixin.rb:14 | the key of a concatenation is the concatenation of the keys |
| Saveable.SafeIdCharFixedIff | 10_ruby_modules_and_inheritance/02_mixin.rb:14 | a character is left alone exactly when it is in `[0-9a-z_-]` |
| Saveable.SafeIdFixedIff | 10_ruby_modules_and_inheritance/02_mixin.rb:14 | a string is its own key exactly when all its characters are in `[0-9a-z_-]` |
| Saveable.SafeIdIdempotent | 10_ruby_modules_and_inheritance/02_mixin.rb:14 | `safe_id(safe_id(s)) == safe_id(s)` for every string |
| Saveable.SafeIdNotInjective | 10_ruby_modules_and_inheritance/02_mixin.rb:14 | two different identifiers ("A b", "a_b") have the same key |
| Saveable.StorageFileName | 10_ruby_modules_and_inheritance/02_mixin.rb:17-19 | the file name is the key followed by `.json`; it has no `/` and its only `.` is the one before `json`, so it is one file inside the directory |
| SimpleAccount.New | 10_ruby_modules_and_inheritance/02_mixin.rb:30-34 | a new account holds the given names and balance 0 |
| SimpleAccount.Id | 10_ruby_modules_and_inheritance/02_mixin.rb:36-38 | the identifier is the owner name, one `-`, then the account name |
| SimpleAccount.FileName | 10_ruby_modules_and_inheritance/02_mixin.rb:17-19 | the account's file name starts with the key of its identifier and is six characters longer than the two names together |
| SimpleAccount.ToH | 10_ruby_modules_and_inheritance/02_mixin.rb:40-46 | the snapshot has exactly the keys owner_name, account_name, balance, in that order, holding the current field values |
| SimpleAccount.SnapshotRoundTrip | 10_ruby_modules_and_inheritance/02_mixin.rb:40-46 | reading the snapshot back gives the same account: no field is lost |
| SimpleAccount.SnapshotReadsBackIff | 10_ruby_modules_and_inheritance/02_mixin.rb:40-46 | a snapshot reads back as an account exactly when it is that account's `to_h` |
| SimpleAccount.Deposit | 10_ruby_modules_and_inheritance/02_mixin.rb:48-50 | the balance rises by the amount; the names do not change |
| SimpleAccount.Withdraw | 10_ruby_modules_and_inheritance/02_mixin.rb:52-54 | the balance falls by the amount; the names do not change |
| SimpleAccount.DepositWithdrawInverse | 10_ruby_modules_and_inheritance/02_mixin.rb:48-54 | deposit then withdraw of the same amount, in either order, restores the account |
| SimpleAccount.UpdatesKeepFileName | 10_ruby_modules_and_inheritance/02_mixin.rb:48-54 | deposits and withdrawals never move the account to another storage file |
| SimpleAccount.JohnBestBudget | 10_ruby_modules_and_inheritance/02_mixin.rb:57-64 | John Best's Budget account after depositing 150 has identifier "John Best-Budget", file "john_best-budget.json" and snapshot (John Best, Budget, 150) |
| SimpleAccount.SharedStorageFile | 10_ruby_modules_and_inheritance/02_mixin.rb:13-19 | different accounts can share one storage file, and even one identifier |
| BankAccount.NewBankAccount | 09_ruby_classes/bank_account.rb:4-7 | a new account is a plain account with the given owner and balance 0 |
| BankAccount.NewInterestBearingAccount | 10_ruby_modules_and_inheritance/01_inheritance.rb:47-50 | a new interest-bearing account has the given owner, balance 0 and the given rate |
| BankAccount.Deposit | 09_ruby_classes/bank_account.rb:9-11 | the balance rises by the amount; owner, kind and rate do not change |
| BankAccount.Withdraw | 09_ruby_classes/bank_account.rb:13-15 | the balance falls by the amount; owner, kind and rate do not change |
| BankAccount.WithdrawCanOverdraw | 09_ruby_classes/bank_account.rb:13-15 | withdrawing from an empty account leaves a negative balance: there is no guard |
| BankAccount.DepositWithdrawInverse | 10_ruby_modules_and_inheritance/01_inheritance.rb:37-43 | deposit then withdraw of the same amount, in either order, restores the account |
| BankAccount.DepositInterest | 10_ruby_modules_and_inheritance/01_inheritance.rb:52-54 | the balance is multiplied by `1 + rate`; owner and rate do not change |
| BankAccount.InterestOnZero | 10_ruby_modules_and_inheritance/01_inheritance.rb:52-54 | interest leaves an empty account unchanged |
| BankAccount.CompoundInterestBalance | 10_ruby_modules_and_inheritance/01_inheritance.rb:52-54 | after `n` interest payments the balance is `b * (1 + rate)^n` |
| BankAccount.DemoInterest | 10_ruby_modules_and_inheritance/01_inheritance.rb:63-70 | rate 1/10, deposit 200, one interest payment: balance 220 |
| BankAccount.RunBalance | 09_ruby_classes/bank_account.rb:9-15 | after any sequence of deposits and withdrawals the balance is the start plus all deposits minus all withdrawals, and nothing else changed |
| BankAccount.RunOrderIndependent | 09_ruby_classes/bank_account.rb:9-15 | the same deposits and withdrawals in any order give the same account |
| Person.FullName | 09_ruby_classes/person.rb:10-12 | the full name is the first name, one space, then the last name |
| Person.FullNameSplitIff | 10_ruby_modules_and_inheritance/01_inheritance.rb:10-12 | splitting the full name at its first space gives back the two names exactly when the first name has no space |
| Person.CprDateStr | 09_ruby_classes/person.rb:24-26 | a returned date is the first eight characters of a 15-character number and is all digits |
| Person.CprDateStrIff | 10_ruby_modules_and_inheritance/01_inheritance.rb:24-26 | a date is returned exactly for 8 ASCII digits, `-`, 6 ASCII digits, and it is the leading eight |
| Person.DatePatternMatchesIff | 09_ruby_classes/person.rb:25 | the anchored token pattern `\d{8}-\d{6}` matches exactly the strings of that shape |
| Person.TrailingNewlineRejected | 09_ruby_classes/person.rb:25 | a number followed by a newline gives no date (`\z`, not `\Z`) |
| Person.DemoNumberRejected | 10_ruby_modules_and_inheritance/01_inheritance.rb:57-60 | the demonstration number "811228-9874" gives no date |
| Person.WellFormedNumberAccepted | 09_ruby_classes/person.rb:25 | "28121981-123456" gives "28121981" |

## Left out

- Saveable.SafeId: Ruby's `downcase` is full Unicode case mapping; the model lower-cases only `A`-`Z` and sends every other non-key character to `-`. The two differ on a few non-ASCII characters whose lower case is ASCII (U+212A KELVIN SIGN becomes `k` in Ruby) or longer than one character (U+0130 becomes `i` plus a combining dot, so Ruby's key is one character longer).
- `save` and `storage_path`: the file write through `Pathname` and `to_json`, and the directory `__dir__`, are I/O; only the file name is modelled. A later save to a shared file name overwrites an earlier one (see `SimpleAccount.SharedStorageFile`).
- JSON encoding of the snapshot: the snapshot is modelled as an ordered list of field name and value; the JSON text is not.
- The `fail "You must implement ..."` defaults of `Saveable#to_h` and `Saveable#id`: they only raise when a class forgets to define them, which `SimpleAccount` does not.
- `birthdate` in both `Person` classes: it calls `Date.strptime`, whose calendar parsing is library behaviour. With the demonstration number `date_str` is `nil`, so that call would fail.
- Floating point: balances and rates are exact reals, so results such as the 220 of `DemoInterest` are stated without rounding; the Ruby program starts with Integer 0 and then uses Float amounts.
- Type errors: a non-numeric amount or a `nil` identity number raises in Ruby; the model's types rule these out.
- BankAccount.DepositInterest: requires an interest-bearing account; Ruby has no `deposit_interest` on a plain `BankAccount` and raises `NoMethodError` there, which the model does not represent as a value.
- `07_ruby_classes/person.rb` and `07_ruby_classes/christmas.rb`, the string, collection, regular-expression, gem and XML demonstrations, the `pry` hooks and all top-level `puts` output: not part of this model.
