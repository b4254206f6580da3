/** The parts of an EVM chain every watcher and ledger below looks at. */
module Chain {

  datatype Address = Address(text: string)

  function LowerChar(c: char): char {
    if 'A' <= c <= 'Z' then (c as int - 'A' as int + 'a' as int) as char else c
  }

  function UpperChar(c: char): char {
    if 'a' <= c <= 'z' then (c as int - 'a' as int + 'A' as int) as char else c
  }

  function ToLower(s: string): string { seq(|s|, i requires 0 <= i < |s| => LowerChar(s[i])) }
  function ToUpper(s: string): string { seq(|s|, i requires 0 <= i < |s| => UpperChar(s[i])) }

  /** toLowerCase() on an address. */
  function Lower(a: Address): Address { Address(ToLower(a.text)) }

  /** Token balances, by token contract and holder. */
  datatype Account = Account(token: Address, holder: Address)
  type Balances = map<Account, nat>

  function BalanceOf(b: Balances, token: Address, holder: Address): nat {
    if Account(token, holder) in b then b[Account(token, holder)] else 0
  }

  function Credit(b: Balances, token: Address, holder: Address, amount: nat): Balances {
    b[Account(token, holder) := BalanceOf(b, token, holder) + amount]
  }

  function Debit(b: Balances, token: Address, holder: Address, amount: nat): Balances
    requires amount <= BalanceOf(b, token, holder)
  {
    b[Account(token, holder) := BalanceOf(b, token, holder) - amount]
  }

  /** An ERC20 transfer that the contract accepts. */
  function Transfer(b: Balances, token: Address, from: Address, to: Address, amount: nat): Balances
    requires amount <= BalanceOf(b, token, from)
  {
    Credit(Debit(b, token, from, amount), token, to, amount)
  }
}
