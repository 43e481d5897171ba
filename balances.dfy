/**
 The balance updates a transfer performs on the user table, and the sum of all
 balances, which a transfer conserves.
 */
module Balances {
  import opened Common

  /** Sum of the balances of the accounts whose emails are in `keys`. */
  ghost function SumOver(m: map<string, Account>, keys: set<string>): int
    requires keys <= m.Keys
    decreases keys
  {
    if keys == {} then 0
    else
      var k :| k in keys;
      m[k].balance + SumOver(m, keys - {k})
  }

  /** The money held by all accounts together. */
  ghost function Total(m: map<string, Account>): int
  {
    SumOver(m, m.Keys)
  }

  /** Any account may be taken out of the sum first, not just the one SumOver happens to pick. */
  lemma {:induction false} SumOverPick(m: map<string, Account>, keys: set<string>, k: string)
    requires keys <= m.Keys && k in keys
    ensures SumOver(m, keys) == m[k].balance + SumOver(m, keys - {k})
    decreases keys
  {
    var j :| j in keys && SumOver(m, keys) == m[j].balance + SumOver(m, keys - {j});
    if j != k {
      SumOverPick(m, keys - {j}, k);
      SumOverPick(m, keys - {k}, j);
      assert keys - {j} - {k} == keys - {k} - {j};
    }
  }

  /** Two tables whose balances agree on `keys` have the same sum over `keys`. */
  lemma {:induction false} SumOverAgree(m: map<string, Account>, m': map<string, Account>, keys: set<string>)
    requires keys <= m.Keys && keys <= m'.Keys
    requires forall k :: k in keys ==> m[k].balance == m'[k].balance
    ensures SumOver(m, keys) == SumOver(m', keys)
    decreases keys
  {
    if keys != {} {
      var k :| k in keys;
      SumOverPick(m, keys, k);
      SumOverPick(m', keys, k);
      SumOverAgree(m, m', keys - {k});
    }
  }

  /** Replacing one account changes the total by exactly the change of its balance. */
  lemma TotalAfterUpdate(m: map<string, Account>, e: string, a: Account)
    requires e in m
    ensures Total(m[e := a]) == Total(m) - m[e].balance + a.balance
  {
    var m' := m[e := a];
    assert m'.Keys == m.Keys;
    SumOverPick(m, m.Keys, e);
    SumOverPick(m', m.Keys, e);
    SumOverAgree(m, m', m.Keys - {e});
  }

  /**
   One `user.update` with `accountBalance: { increment: delta }` (a decrement is
   a negative delta). The account must exist; the caller handles the case where
   it does not.
   */
  function Adjust(accounts: map<string, Account>, email: string, delta: int): (r: map<string, Account>)
    requires email in accounts
    ensures r.Keys == accounts.Keys
    ensures r[email].name == accounts[email].name
    ensures r[email].balance - accounts[email].balance == delta
    ensures forall e :: e in accounts && e != email ==> r[e] == accounts[e]
    ensures Total(r) == Total(accounts) + delta
  {
    var updated := accounts[email].(balance := accounts[email].balance + delta);
    TotalAfterUpdate(accounts, email, updated);
    accounts[email := updated]
  }

  /**
   The two balance writes of a transfer, in the handler's order: decrement the
   sender, then increment the receiver (reading the sender's new balance when
   the two are the same account). No funds check, no sign check on the amount.
   */
  function Settle(accounts: map<string, Account>, sender: string, receiver: string, amount: int): (r: map<string, Account>)
    requires sender in accounts && receiver in accounts
    ensures r.Keys == accounts.Keys
    ensures sender != receiver ==> r[sender].balance == accounts[sender].balance - amount
    ensures sender != receiver ==> r[receiver].balance == accounts[receiver].balance + amount
    ensures sender == receiver ==> r[sender] == accounts[sender]
    ensures forall e :: e in accounts ==> r[e].name == accounts[e].name
    ensures forall e :: e in accounts && e != sender && e != receiver ==> r[e] == accounts[e]
    ensures Total(r) == Total(accounts)
  {
    Adjust(Adjust(accounts, sender, -amount), receiver, amount)
  }

  /** The handler never compares the amount with the sender's balance, so a transfer can overdraw. */
  lemma OverdraftAllowed(accounts: map<string, Account>, sender: string, receiver: string, amount: int)
    requires sender in accounts && receiver in accounts && sender != receiver
    requires amount > accounts[sender].balance
    ensures Settle(accounts, sender, receiver, amount)[sender].balance < 0
  {
  }
}
