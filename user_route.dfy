/**
 GET /api/user: the caller's own account record.
 */
module UserRoute {
  import opened Common
  import opened Balances
  import opened DashboardStatsRoute

  /** The columns the handler selects: name, email and balance. */
  datatype UserRecord = UserRecord(name: string, email: string, accountBalance: int)

  /**
   401 without a caller, checked before the table is read; 404 when no account
   has the caller's email; otherwise the record of the account under that email.
   */
  function LookupUser(accounts: map<string, Account>, session: Option<string>): (r: Response<UserRecord>)
    ensures Caller(session).None? ==> r == Error(Unauthorized)
    ensures Caller(session).Some? && session.value !in accounts ==> r == Error(NotFound)
    ensures r.Ok? <==> Caller(session).Some? && session.value in accounts
    ensures r.Ok? ==> r.body.email == session.value
    ensures r.Ok? ==> r.body.name == accounts[session.value].name
    ensures r.Ok? ==> r.body.accountBalance == accounts[session.value].balance
  {
    match Caller(session)
    case None => Error(Unauthorized)
    case Some(e) =>
      if e !in accounts then Error(NotFound)
      else Ok(UserRecord(accounts[e].name, e, accounts[e].balance))
  }

  /**
   For an existing account the lookup and the dashboard agree on the balance
   unless it is 0, which the dashboard shows as the 1000 seed.
   */
  lemma LookupAgreesWithStats(accounts: map<string, Account>, ledger: seq<Txn>, session: Option<string>)
    requires LookupUser(accounts, session).Ok?
    ensures var b := LookupUser(accounts, session).body.accountBalance;
      DashboardStats(accounts, ledger, session).body.currentBalance == if b != 0 then b else InitialBalance
  {
  }

  /** After a transfer between two distinct accounts, the sender's lookup shows the balance lowered by the amount. */
  lemma LookupAfterTransfer(accounts: map<string, Account>, sender: string, receiver: string, amount: int)
    requires sender != "" && sender in accounts && receiver in accounts && sender != receiver
    ensures LookupUser(Settle(accounts, sender, receiver, amount), Some(sender)).body.accountBalance
            == accounts[sender].balance - amount
  {
  }
}
