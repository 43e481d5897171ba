/**
 GET /api/dashboard-stats: all-time income, expense and balance of the caller,
 and how they relate to the stored balance when every account started at the
 seed and moved only by transfers.
 */
module DashboardStatsRoute {
  import opened Common
  import opened Balances
  import opened Ledger

  datatype Stats = Stats(totalIncome: int, totalExpense: int, currentBalance: int)

  /**
   The handler: 401 without a caller; otherwise the seed plus everything
   received, everything sent, and the stored balance, which `|| 1000` replaces
   when the account is missing or its balance is 0. It never answers 404.
   */
  function DashboardStats(accounts: map<string, Account>, ledger: seq<Txn>, session: Option<string>): (r: Response<Stats>)
    ensures r.Error? <==> Caller(session).None?
    ensures r.Error? ==> r.status == Unauthorized
    ensures r.Ok? ==> r.body.totalIncome == InitialBalance + SumAmount(ledger, Receiver, session.value)
    ensures r.Ok? ==> r.body.totalExpense == SumAmount(ledger, Sender, session.value)
    ensures r.Ok? && session.value in accounts && accounts[session.value].balance != 0 ==>
              r.body.currentBalance == accounts[session.value].balance
    ensures r.Ok? && (session.value !in accounts || accounts[session.value].balance == 0) ==>
              r.body.currentBalance == InitialBalance
  {
    match Caller(session)
    case None => Error(Unauthorized)
    case Some(e) =>
      var stored := if e in accounts then Some(accounts[e].balance) else None;
      Ok(Stats(
        InitialBalance + SumAmount(ledger, Receiver, e),
        SumAmount(ledger, Sender, e),
        if stored.Some? && stored.value != 0 then stored.value else InitialBalance))
  }

  /** With no entry sent by the caller, the expense is 0. */
  lemma NoExpenseWithoutSending(accounts: map<string, Account>, ledger: seq<Txn>, e: string)
    requires e != ""
    requires forall i :: 0 <= i < |ledger| ==> ledger[i].senderEmail != e
    ensures DashboardStats(accounts, ledger, Some(e)).body.totalExpense == 0
  {
    SumAmountNone(ledger, Sender, e);
  }

  /** Timestamps play no part: the totals cover the whole ledger, with no reporting window. */
  lemma StatsIgnoreTime(accounts: map<string, Account>, a: seq<Txn>, b: seq<Txn>, session: Option<string>)
    requires SameButTime(a, b)
    ensures DashboardStats(accounts, a, session) == DashboardStats(accounts, b, session)
  {
    if Caller(session).Some? {
      SumAmountIgnoresTime(a, b, Receiver, session.value);
      SumAmountIgnoresTime(a, b, Sender, session.value);
    }
  }

  /**
   Every stored balance is the seed plus what the account received minus what
   it sent: true of accounts that were registered with the seed and changed only
   through transfers.
   */
  ghost predicate SeededBalances(accounts: map<string, Account>, ledger: seq<Txn>)
  {
    forall e :: e in accounts ==>
      accounts[e].balance == InitialBalance + SumAmount(ledger, Receiver, e) - SumAmount(ledger, Sender, e)
  }

  /** A transfer's ledger entry together with its two balance writes keeps every balance in line with the ledger. */
  lemma TransferKeepsSeeded(accounts: map<string, Account>, ledger: seq<Txn>, t: Txn)
    requires SeededBalances(accounts, ledger)
    requires t.senderEmail in accounts && t.receiverEmail in accounts
    ensures SeededBalances(Settle(accounts, t.senderEmail, t.receiverEmail, t.amount), ledger + [t])
  {
    var after := Settle(accounts, t.senderEmail, t.receiverEmail, t.amount);
    forall e | e in after
      ensures after[e].balance == InitialBalance + SumAmount(ledger + [t], Receiver, e) - SumAmount(ledger + [t], Sender, e)
    {
      SumAmountAppend(ledger, t, Receiver, e);
      SumAmountAppend(ledger, t, Sender, e);
    }
  }

  /** Registering an account with the seed, under an email no entry names, keeps every balance in line with the ledger. */
  lemma RegisterKeepsSeeded(accounts: map<string, Account>, ledger: seq<Txn>, e: string, name: string)
    requires SeededBalances(accounts, ledger)
    requires e !in accounts
    requires forall i :: 0 <= i < |ledger| ==> !Involves(ledger[i], e)
    ensures SeededBalances(accounts[e := Account(name, InitialBalance)], ledger)
  {
    SumAmountNone(ledger, Receiver, e);
    SumAmountNone(ledger, Sender, e);
  }

  /**
   Under the seeding invariant the stored balance is income minus expense, and
   the reported balance equals that difference exactly when the stored balance
   is not 0 (a zero balance is reported as 1000).
   */
  lemma StatsMatchBalance(accounts: map<string, Account>, ledger: seq<Txn>, e: string)
    requires SeededBalances(accounts, ledger)
    requires e != "" && e in accounts
    ensures var s := DashboardStats(accounts, ledger, Some(e)).body;
      && accounts[e].balance == s.totalIncome - s.totalExpense
      && (s.currentBalance == s.totalIncome - s.totalExpense <==> accounts[e].balance != 0)
  {
  }
}
