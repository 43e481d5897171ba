/**
 /api/transactions: the store both routes work on, the POST handler that moves
 money inside one database transaction, and the GET handler that lists the
 caller's entries newest first.
 */
module TransactionsRoute {
  import opened Common
  import opened Balances
  import opened Ledger
  import opened DashboardStatsRoute

  /** The database: the user table keyed by email, the transaction table, and the next id it hands out. */
  class Store {
    var accounts: map<string, Account>
    var ledger: seq<Txn>
    var nextId: nat

    /** Ids are issued in increasing order and never reused; every entry names two existing accounts. */
    ghost predicate Valid()
      reads this
    {
      && (forall i :: 0 <= i < |ledger| ==> ledger[i].id < nextId)
      && (forall i, j :: 0 <= i < j < |ledger| ==> ledger[i].id < ledger[j].id)
      && (forall i :: 0 <= i < |ledger| ==> ledger[i].senderEmail in accounts && ledger[i].receiverEmail in accounts)
    }

    /** Every balance is the seed plus what was received minus what was sent. */
    ghost predicate Seeded()
      reads this
    {
      SeededBalances(accounts, ledger)
    }

    /** A store holding the accounts registration created and no transactions yet. */
    constructor (initial: map<string, Account>)
      ensures Valid()
      ensures accounts == initial && ledger == [] && nextId == 0
      ensures Seeded() <==> forall e :: e in initial ==> initial[e].balance == InitialBalance
    {
      accounts := initial;
      ledger := [];
      nextId := 0;
    }

    /**
     POST /api/transactions. Without a caller: 401 and nothing touched. Otherwise
     the three writes run on a working copy, as inside `prisma.$transaction`:
     create the entry, decrement the sender, increment the receiver. An update
     of a missing account throws, which rolls everything back and answers 500;
     only when all three succeed is the copy committed. The amount is not
     checked against the balance or for sign, and sender may equal receiver.
     */
    method Transfer(session: Option<string>, receiverEmail: string, amount: int, now: int) returns (r: Response<Txn>)
      requires Valid()
      modifies this
      ensures Valid()
      ensures Caller(session).None? ==> r == Error(Unauthorized) && unchanged(this)
      ensures Caller(session).Some? && (session.value !in old(accounts) || receiverEmail !in old(accounts)) ==>
                r == Error(ServerError) && unchanged(this)
      ensures Caller(session).Some? && session.value in old(accounts) && receiverEmail in old(accounts) ==>
                && r == Ok(Txn(old(nextId), session.value, receiverEmail, amount, now))
                && ledger == old(ledger) + [r.body]
                && accounts == Settle(old(accounts), session.value, receiverEmail, amount)
                && nextId == old(nextId) + 1
      ensures Total(accounts) == old(Total(accounts))
      ensures old(Seeded()) ==> Seeded()
    {
      var caller := Caller(session);
      if caller.None? {
        return Error(Unauthorized);
      }
      var sender := caller.value;

      // Write 1: create the ledger entry.
      var entry := Txn(nextId, sender, receiverEmail, amount, now);
      var newLedger := ledger + [entry];
      var newAccounts := accounts;

      // Write 2: decrement the sender's balance.
      if sender !in newAccounts {
        return Error(ServerError);
      }
      newAccounts := Adjust(newAccounts, sender, -amount);

      // Write 3: increment the receiver's balance.
      if receiverEmail !in newAccounts {
        return Error(ServerError);
      }
      newAccounts := Adjust(newAccounts, receiverEmail, amount);

      // Commit.
      if Seeded() {
        TransferKeepsSeeded(accounts, ledger, entry);
      }
      ledger, accounts, nextId := newLedger, newAccounts, nextId + 1;
      r := Ok(entry);
    }
  }

  /**
   GET /api/transactions: 401 without a caller; otherwise every entry in which
   the caller is sender or receiver, newest first. Entries with the same
   `dateTime` come in an order the handler does not fix.
   */
  function ListTransactions(ledger: seq<Txn>, session: Option<string>): (r: Response<seq<Txn>>)
    ensures r.Error? <==> Caller(session).None?
    ensures r.Error? ==> r.status == Unauthorized
    ensures r.Ok? ==> SortedByDateDesc(r.body)
    ensures r.Ok? ==> forall t :: multiset(r.body)[t] == if Involves(t, session.value) then multiset(ledger)[t] else 0
  {
    match Caller(session)
    case None => Error(Unauthorized)
    case Some(e) => Ok(SortByDateDesc(Involving(ledger, e)))
  }

  /** The history the caller sees adds up to the dashboard's totals, on both sides. */
  lemma ListingCarriesTotals(ledger: seq<Txn>, session: Option<string>, side: Side)
    requires Caller(session).Some?
    ensures SumAmount(ListTransactions(ledger, session).body, side, session.value) == SumAmount(ledger, side, session.value)
  {
    var e := session.value;
    SumAmountPermutation(SortByDateDesc(Involving(ledger, e)), Involving(ledger, e), side, e);
    SumAmountInvolving(ledger, side, e);
  }

  /** An entry appended by a transfer is in the next listing of its sender and of its receiver. */
  lemma TransferShowsInListing(ledger: seq<Txn>, t: Txn, e: string)
    requires e != "" && Involves(t, e)
    ensures t in ListTransactions(ledger + [t], Some(e)).body
  {
  }
}
