/**
 The records the three route handlers share: the caller's session, the two
 database tables (accounts keyed by email, and ledger entries) and the shape of
 an HTTP response.
 */
module Common {

  datatype Option<T> = None | Some(value: T)

  /** A route's reply: a JSON body, or an error status with no body of interest. */
  datatype Response<T> = Ok(body: T) | Error(status: int)

  const Unauthorized := 401
  const NotFound := 404
  const ServerError := 500

  /** The balance every account is registered with, and the seed the dashboard adds to income. */
  const InitialBalance := 1000

  /** A row of the user table, keyed by email in the store. */
  datatype Account = Account(name: string, balance: int)

  /** A row of the transaction table. Amounts are whole minor currency units. */
  datatype Txn = Txn(id: nat, senderEmail: string, receiverEmail: string, amount: int, dateTime: int)

  /**
   The identity a handler acts for. The session is the email next-auth resolved,
   or None when there is no session or it carries no email; an empty email is
   falsy in the handlers' `!session.user?.email` test and is refused as well.
   */
  function Caller(session: Option<string>): (r: Option<string>)
    ensures r.Some? <==> session.Some? && session.value != ""
    ensures r.Some? ==> r.value == session.value
  {
    if session.Some? && session.value != "" then session else None
  }
}
