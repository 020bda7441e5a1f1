/**
 The tables the library writes: the whitelist of refresh tokens, the single-use tokens,
 the accounts and the e-mail addresses.
 */
module Store {
  import opened Basics

  type UserId = nat
  type Session = nat
  type Jti = nat
  type TokenId = nat
  type Email = nat

  /** One whitelisted refresh token. The unique `jti` column is the key of the table. */
  datatype Row = Row(user: UserId, session: Session, enabled: bool, created: int)

  type Whitelist = map<Jti, Row>

  /** A session that was opened: whose it is, and the last refresh token handed out for it. */
  datatype Line = Line(user: UserId, last: Jti)

  datatype Purpose =
    | PassReset
    | PassSet
    | PassResetAccess
    | PassSetAccess
    | EmailConfirmation
    | Invitation
    | SetupChallenge
    | LoginChallenge
    | SetupSecret
    | LoginAttempt
    | Custom(name: string)

  datatype GenericToken = GenericToken(user: UserId, token: TokenId, purpose: Purpose, created: int)

  /** What was handed out under an id: for whom, for what, and when. */
  datatype Credential = Credential(user: UserId, purpose: Purpose, at: int)

  datatype Address = Address(email: Email, user: UserId, verified: bool, primary: bool)

  datatype Account = Account(
    active: bool,
    staff: bool,
    superuser: bool,
    everLoggedIn: bool,
    usablePassword: bool,
    totp: bool)

  /**
   The database, with the clock the queries read, the history of the credentials handed out
   and an id never drawn before.
   */
  class Database {
    var now: int
    var whitelist: Whitelist
    var tokens: seq<GenericToken>
    var accounts: map<UserId, Account>
    var addresses: seq<Address>
    var issued: map<TokenId, Credential>
    var nextId: TokenId
  }

  /** Whether some address of the account has been confirmed. */
  predicate EmailVerified(addresses: seq<Address>, user: UserId) {
    exists i :: 0 <= i < |addresses| && addresses[i].user == user && addresses[i].verified
  }

  // ------------------------------------------------------------ the whitelist

  /** What a revocation deletes. */
  datatype Scope =
    | OfSession(session: Session)
    | OfTokenOrSession(jti: Jti, session: Session)
    | OfUser(user: UserId)

  predicate InScope(scope: Scope, jti: Jti, row: Row) {
    match scope
    case OfSession(session) => row.session == session
    case OfTokenOrSession(j, session) => jti == j || row.session == session
    case OfUser(user) => row.user == user
  }

  /** The rows a query over the scope selects. */
  function Selected(rows: Whitelist, scope: Scope): (hit: set<Jti>)
    ensures hit <= rows.Keys
  {
    set j | j in rows && InScope(scope, j, rows[j])
  }

  /** The whitelist once the scope has been deleted. */
  function Without(rows: Whitelist, scope: Scope): Whitelist {
    rows - Selected(rows, scope)
  }

  predicate SessionListed(rows: Whitelist, session: Session) {
    exists j :: j in rows && rows[j].session == session
  }

  /** The first row of the user in table order, if there is one. */
  ghost predicate IsFirst(rows: Whitelist, user: UserId, first: Option<Jti>) {
    match first
    case None => forall j :: j in rows ==> rows[j].user != user
    case Some(f) => f in rows && rows[f].user == user && forall j :: j in rows && rows[j].user == user ==> f <= j
  }

  /** The ordinary confirmation of an address enables the first row of its user. */
  function EnableFirst(rows: Whitelist, first: Option<Jti>): Whitelist {
    match first
    case None => rows
    case Some(f) => if f in rows then rows[f := rows[f].(enabled := true)] else rows
  }

  // ------------------------------------------------------------- the rotation

  datatype Reason = Replayed | Disabled | SessionExpired | InactiveUser

  datatype Verdict = Accepted | Refused(reason: Reason)

  /**
   The checks of a rotation, in the order the code makes them. `expired` is the answer of
   the token about its own session; `active` holds the accounts that are enabled.
   */
  function Judge(rows: Whitelist, jti: Jti, expired: bool, active: set<UserId>): Verdict {
    if jti !in rows then Refused(Replayed)
    else if !rows[jti].enabled then Refused(Disabled)
    else if expired then Refused(SessionExpired)
    else if rows[jti].user !in active then Refused(InactiveUser)
    else Accepted
  }

  /** The whitelist once `jti` has been exchanged for `successor`. */
  function Exchange(rows: Whitelist, jti: Jti, successor: Jti, row: Row): Whitelist {
    (rows - {jti})[successor := row]
  }

  /** The revocation a refusal calls for, if any; it runs after the rotation is undone. */
  function Penalty(reason: Reason, session: Session, rowUser: UserId): Option<Scope> {
    match reason
    case Replayed => Some(OfSession(session))
    case Disabled => None
    case SessionExpired => Some(OfSession(session))
    case InactiveUser => Some(OfUser(rowUser))
  }
}
