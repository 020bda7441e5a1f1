/** The refresh endpoint: the rotation transaction, the revocation after it, and the sign-in. */
module Rotation {
  import opened Basics
  import opened Store
  import opened Tokens

  /**
   A refusal leaves the rotation as an exception, with the user of the row when one was read;
   any other exception undoes it too, and is the answer.
   */
  datatype Failure =
    | Rejected(reason: Reason, rowUser: UserId)
    | Unwound(error: Error)

  /** `NotUnique` is the validation error of the new row: its id is taken. */
  datatype Error = InvalidToken | SessionOver | NotVerifiedEmail | NotUnique | ServerError

  datatype Pair = Pair(access: Payload, refresh: Payload)

  function Active(accounts: map<UserId, Account>): set<UserId> {
    set u | u in accounts && accounts[u].active
  }

  /** The verdict on a token presented at `now`; a token without a stamp is never overdue. */
  function VerdictAt(cfg: Settings, rows: Whitelist, active: set<UserId>, token: SessionToken, now: int): Verdict {
    Judge(rows, token.jti, Overdue(cfg, token.sessionIat, now), active)
  }

  /** The whitelist once the revocation a refusal calls for has been applied. */
  function Punished(rows: Whitelist, token: SessionToken, reason: Reason): Whitelist {
    var rowUser := if token.jti in rows then rows[token.jti].user else token.user;
    match Penalty(reason, token.session, rowUser)
    case None => rows
    case Some(scope) => Without(rows, scope)
  }

  /** The checks in their order, each read off the row, the token and the account. */
  lemma VerdictExactly(cfg: Settings, rows: Whitelist, active: set<UserId>, token: SessionToken, now: int)
    ensures var verdict := VerdictAt(cfg, rows, active, token, now);
      var overdue := cfg.sessionLifetime.Some? && token.sessionIat.Some?
        && FromEpoch(token.sessionIat.value) + cfg.sessionLifetime.value <= now;
      && (verdict == Refused(Replayed) <==> token.jti !in rows)
      && (verdict == Refused(Disabled) <==> token.jti in rows && !rows[token.jti].enabled)
      && (verdict == Refused(SessionExpired) <==> token.jti in rows && rows[token.jti].enabled && overdue)
      && (verdict == Refused(InactiveUser) <==>
            token.jti in rows && rows[token.jti].enabled && !overdue && rows[token.jti].user !in active)
  {
  }

  function ErrorOf(reason: Reason, verified: bool): Error {
    match reason
    case Disabled => if verified then InvalidToken else NotVerifiedEmail
    case SessionExpired => SessionOver
    case _ => InvalidToken
  }

  /** Whether the account behind a listed token has a confirmed address. */
  predicate PresentedVerified(rows: Whitelist, addresses: seq<Address>, jti: Jti) {
    jti in rows && EmailVerified(addresses, rows[jti].user)
  }

  predicate OwnersExist(db: Database)
    reads db
  {
    forall j :: j in db.whitelist ==> db.whitelist[j].user in db.accounts
  }

  /** The claims of the successor, the id and the times of the token apart, are read from the account again. */
  ghost predicate ClaimsReread(before: Payload, after: Payload, cfg: Settings, profile: Profile, verified: bool) {
    forall n :: n != JtiClaim && n != Exp && n != Iat && n != SessionIat ==>
      Lookup(after, n) == SyncedAt(before, AttributeMap(cfg.attributes), profile, verified, n)
  }

  /** Reading the account again does not touch what the session protocol reads. */
  lemma SyncKeepsSession(payload: Payload, attributes: map<Name, Path>, profile: Profile, verified: bool)
    requires OfASession(payload) && SessionIat in payload
    ensures var synced := Synced(payload, attributes, profile, verified);
      OfASession(synced) && SessionIat in synced && View(synced) == View(payload)
  {
    var synced := Synced(payload, attributes, profile, verified);
    forall n | n in {JtiClaim, SessionClaim, UserIdClaim, SessionIat, Exp, Iat} && n in payload
      ensures n in synced && synced[n] == payload[n]
    {
      SyncedByName(payload, attributes, profile, verified, n);
    }
  }

  /** The payload of the successor: a new id, and times counted from the parsing of the request. */
  function Renewed(payload: Payload, cfg: Settings, jti: Jti, parsed: int): Payload
    requires OfASession(payload)
  {
    payload[JtiClaim := Num(jti)][Iat := Num(Epoch(parsed))]
           [Exp := Num(Capped(cfg, StampOf(payload), Epoch(parsed + cfg.refreshLifetime)))]
  }

  lemma RenewedView(payload: Payload, cfg: Settings, jti: Jti, parsed: int)
    requires OfASession(payload)
    ensures OfASession(Renewed(payload, cfg, jti, parsed))
    ensures View(Renewed(payload, cfg, jti, parsed)) == View(payload).(
      jti := jti, exp := Capped(cfg, StampOf(payload), Epoch(parsed + cfg.refreshLifetime)))
  {
  }

  /** The same claims are read again whether or not the session had to be stamped first. */
  lemma StampingRereads(before: Payload, stamp: Value, cfg: Settings, profile: Profile, verified: bool, jti: Jti,
          parsed: int)
    requires OfASession(before) && stamp.Num?
    requires OfASession(Synced(before[SessionIat := stamp], AttributeMap(cfg.attributes), profile, verified))
    ensures var synced := Synced(before[SessionIat := stamp], AttributeMap(cfg.attributes), profile, verified);
      ClaimsReread(before, Renewed(synced, cfg, jti, parsed), cfg, profile, verified)
  {
    var stamped := before[SessionIat := stamp];
    var synced := Synced(stamped, AttributeMap(cfg.attributes), profile, verified);
    forall n | n != JtiClaim && n != Exp && n != Iat && n != SessionIat
      ensures Lookup(Renewed(synced, cfg, jti, parsed), n)
        == SyncedAt(before, AttributeMap(cfg.attributes), profile, verified, n)
    {
      SyncedByName(stamped, AttributeMap(cfg.attributes), profile, verified, n);
    }
  }

  /** Reads the account again and derives the access token; fails when the claim map is refused. */
  method Reread(refresh: RefreshToken, cfg: Settings, profile: Profile, verified: bool, accessJti: Jti)
    returns (access: Option<Payload>)
    requires OfASession(refresh.payload) && SessionIat in refresh.payload
    modifies refresh
    ensures access.None? <==> Role in AttributeMap(cfg.attributes)
    ensures access.Some? ==>
      && refresh.payload == Synced(old(refresh.payload), AttributeMap(cfg.attributes), profile, verified)
      && OfASession(refresh.payload) && View(refresh.payload) == View(old(refresh.payload))
      && OfASession(access.value)
      && AccessView(access.value)
           == AccessOf(cfg, View(old(refresh.payload)), StampOf(old(refresh.payload)), refresh.currentTime)
  {
    SyncKeepsSession(refresh.payload, AttributeMap(cfg.attributes), profile, verified);
    var ok := refresh.SyncUserClaims(AttributeMap(cfg.attributes), profile, verified);
    if !ok {
      return None;
    }
    var derived := refresh.AccessToken(cfg, accessJti);
    return Some(derived);
  }

  method Renew(refresh: RefreshToken, cfg: Settings, jti: Jti)
    requires OfASession(refresh.payload)
    modifies refresh
    ensures refresh.payload == Renewed(old(refresh.payload), cfg, jti, refresh.currentTime)
  {
    refresh.SetJti(jti);
    refresh.SetExp(cfg);
    refresh.SetIat();
    refresh.CapExpToSession(cfg);
  }

  /** The successor as the session protocol sees it, and its claims. */
  lemma SuccessorView(before: Payload, cfg: Settings, profile: Profile, verified: bool, jti: Jti, parsed: int)
    requires OfASession(before)
    ensures var stamped := before[SessionIat := Num(Anchor(StampOf(before), parsed).value)];
      var synced := Synced(stamped, AttributeMap(cfg.attributes), profile, verified);
      && OfASession(stamped) && OfASession(synced) && OfASession(Renewed(synced, cfg, jti, parsed))
      && View(stamped) == View(before).(sessionIat := Anchor(StampOf(before), parsed))
      && View(Renewed(synced, cfg, jti, parsed)) == Successor(cfg, View(before), jti, parsed)
      && ClaimsReread(before, Renewed(synced, cfg, jti, parsed), cfg, profile, verified)
  {
    var stamp := Num(Anchor(StampOf(before), parsed).value);
    var stamped := before[SessionIat := stamp];
    SyncKeepsSession(stamped, AttributeMap(cfg.attributes), profile, verified);
    RenewedView(Synced(stamped, AttributeMap(cfg.attributes), profile, verified), cfg, jti, parsed);
    StampingRereads(before, stamp, cfg, profile, verified, jti, parsed);
  }

  /** A rotation rewrites the id, the times and what it reads again, and leaves every other claim alone. */
  lemma RotationKeepsTheRest(before: Payload, after: Payload, cfg: Settings, profile: Profile, verified: bool, n: Name)
    requires OfASession(before) && TokenType in before && ClaimsReread(before, after, cfg, profile, verified)
    requires !ReadAgain(AttributeMap(cfg.attributes), n) && n !in {JtiClaim, Exp, Iat, SessionIat}
    ensures Lookup(after, n) == Lookup(before, n)
  {
  }

  /** Consumes the presented token and hands out its successor; the caller undoes it on failure. */
  method Rotate(db: Database, refresh: RefreshToken, cfg: Settings, profileOf: UserId -> Profile, jti: Jti,
          accessJti: Jti)
    returns (r: Result<Pair, Failure>)
    requires OfASession(refresh.payload) && OwnersExist(db)
    modifies refresh, db`whitelist
    ensures var token := View(old(refresh.payload));
      match VerdictAt(cfg, old(db.whitelist), Active(db.accounts), token, db.now)
      case Refused(reason) =>
        && db.whitelist == old(db.whitelist) && r.Err? && r.error.Rejected? && r.error.reason == reason
        && (token.jti in db.whitelist ==> r.error.rowUser == db.whitelist[token.jti].user)
      case Accepted =>
        var user := old(db.whitelist)[token.jti].user;
        if Role in AttributeMap(cfg.attributes) then r == Err(Unwound(ServerError))
        else if jti in old(db.whitelist) - {token.jti} then r == Err(Unwound(NotUnique))
        else
          && r.Ok? && OfASession(r.value.access) && OfASession(r.value.refresh)
          && db.whitelist == Exchange(old(db.whitelist), token.jti, jti, Row(token.user, token.session, true, db.now))
          && View(r.value.refresh) == Successor(cfg, token, jti, refresh.currentTime)
          && AccessView(r.value.access)
            == AccessOf(cfg, token, Anchor(token.sessionIat, refresh.currentTime), refresh.currentTime)
          && ClaimsReread(old(refresh.payload), r.value.refresh, cfg, profileOf(user),
            EmailVerified(db.addresses, user))
  {
    var presented := View(refresh.payload).jti;
    if presented !in db.whitelist {
      return Err(Rejected(Replayed, 0));
    }
    var row := db.whitelist[presented];
    if !row.enabled {
      return Err(Rejected(Disabled, row.user));
    }
    ghost var before := refresh.payload;
    if SessionIat !in refresh.payload {
      refresh.SetSessionIat(None);
    } else if refresh.SessionExpired(cfg, db.now) {
      return Err(Rejected(SessionExpired, row.user));
    }
    assert refresh.payload == before[SessionIat := Num(Anchor(StampOf(before), refresh.currentTime).value)];
    if !db.accounts[row.user].active {
      return Err(Rejected(InactiveUser, row.user));
    }
    SuccessorView(before, cfg, profileOf(row.user), EmailVerified(db.addresses, row.user), jti, refresh.currentTime);
    var access := Reread(refresh, cfg, profileOf(row.user), EmailVerified(db.addresses, row.user), accessJti);
    if access.None? {
      return Err(Unwound(ServerError));
    }
    db.whitelist := db.whitelist - {presented};
    Renew(refresh, cfg, jti);
    if jti in db.whitelist {
      return Err(Unwound(NotUnique));
    }
    var token := View(refresh.payload);
    db.whitelist := db.whitelist[jti := Row(token.user, token.session, true, db.now)];
    return Ok(Pair(access.value, refresh.payload));
  }

  /** What a refusal leaves: no row of the session, every row, or no row of the user. */
  ghost predicate RefusalLeaves(rows: Whitelist, left: Whitelist, session: Session, rowUser: UserId, reason: Reason) {
    match reason
    case Disabled => left == rows
    case InactiveUser => OthersLeft(rows, left, rowUser)
    case _ => OtherSessionsLeft(rows, left, session)
  }

  ghost predicate OtherSessionsLeft(rows: Whitelist, left: Whitelist, session: Session) {
    && (forall j :: j in left <==> j in rows && rows[j].session != session)
    && (forall j :: j in left ==> left[j] == rows[j])
  }

  /** Applies the revocation a refusal calls for, outside of the transaction that was undone. */
  method Reject(db: Database, payload: Payload, failure: Failure) returns (error: Error)
    requires OfASession(payload) && failure.Rejected?
    requires View(payload).jti in db.whitelist ==> failure.rowUser == db.whitelist[View(payload).jti].user
    requires failure.reason == InactiveUser || failure.reason == Disabled ==> View(payload).jti in db.whitelist
    modifies db`whitelist
    ensures db.whitelist == Punished(old(db.whitelist), View(payload), failure.reason)
    ensures RefusalLeaves(old(db.whitelist), db.whitelist, View(payload).session, failure.rowUser, failure.reason)
    ensures error == ErrorOf(failure.reason, EmailVerified(db.addresses, failure.rowUser))
    ensures error == SessionOver <==> failure.reason == SessionExpired
    ensures error in {InvalidToken, SessionOver, NotVerifiedEmail}
    ensures error == NotVerifiedEmail <==> failure.reason == Disabled && !EmailVerified(db.addresses, failure.rowUser)
  {
    var session := View(payload).session;
    if failure.reason == Replayed {
      db.whitelist := Without(db.whitelist, OfSession(session));
      return InvalidToken;
    }
    if failure.reason == Disabled {
      if !EmailVerified(db.addresses, failure.rowUser) {
        return NotVerifiedEmail;
      }
      return InvalidToken;
    }
    if failure.reason == SessionExpired {
      db.whitelist := Without(db.whitelist, OfSession(session));
      return SessionOver;
    }
    db.whitelist := Without(db.whitelist, OfUser(failure.rowUser));
    return InvalidToken;
  }

  /** One request to the refresh endpoint, for a token whose signature and expiry were checked. */
  method Validate(db: Database, refresh: RefreshToken, cfg: Settings, profileOf: UserId -> Profile, jti: Jti,
          accessJti: Jti)
    returns (r: Result<Pair, Error>)
    requires WellTyped(refresh.payload) && OwnersExist(db)
    requires SessionClaim in refresh.payload ==> OfASession(refresh.payload)
    modifies refresh, db`whitelist
    ensures SessionClaim !in old(refresh.payload) ==> r == Err(InvalidToken) && db.whitelist == old(db.whitelist)
    ensures SessionClaim in old(refresh.payload) ==>
      var token := View(old(refresh.payload));
      match VerdictAt(cfg, old(db.whitelist), Active(db.accounts), token, db.now)
      case Refused(reason) =>
        && r == Err(ErrorOf(reason, PresentedVerified(old(db.whitelist), db.addresses, token.jti)))
        && db.whitelist == Punished(old(db.whitelist), token, reason)
        && RefusalLeaves(old(db.whitelist), db.whitelist, token.session,
                         if token.jti in old(db.whitelist) then old(db.whitelist)[token.jti].user else token.user,
                         reason)
        && (r.error == SessionOver <==> reason == SessionExpired)
        && (r.error == NotVerifiedEmail <==>
              reason == Disabled && !EmailVerified(db.addresses, old(db.whitelist)[token.jti].user))
      case Accepted =>
        if Role in AttributeMap(cfg.attributes) then r == Err(ServerError) && db.whitelist == old(db.whitelist)
        else if jti in old(db.whitelist) - {token.jti} then r == Err(NotUnique) && db.whitelist == old(db.whitelist)
        else
          && r.Ok? && OfASession(r.value.access) && OfASession(r.value.refresh)
          && db.whitelist == Exchange(old(db.whitelist), token.jti, jti, Row(token.user, token.session, true, db.now))
          && View(r.value.refresh) == Successor(cfg, token, jti, refresh.currentTime)
          && AccessView(r.value.access)
            == AccessOf(cfg, token, Anchor(token.sessionIat, refresh.currentTime), refresh.currentTime)
          && ClaimsReread(old(refresh.payload), r.value.refresh, cfg,
                          profileOf(old(db.whitelist)[token.jti].user),
                          EmailVerified(db.addresses, old(db.whitelist)[token.jti].user))
  {
    if SessionClaim !in refresh.payload {
      return Err(InvalidToken);
    }
    var presented := refresh.payload;
    var committed := db.whitelist;
    var turned := Rotate(db, refresh, cfg, profileOf, jti, accessJti);
    match turned
    case Ok(pair) => return Ok(pair);
    case Err(failure) =>
      db.whitelist := committed;
      if failure.Unwound? {
        return Err(failure.error);
      }
      var error := Reject(db, presented, failure);
      return Err(error);
  }

  /** A sign-in: a first token, with the claims of the account, and its row. */
  method ForUser(db: Database, cfg: Settings, user: UserId, profile: Profile, enabled: bool, session: Session, jti: Jti)
    returns (token: RefreshToken, ok: bool)
    modifies db`whitelist
    ensures fresh(token) && token.currentTime == db.now
    ensures ok == (Role !in AttributeMap(cfg.attributes) && jti !in old(db.whitelist))
    ensures !ok ==> db.whitelist == old(db.whitelist)
    ensures ok ==> db.whitelist == old(db.whitelist)[jti := Row(user, session, enabled, db.now)]
    ensures ok ==> OfASession(token.payload) && View(token.payload) == FirstToken(cfg, jti, session, user, db.now)
    ensures ok ==>
      token.payload == SignInPayload(cfg, user, profile, EmailVerified(db.addresses, user), session, jti, db.now)
    ensures ok ==>
      && Lookup(token.payload, Role) == Some(Num(profile.role))
      && Lookup(token.payload, EmailVerifiedClaim) == Some(Flag(EmailVerified(db.addresses, user)))
      && forall n :: n in AttributeMap(cfg.attributes) && !Reserved(n) ==>
           Lookup(token.payload, n) == Written(AttributeMap(cfg.attributes), profile, n)
  {
    var verified := EmailVerified(db.addresses, user);
    token := new RefreshToken.Fresh(cfg, db.now, jti);
    token.payload := token.payload[UserIdClaim := Num(user)];
    token.SetSession(session);
    token.SetSessionIat(None);
    token.CapExpToSession(cfg);
    token.payload := token.payload[Role := Num(profile.role)];
    token.payload := token.payload[EmailVerifiedClaim := Flag(verified)];
    assert token.payload == OpeningPayload(cfg, user, profile, verified, session, jti, db.now);
    OpeningView(cfg, user, profile, verified, session, jti, db.now);
    SignInClaims(cfg, user, profile, verified, session, jti, db.now);
    ok := token.SetUserAttributes(AttributeMap(cfg.attributes), profile);
    if ok {
      if jti in db.whitelist {
        ok := false;
      } else {
        db.whitelist := db.whitelist[jti := Row(user, session, enabled, db.now)];
      }
    }
  }

  // ------------------------------------------------------------------ sign-out

  /** Closes the session of the presented token, for its own user. */
  method Logout(db: Database, payload: Payload, caller: Option<UserId>) returns (r: Result<(), Error>)
    requires SessionClaim in payload ==> OfASession(payload)
    modifies db`whitelist
    ensures r.Ok? <==>
      (&& SessionClaim in payload && caller == Some(View(payload).user)
       && Selected(old(db.whitelist), OfTokenOrSession(View(payload).jti, View(payload).session)) != {})
    ensures r.Err? ==> r.error == InvalidToken && db.whitelist == old(db.whitelist)
    ensures r.Ok?
      ==> db.whitelist == Without(old(db.whitelist), OfTokenOrSession(View(payload).jti, View(payload).session))
    ensures r.Ok? ==> forall j ::
      j in db.whitelist <==> j in old(db.whitelist) && j != View(payload).jti
                             && old(db.whitelist)[j].session != View(payload).session
    ensures forall j :: j in db.whitelist ==> j in old(db.whitelist) && db.whitelist[j] == old(db.whitelist)[j]
  {
    if caller.None? || SessionClaim !in payload {
      return Err(InvalidToken);
    }
    var token := View(payload);
    if caller.value != token.user {
      return Err(InvalidToken);
    }
    var scope := OfTokenOrSession(token.jti, token.session);
    if |Selected(db.whitelist, scope)| == 0 {
      return Err(InvalidToken);
    }
    db.whitelist := Without(db.whitelist, scope);
    return Ok(());
  }

  /** The sessions of everybody else are left, as they were, and nothing more. */
  ghost predicate OthersLeft(rows: Whitelist, left: Whitelist, user: UserId) {
    && (forall j :: j in left <==> j in rows && rows[j].user != user)
    && (forall j :: j in left ==> left[j] == rows[j])
  }

  method LogoutAll(db: Database, user: UserId)
    modifies db`whitelist
    ensures db.whitelist == Without(old(db.whitelist), OfUser(user))
    ensures OthersLeft(old(db.whitelist), db.whitelist, user)
  {
    db.whitelist := Without(db.whitelist, OfUser(user));
  }

  function OutlivesHandover(user: UserId): GenericToken -> bool {
    (t: GenericToken) => t.user != user || t.purpose == LoginAttempt
  }

  /** The rows a change of credentials leaves in the table of single-use tokens. */
  function HandedOver(tokens: seq<GenericToken>, user: UserId): seq<GenericToken> {
    Keep(tokens, OutlivesHandover(user))
  }

  /** The addresses a change of credentials leaves: pending ones go, the primary one stays. */
  function Settled(addresses: seq<Address>, user: UserId): seq<Address> {
    Keep(addresses, (a: Address) => a.user != user || a.verified || a.primary)
  }

  /** Everything outstanding for whoever held the account before goes down together. */
  method RevokeOnCredentialChange(db: Database, cfg: Settings, user: UserId)
    modifies db`whitelist, db`tokens, db`addresses
    ensures !cfg.logoutOnPasswordChange ==>
      db.whitelist == old(db.whitelist) && db.tokens == old(db.tokens) && db.addresses == old(db.addresses)
    ensures cfg.logoutOnPasswordChange ==>
      && db.whitelist == Without(old(db.whitelist), OfUser(user))
      && db.tokens == HandedOver(old(db.tokens), user)
      && db.addresses == Settled(old(db.addresses), user)
    ensures cfg.logoutOnPasswordChange ==>
      && OthersLeft(old(db.whitelist), db.whitelist, user)
      && (forall t :: t in db.tokens <==> t in old(db.tokens) && (t.user == user ==> t.purpose == LoginAttempt))
      && (forall a :: a in db.addresses <==> a in old(db.addresses) && (a.user == user ==> a.verified || a.primary))
  {
    if !cfg.logoutOnPasswordChange {
      return;
    }
    db.whitelist := Without(db.whitelist, OfUser(user));
    db.tokens := HandedOver(db.tokens, user);
    db.addresses := Settled(db.addresses, user);
  }

  // ------------------------------------------------------------- authentication

  /** The answer of the session check to an access token; tokens without a session are let through. */
  predicate SessionValid(cfg: Settings, rows: Whitelist, session: Option<Session>) {
    cfg.sessionCheck && session.Some? ==> SessionListed(rows, session.value)
  }
}
