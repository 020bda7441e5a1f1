/** The endpoints of the capability flows, statement by statement, on the database. */
module Views {
  import opened Basics
  import opened Store
  import opened Tokens
  import opened MfaStorage
  import opened Purge
  import opened Capabilities
  import Rotation

  /** A fresh id, noted as handed out. */
  method Draw(db: Database, user: UserId, purpose: Purpose) returns (id: TokenId)
    modifies db`issued, db`nextId
    ensures id == old(db.nextId) && db.nextId == id + 1
    ensures db.issued == old(db.issued)[id := Credential(user, purpose, db.now)]
  {
    id := db.nextId;
    db.nextId := id + 1;
    db.issued := db.issued[id := Credential(user, purpose, db.now)];
  }

  /** A row for a fresh id. */
  method Create(db: Database, user: UserId, purpose: Purpose) returns (id: TokenId)
    modifies db`tokens, db`issued, db`nextId
    ensures (Snapshot(db), Handed(id, Credential(user, purpose, db.now))) == Hand(old(Snapshot(db)), user, purpose)
  {
    id := Draw(db, user, purpose);
    db.tokens := db.tokens + [GenericToken(user, id, purpose, db.now)];
  }

  /** Deleting the row is the claim; the number of rows deleted decides who made it. */
  method Consume(db: Database, id: TokenId, purpose: Purpose) returns (claimed: bool)
    modifies db`tokens
    ensures claimed == Present(old(db.tokens), id, purpose)
    ensures db.tokens == TokenDropped(old(db.tokens), id, purpose)
    ensures !claimed ==> db.tokens == old(db.tokens)
  {
    var deleted := |Keep(db.tokens, TokensOf(id, purpose))|;
    db.tokens := TokenDropped(db.tokens, id, purpose);
    claimed := deleted > 0;
    if !claimed {
      NothingDropped(old(db.tokens), id, purpose);
    }
  }

  lemma {:induction false} NothingDropped(tokens: seq<GenericToken>, id: TokenId, purpose: Purpose)
    requires !Present(tokens, id, purpose)
    ensures TokenDropped(tokens, id, purpose) == tokens
  {
    if tokens != [] {
      NothingDropped(tokens[1..], id, purpose);
    }
  }

  // ------------------------------------------------------------- password reset

  /** A reset link; the rows of earlier ones go. */
  method MakeToken(db: Database, user: UserId, purpose: Purpose) returns (id: TokenId)
    modifies db`tokens, db`issued, db`nextId
    ensures var (made, answer) := Hand(old(Snapshot(db)), user, purpose);
      && answer == Handed(id, Credential(user, purpose, db.now))
      && Snapshot(db) == made.(tokens := Keep(made.tokens, NotSuperseded(user, purpose, id)))
    ensures Present(db.tokens, id, purpose) && forall t :: t in db.tokens && IsRow(t, user, purpose) ==> t.token == id
    ensures forall t :: !IsRow(t, user, purpose) ==> (t in db.tokens <==> t in old(db.tokens))
  {
    id := Create(db, user, purpose);
    ghost var row := GenericToken(user, id, purpose, db.now);
    ghost var made := db.tokens;
    assert made == old(db.tokens) + [row] && row in made && NotSuperseded(user, purpose, id)(row);
    db.tokens := Keep(db.tokens, NotSuperseded(user, purpose, id));
    assert row in Keep(db.tokens, TokensOf(id, purpose));
    forall t | !IsRow(t, user, purpose) ensures t in db.tokens <==> t in old(db.tokens) {
      assert NotSuperseded(user, purpose, id)(t) && (t in made <==> t in old(db.tokens));
    }
  }

  /** Django's own verdict first, then the claim of the row. */
  method CheckToken(db: Database, policy: Policy, link: TokenId, signed: bool) returns (honoured: bool)
    modifies db`tokens
    ensures honoured == (link in db.issued && signed && LinkTimely(policy, db.issued[link].at, db.now)
                         && Present(old(db.tokens), link, PassReset))
    ensures db.tokens == if honoured then TokenDropped(old(db.tokens), link, PassReset) else old(db.tokens)
  {
    if link !in db.issued || !signed || Epoch(db.now) - Epoch(db.issued[link].at) > policy.resetTimeout {
      return false;
    }
    honoured := Consume(db, link, PassReset);
  }

  predicate SomebodyConfirmed(addresses: seq<Address>, email: Email) {
    exists i :: 0 <= i < |addresses| && addresses[i].email == email && addresses[i].verified
  }

  /** One account of those the form found. */
  method MailAccount(db: Database, user: UserId, email: Email) returns (answer: Answer)
    requires SomebodyConfirmed(db.addresses, email)
    modifies db`tokens, db`issued, db`nextId
    ensures (Snapshot(db), answer) == RequestResetLink(old(Snapshot(db)), user, email)
  {
    if IsActive(db.accounts, user) && HasPassword(db.accounts, user) {
      var id := MakeToken(db, user, PassReset);
      return Handed(id, Credential(user, PassReset, db.now));
    }
    return Nothing;
  }

  /** The accounts of a form, mailed one after the other. */
  function Mailed(s: State, users: seq<UserId>, email: Email): (State, seq<Answer>) {
    if users == [] then (s, [])
    else
      var (before, answers) := Mailed(s, users[..|users| - 1], email);
      var (mailed, answer) := RequestResetLink(before, users[|users| - 1], email);
      (mailed, answers + [answer])
  }

  function Silence(n: nat): seq<Answer> {
    seq(n, i => Nothing)
  }

  lemma {:induction false} NobodyMailed(s: State, users: seq<UserId>, email: Email)
    requires !SomebodyConfirmed(s.addresses, email)
    ensures Mailed(s, users, email) == (s, Silence(|users|))
  {
    if users == [] {
      assert Silence(|users|) == [];
    } else {
      var n := |users| - 1;
      NobodyMailed(s, users[..n], email);
      assert RequestResetLink(s, users[n], email) == (s, Nothing);
      assert Silence(n) + [Nothing] == Silence(|users|);
    }
  }

  /** `users` are the accounts whose own e-mail field matches; the address may be confirmed by another. */
  method RequestPasswordReset(db: Database, users: seq<UserId>, email: Email) returns (answers: seq<Answer>)
    modifies db`tokens, db`issued, db`nextId
    ensures (Snapshot(db), answers) == Mailed(old(Snapshot(db)), users, email)
  {
    if !SomebodyConfirmed(db.addresses, email) {
      NobodyMailed(Snapshot(db), users, email);
      return Silence(|users|);
    }
    answers := [];
    for i := 0 to |users|
      invariant (Snapshot(db), answers) == Mailed(old(Snapshot(db)), users[..i], email)
    {
      var answer := MailAccount(db, users[i], email);
      assert users[..i + 1][..i] == users[..i];
      answers := answers + [answer];
    }
    assert users[..|users|] == users;
  }

  /** One request for each account of the form. */
  function FormRequests(users: seq<UserId>, email: Email): seq<Request> {
    seq(|users|, i requires 0 <= i < |users| => RequestReset(users[i], email))
  }

  lemma {:induction false} FormState(policy: Policy, s: State, users: seq<UserId>, email: Email)
    ensures Mailed(s, users, email).0 == After(policy, s, FormRequests(users, email))
    decreases |users|
  {
    if users != [] {
      var n := |users| - 1;
      FormState(policy, s, users[..n], email);
      assert FormRequests(users, email)[..n] == FormRequests(users[..n], email);
      AfterLast(policy, s, FormRequests(users, email));
    }
  }

  lemma {:induction false} FormAnswer(policy: Policy, s: State, users: seq<UserId>, email: Email, k: nat)
    requires k < |users|
    ensures |Mailed(s, users, email).1| == |users|
    ensures Mailed(s, users, email).1[k]
      == RequestResetLink(After(policy, s, FormRequests(users, email)[..k]), users[k], email).1
    decreases |users|
  {
    var n := |users| - 1;
    assert FormRequests(users, email)[..n] == FormRequests(users[..n], email);
    if n != 0 {
      FormAnswer(policy, s, users[..n], email, if k < n then k else 0);
    }
    if k < n {
      assert FormRequests(users[..n], email)[..k] == FormRequests(users, email)[..k];
    } else {
      FormState(policy, s, users[..n], email);
    }
  }

  /** A form is a run of requests, one for each account, and each is answered as it is in that run. */
  lemma FormIsARun(policy: Policy, s: State, users: seq<UserId>, email: Email)
    ensures var (mailed, answers) := Mailed(s, users, email);
      var run := FormRequests(users, email);
      && mailed == After(policy, s, run) && |answers| == |run|
      && (forall k :: 0 <= k < |run| ==> answers[k] == Serve(policy, After(policy, s, run[..k]), run[k]).1)
  {
    var run := FormRequests(users, email);
    FormState(policy, s, users, email);
    if users != [] {
      FormAnswer(policy, s, users, email, 0);
    }
    forall k | 0 <= k < |run|
      ensures Mailed(s, users, email).1[k] == Serve(policy, After(policy, s, run[..k]), run[k]).1
    {
      FormAnswer(policy, s, users, email, k);
    }
  }

  lemma {:induction false} AfterLast(policy: Policy, s: State, run: seq<Request>)
    requires run != []
    ensures After(policy, s, run) == Serve(policy, After(policy, s, run[..|run| - 1]), run[|run| - 1]).0
    decreases |run|
  {
    if |run| > 1 {
      AfterLast(policy, Serve(policy, s, run[0]).0, run[1..]);
      assert run[1..][..|run| - 2] == run[..|run| - 1][1..];
    }
  }

  method ConfirmPasswordReset(db: Database, policy: Policy, link: TokenId, signed: bool) returns (answer: Answer)
    modifies db`tokens, db`issued, db`nextId
    ensures (Snapshot(db), answer) == OpenResetLink(policy, old(Snapshot(db)), link, signed)
  {
    if link !in db.issued || db.issued[link].purpose != PassReset {
      return BadLink;
    }
    var user := db.issued[link].user;
    if IsActive(db.accounts, user) {
      var honoured := CheckToken(db, policy, link, signed);
      if honoured {
        db.tokens := RowsDropped(db.tokens, user, PassResetAccess);
        var id := Create(db, user, PassResetAccess);
        return Handed(id, Credential(user, PassResetAccess, db.now));
      }
    }
    return BadLink;
  }

  /** The password is stored, and everything outstanding goes down. */
  method SavePassword(db: Database, policy: Policy, user: UserId)
    requires user in db.accounts
    modifies db`whitelist, db`tokens, db`accounts, db`addresses
    ensures Snapshot(db) == CredentialsChanged(policy, old(Snapshot(db)), user)
    ensures db.whitelist == Revoked(policy, old(db.whitelist), user)
  {
    db.accounts := db.accounts[user := db.accounts[user].(usablePassword := true)];
    Rotation.RevokeOnCredentialChange(db, policy.jwt, user);
  }

  /** The whitelist a change of credentials leaves. */
  function Revoked(policy: Policy, rows: Whitelist, user: UserId): Whitelist {
    if policy.jwt.logoutOnPasswordChange then Store.Without(rows, OfUser(user)) else rows
  }

  /** The sessions left once credentials changed: those of others, or all where the installation opted out. */
  ghost predicate ChangeLeaves(policy: Policy, rows: Whitelist, left: Whitelist, user: UserId) {
    if policy.jwt.logoutOnPasswordChange then Rotation.OthersLeft(rows, left, user) else left == rows
  }

  /** One session is new, under an id nobody had, enabled or not; it is refused only where no claims can be written. */
  ghost predicate Opens(policy: Policy, rows: Whitelist, rows': Whitelist, user: UserId, enabled: bool,
          session: Session, jti: Jti) {
    if Role in AttributeMap(policy.jwt.attributes) || jti in rows then rows' == rows
    else
      && jti in rows' && rows'[jti].user == user && rows'[jti].session == session && rows'[jti].enabled == enabled
      && rows' - {jti} == rows
  }

  /** The whitelist once the session of `user` is opened, if the claims of the account can be written. */
  function Opened(policy: Policy, rows: Whitelist, user: UserId, enabled: bool, session: Session, jti: Jti,
          now: int): Whitelist {
    if Role in AttributeMap(policy.jwt.attributes) || jti in rows then rows
    else rows[jti := Row(user, session, enabled, now)]
  }

  method OpenSession(db: Database, policy: Policy, user: UserId, profile: Profile, enabled: bool, session: Session,
          jti: Jti)
    modifies db`whitelist
    ensures db.whitelist == Opened(policy, old(db.whitelist), user, enabled, session, jti, db.now)
    ensures Opens(policy, old(db.whitelist), db.whitelist, user, enabled, session, jti)
  {
    var token, ok := Rotation.ForUser(db, policy.jwt, user, profile, enabled, session, jti);
  }

  /**
   The capability is claimed before the account or the password is looked at; the session
   handed out at the end is opened after the revocation.
   */
  method ResetPassword(db: Database, policy: Policy, capability: TokenId, acceptable: bool, profile: Profile,
          session: Session, jti: Jti)
    returns (answer: Answer)
    modifies db`whitelist, db`tokens, db`accounts, db`addresses
    ensures (Snapshot(db), answer) == RedeemReset(policy, old(Snapshot(db)), capability, acceptable)
    ensures db.whitelist == if answer.PasswordSaved?
      then Opened(policy, Revoked(policy, old(db.whitelist), answer.user), answer.user, true, session, jti, db.now)
      else old(db.whitelist)
    ensures answer.PasswordSaved? ==>
      exists left :: ChangeLeaves(policy, old(db.whitelist), left, answer.user)
        && Opens(policy, left, db.whitelist, answer.user, true, session, jti)
  {
    if !IsCapability(policy, Snapshot(db), capability, PassResetAccess) {
      return Denied;
    }
    var claimed := Consume(db, capability, PassResetAccess);
    if !claimed {
      return Denied;
    }
    var user := db.issued[capability].user;
    if !IsActive(db.accounts, user) {
      return Denied;
    }
    if !acceptable {
      return Unacceptable;
    }
    SavePassword(db, policy, user);
    assert ChangeLeaves(policy, old(db.whitelist), db.whitelist, user);
    OpenSession(db, policy, user, profile, true, session, jti);
    return PasswordSaved(user, None);
  }

  // --------------------------------------------- confirmations and invitations

  method ConfirmAddress(db: Database, user: UserId, names: Option<Address>) returns (ok: bool)
    modifies db`addresses
    ensures (Snapshot(db), ok) == ConfirmKey(old(Snapshot(db)), user, names)
  {
    if names.Some? {
      db.addresses := Confirmed(db.addresses, names.value);
      return true;
    }
    return EmailVerified(db.addresses, user);
  }

  /** Exchanges the key of an invitation for the capability; `None` hands an ordinary key back. */
  method ClaimInvitation(db: Database, policy: Policy, key: TokenId, names: Option<Address>)
          returns (answer: Option<Answer>)
    requires policy.invitations
    modifies db`tokens, db`issued, db`nextId, db`addresses
    ensures answer.None? ==> Snapshot(db) == old(Snapshot(db))
    ensures answer.None? <==> Ordinary(policy, old(Snapshot(db)), key)
    ensures answer.None? ==>
      FollowConfirmationKey(policy, old(Snapshot(db)), key, names) == OrdinaryConfirmation(old(Snapshot(db)), names)
    ensures answer.Some?
      ==> (Snapshot(db), answer.value) == FollowConfirmationKey(policy, old(Snapshot(db)), key, names)
  {
    var entries := Keep(db.tokens, EntriesOf(key, db.now - policy.confirmationWindow));
    if entries == [] {
      return if policy.selfRegistration then None else Some(BadLink);
    }
    var entry := entries[0];
    var user := entry.user;
    if !ServesInvitation(policy, Snapshot(db), entry) {
      if policy.selfRegistration {
        return None;
      }
      if !IsActive(db.accounts, user) {
        return Some(BadLink);
      }
      var passed := ConfirmAddress(db, user, names);
      return Some(if passed then AddressVerified else BadLink);
    }
    if !IsActive(db.accounts, user) {
      return Some(BadLink);
    }
    var ok := ConfirmAddress(db, user, names);
    if !ok {
      return Some(BadLink);
    }
    if HasPassword(db.accounts, user) {
      return Some(AddressVerified);
    }
    db.tokens := RowsDropped(db.tokens, user, PassSetAccess);
    var id := Create(db, user, PassSetAccess);
    return Some(Handed(id, Credential(user, PassSetAccess, db.now)));
  }

  /** The key is left to the ordinary confirmation. */
  predicate Ordinary(policy: Policy, s: State, key: TokenId) {
    || !policy.invitations
    || (policy.selfRegistration
        && var entry := EntryOf(policy, s, key); entry.None? || !ServesInvitation(policy, s, entry.value))
  }

  /**
   The whitelist after an ordinary confirmation: the first row of the account is enabled, and a
   confirmation that completes the sign-up opens a session where the installation says so.
   */
  function Enabled(policy: Policy, s: State, rows: Whitelist, first: Option<Jti>, opens: bool, user: UserId,
          session: Session, jti: Jti): Whitelist {
    var enabled := EnableFirst(rows, first);
    if opens && !EmailVerified(s.addresses, user)
      then Opened(policy, enabled, user, true, session, jti, s.now) else enabled
  }

  /** The first row of the account is enabled, if it has one, and nothing else changes. */
  ghost predicate Enables(rows: Whitelist, rows': Whitelist, user: UserId, first: Option<Jti>) {
    && IsFirst(rows, user, first) && rows'.Keys == rows.Keys
    && forall j :: j in rows ==> rows'[j] == if first == Some(j) then rows[j].(enabled := true) else rows[j]
  }

  /** The query for the first row of the account. */
  method FirstRow(rows: Whitelist, user: UserId) returns (first: Option<Jti>)
    ensures IsFirst(rows, user, first)
  {
    if exists j :: j in rows && rows[j].user == user {
      var mine := Selected(rows, OfUser(user));
      assert forall j :: j in mine <==> j in rows && rows[j].user == user;
      ghost var least := Least(mine);
      var j :| j in mine && forall k :: k in mine ==> j <= k;
      return Some(j);
    }
    return None;
  }

  lemma {:induction false} Least(ids: set<Jti>) returns (least: Jti)
    requires ids != {}
    ensures least in ids && forall i :: i in ids ==> least <= i
    decreases |ids|
  {
    least :| least in ids;
    if ids != {least} {
      var other := Least(ids - {least});
      forall i | i in ids ensures (if least <= other then least else other) <= i {
        assert i == least || i in ids - {least};
      }
      least := if least <= other then least else other;
    }
  }

  /** Both settings the session of a confirmation depends on make up `opens`. */
  method VerifyEmail(db: Database, policy: Policy, key: TokenId, names: Option<Address>, opens: bool, profile: Profile,
          session: Session, jti: Jti)
    returns (answer: Answer)
    modifies db`whitelist, db`tokens, db`issued, db`nextId, db`addresses
    ensures (Snapshot(db), answer) == FollowConfirmationKey(policy, old(Snapshot(db)), key, names)
    ensures !Ordinary(policy, old(Snapshot(db)), key) || names.None? ==> db.whitelist == old(db.whitelist)
    ensures Ordinary(policy, old(Snapshot(db)), key) && names.Some? ==>
      exists first :: IsFirst(old(db.whitelist), names.value.user, first)
        && db.whitelist
          == Enabled(policy, old(Snapshot(db)), old(db.whitelist), first, opens, names.value.user, session, jti)
    ensures Ordinary(policy, old(Snapshot(db)), key) && names.Some? ==>
      exists first, enabled :: Enables(old(db.whitelist), enabled, names.value.user, first)
        && if opens && !EmailVerified(old(db.addresses), names.value.user)
           then Opens(policy, enabled, db.whitelist, names.value.user, true, session, jti) else db.whitelist == enabled
  {
    if policy.invitations {
      var claimed := ClaimInvitation(db, policy, key, names);
      if claimed.Some? {
        return claimed.value;
      }
    }
    if names.None? {
      return NotFound;
    }
    var user := names.value.user;
    var first := FirstRow(db.whitelist, user);
    db.whitelist := EnableFirst(db.whitelist, first);
    assert Enables(old(db.whitelist), db.whitelist, user, first);
    var completes := !EmailVerified(db.addresses, user);
    db.addresses := Confirmed(db.addresses, names.value);
    if completes && opens {
      OpenSession(db, policy, user, profile, true, session, jti);
    }
    return AddressVerified;
  }

  /** Only one confirmation of an account can open a session: the next finds an address confirmed. */
  lemma OneSignUpSession(s: State, names: Address)
    requires names in s.addresses
    ensures EmailVerified(OrdinaryConfirmation(s, Some(names)).0.addresses, names.user)
    ensures forall user :: user != names.user ==>
      (EmailVerified(OrdinaryConfirmation(s, Some(names)).0.addresses, user) <==> EmailVerified(s.addresses, user))
  {
    var confirmed := OrdinaryConfirmation(s, Some(names)).0.addresses;
    var i :| 0 <= i < |s.addresses| && s.addresses[i] == names;
    assert confirmed[i].verified;
    forall user | user != names.user ensures EmailVerified(confirmed, user) <==> EmailVerified(s.addresses, user) {
      assert forall k :: 0 <= k < |confirmed| && confirmed[k].user == user ==> confirmed[k] == s.addresses[k];
    }
  }

  /** The whitelist after an invitation is completed: no session yet where enrolment comes first. */
  function Completed(policy: Policy, rows: Whitelist, user: UserId, setup: Option<TokenId>, session: Session,
          jti: Jti, now: int): Whitelist {
    var revoked := Revoked(policy, rows, user);
    if setup.Some? then revoked else Opened(policy, revoked, user, true, session, jti, now)
  }

  method FinishInvitation(db: Database, policy: Policy, user: UserId, profile: Profile, session: Session, jti: Jti)
    returns (answer: Answer)
    requires user in db.accounts
    modifies db`whitelist, db`tokens, db`issued, db`nextId, db`accounts, db`addresses
    ensures (Snapshot(db), answer) == CompleteInvitation(policy, old(Snapshot(db)), user)
    ensures db.whitelist == Completed(policy, old(db.whitelist), user, answer.setup, session, jti, db.now)
    ensures answer.PasswordSaved? && answer.user == user && (answer.setup.Some? <==> policy.totpMode == Required)
    ensures answer.setup.Some? ==> ChangeLeaves(policy, old(db.whitelist), db.whitelist, user)
    ensures answer.setup.None? ==>
      exists left :: ChangeLeaves(policy, old(db.whitelist), left, user)
        && Opens(policy, left, db.whitelist, user, true, session, jti)
  {
    SavePassword(db, policy, user);
    assert ChangeLeaves(policy, old(db.whitelist), db.whitelist, user);
    db.tokens := RowsDropped(RowsDropped(db.tokens, user, Invitation), user, EmailConfirmation);
    if policy.totpMode == Required {
      var id := IssueSetupChallenge(db, user);
      return PasswordSaved(user, Some(id));
    }
    OpenSession(db, policy, user, profile, true, session, jti);
    return PasswordSaved(user, None);
  }

  method SetPassword(db: Database, policy: Policy, capability: TokenId, acceptable: bool, profile: Profile,
          session: Session, jti: Jti)
    returns (answer: Answer)
    modifies db`whitelist, db`tokens, db`issued, db`nextId, db`accounts, db`addresses
    ensures (Snapshot(db), answer) == RedeemInvitation(policy, old(Snapshot(db)), capability, acceptable)
    ensures db.whitelist == if answer.PasswordSaved?
      then Completed(policy, old(db.whitelist), answer.user, answer.setup, session, jti, db.now) else old(db.whitelist)
    ensures answer.PasswordSaved? && answer.setup.Some? ==>
      && policy.totpMode == Required && ChangeLeaves(policy, old(db.whitelist), db.whitelist, answer.user)
    ensures answer.PasswordSaved? && answer.setup.None? ==>
      && policy.totpMode != Required
      && exists left :: ChangeLeaves(policy, old(db.whitelist), left, answer.user)
           && Opens(policy, left, db.whitelist, answer.user, true, session, jti)
  {
    if !policy.invitations {
      return NotFound;
    }
    if !IsCapability(policy, Snapshot(db), capability, PassSetAccess) {
      return Denied;
    }
    var claimed := Consume(db, capability, PassSetAccess);
    if !claimed {
      return Denied;
    }
    var user := db.issued[capability].user;
    if !IsActive(db.accounts, user) {
      return Denied;
    }
    if !acceptable {
      return Unacceptable;
    }
    answer := FinishInvitation(db, policy, user, profile, session, jti);
  }

  // -------------------------------------------------------------- second factor

  method IssueSetupChallenge(db: Database, user: UserId) returns (id: TokenId)
    modifies db`tokens, db`issued, db`nextId
    ensures (Snapshot(db), Handed(id, Credential(user, SetupChallenge, db.now)))
      == HandSetupChallenge(old(Snapshot(db)), user)
  {
    id := Draw(db, user, SetupChallenge);
    CreateSetupChallenge(db, user, id);
  }

  method IssueLoginChallenge(db: Database, policy: Policy, user: UserId) returns (id: TokenId)
    modifies db`tokens, db`issued, db`nextId
    ensures (Snapshot(db), Handed(id, Credential(user, LoginChallenge, db.now)))
      == HandLoginChallenge(policy, old(Snapshot(db)), user)
  {
    id := Draw(db, user, LoginChallenge);
    CreateLoginChallenge(db, policy.limits, user, id);
  }

  /** The step between a proved first factor and a session. */
  method MfaChallenge(db: Database, policy: Policy, user: UserId) returns (answer: Answer)
    modifies db`tokens, db`issued, db`nextId
    ensures (Snapshot(db), answer) == GateSession(policy, old(Snapshot(db)), user)
  {
    if policy.totpMode == Off {
      return SignedIn(user);
    }
    if !HasTotp(db.accounts, user) {
      if policy.totpMode == Required {
        var setup := IssueSetupChallenge(db, user);
        return Handed(setup, Credential(user, SetupChallenge, db.now));
      }
      return SignedIn(user);
    }
    var retryAfter := LockoutRemaining(policy.limits, db.tokens, user, db.now);
    if retryAfter != 0 {
      return TooMany(retryAfter);
    }
    var id := IssueLoginChallenge(db, policy, user);
    return Handed(id, Credential(user, LoginChallenge, db.now));
  }

  /** Both verification endpoints: challenge, lockout, authenticator, code, and only then the counters. */
  method VerifyMfa(db: Database, policy: Policy, challenge: TokenId, enrolled: bool, right: bool, profile: Profile,
          session: Session, jti: Jti)
    returns (answer: Answer)
    modifies db`tokens, db`whitelist
    ensures (Snapshot(db), answer) == VerifyCode(policy, old(Snapshot(db)), challenge, enrolled, right)
    ensures db.whitelist == if answer.SignedIn?
      then Opened(policy, old(db.whitelist), answer.user, true, session, jti, db.now) else old(db.whitelist)
    ensures answer.SignedIn? ==> Opens(policy, old(db.whitelist), db.whitelist, answer.user, true, session, jti)
  {
    if policy.totpMode == Off {
      return Denied;
    }
    var user := GetLoginChallengeUser(db, challenge);
    if user.None? {
      return Denied;
    }
    var retryAfter := LockoutRemaining(policy.limits, db.tokens, user.value, db.now);
    if retryAfter != 0 {
      return TooMany(retryAfter);
    }
    if !enrolled {
      return NotEnrolled;
    }
    if !right {
      var outcome := RecordFailedLoginAttempt(db, policy.limits, challenge, user.value);
      return WrongCode(outcome);
    }
    DeleteLoginChallenge(db, challenge);
    ClearFailedLoginAttempts(db, user.value);
    OpenSession(db, policy, user.value, profile, true, session, jti);
    return SignedIn(user.value);
  }

  /** The caller of a setup request: its own session, or the account behind the setup challenge. */
  method SetupCaller(db: Database, caller: Option<UserId>, bootstrap: Option<TokenId>) returns (user: Option<UserId>)
    modifies db`tokens
    ensures (Snapshot(db), user) == SetupUser(old(Snapshot(db)), caller, bootstrap)
  {
    if caller.Some? || bootstrap.None? {
      return caller;
    }
    user := GetSetupChallengeUser(db, bootstrap.value);
  }

  method StartTotpSetup(db: Database, policy: Policy, caller: Option<UserId>, bootstrap: Option<TokenId>)
          returns (answer: Answer)
    modifies db`tokens, db`issued, db`nextId
    ensures (Snapshot(db), answer) == BeginTotpSetup(policy, old(Snapshot(db)), caller, bootstrap)
  {
    var user := SetupCaller(db, caller, bootstrap);
    if user.None? || policy.totpMode == Off || user.value !in db.accounts {
      return Denied;
    }
    if HasTotp(db.accounts, user.value) {
      return Denied;
    }
    var id := Draw(db, user.value, SetupSecret);
    StoreSetupSecret(db, user.value, id);
    return Handed(id, Credential(user.value, SetupSecret, db.now));
  }

  /** The whitelist after an enrolment: one that comes before the first session opens it. */
  function Bootstrapped(policy: Policy, s: State, rows: Whitelist, user: UserId, bootstrap: bool, mandatory: bool,
          session: Session, jti: Jti): Whitelist {
    if bootstrap && policy.totpMode == Required
    then Opened(policy, rows, user, !mandatory || EmailVerified(s.addresses, user), session, jti, s.now)
    else rows
  }

  /** The code is right: the secret goes, the authenticator stays, and the setup challenge is spent. */
  method Enrol(db: Database, policy: Policy, user: UserId, bootstrap: Option<TokenId>, mandatory: bool,
          profile: Profile,
          session: Session, jti: Jti)
    requires user in db.accounts
    modifies db`tokens, db`accounts, db`whitelist
    ensures Snapshot(db) == old(Snapshot(db)).(
      tokens := Enrolled(old(db.tokens), user, bootstrap),
      accounts := old(db.accounts)[user := old(db.accounts)[user].(totp := true)])
    ensures db.whitelist
      == Bootstrapped(policy, old(Snapshot(db)), old(db.whitelist), user, bootstrap.Some?, mandatory, session, jti)
  {
    DeleteSetupSecret(db, user);
    db.accounts := db.accounts[user := db.accounts[user].(totp := true)];
    if bootstrap.Some? {
      DeleteSetupChallenge(db, bootstrap.value);
      if policy.totpMode == Required {
        var pending := mandatory && !EmailVerified(db.addresses, user);
        OpenSession(db, policy, user, profile, !pending, session, jti);
      }
    }
  }

  /**
   Enrolment; the secret goes only once a code from it is right. Where enrolment comes before
   the first session, it opens that session, disabled while a mandatory confirmation is pending.
   */
  method ConfirmTotp(db: Database, policy: Policy, caller: Option<UserId>, bootstrap: Option<TokenId>, right: bool,
          mandatory: bool, profile: Profile, session: Session, jti: Jti)
    returns (answer: Answer)
    modifies db`tokens, db`accounts, db`whitelist
    ensures (Snapshot(db), answer) == ActivateTotp(policy, old(Snapshot(db)), caller, bootstrap, right)
    ensures db.whitelist == if answer.Activated?
      then Bootstrapped(policy, old(Snapshot(db)), old(db.whitelist), answer.user, bootstrap.Some?, mandatory,
                        session, jti)
      else old(db.whitelist)
    ensures if answer.Activated? && bootstrap.Some? && policy.totpMode == Required
      then Opens(policy, old(db.whitelist), db.whitelist, answer.user,
                 !mandatory || EmailVerified(old(db.addresses), answer.user), session, jti)
      else db.whitelist == old(db.whitelist)
  {
    var user := SetupCaller(db, caller, bootstrap);
    if user.None? || policy.totpMode == Off || user.value !in db.accounts {
      return Denied;
    }
    var secret := LoadSetupSecret(db, user.value);
    if secret.None? {
      return NotFound;
    }
    if !right {
      return Unacceptable;
    }
    Enrol(db, policy, user.value, bootstrap, mandatory, profile, session, jti);
    return Activated(user.value, secret.value);
  }

  /** A session that is opened is the user's, enabled as asked, and the only change. */
  lemma OpenedExactly(policy: Policy, rows: Whitelist, user: UserId, enabled: bool, session: Session, jti: Jti,
          now: int)
    ensures Opens(policy, rows, Opened(policy, rows, user, enabled, session, jti, now), user, enabled, session, jti)
    ensures ChangeLeaves(policy, rows, Revoked(policy, rows, user), user)
  {
  }

  /** As long as enrolment is owed a completed invitation opens nothing; otherwise one session, after the revocation. */
  lemma CompletedExactly(policy: Policy, rows: Whitelist, user: UserId, setup: Option<TokenId>, session: Session,
          jti: Jti, now: int)
    ensures var left := Completed(policy, rows, user, setup, session, jti, now);
      && (setup.Some? ==> ChangeLeaves(policy, rows, left, user))
      && (setup.None? && jti !in rows && Role !in AttributeMap(policy.jwt.attributes) ==>
            && jti in left && left[jti] == Row(user, session, true, now)
            && ChangeLeaves(policy, rows, left - {jti}, user))
  {
    var revoked := Revoked(policy, rows, user);
    OpenedExactly(policy, rows, user, true, session, jti, now);
    if jti !in rows && Role !in AttributeMap(policy.jwt.attributes) {
      assert revoked[jti := Row(user, session, true, now)] - {jti} == revoked;
    }
  }

  /** Enrolment opens a session exactly where it comes first, and enables it unless a confirmation is owed. */
  lemma BootstrappedExactly(policy: Policy, s: State, rows: Whitelist, user: UserId, bootstrap: bool, mandatory: bool,
          session: Session, jti: Jti)
    requires jti !in rows && Role !in AttributeMap(policy.jwt.attributes)
    ensures var left := Bootstrapped(policy, s, rows, user, bootstrap, mandatory, session, jti);
      && (left != rows <==> bootstrap && policy.totpMode == Required)
      && (left != rows ==>
            && left - {jti} == rows && jti in left && left[jti].user == user && left[jti].session == session
            && left[jti].enabled == (!mandatory || EmailVerified(s.addresses, user)))
  {
    if bootstrap && policy.totpMode == Required {
      var row := Row(user, session, !mandatory || EmailVerified(s.addresses, user), s.now);
      assert rows[jti := row] - {jti} == rows;
    }
  }

  /** A confirmation enables the first session, and opens one exactly where it is the account's first and asked for. */
  lemma EnabledExactly(policy: Policy, s: State, rows: Whitelist, first: Option<Jti>, opens: bool, user: UserId,
          session: Session, jti: Jti)
    requires IsFirst(rows, user, first) && jti !in rows && Role !in AttributeMap(policy.jwt.attributes)
    ensures var left := Enabled(policy, s, rows, first, opens, user, session, jti);
      && Enables(rows, left - {jti}, user, first)
      && (jti in left <==> opens && !EmailVerified(s.addresses, user))
      && (jti in left ==> left[jti] == Row(user, session, true, s.now))
  {
    var enabled := EnableFirst(rows, first);
    assert Enables(rows, enabled, user, first);
    assert enabled - {jti} == enabled && enabled[jti := Row(user, session, true, s.now)] - {jti} == enabled;
  }

  /** A key is left to the ordinary confirmation without invitations, or with open sign-up when it is of none. */
  lemma OrdinaryExactly(policy: Policy, s: State, key: TokenId)
    ensures var entry := EntryOf(policy, s, key);
      var none := policy.selfRegistration && (entry.Some? ==> entry.value.purpose != Invitation);
      Ordinary(policy, s, key) <==> !policy.invitations || none
  {
  }

  /** After a reset the account has one session: the one the reset hands out. */
  lemma OneSessionAfterReset(policy: Policy, rows: Whitelist, user: UserId, session: Session, jti: Jti, now: int)
    requires policy.jwt.logoutOnPasswordChange && Role !in AttributeMap(policy.jwt.attributes)
    requires jti !in rows
    ensures Selected(Opened(policy, Revoked(policy, rows, user), user, true, session, jti, now), OfUser(user)) == {jti}
  {
    var revoked := Revoked(policy, rows, user);
    assert forall j :: j in revoked ==> revoked[j].user != user;
  }
}
