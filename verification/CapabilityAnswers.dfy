/**
 What each request of the flows is answered, said of the account, the rows and the clock alone:
 every answer exactly when, and what it leaves.
 */
module CapabilityAnswers {
  import opened Basics
  import opened Store
  import opened MfaStorage
  import opened Purge
  import opened Capabilities
  import Rotation

  // ---------------------------------------------------------------------- rows

  lemma PresentExactly(tokens: seq<GenericToken>, id: TokenId, purpose: Purpose)
    ensures Present(tokens, id, purpose) <==> exists t :: t in tokens && t.token == id && t.purpose == purpose
  {
    var rows := Keep(tokens, TokensOf(id, purpose));
    if rows != [] {
      assert rows[0] in rows;
    }
    if t :| t in tokens && t.token == id && t.purpose == purpose {
      assert TokensOf(id, purpose)(t);
    }
  }

  /** The newest of some rows is live exactly when one of them is not older than five minutes. */
  lemma LiveExactly(rows: seq<GenericToken>, now: int)
    ensures Live(Latest(rows), now) <==> exists t :: t in rows && now - 300 * SECOND <= t.created
  {
  }

  lemma CredentialLive(tokens: seq<GenericToken>, id: TokenId, purpose: Purpose, now: int)
    ensures Live(CredentialRow(tokens, id, purpose), now)
      <==> exists t :: t in tokens && t.token == id && t.purpose == purpose && now - 300 * SECOND <= t.created
  {
    var rows := Keep(tokens, TokensOf(id, purpose));
    LiveExactly(rows, now);
    forall t | t in tokens && t.token == id && t.purpose == purpose ensures t in rows {
      assert TokensOf(id, purpose)(t);
    }
  }

  lemma UserLive(tokens: seq<GenericToken>, user: UserId, purpose: Purpose, now: int)
    ensures Live(UserRow(tokens, user, purpose), now)
      <==> exists t :: t in tokens && t.user == user && t.purpose == purpose && now - 300 * SECOND <= t.created
  {
    var rows := Keep(tokens, RowsOf(user, purpose));
    LiveExactly(rows, now);
    forall t | t in tokens && t.user == user && t.purpose == purpose ensures t in rows {
      assert RowsOf(user, purpose)(t);
    }
  }

  /** A capability is good up to the last second before its `exp`, the second its lifetime ends in. */
  predicate InLifetime(policy: Policy, at: int, now: int) {
    now < FromEpoch(Epoch(at + policy.jwt.accessLifetime))
  }

  lemma CapabilityExactly(policy: Policy, s: State, id: TokenId, purpose: Purpose)
    ensures IsCapability(policy, s, id, purpose) && Present(s.tokens, id, purpose)
      <==> && id in s.issued && s.issued[id].purpose == purpose && InLifetime(policy, s.issued[id].at, s.now)
           && exists t :: t in s.tokens && t.token == id && t.purpose == purpose
  {
    PresentExactly(s.tokens, id, purpose);
  }

  /** Everything but the rows of one credential is left. */
  ghost predicate Spent(tokens: seq<GenericToken>, left: seq<GenericToken>, id: TokenId, purpose: Purpose) {
    forall t :: t in left <==> t in tokens && !(t.token == id && t.purpose == purpose)
  }

  // ------------------------------------------------------------- password reset

  lemma ResetMailExactly(s: State, user: UserId, email: Email)
    ensures var (s', answer) := RequestResetLink(s, user, email);
      var mailed := && (exists x :: x in s.addresses && x.email == email && x.verified)
                    && user in s.accounts && s.accounts[user].active && s.accounts[user].usablePassword;
      && (mailed ==> answer == Handed(s.next, Credential(user, PassReset, s.now)))
      && (mailed ==> forall t :: t in s'.tokens <==>
            t == GenericToken(user, s.next, PassReset, s.now)
            || (t in s.tokens && (t.user == user && t.purpose == PassReset ==> t.token == s.next)))
      && (!mailed ==> s' == s && answer == Nothing)
  {
    if x :| x in s.addresses && x.email == email && x.verified {
      var i :| 0 <= i < |s.addresses| && s.addresses[i] == x;
    }
    if i :| 0 <= i < |s.addresses| && s.addresses[i].email == email && s.addresses[i].verified {
      assert s.addresses[i] in s.addresses;
    }
    var made := s.tokens + [GenericToken(user, s.next, PassReset, s.now)];
    assert forall t :: t in made <==> t in s.tokens || t == GenericToken(user, s.next, PassReset, s.now);
    assert forall t :: t in Keep(made, NotSuperseded(user, PassReset, s.next))
                       <==> t in made && NotSuperseded(user, PassReset, s.next)(t);
  }

  lemma OpenResetExactly(policy: Policy, s: State, link: TokenId, signed: bool)
    ensures var (s', answer) := OpenResetLink(policy, s, link, signed);
      var honoured := && link in s.issued && s.issued[link].purpose == PassReset && signed
                      && s.issued[link].user in s.accounts && s.accounts[s.issued[link].user].active
                      && Epoch(s.now) <= Epoch(s.issued[link].at) + policy.resetTimeout
                      && exists t :: t in s.tokens && t.token == link && t.purpose == PassReset;
      && (honoured ==> answer == Handed(s.next, Credential(s.issued[link].user, PassResetAccess, s.now)))
      && (honoured ==> forall t :: t in s'.tokens <==>
            || t == GenericToken(s.issued[link].user, s.next, PassResetAccess, s.now)
            || (t in s.tokens && !(t.token == link && t.purpose == PassReset)
                && !(t.user == s.issued[link].user && t.purpose == PassResetAccess)))
      && (!honoured ==> s' == s && answer == BadLink)
  {
    PresentExactly(s.tokens, link, PassReset);
    if link in s.issued {
      var spent := TokenDropped(s.tokens, link, PassReset);
      var user := s.issued[link].user;
      assert forall t :: t in spent <==> t in s.tokens && ExceptToken(link, PassReset)(t);
      assert forall t :: t in RowsDropped(spent, user, PassResetAccess)
                         <==> t in spent && Except(user, PassResetAccess)(t);
    }
  }

  /** What saving a password leaves of the account and its rows. */
  ghost predicate Saved(policy: Policy, s: State, s': State, user: UserId) {
    && user in s.accounts && s'.accounts == s.accounts[user := s.accounts[user].(usablePassword := true)]
    && (policy.jwt.logoutOnPasswordChange ==>
          && (forall t :: t in s'.tokens ==> t.user == user ==> t.purpose == LoginAttempt)
          && (forall x :: x in s'.addresses <==> x in s.addresses && (x.user == user ==> x.verified || x.primary)))
    && (!policy.jwt.logoutOnPasswordChange ==> s'.addresses == s.addresses)
    && (forall t :: t in s.tokens && t.user != user ==> t in s'.tokens)
    && (forall t :: t in s.tokens && t.purpose == LoginAttempt ==> t in s'.tokens)
  }

  lemma ChangeExactly(policy: Policy, s: State, user: UserId)
    requires user in s.accounts
    ensures Saved(policy, s, CredentialsChanged(policy, s, user), user)
    ensures !policy.jwt.logoutOnPasswordChange ==> CredentialsChanged(policy, s, user).tokens == s.tokens
  {
    assert forall t :: t in s.tokens && Rotation.OutlivesHandover(user)(t) ==> t in Rotation.HandedOver(s.tokens, user);
  }

  /**
   The capability is spent before the account and the password are looked at: it is gone even
   where the account was deactivated or the password refused.
   */
  lemma RedeemResetExactly(policy: Policy, s: State, capability: TokenId, acceptable: bool)
    ensures var (s', answer) := RedeemReset(policy, s, capability, acceptable);
      var good := && capability in s.issued && s.issued[capability].purpose == PassResetAccess
                  && InLifetime(policy, s.issued[capability].at, s.now)
                  && exists t :: t in s.tokens && t.token == capability && t.purpose == PassResetAccess;
      && (!good ==> s' == s && answer == Denied)
      && (good ==>
            var user := s.issued[capability].user;
            var active := user in s.accounts && s.accounts[user].active;
            var spent := s.(tokens := TokenDropped(s.tokens, capability, PassResetAccess));
            && Spent(s.tokens, spent.tokens, capability, PassResetAccess)
            && (!active ==> s' == spent && answer == Denied)
            && (active && !acceptable ==> s' == spent && answer == Unacceptable)
            && (active && acceptable ==> Saved(policy, spent, s', user) && answer == PasswordSaved(user, None)))
  {
    CapabilityExactly(policy, s, capability, PassResetAccess);
    if capability in s.issued && s.issued[capability].user in s.accounts {
      var spent := s.(tokens := TokenDropped(s.tokens, capability, PassResetAccess));
      ChangeExactly(policy, spent, s.issued[capability].user);
    }
  }

  lemma ChangePasswordExactly(policy: Policy, s: State, user: UserId, acceptable: bool)
    ensures var (s', answer) := ChangeOwnPassword(policy, s, user, acceptable);
      var active := user in s.accounts && s.accounts[user].active;
      && (!active ==> s' == s && answer == Denied)
      && (active && !acceptable ==> s' == s && answer == Unacceptable)
      && (active && acceptable ==> Saved(policy, s, s', user) && answer == PasswordSaved(user, None))
  {
    if user in s.accounts {
      ChangeExactly(policy, s, user);
    }
  }

  // --------------------------------------------- confirmations and invitations

  /** An invitation goes out to a newcomer without a password; every other mail is an ordinary confirmation. */
  lemma MailExactly(policy: Policy, s: State, user: UserId, signup: bool)
    ensures var (s', answer) := SendConfirmationMail(policy, s, user, signup);
      && (!policy.invitations || user !in s.accounts ==> s' == s && answer == Nothing)
      && (policy.invitations && user in s.accounts ==>
            var purpose := if signup && !s.accounts[user].usablePassword then Invitation else EmailConfirmation;
            answer == Handed(s.next, Credential(user, purpose, s.now))
            && s'.tokens == s.tokens + [GenericToken(user, s.next, purpose, s.now)])
  {
  }

  /** A key stands for the first of its rows, as long as the confirmation has not run out. */
  lemma EntryExactly(policy: Policy, s: State, key: TokenId)
    ensures var entry := EntryOf(policy, s, key);
      && (entry.None? <==> !exists t :: t in s.tokens && StandsFor(policy, s, key, t))
      && (entry.Some? ==> entry.value in s.tokens && StandsFor(policy, s, key, entry.value))
  {
    var entries := Keep(s.tokens, EntriesOf(key, s.now - policy.confirmationWindow));
    if entries != [] {
      assert entries[0] in entries;
    }
    if t :| t in s.tokens && StandsFor(policy, s, key, t) {
      assert EntriesOf(key, s.now - policy.confirmationWindow)(t);
    }
  }

  predicate StandsFor(policy: Policy, s: State, key: TokenId, t: GenericToken) {
    && t.token == key && (t.purpose == Invitation || t.purpose == EmailConfirmation)
    && s.now <= t.created + policy.confirmationWindow
  }

  /** The row is an invitation: its purpose says so, or only an invitation can have sent it. */
  predicate Invites(policy: Policy, s: State, t: GenericToken) {
    || t.purpose == Invitation
    || (!policy.selfRegistration && !(t.user in s.accounts && s.accounts[t.user].usablePassword))
  }

  lemma ConfirmedExactly(rows: seq<Address>, names: Address)
    ensures |Confirmed(rows, names)| == |rows|
    ensures forall i :: 0 <= i < |rows| ==>
      Confirmed(rows, names)[i] == rows[i].(verified :=
        rows[i].verified || (rows[i].user == names.user && rows[i].email == names.email))
  {
  }

  /** A key that is left to the ordinary confirmation: it confirms what allauth says it names. */
  lemma OrdinaryKeyExactly(policy: Policy, s: State, key: TokenId, names: Option<Address>)
    requires !policy.invitations
      || (policy.selfRegistration
          && forall t :: t in s.tokens && StandsFor(policy, s, key, t) ==> !Invites(policy, s, t))
    ensures var (s', answer) := FollowConfirmationKey(policy, s, key, names);
      && (names.None? ==> s' == s && answer == NotFound)
      && (names.Some? ==>
            s' == s.(addresses := Confirmed(s.addresses, names.value)) && answer == AddressVerified)
  {
    EntryExactly(policy, s, key);
  }

  /** With registration closed a key without a row does nothing at all. */
  lemma StrangeKeyExactly(policy: Policy, s: State, key: TokenId, names: Option<Address>)
    requires policy.invitations && !policy.selfRegistration
    requires forall t :: t in s.tokens ==> !StandsFor(policy, s, key, t)
    ensures FollowConfirmationKey(policy, s, key, names) == (s, BadLink)
  {
    EntryExactly(policy, s, key);
  }

  /**
   The key of an invitation: nothing for a deactivated account or a key that is bad; otherwise the
   address is confirmed, and the capability goes out unless the account has a password already.
   */
  lemma InvitationKeyExactly(policy: Policy, s: State, key: TokenId, names: Option<Address>)
    requires policy.invitations && EntryOf(policy, s, key).Some?
    requires !policy.selfRegistration || Invites(policy, s, EntryOf(policy, s, key).value)
    ensures var entry := EntryOf(policy, s, key).value;
      var (s', answer) := FollowConfirmationKey(policy, s, key, names);
      var active := entry.user in s.accounts && s.accounts[entry.user].active;
      var confirmed := if names.Some? then s.(addresses := Confirmed(s.addresses, names.value)) else s;
      var known := exists x :: x in s.addresses && x.user == entry.user && x.verified;
      && (!active || (names.None? && !known) ==> s' == s && answer == BadLink)
      && (active && (names.Some? || known) && !(Invites(policy, s, entry) && !s.accounts[entry.user].usablePassword) ==>
            s' == confirmed && answer == AddressVerified)
      && (active && (names.Some? || known) && Invites(policy, s, entry) && !s.accounts[entry.user].usablePassword ==>
            && s'.addresses == confirmed.addresses && s'.accounts == s.accounts
            && answer == Handed(s.next, Credential(entry.user, PassSetAccess, s.now))
            && forall t :: t in s'.tokens <==>
                 || t == GenericToken(entry.user, s.next, PassSetAccess, s.now)
                 || (t in s.tokens && !(t.user == entry.user && t.purpose == PassSetAccess)))
  {
    var entry := EntryOf(policy, s, key).value;
    KnownExactly(s.addresses, entry.user);
    assert forall t :: t in RowsDropped(s.tokens, entry.user, PassSetAccess)
                       <==> t in s.tokens && Except(entry.user, PassSetAccess)(t);
  }

  lemma KnownExactly(rows: seq<Address>, user: UserId)
    ensures EmailVerified(rows, user) <==> exists x :: x in rows && x.user == user && x.verified
  {
    if EmailVerified(rows, user) {
      var i :| 0 <= i < |rows| && rows[i].user == user && rows[i].verified;
      assert rows[i] in rows;
    }
    if x :| x in rows && x.user == user && x.verified {
      var i :| 0 <= i < |rows| && rows[i] == x;
    }
  }

  /** Whether an address is reserved: an account without a password whose invitation has not run out. */
  lemma ReservedExactly(policy: Policy, s: State, user: UserId)
    ensures Serve(policy, s, AskReserved(user)).0 == s
    ensures Serve(policy, s, AskReserved(user)).1 == Answer.Reserved(
      && !(user in s.accounts && s.accounts[user].usablePassword)
      && exists t :: t in s.tokens && t.user == user && t.purpose == Invitation
                     && s.now <= t.created + policy.confirmationWindow)
  {
    var open := Keep(s.tokens, InvitationsFrom(user, s.now - policy.confirmationWindow));
    if open != [] {
      assert open[0] in open;
    }
  }

  /** Where enrolment is required, the account owes it before its first session, and a setup challenge says so. */
  lemma RedeemInvitationExactly(policy: Policy, s: State, capability: TokenId, acceptable: bool)
    ensures var (s', answer) := RedeemInvitation(policy, s, capability, acceptable);
      var good := && capability in s.issued && s.issued[capability].purpose == PassSetAccess
                  && InLifetime(policy, s.issued[capability].at, s.now)
                  && exists t :: t in s.tokens && t.token == capability && t.purpose == PassSetAccess;
      && (!policy.invitations ==> s' == s && answer == NotFound)
      && (policy.invitations && !good ==> s' == s && answer == Denied)
      && (policy.invitations && good ==>
            var user := s.issued[capability].user;
            var active := user in s.accounts && s.accounts[user].active;
            var spent := s.(tokens := TokenDropped(s.tokens, capability, PassSetAccess));
            && Spent(s.tokens, spent.tokens, capability, PassSetAccess)
            && (!active ==> s' == spent && answer == Denied)
            && (active && !acceptable ==> s' == spent && answer == Unacceptable)
            && (active && acceptable ==> Completes(policy, spent, s', user, answer)))
  {
    CapabilityExactly(policy, s, capability, PassSetAccess);
    if capability in s.issued && s.issued[capability].user in s.accounts {
      var spent := s.(tokens := TokenDropped(s.tokens, capability, PassSetAccess));
      CompletesExactly(policy, spent, s.issued[capability].user);
    }
  }

  /** The password is there, the links that led to it are gone, and enrolment is owed exactly where it is required. */
  ghost predicate Completes(policy: Policy, s: State, s': State, user: UserId, answer: Answer) {
    && user in s.accounts && s'.accounts == s.accounts[user := s.accounts[user].(usablePassword := true)]
    && (forall t :: t in s'.tokens && t.user == user ==> t.purpose != Invitation && t.purpose != EmailConfirmation)
    && (if policy.totpMode == Required
        then
          && answer == PasswordSaved(user, Some(s.next))
          && GenericToken(user, s.next, SetupChallenge, s.now) in s'.tokens
        else answer == PasswordSaved(user, None) && forall t :: t in s'.tokens ==> t in s.tokens)
  }

  lemma CompletesExactly(policy: Policy, s: State, user: UserId)
    requires user in s.accounts
    ensures Completes(policy, s, CompleteInvitation(policy, s, user).0, user, CompleteInvitation(policy, s, user).1)
  {
    var changed := CredentialsChanged(policy, s, user);
    var once := RowsDropped(changed.tokens, user, Invitation);
    var settled := RowsDropped(once, user, EmailConfirmation);
    assert forall t :: t in settled ==> t in once && Except(user, Invitation)(t) && Except(user, EmailConfirmation)(t);
  }

  // -------------------------------------------------------------- second factor

  /** The step between a proved first factor and a session, each outcome exactly. */
  lemma GateExactly(policy: Policy, s: State, user: UserId)
    ensures var (s', answer) := GateLogin(policy, s, user);
      var active := user in s.accounts && s.accounts[user].active;
      var enrolled := user in s.accounts && s.accounts[user].totp;
      var failures := FailuresSince(s.tokens, user, s.now - policy.limits.lockoutSeconds * SECOND);
      var locked := 0 < policy.limits.userMax <= failures;
      && (answer == Denied <==> !active)
      && (answer == SignedIn(user) <==>
            active && (policy.totpMode == Off || (policy.totpMode == Offered && !enrolled)))
      && (answer == Handed(s.next, Credential(user, SetupChallenge, s.now)) <==>
            active && policy.totpMode == Required && !enrolled)
      && (answer.TooMany? <==> active && policy.totpMode != Off && enrolled && locked)
      && (answer == Handed(s.next, Credential(user, LoginChallenge, s.now)) <==>
            active && policy.totpMode != Off && enrolled && !locked)
      && (!answer.Handed? ==> s' == s)
  {
    LockoutIsWindowCount(policy.limits, s.tokens, user, s.now);
  }

  /** Asked without issuing anything: a second factor is owed by who has one, and by everybody where it is required. */
  lemma PendingExactly(policy: Policy, accounts: map<UserId, Account>, user: UserId)
    ensures SecondFactorPending(policy, accounts, user)
      <==> policy.totpMode == Required || (policy.totpMode == Offered && user in accounts && accounts[user].totp)
  {
  }

  /** The verification endpoint, in the order it asks; only a right code ends a challenge with a session. */
  lemma VerifyExactly(policy: Policy, s: State, challenge: TokenId, enrolled: bool, right: bool)
    ensures var (s', answer) := VerifyCode(policy, s, challenge, enrolled, right);
      var live := policy.totpMode != Off
        && exists t :: t in s.tokens && t.token == challenge && t.purpose == LoginChallenge
                       && s.now - 300 * SECOND <= t.created;
      && (answer == Denied <==> !live)
      && (live ==>
            && CredentialRow(s.tokens, challenge, LoginChallenge).Some?
            && var user := CredentialRow(s.tokens, challenge, LoginChallenge).value.user;
               var failures := FailuresSince(s.tokens, user, s.now - policy.limits.lockoutSeconds * SECOND);
               var locked := 0 < policy.limits.userMax <= failures;
               && (answer.TooMany? <==> locked)
               && (answer == NotEnrolled <==> !locked && !enrolled)
               && (answer.WrongCode? <==> !locked && enrolled && !right)
               && (answer == SignedIn(user) <==> !locked && enrolled && right)
               && (answer.TooMany? || answer.NotEnrolled? ==> s' == s)
               && (answer.SignedIn? ==> forall t :: t in s'.tokens <==>
                     t in s.tokens && !(t.token == challenge && t.purpose == LoginChallenge)
                     && !(t.user == user && t.purpose == LoginAttempt)))
      && s'.accounts == s.accounts && s'.addresses == s.addresses
  {
    CredentialLive(s.tokens, challenge, LoginChallenge, s.now);
    var row := CredentialRow(s.tokens, challenge, LoginChallenge);
    if row.Some? {
      LockoutIsWindowCount(policy.limits, s.tokens, row.value.user, s.now);
      SignedInLeaves(s.tokens, challenge, row.value.user);
    }
  }

  lemma SignedInLeaves(tokens: seq<GenericToken>, challenge: TokenId, user: UserId)
    ensures forall t :: t in RowsDropped(TokenDropped(tokens, challenge, LoginChallenge), user, LoginAttempt) <==>
      t in tokens && !(t.token == challenge && t.purpose == LoginChallenge)
      && !(t.user == user && t.purpose == LoginAttempt)
  {
    var once := TokenDropped(tokens, challenge, LoginChallenge);
    assert forall t :: t in once <==> t in tokens && ExceptToken(challenge, LoginChallenge)(t);
    assert forall t :: t in RowsDropped(once, user, LoginAttempt) <==> t in once && Except(user, LoginAttempt)(t);
  }

  /** Who a setup request acts for: its own session, and without one the account behind a live setup challenge. */
  lemma SetupUserExactly(s: State, caller: Option<UserId>, bootstrap: Option<TokenId>)
    ensures var user := SetupUser(s, caller, bootstrap).1;
      && (caller.Some? ==> user == caller)
      && (caller.None? && bootstrap.None? ==> user == None)
      && (caller.None? && bootstrap.Some? ==>
            var row := CredentialRow(s.tokens, bootstrap.value, SetupChallenge);
            var live := exists t :: t in s.tokens && t.token == bootstrap.value && t.purpose == SetupChallenge
                                    && s.now - 300 * SECOND <= t.created;
            && (user.Some? <==> live && row.Some? && row.value.user in s.accounts)
            && (user.Some? ==> user.value == row.value.user))
  {
    if bootstrap.Some? {
      CredentialLive(s.tokens, bootstrap.value, SetupChallenge, s.now);
    }
  }

  lemma BeginSetupExactly(policy: Policy, s: State, caller: Option<UserId>, bootstrap: Option<TokenId>)
    ensures var (s', answer) := BeginTotpSetup(policy, s, caller, bootstrap);
      var (asked, user) := SetupUser(s, caller, bootstrap);
      var begins := user.Some? && policy.totpMode != Off && user.value in s.accounts && !s.accounts[user.value].totp;
      && (!begins ==> s' == asked && answer == Denied)
      && (begins ==>
            && answer == Handed(s.next, Credential(user.value, SetupSecret, s.now))
            && s'.accounts == s.accounts
            && forall t :: t in s'.tokens <==>
                 || t == GenericToken(user.value, s.next, SetupSecret, s.now)
                 || (t in asked.tokens && !(t.user == user.value && t.purpose == SetupSecret)))
  {
    var (asked, user) := SetupUser(s, caller, bootstrap);
    if user.Some? {
      assert forall t :: t in RowsDropped(asked.tokens, user.value, SetupSecret)
                         <==> t in asked.tokens && Except(user.value, SetupSecret)(t);
    }
  }

  /** An authenticator is stored exactly on a right code from a live secret; only then secret and challenge go. */
  lemma ActivateExactly(policy: Policy, s: State, caller: Option<UserId>, bootstrap: Option<TokenId>, right: bool)
    ensures var (s', answer) := ActivateTotp(policy, s, caller, bootstrap, right);
      var (asked, user) := SetupUser(s, caller, bootstrap);
      var asks := user.Some? && policy.totpMode != Off && user.value in s.accounts;
      && (answer == Denied <==> !asks)
      && (!answer.Activated? ==> s'.accounts == s.accounts)
      && (asks ==>
            var live := exists t :: t in asked.tokens && t.user == user.value && t.purpose == SetupSecret
                                    && s.now - 300 * SECOND <= t.created;
            && (answer == NotFound <==> !live)
            && (answer == Unacceptable <==> live && !right)
            && (answer.Activated? <==> live && right)
            && (answer == Unacceptable ==> s' == asked)
            && (answer.Activated? ==>
                  && answer.user == user.value
                  && s'.accounts == s.accounts[user.value := s.accounts[user.value].(totp := true)]
                  && forall t :: t in s'.tokens <==>
                       t in asked.tokens && !(t.user == user.value && t.purpose == SetupSecret)
                       && !(bootstrap.Some? && t.token == bootstrap.value && t.purpose == SetupChallenge)))
  {
    var (asked, user) := SetupUser(s, caller, bootstrap);
    if user.Some? {
      UserLive(asked.tokens, user.value, SetupSecret, s.now);
      EnrolledLeaves(asked.tokens, user.value, bootstrap);
    }
  }

  lemma EnrolledLeaves(tokens: seq<GenericToken>, user: UserId, bootstrap: Option<TokenId>)
    ensures forall t :: t in Enrolled(tokens, user, bootstrap) <==>
      t in tokens && !(t.user == user && t.purpose == SetupSecret)
      && !(bootstrap.Some? && t.token == bootstrap.value && t.purpose == SetupChallenge)
  {
    var spent := RowsDropped(tokens, user, SetupSecret);
    assert forall t :: t in spent <==> t in tokens && Except(user, SetupSecret)(t);
    if bootstrap.Some? {
      assert forall t :: t in TokenDropped(spent, bootstrap.value, SetupChallenge)
                         <==> t in spent && ExceptToken(bootstrap.value, SetupChallenge)(t);
    }
  }
}
