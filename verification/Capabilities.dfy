/**
 The flows that hand out and redeem single-use credentials, as one machine of atomic
 requests: reset links, reset and set capabilities, confirmations and invitations, MFA
 challenges and setup secrets.
 */
module Capabilities {
  import opened Basics
  import opened Store
  import opened MfaStorage
  import opened Purge
  import Rotation
  import Sessions

  /** `issued` is the history of every credential handed out; `next` is an id never used before. */
  datatype State = State(
    now: int,
    tokens: seq<GenericToken>,
    issued: map<TokenId, Credential>,
    accounts: map<UserId, Account>,
    addresses: seq<Address>,
    next: TokenId)

  function Snapshot(db: Database): State
    reads db
  {
    State(db.now, db.tokens, db.issued, db.accounts, db.addresses, db.nextId)
  }

  /**
   The requests. What a library decides is an argument: whether Django accepts the signature
   of a link, whether a new password is acceptable, which address allauth still confirms for
   a key, whether a code is right and whether the authenticator it is checked against exists.
   */
  datatype Request =
    | AddAccount(user: UserId, account: Account, email: Email)
    | SetActive(user: UserId, active: bool)
    | RequestReset(user: UserId, email: Email)
    | OpenReset(link: TokenId, signed: bool)
    | ResetPassword(capability: TokenId, acceptable: bool)
    | ChangePassword(user: UserId, acceptable: bool)
    | SendConfirmation(user: UserId, signup: bool)
    | FollowKey(key: TokenId, names: Option<Address>)
    | SetPassword(capability: TokenId, acceptable: bool)
    | Login(user: UserId)
    | Verify(challenge: TokenId, enrolled: bool, right: bool)
    | BeginSetup(caller: Option<UserId>, bootstrap: Option<TokenId>)
    | Activate(caller: Option<UserId>, bootstrap: Option<TokenId>, right: bool)
    | AskReserved(user: UserId)
    | Wait(delta: nat)
    | RunPurge

  datatype Answer =
    | Nothing
    | Denied
    | NotFound
    | BadLink
    | Unacceptable
    | Handed(id: TokenId, credential: Credential)
    | PasswordSaved(user: UserId, setup: Option<TokenId>)
    | AddressVerified
    | SignedIn(user: UserId)
    | TooMany(retryAfter: int)
    | WrongCode(outcome: Outcome)
    | NotEnrolled
    | Activated(user: UserId, secret: TokenId)
    | Reserved(holds: bool)

  predicate IsActive(accounts: map<UserId, Account>, user: UserId) {
    user in accounts && accounts[user].active
  }

  predicate HasPassword(accounts: map<UserId, Account>, user: UserId) {
    user in accounts && accounts[user].usablePassword
  }

  predicate HasTotp(accounts: map<UserId, Account>, user: UserId) {
    user in accounts && accounts[user].totp
  }

  // ------------------------------------------------------------------ the table

  /** A row is there to be claimed. */
  predicate Present(tokens: seq<GenericToken>, id: TokenId, purpose: Purpose) {
    Keep(tokens, TokensOf(id, purpose)) != []
  }

  /** A new credential, with its row. */
  function Hand(s: State, user: UserId, purpose: Purpose): (State, Answer) {
    var credential := Credential(user, purpose, s.now);
    (s.(tokens := s.tokens + [GenericToken(user, s.next, purpose, s.now)],
        issued := s.issued[s.next := credential], next := s.next + 1),
     Handed(s.next, credential))
  }

  /** The rows of the same purpose the user holds under another id. */
  function NotSuperseded(user: UserId, purpose: Purpose, id: TokenId): GenericToken -> bool {
    (t: GenericToken) => !(IsRow(t, user, purpose) && t.token != id)
  }

  /** A capability is an access token: refused from the second its `exp` names. */
  predicate CapabilityOver(policy: Policy, credential: Credential, now: int) {
    Sessions.Over(Epoch(credential.at + policy.jwt.accessLifetime), now)
  }

  predicate IsCapability(policy: Policy, s: State, id: TokenId, purpose: Purpose) {
    id in s.issued && s.issued[id].purpose == purpose && !CapabilityOver(policy, s.issued[id], s.now)
  }

  // ------------------------------------------------------------- password reset

  /** The reset form mails an active account with a password whose typed address somebody confirmed. */
  function RequestResetLink(s: State, user: UserId, email: Email): (State, Answer) {
    if (exists i :: 0 <= i < |s.addresses| && s.addresses[i].email == email && s.addresses[i].verified)
       && IsActive(s.accounts, user) && HasPassword(s.accounts, user)
    then
      var (made, answer) := Hand(s, user, PassReset);
      (made.(tokens := Keep(made.tokens, NotSuperseded(user, PassReset, s.next))), answer)
    else (s, Nothing)
  }

  /** Django measures the age of a link in whole seconds. */
  predicate LinkTimely(policy: Policy, at: int, now: int) {
    Epoch(now) - Epoch(at) <= policy.resetTimeout
  }

  /** A reset link is exchanged for the capability to set the password; an earlier one dies. */
  function OpenResetLink(policy: Policy, s: State, link: TokenId, signed: bool): (State, Answer) {
    if link !in s.issued || s.issued[link].purpose != PassReset || !IsActive(s.accounts, s.issued[link].user)
      then (s, BadLink)
    else if !signed || !LinkTimely(policy, s.issued[link].at, s.now) || !Present(s.tokens, link, PassReset)
      then (s, BadLink)
    else
      var spent := TokenDropped(s.tokens, link, PassReset);
      var user := s.issued[link].user;
      Hand(s.(tokens := RowsDropped(spent, user, PassResetAccess)), user, PassResetAccess)
  }

  /** The new password is stored and everything outstanding goes down, when the installation says so. */
  function CredentialsChanged(policy: Policy, s: State, user: UserId): State
    requires user in s.accounts
  {
    var changed := s.(accounts := s.accounts[user := s.accounts[user].(usablePassword := true)]);
    if policy.jwt.logoutOnPasswordChange
    then changed.(tokens := Rotation.HandedOver(s.tokens, user), addresses := Rotation.Settled(s.addresses, user))
    else changed
  }

  /** A capability is spent before anything else is looked at. */
  function RedeemReset(policy: Policy, s: State, capability: TokenId, acceptable: bool): (State, Answer) {
    if !IsCapability(policy, s, capability, PassResetAccess) || !Present(s.tokens, capability, PassResetAccess)
      then (s, Denied)
    else
      var spent := s.(tokens := TokenDropped(s.tokens, capability, PassResetAccess));
      var user := s.issued[capability].user;
      if !IsActive(s.accounts, user) then (spent, Denied)
      else if !acceptable then (spent, Unacceptable)
      else (CredentialsChanged(policy, spent, user), PasswordSaved(user, None))
  }

  function ChangeOwnPassword(policy: Policy, s: State, user: UserId, acceptable: bool): (State, Answer) {
    if !IsActive(s.accounts, user) then (s, Denied)
    else if !acceptable then (s, Unacceptable)
    else (CredentialsChanged(policy, s, user), PasswordSaved(user, None))
  }

  // --------------------------------------------- confirmations and invitations

  /** The confirmation mail; its row tells an invitation from an ordinary confirmation. */
  function SendConfirmationMail(policy: Policy, s: State, user: UserId, signup: bool): (State, Answer) {
    if user !in s.accounts || !policy.invitations then (s, Nothing)
    else Hand(s, user, if signup && !HasPassword(s.accounts, user) then Invitation else EmailConfirmation)
  }

  /** The rows a followed key may stand for. */
  function EntriesOf(key: TokenId, cutoff: int): GenericToken -> bool {
    (t: GenericToken) => t.token == key && t.purpose in {Invitation, EmailConfirmation} && cutoff <= t.created
  }

  function EntryOf(policy: Policy, s: State, key: TokenId): Option<GenericToken> {
    var entries := Keep(s.tokens, EntriesOf(key, s.now - policy.confirmationWindow));
    if entries == [] then None else Some(entries[0])
  }

  /** Closed registration could only ever send invitations, so a password-less account is one. */
  predicate ServesInvitation(policy: Policy, s: State, entry: GenericToken) {
    entry.purpose == Invitation || (!policy.selfRegistration && !HasPassword(s.accounts, entry.user))
  }

  function Confirmed(addresses: seq<Address>, names: Address): seq<Address> {
    seq(|addresses|, i requires 0 <= i < |addresses| =>
      if addresses[i].user == names.user && addresses[i].email == names.email
      then addresses[i].(verified := true) else addresses[i])
  }

  /** The address the key names is confirmed; a spent key passes once some address is. */
  function ConfirmKey(s: State, user: UserId, names: Option<Address>): (State, bool) {
    if names.Some? then (s.(addresses := Confirmed(s.addresses, names.value)), true)
    else (s, EmailVerified(s.addresses, user))
  }

  function OrdinaryConfirmation(s: State, names: Option<Address>): (State, Answer) {
    if names.None? then (s, NotFound)
    else (s.(addresses := Confirmed(s.addresses, names.value)), AddressVerified)
  }

  /** What an invitation is exchanged for; only the capability of the latest click stays alive. */
  function HandSetCapability(s: State, user: UserId): (State, Answer) {
    Hand(s.(tokens := RowsDropped(s.tokens, user, PassSetAccess)), user, PassSetAccess)
  }

  function ConfirmEntry(policy: Policy, s: State, entry: GenericToken, names: Option<Address>): (State, Answer) {
    if !IsActive(s.accounts, entry.user) then (s, BadLink)
    else
      var (confirmed, ok) := ConfirmKey(s, entry.user, names);
      if !ok then (confirmed, BadLink)
      else if !ServesInvitation(policy, s, entry) || HasPassword(s.accounts, entry.user)
        then (confirmed, AddressVerified)
      else HandSetCapability(confirmed, entry.user)
  }

  function FollowConfirmationKey(policy: Policy, s: State, key: TokenId, names: Option<Address>): (State, Answer) {
    if !policy.invitations then OrdinaryConfirmation(s, names)
    else
      var entry := EntryOf(policy, s, key);
      if entry.None? then if policy.selfRegistration then OrdinaryConfirmation(s, names) else (s, BadLink)
      else if !ServesInvitation(policy, s, entry.value) && policy.selfRegistration then OrdinaryConfirmation(s, names)
      else ConfirmEntry(policy, s, entry.value, names)
  }

  /** The password is set: the links that led here go, whatever the installation revokes. */
  function CompleteInvitation(policy: Policy, s: State, user: UserId): (State, Answer)
    requires user in s.accounts
  {
    var changed := CredentialsChanged(policy, s, user);
    var settled :=
      changed.(tokens := RowsDropped(RowsDropped(changed.tokens, user, Invitation), user, EmailConfirmation));
    if policy.totpMode == Required
    then (HandSetupChallenge(settled, user).0, PasswordSaved(user, Some(s.next)))
    else (settled, PasswordSaved(user, None))
  }

  function RedeemInvitation(policy: Policy, s: State, capability: TokenId, acceptable: bool): (State, Answer) {
    if !policy.invitations then (s, NotFound)
    else if !IsCapability(policy, s, capability, PassSetAccess) || !Present(s.tokens, capability, PassSetAccess)
      then (s, Denied)
    else
      var spent := s.(tokens := TokenDropped(s.tokens, capability, PassSetAccess));
      var user := s.issued[capability].user;
      if !IsActive(s.accounts, user) then (spent, Denied)
      else if !acceptable then (spent, Unacceptable)
      else CompleteInvitation(policy, spent, user)
  }

  function InvitationsFrom(user: UserId, cutoff: int): GenericToken -> bool {
    (t: GenericToken) => IsRow(t, user, Invitation) && cutoff <= t.created
  }

  /** Whether a live invitation reserves the address of the account. */
  predicate HasOpenInvitation(policy: Policy, s: State, user: UserId) {
    !HasPassword(s.accounts, user)
    && Keep(s.tokens, InvitationsFrom(user, s.now - policy.confirmationWindow)) != []
  }

  // -------------------------------------------------------------- second factor

  function HandSetupChallenge(s: State, user: UserId): (State, Answer) {
    Hand(s.(tokens := ExpiredPurged(s.tokens, user, SetupChallenge, s.now)), user, SetupChallenge)
  }

  function HandLoginChallenge(policy: Policy, s: State, user: UserId): (State, Answer) {
    var purged := ExpiredPurged(AttemptsPurged(policy.limits, s.tokens, user, s.now), user, LoginChallenge, s.now);
    Hand(s.(tokens := purged), user, LoginChallenge)
  }

  /** What has to come before the session of an account whose first factor is proved. */
  function GateSession(policy: Policy, s: State, user: UserId): (State, Answer) {
    if policy.totpMode == Off then (s, SignedIn(user))
    else if !HasTotp(s.accounts, user) then
      if policy.totpMode == Required then HandSetupChallenge(s, user) else (s, SignedIn(user))
    else
      var retryAfter := LockoutRemaining(policy.limits, s.tokens, user, s.now);
      if retryAfter != 0 then (s, TooMany(retryAfter)) else HandLoginChallenge(policy, s, user)
  }

  /** A login whose first factor is proved; an inactive account does not get that far. */
  function GateLogin(policy: Policy, s: State, user: UserId): (State, Answer) {
    if IsActive(s.accounts, user) then GateSession(policy, s, user) else (s, Denied)
  }

  /** Whether a session has to wait for the second factor, asked without issuing the challenge. */
  predicate SecondFactorPending(policy: Policy, accounts: map<UserId, Account>, user: UserId) {
    policy.totpMode != Off && (HasTotp(accounts, user) || policy.totpMode == Required)
  }

  /** The question and the step agree: a session is opened straight away exactly when nothing is pending. */
  lemma PendingAgreesWithGate(policy: Policy, s: State, user: UserId)
    ensures SecondFactorPending(policy, s.accounts, user) <==> !GateSession(policy, s, user).1.SignedIn?
  {
  }

  function VerifyCode(policy: Policy, s: State, challenge: TokenId, enrolled: bool, right: bool): (State, Answer) {
    if policy.totpMode == Off then (s, Denied)
    else
      var row := CredentialRow(s.tokens, challenge, LoginChallenge);
      var read := s.(tokens := Read(s.tokens, row, s.now));
      if !Live(row, s.now) then (read, Denied)
      else
        var user := row.value.user;
        var retryAfter := LockoutRemaining(policy.limits, s.tokens, user, s.now);
        if retryAfter != 0 then (s, TooMany(retryAfter))
        else if !enrolled then (s, NotEnrolled)
        else if !right then
          var (tokens, outcome) := Recorded(policy.limits, s.tokens, user, challenge, s.now);
          (s.(tokens := tokens), WrongCode(outcome))
        else
          (s.(tokens := RowsDropped(TokenDropped(s.tokens, challenge, LoginChallenge), user, LoginAttempt)),
           SignedIn(user))
  }

  /** Who a setup request acts for: its session, or the account behind the setup challenge. */
  function SetupUser(s: State, caller: Option<UserId>, bootstrap: Option<TokenId>): (State, Option<UserId>) {
    if caller.Some? || bootstrap.None? then (s, caller)
    else
      var row := CredentialRow(s.tokens, bootstrap.value, SetupChallenge);
      if row.None? then (s, None)
      else if Live(row, s.now) && row.value.user in s.accounts then (s, Some(row.value.user))
      else (s.(tokens := Keep(s.tokens, OtherThan(row.value))), None)
  }

  function BeginTotpSetup(policy: Policy, s: State, caller: Option<UserId>,
          bootstrap: Option<TokenId>): (State, Answer) {
    var (asked, user) := SetupUser(s, caller, bootstrap);
    if user.None? || policy.totpMode == Off || user.value !in asked.accounts || HasTotp(asked.accounts, user.value)
      then (asked, Denied)
    else Hand(asked.(tokens := RowsDropped(asked.tokens, user.value, SetupSecret)), user.value, SetupSecret)
  }

  /** The rows enrolment leaves behind. */
  function Enrolled(tokens: seq<GenericToken>, user: UserId, bootstrap: Option<TokenId>): seq<GenericToken> {
    var spent := RowsDropped(tokens, user, SetupSecret);
    if bootstrap.Some? then TokenDropped(spent, bootstrap.value, SetupChallenge) else spent
  }

  /** The newest secret of the account is spent once a code from it is right. */
  function SpendSecret(s: State, user: UserId, bootstrap: Option<TokenId>, right: bool): (State, Answer)
    requires user in s.accounts
  {
    var row := UserRow(s.tokens, user, SetupSecret);
    if !Live(row, s.now) then (s.(tokens := Read(s.tokens, row, s.now)), NotFound)
    else if !right then (s, Unacceptable)
    else
      (s.(tokens := Enrolled(s.tokens, user, bootstrap),
          accounts := s.accounts[user := s.accounts[user].(totp := true)]),
       Activated(user, row.value.token))
  }

  function ActivateTotp(policy: Policy, s: State, caller: Option<UserId>, bootstrap: Option<TokenId>,
          right: bool): (State, Answer) {
    var (asked, user) := SetupUser(s, caller, bootstrap);
    if user.None? || policy.totpMode == Off || user.value !in asked.accounts then (asked, Denied)
    else SpendSecret(asked, user.value, bootstrap, right)
  }

  // ---------------------------------------------------------------- the machine

  function Serve(policy: Policy, s: State, r: Request): (State, Answer) {
    match r
    case AddAccount(user, account, email) =>
      if user in s.accounts then (s, Denied)
      else
        (s.(accounts := s.accounts[user := account], addresses := s.addresses + [Address(email, user, false, true)]),
         Nothing)
    case SetActive(user, active) =>
      if user !in s.accounts then (s, Denied)
      else (s.(accounts := s.accounts[user := s.accounts[user].(active := active)]), Nothing)
    case RequestReset(user, email) => RequestResetLink(s, user, email)
    case OpenReset(link, signed) => OpenResetLink(policy, s, link, signed)
    case ResetPassword(capability, acceptable) => RedeemReset(policy, s, capability, acceptable)
    case ChangePassword(user, acceptable) => ChangeOwnPassword(policy, s, user, acceptable)
    case SendConfirmation(user, signup) => SendConfirmationMail(policy, s, user, signup)
    case FollowKey(key, names) => FollowConfirmationKey(policy, s, key, names)
    case SetPassword(capability, acceptable) => RedeemInvitation(policy, s, capability, acceptable)
    case Login(user) => GateLogin(policy, s, user)
    case Verify(challenge, enrolled, right) => VerifyCode(policy, s, challenge, enrolled, right)
    case BeginSetup(caller, bootstrap) => BeginTotpSetup(policy, s, caller, bootstrap)
    case Activate(caller, bootstrap, right) => ActivateTotp(policy, s, caller, bootstrap, right)
    case AskReserved(user) => (s, Reserved(HasOpenInvitation(policy, s, user)))
    case Wait(delta) => (s.(now := s.now + delta), Nothing)
    case RunPurge => (s.(tokens := PurgedTokens(Retentions(policy), s.now, s.tokens)), Nothing)
  }

  function After(policy: Policy, s: State, run: seq<Request>): State
    decreases |run|
  {
    if run == [] then s else After(policy, Serve(policy, s, run[0]).0, run[1..])
  }
}
