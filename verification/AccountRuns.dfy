/** Runs of sign-ups, invitations and social logins, among all the other flows: who can lose an account. */
module AccountRuns {
  import opened Basics
  import opened Store
  import opened MfaStorage
  import opened Purge
  import Flows = Capabilities
  import opened CapabilityInvariants
  import opened Accounts
  import opened Registration
  import opened Social
  import Rotation

  type State = Flows.State

  datatype Request =
    | Flow(request: Flows.Request)
    | Register(hides: bool, email: Email, newcomer: UserId, account: Account)
    | Invite(email: Email, newcomer: UserId, account: Account)
    | Social(login: SocialLogin, newcomer: UserId, account: Account)

  /** The database after one request. A newcomer gets an id nobody holds. */
  function Serve(policy: Policy, site: Site, s: State, r: Request): State {
    match r
    case Flow(request) => Flows.Serve(policy, s, request).0
    case Register(hides, email, newcomer, account) =>
      var claim := ClaimOf(policy, site, Form(true, hides), s, email, false);
      if newcomer in s.accounts || !claim.Claimed? then s
      else SignedUp(site, s, claim.gone, newcomer, account, email)
    case Invite(email, newcomer, account) =>
      var claim := ClaimOf(policy, site, INVITING, s, email, false);
      if newcomer in s.accounts || !policy.invitations || !claim.Claimed? then s
      else Invited(policy, s, claim.gone, newcomer, account, email).0
    case Social(login, newcomer, account) =>
      var admission := Authenticate(policy, site, s, login, newcomer, account);
      if newcomer in s.accounts || admission.Err? then s else admission.value.s
  }

  function After(policy: Policy, site: Site, s: State, run: seq<Request>): State
    decreases |run|
  {
    if run == [] then s else After(policy, site, Serve(policy, site, s, run[0]), run[1..])
  }

  /** Nobody removes such an account: it has been used, it is privileged, or an address of it is confirmed. */
  predicate Claimed(s: State, user: UserId) {
    user in s.accounts && (EverLoggedIn(s, user) || Privileged(s, user) || EmailVerified(s.addresses, user))
  }

  // ------------------------------------------------------- the other flows

  lemma ConfirmedKeeps(rows: seq<Address>, names: Address, user: UserId)
    requires EmailVerified(rows, user)
    ensures EmailVerified(Flows.Confirmed(rows, names), user)
  {
    var i :| 0 <= i < |rows| && rows[i].user == user && rows[i].verified;
    assert Flows.Confirmed(rows, names)[i].user == user && Flows.Confirmed(rows, names)[i].verified;
  }

  /** What the claim of an account rests on is not taken away. */
  predicate StandingKept(s: State, s': State, user: UserId) {
    && (user in s.accounts ==> user in s'.accounts)
    && (EverLoggedIn(s, user) ==> EverLoggedIn(s', user))
    && (Privileged(s, user) ==> Privileged(s', user))
    && (EmailVerified(s.addresses, user) ==> EmailVerified(s'.addresses, user))
  }

  lemma ChangeKeepsStanding(policy: Policy, s: State, holder: UserId, user: UserId)
    requires holder in s.accounts
    ensures StandingKept(s, Flows.CredentialsChanged(policy, s, holder), user)
  {
    var s' := Flows.CredentialsChanged(policy, s, holder);
    if EmailVerified(s.addresses, user) {
      VerifiedKept(s.addresses, s'.addresses, user);
    }
  }

  lemma PasswordKeepsStanding(policy: Policy, s: State, r: Flows.Request, user: UserId)
    requires r.ResetPassword? || r.ChangePassword? || r.SetPassword?
    ensures StandingKept(s, Flows.Serve(policy, s, r).0, user)
  {
    if r.ChangePassword? {
      if r.user in s.accounts {
        ChangeKeepsStanding(policy, s, r.user, user);
      }
    } else if r.capability in s.issued && s.issued[r.capability].user in s.accounts {
      var purpose := if r.ResetPassword? then PassResetAccess else PassSetAccess;
      ChangeKeepsStanding(policy, s.(tokens := TokenDropped(s.tokens, r.capability, purpose)),
          s.issued[r.capability].user, user);
    }
  }

  lemma FollowKeepsStanding(policy: Policy, s: State, key: TokenId, names: Option<Address>, user: UserId)
    ensures StandingKept(s, Flows.FollowConfirmationKey(policy, s, key, names).0, user)
  {
    if names.Some? && EmailVerified(s.addresses, user) {
      ConfirmedKeeps(s.addresses, names.value, user);
    }
  }

  lemma SetupKeepsStanding(policy: Policy, s: State, r: Flows.Request, user: UserId)
    requires r.BeginSetup? || r.Activate?
    ensures StandingKept(s, Flows.Serve(policy, s, r).0, user)
  {
    SetupUserHandsNothing(s, r.caller, r.bootstrap);
  }

  lemma AddAccountKeepsStanding(policy: Policy, s: State, r: Flows.Request, user: UserId)
    requires r.AddAccount?
    ensures StandingKept(s, Flows.Serve(policy, s, r).0, user)
  {
    if EmailVerified(s.addresses, user) {
      VerifiedKept(s.addresses, s.addresses + [Address(r.email, r.user, false, true)], user);
    }
  }

  /** The flows that only touch single-use tokens. */
  lemma TokenFlows(policy: Policy, s: State, r: Flows.Request)
    requires r.RequestReset? || r.OpenReset? || r.SendConfirmation? || r.Login? || r.Verify?
    ensures Flows.Serve(policy, s, r).0.accounts == s.accounts && Flows.Serve(policy, s, r).0.addresses == s.addresses
  {
  }

  lemma FlowKeepsStanding(policy: Policy, s: State, r: Flows.Request, user: UserId)
    ensures StandingKept(s, Flows.Serve(policy, s, r).0, user)
  {
    match r
    case ResetPassword(_, _) => PasswordKeepsStanding(policy, s, r, user);
    case ChangePassword(_, _) => PasswordKeepsStanding(policy, s, r, user);
    case SetPassword(_, _) => PasswordKeepsStanding(policy, s, r, user);
    case FollowKey(key, names) => FollowKeepsStanding(policy, s, key, names, user);
    case BeginSetup(_, _) => SetupKeepsStanding(policy, s, r, user);
    case Activate(_, _, _) => SetupKeepsStanding(policy, s, r, user);
    case AddAccount(_, _, _) => AddAccountKeepsStanding(policy, s, r, user);
    case SetActive(_, _) =>
    case AskReserved(_) =>
    case Wait(_) =>
    case RunPurge =>
    case _ => TokenFlows(policy, s, r);
  }

  // -------------------------------------------------------- the three that delete

  lemma ErasedKeepsStanding(s: State, gone: set<UserId>, user: UserId)
    requires user !in gone
    ensures StandingKept(s, Erased(s, gone), user)
  {
    if EmailVerified(s.addresses, user) {
      VerifiedKept(s.addresses, Erased(s, gone).addresses, user);
    }
  }

  lemma ArrivalKeepsStanding(s: State, s': State, newcomer: UserId, account: Account, more: seq<Address>, user: UserId)
    requires newcomer !in s.accounts
    requires s'.accounts == s.accounts[newcomer := account] && s'.addresses == s.addresses + more
    ensures StandingKept(s, s', user)
  {
    if EmailVerified(s.addresses, user) {
      VerifiedKept(s.addresses, s'.addresses, user);
    }
  }

  lemma RegisterKeeps(policy: Policy, site: Site, s: State, r: Request, user: UserId)
    requires r.Register? && Claimed(s, user)
    ensures StandingKept(s, Serve(policy, site, s, r), user)
  {
    var claim := ClaimOf(policy, site, Form(true, r.hides), s, r.email, false);
    if claim.Claimed? && r.newcomer !in s.accounts {
      if user in claim.gone {
        ClaimTakesNobodys(policy, site, Form(true, r.hides), s, r.email, false, user);
      }
      var left := Erased(s, claim.gone);
      ErasedKeepsStanding(s, claim.gone, user);
      ArrivalKeepsStanding(left, Serve(policy, site, s, r), r.newcomer, r.account,
                           [Address(r.email, r.newcomer, !site.verificationEnabled, true)], user);
    }
  }

  lemma InviteKeeps(policy: Policy, site: Site, s: State, r: Request, user: UserId)
    requires r.Invite? && Claimed(s, user)
    ensures StandingKept(s, Serve(policy, site, s, r), user)
  {
    var claim := ClaimOf(policy, site, INVITING, s, r.email, false);
    if claim.Claimed? && policy.invitations && r.newcomer !in s.accounts {
      if user in claim.gone {
        ClaimTakesNobodys(policy, site, INVITING, s, r.email, false, user);
      }
      var left := Erased(s, claim.gone);
      ErasedKeepsStanding(s, claim.gone, user);
      ArrivalKeepsStanding(left, Serve(policy, site, s, r), r.newcomer, r.account.(usablePassword := false),
                           [Address(r.email, r.newcomer, false, true)], user);
    }
  }

  /** A login that is let in either creates the newcomer or changes nothing but the stamp. */
  lemma SocialShape(policy: Policy, site: Site, s: State, r: Request)
    requires r.Social? && r.newcomer !in s.accounts
    requires Authenticate(policy, site, s, r.login, r.newcomer, r.account).Ok?
    ensures var admission := Authenticate(policy, site, s, r.login, r.newcomer, r.account).value;
      admission.s == Stamped(site,
        if admission.user == r.newcomer && r.login.connected.None?
        then SignedUpSocially(s, Removed(policy, s, r.login), r.newcomer, r.account, r.login.emails) else s,
        admission.user)
    ensures var user := Authenticate(policy, site, s, r.login, r.newcomer, r.account).value.user;
      user != r.newcomer ==> user in s.accounts
  {
    var verdict := VerdictOn(policy, s, r.login.linking, VerifiedEmails(r.login.emails));
    if verdict.Link? {
      assert verdict.owner == Authenticate(policy, site, s, r.login, r.newcomer, r.account).value.user
        || r.login.connected.Some?;
    }
  }

  lemma SignedUpKeeps(s: State, gone: set<UserId>, newcomer: UserId, account: Account, emails: seq<Vouched>,
          user: UserId)
    requires newcomer !in s.accounts && user !in gone
    ensures StandingKept(s, SignedUpSocially(s, gone, newcomer, account, emails), user)
  {
    ErasedKeepsStanding(s, gone, user);
    ArrivalKeepsStanding(Erased(s, gone), SignedUpSocially(s, gone, newcomer, account, emails), newcomer,
                         account.(usablePassword := false), Grafted(newcomer, emails), user);
  }

  lemma RemovedAreNobodys(policy: Policy, s: State, login: SocialLogin, user: UserId)
    requires user in Removed(policy, s, login)
    ensures !AccountIsClaimed(policy, s, Some(user), true)
  {
    VerdictIsSound(policy, s, login.linking, VerifiedEmails(login.emails), user);
    QuestionsExactly(policy, s, user, true);
  }

  lemma SocialKeeps(policy: Policy, site: Site, s: State, r: Request, user: UserId)
    requires r.Social? && Claimed(s, user)
    ensures StandingKept(s, Serve(policy, site, s, r), user)
  {
    var gone := Removed(policy, s, r.login);
    if user in gone {
      RemovedAreNobodys(policy, s, r.login, user);
    } else if r.newcomer !in s.accounts && Authenticate(policy, site, s, r.login, r.newcomer, r.account).Ok? {
      SocialShape(policy, site, s, r);
      SignedUpKeeps(s, gone, r.newcomer, r.account, r.login.emails, user);
    }
  }

  lemma ClaimedStep(policy: Policy, site: Site, s: State, r: Request, user: UserId)
    requires Claimed(s, user)
    ensures Claimed(Serve(policy, site, s, r), user)
  {
    match r
    case Flow(request) => FlowKeepsStanding(policy, s, request, user);
    case Register(_, _, _, _) => RegisterKeeps(policy, site, s, r, user);
    case Invite(_, _, _) => InviteKeeps(policy, site, s, r, user);
    case Social(_, _, _) => SocialKeeps(policy, site, s, r, user);
  }

  /**
   Claimed accounts are indestructible: no run of registrations, invitations, social logins
   and any other flow removes an account that has logged in, is privileged or has a confirmed
   address, nor takes that standing away.
   */
  lemma {:induction false} ClaimedAccountsSurvive(policy: Policy, site: Site, s: State, run: seq<Request>, user: UserId)
    requires Claimed(s, user)
    ensures Claimed(After(policy, site, s, run), user)
    decreases |run|
  {
    if run != [] {
      ClaimedStep(policy, site, s, run[0], user);
      ClaimedAccountsSurvive(policy, site, Serve(policy, site, s, run[0]), run[1..], user);
    }
  }

  // ------------------------------------------------- how an account is confirmed

  /**
   The requests that can confirm an address of an account: a key that names it, its own sign-up
   where nothing is verified, or its own sign-up by a provider that vouches for an address.
   */
  predicate Confirms(site: Site, r: Request, user: UserId) {
    match r
    case Flow(FollowKey(_, names)) => names.Some? && names.value.user == user
    case Flow(_) => false
    case Register(_, _, newcomer, _) => newcomer == user && !site.verificationEnabled
    case Invite(_, _, _) => false
    case Social(login, newcomer, _) => newcomer == user && exists v :: v in login.emails && v.verified
  }

  lemma NothingConfirmed(rows: seq<Address>, rows': seq<Address>, user: UserId)
    requires !EmailVerified(rows, user)
    requires forall x :: x in rows' && x.user == user && x.verified ==> x in rows
    ensures !EmailVerified(rows', user)
  {
    if EmailVerified(rows', user) {
      VerifiedKept(rows', rows, user);
    }
  }

  lemma FlowConfirms(policy: Policy, s: State, r: Flows.Request, user: UserId)
    requires !EmailVerified(s.addresses, user) && !(r.FollowKey? && r.names.Some? && r.names.value.user == user)
    ensures !EmailVerified(Flows.Serve(policy, s, r).0.addresses, user)
  {
    var s' := Flows.Serve(policy, s, r).0;
    match r
    case ResetPassword(_, _) => NothingConfirmed(s.addresses, s'.addresses, user);
    case ChangePassword(_, _) => NothingConfirmed(s.addresses, s'.addresses, user);
    case SetPassword(_, _) => NothingConfirmed(s.addresses, s'.addresses, user);
    case FollowKey(key, names) =>
      if names.Some? && s'.addresses == Flows.Confirmed(s.addresses, names.value) {
        forall i | 0 <= i < |s'.addresses| && s'.addresses[i].user == user ensures s'.addresses[i] == s.addresses[i] {
        }
      }
    case BeginSetup(caller, bootstrap) => SetupUserHandsNothing(s, caller, bootstrap);
    case Activate(caller, bootstrap, _) => SetupUserHandsNothing(s, caller, bootstrap);
    case AddAccount(_, _, _) => NothingConfirmed(s.addresses, s'.addresses, user);
    case SetActive(_, _) =>
    case AskReserved(_) =>
    case Wait(_) =>
    case RunPurge =>
    case _ => TokenFlows(policy, s, r);
  }

  lemma SocialConfirms(policy: Policy, site: Site, s: State, r: Request, user: UserId)
    requires r.Social? && !EmailVerified(s.addresses, user) && !Confirms(site, r, user)
    ensures !EmailVerified(Serve(policy, site, s, r).addresses, user)
  {
    if r.newcomer !in s.accounts && Authenticate(policy, site, s, r.login, r.newcomer, r.account).Ok? {
      SocialShape(policy, site, s, r);
      NothingConfirmed(s.addresses, Serve(policy, site, s, r).addresses, user);
    }
  }

  lemma ConfirmsStep(policy: Policy, site: Site, s: State, r: Request, user: UserId)
    requires !EmailVerified(s.addresses, user) && !Confirms(site, r, user)
    ensures !EmailVerified(Serve(policy, site, s, r).addresses, user)
  {
    match r
    case Flow(request) => FlowConfirms(policy, s, request, user);
    case Social(_, _, _) => SocialConfirms(policy, site, s, r, user);
    case _ => NothingConfirmed(s.addresses, Serve(policy, site, s, r).addresses, user);
  }

  /**
   Nobody owns a mailbox for having typed its address: over any run of all flows an account gets
   its first confirmed address only by a key that names it, or by a sign-up that needs none.
   */
  lemma {:induction false} ConfirmedOnlyByLink(policy: Policy, site: Site, s: State, run: seq<Request>, user: UserId)
    requires !EmailVerified(s.addresses, user) && forall i :: 0 <= i < |run| ==> !Confirms(site, run[i], user)
    ensures !EmailVerified(After(policy, site, s, run).addresses, user)
    decreases |run|
  {
    if run != [] {
      ConfirmsStep(policy, site, s, run[0], user);
      ConfirmedOnlyByLink(policy, site, Serve(policy, site, s, run[0]), run[1..], user);
    }
  }

  // ------------------------------------------------------- reserved by invitation

  predicate HoldsEmail(s: State, user: UserId, email: Email) {
    exists i :: 0 <= i < |s.addresses| && s.addresses[i].user == user && s.addresses[i].email == email
  }

  /** The administrator invites one of the addresses of the account again. */
  predicate Reissues(s: State, r: Request, user: UserId) {
    r.Invite? && HoldsEmail(s, user, r.email)
  }

  lemma HolderIsListed(s: State, user: UserId, email: Email)
    requires exists x :: x in s.addresses && x.email == email && x.user == user
    ensures HoldsEmail(s, user, email)
  {
    var x :| x in s.addresses && x.email == email && x.user == user;
    var i :| 0 <= i < |s.addresses| && s.addresses[i] == x;
  }

  /** An account a request deletes was nobody's, and if an open invitation reserved it the request was the reissue. */
  lemma DeletedExactly(policy: Policy, site: Site, s: State, r: Request, user: UserId)
    requires user in s.accounts && user !in Serve(policy, site, s, r).accounts
    ensures !Claimed(s, user)
    ensures Flows.HasOpenInvitation(policy, s, user) ==> Reissues(s, r, user)
  {
    if Claimed(s, user) {
      ClaimedStep(policy, site, s, r, user);
    }
    match r
    case Flow(request) => FlowKeepsStanding(policy, s, request, user);
    case Register(hides, email, _, _) => ClaimTakesNobodys(policy, site, Form(true, hides), s, email, false, user);
    case Invite(email, _, _) =>
      ClaimTakesNobodys(policy, site, INVITING, s, email, false, user);
      HolderIsListed(s, user, email);
    case Social(login, _, _) =>
      SocialShape(policy, site, s, r);
      RemovedAreNobodys(policy, s, login, user);
  }
}
