/** Accounts that were invited and have not taken the invitation up, among all the other flows. */
module InvitedAccounts {
  import opened Basics
  import opened Store
  import opened MfaStorage
  import opened Purge
  import Flows = Capabilities
  import opened CapabilityInvariants
  import opened Accounts
  import opened Registration
  import opened Social
  import opened AccountRuns
  import Rotation

  /** The account waits for its invitation `t` to be followed. */
  predicate Awaits(s: State, user: UserId, t: GenericToken) {
    && user in s.accounts && !s.accounts[user].usablePassword
    && t in s.tokens && IsRow(t, user, Invitation)
  }

  predicate InTime(policy: Policy, s: State, t: GenericToken) {
    s.now - policy.confirmationWindow <= t.created
  }

  lemma AwaitedIsReserved(policy: Policy, s: State, user: UserId, t: GenericToken)
    requires Awaits(s, user, t) && InTime(policy, s, t)
    ensures Flows.HasOpenInvitation(policy, s, user)
  {
    assert t in Keep(s.tokens, Flows.InvitationsFrom(user, s.now - policy.confirmationWindow));
  }

  // ------------------------------------------------------- the other flows

  predicate HasPassword(s: State, user: UserId) {
    user in s.accounts && s.accounts[user].usablePassword
  }

  lemma ChangeLeavesOthers(policy: Policy, s: State, holder: UserId, t: GenericToken)
    requires holder in s.accounts && t in s.tokens && t.user != holder
    ensures t in Flows.CredentialsChanged(policy, s, holder).tokens
  {
    assert Rotation.OutlivesHandover(holder)(t);
  }

  lemma ResetLeaves(policy: Policy, s: State, capability: TokenId, acceptable: bool, user: UserId, t: GenericToken)
    requires Awaits(s, user, t)
    ensures var s' := Flows.RedeemReset(policy, s, capability, acceptable).0; HasPassword(s', user) || t in s'.tokens
  {
    if capability in s.issued && s.issued[capability].user in s.accounts {
      var spent := s.(tokens := TokenDropped(s.tokens, capability, PassResetAccess));
      assert t in spent.tokens;
      if s.issued[capability].user != user {
        ChangeLeavesOthers(policy, spent, s.issued[capability].user, t);
      }
    }
  }

  lemma CompletionLeaves(policy: Policy, s: State, holder: UserId, user: UserId, t: GenericToken)
    requires Awaits(s, user, t) && holder in s.accounts
    ensures var s' := Flows.CompleteInvitation(policy, s, holder).0; HasPassword(s', user) || t in s'.tokens
  {
    if holder != user {
      ChangeLeavesOthers(policy, s, holder, t);
      var changed := Flows.CredentialsChanged(policy, s, holder);
      var once := RowsDropped(changed.tokens, holder, Invitation);
      var settled := RowsDropped(once, holder, EmailConfirmation);
      assert t in once && t in settled && t in ExpiredPurged(settled, holder, SetupChallenge, s.now);
    }
  }

  lemma InvitationLeaves(policy: Policy, s: State, capability: TokenId, acceptable: bool, user: UserId, t: GenericToken)
    requires Awaits(s, user, t)
    ensures var s' := Flows.RedeemInvitation(policy, s, capability, acceptable).0;
      HasPassword(s', user) || t in s'.tokens
  {
    if capability in s.issued && s.issued[capability].user in s.accounts {
      var spent := s.(tokens := TokenDropped(s.tokens, capability, PassSetAccess));
      assert t in spent.tokens;
      CompletionLeaves(policy, spent, s.issued[capability].user, user, t);
    }
  }

  lemma PasswordLeaves(policy: Policy, s: State, r: Flows.Request, user: UserId, t: GenericToken)
    requires (r.ResetPassword? || r.ChangePassword? || r.SetPassword?) && Awaits(s, user, t)
    ensures var s' := Flows.Serve(policy, s, r).0; HasPassword(s', user) || t in s'.tokens
  {
    match r
    case ResetPassword(capability, acceptable) => ResetLeaves(policy, s, capability, acceptable, user, t);
    case SetPassword(capability, acceptable) => InvitationLeaves(policy, s, capability, acceptable, user, t);
    case ChangePassword(holder, _) =>
      if holder in s.accounts && holder != user {
        ChangeLeavesOthers(policy, s, holder, t);
      }
  }

  lemma LinkLeaves(policy: Policy, s: State, r: Flows.Request, user: UserId, t: GenericToken)
    requires (r.RequestReset? || r.OpenReset? || r.SendConfirmation? || r.FollowKey?) && Awaits(s, user, t)
    ensures t in Flows.Serve(policy, s, r).0.tokens
  {
    match r
    case RequestReset(holder, _) =>
      assert t in Flows.Hand(s, holder, PassReset).0.tokens && Flows.NotSuperseded(holder, PassReset, s.next)(t);
    case OpenReset(link, _) =>
      var spent := TokenDropped(s.tokens, link, PassReset);
      if link in s.issued {
        assert t in spent && t in RowsDropped(spent, s.issued[link].user, PassResetAccess);
      }
    case FollowKey(key, _) =>
      var entry := Flows.EntryOf(policy, s, key);
      if entry.Some? {
        assert t in RowsDropped(s.tokens, entry.value.user, PassSetAccess);
      }
    case SendConfirmation(_, _) =>
  }

  lemma LoginLeaves(policy: Policy, s: State, holder: UserId, user: UserId, t: GenericToken)
    requires Awaits(s, user, t)
    ensures t in Flows.GateLogin(policy, s, holder).0.tokens
  {
    var aged := AttemptsPurged(policy.limits, s.tokens, holder, s.now);
    assert t in aged && t in ExpiredPurged(aged, holder, LoginChallenge, s.now);
    assert t in ExpiredPurged(s.tokens, holder, SetupChallenge, s.now);
  }

  lemma RecordedLeaves(limits: Limits, tokens: seq<GenericToken>, holder: UserId, challenge: TokenId, now: int,
          t: GenericToken)
    requires t in tokens && t.purpose == Invitation
    ensures t in Recorded(limits, tokens, holder, challenge, now).0
  {
    var counted := WithFailure(limits, tokens, holder, challenge, now);
    assert t in AttemptsPurged(limits, tokens, holder, now) && t in counted;
    assert t in RowsDropped(counted, holder, LoginChallenge) && t in TokenDropped(counted, challenge, LoginChallenge);
  }

  lemma VerifyLeaves(policy: Policy, s: State, challenge: TokenId, enrolled: bool, right: bool, user: UserId,
          t: GenericToken)
    requires Awaits(s, user, t)
    ensures t in Flows.VerifyCode(policy, s, challenge, enrolled, right).0.tokens
  {
    var row := CredentialRow(s.tokens, challenge, LoginChallenge);
    if row.Some? {
      var holder := row.value.user;
      assert t in Keep(s.tokens, OtherThan(row.value));
      RecordedLeaves(policy.limits, s.tokens, holder, challenge, s.now, t);
      var dropped := TokenDropped(s.tokens, challenge, LoginChallenge);
      assert t in dropped && t in RowsDropped(dropped, holder, LoginAttempt);
    }
  }

  lemma SetupUserLeaves(s: State, caller: Option<UserId>, bootstrap: Option<TokenId>, user: UserId, t: GenericToken)
    requires Awaits(s, user, t)
    ensures Awaits(Flows.SetupUser(s, caller, bootstrap).0, user, t)
  {
  }

  lemma SetupLeaves(policy: Policy, s: State, caller: Option<UserId>, bootstrap: Option<TokenId>, user: UserId,
          t: GenericToken)
    requires Awaits(s, user, t)
    ensures t in Flows.BeginTotpSetup(policy, s, caller, bootstrap).0.tokens
  {
    SetupUserLeaves(s, caller, bootstrap, user, t);
    var (asked, holder) := Flows.SetupUser(s, caller, bootstrap);
    if holder.Some? {
      assert t in RowsDropped(asked.tokens, holder.value, SetupSecret);
    }
  }

  lemma SecretLeaves(s: State, holder: UserId, bootstrap: Option<TokenId>, right: bool, user: UserId, t: GenericToken)
    requires Awaits(s, user, t) && holder in s.accounts
    ensures t in Flows.SpendSecret(s, holder, bootstrap, right).0.tokens
  {
    var spent := RowsDropped(s.tokens, holder, SetupSecret);
    assert t in spent;
    if bootstrap.Some? {
      assert t in TokenDropped(spent, bootstrap.value, SetupChallenge);
    }
  }

  lemma ActivateLeaves(policy: Policy, s: State, caller: Option<UserId>, bootstrap: Option<TokenId>, right: bool,
          user: UserId, t: GenericToken)
    requires Awaits(s, user, t)
    ensures t in Flows.ActivateTotp(policy, s, caller, bootstrap, right).0.tokens
  {
    SetupUserLeaves(s, caller, bootstrap, user, t);
    var (asked, holder) := Flows.SetupUser(s, caller, bootstrap);
    if holder.Some? && holder.value in asked.accounts {
      SecretLeaves(asked, holder.value, bootstrap, right, user, t);
    }
  }

  lemma PurgeLeaves(policy: Policy, s: State, user: UserId, t: GenericToken)
    requires KeepsBuiltIns(policy) && Awaits(s, user, t) && InTime(policy, s, t)
    ensures t in PurgedTokens(Retentions(policy), s.now, s.tokens)
  {
    RetentionCovers(policy, Invitation);
    assert !PastRetention(Retentions(policy), s.now, t);
  }

  /** No flow takes a live invitation from an account but one that gives it a password. */
  lemma FlowLeaves(policy: Policy, s: State, r: Flows.Request, user: UserId, t: GenericToken)
    requires KeepsBuiltIns(policy) && Awaits(s, user, t) && InTime(policy, s, t)
    ensures var s' := Flows.Serve(policy, s, r).0; HasPassword(s', user) || t in s'.tokens
  {
    match r
    case ResetPassword(_, _) => PasswordLeaves(policy, s, r, user, t);
    case ChangePassword(_, _) => PasswordLeaves(policy, s, r, user, t);
    case SetPassword(_, _) => PasswordLeaves(policy, s, r, user, t);
    case Login(holder) => LoginLeaves(policy, s, holder, user, t);
    case Verify(challenge, enrolled, right) => VerifyLeaves(policy, s, challenge, enrolled, right, user, t);
    case BeginSetup(caller, bootstrap) => SetupLeaves(policy, s, caller, bootstrap, user, t);
    case Activate(caller, bootstrap, right) => ActivateLeaves(policy, s, caller, bootstrap, right, user, t);
    case RunPurge => PurgeLeaves(policy, s, user, t);
    case AddAccount(_, _, _) =>
    case SetActive(_, _) =>
    case AskReserved(_) =>
    case Wait(_) =>
    case _ => LinkLeaves(policy, s, r, user, t);
  }

  /** The account has no address it did not have before. */
  ghost predicate NoNewEmail(s: State, s': State, user: UserId) {
    forall x' :: x' in s'.addresses && x'.user == user ==> HoldsEmail(s, user, x'.email)
  }

  lemma SameEmails(s: State, s': State, user: UserId)
    requires forall x :: x in s'.addresses && x.user == user ==> x in s.addresses
    ensures NoNewEmail(s, s', user)
  {
    forall x | x in s'.addresses && x.user == user ensures HoldsEmail(s, user, x.email) {
      HolderIsListed(s, user, x.email);
    }
  }

  lemma ConfirmedEmails(s: State, s': State, names: Address, user: UserId)
    requires s'.addresses == Flows.Confirmed(s.addresses, names)
    ensures NoNewEmail(s, s', user)
  {
    forall x' | x' in s'.addresses && x'.user == user ensures HoldsEmail(s, user, x'.email) {
      var i :| 0 <= i < |s'.addresses| && s'.addresses[i] == x';
      assert s.addresses[i].user == user && s.addresses[i].email == x'.email;
    }
  }

  lemma FollowEmails(policy: Policy, s: State, key: TokenId, names: Option<Address>, user: UserId)
    ensures NoNewEmail(s, Flows.FollowConfirmationKey(policy, s, key, names).0, user)
  {
    var s' := Flows.FollowConfirmationKey(policy, s, key, names).0;
    if names.Some? && s'.addresses == Flows.Confirmed(s.addresses, names.value) {
      ConfirmedEmails(s, s', names.value, user);
    } else {
      SameEmails(s, s', user);
    }
  }

  lemma FlowEmails(policy: Policy, s: State, r: Flows.Request, user: UserId)
    requires user in s.accounts
    ensures NoNewEmail(s, Flows.Serve(policy, s, r).0, user)
  {
    if r.FollowKey? {
      FollowEmails(policy, s, r.key, r.names, user);
    } else {
      FlowAddresses(policy, s, r, user);
      SameEmails(s, Flows.Serve(policy, s, r).0, user);
    }
  }

  lemma FlowAddresses(policy: Policy, s: State, r: Flows.Request, user: UserId)
    requires user in s.accounts && !r.FollowKey?
    ensures forall x :: x in Flows.Serve(policy, s, r).0.addresses && x.user == user ==> x in s.addresses
  {
    match r
    case ResetPassword(_, _) => PasswordAddresses(policy, s, r);
    case ChangePassword(_, _) => PasswordAddresses(policy, s, r);
    case SetPassword(_, _) => PasswordAddresses(policy, s, r);
    case BeginSetup(caller, bootstrap) => SetupUserHandsNothing(s, caller, bootstrap);
    case Activate(caller, bootstrap, _) => SetupUserHandsNothing(s, caller, bootstrap);
    case AddAccount(_, _, _) =>
    case SetActive(_, _) =>
    case AskReserved(_) =>
    case Wait(_) =>
    case RunPurge =>
    case _ => TokenFlows(policy, s, r);
  }

  lemma PasswordAddresses(policy: Policy, s: State, r: Flows.Request)
    requires r.ResetPassword? || r.ChangePassword? || r.SetPassword?
    ensures forall x :: x in Flows.Serve(policy, s, r).0.addresses ==> x in s.addresses
  {
  }

  // --------------------------------------------------------------- all the flows

  /** The account is still there and waits for its invitation, unless it has a password now; it has no new address. */
  ghost predicate Leaves(s: State, s': State, user: UserId, t: GenericToken) {
    (HasPassword(s', user) || Awaits(s', user, t)) && NoNewEmail(s, s', user) && s.now <= s'.now
  }

  lemma FlowStep(policy: Policy, s: State, r: Flows.Request, user: UserId, t: GenericToken)
    requires KeepsBuiltIns(policy) && Awaits(s, user, t) && InTime(policy, s, t)
    ensures Leaves(s, Flows.Serve(policy, s, r).0, user, t)
  {
    FlowLeaves(policy, s, r, user, t);
    FlowEmails(policy, s, r, user);
    FlowKeepsStanding(policy, s, r, user);
    HandsStep(policy, s, r);
  }

  lemma SignUpLeaves(policy: Policy, site: Site, s: State, r: Request, user: UserId, t: GenericToken)
    requires (r.Register? || r.Invite?) && Awaits(s, user, t) && user in Serve(policy, site, s, r).accounts
    ensures Leaves(s, Serve(policy, site, s, r), user, t)
  {
    SameEmails(s, Serve(policy, site, s, r), user);
  }

  lemma StampLeaves(site: Site, s: State, other: UserId, user: UserId, t: GenericToken)
    requires Awaits(s, user, t)
    ensures Leaves(s, Stamped(site, s, other), user, t)
  {
    SameEmails(s, Stamped(site, s, other), user);
  }

  lemma SignedUpLeaves(s: State, gone: set<UserId>, newcomer: UserId, account: Account, emails: seq<Vouched>,
          user: UserId, t: GenericToken)
    requires Awaits(s, user, t) && newcomer !in s.accounts && user !in gone
    ensures Leaves(s, SignedUpSocially(s, gone, newcomer, account, emails), user, t)
  {
    SameEmails(s, SignedUpSocially(s, gone, newcomer, account, emails), user);
  }

  lemma SocialLeaves(policy: Policy, site: Site, s: State, r: Request, user: UserId, t: GenericToken)
    requires r.Social? && Awaits(s, user, t) && user in Serve(policy, site, s, r).accounts
    ensures Leaves(s, Serve(policy, site, s, r), user, t)
  {
    var admission := Authenticate(policy, site, s, r.login, r.newcomer, r.account);
    if r.newcomer !in s.accounts && admission.Ok? {
      SocialShape(policy, site, s, r);
      var gone := Removed(policy, s, r.login);
      if admission.value.user == r.newcomer && r.login.connected.None? && user !in gone {
        var mid := SignedUpSocially(s, gone, r.newcomer, r.account, r.login.emails);
        SignedUpLeaves(s, gone, r.newcomer, r.account, r.login.emails, user, t);
        StampLeaves(site, mid, r.newcomer, user, t);
      } else {
        StampLeaves(site, s, admission.value.user, user, t);
      }
    }
  }

  /** A request that does not remove the account leaves its invitation, or gives it a password. */
  lemma StepLeaves(policy: Policy, site: Site, s: State, r: Request, user: UserId, t: GenericToken)
    requires KeepsBuiltIns(policy) && Awaits(s, user, t) && InTime(policy, s, t)
    requires user in Serve(policy, site, s, r).accounts
    ensures Leaves(s, Serve(policy, site, s, r), user, t)
  {
    match r
    case Flow(request) => FlowStep(policy, s, request, user, t);
    case Social(_, _, _) => SocialLeaves(policy, site, s, r, user, t);
    case _ => SignUpLeaves(policy, site, s, r, user, t);
  }

  lemma ReservedStep(policy: Policy, site: Site, s: State, r: Request, user: UserId, t: GenericToken)
    requires KeepsBuiltIns(policy) && Awaits(s, user, t) && InTime(policy, s, t) && !Reissues(s, r, user)
    ensures Leaves(s, Serve(policy, site, s, r), user, t)
  {
    AwaitedIsReserved(policy, s, user, t);
    if user !in Serve(policy, site, s, r).accounts {
      DeletedExactly(policy, site, s, r, user);
    }
    StepLeaves(policy, site, s, r, user, t);
  }

  lemma NotEarlier(policy: Policy, site: Site, s: State, r: Request)
    ensures s.now <= Serve(policy, site, s, r).now
  {
    if r.Flow? {
      HandsStep(policy, s, r.request);
    }
  }

  lemma {:induction false} TimePasses(policy: Policy, site: Site, s: State, run: seq<Request>)
    ensures s.now <= After(policy, site, s, run).now
    decreases |run|
  {
    if run != [] {
      NotEarlier(policy, site, s, run[0]);
      TimePasses(policy, site, Serve(policy, site, s, run[0]), run[1..]);
    }
  }

  /** Along the run, from the first password of the account on, somebody has confirmed an address of it or used it. */
  ghost predicate TakenUp(policy: Policy, site: Site, s: State, run: seq<Request>, user: UserId)
    decreases |run|
  {
    && (HasPassword(s, user) ==> AccountRuns.Claimed(s, user))
    && (run == [] || TakenUp(policy, site, Serve(policy, site, s, run[0]), run[1..], user))
  }

  lemma StillNoReissue(policy: Policy, site: Site, s: State, r: Request, later: Request, user: UserId)
    requires NoNewEmail(s, Serve(policy, site, s, r), user)
    ensures Reissues(Serve(policy, site, s, r), later, user) ==> Reissues(s, later, user)
  {
    var s' := Serve(policy, site, s, r);
    if later.Invite? && HoldsEmail(s', user, later.email) {
      var i :| 0 <= i < |s'.addresses| && s'.addresses[i].user == user && s'.addresses[i].email == later.email;
      assert HoldsEmail(s, user, s'.addresses[i].email);
    }
  }

  /**
   An invited account survives every run of all flows, purges included, for as long as its
   link lives: it still waits for the invitation, or it was taken up and is claimed. Only the
   administrator inviting one of its addresses again removes it. What is asked of the run is
   that the account is not given a password before somebody has confirmed an address of it.
   */
  lemma {:induction false} InvitedAccountsSurvive(policy: Policy, site: Site, s: State, run: seq<Request>,
          user: UserId, t: GenericToken)
    requires KeepsBuiltIns(policy) && Awaits(s, user, t) && InTime(policy, After(policy, site, s, run), t)
    requires TakenUp(policy, site, s, run, user)
    requires forall i :: 0 <= i < |run| ==> !Reissues(s, run[i], user)
    ensures Awaits(After(policy, site, s, run), user, t) || AccountRuns.Claimed(After(policy, site, s, run), user)
    decreases |run|
  {
    if run != [] {
      var s' := Serve(policy, site, s, run[0]);
      TimePasses(policy, site, s, run);
      ReservedStep(policy, site, s, run[0], user, t);
      if Awaits(s', user, t) {
        forall i | 0 <= i < |run[1..]| ensures !Reissues(s', run[1..][i], user) {
          StillNoReissue(policy, site, s, run[0], run[1..][i], user);
        }
        InvitedAccountsSurvive(policy, site, s', run[1..], user, t);
      } else {
        ClaimedAccountsSurvive(policy, site, s', run[1..], user);
      }
    }
  }
}
