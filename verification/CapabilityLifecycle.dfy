/**
 The life of a credential: what supersedes it, what spends it, what a change of credentials
 does to it, and that a dead one is never honoured again.
 */
module CapabilityLifecycle {
  import opened Basics
  import opened Store
  import opened MfaStorage
  import opened Purge
  import opened Capabilities
  import opened CapabilityInvariants
  import Rotation

  /** Handed out in the past, and nothing in the table stands for it any more. */
  ghost predicate Dead(s: State, id: TokenId) {
    id < s.next && forall t :: t in s.tokens && Tracked(t.purpose) ==> t.token != id
  }

  /**
   The request presents `id`, or acts on the secret stored under it, and is let through. A key
   whose row is gone may still confirm an address while sign-up is open, for the ordinary
   confirmation does not look at the row; where registration is closed it does nothing.
   */
  predicate Honours(policy: Policy, r: Request, answer: Answer, id: TokenId) {
    match r
    case OpenReset(link, _) => link == id && answer.Handed?
    case ResetPassword(capability, _) => capability == id && answer != Denied
    case SetPassword(capability, _) => capability == id && answer != Denied && answer != NotFound
    case FollowKey(key, _) =>
      key == id && (answer.Handed? || (policy.invitations && !policy.selfRegistration && answer != BadLink))
    case Verify(challenge, _, _) => challenge == id && answer != Denied
    case BeginSetup(caller, bootstrap) => caller.None? && bootstrap == Some(id) && answer != Denied
    case Activate(caller, bootstrap, _) =>
      || (caller.None? && bootstrap == Some(id) && answer != Denied)
      || (answer.Activated? && answer.secret == id)
    case _ => false
  }

  ghost predicate NeverHonoured(policy: Policy, s: State, run: seq<Request>, id: TokenId)
    decreases |run|
  {
    run == [] ||
    (!Honours(policy, run[0], Serve(policy, s, run[0]).1, id)
     && NeverHonoured(policy, Serve(policy, s, run[0]).0, run[1..], id))
  }

  // ----------------------------------------------------- the dead stay dead

  /** Whatever a request leaves in the table was there before, is a failed attempt, or has a new id. */
  ghost predicate NoReturn(s: State, s': State) {
    s.next <= s'.next
    && forall t :: t in s'.tokens ==> t in s.tokens || t.purpose == LoginAttempt || t.token == s.next
  }

  lemma PasswordNoReturn(policy: Policy, s: State, r: Request)
    requires r.RequestReset? || r.OpenReset? || r.ResetPassword? || r.ChangePassword? || r.SendConfirmation?
      || r.FollowKey?
    ensures NoReturn(s, Serve(policy, s, r).0)
  {
  }

  lemma InvitationNoReturn(policy: Policy, s: State, capability: TokenId, acceptable: bool)
    ensures NoReturn(s, RedeemInvitation(policy, s, capability, acceptable).0)
  {
  }

  lemma SetupUserNoReturn(s: State, caller: Option<UserId>, bootstrap: Option<TokenId>)
    ensures NoReturn(s, SetupUser(s, caller, bootstrap).0)
  {
  }

  lemma SetupNoReturn(policy: Policy, s: State, r: Request)
    requires r.BeginSetup? || r.Activate?
    ensures NoReturn(s, Serve(policy, s, r).0)
  {
    var asked := SetupUser(s, r.caller, r.bootstrap).0;
    SetupUserHandsNothing(s, r.caller, r.bootstrap);
    SetupUserNoReturn(s, r.caller, r.bootstrap);
    assert NoReturn(asked, Serve(policy, s, r).0);
  }

  lemma VerifyNoReturn(policy: Policy, s: State, challenge: TokenId, enrolled: bool, right: bool)
    ensures NoReturn(s, VerifyCode(policy, s, challenge, enrolled, right).0)
  {
  }

  lemma NoReturnStep(policy: Policy, s: State, r: Request)
    ensures NoReturn(s, Serve(policy, s, r).0)
  {
    match r
    case SetPassword(capability, acceptable) => InvitationNoReturn(policy, s, capability, acceptable);
    case BeginSetup(_, _) => SetupNoReturn(policy, s, r);
    case Activate(_, _, _) => SetupNoReturn(policy, s, r);
    case Verify(challenge, enrolled, right) => VerifyNoReturn(policy, s, challenge, enrolled, right);
    case Login(_) =>
    case AddAccount(_, _, _) =>
    case SetActive(_, _) =>
    case AskReserved(_) =>
    case Wait(_) =>
    case RunPurge =>
    case _ => PasswordNoReturn(policy, s, r);
  }

  lemma DeadStays(policy: Policy, s: State, r: Request, id: TokenId)
    requires Dead(s, id)
    ensures Dead(Serve(policy, s, r).0, id)
  {
    NoReturnStep(policy, s, r);
  }

  lemma DeadIsAbsent(s: State, id: TokenId, purpose: Purpose)
    requires Dead(s, id) && Tracked(purpose)
    ensures Keep(s.tokens, TokensOf(id, purpose)) == []
  {
    KeepNone(s.tokens, TokensOf(id, purpose));
  }

  lemma DeadNeedsNoEntry(policy: Policy, s: State, key: TokenId)
    requires Dead(s, key)
    ensures EntryOf(policy, s, key).None?
  {
    KeepNone(s.tokens, EntriesOf(key, s.now - policy.confirmationWindow));
  }

  lemma DeadSecret(policy: Policy, s: State, caller: Option<UserId>, bootstrap: Option<TokenId>, right: bool,
          id: TokenId)
    requires Dead(s, id)
    ensures var answer := ActivateTotp(policy, s, caller, bootstrap, right).1; answer.Activated? ==> answer.secret != id
  {
    var (asked, user) := SetupUser(s, caller, bootstrap);
    SetupUserNoReturn(s, caller, bootstrap);
    if user.Some? {
      var row := UserRow(asked.tokens, user.value, SetupSecret);
      assert row.Some? ==> row.value in s.tokens;
    }
  }

  lemma DeadRefused(policy: Policy, s: State, r: Request, id: TokenId)
    requires Dead(s, id)
    ensures !Honours(policy, r, Serve(policy, s, r).1, id)
  {
    match r
    case OpenReset(link, _) => if link == id { DeadIsAbsent(s, id, PassReset); }
    case ResetPassword(capability, _) => if capability == id { DeadIsAbsent(s, id, PassResetAccess); }
    case SetPassword(capability, _) => if capability == id { DeadIsAbsent(s, id, PassSetAccess); }
    case FollowKey(key, _) => if key == id { DeadNeedsNoEntry(policy, s, key); }
    case Verify(challenge, _, _) => if challenge == id { DeadIsAbsent(s, id, LoginChallenge); }
    case BeginSetup(caller, bootstrap) => if bootstrap == Some(id) { DeadIsAbsent(s, id, SetupChallenge); }
    case Activate(caller, bootstrap, right) =>
      DeadSecret(policy, s, caller, bootstrap, right, id);
      if bootstrap == Some(id) { DeadIsAbsent(s, id, SetupChallenge); }
    case _ =>
  }

  /** A dead credential is refused by every request of every continuation. */
  lemma {:induction false} DeadForGood(policy: Policy, s: State, run: seq<Request>, id: TokenId)
    requires Dead(s, id)
    ensures NeverHonoured(policy, s, run, id)
    decreases |run|
  {
    if run != [] {
      DeadRefused(policy, s, run[0], id);
      DeadStays(policy, s, run[0], id);
      DeadForGood(policy, Serve(policy, s, run[0]).0, run[1..], id);
    }
  }

  // ---------------------------------------------------------------- single use

  /** Every row under the id carries the purpose it was handed out for. */
  lemma SpentIsDead(s: State, s': State, id: TokenId, purpose: Purpose)
    requires Inv(s) && id in s.issued && s.issued[id].purpose == purpose && NoReturn(s, s')
    requires forall t :: t in s'.tokens ==> !IsToken(t, id, purpose)
    ensures Dead(s', id)
  {
    forall t | t in s'.tokens && Tracked(t.purpose) ensures t.token != id {
      assert t in s.tokens ==> RowIssued(s, t);
    }
  }

  lemma OpenResetSpends(policy: Policy, s: State, link: TokenId, signed: bool)
    requires Inv(s) && OpenResetLink(policy, s, link, signed).1.Handed?
    ensures Dead(OpenResetLink(policy, s, link, signed).0, link)
  {
    var s' := OpenResetLink(policy, s, link, signed).0;
    PasswordNoReturn(policy, s, OpenReset(link, signed));
    SpentIsDead(s, s', link, PassReset);
  }

  lemma RedeemSpends(policy: Policy, s: State, capability: TokenId, acceptable: bool)
    requires Inv(s) && RedeemReset(policy, s, capability, acceptable).1 != Denied
    ensures Dead(RedeemReset(policy, s, capability, acceptable).0, capability)
  {
    PasswordNoReturn(policy, s, ResetPassword(capability, acceptable));
    SpentIsDead(s, RedeemReset(policy, s, capability, acceptable).0, capability, PassResetAccess);
  }

  lemma InvitationSpends(policy: Policy, s: State, capability: TokenId, acceptable: bool)
    requires Inv(s) && RedeemInvitation(policy, s, capability, acceptable).1 !in {Denied, NotFound}
    ensures Dead(RedeemInvitation(policy, s, capability, acceptable).0, capability)
  {
    var s' := RedeemInvitation(policy, s, capability, acceptable).0;
    InvitationNoReturn(policy, s, capability, acceptable);
    assert capability < s.next;
    forall t | t in s'.tokens ensures !IsToken(t, capability, PassSetAccess) {
    }
    SpentIsDead(s, s', capability, PassSetAccess);
  }

  lemma SignInSpends(policy: Policy, s: State, challenge: TokenId, enrolled: bool, right: bool)
    requires Inv(s) && VerifyCode(policy, s, challenge, enrolled, right).1.SignedIn?
    ensures Dead(VerifyCode(policy, s, challenge, enrolled, right).0, challenge)
  {
    var row := CredentialRow(s.tokens, challenge, LoginChallenge);
    assert row.value in s.tokens && RowIssued(s, row.value);
    VerifyNoReturn(policy, s, challenge, enrolled, right);
    SpentIsDead(s, VerifyCode(policy, s, challenge, enrolled, right).0, challenge, LoginChallenge);
  }

  lemma EnrolmentSpends(policy: Policy, s: State, caller: Option<UserId>, bootstrap: Option<TokenId>, right: bool)
    requires Inv(s) && ActivateTotp(policy, s, caller, bootstrap, right).1.Activated?
    ensures Dead(ActivateTotp(policy, s, caller, bootstrap, right).0,
      ActivateTotp(policy, s, caller, bootstrap, right).1.secret)
  {
    var (asked, user) := SetupUser(s, caller, bootstrap);
    var row := UserRow(asked.tokens, user.value, SetupSecret);
    SetupUserKeeps(s, caller, bootstrap);
    assert row.value in asked.tokens && RowIssued(asked, row.value);
    var s' := SpendSecret(asked, user.value, bootstrap, right).0;
    forall t | t in s'.tokens ensures !IsToken(t, row.value.token, SetupSecret) {
      assert t in asked.tokens && RowIssued(asked, t);
    }
    SpentIsDead(asked, s', row.value.token, SetupSecret);
  }

  /** What one request spends: the link, capability, challenge or secret it was let through on. */
  predicate Spends(r: Request, answer: Answer, id: TokenId) {
    match r
    case OpenReset(link, _) => link == id && answer.Handed?
    case ResetPassword(capability, _) => capability == id && answer != Denied
    case SetPassword(capability, _) => capability == id && answer != Denied && answer != NotFound
    case Verify(challenge, _, _) => challenge == id && answer.SignedIn?
    case Activate(_, _, _) => answer.Activated? && answer.secret == id
    case _ => false
  }

  /**
   Single use: a reset link, a reset or set capability, a login challenge or a setup secret
   that has been let through once is refused ever after, even when the new password was not
   acceptable.
   */
  lemma SingleUse(policy: Policy, s: State, r: Request, id: TokenId, run: seq<Request>)
    requires Inv(s) && Spends(r, Serve(policy, s, r).1, id)
    ensures NeverHonoured(policy, Serve(policy, s, r).0, run, id)
  {
    match r {
      case OpenReset(link, signed) => OpenResetSpends(policy, s, link, signed);
      case ResetPassword(capability, acceptable) => RedeemSpends(policy, s, capability, acceptable);
      case SetPassword(capability, acceptable) => InvitationSpends(policy, s, capability, acceptable);
      case Verify(challenge, enrolled, right) => SignInSpends(policy, s, challenge, enrolled, right);
      case Activate(caller, bootstrap, right) => EnrolmentSpends(policy, s, caller, bootstrap, right);
    }
    DeadForGood(policy, Serve(policy, s, r).0, run, id);
  }

  // -------------------------------------------------------------- supersession

  /** Purposes of which an account holds one credential at a time. */
  predicate OneAtATime(purpose: Purpose) {
    purpose in {PassReset, PassResetAccess, PassSetAccess, SetupSecret}
  }

  /** When one is handed out, no other of the account is left in the table. */
  ghost predicate OnlyNewest(s: State, s': State, user: UserId, purpose: Purpose) {
    forall t :: t in s'.tokens && IsRow(t, user, purpose) ==> t.token == s.next
  }

  lemma ResetReplaces(policy: Policy, s: State, r: Request)
    requires r.RequestReset? || r.OpenReset?
    requires Serve(policy, s, r).1.Handed?
    ensures var handed := Serve(policy, s, r).1.credential;
      OnlyNewest(s, Serve(policy, s, r).0, handed.user, handed.purpose)
  {
  }

  lemma FollowReplaces(policy: Policy, s: State, key: TokenId, names: Option<Address>)
    requires FollowConfirmationKey(policy, s, key, names).1.Handed?
    ensures var (s', answer) := FollowConfirmationKey(policy, s, key, names);
      answer.credential.purpose == PassSetAccess && OnlyNewest(s, s', answer.credential.user, PassSetAccess)
  {
  }

  lemma SetupReplaces(policy: Policy, s: State, caller: Option<UserId>, bootstrap: Option<TokenId>)
    requires BeginTotpSetup(policy, s, caller, bootstrap).1.Handed?
    ensures var (s', answer) := BeginTotpSetup(policy, s, caller, bootstrap);
      answer.credential.purpose == SetupSecret && OnlyNewest(s, s', answer.credential.user, SetupSecret)
  {
    SetupUserHandsNothing(s, caller, bootstrap);
    var (asked, user) := SetupUser(s, caller, bootstrap);
    var left := asked.(tokens := RowsDropped(asked.tokens, user.value, SetupSecret));
    assert BeginTotpSetup(policy, s, caller, bootstrap) == Hand(left, user.value, SetupSecret);
  }

  /** A new reset link, capability or secret kills the earlier ones of the same account. */
  lemma Superseded(policy: Policy, s: State, r: Request, id: TokenId, run: seq<Request>)
    requires Inv(s) && Serve(policy, s, r).1.Handed? && OneAtATime(Serve(policy, s, r).1.credential.purpose)
    requires id in s.issued
      && s.issued[id].user == Serve(policy, s, r).1.credential.user
      && s.issued[id].purpose == Serve(policy, s, r).1.credential.purpose
    ensures NeverHonoured(policy, Serve(policy, s, r).0, run, id)
  {
    var s', purpose := Serve(policy, s, r).0, s.issued[id].purpose;
    assert OnlyNewest(s, s', s.issued[id].user, purpose) by {
      match r
      case FollowKey(key, names) => FollowReplaces(policy, s, key, names);
      case BeginSetup(caller, bootstrap) => SetupReplaces(policy, s, caller, bootstrap);
      case RequestReset(_, _) => ResetReplaces(policy, s, r);
      case OpenReset(_, _) => ResetReplaces(policy, s, r);
      case _ =>
    }
    NoReturnStep(policy, s, r);
    forall t | t in s'.tokens ensures !IsToken(t, id, purpose) {
      assert t in s.tokens ==> RowIssued(s, t);
    }
    SpentIsDead(s, s', id, purpose);
    DeadForGood(policy, s', run, id);
  }

  // ------------------------------------------------------------------ handover

  lemma ChangeKills(policy: Policy, s: State, user: UserId, id: TokenId)
    requires Inv(s) && user in s.accounts && policy.jwt.logoutOnPasswordChange
    requires id in s.issued && s.issued[id].user == user
    ensures Dead(CredentialsChanged(policy, s, user), id)
  {
    var s' := CredentialsChanged(policy, s, user);
    forall t | t in s'.tokens && Tracked(t.purpose) ensures t.token != id {
      assert RowIssued(s, t);
    }
  }

  lemma RedeemHandsOver(policy: Policy, s: State, capability: TokenId, acceptable: bool, id: TokenId)
    requires Inv(s) && policy.jwt.logoutOnPasswordChange
    requires var answer := RedeemReset(policy, s, capability, acceptable).1;
      answer.PasswordSaved? && id in s.issued && s.issued[id].user == answer.user
    ensures Dead(RedeemReset(policy, s, capability, acceptable).0, id)
  {
    var spent := s.(tokens := TokenDropped(s.tokens, capability, PassResetAccess));
    ShrinkKeeps(s, spent);
    ChangeKills(policy, spent, s.issued[capability].user, id);
  }

  lemma InvitationHandsOver(policy: Policy, s: State, capability: TokenId, acceptable: bool, id: TokenId)
    requires Inv(s) && policy.jwt.logoutOnPasswordChange
    requires var answer := RedeemInvitation(policy, s, capability, acceptable).1;
      answer.PasswordSaved? && id in s.issued && s.issued[id].user == answer.user
    ensures Dead(RedeemInvitation(policy, s, capability, acceptable).0, id)
  {
    var spent := s.(tokens := TokenDropped(s.tokens, capability, PassSetAccess));
    ShrinkKeeps(s, spent);
    var user := s.issued[capability].user;
    ChangeKills(policy, spent, user, id);
    var changed := CredentialsChanged(policy, spent, user);
    var settled :=
      changed.(tokens := RowsDropped(RowsDropped(changed.tokens, user, Invitation), user, EmailConfirmation));
    assert Dead(settled, id);
    assert Dead(HandSetupChallenge(settled, user).0, id);
  }

  /**
   Handover is complete: once the password of an account has been set, by reset, change or
   invitation, nothing handed out for it before is honoured in any continuation.
   */
  lemma HandoverIsComplete(policy: Policy, s: State, r: Request, id: TokenId, run: seq<Request>)
    requires Inv(s) && policy.jwt.logoutOnPasswordChange
    requires Serve(policy, s, r).1.PasswordSaved? && id in s.issued && s.issued[id].user == Serve(policy, s, r).1.user
    ensures NeverHonoured(policy, Serve(policy, s, r).0, run, id)
  {
    match r {
      case ResetPassword(capability, acceptable) => RedeemHandsOver(policy, s, capability, acceptable, id);
      case SetPassword(capability, acceptable) => InvitationHandsOver(policy, s, capability, acceptable, id);
      case ChangePassword(user, acceptable) => ChangeKills(policy, s, user, id);
    }
    DeadForGood(policy, Serve(policy, s, r).0, run, id);
  }

  /** The failures that feed the lockout are no credential, and the primary address is the account's own. */
  lemma HandoverSpares(policy: Policy, s: State, user: UserId)
    requires user in s.accounts
    ensures var s' := CredentialsChanged(policy, s, user);
      && Attempts(s'.tokens, user) == Attempts(s.tokens, user)
      && (forall x :: x in s.addresses && x.primary ==> x in s'.addresses)
      && (policy.jwt.logoutOnPasswordChange ==>
            forall x :: x in s'.addresses && x.user == user ==> x.verified || x.primary)
  {
    KeepKeep(s.tokens, Rotation.OutlivesHandover(user), RowsOf(user, LoginAttempt), RowsOf(user, LoginAttempt));
  }

  /** The other accounts keep everything they had. */
  lemma HandoverIsContained(policy: Policy, s: State, user: UserId, other: UserId, purpose: Purpose)
    requires user in s.accounts && other != user
    ensures var s' := CredentialsChanged(policy, s, user);
      && Keep(s'.tokens, RowsOf(other, purpose)) == Keep(s.tokens, RowsOf(other, purpose))
      && (other in s.accounts ==> other in s'.accounts && s'.accounts[other] == s.accounts[other])
      && (forall x :: x in s.addresses && x.user == other ==> x in s'.addresses)
  {
    KeepKeep(s.tokens, Rotation.OutlivesHandover(user), RowsOf(other, purpose), RowsOf(other, purpose));
  }

  /** No link of the account is left, whatever the installation revokes. */
  lemma CompletionDropsLinks(policy: Policy, s: State, user: UserId)
    requires user in s.accounts
    ensures forall t :: t in CompleteInvitation(policy, s, user).0.tokens && t.user == user ==>
      t.purpose != Invitation && t.purpose != EmailConfirmation
  {
  }

  lemma InvitationDropsLinks(policy: Policy, s: State, capability: TokenId, acceptable: bool)
    requires RedeemInvitation(policy, s, capability, acceptable).1.PasswordSaved?
    ensures var (s', answer) := RedeemInvitation(policy, s, capability, acceptable);
      forall t :: t in s'.tokens && t.user == answer.user ==> t.purpose != Invitation && t.purpose != EmailConfirmation
  {
    CompletionDropsLinks(policy, s.(tokens := TokenDropped(s.tokens, capability, PassSetAccess)),
        s.issued[capability].user);
  }

  /** The invitation that led to a password is spent even where sessions outlive a change. */
  lemma InvitationLinkDies(policy: Policy, s: State, capability: TokenId, acceptable: bool, id: TokenId,
          run: seq<Request>)
    requires Inv(s)
    requires var answer := RedeemInvitation(policy, s, capability, acceptable).1;
      answer.PasswordSaved? && id in s.issued && s.issued[id].user == answer.user
    requires s.issued[id].purpose in {Invitation, EmailConfirmation}
    ensures NeverHonoured(policy, RedeemInvitation(policy, s, capability, acceptable).0, run, id)
  {
    var s' := RedeemInvitation(policy, s, capability, acceptable).0;
    InvitationDropsLinks(policy, s, capability, acceptable);
    RedeemInvitationKeeps(policy, s, capability, acceptable);
    HandsInvitation(policy, s, capability, acceptable);
    forall t | t in s'.tokens && Tracked(t.purpose) ensures t.token != id {
      assert RowIssued(s', t);
    }
    DeadForGood(policy, s', run, id);
  }
}
