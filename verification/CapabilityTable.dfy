/** How a request edits the table: it deletes rows and writes at most one, which its answer names. */
module CapabilityTable {
  import opened Basics
  import opened Store
  import opened MfaStorage
  import opened Purge
  import opened Capabilities
  import opened CapabilityInvariants
  import Rotation

  /** Whose login challenge it is. */
  function ChallengeUser(s: State, challenge: TokenId): Option<UserId> {
    var row := CredentialRow(s.tokens, challenge, LoginChallenge);
    if Live(row, s.now) then Some(row.value.user) else None
  }

  /** The row a request writes: the credential it hands out, or the failure it records. */
  function Written(s: State, r: Request, answer: Answer): seq<GenericToken> {
    match answer
    case Handed(id, credential) => [GenericToken(credential.user, id, credential.purpose, s.now)]
    case PasswordSaved(user, setup) =>
      if setup.Some? then [GenericToken(user, setup.value, SetupChallenge, s.now)] else []
    case WrongCode(_) =>
      if r.Verify? && ChallengeUser(s, r.challenge).Some?
      then [GenericToken(ChallengeUser(s, r.challenge).value, r.challenge, LoginAttempt, s.now)] else []
    case _ => []
  }

  /** The table after is the table before, with the row written at its end, less what was deleted. */
  ghost predicate Edits(s: State, r: Request, s': State, answer: Answer) {
    Pruned(s.tokens + Written(s, r, answer), s'.tokens)
  }

  lemma JustPruned(s: State, r: Request, s': State, answer: Answer)
    requires Pruned(s.tokens, s'.tokens) && Written(s, r, answer) == []
    ensures Edits(s, r, s', answer)
  {
    assert s.tokens + [] == s.tokens;
  }

  lemma PrunedKept(x: seq<GenericToken>, y: seq<GenericToken>, p: GenericToken -> bool)
    requires Pruned(x, y)
    ensures Pruned(x, Keep(y, p))
  {
    PrunedKeep(y, p);
    PrunedTwice(x, y, Keep(y, p));
  }

  /** Handing out a credential on a pruned table. */
  lemma PrunedHand(s: State, left: State, user: UserId, purpose: Purpose)
    requires Pruned(s.tokens, left.tokens) && left.next == s.next && left.now == s.now
    ensures var (s', answer) := Hand(left, user, purpose);
      && answer == Handed(s.next, Credential(user, purpose, s.now))
      && Pruned(s.tokens + [GenericToken(user, s.next, purpose, s.now)], s'.tokens)
  {
    PrunedMore(s.tokens, left.tokens, [GenericToken(user, s.next, purpose, s.now)]);
  }

  lemma RequestResetEdits(s: State, r: Request)
    requires r.RequestReset?
    ensures Edits(s, r, RequestResetLink(s, r.user, r.email).0, RequestResetLink(s, r.user, r.email).1)
  {
    var (s', answer) := RequestResetLink(s, r.user, r.email);
    PrunedSelf(s.tokens);
    if answer.Handed? {
      PrunedSelf(s.tokens + [GenericToken(r.user, s.next, PassReset, s.now)]);
      PrunedKept(s.tokens + [GenericToken(r.user, s.next, PassReset, s.now)], Hand(s, r.user, PassReset).0.tokens,
                 NotSuperseded(r.user, PassReset, s.next));
    } else {
      JustPruned(s, r, s', answer);
    }
  }

  lemma OpenResetEdits(policy: Policy, s: State, r: Request)
    requires r.OpenReset?
    ensures Edits(s, r, OpenResetLink(policy, s, r.link, r.signed).0, OpenResetLink(policy, s, r.link, r.signed).1)
  {
    var (s', answer) := OpenResetLink(policy, s, r.link, r.signed);
    PrunedSelf(s.tokens);
    if answer.Handed? {
      var user := s.issued[r.link].user;
      var spent := TokenDropped(s.tokens, r.link, PassReset);
      PrunedKeep(s.tokens, ExceptToken(r.link, PassReset));
      PrunedKept(s.tokens, spent, Except(user, PassResetAccess));
      PrunedHand(s, s.(tokens := RowsDropped(spent, user, PassResetAccess)), user, PassResetAccess);
    } else {
      JustPruned(s, r, s', answer);
    }
  }

  lemma ChangePrunes(policy: Policy, s: State, user: UserId)
    requires user in s.accounts
    ensures Pruned(s.tokens, CredentialsChanged(policy, s, user).tokens)
  {
    PrunedSelf(s.tokens);
    PrunedKeep(s.tokens, Rotation.OutlivesHandover(user));
  }

  lemma RedeemEdits(policy: Policy, s: State, r: Request)
    requires r.ResetPassword?
    ensures Edits(s, r, RedeemReset(policy, s, r.capability, r.acceptable).0,
      RedeemReset(policy, s, r.capability, r.acceptable).1)
  {
    var (s', answer) := RedeemReset(policy, s, r.capability, r.acceptable);
    var spent := s.(tokens := TokenDropped(s.tokens, r.capability, PassResetAccess));
    PrunedSelf(s.tokens);
    PrunedKeep(s.tokens, ExceptToken(r.capability, PassResetAccess));
    if answer.PasswordSaved? {
      ChangePrunes(policy, spent, answer.user);
      PrunedTwice(s.tokens, spent.tokens, s'.tokens);
    }
    JustPruned(s, r, s', answer);
  }

  lemma SettledPrunes(policy: Policy, s: State, user: UserId)
    requires user in s.accounts
    ensures Pruned(s.tokens,
      RowsDropped(RowsDropped(CredentialsChanged(policy, s, user).tokens, user, Invitation), user, EmailConfirmation))
  {
    var changed := CredentialsChanged(policy, s, user).tokens;
    ChangePrunes(policy, s, user);
    PrunedKept(s.tokens, changed, Except(user, Invitation));
    PrunedKept(s.tokens, RowsDropped(changed, user, Invitation), Except(user, EmailConfirmation));
  }

  lemma SetupChallengeHand(s: State, left: State, user: UserId)
    requires Pruned(s.tokens, left.tokens) && left.next == s.next && left.now == s.now
    ensures var (s', answer) := HandSetupChallenge(left, user);
      && answer == Handed(s.next, Credential(user, SetupChallenge, s.now))
      && Pruned(s.tokens + [GenericToken(user, s.next, SetupChallenge, s.now)], s'.tokens)
  {
    PrunedKept(s.tokens, left.tokens, NotOlder(user, SetupChallenge, s.now - TOKEN_MAX_AGE));
    PrunedHand(s, left.(tokens := ExpiredPurged(left.tokens, user, SetupChallenge, s.now)), user, SetupChallenge);
  }

  lemma RedeemInvitationEdits(policy: Policy, s: State, r: Request)
    requires r.SetPassword?
    ensures Edits(s, r, RedeemInvitation(policy, s, r.capability, r.acceptable).0,
      RedeemInvitation(policy, s, r.capability, r.acceptable).1)
  {
    var (s', answer) := RedeemInvitation(policy, s, r.capability, r.acceptable);
    var spent := s.(tokens := TokenDropped(s.tokens, r.capability, PassSetAccess));
    PrunedSelf(s.tokens);
    PrunedKeep(s.tokens, ExceptToken(r.capability, PassSetAccess));
    if answer.PasswordSaved? {
      var user := answer.user;
      var changed := CredentialsChanged(policy, spent, user);
      var settled :=
        changed.(tokens := RowsDropped(RowsDropped(changed.tokens, user, Invitation), user, EmailConfirmation));
      SettledPrunes(policy, spent, user);
      PrunedTwice(s.tokens, spent.tokens, settled.tokens);
      SetupChallengeHand(s, settled, user);
      if policy.totpMode != Required {
        JustPruned(s, r, s', answer);
      }
    } else {
      JustPruned(s, r, s', answer);
    }
  }

  lemma FollowKeyEdits(policy: Policy, s: State, r: Request)
    requires r.FollowKey?
    ensures Edits(s, r, FollowConfirmationKey(policy, s, r.key, r.names).0,
      FollowConfirmationKey(policy, s, r.key, r.names).1)
  {
    var (s', answer) := FollowConfirmationKey(policy, s, r.key, r.names);
    PrunedSelf(s.tokens);
    if answer.Handed? {
      var user := EntryOf(policy, s, r.key).value.user;
      var confirmed := ConfirmKey(s, user, r.names).0;
      PrunedKept(s.tokens, s.tokens, Except(user, PassSetAccess));
      PrunedHand(s, confirmed.(tokens := RowsDropped(confirmed.tokens, user, PassSetAccess)), user, PassSetAccess);
    } else {
      JustPruned(s, r, s', answer);
    }
  }

  lemma LoginChallengeHand(policy: Policy, s: State, user: UserId)
    ensures var (s', answer) := HandLoginChallenge(policy, s, user);
      && answer == Handed(s.next, Credential(user, LoginChallenge, s.now))
      && Pruned(s.tokens + [GenericToken(user, s.next, LoginChallenge, s.now)], s'.tokens)
  {
    var purged := AttemptsPurged(policy.limits, s.tokens, user, s.now);
    PrunedKeep(s.tokens, NotOlder(user, LoginAttempt, s.now - AttemptAge(policy.limits)));
    PrunedKept(s.tokens, purged, NotOlder(user, LoginChallenge, s.now - TOKEN_MAX_AGE));
    PrunedHand(s, s.(tokens := ExpiredPurged(purged, user, LoginChallenge, s.now)), user, LoginChallenge);
  }

  lemma LoginEdits(policy: Policy, s: State, r: Request)
    requires r.Login?
    ensures Edits(s, r, GateLogin(policy, s, r.user).0, GateLogin(policy, s, r.user).1)
  {
    var (s', answer) := GateLogin(policy, s, r.user);
    PrunedSelf(s.tokens);
    if answer.Handed? {
      SetupChallengeHand(s, s, r.user);
      LoginChallengeHand(policy, s, r.user);
    } else {
      JustPruned(s, r, s', answer);
    }
  }

  lemma WithFailurePrunes(limits: Limits, tokens: seq<GenericToken>, user: UserId, challenge: TokenId, now: int)
    ensures Pruned(tokens + [GenericToken(user, challenge, LoginAttempt, now)],
      WithFailure(limits, tokens, user, challenge, now))
  {
    PrunedKeep(tokens, NotOlder(user, LoginAttempt, now - AttemptAge(limits)));
    PrunedMore(tokens, AttemptsPurged(limits, tokens, user, now), [GenericToken(user, challenge, LoginAttempt, now)]);
  }

  lemma RecordedEdits(limits: Limits, tokens: seq<GenericToken>, user: UserId, challenge: TokenId, now: int)
    ensures Pruned(tokens + [GenericToken(user, challenge, LoginAttempt, now)],
      Recorded(limits, tokens, user, challenge, now).0)
  {
    var all := tokens + [GenericToken(user, challenge, LoginAttempt, now)];
    var counted := WithFailure(limits, tokens, user, challenge, now);
    WithFailurePrunes(limits, tokens, user, challenge, now);
    PrunedKept(all, counted, Except(user, LoginChallenge));
    PrunedKept(all, counted, ExceptToken(challenge, LoginChallenge));
  }

  lemma VerifyPrunes(policy: Policy, s: State, r: Request)
    requires r.Verify? && !VerifyCode(policy, s, r.challenge, r.enrolled, r.right).1.WrongCode?
    ensures Pruned(s.tokens, VerifyCode(policy, s, r.challenge, r.enrolled, r.right).0.tokens)
  {
    var row := CredentialRow(s.tokens, r.challenge, LoginChallenge);
    PrunedSelf(s.tokens);
    if row.Some? {
      PrunedKeep(s.tokens, OtherThan(row.value));
      PrunedKeep(s.tokens, ExceptToken(r.challenge, LoginChallenge));
      PrunedKept(s.tokens, TokenDropped(s.tokens, r.challenge, LoginChallenge), Except(row.value.user, LoginAttempt));
    }
  }

  lemma RecordedIsEdit(limits: Limits, s: State, r: Request, s': State, answer: Answer)
    requires r.Verify? && answer.WrongCode? && ChallengeUser(s, r.challenge).Some?
    requires s'.tokens == Recorded(limits, s.tokens, ChallengeUser(s, r.challenge).value, r.challenge, s.now).0
    ensures Edits(s, r, s', answer)
  {
    RecordedEdits(limits, s.tokens, ChallengeUser(s, r.challenge).value, r.challenge, s.now);
  }

  lemma WrongCodeRecords(policy: Policy, s: State, challenge: TokenId, enrolled: bool, right: bool)
    requires VerifyCode(policy, s, challenge, enrolled, right).1.WrongCode?
    ensures ChallengeUser(s, challenge).Some? && policy.totpMode != Off
      && !LockedOut(policy.limits, s.tokens, ChallengeUser(s, challenge).value, s.now)
    ensures VerifyCode(policy, s, challenge, enrolled, right).0
      == s.(tokens := Recorded(policy.limits, s.tokens, ChallengeUser(s, challenge).value, challenge, s.now).0)
  {
    var user := ChallengeUser(s, challenge).value;
    assert LockoutRemaining(policy.limits, s.tokens, user, s.now) == 0;
  }

  lemma VerifyEdits(policy: Policy, s: State, r: Request)
    requires r.Verify?
    ensures Edits(s, r, VerifyCode(policy, s, r.challenge, r.enrolled, r.right).0,
      VerifyCode(policy, s, r.challenge, r.enrolled, r.right).1)
  {
    var (s', answer) := VerifyCode(policy, s, r.challenge, r.enrolled, r.right);
    if answer.WrongCode? {
      WrongCodeRecords(policy, s, r.challenge, r.enrolled, r.right);
      RecordedIsEdit(policy.limits, s, r, s', answer);
    } else {
      VerifyPrunes(policy, s, r);
      JustPruned(s, r, s', answer);
    }
  }

  lemma SetupUserPrunes(s: State, caller: Option<UserId>, bootstrap: Option<TokenId>)
    ensures Pruned(s.tokens, SetupUser(s, caller, bootstrap).0.tokens)
  {
    PrunedSelf(s.tokens);
    if bootstrap.Some? {
      var row := CredentialRow(s.tokens, bootstrap.value, SetupChallenge);
      if row.Some? {
        PrunedKeep(s.tokens, OtherThan(row.value));
      }
    }
  }

  lemma BeginSetupEdits(policy: Policy, s: State, r: Request)
    requires r.BeginSetup?
    ensures Edits(s, r, BeginTotpSetup(policy, s, r.caller, r.bootstrap).0,
      BeginTotpSetup(policy, s, r.caller, r.bootstrap).1)
  {
    var (s', answer) := BeginTotpSetup(policy, s, r.caller, r.bootstrap);
    var (asked, user) := SetupUser(s, r.caller, r.bootstrap);
    SetupUserPrunes(s, r.caller, r.bootstrap);
    SetupUserHandsNothing(s, r.caller, r.bootstrap);
    if answer.Handed? {
      PrunedKept(s.tokens, asked.tokens, Except(user.value, SetupSecret));
      PrunedHand(s, asked.(tokens := RowsDropped(asked.tokens, user.value, SetupSecret)), user.value, SetupSecret);
    } else {
      JustPruned(s, r, s', answer);
    }
  }

  lemma SecretPrunes(s: State, user: UserId, bootstrap: Option<TokenId>, right: bool)
    requires user in s.accounts
    ensures Pruned(s.tokens, SpendSecret(s, user, bootstrap, right).0.tokens)
  {
    var row := UserRow(s.tokens, user, SetupSecret);
    PrunedSelf(s.tokens);
    if row.Some? {
      PrunedKeep(s.tokens, OtherThan(row.value));
    }
    PrunedKeep(s.tokens, Except(user, SetupSecret));
    if bootstrap.Some? {
      PrunedKept(s.tokens, RowsDropped(s.tokens, user, SetupSecret), ExceptToken(bootstrap.value, SetupChallenge));
    }
  }

  lemma ActivateEdits(policy: Policy, s: State, r: Request)
    requires r.Activate?
    ensures Edits(s, r, ActivateTotp(policy, s, r.caller, r.bootstrap, r.right).0,
      ActivateTotp(policy, s, r.caller, r.bootstrap, r.right).1)
  {
    var (s', answer) := ActivateTotp(policy, s, r.caller, r.bootstrap, r.right);
    var (asked, user) := SetupUser(s, r.caller, r.bootstrap);
    SetupUserPrunes(s, r.caller, r.bootstrap);
    if user.Some? && user.value in asked.accounts {
      SecretPrunes(asked, user.value, r.bootstrap, r.right);
      PrunedTwice(s.tokens, asked.tokens, SpendSecret(asked, user.value, r.bootstrap, r.right).0.tokens);
    }
    JustPruned(s, r, s', answer);
  }

  lemma SimpleEdits(policy: Policy, s: State, r: Request)
    requires r.AddAccount? || r.SetActive? || r.ChangePassword? || r.SendConfirmation? || r.AskReserved? || r.Wait?
      || r.RunPurge?
    ensures Edits(s, r, Serve(policy, s, r).0, Serve(policy, s, r).1)
  {
    var (s', answer) := Serve(policy, s, r);
    PrunedSelf(s.tokens);
    if r.SendConfirmation? {
      PrunedHand(s, s, r.user, Invitation);
      PrunedHand(s, s, r.user, EmailConfirmation);
    }
    if r.ChangePassword? && r.user in s.accounts {
      ChangePrunes(policy, s, r.user);
    }
    if r.RunPurge? {
      PrunedKeep(s.tokens, (t: GenericToken) => !PastRetention(Retentions(policy), s.now, t));
    }
    if !answer.Handed? {
      JustPruned(s, r, s', answer);
    }
  }

  /** Every request deletes rows and writes at most the one its answer names. */
  lemma EditStep(policy: Policy, s: State, r: Request)
    ensures Edits(s, r, Serve(policy, s, r).0, Serve(policy, s, r).1)
  {
    match r
    case RequestReset(_, _) => RequestResetEdits(s, r);
    case OpenReset(_, _) => OpenResetEdits(policy, s, r);
    case ResetPassword(_, _) => RedeemEdits(policy, s, r);
    case FollowKey(_, _) => FollowKeyEdits(policy, s, r);
    case SetPassword(_, _) => RedeemInvitationEdits(policy, s, r);
    case Login(_) => LoginEdits(policy, s, r);
    case Verify(_, _, _) => VerifyEdits(policy, s, r);
    case BeginSetup(_, _) => BeginSetupEdits(policy, s, r);
    case Activate(_, _, _) => ActivateEdits(policy, s, r);
    case _ => SimpleEdits(policy, s, r);
  }

  /** So no count of rows grows by more than the row written. */
  lemma CountStep(policy: Policy, s: State, r: Request, p: GenericToken -> bool)
    ensures Count(Serve(policy, s, r).0.tokens, p)
      <= Count(s.tokens, p) + Count(Written(s, r, Serve(policy, s, r).1), p)
  {
    EditStep(policy, s, r);
    PrunedCount(s.tokens + Written(s, r, Serve(policy, s, r).1), Serve(policy, s, r).0.tokens, p);
    KeepAppend(s.tokens, Written(s, r, Serve(policy, s, r).1), p);
  }
}
