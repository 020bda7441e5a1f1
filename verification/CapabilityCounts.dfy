/** Which flows touch the failed attempts of a user: a wrong code, a success, and nothing else. */
module CapabilityCounts {
  import opened Basics
  import opened Store
  import opened MfaStorage
  import opened Purge
  import opened Capabilities
  import opened CapabilityInvariants
  import opened CapabilityTable
  import opened CapabilityLimiter
  import Rotation

  /** The filter passes whatever `p` selects. */
  ghost predicate Spares(tokens: seq<GenericToken>, keep: GenericToken -> bool, p: GenericToken -> bool) {
    forall t :: t in tokens && p(t) ==> keep(t)
  }

  lemma SparedKeep(tokens: seq<GenericToken>, keep: GenericToken -> bool, p: GenericToken -> bool)
    requires Spares(tokens, keep, p)
    ensures Keep(Keep(tokens, keep), p) == Keep(tokens, p)
  {
    KeepKeep(tokens, keep, p, p);
  }

  /** The filter selects failures of the user and nothing else. */
  ghost predicate FailuresOf(user: UserId, p: GenericToken -> bool) {
    forall t :: p(t) ==> IsRow(t, user, LoginAttempt)
  }

  /** The failures selected are not older than `cut`. */
  ghost predicate Young(tokens: seq<GenericToken>, p: GenericToken -> bool, cut: int) {
    forall t :: t in tokens && p(t) ==> cut <= t.created
  }

  /** The same failures are selected from both tables. */
  predicate Same(tokens: seq<GenericToken>, tokens': seq<GenericToken>, p: GenericToken -> bool) {
    Keep(tokens', p) == Keep(tokens, p)
  }

  /** Deleting rows of any other purpose, by user or by token. */
  lemma OthersDropped(tokens: seq<GenericToken>, holder: UserId, id: TokenId, purpose: Purpose, user: UserId,
          p: GenericToken -> bool)
    requires FailuresOf(user, p)
    requires purpose != LoginAttempt
    ensures Same(tokens, RowsDropped(tokens, holder, purpose), p)
    ensures Same(tokens, TokenDropped(tokens, id, purpose), p)
  {
    SparedKeep(tokens, Except(holder, purpose), p);
    SparedKeep(tokens, ExceptToken(id, purpose), p);
  }

  lemma OthersExpired(tokens: seq<GenericToken>, holder: UserId, purpose: Purpose, now: int, user: UserId,
          p: GenericToken -> bool)
    requires FailuresOf(user, p)
    requires purpose != LoginAttempt
    ensures Same(tokens, ExpiredPurged(tokens, holder, purpose, now), p)
  {
    SparedKeep(tokens, NotOlder(holder, purpose, now - TOKEN_MAX_AGE), p);
  }

  lemma HandSpares(s: State, holder: UserId, purpose: Purpose, user: UserId, p: GenericToken -> bool)
    requires FailuresOf(user, p)
    requires purpose != LoginAttempt
    ensures Same(s.tokens, Hand(s, holder, purpose).0.tokens, p)
  {
    KeepPast(s.tokens, GenericToken(holder, s.next, purpose, s.now), p);
  }

  lemma RequestResetSpares(s: State, holder: UserId, email: Email, user: UserId, p: GenericToken -> bool)
    requires FailuresOf(user, p)
    ensures Same(s.tokens, RequestResetLink(s, holder, email).0.tokens, p)
  {
    HandSpares(s, holder, PassReset, user, p);
    SparedKeep(Hand(s, holder, PassReset).0.tokens, NotSuperseded(holder, PassReset, s.next), p);
  }

  lemma OpenResetSpares(policy: Policy, s: State, link: TokenId, signed: bool, user: UserId, p: GenericToken -> bool)
    requires FailuresOf(user, p)
    ensures Same(s.tokens, OpenResetLink(policy, s, link, signed).0.tokens, p)
  {
    if link in s.issued {
      var holder := s.issued[link].user;
      var spent := TokenDropped(s.tokens, link, PassReset);
      OthersDropped(s.tokens, holder, link, PassReset, user, p);
      OthersDropped(spent, holder, link, PassResetAccess, user, p);
      HandSpares(s.(tokens := RowsDropped(spent, holder, PassResetAccess)), holder, PassResetAccess, user, p);
    }
  }

  lemma ChangeSpares(policy: Policy, s: State, holder: UserId, user: UserId, p: GenericToken -> bool)
    requires FailuresOf(user, p)
    requires holder in s.accounts
    ensures Same(s.tokens, CredentialsChanged(policy, s, holder).tokens, p)
  {
    SparedKeep(s.tokens, Rotation.OutlivesHandover(holder), p);
  }

  lemma RedeemSpares(policy: Policy, s: State, capability: TokenId, acceptable: bool, user: UserId,
          p: GenericToken -> bool)
    requires FailuresOf(user, p)
    ensures Same(s.tokens, RedeemReset(policy, s, capability, acceptable).0.tokens, p)
  {
    var spent := s.(tokens := TokenDropped(s.tokens, capability, PassResetAccess));
    OthersDropped(s.tokens, 0, capability, PassResetAccess, user, p);
    if capability in s.issued && s.issued[capability].user in s.accounts {
      ChangeSpares(policy, spent, s.issued[capability].user, user, p);
    }
  }

  lemma SetupChallengeSpares(s: State, holder: UserId, user: UserId, p: GenericToken -> bool)
    requires FailuresOf(user, p)
    ensures Same(s.tokens, HandSetupChallenge(s, holder).0.tokens, p)
  {
    OthersExpired(s.tokens, holder, SetupChallenge, s.now, user, p);
    HandSpares(s.(tokens := ExpiredPurged(s.tokens, holder, SetupChallenge, s.now)), holder, SetupChallenge, user, p);
  }

  lemma CompleteSpares(policy: Policy, s: State, holder: UserId, user: UserId, p: GenericToken -> bool)
    requires FailuresOf(user, p)
    requires holder in s.accounts
    ensures Same(s.tokens, CompleteInvitation(policy, s, holder).0.tokens, p)
  {
    var changed := CredentialsChanged(policy, s, holder);
    ChangeSpares(policy, s, holder, user, p);
    OthersDropped(changed.tokens, holder, 0, Invitation, user, p);
    OthersDropped(RowsDropped(changed.tokens, holder, Invitation), holder, 0, EmailConfirmation, user, p);
    SetupChallengeSpares(
      changed.(tokens := RowsDropped(RowsDropped(changed.tokens, holder, Invitation), holder, EmailConfirmation)),
      holder, user, p);
  }

  lemma InvitationSpares(policy: Policy, s: State, capability: TokenId, acceptable: bool, user: UserId,
          p: GenericToken -> bool)
    requires FailuresOf(user, p)
    ensures Same(s.tokens, RedeemInvitation(policy, s, capability, acceptable).0.tokens, p)
  {
    OthersDropped(s.tokens, 0, capability, PassSetAccess, user, p);
    if capability in s.issued && s.issued[capability].user in s.accounts {
      CompleteSpares(policy, s.(tokens := TokenDropped(s.tokens, capability, PassSetAccess)),
                     s.issued[capability].user, user, p);
    }
  }

  lemma FollowSpares(policy: Policy, s: State, key: TokenId, names: Option<Address>, user: UserId,
          p: GenericToken -> bool)
    requires FailuresOf(user, p)
    ensures Same(s.tokens, FollowConfirmationKey(policy, s, key, names).0.tokens, p)
  {
    var entry := EntryOf(policy, s, key);
    if entry.Some? {
      var holder := entry.value.user;
      var confirmed := ConfirmKey(s, holder, names).0;
      OthersDropped(s.tokens, holder, 0, PassSetAccess, user, p);
      HandSpares(confirmed.(tokens := RowsDropped(s.tokens, holder, PassSetAccess)), holder, PassSetAccess, user, p);
    }
  }

  /** Attempts are purged by age, and the failures on a live challenge are too young for that. */
  lemma AgingSpares(limits: Limits, tokens: seq<GenericToken>, holder: UserId, now: int, user: UserId,
          p: GenericToken -> bool)
    requires FailuresOf(user, p)
    requires Young(tokens, p, now - AttemptAge(limits))
    ensures Same(tokens, AttemptsPurged(limits, tokens, holder, now), p)
  {
    SparedKeep(tokens, NotOlder(holder, LoginAttempt, now - AttemptAge(limits)), p);
  }

  lemma LoginChallengeSpares(policy: Policy, s: State, holder: UserId, user: UserId, p: GenericToken -> bool)
    requires FailuresOf(user, p)
    requires Young(s.tokens, p, s.now - AttemptAge(policy.limits))
    ensures Same(s.tokens, HandLoginChallenge(policy, s, holder).0.tokens, p)
  {
    var purged := AttemptsPurged(policy.limits, s.tokens, holder, s.now);
    AgingSpares(policy.limits, s.tokens, holder, s.now, user, p);
    OthersExpired(purged, holder, LoginChallenge, s.now, user, p);
    HandSpares(s.(tokens := ExpiredPurged(purged, holder, LoginChallenge, s.now)), holder, LoginChallenge, user, p);
  }

  lemma LoginSpares(policy: Policy, s: State, holder: UserId, user: UserId, p: GenericToken -> bool)
    requires FailuresOf(user, p)
    requires Young(s.tokens, p, s.now - AttemptAge(policy.limits))
    ensures Same(s.tokens, GateLogin(policy, s, holder).0.tokens, p)
  {
    SetupChallengeSpares(s, holder, user, p);
    LoginChallengeSpares(policy, s, holder, user, p);
  }

  lemma LimitsSpare(limits: Limits, tokens: seq<GenericToken>, holder: UserId, id: TokenId, now: int, user: UserId,
          p: GenericToken -> bool)
    requires FailuresOf(user, p)
    ensures Same(WithFailure(limits, tokens, holder, id, now), Recorded(limits, tokens, holder, id, now).0, p)
  {
    OthersDropped(WithFailure(limits, tokens, holder, id, now), holder, id, LoginChallenge, user, p);
  }

  /** A failure adds one row where the filter selects it, and takes none. */
  lemma FailureAdds(limits: Limits, tokens: seq<GenericToken>, holder: UserId, id: TokenId, now: int, user: UserId,
          p: GenericToken -> bool)
    requires FailuresOf(user, p)
    requires Young(tokens, p, now - AttemptAge(limits))
    ensures var row := GenericToken(holder, id, LoginAttempt, now);
      Keep(Recorded(limits, tokens, holder, id, now).0, p) == Keep(tokens, p) + if p(row) then [row] else []
  {
    var row := GenericToken(holder, id, LoginAttempt, now);
    LimitsSpare(limits, tokens, holder, id, now, user, p);
    AgingSpares(limits, tokens, holder, now, user, p);
    KeepAppend(AttemptsPurged(limits, tokens, holder, now), [row], p);
    KeepOne(row, p);
  }

  lemma VerifySpares(policy: Policy, s: State, id: TokenId, enrolled: bool, right: bool, user: UserId,
          p: GenericToken -> bool)
    requires FailuresOf(user, p)
    requires !VerifyCode(policy, s, id, enrolled, right).1.WrongCode?
    requires VerifyCode(policy, s, id, enrolled, right).1 != SignedIn(user)
    ensures Same(s.tokens, VerifyCode(policy, s, id, enrolled, right).0.tokens, p)
  {
    var row := CredentialRow(s.tokens, id, LoginChallenge);
    if row.Some? {
      SparedKeep(s.tokens, OtherThan(row.value), p);
      OthersDropped(s.tokens, 0, id, LoginChallenge, user, p);
      if row.value.user != user {
        SparedKeep(TokenDropped(s.tokens, id, LoginChallenge), Except(row.value.user, LoginAttempt), p);
      }
    }
  }

  lemma SetupUserSpares(s: State, caller: Option<UserId>, bootstrap: Option<TokenId>, user: UserId,
          p: GenericToken -> bool)
    requires FailuresOf(user, p)
    ensures Same(s.tokens, SetupUser(s, caller, bootstrap).0.tokens, p)
  {
    if bootstrap.Some? {
      var row := CredentialRow(s.tokens, bootstrap.value, SetupChallenge);
      if row.Some? {
        SparedKeep(s.tokens, OtherThan(row.value), p);
      }
    }
  }

  lemma BeginSetupSpares(policy: Policy, s: State, caller: Option<UserId>, bootstrap: Option<TokenId>, user: UserId,
          p: GenericToken -> bool)
    requires FailuresOf(user, p)
    ensures Same(s.tokens, BeginTotpSetup(policy, s, caller, bootstrap).0.tokens, p)
  {
    SetupUserSpares(s, caller, bootstrap, user, p);
    var (asked, holder) := SetupUser(s, caller, bootstrap);
    if holder.Some? {
      OthersDropped(asked.tokens, holder.value, 0, SetupSecret, user, p);
      HandSpares(asked.(tokens := RowsDropped(asked.tokens, holder.value, SetupSecret)), holder.value, SetupSecret,
          user, p);
    }
  }

  lemma SpendSecretSpares(s: State, holder: UserId, bootstrap: Option<TokenId>, right: bool, user: UserId,
          p: GenericToken -> bool)
    requires FailuresOf(user, p)
    requires holder in s.accounts
    ensures Same(s.tokens, SpendSecret(s, holder, bootstrap, right).0.tokens, p)
  {
    var row := UserRow(s.tokens, holder, SetupSecret);
    if row.Some? {
      SparedKeep(s.tokens, OtherThan(row.value), p);
    }
    OthersDropped(s.tokens, holder, 0, SetupSecret, user, p);
    if bootstrap.Some? {
      OthersDropped(RowsDropped(s.tokens, holder, SetupSecret), 0, bootstrap.value, SetupChallenge, user, p);
    }
  }

  lemma ActivateSpares(policy: Policy, s: State, caller: Option<UserId>, bootstrap: Option<TokenId>, right: bool,
          user: UserId, p: GenericToken -> bool)
    requires FailuresOf(user, p)
    ensures Same(s.tokens, ActivateTotp(policy, s, caller, bootstrap, right).0.tokens, p)
  {
    SetupUserSpares(s, caller, bootstrap, user, p);
    var (asked, holder) := SetupUser(s, caller, bootstrap);
    if holder.Some? && holder.value in asked.accounts {
      SpendSecretSpares(asked, holder.value, bootstrap, right, user, p);
    }
  }

  lemma RunPurgeSpares(policy: Policy, s: State, user: UserId, p: GenericToken -> bool)
    requires FailuresOf(user, p)
    requires KeepsBuiltIns(policy) && Young(s.tokens, p, s.now - AttemptAge(policy.limits))
    ensures Same(s.tokens, PurgedTokens(Retentions(policy), s.now, s.tokens), p)
  {
    assert LoginAttempt in KNOWN;
    SparedKeep(s.tokens, (t: GenericToken) => !PastRetention(Retentions(policy), s.now, t), p);
  }

  /** A success of the user, which forgives its failures. */
  predicate Clears(r: Request, answer: Answer, user: UserId) {
    r.Verify? && answer == SignedIn(user)
  }

  lemma CheckSpares(policy: Policy, s: State, r: Request, user: UserId, p: GenericToken -> bool)
    requires r.Verify? && FailuresOf(user, p)
    requires !Serve(policy, s, r).1.WrongCode? && !Clears(r, Serve(policy, s, r).1, user)
    ensures Same(s.tokens, Serve(policy, s, r).0.tokens, p)
  {
    assert Serve(policy, s, r) == VerifyCode(policy, s, r.challenge, r.enrolled, r.right);
    VerifySpares(policy, s, r.challenge, r.enrolled, r.right, user, p);
  }

  lemma SignInSpares(policy: Policy, s: State, r: Request, user: UserId, p: GenericToken -> bool)
    requires r.Login? && FailuresOf(user, p) && Young(s.tokens, p, s.now - AttemptAge(policy.limits))
    ensures Same(s.tokens, Serve(policy, s, r).0.tokens, p)
  {
    assert Serve(policy, s, r) == GateLogin(policy, s, r.user);
    LoginSpares(policy, s, r.user, user, p);
  }

  lemma EnrolmentSpares(policy: Policy, s: State, r: Request, user: UserId, p: GenericToken -> bool)
    requires (r.BeginSetup? || r.Activate?) && FailuresOf(user, p)
    ensures Same(s.tokens, Serve(policy, s, r).0.tokens, p)
  {
    if r.BeginSetup? {
      assert Serve(policy, s, r) == BeginTotpSetup(policy, s, r.caller, r.bootstrap);
      BeginSetupSpares(policy, s, r.caller, r.bootstrap, user, p);
    } else {
      assert Serve(policy, s, r) == ActivateTotp(policy, s, r.caller, r.bootstrap, r.right);
      ActivateSpares(policy, s, r.caller, r.bootstrap, r.right, user, p);
    }
  }

  predicate OfCapability(r: Request) {
    r.OpenReset? || r.ResetPassword? || r.ChangePassword? || r.SetPassword?
  }

  lemma CapabilitySpares(policy: Policy, s: State, r: Request, user: UserId, p: GenericToken -> bool)
    requires OfCapability(r) && FailuresOf(user, p)
    ensures Same(s.tokens, Serve(policy, s, r).0.tokens, p)
  {
    match r
    case OpenReset(link, signed) => OpenResetSpares(policy, s, link, signed, user, p);
    case ResetPassword(capability, acceptable) => RedeemSpares(policy, s, capability, acceptable, user, p);
    case ChangePassword(holder, _) => if holder in s.accounts { ChangeSpares(policy, s, holder, user, p); }
    case SetPassword(capability, acceptable) => InvitationSpares(policy, s, capability, acceptable, user, p);
  }

  lemma MailSpares(policy: Policy, s: State, r: Request, user: UserId, p: GenericToken -> bool)
    requires (r.RequestReset? || r.SendConfirmation? || r.FollowKey?) && FailuresOf(user, p)
    ensures Same(s.tokens, Serve(policy, s, r).0.tokens, p)
  {
    match r
    case RequestReset(holder, email) => RequestResetSpares(s, holder, email, user, p);
    case SendConfirmation(holder, _) =>
      HandSpares(s, holder, Invitation, user, p);
      HandSpares(s, holder, EmailConfirmation, user, p);
    case FollowKey(key, names) => FollowSpares(policy, s, key, names, user, p);
  }

  /** No flow but a wrong code or a success of the second factor touches the failures of a user that still count. */
  lemma FlowsSpare(policy: Policy, s: State, r: Request, user: UserId, p: GenericToken -> bool)
    requires KeepsBuiltIns(policy) && FailuresOf(user, p) && Young(s.tokens, p, s.now - AttemptAge(policy.limits))
    requires !(r.Verify? && Serve(policy, s, r).1.WrongCode?) && !Clears(r, Serve(policy, s, r).1, user)
    ensures Same(s.tokens, Serve(policy, s, r).0.tokens, p)
  {
    if r.Verify? {
      CheckSpares(policy, s, r, user, p);
    } else if r.Login? {
      SignInSpares(policy, s, r, user, p);
    } else if r.BeginSetup? || r.Activate? {
      EnrolmentSpares(policy, s, r, user, p);
    } else if OfCapability(r) {
      CapabilitySpares(policy, s, r, user, p);
    } else if r.RequestReset? || r.SendConfirmation? || r.FollowKey? {
      MailSpares(policy, s, r, user, p);
    } else if r.RunPurge? {
      RunPurgeSpares(policy, s, user, p);
    }
  }

  /**
   The failures of a user that still count change by a wrong code of that user, which adds one,
   and by a success, which clears them; by nothing else, the wrong codes of others included.
   */
  lemma CountedChangeOnlyBy(policy: Policy, s: State, r: Request, user: UserId, since: int)
    requires KeepsBuiltIns(policy) && s.now - AttemptAge(policy.limits) <= since
    requires !Misses(s, r, Serve(policy, s, r).1, user) && !Clears(r, Serve(policy, s, r).1, user)
    ensures Keep(Serve(policy, s, r).0.tokens, FailuresFrom(user, since)) == Keep(s.tokens, FailuresFrom(user, since))
  {
    var p := FailuresFrom(user, since);
    if r.Verify? && Serve(policy, s, r).1.WrongCode? {
      WrongCodeRecords(policy, s, r.challenge, r.enrolled, r.right);
      FailureAdds(policy.limits, s.tokens, ChallengeUser(s, r.challenge).value, r.challenge, s.now, user, p);
    } else {
      FlowsSpare(policy, s, r, user, p);
    }
  }
}
