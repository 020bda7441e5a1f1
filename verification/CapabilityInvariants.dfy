/** What every request keeps: the rows of the table are exactly accounted for by what was handed out. */
module CapabilityInvariants {
  import opened Basics
  import opened Store
  import opened MfaStorage
  import opened Purge
  import opened Capabilities

  /** Rows that stand for something handed out; failed attempts and foreign purposes do not. */
  predicate Tracked(purpose: Purpose) {
    purpose != LoginAttempt && !purpose.Custom?
  }

  predicate RowIssued(s: State, t: GenericToken) {
    Tracked(t.purpose) ==> t.token in s.issued && s.issued[t.token] == Credential(t.user, t.purpose, t.created)
  }

  ghost predicate Inv(s: State) {
    && (forall id :: id in s.issued ==> id < s.next && s.issued[id].at <= s.now)
    && (forall t :: t in s.tokens ==> RowIssued(s, t) && (t.purpose == LoginAttempt ==> t.token < s.next))
  }

  /** Nothing was handed out and no tracked row appeared. */
  ghost predicate Shrinks(s: State, s': State) {
    && s'.issued == s.issued && s'.next == s.next && s.now <= s'.now
    && (forall t :: t in s'.tokens ==> t in s.tokens || (t.purpose == LoginAttempt && t.token < s.next))
  }

  lemma ShrinkKeeps(s: State, s': State)
    requires Inv(s) && Shrinks(s, s')
    ensures Inv(s')
  {
    forall t | t in s'.tokens ensures RowIssued(s', t) {
      assert t in s.tokens || t.purpose == LoginAttempt;
    }
  }

  lemma HandKeeps(s: State, user: UserId, purpose: Purpose)
    requires Inv(s) && Tracked(purpose)
    ensures Inv(Hand(s, user, purpose).0)
  {
    var s' := Hand(s, user, purpose).0;
    forall t | t in s'.tokens ensures RowIssued(s', t) && (t.purpose == LoginAttempt ==> t.token < s'.next) {
      assert t in s.tokens || t == GenericToken(user, s.next, purpose, s.now);
    }
  }

  lemma ShrinkThenHand(s: State, left: State, user: UserId, purpose: Purpose)
    requires Inv(s) && Shrinks(s, left) && Tracked(purpose)
    ensures Inv(Hand(left, user, purpose).0)
  {
    ShrinkKeeps(s, left);
    HandKeeps(left, user, purpose);
  }

  lemma RequestResetKeeps(s: State, user: UserId, email: Email)
    requires Inv(s)
    ensures Inv(RequestResetLink(s, user, email).0)
  {
    var made := Hand(s, user, PassReset).0;
    HandKeeps(s, user, PassReset);
    ShrinkKeeps(made, made.(tokens := Keep(made.tokens, NotSuperseded(user, PassReset, s.next))));
  }

  lemma OpenResetKeeps(policy: Policy, s: State, link: TokenId, signed: bool)
    requires Inv(s)
    ensures Inv(OpenResetLink(policy, s, link, signed).0)
  {
    if link in s.issued {
      var user := s.issued[link].user;
      var left := s.(tokens := RowsDropped(TokenDropped(s.tokens, link, PassReset), user, PassResetAccess));
      ShrinkThenHand(s, left, user, PassResetAccess);
    }
  }

  lemma RedeemKeeps(policy: Policy, s: State, capability: TokenId, acceptable: bool)
    requires Inv(s)
    ensures Inv(RedeemReset(policy, s, capability, acceptable).0)
  {
    var s' := RedeemReset(policy, s, capability, acceptable).0;
    assert Shrinks(s, s');
    ShrinkKeeps(s, s');
  }

  lemma RedeemInvitationKeeps(policy: Policy, s: State, capability: TokenId, acceptable: bool)
    requires Inv(s)
    ensures Inv(RedeemInvitation(policy, s, capability, acceptable).0)
  {
    if IsCapability(policy, s, capability, PassSetAccess) {
      var user := s.issued[capability].user;
      var spent := s.(tokens := TokenDropped(s.tokens, capability, PassSetAccess));
      ShrinkKeeps(s, spent);
      if user in s.accounts {
        var changed := CredentialsChanged(policy, spent, user);
        var settled :=
          changed.(tokens := RowsDropped(RowsDropped(changed.tokens, user, Invitation), user, EmailConfirmation));
        ShrinkKeeps(spent, settled);
        ShrinkThenHand(settled, settled.(tokens := ExpiredPurged(settled.tokens, user, SetupChallenge, settled.now)),
            user, SetupChallenge);
      }
    }
  }

  lemma FollowKeyKeeps(policy: Policy, s: State, key: TokenId, names: Option<Address>)
    requires Inv(s)
    ensures Inv(FollowConfirmationKey(policy, s, key, names).0)
  {
    var entry := EntryOf(policy, s, key);
    if entry.Some? {
      var user := entry.value.user;
      var confirmed := ConfirmKey(s, user, names).0;
      ShrinkKeeps(s, confirmed);
      ShrinkThenHand(confirmed, confirmed.(tokens := RowsDropped(confirmed.tokens, user, PassSetAccess)), user,
          PassSetAccess);
    }
    ShrinkKeeps(s, OrdinaryConfirmation(s, names).0);
  }

  lemma LoginKeeps(policy: Policy, s: State, user: UserId)
    requires Inv(s)
    ensures Inv(GateLogin(policy, s, user).0)
  {
    ShrinkThenHand(s, s.(tokens := ExpiredPurged(s.tokens, user, SetupChallenge, s.now)), user, SetupChallenge);
    var purged := ExpiredPurged(AttemptsPurged(policy.limits, s.tokens, user, s.now), user, LoginChallenge, s.now);
    ShrinkThenHand(s, s.(tokens := purged), user, LoginChallenge);
  }

  lemma RecordedShrinks(limits: Limits, s: State, user: UserId, challenge: TokenId)
    requires challenge < s.next
    ensures Shrinks(s, s.(tokens := Recorded(limits, s.tokens, user, challenge, s.now).0))
  {
    var counted := WithFailure(limits, s.tokens, user, challenge, s.now);
    forall t | t in counted ensures t in s.tokens || (t.purpose == LoginAttempt && t.token < s.next) {
      assert t in AttemptsPurged(limits, s.tokens, user, s.now)
        || t == GenericToken(user, challenge, LoginAttempt, s.now);
    }
  }

  lemma VerifyShrinks(policy: Policy, s: State, challenge: TokenId, enrolled: bool, right: bool)
    requires challenge < s.next
    ensures Shrinks(s, VerifyCode(policy, s, challenge, enrolled, right).0)
  {
    var row := CredentialRow(s.tokens, challenge, LoginChallenge);
    if row.Some? {
      RecordedShrinks(policy.limits, s, row.value.user, challenge);
    }
  }

  lemma VerifyKeeps(policy: Policy, s: State, challenge: TokenId, enrolled: bool, right: bool)
    requires Inv(s)
    ensures Inv(VerifyCode(policy, s, challenge, enrolled, right).0)
  {
    var row := CredentialRow(s.tokens, challenge, LoginChallenge);
    if row.Some? {
      assert row.value in s.tokens && RowIssued(s, row.value);
      VerifyShrinks(policy, s, challenge, enrolled, right);
      ShrinkKeeps(s, VerifyCode(policy, s, challenge, enrolled, right).0);
    }
  }

  lemma SetupUserKeeps(s: State, caller: Option<UserId>, bootstrap: Option<TokenId>)
    requires Inv(s)
    ensures Inv(SetupUser(s, caller, bootstrap).0)
  {
    ShrinkKeeps(s, SetupUser(s, caller, bootstrap).0);
  }

  lemma SetupKeeps(policy: Policy, s: State, caller: Option<UserId>, bootstrap: Option<TokenId>)
    requires Inv(s)
    ensures Inv(BeginTotpSetup(policy, s, caller, bootstrap).0)
  {
    var (asked, user) := SetupUser(s, caller, bootstrap);
    SetupUserKeeps(s, caller, bootstrap);
    if user.Some? {
      ShrinkThenHand(asked, asked.(tokens := RowsDropped(asked.tokens, user.value, SetupSecret)), user.value,
          SetupSecret);
    }
  }

  lemma SpendSecretKeeps(s: State, user: UserId, bootstrap: Option<TokenId>, right: bool)
    requires Inv(s) && user in s.accounts
    ensures Inv(SpendSecret(s, user, bootstrap, right).0)
  {
    ShrinkKeeps(s, SpendSecret(s, user, bootstrap, right).0);
  }

  lemma ActivateKeeps(policy: Policy, s: State, caller: Option<UserId>, bootstrap: Option<TokenId>, right: bool)
    requires Inv(s)
    ensures Inv(ActivateTotp(policy, s, caller, bootstrap, right).0)
  {
    SetupUserKeeps(s, caller, bootstrap);
    var (asked, user) := SetupUser(s, caller, bootstrap);
    if user.Some? && user.value in asked.accounts {
      SpendSecretKeeps(asked, user.value, bootstrap, right);
    }
  }

  lemma InvStep(policy: Policy, s: State, r: Request)
    requires Inv(s)
    ensures Inv(Serve(policy, s, r).0)
  {
    match r
    case RequestReset(user, email) => RequestResetKeeps(s, user, email);
    case OpenReset(link, signed) => OpenResetKeeps(policy, s, link, signed);
    case ResetPassword(capability, acceptable) => RedeemKeeps(policy, s, capability, acceptable);
    case SendConfirmation(user, signup) =>
      HandKeeps(s, user, Invitation);
      HandKeeps(s, user, EmailConfirmation);
    case FollowKey(key, names) => FollowKeyKeeps(policy, s, key, names);
    case SetPassword(capability, acceptable) => RedeemInvitationKeeps(policy, s, capability, acceptable);
    case Login(user) => LoginKeeps(policy, s, user);
    case Verify(challenge, enrolled, right) => VerifyKeeps(policy, s, challenge, enrolled, right);
    case BeginSetup(caller, bootstrap) => SetupKeeps(policy, s, caller, bootstrap);
    case Activate(caller, bootstrap, right) => ActivateKeeps(policy, s, caller, bootstrap, right);
    case _ => ShrinkKeeps(s, Serve(policy, s, r).0);
  }

  /** At most one credential is handed out, under the next id and dated now. */
  predicate HandsAtMostOne(s: State, s': State) {
    || (s'.next == s.next && s'.issued == s.issued)
    || (s'.next == s.next + 1 && s.next in s'.issued && s'.issued[s.next].at == s.now
        && s'.issued == s.issued[s.next := s'.issued[s.next]])
  }

  lemma HandsPassword(policy: Policy, s: State, r: Request)
    requires r.RequestReset? || r.OpenReset? || r.ResetPassword? || r.ChangePassword? || r.SendConfirmation?
      || r.FollowKey?
    ensures HandsAtMostOne(s, Serve(policy, s, r).0) && Serve(policy, s, r).0.now == s.now
  {
  }

  lemma HandsInvitation(policy: Policy, s: State, capability: TokenId, acceptable: bool)
    ensures HandsAtMostOne(s, RedeemInvitation(policy, s, capability, acceptable).0)
      && RedeemInvitation(policy, s, capability, acceptable).0.now == s.now
  {
  }

  lemma SetupUserHandsNothing(s: State, caller: Option<UserId>, bootstrap: Option<TokenId>)
    ensures SetupUser(s, caller, bootstrap).0 == s.(tokens := SetupUser(s, caller, bootstrap).0.tokens)
  {
  }

  lemma HandsSetup(policy: Policy, s: State, r: Request)
    requires r.BeginSetup? || r.Activate?
    ensures HandsAtMostOne(s, Serve(policy, s, r).0) && Serve(policy, s, r).0.now == s.now
  {
    var asked := SetupUser(s, r.caller, r.bootstrap).0;
    SetupUserHandsNothing(s, r.caller, r.bootstrap);
    assert asked.next == s.next && asked.issued == s.issued && asked.now == s.now;
  }

  lemma HandsLogin(policy: Policy, s: State, user: UserId)
    ensures HandsAtMostOne(s, GateLogin(policy, s, user).0) && GateLogin(policy, s, user).0.now == s.now
  {
  }

  lemma HandsVerify(policy: Policy, s: State, challenge: TokenId, enrolled: bool, right: bool)
    ensures var s' := VerifyCode(policy, s, challenge, enrolled, right).0; s' == s.(tokens := s'.tokens)
  {
  }

  lemma HandsStep(policy: Policy, s: State, r: Request)
    ensures HandsAtMostOne(s, Serve(policy, s, r).0)
    ensures Serve(policy, s, r).0.now == s.now + if r.Wait? then r.delta else 0
  {
    match r
    case SetPassword(capability, acceptable) => HandsInvitation(policy, s, capability, acceptable);
    case BeginSetup(_, _) => HandsSetup(policy, s, r);
    case Activate(_, _, _) => HandsSetup(policy, s, r);
    case Login(user) => HandsLogin(policy, s, user);
    case Verify(challenge, enrolled, right) => HandsVerify(policy, s, challenge, enrolled, right);
    case AddAccount(_, _, _) =>
    case SetActive(_, _) =>
    case AskReserved(_) =>
    case Wait(_) =>
    case RunPurge =>
    case _ => HandsPassword(policy, s, r);
  }

  lemma {:induction false} InvRun(policy: Policy, s: State, run: seq<Request>)
    requires Inv(s)
    ensures Inv(After(policy, s, run))
    decreases |run|
  {
    if run != [] {
      InvStep(policy, s, run[0]);
      InvRun(policy, Serve(policy, s, run[0]).0, run[1..]);
    }
  }
}
