/** What the attempt limits keep when requests come one at a time. */
module CapabilityLimiter {
  import opened Basics
  import opened Store
  import opened MfaStorage
  import opened Purge
  import opened Capabilities
  import opened CapabilityInvariants
  import opened CapabilityTable

  // --------------------------------------------------------------- the invariant

  predicate HoldsChallenge(tokens: seq<GenericToken>, user: UserId) {
    Count(tokens, RowsOf(user, LoginChallenge)) > 0
  }

  /** The failures in the window have reached the limit of the user. */
  predicate OverLimit(limits: Limits, tokens: seq<GenericToken>, user: UserId, now: int) {
    0 < limits.userMax <= FailuresSince(tokens, user, now - Window(limits))
  }

  /** An account over its limit holds no login challenge at all. */
  ghost predicate OverLimitHoldsNone(policy: Policy, s: State) {
    forall user :: OverLimit(policy.limits, s.tokens, user, s.now) ==> !HoldsChallenge(s.tokens, user)
  }

  /** Every login challenge still has an attempt left. */
  ghost predicate AttemptsLeft(policy: Policy, s: State) {
    forall t :: t in s.tokens && t.purpose == LoginChallenge && policy.limits.challengeMax > 0 ==>
      ChallengeFailures(s.tokens, t.user, t.token) < policy.limits.challengeMax
  }

  /** No failure on a challenge is older than the challenge. */
  ghost predicate FailuresFollow(s: State) {
    forall t :: t in s.tokens && t.purpose == LoginAttempt && t.token in s.issued ==> s.issued[t.token].at <= t.created
  }

  ghost predicate Limited(policy: Policy, s: State) {
    Inv(s) && OverLimitHoldsNone(policy, s) && AttemptsLeft(policy, s) && FailuresFollow(s)
  }

  /** A wrong code on a challenge of the user. */
  predicate Misses(s: State, r: Request, answer: Answer, user: UserId) {
    r.Verify? && answer.WrongCode? && ChallengeUser(s, r.challenge) == Some(user)
  }

  // --------------------------------------------------------------- the lockout

  /** What is handed out is new and no failure. */
  lemma HandedIsTracked(policy: Policy, s: State, r: Request)
    requires Serve(policy, s, r).1.Handed?
    ensures Serve(policy, s, r).1.id == s.next && Tracked(Serve(policy, s, r).1.credential.purpose)
  {
    if r.BeginSetup? {
      SetupUserHandsNothing(s, r.caller, r.bootstrap);
    }
  }

  lemma WritesNoFailure(policy: Policy, s: State, r: Request, user: UserId, p: GenericToken -> bool)
    requires !Misses(s, r, Serve(policy, s, r).1, user)
    requires forall t :: p(t) ==> IsRow(t, user, LoginAttempt)
    ensures Count(Written(s, r, Serve(policy, s, r).1), p) == 0
  {
    var answer := Serve(policy, s, r).1;
    if answer.Handed? {
      HandedIsTracked(policy, s, r);
    }
    KeepNone(Written(s, r, answer), p);
  }

  lemma FailuresOnlyFall(policy: Policy, s: State, r: Request, user: UserId, since: int)
    requires !Misses(s, r, Serve(policy, s, r).1, user)
    ensures FailuresSince(Serve(policy, s, r).0.tokens, user, since) <= FailuresSince(s.tokens, user, since)
  {
    CountStep(policy, s, r, FailuresFrom(user, since));
    WritesNoFailure(policy, s, r, user, FailuresFrom(user, since));
  }

  lemma NarrowerWindow(tokens: seq<GenericToken>, user: UserId, since: int, later: int)
    requires since <= later
    ensures FailuresSince(tokens, user, later) <= FailuresSince(tokens, user, since)
  {
    CountMonotone(tokens, FailuresFrom(user, later), FailuresFrom(user, since));
  }

  /** Time alone releases; without a failure nobody is over the limit who was not before. */
  lemma OverLimitBefore(policy: Policy, s: State, r: Request, user: UserId)
    requires !Misses(s, r, Serve(policy, s, r).1, user)
    requires OverLimit(policy.limits, Serve(policy, s, r).0.tokens, user, Serve(policy, s, r).0.now)
    ensures OverLimit(policy.limits, s.tokens, user, s.now)
  {
    var s' := Serve(policy, s, r).0;
    HandsStep(policy, s, r);
    FailuresOnlyFall(policy, s, r, user, s'.now - Window(policy.limits));
    NarrowerWindow(s.tokens, user, s.now - Window(policy.limits), s'.now - Window(policy.limits));
  }

  lemma ChallengeIsForTheFree(policy: Policy, s: State, r: Request)
    requires Serve(policy, s, r).1.Handed? && Serve(policy, s, r).1.credential.purpose == LoginChallenge
    ensures !OverLimit(policy.limits, s.tokens, Serve(policy, s, r).1.credential.user, s.now)
  {
    assert r.Login?;
    LockoutIsWindowCount(policy.limits, s.tokens, r.user, s.now);
  }

  /** Who is over the limit is handed no login challenge. */
  lemma NoChallengeOverLimit(policy: Policy, s: State, r: Request, user: UserId)
    requires OverLimit(policy.limits, s.tokens, user, s.now)
    ensures Count(Written(s, r, Serve(policy, s, r).1), RowsOf(user, LoginChallenge)) == 0
  {
    var answer := Serve(policy, s, r).1;
    if answer.Handed? && answer.credential.purpose == LoginChallenge {
      ChallengeIsForTheFree(policy, s, r);
    }
    KeepNone(Written(s, r, answer), RowsOf(user, LoginChallenge));
  }

  /** A failure that reaches the limit takes the challenges of the account with it. */
  lemma MissLocksOut(limits: Limits, tokens: seq<GenericToken>, user: UserId, challenge: TokenId, now: int)
    requires OverLimit(limits, Recorded(limits, tokens, user, challenge, now).0, user, now)
    ensures !HoldsChallenge(Recorded(limits, tokens, user, challenge, now).0, user)
  {
    var counted := WithFailure(limits, tokens, user, challenge, now);
    ChallengesAside(counted, user, challenge, FailuresFrom(user, now - Window(limits)));
    LockoutIsWindowCount(limits, counted, user, now);
    DroppedAreGone(counted, user);
  }

  lemma DroppedAreGone(tokens: seq<GenericToken>, user: UserId)
    ensures !HoldsChallenge(RowsDropped(tokens, user, LoginChallenge), user)
  {
    KeepNone(RowsDropped(tokens, user, LoginChallenge), RowsOf(user, LoginChallenge));
  }

  lemma OverLimitStep(policy: Policy, s: State, r: Request, user: UserId)
    requires OverLimitHoldsNone(policy, s)
    requires OverLimit(policy.limits, Serve(policy, s, r).0.tokens, user, Serve(policy, s, r).0.now)
    ensures !HoldsChallenge(Serve(policy, s, r).0.tokens, user)
  {
    if Misses(s, r, Serve(policy, s, r).1, user) {
      WrongCodeRecords(policy, s, r.challenge, r.enrolled, r.right);
      MissLocksOut(policy.limits, s.tokens, user, r.challenge, s.now);
    } else {
      OverLimitBefore(policy, s, r, user);
      NoChallengeOverLimit(policy, s, r, user);
      CountStep(policy, s, r, RowsOf(user, LoginChallenge));
    }
  }

  // ------------------------------------------------------- the limit per challenge

  lemma MissLeavesAttempts(limits: Limits, tokens: seq<GenericToken>, user: UserId, challenge: TokenId, now: int)
    requires limits.challengeMax > 0
    requires Keep(Recorded(limits, tokens, user, challenge, now).0, TokensOf(challenge, LoginChallenge)) != []
      && HoldsChallenge(Recorded(limits, tokens, user, challenge, now).0, user)
    ensures ChallengeFailures(Recorded(limits, tokens, user, challenge, now).0, user, challenge) < limits.challengeMax
  {
    var counted := WithFailure(limits, tokens, user, challenge, now);
    DroppedAreGone(counted, user);
    KeepNone(TokenDropped(counted, challenge, LoginChallenge), TokensOf(challenge, LoginChallenge));
  }

  lemma FailuresOnFall(policy: Policy, s: State, r: Request, user: UserId, challenge: TokenId)
    requires !(Misses(s, r, Serve(policy, s, r).1, user) && r.challenge == challenge)
    ensures ChallengeFailures(Serve(policy, s, r).0.tokens, user, challenge)
      <= ChallengeFailures(s.tokens, user, challenge)
  {
    var answer := Serve(policy, s, r).1;
    CountStep(policy, s, r, FailuresOn(user, challenge));
    if answer.Handed? {
      HandedIsTracked(policy, s, r);
    }
    KeepNone(Written(s, r, answer), FailuresOn(user, challenge));
  }

  /** A challenge that is still there after the request was there before, or has just been handed out. */
  lemma ChallengeBefore(policy: Policy, s: State, r: Request, t: GenericToken)
    requires Inv(s) && t in Serve(policy, s, r).0.tokens && t.purpose == LoginChallenge
    ensures t in s.tokens || t.token == s.next
  {
    var answer := Serve(policy, s, r).1;
    EditStep(policy, s, r);
    PrunedMember(s.tokens + Written(s, r, answer), Serve(policy, s, r).0.tokens, t);
    if answer.Handed? {
      HandedIsTracked(policy, s, r);
    }
  }

  lemma NewChallengeUntouched(s: State, user: UserId)
    requires Inv(s)
    ensures ChallengeFailures(s.tokens, user, s.next) == 0
  {
    KeepNone(s.tokens, FailuresOn(user, s.next));
  }

  lemma MissStep(policy: Policy, s: State, r: Request, t: GenericToken)
    requires Misses(s, r, Serve(policy, s, r).1, t.user) && r.challenge == t.token && policy.limits.challengeMax > 0
    requires t in Serve(policy, s, r).0.tokens && t.purpose == LoginChallenge
    ensures ChallengeFailures(Serve(policy, s, r).0.tokens, t.user, t.token) < policy.limits.challengeMax
  {
    WrongCodeRecords(policy, s, r.challenge, r.enrolled, r.right);
    MissLeavesAttempts(policy.limits, s.tokens, t.user, t.token, s.now);
  }

  lemma AttemptsLeftStep(policy: Policy, s: State, r: Request, t: GenericToken)
    requires Inv(s) && AttemptsLeft(policy, s) && policy.limits.challengeMax > 0
    requires t in Serve(policy, s, r).0.tokens && t.purpose == LoginChallenge
    ensures ChallengeFailures(Serve(policy, s, r).0.tokens, t.user, t.token) < policy.limits.challengeMax
  {
    ChallengeBefore(policy, s, r, t);
    if Misses(s, r, Serve(policy, s, r).1, t.user) && r.challenge == t.token {
      MissStep(policy, s, r, t);
    } else {
      FailuresOnFall(policy, s, r, t.user, t.token);
      if t.token == s.next {
        NewChallengeUntouched(s, t.user);
      }
    }
  }

  lemma FollowStep(policy: Policy, s: State, r: Request, t: GenericToken)
    requires Inv(s) && FailuresFollow(s)
    requires var s' := Serve(policy, s, r).0; t in s'.tokens && t.purpose == LoginAttempt && t.token in s'.issued
    ensures Serve(policy, s, r).0.issued[t.token].at <= t.created
  {
    var (s', answer) := Serve(policy, s, r);
    EditStep(policy, s, r);
    HandsStep(policy, s, r);
    PrunedMember(s.tokens + Written(s, r, answer), s'.tokens, t);
    if answer.Handed? {
      HandedIsTracked(policy, s, r);
    }
    if t in s.tokens {
      assert t.token < s.next;
    } else {
      assert r.challenge == t.token && CredentialRow(s.tokens, r.challenge, LoginChallenge).value in s.tokens;
    }
  }

  lemma LimitedStep(policy: Policy, s: State, r: Request)
    requires Limited(policy, s)
    ensures Limited(policy, Serve(policy, s, r).0)
  {
    var s' := Serve(policy, s, r).0;
    InvStep(policy, s, r);
    forall user | OverLimit(policy.limits, s'.tokens, user, s'.now) ensures !HoldsChallenge(s'.tokens, user) {
      OverLimitStep(policy, s, r, user);
    }
    forall t | t in s'.tokens && t.purpose == LoginChallenge && policy.limits.challengeMax > 0
      ensures ChallengeFailures(s'.tokens, t.user, t.token) < policy.limits.challengeMax
    {
      AttemptsLeftStep(policy, s, r, t);
    }
    forall t | t in s'.tokens && t.purpose == LoginAttempt && t.token in s'.issued
      ensures s'.issued[t.token].at <= t.created
    {
      FollowStep(policy, s, r, t);
    }
  }

  /**
   The limiter over any serial run: who is over the limit holds no login challenge, and every
   challenge in the table has an attempt left.
   */
  lemma {:induction false} LimitsHold(policy: Policy, s: State, run: seq<Request>)
    requires Limited(policy, s)
    ensures Limited(policy, After(policy, s, run))
    decreases |run|
  {
    if run != [] {
      LimitedStep(policy, s, run[0]);
      LimitsHold(policy, Serve(policy, s, run[0]).0, run[1..]);
    }
  }

  lemma NoneHeld(tokens: seq<GenericToken>, user: UserId)
    requires !HoldsChallenge(tokens, user)
    ensures forall t :: t in tokens ==> !IsRow(t, user, LoginChallenge)
  {
    forall t | t in tokens ensures !IsRow(t, user, LoginChallenge) {
    }
  }

  /** The lockout, as the endpoints ask for it, and a challenge exclude each other. */
  lemma LockedOutHoldsNone(policy: Policy, s: State, run: seq<Request>, user: UserId)
    requires Limited(policy, s)
    ensures var s' := After(policy, s, run);
      LockedOut(policy.limits, s'.tokens, user, s'.now) ==>
        forall t :: t in s'.tokens ==> !IsRow(t, user, LoginChallenge)
  {
    var s' := After(policy, s, run);
    LimitsHold(policy, s, run);
    LockoutIsWindowCount(policy.limits, s'.tokens, user, s'.now);
    if !HoldsChallenge(s'.tokens, user) {
      NoneHeld(s'.tokens, user);
    }
  }

  /** An installation that has handed out nothing yet satisfies the invariant. */
  lemma WhereRunsStart(policy: Policy, now: int, accounts: map<UserId, Account>, addresses: seq<Address>)
    ensures Limited(policy, State(now, [], map[], accounts, addresses, 0))
  {
  }

  // ------------------------------------------------------- the purge of attempts

  /** Every failure on the challenge is dated `cut` or later. */
  ghost predicate RecentOn(tokens: seq<GenericToken>, challenge: TokenId, cut: int) {
    forall t :: t in tokens && IsToken(t, challenge, LoginAttempt) ==> cut <= t.created
  }

  lemma PurgeSparesLockout(limits: Limits, tokens: seq<GenericToken>, user: UserId, now: int)
    ensures LockoutRemaining(limits, AttemptsPurged(limits, tokens, user, now), user, now)
      == LockoutRemaining(limits, tokens, user, now)
  {
    AgedOutUncounted(limits, tokens, user, now, now - Window(limits));
    LockoutByFailures(limits, AttemptsPurged(limits, tokens, user, now), tokens, user, now);
  }

  /** The failures on a challenge that can still be answered are all recent. */
  lemma LiveFailuresAreRecent(s: State, challenge: TokenId)
    requires Inv(s) && FailuresFollow(s) && ChallengeUser(s, challenge).Some?
    ensures RecentOn(s.tokens, challenge, s.now - TOKEN_MAX_AGE)
  {
    var row := CredentialRow(s.tokens, challenge, LoginChallenge).value;
    assert row in s.tokens && RowIssued(s, row);
  }

  lemma PurgeSparesFailures(limits: Limits, tokens: seq<GenericToken>, user: UserId, challenge: TokenId, now: int)
    requires RecentOn(tokens, challenge, now - TOKEN_MAX_AGE)
    ensures ChallengeFailures(AttemptsPurged(limits, tokens, user, now), user, challenge)
      == ChallengeFailures(tokens, user, challenge)
  {
    KeepKeep(tokens, NotOlder(user, LoginAttempt, now - AttemptAge(limits)), FailuresOn(user, challenge),
        FailuresOn(user, challenge));
  }

  /**
   Dropping the attempts too old to count changes neither the lockout nor, for a challenge
   that can still be answered, the number of failures on it.
   */
  lemma PurgedAttemptsDoNotCount(policy: Policy, s: State, user: UserId, challenge: TokenId)
    requires Limited(policy, s)
    ensures var purged := AttemptsPurged(policy.limits, s.tokens, user, s.now);
      && LockoutRemaining(policy.limits, purged, user, s.now) == LockoutRemaining(policy.limits, s.tokens, user, s.now)
      && (ChallengeUser(s, challenge).Some? ==>
            ChallengeFailures(purged, user, challenge) == ChallengeFailures(s.tokens, user, challenge))
  {
    PurgeSparesLockout(policy.limits, s.tokens, user, s.now);
    if ChallengeUser(s, challenge).Some? {
      LiveFailuresAreRecent(s, challenge);
      PurgeSparesFailures(policy.limits, s.tokens, user, challenge, s.now);
    }
  }
}
