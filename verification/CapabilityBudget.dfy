/** The limit per challenge, told of the codes a client has tried rather than of the rows left in the table. */
module CapabilityBudget {
  import opened Basics
  import opened Store
  import opened MfaStorage
  import opened Purge
  import opened Capabilities
  import opened CapabilityInvariants
  import opened CapabilityTable
  import opened CapabilityLimiter
  import opened CapabilityCounts

  // ---------------------------------------------------------------- the budget

  /** Wrong codes given on the challenge since its owner last passed, `spent` of them before the run. */
  function Spent(policy: Policy, s: State, run: seq<Request>, user: UserId, challenge: TokenId, spent: nat): nat
    decreases |run|
  {
    if run == [] then spent
    else
      var (s', answer) := Serve(policy, s, run[0]);
      Spent(policy, s', run[1..], user, challenge, SpentAfter(s, run[0], answer, user, challenge, spent))
  }

  function SpentAfter(s: State, r: Request, answer: Answer, user: UserId, challenge: TokenId, spent: nat): nat {
    if Clears(r, answer, user) then 0
    else if Misses(s, r, answer, user) && r.challenge == challenge then spent + 1
    else spent
  }

  /** The challenge was handed to `user`, and the table counts what was spent for as long as it can be answered. */
  ghost predicate Budgeted(policy: Policy, s: State, user: UserId, challenge: TokenId, spent: nat) {
    && challenge in s.issued && s.issued[challenge].user == user && s.issued[challenge].purpose == LoginChallenge
    && spent <= policy.limits.challengeMax
    && (ChallengeUser(s, challenge).Some? ==> spent == ChallengeFailures(s.tokens, user, challenge))
  }

  /** A challenge that can be answered is the one handed out, and has attempts left. */
  lemma LiveChallenge(policy: Policy, s: State, challenge: TokenId)
    requires Limited(policy, s) && ChallengeUser(s, challenge).Some? && policy.limits.challengeMax > 0
    ensures challenge in s.issued && ChallengeUser(s, challenge).value == s.issued[challenge].user
    ensures ChallengeFailures(s.tokens, s.issued[challenge].user, challenge) < policy.limits.challengeMax
  {
    var row := CredentialRow(s.tokens, challenge, LoginChallenge).value;
    assert row in s.tokens && RowIssued(s, row);
  }

  /** A challenge that can be answered now, and is no new one, could be answered before. */
  lemma LiveBefore(policy: Policy, s: State, r: Request, challenge: TokenId)
    requires Inv(s) && challenge in s.issued && ChallengeUser(Serve(policy, s, r).0, challenge).Some?
    ensures ChallengeUser(s, challenge).Some?
  {
    var s' := Serve(policy, s, r).0;
    var row := CredentialRow(s'.tokens, challenge, LoginChallenge).value;
    assert row in s'.tokens;
    ChallengeBefore(policy, s, r, row);
    HandsStep(policy, s, r);
    assert row in Keep(s.tokens, TokensOf(challenge, LoginChallenge));
  }

  lemma {:induction false} ClearedCount(tokens: seq<GenericToken>, user: UserId, challenge: TokenId)
    ensures ChallengeFailures(RowsDropped(tokens, user, LoginAttempt), user, challenge) == 0
  {
    if tokens != [] {
      ClearedCount(tokens[1..], user, challenge);
    }
  }

  lemma SuccessClears(policy: Policy, s: State, id: TokenId, enrolled: bool, right: bool, user: UserId,
          challenge: TokenId)
    requires VerifyCode(policy, s, id, enrolled, right).1 == SignedIn(user)
    ensures ChallengeFailures(VerifyCode(policy, s, id, enrolled, right).0.tokens, user, challenge) == 0
  {
    ClearedCount(TokenDropped(s.tokens, id, LoginChallenge), user, challenge);
  }

  lemma CountMoves(policy: Policy, s: State, r: Request, user: UserId, challenge: TokenId, spent: nat)
    requires KeepsBuiltIns(policy) && RecentOn(s.tokens, challenge, s.now - TOKEN_MAX_AGE)
    requires spent == ChallengeFailures(s.tokens, user, challenge)
    ensures ChallengeFailures(Serve(policy, s, r).0.tokens, user, challenge)
      == SpentAfter(s, r, Serve(policy, s, r).1, user, challenge, spent)
  {
    var (s', answer) := Serve(policy, s, r);
    var p := FailuresOn(user, challenge);
    if Clears(r, answer, user) {
      SuccessClears(policy, s, r.challenge, r.enrolled, r.right, user, challenge);
    } else if r.Verify? && answer.WrongCode? {
      WrongCodeRecords(policy, s, r.challenge, r.enrolled, r.right);
      FailureAdds(policy.limits, s.tokens, ChallengeUser(s, r.challenge).value, r.challenge, s.now, user, p);
    } else {
      FlowsSpare(policy, s, r, user, p);
    }
  }

  lemma BudgetStep(policy: Policy, s: State, r: Request, user: UserId, challenge: TokenId, spent: nat)
    requires KeepsBuiltIns(policy) && policy.limits.challengeMax > 0
    requires Limited(policy, s) && Budgeted(policy, s, user, challenge, spent)
    ensures Budgeted(policy, Serve(policy, s, r).0, user, challenge,
      SpentAfter(s, r, Serve(policy, s, r).1, user, challenge, spent))
  {
    var (s', answer) := Serve(policy, s, r);
    HandsStep(policy, s, r);
    assert challenge < s.next;
    if ChallengeUser(s, challenge).Some? {
      LiveChallenge(policy, s, challenge);
      LiveFailuresAreRecent(s, challenge);
      CountMoves(policy, s, r, user, challenge, spent);
    } else if ChallengeUser(s', challenge).Some? {
      LiveBefore(policy, s, r, challenge);
    }
  }

  /**
   The budget of a challenge: over any serial run, whatever is purged meanwhile, at most the
   configured number of wrong codes is ever taken on one challenge between two successes of
   its owner.
   */
  lemma {:induction false} ChallengeBudget(policy: Policy, s: State, run: seq<Request>, user: UserId,
          challenge: TokenId, spent: nat)
    requires KeepsBuiltIns(policy) && policy.limits.challengeMax > 0
    requires Limited(policy, s) && Budgeted(policy, s, user, challenge, spent)
    ensures Spent(policy, s, run, user, challenge, spent) <= policy.limits.challengeMax
    decreases |run|
  {
    if run != [] {
      var (s', answer) := Serve(policy, s, run[0]);
      BudgetStep(policy, s, run[0], user, challenge, spent);
      LimitedStep(policy, s, run[0]);
      ChallengeBudget(policy, s', run[1..], user, challenge, SpentAfter(s, run[0], answer, user, challenge, spent));
    }
  }

  /** A challenge starts out with its whole budget. */
  lemma BudgetStarts(policy: Policy, s: State, user: UserId)
    requires Limited(policy, s) && policy.limits.challengeMax > 0
    ensures var (s', answer) := HandLoginChallenge(policy, s, user);
      answer.Handed? && Budgeted(policy, s', user, answer.id, 0)
  {
    var s' := HandLoginChallenge(policy, s, user).0;
    LoginChallengeHand(policy, s, user);
    NewChallengeUntouched(s, user);
    PrunedCount(s.tokens + [GenericToken(user, s.next, LoginChallenge, s.now)], s'.tokens, FailuresOn(user, s.next));
    KeepPast(s.tokens, GenericToken(user, s.next, LoginChallenge, s.now), FailuresOn(user, s.next));
  }
}
