/**
 Purging the single-use tokens changes no answer: a system that purges whenever it likes and
 one that never does cannot be told apart by their requests.
 */
module CapabilityPurge {
  import opened Basics
  import opened Store
  import opened MfaStorage
  import opened Purge
  import opened Capabilities
  import opened CapabilityInvariants
  import Sessions
  import Rotation

  // ------------------------------------------------------------- the live rows

  /** The rows of a purpose the library knows that are still within their lifetime. */
  predicate IsFresh(policy: Policy, now: int, t: GenericToken) {
    !t.purpose.Custom? && now - Lifetime(policy, t.purpose) <= t.created
  }

  function FreshAt(policy: Policy, now: int): GenericToken -> bool {
    (t: GenericToken) => IsFresh(policy, now, t)
  }

  function LiveRows(policy: Policy, now: int, tokens: seq<GenericToken>): seq<GenericToken> {
    Keep(tokens, FreshAt(policy, now))
  }

  predicate SameLive(policy: Policy, now: int, x: seq<GenericToken>, y: seq<GenericToken>) {
    LiveRows(policy, now, x) == LiveRows(policy, now, y)
  }

  lemma SameKept(policy: Policy, now: int, x: seq<GenericToken>, y: seq<GenericToken>, p: GenericToken -> bool)
    requires SameLive(policy, now, x, y)
    ensures SameLive(policy, now, Keep(x, p), Keep(y, p))
  {
    KeepCommute(x, p, FreshAt(policy, now));
    KeepCommute(y, p, FreshAt(policy, now));
  }

  lemma SameAppended(policy: Policy, now: int, x: seq<GenericToken>, y: seq<GenericToken>, t: GenericToken)
    requires SameLive(policy, now, x, y)
    ensures SameLive(policy, now, x + [t], y + [t])
  {
    KeepAppend(x, [t], FreshAt(policy, now));
    KeepAppend(y, [t], FreshAt(policy, now));
  }

  /** Rows that go stale stay stale. */
  lemma {:induction false} LiveLater(policy: Policy, now: int, later: int, tokens: seq<GenericToken>)
    requires now <= later
    ensures LiveRows(policy, later, LiveRows(policy, now, tokens)) == LiveRows(policy, later, tokens)
  {
    if tokens != [] {
      LiveLater(policy, now, later, tokens[1..]);
    }
  }

  /** A purge takes no live row, provided no override shortens a lifetime. */
  lemma {:induction false} PurgeSparesLive(policy: Policy, now: int, tokens: seq<GenericToken>)
    requires KeepsBuiltIns(policy)
    ensures SameLive(policy, now, PurgedTokens(Retentions(policy), now, tokens), tokens)
  {
    if tokens != [] {
      PurgeSparesLive(policy, now, tokens[1..]);
      var t := tokens[0];
      if PastRetention(Retentions(policy), now, t) && !t.purpose.Custom? {
        RetentionCovers(policy, t.purpose);
      }
    }
  }

  /** A query that only selects live rows cannot see what else is in the table. */
  lemma SameAnswer(policy: Policy, now: int, x: seq<GenericToken>, y: seq<GenericToken>, p: GenericToken -> bool)
    requires SameLive(policy, now, x, y)
    requires forall t :: t in x && p(t) ==> IsFresh(policy, now, t)
    requires forall t :: t in y && p(t) ==> IsFresh(policy, now, t)
    ensures Keep(x, p) == Keep(y, p)
  {
    KeepKeep(x, FreshAt(policy, now), p, p);
    KeepKeep(y, FreshAt(policy, now), p, p);
  }

  lemma SameSelected(policy: Policy, now: int, x: seq<GenericToken>, y: seq<GenericToken>, p: GenericToken -> bool)
    requires SameLive(policy, now, x, y)
    requires forall t :: p(t) ==> IsFresh(policy, now, t)
    ensures Keep(x, p) == Keep(y, p)
  {
    SameAnswer(policy, now, x, y, p);
  }

  /** The same for a query that filters by age itself. */
  lemma SameRecent(policy: Policy, now: int, x: seq<GenericToken>, y: seq<GenericToken>, p: GenericToken -> bool,
          cut: int)
    requires SameLive(policy, now, x, y)
    requires forall t :: p(t) && cut <= t.created ==> IsFresh(policy, now, t)
    ensures Keep(Keep(x, p), CreatedFrom(cut)) == Keep(Keep(y, p), CreatedFrom(cut))
  {
    SameKept(policy, now, x, y, p);
    SameAnswer(policy, now, Keep(x, p), Keep(y, p), CreatedFrom(cut));
  }

  // ----------------------------------------------------------- one request, twice

  /** The same installation, but for rows that are no longer live. */
  ghost predicate Twins(policy: Policy, a: State, b: State) {
    b == a.(tokens := b.tokens) && SameLive(policy, a.now, a.tokens, b.tokens)
  }

  ghost predicate Alike(policy: Policy, x: (State, Answer), y: (State, Answer)) {
    x.1 == y.1 && Twins(policy, x.0, y.0)
  }

  lemma HandAlike(policy: Policy, a: State, b: State, user: UserId, purpose: Purpose)
    requires Twins(policy, a, b)
    ensures Alike(policy, Hand(a, user, purpose), Hand(b, user, purpose))
  {
    SameAppended(policy, a.now, a.tokens, b.tokens, GenericToken(user, a.next, purpose, a.now));
  }

  lemma PresentAlike(policy: Policy, a: State, b: State, id: TokenId, purpose: Purpose)
    requires Twins(policy, a, b) && Inv(a) && Inv(b) && Tracked(purpose)
    requires id in a.issued ==> a.now - Lifetime(policy, purpose) <= a.issued[id].at
    ensures Present(a.tokens, id, purpose) == Present(b.tokens, id, purpose)
  {
    forall t | (t in a.tokens || t in b.tokens) && IsToken(t, id, purpose) ensures IsFresh(policy, a.now, t) {
      assert RowIssued(a, t);
    }
    SameAnswer(policy, a.now, a.tokens, b.tokens, TokensOf(id, purpose));
  }

  lemma RequestResetAlike(policy: Policy, a: State, b: State, user: UserId, email: Email)
    requires Twins(policy, a, b)
    ensures Alike(policy, RequestResetLink(a, user, email), RequestResetLink(b, user, email))
  {
    HandAlike(policy, a, b, user, PassReset);
    SameKept(policy, a.now, Hand(a, user, PassReset).0.tokens, Hand(b, user, PassReset).0.tokens,
             NotSuperseded(user, PassReset, a.next));
  }

  /** A link whose signature Django still honours although the retention of its row is over. */
  predicate LateLink(policy: Policy, at: int, now: int) {
    LinkTimely(policy, at, now) && at < now - Lifetime(policy, PassReset)
  }

  lemma OpenResetAlike(policy: Policy, a: State, b: State, link: TokenId, signed: bool)
    requires Twins(policy, a, b) && Inv(a) && Inv(b)
    requires link in a.issued ==> !LateLink(policy, a.issued[link].at, a.now)
    ensures Alike(policy, OpenResetLink(policy, a, link, signed), OpenResetLink(policy, b, link, signed))
  {
    if link in a.issued && LinkTimely(policy, a.issued[link].at, a.now) {
      var user := a.issued[link].user;
      PresentAlike(policy, a, b, link, PassReset);
      SameKept(policy, a.now, a.tokens, b.tokens, ExceptToken(link, PassReset));
      var x, y := TokenDropped(a.tokens, link, PassReset), TokenDropped(b.tokens, link, PassReset);
      SameKept(policy, a.now, x, y, Except(user, PassResetAccess));
      HandAlike(policy, a.(tokens := RowsDropped(x, user, PassResetAccess)),
                b.(tokens := RowsDropped(y, user, PassResetAccess)), user, PassResetAccess);
    }
  }

  lemma CapabilityAlike(policy: Policy, a: State, b: State, id: TokenId, purpose: Purpose)
    requires Twins(policy, a, b) && Inv(a) && Inv(b) && purpose in {PassResetAccess, PassSetAccess}
    requires IsCapability(policy, a, id, purpose)
    ensures Present(a.tokens, id, purpose) == Present(b.tokens, id, purpose)
    ensures SameLive(policy, a.now, TokenDropped(a.tokens, id, purpose), TokenDropped(b.tokens, id, purpose))
  {
    PresentAlike(policy, a, b, id, purpose);
    SameKept(policy, a.now, a.tokens, b.tokens, ExceptToken(id, purpose));
  }

  lemma ChangeAlike(policy: Policy, a: State, b: State, user: UserId)
    requires Twins(policy, a, b) && user in a.accounts
    ensures Twins(policy, CredentialsChanged(policy, a, user), CredentialsChanged(policy, b, user))
  {
    SameKept(policy, a.now, a.tokens, b.tokens, Rotation.OutlivesHandover(user));
  }

  lemma RedeemAlike(policy: Policy, a: State, b: State, capability: TokenId, acceptable: bool)
    requires Twins(policy, a, b) && Inv(a) && Inv(b)
    ensures Alike(policy, RedeemReset(policy, a, capability, acceptable),
      RedeemReset(policy, b, capability, acceptable))
  {
    if IsCapability(policy, a, capability, PassResetAccess) {
      CapabilityAlike(policy, a, b, capability, PassResetAccess);
      var x := a.(tokens := TokenDropped(a.tokens, capability, PassResetAccess));
      var y := b.(tokens := TokenDropped(b.tokens, capability, PassResetAccess));
      var user := a.issued[capability].user;
      if user in a.accounts {
        ChangeAlike(policy, x, y, user);
      }
    }
  }

  lemma SetupChallengeAlike(policy: Policy, a: State, b: State, user: UserId)
    requires Twins(policy, a, b)
    ensures Alike(policy, HandSetupChallenge(a, user), HandSetupChallenge(b, user))
  {
    var p := NotOlder(user, SetupChallenge, a.now - TOKEN_MAX_AGE);
    SameKept(policy, a.now, a.tokens, b.tokens, p);
    HandAlike(policy, a.(tokens := Keep(a.tokens, p)), b.(tokens := Keep(b.tokens, p)), user, SetupChallenge);
  }

  lemma SettleAlike(policy: Policy, a: State, b: State, user: UserId)
    requires Twins(policy, a, b)
    ensures Twins(policy,
                  a.(tokens := RowsDropped(RowsDropped(a.tokens, user, Invitation), user, EmailConfirmation)),
                  b.(tokens := RowsDropped(RowsDropped(b.tokens, user, Invitation), user, EmailConfirmation)))
  {
    SameKept(policy, a.now, a.tokens, b.tokens, Except(user, Invitation));
    SameKept(policy, a.now, RowsDropped(a.tokens, user, Invitation), RowsDropped(b.tokens, user, Invitation),
             Except(user, EmailConfirmation));
  }

  lemma CompleteAlike(policy: Policy, a: State, b: State, user: UserId)
    requires Twins(policy, a, b) && user in a.accounts
    ensures Alike(policy, CompleteInvitation(policy, a, user), CompleteInvitation(policy, b, user))
  {
    ChangeAlike(policy, a, b, user);
    var x, y := CredentialsChanged(policy, a, user), CredentialsChanged(policy, b, user);
    SettleAlike(policy, x, y, user);
    SetupChallengeAlike(policy,
      x.(tokens := RowsDropped(RowsDropped(x.tokens, user, Invitation), user, EmailConfirmation)),
      y.(tokens := RowsDropped(RowsDropped(y.tokens, user, Invitation), user, EmailConfirmation)), user);
  }

  lemma RedeemInvitationAlike(policy: Policy, a: State, b: State, capability: TokenId, acceptable: bool)
    requires Twins(policy, a, b) && Inv(a) && Inv(b)
    ensures Alike(policy, RedeemInvitation(policy, a, capability, acceptable),
      RedeemInvitation(policy, b, capability, acceptable))
  {
    if IsCapability(policy, a, capability, PassSetAccess) {
      CapabilityAlike(policy, a, b, capability, PassSetAccess);
      var x := a.(tokens := TokenDropped(a.tokens, capability, PassSetAccess));
      var y := b.(tokens := TokenDropped(b.tokens, capability, PassSetAccess));
      var user := a.issued[capability].user;
      if user in a.accounts {
        CompleteAlike(policy, x, y, user);
      }
    }
  }

  lemma EntryAlike(policy: Policy, a: State, b: State, key: TokenId)
    requires Twins(policy, a, b)
    ensures EntryOf(policy, a, key) == EntryOf(policy, b, key)
  {
    SameSelected(policy, a.now, a.tokens, b.tokens, EntriesOf(key, a.now - policy.confirmationWindow));
  }

  lemma SetCapabilityAlike(policy: Policy, a: State, b: State, user: UserId)
    requires Twins(policy, a, b)
    ensures Alike(policy, HandSetCapability(a, user), HandSetCapability(b, user))
  {
    SameKept(policy, a.now, a.tokens, b.tokens, Except(user, PassSetAccess));
    HandAlike(policy, a.(tokens := RowsDropped(a.tokens, user, PassSetAccess)),
              b.(tokens := RowsDropped(b.tokens, user, PassSetAccess)), user, PassSetAccess);
  }

  lemma ConfirmEntryAlike(policy: Policy, a: State, b: State, entry: GenericToken, names: Option<Address>)
    requires Twins(policy, a, b)
    ensures Alike(policy, ConfirmEntry(policy, a, entry, names), ConfirmEntry(policy, b, entry, names))
  {
    SetCapabilityAlike(policy, ConfirmKey(a, entry.user, names).0, ConfirmKey(b, entry.user, names).0, entry.user);
  }

  lemma FollowKeyAlike(policy: Policy, a: State, b: State, key: TokenId, names: Option<Address>)
    requires Twins(policy, a, b)
    ensures Alike(policy, FollowConfirmationKey(policy, a, key, names), FollowConfirmationKey(policy, b, key, names))
  {
    EntryAlike(policy, a, b, key);
    var entry := EntryOf(policy, a, key);
    if entry.Some? {
      ConfirmEntryAlike(policy, a, b, entry.value, names);
    }
  }

  // ------------------------------------------------------------ second factor

  lemma LockoutAlike(policy: Policy, now: int, x: seq<GenericToken>, y: seq<GenericToken>, user: UserId)
    requires SameLive(policy, now, x, y)
    ensures LockoutRemaining(policy.limits, x, user, now) == LockoutRemaining(policy.limits, y, user, now)
  {
    SameSelected(policy, now, x, y, FailuresFrom(user, now - Window(policy.limits)));
    LockoutByFailures(policy.limits, x, y, user, now);
  }

  lemma LoginPurgedAlike(policy: Policy, now: int, x: seq<GenericToken>, y: seq<GenericToken>, user: UserId)
    requires SameLive(policy, now, x, y)
    ensures SameLive(policy, now,
                     ExpiredPurged(AttemptsPurged(policy.limits, x, user, now), user, LoginChallenge, now),
                     ExpiredPurged(AttemptsPurged(policy.limits, y, user, now), user, LoginChallenge, now))
  {
    SameKept(policy, now, x, y, NotOlder(user, LoginAttempt, now - AttemptAge(policy.limits)));
    SameKept(policy, now, AttemptsPurged(policy.limits, x, user, now), AttemptsPurged(policy.limits, y, user, now),
             NotOlder(user, LoginChallenge, now - TOKEN_MAX_AGE));
  }

  lemma LoginChallengeAlike(policy: Policy, a: State, b: State, user: UserId)
    requires Twins(policy, a, b)
    ensures Alike(policy, HandLoginChallenge(policy, a, user), HandLoginChallenge(policy, b, user))
  {
    var x := ExpiredPurged(AttemptsPurged(policy.limits, a.tokens, user, a.now), user, LoginChallenge, a.now);
    var y := ExpiredPurged(AttemptsPurged(policy.limits, b.tokens, user, a.now), user, LoginChallenge, a.now);
    LoginPurgedAlike(policy, a.now, a.tokens, b.tokens, user);
    HandAlike(policy, a.(tokens := x), b.(tokens := y), user, LoginChallenge);
  }

  lemma LoginAlike(policy: Policy, a: State, b: State, user: UserId)
    requires Twins(policy, a, b)
    ensures Alike(policy, GateLogin(policy, a, user), GateLogin(policy, b, user))
  {
    LockoutAlike(policy, a.now, a.tokens, b.tokens, user);
    SetupChallengeAlike(policy, a, b, user);
    LoginChallengeAlike(policy, a, b, user);
  }

  /** Whether the newest row is live, and which one it is, shows in the live rows alone. */
  lemma {:induction false} LatestLive(rows: seq<GenericToken>, now: int)
    ensures Live(Latest(rows), now) ==> Latest(Keep(rows, CreatedFrom(now - TOKEN_MAX_AGE))) == Latest(rows)
    ensures !Live(Latest(rows), now) ==> Keep(rows, CreatedFrom(now - TOKEN_MAX_AGE)) == []
  {
    if rows != [] {
      LatestLive(rows[1..], now);
    }
  }

  lemma LatestAlike(xs: seq<GenericToken>, ys: seq<GenericToken>, now: int)
    requires Keep(xs, CreatedFrom(now - TOKEN_MAX_AGE)) == Keep(ys, CreatedFrom(now - TOKEN_MAX_AGE))
    ensures Live(Latest(xs), now) == Live(Latest(ys), now)
    ensures Live(Latest(xs), now) ==> Latest(xs) == Latest(ys)
  {
    LatestLive(xs, now);
    LatestLive(ys, now);
  }

  /** The purposes whose rows are read back by their newest and expire with the MFA step. */
  predicate ShortLived(purpose: Purpose) {
    purpose in {LoginChallenge, SetupChallenge, SetupSecret}
  }

  lemma CredentialAlike(policy: Policy, now: int, x: seq<GenericToken>, y: seq<GenericToken>, id: TokenId,
          purpose: Purpose)
    requires SameLive(policy, now, x, y) && ShortLived(purpose)
    ensures Live(CredentialRow(x, id, purpose), now) == Live(CredentialRow(y, id, purpose), now)
    ensures Live(CredentialRow(x, id, purpose), now) ==> CredentialRow(x, id, purpose) == CredentialRow(y, id, purpose)
  {
    SameRecent(policy, now, x, y, TokensOf(id, purpose), now - TOKEN_MAX_AGE);
    LatestAlike(Keep(x, TokensOf(id, purpose)), Keep(y, TokensOf(id, purpose)), now);
  }

  lemma UserRowAlike(policy: Policy, now: int, x: seq<GenericToken>, y: seq<GenericToken>, user: UserId,
          purpose: Purpose)
    requires SameLive(policy, now, x, y) && ShortLived(purpose)
    ensures Live(UserRow(x, user, purpose), now) == Live(UserRow(y, user, purpose), now)
    ensures Live(UserRow(x, user, purpose), now) ==> UserRow(x, user, purpose) == UserRow(y, user, purpose)
  {
    SameRecent(policy, now, x, y, RowsOf(user, purpose), now - TOKEN_MAX_AGE);
    LatestAlike(Keep(x, RowsOf(user, purpose)), Keep(y, RowsOf(user, purpose)), now);
  }

  /** Dropping a row that is not live goes unnoticed. */
  lemma DropAlike(policy: Policy, now: int, x: seq<GenericToken>, row: GenericToken)
    requires !IsFresh(policy, now, row)
    ensures SameLive(policy, now, x, Keep(x, OtherThan(row)))
  {
    KeepKeep(x, OtherThan(row), FreshAt(policy, now), FreshAt(policy, now));
  }

  /** Nor does the deletion of an expired row by the request that came across it. */
  lemma ReadAlike(policy: Policy, now: int, x: seq<GenericToken>, row: Option<GenericToken>)
    requires row.Some? ==> ShortLived(row.value.purpose)
    ensures SameLive(policy, now, x, Read(x, row, now))
  {
    if row.Some? && Expired(row.value.created, now) {
      DropAlike(policy, now, x, row.value);
    }
  }

  lemma AttemptsAlike(policy: Policy, now: int, x: seq<GenericToken>, y: seq<GenericToken>, user: UserId,
          p: GenericToken -> bool)
    requires SameLive(policy, now, x, y)
    requires forall t :: p(t) ==> IsRow(t, user, LoginAttempt)
    ensures SameLive(policy, now, AttemptsPurged(policy.limits, x, user, now),
      AttemptsPurged(policy.limits, y, user, now))
    ensures Keep(AttemptsPurged(policy.limits, x, user, now), p) == Keep(AttemptsPurged(policy.limits, y, user, now), p)
  {
    var young := NotOlder(user, LoginAttempt, now - AttemptAge(policy.limits));
    var both := (t: GenericToken) => young(t) && p(t);
    SameKept(policy, now, x, y, young);
    KeepKeep(x, young, p, both);
    KeepKeep(y, young, p, both);
    SameSelected(policy, now, x, y, both);
  }

  lemma FailureAlike(policy: Policy, now: int, x: seq<GenericToken>, y: seq<GenericToken>, user: UserId,
          challenge: TokenId, p: GenericToken -> bool)
    requires SameLive(policy, now, x, y)
    requires forall t :: p(t) ==> IsRow(t, user, LoginAttempt)
    ensures SameLive(policy, now, WithFailure(policy.limits, x, user, challenge, now),
      WithFailure(policy.limits, y, user, challenge, now))
    ensures Keep(WithFailure(policy.limits, x, user, challenge, now), p)
      == Keep(WithFailure(policy.limits, y, user, challenge, now), p)
  {
    var row := GenericToken(user, challenge, LoginAttempt, now);
    AttemptsAlike(policy, now, x, y, user, p);
    SameAppended(policy, now, AttemptsPurged(policy.limits, x, user, now), AttemptsPurged(policy.limits, y, user, now),
        row);
    KeepAppend(AttemptsPurged(policy.limits, x, user, now), [row], p);
    KeepAppend(AttemptsPurged(policy.limits, y, user, now), [row], p);
  }

  lemma LockoutAfterFailureAlike(policy: Policy, now: int, x: seq<GenericToken>, y: seq<GenericToken>, user: UserId,
          challenge: TokenId)
    requires SameLive(policy, now, x, y)
    ensures LockoutRemaining(policy.limits, WithFailure(policy.limits, x, user, challenge, now), user, now)
      == LockoutRemaining(policy.limits, WithFailure(policy.limits, y, user, challenge, now), user, now)
  {
    FailureAlike(policy, now, x, y, user, challenge, FailuresFrom(user, now - Window(policy.limits)));
    LockoutByFailures(policy.limits, WithFailure(policy.limits, x, user, challenge, now),
                      WithFailure(policy.limits, y, user, challenge, now), user, now);
  }

  lemma CountAfterFailureAlike(policy: Policy, now: int, x: seq<GenericToken>, y: seq<GenericToken>, user: UserId,
          challenge: TokenId)
    requires SameLive(policy, now, x, y)
    ensures ChallengeFailures(WithFailure(policy.limits, x, user, challenge, now), user, challenge)
      == ChallengeFailures(WithFailure(policy.limits, y, user, challenge, now), user, challenge)
  {
    FailureAlike(policy, now, x, y, user, challenge, FailuresOn(user, challenge));
  }

  lemma DroppedAlike(policy: Policy, now: int, x: seq<GenericToken>, y: seq<GenericToken>, user: UserId,
          challenge: TokenId)
    requires SameLive(policy, now, x, y)
    ensures SameLive(policy, now, RowsDropped(x, user, LoginChallenge), RowsDropped(y, user, LoginChallenge))
    ensures SameLive(policy, now, TokenDropped(x, challenge, LoginChallenge),
      TokenDropped(y, challenge, LoginChallenge))
  {
    SameKept(policy, now, x, y, Except(user, LoginChallenge));
    SameKept(policy, now, x, y, ExceptToken(challenge, LoginChallenge));
  }

  lemma RecordedAlike(policy: Policy, now: int, x: seq<GenericToken>, y: seq<GenericToken>, user: UserId,
          challenge: TokenId)
    requires SameLive(policy, now, x, y)
    ensures Recorded(policy.limits, x, user, challenge, now).1 == Recorded(policy.limits, y, user, challenge, now).1
    ensures SameLive(policy, now, Recorded(policy.limits, x, user, challenge, now).0,
      Recorded(policy.limits, y, user, challenge, now).0)
  {
    LockoutAfterFailureAlike(policy, now, x, y, user, challenge);
    CountAfterFailureAlike(policy, now, x, y, user, challenge);
    FailureAlike(policy, now, x, y, user, challenge, FailuresOn(user, challenge));
    DroppedAlike(policy, now, WithFailure(policy.limits, x, user, challenge, now),
                 WithFailure(policy.limits, y, user, challenge, now), user, challenge);
  }

  lemma VerifyAlike(policy: Policy, a: State, b: State, challenge: TokenId, enrolled: bool, right: bool)
    requires Twins(policy, a, b)
    ensures Alike(policy, VerifyCode(policy, a, challenge, enrolled, right),
      VerifyCode(policy, b, challenge, enrolled, right))
  {
    var row := CredentialRow(a.tokens, challenge, LoginChallenge);
    CredentialAlike(policy, a.now, a.tokens, b.tokens, challenge, LoginChallenge);
    ReadAlike(policy, a.now, a.tokens, row);
    ReadAlike(policy, a.now, b.tokens, CredentialRow(b.tokens, challenge, LoginChallenge));
    if Live(row, a.now) {
      var user := row.value.user;
      LockoutAlike(policy, a.now, a.tokens, b.tokens, user);
      RecordedAlike(policy, a.now, a.tokens, b.tokens, user, challenge);
      SameKept(policy, a.now, a.tokens, b.tokens, ExceptToken(challenge, LoginChallenge));
      SameKept(policy, a.now, TokenDropped(a.tokens, challenge, LoginChallenge),
               TokenDropped(b.tokens, challenge, LoginChallenge),
               Except(user, LoginAttempt));
    }
  }

  lemma SetupUserAlike(policy: Policy, a: State, b: State, caller: Option<UserId>, bootstrap: Option<TokenId>)
    requires Twins(policy, a, b)
    ensures SetupUser(a, caller, bootstrap).1 == SetupUser(b, caller, bootstrap).1
    ensures Twins(policy, SetupUser(a, caller, bootstrap).0, SetupUser(b, caller, bootstrap).0)
  {
    if bootstrap.Some? {
      var id := bootstrap.value;
      var x, y := CredentialRow(a.tokens, id, SetupChallenge), CredentialRow(b.tokens, id, SetupChallenge);
      CredentialAlike(policy, a.now, a.tokens, b.tokens, id, SetupChallenge);
      if Live(x, a.now) {
        SameKept(policy, a.now, a.tokens, b.tokens, OtherThan(x.value));
      } else {
        ReadAlike(policy, a.now, a.tokens, x);
        ReadAlike(policy, a.now, b.tokens, y);
      }
    }
  }

  lemma BeginSetupAlike(policy: Policy, a: State, b: State, caller: Option<UserId>, bootstrap: Option<TokenId>)
    requires Twins(policy, a, b)
    ensures Alike(policy, BeginTotpSetup(policy, a, caller, bootstrap), BeginTotpSetup(policy, b, caller, bootstrap))
  {
    SetupUserAlike(policy, a, b, caller, bootstrap);
    var (x, user) := SetupUser(a, caller, bootstrap);
    var y := SetupUser(b, caller, bootstrap).0;
    if user.Some? {
      SameKept(policy, a.now, x.tokens, y.tokens, Except(user.value, SetupSecret));
      HandAlike(policy, x.(tokens := RowsDropped(x.tokens, user.value, SetupSecret)),
                y.(tokens := RowsDropped(y.tokens, user.value, SetupSecret)), user.value, SetupSecret);
    }
  }

  lemma EnrolledAlike(policy: Policy, now: int, x: seq<GenericToken>, y: seq<GenericToken>, user: UserId,
          bootstrap: Option<TokenId>)
    requires SameLive(policy, now, x, y)
    ensures SameLive(policy, now, Enrolled(x, user, bootstrap), Enrolled(y, user, bootstrap))
  {
    SameKept(policy, now, x, y, Except(user, SetupSecret));
    if bootstrap.Some? {
      SameKept(policy, now, RowsDropped(x, user, SetupSecret), RowsDropped(y, user, SetupSecret),
               ExceptToken(bootstrap.value, SetupChallenge));
    }
  }

  lemma SecretAlike(policy: Policy, a: State, b: State, user: UserId, bootstrap: Option<TokenId>, right: bool)
    requires Twins(policy, a, b) && user in a.accounts
    ensures Alike(policy, SpendSecret(a, user, bootstrap, right), SpendSecret(b, user, bootstrap, right))
  {
    UserRowAlike(policy, a.now, a.tokens, b.tokens, user, SetupSecret);
    ReadAlike(policy, a.now, a.tokens, UserRow(a.tokens, user, SetupSecret));
    ReadAlike(policy, a.now, b.tokens, UserRow(b.tokens, user, SetupSecret));
    EnrolledAlike(policy, a.now, a.tokens, b.tokens, user, bootstrap);
  }

  lemma ActivateAlike(policy: Policy, a: State, b: State, caller: Option<UserId>, bootstrap: Option<TokenId>,
          right: bool)
    requires Twins(policy, a, b)
    ensures Alike(policy, ActivateTotp(policy, a, caller, bootstrap, right),
      ActivateTotp(policy, b, caller, bootstrap, right))
  {
    SetupUserAlike(policy, a, b, caller, bootstrap);
    var (x, user) := SetupUser(a, caller, bootstrap);
    if user.Some? && user.value in x.accounts {
      SecretAlike(policy, x, SetupUser(b, caller, bootstrap).0, user.value, bootstrap, right);
    }
  }

  lemma ReservedAlike(policy: Policy, a: State, b: State, user: UserId)
    requires Twins(policy, a, b)
    ensures HasOpenInvitation(policy, a, user) == HasOpenInvitation(policy, b, user)
  {
    SameSelected(policy, a.now, a.tokens, b.tokens, InvitationsFrom(user, a.now - policy.confirmationWindow));
  }

  // ------------------------------------------------------------------- the runs

  /** The one request that can see a purge: a link in the last fraction of its last second. */
  predicate SeesPurge(policy: Policy, s: State, r: Request) {
    r.OpenReset? && r.link in s.issued && LateLink(policy, s.issued[r.link].at, s.now)
  }

  predicate OfPassword(r: Request) {
    r.RequestReset? || r.OpenReset? || r.ResetPassword? || r.ChangePassword? || r.SendConfirmation? || r.FollowKey?
    || r.SetPassword?
  }

  lemma PasswordAlike(policy: Policy, a: State, b: State, r: Request)
    requires Twins(policy, a, b) && Inv(a) && Inv(b) && !SeesPurge(policy, a, r) && OfPassword(r)
    ensures Alike(policy, Serve(policy, a, r), Serve(policy, b, r))
  {
    match r
    case RequestReset(user, email) => RequestResetAlike(policy, a, b, user, email);
    case OpenReset(link, signed) => OpenResetAlike(policy, a, b, link, signed);
    case ResetPassword(capability, acceptable) => RedeemAlike(policy, a, b, capability, acceptable);
    case ChangePassword(user, _) => if user in a.accounts { ChangeAlike(policy, a, b, user); }
    case SendConfirmation(user, _) =>
      HandAlike(policy, a, b, user, Invitation);
      HandAlike(policy, a, b, user, EmailConfirmation);
    case FollowKey(key, names) => FollowKeyAlike(policy, a, b, key, names);
    case SetPassword(capability, acceptable) => RedeemInvitationAlike(policy, a, b, capability, acceptable);
  }

  lemma TwinsStep(policy: Policy, a: State, b: State, r: Request)
    requires Twins(policy, a, b) && Inv(a) && Inv(b) && !SeesPurge(policy, a, r) && !r.RunPurge?
    ensures Alike(policy, Serve(policy, a, r), Serve(policy, b, r))
  {
    match r
    case AddAccount(_, _, _) =>
    case SetActive(_, _) =>
    case Login(user) => LoginAlike(policy, a, b, user);
    case Verify(challenge, enrolled, right) => VerifyAlike(policy, a, b, challenge, enrolled, right);
    case BeginSetup(caller, bootstrap) => BeginSetupAlike(policy, a, b, caller, bootstrap);
    case Activate(caller, bootstrap, right) => ActivateAlike(policy, a, b, caller, bootstrap, right);
    case AskReserved(user) => ReservedAlike(policy, a, b, user);
    case Wait(delta) =>
      LiveLater(policy, a.now, a.now + delta, a.tokens);
      LiveLater(policy, a.now, a.now + delta, b.tokens);
    case _ => PasswordAlike(policy, a, b, r);
  }

  /** The answers given along a run, those of the purge command left out. */
  function Transcript(policy: Policy, s: State, run: seq<Request>): seq<Answer>
    decreases |run|
  {
    if run == [] then []
    else
      var (s', answer) := Serve(policy, s, run[0]);
      (if run[0].RunPurge? then [] else [answer]) + Transcript(policy, s', run[1..])
  }

  function WithoutPurges(run: seq<Request>): seq<Request> {
    if run == [] then []
    else (if run[0].RunPurge? then [] else [run[0]]) + WithoutPurges(run[1..])
  }

  /** No reset link is opened in the last fraction of its last second. */
  ghost predicate NoLateLink(policy: Policy, s: State, run: seq<Request>)
    decreases |run|
  {
    run == [] || (!SeesPurge(policy, s, run[0]) && NoLateLink(policy, Serve(policy, s, run[0]).0, run[1..]))
  }

  lemma {:induction false} TwinsRun(policy: Policy, a: State, b: State, run: seq<Request>)
    requires KeepsBuiltIns(policy) && Twins(policy, a, b) && Inv(a) && Inv(b)
      && NoLateLink(policy, a, WithoutPurges(run))
    ensures Transcript(policy, b, run) == Transcript(policy, a, WithoutPurges(run))
    decreases |run|
  {
    if run != [] {
      var r, rest := run[0], run[1..];
      InvStep(policy, b, r);
      if r.RunPurge? {
        var purged := Serve(policy, b, r).0;
        PurgeSparesLive(policy, b.now, b.tokens);
        assert [] + WithoutPurges(rest) == WithoutPurges(rest);
        assert [] + Transcript(policy, purged, rest) == Transcript(policy, purged, rest);
        TwinsRun(policy, a, purged, rest);
      } else {
        assert WithoutPurges(run) == [r] + WithoutPurges(rest);
        assert WithoutPurges(run)[1..] == WithoutPurges(rest);
        TwinsStep(policy, a, b, r);
        InvStep(policy, a, r);
        TwinsRun(policy, Serve(policy, a, r).0, Serve(policy, b, r).0, rest);
      }
    }
  }

  /**
   Purging single-use tokens is invisible: with no retention shortened, and unless a reset
   link is opened in the last fraction of its last second, every link, capability,
   confirmation, invitation, challenge, secret and attempt limit answers as if the command
   had never been run.
   */
  lemma PurgingTokensIsInvisible(policy: Policy, s: State, run: seq<Request>)
    requires KeepsBuiltIns(policy) && Inv(s) && NoLateLink(policy, s, WithoutPurges(run))
    ensures Transcript(policy, s, run) == Transcript(policy, s, WithoutPurges(run))
  {
    TwinsRun(policy, s, s, run);
  }

  /** The clock and everything handed out fall on whole seconds. */
  ghost predicate OnTheSecond(s: State) {
    s.now % SECOND == 0 && forall id :: id in s.issued ==> s.issued[id].at % SECOND == 0
  }

  predicate WaitsWholeSeconds(run: seq<Request>) {
    forall i :: 0 <= i < |run| && run[i].Wait? ==> run[i].delta % SECOND == 0
  }

  lemma SecondStep(policy: Policy, s: State, r: Request)
    requires OnTheSecond(s) && (r.Wait? ==> r.delta % SECOND == 0)
    ensures OnTheSecond(Serve(policy, s, r).0)
  {
    HandsStep(policy, s, r);
  }

  lemma {:induction false} NobodyIsLate(policy: Policy, s: State, run: seq<Request>)
    requires OnTheSecond(s) && WaitsWholeSeconds(run)
    ensures NoLateLink(policy, s, run)
    decreases |run|
  {
    if run != [] {
      SecondStep(policy, s, run[0]);
      NobodyIsLate(policy, Serve(policy, s, run[0]).0, run[1..]);
    }
  }

  lemma {:induction false} WaitsOfTheRest(run: seq<Request>)
    requires WaitsWholeSeconds(run)
    ensures WaitsWholeSeconds(WithoutPurges(run))
  {
    if run != [] {
      WaitsOfTheRest(run[1..]);
    }
  }

  /** On a clock of whole seconds no run can tell. */
  lemma InvisibleOnWholeSeconds(policy: Policy, s: State, run: seq<Request>)
    requires KeepsBuiltIns(policy) && Inv(s) && OnTheSecond(s) && WaitsWholeSeconds(run)
    ensures Transcript(policy, s, run) == Transcript(policy, s, WithoutPurges(run))
  {
    WaitsOfTheRest(run);
    NobodyIsLate(policy, s, WithoutPurges(run));
    PurgingTokensIsInvisible(policy, s, run);
  }

  // ------------------------------------------------- the exception, to the letter

  /** A link is late exactly in the second its timeout ends, past the fraction it was made at. */
  lemma LateExactly(policy: Policy, at: int, now: int)
    ensures LateLink(policy, at, now) <==> Epoch(now) - Epoch(at) == policy.resetTimeout && at % SECOND < now % SECOND
  {
  }

  lemma LateLinkIsPurged(policy: Policy, s: State, link: TokenId)
    requires KeepsBuiltIns(policy) && Inv(s) && PassReset !in policy.overrides
    requires link in s.issued && LateLink(policy, s.issued[link].at, s.now)
    ensures !Present(PurgedTokens(Retentions(policy), s.now, s.tokens), link, PassReset)
  {
    var purged := PurgedTokens(Retentions(policy), s.now, s.tokens);
    RetentionCovers(policy, PassReset);
    forall t | t in purged ensures !IsToken(t, link, PassReset) {
      assert RowIssued(s, t);
    }
    KeepNone(purged, TokensOf(link, PassReset));
  }

  /** The installation right after a purge. */
  function AfterPurge(policy: Policy, s: State): (s': State)
    ensures s' == Serve(policy, s, RunPurge).0
  {
    s.(tokens := PurgedTokens(Retentions(policy), s.now, s.tokens))
  }

  lemma PurgedTwins(policy: Policy, s: State)
    requires KeepsBuiltIns(policy) && Inv(s)
    ensures Twins(policy, s, AfterPurge(policy, s)) && Inv(AfterPurge(policy, s))
  {
    PurgeSparesLive(policy, s.now, s.tokens);
    InvStep(policy, s, RunPurge);
  }

  /** The answer a link gets differs after a purge exactly when nothing but its lateness is wrong with it. */
  lemma PurgeSeenExactly(policy: Policy, s: State, link: TokenId, signed: bool)
    requires KeepsBuiltIns(policy) && Inv(s) && PassReset !in policy.overrides
    ensures OpenResetLink(policy, AfterPurge(policy, s), link, signed).1 != OpenResetLink(policy, s, link, signed).1
      <==> && link in s.issued && s.issued[link].purpose == PassReset && signed
           && IsActive(s.accounts, s.issued[link].user) && Present(s.tokens, link, PassReset)
           && LateLink(policy, s.issued[link].at, s.now)
  {
    PurgedTwins(policy, s);
    if link in s.issued && LateLink(policy, s.issued[link].at, s.now) {
      LateLinkIsPurged(policy, s, link);
    } else {
      OpenResetAlike(policy, s, AfterPurge(policy, s), link, signed);
    }
  }

  /** A link of a ten-second timeout, made at 0.9 s and opened at 10.95 s: honoured, unless a purge ran. */
  lemma LateLinkExample(policy: Policy, account: Account)
    requires policy.resetTimeout == 10 && policy.overrides == map[] && account.active
    ensures var link := GenericToken(1, 0, PassReset, 900_000);
      var s := State(10_950_000, [link], map[0 := Credential(1, PassReset, 900_000)], map[1 := account], [], 1);
      && Inv(s)
      && OpenResetLink(policy, s, 0, true).1.Handed?
      && OpenResetLink(policy, AfterPurge(policy, s), 0, true).1 == BadLink
  {
    var link := GenericToken(1, 0, PassReset, 900_000);
    var s := State(10_950_000, [link], map[0 := Credential(1, PassReset, 900_000)], map[1 := account], [], 1);
    KeepOne(link, TokensOf(0, PassReset));
    assert LateLink(policy, 900_000, s.now);
    LateLinkIsPurged(policy, s, 0);
  }
}
