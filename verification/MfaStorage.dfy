/** MFA challenges, setup secrets and the counters of failed attempts, in the table of single-use tokens. */
module MfaStorage {
  import opened Basics
  import opened Store

  /** Limits: failures per challenge, failures per user, and the seconds of the sliding window. */
  datatype Limits = Limits(challengeMax: int, userMax: int, lockoutSeconds: int)

  const TOKEN_MAX_AGE: int := 300 * SECOND

  function Window(limits: Limits): int {
    limits.lockoutSeconds * SECOND
  }

  /** The age past which a failed attempt counts towards nothing. */
  function AttemptAge(limits: Limits): int {
    Max(Window(limits), TOKEN_MAX_AGE)
  }

  predicate Expired(created: int, now: int) {
    created < now - TOKEN_MAX_AGE
  }

  predicate IsRow(t: GenericToken, user: UserId, purpose: Purpose) {
    t.user == user && t.purpose == purpose
  }

  /** Rows of one credential. */
  predicate IsToken(t: GenericToken, id: TokenId, purpose: Purpose) {
    t.token == id && t.purpose == purpose
  }

  function RowsOf(user: UserId, purpose: Purpose): GenericToken -> bool {
    (t: GenericToken) => IsRow(t, user, purpose)
  }

  function TokensOf(id: TokenId, purpose: Purpose): GenericToken -> bool {
    (t: GenericToken) => IsToken(t, id, purpose)
  }

  function CreatedFrom(since: int): GenericToken -> bool {
    (t: GenericToken) => since <= t.created
  }

  /** The failures of the user recorded at `since` or later. */
  function FailuresFrom(user: UserId, since: int): GenericToken -> bool {
    (t: GenericToken) => IsRow(t, user, LoginAttempt) && since <= t.created
  }

  /** The failures of the user on one challenge. */
  function FailuresOn(user: UserId, challenge: TokenId): GenericToken -> bool {
    (t: GenericToken) => IsRow(t, user, LoginAttempt) && t.token == challenge
  }

  function Attempts(tokens: seq<GenericToken>, user: UserId): seq<GenericToken> {
    Keep(tokens, RowsOf(user, LoginAttempt))
  }

  function Createds(rows: seq<GenericToken>): seq<int> {
    seq(|rows|, i requires 0 <= i < |rows| => rows[i].created)
  }

  // --------------------------------------------------------- the sliding window

  /** Newest first. */
  function SortDescending(s: seq<int>): (r: seq<int>)
    ensures |r| == |s|
  {
    if s == [] then [] else Place(s[0], SortDescending(s[1..]))
  }

  function Place(x: int, s: seq<int>): (r: seq<int>)
    ensures |r| == |s| + 1
  {
    if s == [] || s[0] <= x then [x] + s else [s[0]] + Place(x, s[1..])
  }

  ghost predicate Descending(s: seq<int>) {
    forall i, j :: 0 <= i <= j < |s| ==> s[j] <= s[i]
  }

  /** The times of the failures of the user that still count at `now`. */
  function Recent(limits: Limits, tokens: seq<GenericToken>, user: UserId, now: int): seq<int> {
    Createds(Keep(tokens, FailuresFrom(user, now - Window(limits))))
  }

  /** Seconds the user is locked out for, `0` when they are not. */
  function LockoutRemaining(limits: Limits, tokens: seq<GenericToken>, user: UserId, now: int): int {
    if limits.userMax <= 0 then 0
    else
      var recent := SortDescending(Recent(limits, tokens, user, now));
      if |recent| < limits.userMax then 0
      else Max((recent[limits.userMax - 1] + Window(limits) - now) / SECOND, 1)
  }

  /** The lockout looks at the failures in the window and at nothing else. */
  lemma LockoutByFailures(limits: Limits, x: seq<GenericToken>, y: seq<GenericToken>, user: UserId, now: int)
    requires Keep(x, FailuresFrom(user, now - Window(limits))) == Keep(y, FailuresFrom(user, now - Window(limits)))
    ensures LockoutRemaining(limits, x, user, now) == LockoutRemaining(limits, y, user, now)
  {
  }

  predicate LockedOut(limits: Limits, tokens: seq<GenericToken>, user: UserId, now: int) {
    LockoutRemaining(limits, tokens, user, now) > 0
  }

  /** How many failures of the user were recorded at `since` or later. */
  function FailuresSince(tokens: seq<GenericToken>, user: UserId, since: int): nat {
    Count(tokens, FailuresFrom(user, since))
  }

  /** The lockout holds exactly while the failures in the closed window reach the limit. */
  lemma LockoutIsWindowCount(limits: Limits, tokens: seq<GenericToken>, user: UserId, now: int)
    ensures LockedOut(limits, tokens, user, now)
      <==> 0 < limits.userMax <= FailuresSince(tokens, user, now - Window(limits))
  {
  }

  lemma {:induction false} PlaceKeepsOrder(x: int, s: seq<int>)
    requires Descending(s)
    ensures Descending(Place(x, s))
    ensures forall y :: y in Place(x, s) <==> y == x || y in s
  {
    if s != [] && s[0] > x {
      PlaceKeepsOrder(x, s[1..]);
      var rest := Place(x, s[1..]);
      forall i | 0 <= i < |rest| ensures rest[i] <= s[0] {
        assert rest[i] in rest;
      }
    }
  }

  lemma {:induction false} SortIsDescending(s: seq<int>)
    ensures Descending(SortDescending(s))
  {
    if s != [] {
      SortIsDescending(s[1..]);
      PlaceKeepsOrder(s[0], SortDescending(s[1..]));
    }
  }

  function AtLeast(s: seq<int>, since: int): nat {
    if s == [] then 0 else (if since <= s[0] then 1 else 0) + AtLeast(s[1..], since)
  }

  lemma {:induction false} PlaceCounts(x: int, s: seq<int>, since: int)
    ensures AtLeast(Place(x, s), since) == AtLeast(s, since) + if since <= x then 1 else 0
  {
    if s != [] && s[0] > x {
      PlaceCounts(x, s[1..], since);
      assert Place(x, s)[1..] == Place(x, s[1..]);
    } else {
      assert Place(x, s)[1..] == s;
    }
  }

  /** Sorting loses no failure and invents none. */
  lemma {:induction false} SortCounts(s: seq<int>, since: int)
    ensures AtLeast(SortDescending(s), since) == AtLeast(s, since)
  {
    if s != [] {
      SortCounts(s[1..], since);
      PlaceCounts(s[0], SortDescending(s[1..]), since);
    }
  }

  /** In a list sorted newest first, the n-th is recent exactly when n of them are. */
  lemma {:induction false} NthNewest(s: seq<int>, since: int, n: nat)
    requires Descending(s) && 0 < n
    ensures n <= AtLeast(s, since) <==> n <= |s| && since <= s[n - 1]
  {
    if s == [] {
    } else if since > s[0] {
      NoneLater(s, since);
    } else if n > 1 {
      NthNewest(s[1..], since, n - 1);
    }
  }

  lemma {:induction false} NoneLater(s: seq<int>, since: int)
    requires forall i :: 0 <= i < |s| ==> s[i] < since
    ensures AtLeast(s, since) == 0
  {
    if s != [] {
      NoneLater(s[1..], since);
    }
  }

  /** Counting the times of all failures from `since` on is counting the failures from `since` on. */
  lemma {:induction false} CountsAgree(tokens: seq<GenericToken>, user: UserId, since: int)
    ensures AtLeast(Createds(Attempts(tokens, user)), since) == FailuresSince(tokens, user, since)
  {
    if tokens != [] {
      CountsAgree(tokens[1..], user, since);
      if IsRow(tokens[0], user, LoginAttempt) {
        assert Createds(Attempts(tokens, user))[1..] == Createds(Attempts(tokens[1..], user));
      }
    }
  }

  /** The time of the n-th newest failure of the user, whenever it happened. */
  function NthFailure(tokens: seq<GenericToken>, user: UserId, n: nat): int
    requires 0 < n <= |Attempts(tokens, user)|
  {
    SortDescending(Createds(Attempts(tokens, user)))[n - 1]
  }

  /**
   Sliding window exactness: as long as no failure is added, the user is locked out at every
   instant up to the n-th newest failure plus the window, and released at every later one.
   */
  lemma ReleasedAfterWindow(limits: Limits, tokens: seq<GenericToken>, user: UserId, now: int)
    requires 0 < limits.userMax
    ensures LockedOut(limits, tokens, user, now)
      <==> (limits.userMax <= |Attempts(tokens, user)|
            && now <= NthFailure(tokens, user, limits.userMax) + Window(limits))
  {
    var all := Createds(Attempts(tokens, user));
    var since := now - Window(limits);
    LockoutIsWindowCount(limits, tokens, user, now);
    CountsAgree(tokens, user, since);
    SortCounts(all, since);
    SortIsDescending(all);
    NthNewest(SortDescending(all), since, limits.userMax);
  }

  lemma {:induction false} AtLeastOfKept(tokens: seq<GenericToken>, user: UserId, cut: int, since: int)
    requires cut <= since
    ensures AtLeast(Createds(Keep(tokens, FailuresFrom(user, cut))), since) == FailuresSince(tokens, user, since)
  {
    if tokens != [] {
      AtLeastOfKept(tokens[1..], user, cut, since);
      if FailuresFrom(user, cut)(tokens[0]) {
        assert Createds(Keep(tokens, FailuresFrom(user, cut)))[1..]
          == Createds(Keep(tokens[1..], FailuresFrom(user, cut)));
      }
    }
  }

  /** The wait that is announced is what is left until the release, in whole seconds and at least one. */
  lemma AnnouncedWait(limits: Limits, tokens: seq<GenericToken>, user: UserId, now: int)
    requires LockedOut(limits, tokens, user, now)
    ensures limits.userMax <= |Attempts(tokens, user)|
    ensures LockoutRemaining(limits, tokens, user, now)
      == Max((NthFailure(tokens, user, limits.userMax) + Window(limits) - now) / SECOND, 1)
  {
    ReleasedAfterWindow(limits, tokens, user, now);
    var cut := now - Window(limits);
    var all := Createds(Attempts(tokens, user));
    var recent := Recent(limits, tokens, user, now);
    var n := limits.userMax;
    var a, b := SortDescending(recent), SortDescending(all);
    SortIsDescending(recent);
    SortIsDescending(all);
    forall v | cut <= v ensures AtLeast(a, v) == AtLeast(b, v) {
      SortCounts(recent, v);
      SortCounts(all, v);
      AtLeastOfKept(tokens, user, cut, v);
      CountsAgree(tokens, user, v);
    }
    var rows := Keep(tokens, FailuresFrom(user, cut));
    forall i | 0 <= i < |recent| ensures cut <= recent[i] {
      assert rows[i] in rows;
    }
    SortedMembers(recent);
    assert a[n - 1] in a;
    NthNewest(a, a[n - 1], n);
    NthNewest(b, a[n - 1], n);
    NthNewest(b, b[n - 1], n);
    NthNewest(a, b[n - 1], n);
  }

  lemma {:induction false} SortedMembers(s: seq<int>)
    ensures forall x :: x in SortDescending(s) <==> x in s
  {
    if s != [] {
      SortedMembers(s[1..]);
      SortIsDescending(s[1..]);
      PlaceKeepsOrder(s[0], SortDescending(s[1..]));
    }
  }

  // ------------------------------------------------------------------ the table

  /** Everything but the rows of the user created before `cut`. */
  function NotOlder(user: UserId, purpose: Purpose, cut: int): GenericToken -> bool {
    (t: GenericToken) => !(IsRow(t, user, purpose) && t.created < cut)
  }

  function Except(user: UserId, purpose: Purpose): GenericToken -> bool {
    (t: GenericToken) => !IsRow(t, user, purpose)
  }

  function ExceptToken(id: TokenId, purpose: Purpose): GenericToken -> bool {
    (t: GenericToken) => !IsToken(t, id, purpose)
  }

  /** The attempts too old for any counter are dropped. */
  function AttemptsPurged(limits: Limits, tokens: seq<GenericToken>, user: UserId, now: int): seq<GenericToken> {
    Keep(tokens, NotOlder(user, LoginAttempt, now - AttemptAge(limits)))
  }

  function ExpiredPurged(tokens: seq<GenericToken>, user: UserId, purpose: Purpose, now: int): seq<GenericToken> {
    Keep(tokens, NotOlder(user, purpose, now - TOKEN_MAX_AGE))
  }

  function RowsDropped(tokens: seq<GenericToken>, user: UserId, purpose: Purpose): seq<GenericToken> {
    Keep(tokens, Except(user, purpose))
  }

  function TokenDropped(tokens: seq<GenericToken>, id: TokenId, purpose: Purpose): seq<GenericToken> {
    Keep(tokens, ExceptToken(id, purpose))
  }

  /** Challenges are not failures: dropping them leaves every selection of failures as it was. */
  lemma ChallengesAside(tokens: seq<GenericToken>, user: UserId, id: TokenId, p: GenericToken -> bool)
    requires forall t :: p(t) ==> t.purpose == LoginAttempt
    ensures Keep(RowsDropped(tokens, user, LoginChallenge), p) == Keep(tokens, p)
    ensures Keep(TokenDropped(tokens, id, LoginChallenge), p) == Keep(tokens, p)
  {
    KeepKeep(tokens, Except(user, LoginChallenge), p, p);
    KeepKeep(tokens, ExceptToken(id, LoginChallenge), p, p);
  }

  /** The newest of the rows. */
  function Latest(rows: seq<GenericToken>): (r: Option<GenericToken>)
    ensures r.None? <==> rows == []
    ensures r.Some? ==> r.value in rows && forall t :: t in rows ==> t.created <= r.value.created
  {
    if rows == [] then None
    else
      var rest := Latest(rows[1..]);
      if rest.Some? && rest.value.created >= rows[0].created then rest else Some(rows[0])
  }

  function CredentialRow(tokens: seq<GenericToken>, id: TokenId, purpose: Purpose): Option<GenericToken> {
    Latest(Keep(tokens, TokensOf(id, purpose)))
  }

  function UserRow(tokens: seq<GenericToken>, user: UserId, purpose: Purpose): Option<GenericToken> {
    Latest(Keep(tokens, RowsOf(user, purpose)))
  }

  predicate Live(row: Option<GenericToken>, now: int) {
    row.Some? && !Expired(row.value.created, now)
  }

  function OtherThan(row: GenericToken): GenericToken -> bool {
    (t: GenericToken) => t != row
  }

  /** Reading an expired row drops it. */
  function Read(tokens: seq<GenericToken>, row: Option<GenericToken>, now: int): seq<GenericToken> {
    if row.Some? && Expired(row.value.created, now) then Keep(tokens, OtherThan(row.value)) else tokens
  }

  function ChallengeFailures(tokens: seq<GenericToken>, user: UserId, challenge: TokenId): nat {
    Count(tokens, FailuresOn(user, challenge))
  }

  /** The failures dropped for their age are in no window. */
  lemma AgedOutUncounted(limits: Limits, tokens: seq<GenericToken>, user: UserId, now: int, since: int)
    requires now - Window(limits) <= since
    ensures Keep(AttemptsPurged(limits, tokens, user, now), FailuresFrom(user, since))
      == Keep(tokens, FailuresFrom(user, since))
  {
    KeepKeep(tokens, NotOlder(user, LoginAttempt, now - AttemptAge(limits)), FailuresFrom(user, since),
        FailuresFrom(user, since));
  }

  datatype Outcome = Outcome(challengeInvalidated: bool, lockedOut: bool, retryAfter: int)

  /** The table once the failure is in, before any limit is applied. */
  function WithFailure(limits: Limits, tokens: seq<GenericToken>, user: UserId, challenge: TokenId,
          now: int): seq<GenericToken> {
    AttemptsPurged(limits, tokens, user, now) + [GenericToken(user, challenge, LoginAttempt, now)]
  }

  function Recorded(limits: Limits, tokens: seq<GenericToken>, user: UserId, challenge: TokenId,
          now: int): (seq<GenericToken>, Outcome) {
    var counted := WithFailure(limits, tokens, user, challenge, now);
    var retryAfter := LockoutRemaining(limits, counted, user, now);
    if retryAfter != 0 then (RowsDropped(counted, user, LoginChallenge), Outcome(true, true, retryAfter))
    else if 0 < limits.challengeMax <= ChallengeFailures(counted, user, challenge)
    then (TokenDropped(counted, challenge, LoginChallenge), Outcome(true, false, 0))
    else (counted, Outcome(false, false, 0))
  }

  function ChallengeIssued(limits: Limits, tokens: seq<GenericToken>, user: UserId, id: TokenId,
          now: int): seq<GenericToken> {
    ExpiredPurged(AttemptsPurged(limits, tokens, user, now), user, LoginChallenge, now)
      + [GenericToken(user, id, LoginChallenge, now)]
  }

  lemma AppendCounts(tokens: seq<GenericToken>, row: GenericToken, since: int)
    requires row.purpose == LoginAttempt
    ensures FailuresSince(tokens + [row], row.user, since)
      == FailuresSince(tokens, row.user, since) + if since <= row.created then 1 else 0
  {
    KeepAppend(tokens, [row], FailuresFrom(row.user, since));
    KeepOne(row, FailuresFrom(row.user, since));
  }

  /** The failures of the user on the challenge recorded at `cut` or later. */
  function FailuresOnFrom(user: UserId, challenge: TokenId, cut: int): GenericToken -> bool {
    (t: GenericToken) => FailuresOn(user, challenge)(t) && cut <= t.created
  }

  lemma OnChallengeCounts(limits: Limits, tokens: seq<GenericToken>, user: UserId, challenge: TokenId, now: int)
    ensures ChallengeFailures(WithFailure(limits, tokens, user, challenge, now), user, challenge)
      == Count(tokens, FailuresOnFrom(user, challenge, now - AttemptAge(limits))) + 1
  {
    var cut := now - AttemptAge(limits);
    var row := GenericToken(user, challenge, LoginAttempt, now);
    KeepAppend(AttemptsPurged(limits, tokens, user, now), [row], FailuresOn(user, challenge));
    KeepOne(row, FailuresOn(user, challenge));
    KeepKeep(tokens, NotOlder(user, LoginAttempt, cut), FailuresOn(user, challenge),
             FailuresOnFrom(user, challenge, cut));
  }

  /**
   What a wrong code comes to, from the failures counted before it. The user is locked out when the
   failures in the window, this one included, reach the limit of the user; the challenge is gone
   then, or when those on it reach its own limit. A lockout takes every challenge of the user.
   */
  lemma OutcomeExactly(limits: Limits, tokens: seq<GenericToken>, user: UserId, challenge: TokenId, now: int)
    ensures var (left, r) := Recorded(limits, tokens, user, challenge, now);
      var window := limits.lockoutSeconds * SECOND;
      var failures := FailuresSince(tokens, user, now - window) + if 0 <= limits.lockoutSeconds then 1 else 0;
      var onIt := Count(tokens, FailuresOnFrom(user, challenge, now - Max(window, 300 * SECOND))) + 1;
      && (r.lockedOut <==> 0 < limits.userMax <= failures)
      && (r.challengeInvalidated <==> r.lockedOut || 0 < limits.challengeMax <= onIt)
      && (if r.lockedOut then 1 <= r.retryAfter else r.retryAfter == 0)
      && GenericToken(user, challenge, LoginAttempt, now) in left
      && (forall t: GenericToken :: t.purpose == LoginChallenge ==>
            (t in left <==> t in tokens && !(r.lockedOut && t.user == user)
                            && !(!r.lockedOut && r.challengeInvalidated && t.token == challenge)))
      && (forall t: GenericToken :: t.purpose != LoginChallenge && t.purpose != LoginAttempt ==>
            (t in left <==> t in tokens))
  {
    var counted := WithFailure(limits, tokens, user, challenge, now);
    LockoutIsWindowCount(limits, counted, user, now);
    AgedOutUncounted(limits, tokens, user, now, now - Window(limits));
    AppendCounts(AttemptsPurged(limits, tokens, user, now), GenericToken(user, challenge, LoginAttempt, now),
                 now - Window(limits));
    OnChallengeCounts(limits, tokens, user, challenge, now);
    ChallengesLeft(limits, tokens, user, challenge, now);
  }

  /** The rows of `counted` and of the two deletions, one by one. */
  lemma ChallengesLeft(limits: Limits, tokens: seq<GenericToken>, user: UserId, challenge: TokenId, now: int)
    ensures var counted := WithFailure(limits, tokens, user, challenge, now);
      && GenericToken(user, challenge, LoginAttempt, now) in counted
      && (forall t: GenericToken :: t.purpose != LoginAttempt ==> (t in counted <==> t in tokens))
      && (forall t :: t in RowsDropped(counted, user, LoginChallenge)
            <==> t in counted && !(t.user == user && t.purpose == LoginChallenge))
      && (forall t :: t in TokenDropped(counted, challenge, LoginChallenge)
            <==> t in counted && !(t.token == challenge && t.purpose == LoginChallenge))
  {
    var counted := WithFailure(limits, tokens, user, challenge, now);
    assert forall t :: t in AttemptsPurged(limits, tokens, user, now)
                       <==> t in tokens && NotOlder(user, LoginAttempt, now - AttemptAge(limits))(t);
    assert forall t :: t in RowsDropped(counted, user, LoginChallenge)
                       <==> t in counted && Except(user, LoginChallenge)(t);
    assert forall t :: t in TokenDropped(counted, challenge, LoginChallenge)
                       <==> t in counted && ExceptToken(challenge, LoginChallenge)(t);
  }

  // ---------------------------------------------------------------- operations

  method PurgeExpired(db: Database, user: UserId, purpose: Purpose)
    modifies db`tokens
    ensures db.tokens == ExpiredPurged(old(db.tokens), user, purpose, db.now)
  {
    db.tokens := ExpiredPurged(db.tokens, user, purpose, db.now);
  }

  method PurgeExpiredAttempts(db: Database, limits: Limits, user: UserId)
    modifies db`tokens
    ensures db.tokens == AttemptsPurged(limits, old(db.tokens), user, db.now)
  {
    db.tokens := AttemptsPurged(limits, db.tokens, user, db.now);
  }

  method CreateSetupChallenge(db: Database, user: UserId, id: TokenId)
    modifies db`tokens
    ensures db.tokens
      == ExpiredPurged(old(db.tokens), user, SetupChallenge, db.now) + [GenericToken(user, id, SetupChallenge, db.now)]
    ensures forall t :: t in db.tokens && IsRow(t, user, SetupChallenge) ==> !Expired(t.created, db.now)
    ensures forall t :: t in old(db.tokens) ==>
      (t in db.tokens || (IsRow(t, user, SetupChallenge) && Expired(t.created, db.now)))
  {
    PurgeExpired(db, user, SetupChallenge);
    db.tokens := db.tokens + [GenericToken(user, id, SetupChallenge, db.now)];
  }

  method GetSetupChallengeUser(db: Database, id: TokenId) returns (user: Option<UserId>)
    modifies db`tokens
    ensures var row := CredentialRow(old(db.tokens), id, SetupChallenge);
      && user == (if Live(row, db.now) && row.value.user in db.accounts then Some(row.value.user) else None)
      && db.tokens == (if row.None? || user.Some? then old(db.tokens)
                       else Keep(old(db.tokens), OtherThan(row.value)))
  {
    var row := CredentialRow(db.tokens, id, SetupChallenge);
    if row.None? {
      return None;
    }
    if Expired(row.value.created, db.now) {
      db.tokens := Keep(db.tokens, OtherThan(row.value));
      return None;
    }
    if row.value.user !in db.accounts {
      db.tokens := Keep(db.tokens, OtherThan(row.value));
      return None;
    }
    return Some(row.value.user);
  }

  method DeleteSetupChallenge(db: Database, id: TokenId)
    modifies db`tokens
    ensures db.tokens == TokenDropped(old(db.tokens), id, SetupChallenge)
  {
    db.tokens := TokenDropped(db.tokens, id, SetupChallenge);
  }

  /** A new secret replaces whatever enrolment was under way. */
  method StoreSetupSecret(db: Database, user: UserId, id: TokenId)
    modifies db`tokens
    ensures db.tokens == RowsDropped(old(db.tokens), user, SetupSecret) + [GenericToken(user, id, SetupSecret, db.now)]
  {
    db.tokens := RowsDropped(db.tokens, user, SetupSecret);
    db.tokens := db.tokens + [GenericToken(user, id, SetupSecret, db.now)];
  }

  method LoadSetupSecret(db: Database, user: UserId) returns (secret: Option<TokenId>)
    modifies db`tokens
    ensures var row := UserRow(old(db.tokens), user, SetupSecret);
      && db.tokens == Read(old(db.tokens), row, db.now)
      && secret == if Live(row, db.now) then Some(row.value.token) else None
  {
    var row := UserRow(db.tokens, user, SetupSecret);
    if row.None? {
      return None;
    }
    if Expired(row.value.created, db.now) {
      db.tokens := Keep(db.tokens, OtherThan(row.value));
      return None;
    }
    return Some(row.value.token);
  }

  method DeleteSetupSecret(db: Database, user: UserId)
    modifies db`tokens
    ensures db.tokens == RowsDropped(old(db.tokens), user, SetupSecret)
  {
    db.tokens := RowsDropped(db.tokens, user, SetupSecret);
  }

  method CreateLoginChallenge(db: Database, limits: Limits, user: UserId, id: TokenId)
    modifies db`tokens
    ensures db.tokens == ChallengeIssued(limits, old(db.tokens), user, id, db.now)
    ensures GenericToken(user, id, LoginChallenge, db.now) in db.tokens
    ensures forall t :: t in db.tokens && IsRow(t, user, LoginChallenge) ==> !Expired(t.created, db.now)
    ensures forall t :: t in old(db.tokens) ==>
      || t in db.tokens
      || (IsRow(t, user, LoginChallenge) && Expired(t.created, db.now))
      || (IsRow(t, user, LoginAttempt) && t.created < db.now - AttemptAge(limits))
  {
    PurgeExpiredAttempts(db, limits, user);
    PurgeExpired(db, user, LoginChallenge);
    ghost var left := db.tokens;
    db.tokens := db.tokens + [GenericToken(user, id, LoginChallenge, db.now)];
    forall t | t in old(db.tokens) && t !in db.tokens
      ensures (IsRow(t, user, LoginChallenge) && Expired(t.created, db.now))
        || (IsRow(t, user, LoginAttempt) && t.created < db.now - AttemptAge(limits))
    {
      assert t !in left;
    }
  }

  method GetLoginChallengeUser(db: Database, id: TokenId) returns (user: Option<UserId>)
    modifies db`tokens
    ensures var row := CredentialRow(old(db.tokens), id, LoginChallenge);
      && db.tokens == Read(old(db.tokens), row, db.now)
      && user == if Live(row, db.now) then Some(row.value.user) else None
  {
    var row := CredentialRow(db.tokens, id, LoginChallenge);
    if row.None? {
      return None;
    }
    if Expired(row.value.created, db.now) {
      db.tokens := Keep(db.tokens, OtherThan(row.value));
      return None;
    }
    return Some(row.value.user);
  }

  method ClearFailedLoginAttempts(db: Database, user: UserId)
    modifies db`tokens
    ensures db.tokens == RowsDropped(old(db.tokens), user, LoginAttempt)
  {
    db.tokens := RowsDropped(db.tokens, user, LoginAttempt);
  }

  method DeleteUserLoginChallenges(db: Database, user: UserId)
    modifies db`tokens
    ensures db.tokens == RowsDropped(old(db.tokens), user, LoginChallenge)
  {
    db.tokens := RowsDropped(db.tokens, user, LoginChallenge);
  }

  method DeleteLoginChallenge(db: Database, id: TokenId)
    modifies db`tokens
    ensures db.tokens == TokenDropped(old(db.tokens), id, LoginChallenge)
  {
    db.tokens := TokenDropped(db.tokens, id, LoginChallenge);
  }

  /** Records a failed verification under the lock of the user and applies both limits. */
  method RecordFailedLoginAttempt(db: Database, limits: Limits, challenge: TokenId, user: UserId) returns (r: Outcome)
    modifies db`tokens
    ensures (db.tokens, r) == Recorded(limits, old(db.tokens), user, challenge, db.now)
    ensures GenericToken(user, challenge, LoginAttempt, db.now) in db.tokens
    ensures r.lockedOut ==> forall t :: t in db.tokens && t.user == user ==> t.purpose != LoginChallenge
    ensures r.challengeInvalidated && !r.lockedOut ==>
      forall t :: t in db.tokens && t.token == challenge ==> t.purpose != LoginChallenge
  {
    ChallengesLeft(limits, db.tokens, user, challenge, db.now);
    PurgeExpiredAttempts(db, limits, user);
    db.tokens := db.tokens + [GenericToken(user, challenge, LoginAttempt, db.now)];
    var retryAfter := LockoutRemaining(limits, db.tokens, user, db.now);
    if retryAfter != 0 {
      DeleteUserLoginChallenges(db, user);
      return Outcome(true, true, retryAfter);
    }
    if limits.challengeMax > 0 {
      if ChallengeFailures(db.tokens, user, challenge) >= limits.challengeMax {
        DeleteLoginChallenge(db, challenge);
        return Outcome(true, false, 0);
      }
    }
    return Outcome(false, false, 0);
  }
}
