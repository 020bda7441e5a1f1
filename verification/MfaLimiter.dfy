/**
 The guess bound of the MFA step under concurrency. The lockout is read outside the lock
 under which a failure is recorded, so requests that passed the check together may all
 record; this is what that can amount to, for one user and any number of challenges.
 */
module MfaLimiter {
  import opened Basics
  import opened Store
  import opened MfaStorage

  type RequestId = nat

  /** Whose attempts are counted, under which limits, and how many requests may be in flight. */
  datatype Setup = Setup(user: UserId, limits: Limits, capacity: nat)

  /**
   `checked` holds the requests that passed the check and have not finished, each with its
   challenge. `since` and `past` are history: the times of the failures recorded since the
   last success, and those of the stretches between earlier successes.
   */
  datatype State = State(
    now: int,
    tokens: seq<GenericToken>,
    checked: map<RequestId, TokenId>,
    since: seq<int>,
    past: seq<seq<int>>)

  datatype Action =
    | Check(request: RequestId, challenge: TokenId)
    | Fail(request: RequestId)
    | Succeed(request: RequestId)
    | GiveUp(request: RequestId)
    | Elsewhere(tokens: seq<GenericToken>)
    | Tick(delta: nat)

  /** The failures that some counter still looks at. */
  function Counted(cfg: Setup, tokens: seq<GenericToken>, now: int): seq<GenericToken> {
    Keep(tokens, FailuresFrom(cfg.user, now - AttemptAge(cfg.limits)))
  }

  /**
   Either endpoint reads the challenge, then the lockout, then the code, and only then records.
   What the challenge read earlier said does not matter here: the lockout is the check that
   counts. Whatever else happens to the table leaves the failures of the user that still count,
   as `MfaFlows.FlowIsElsewhere` proves of every other flow.
   */
  ghost predicate Enabled(cfg: Setup, s: State, a: Action) {
    match a
    case Check(request, _) =>
      request !in s.checked && |s.checked| < cfg.capacity && !LockedOut(cfg.limits, s.tokens, cfg.user, s.now)
    case Fail(request) => request in s.checked
    case Succeed(request) => request in s.checked
    case GiveUp(request) => request in s.checked
    case Elsewhere(tokens) => Counted(cfg, tokens, s.now) == Counted(cfg, s.tokens, s.now)
    case Tick(_) => true
  }

  ghost function Perform(cfg: Setup, s: State, a: Action): State
    requires Enabled(cfg, s, a)
  {
    match a
    case Check(request, challenge) => s.(checked := s.checked[request := challenge])
    case Fail(request) =>
      s.(tokens := Recorded(cfg.limits, s.tokens, cfg.user, s.checked[request], s.now).0,
         checked := s.checked - {request}, since := s.since + [s.now])
    case Succeed(request) =>
      s.(tokens := RowsDropped(TokenDropped(s.tokens, s.checked[request], LoginChallenge), cfg.user, LoginAttempt),
         checked := s.checked - {request}, since := [], past := s.past + [s.since])
    case GiveUp(request) => s.(checked := s.checked - {request})
    case Elsewhere(tokens) => s.(tokens := tokens)
    case Tick(delta) => s.(now := s.now + delta)
  }

  ghost predicate CanRun(cfg: Setup, s: State, run: seq<Action>)
    decreases |run|
  {
    run == [] || (Enabled(cfg, s, run[0]) && CanRun(cfg, Perform(cfg, s, run[0]), run[1..]))
  }

  ghost function After(cfg: Setup, s: State, run: seq<Action>): State
    requires CanRun(cfg, s, run)
    decreases |run|
  {
    if run == [] then s else After(cfg, Perform(cfg, s, run[0]), run[1..])
  }

  lemma RunCons(cfg: Setup, s: State, a: Action, s': State, run: seq<Action>)
    requires Enabled(cfg, s, a) && s' == Perform(cfg, s, a) && CanRun(cfg, s', run)
    ensures CanRun(cfg, s, [a] + run) && After(cfg, s, [a] + run) == After(cfg, s', run)
  {
    assert ([a] + run)[1..] == run;
  }

  lemma {:induction false} RunAppend(cfg: Setup, s: State, head: seq<Action>, tail: seq<Action>)
    requires CanRun(cfg, s, head) && CanRun(cfg, After(cfg, s, head), tail)
    ensures CanRun(cfg, s, head + tail) && After(cfg, s, head + tail) == After(cfg, After(cfg, s, head), tail)
    decreases |head|
  {
    if head == [] {
      assert head + tail == tail;
    } else {
      var s1 := Perform(cfg, s, head[0]);
      RunAppend(cfg, s1, head[1..], tail);
      RunCons(cfg, s, head[0], s1, head[1..] + tail);
      assert head + tail == [head[0]] + (head[1..] + tail);
    }
  }

  // --------------------------------------------------------------- the invariant

  ghost predicate Ascending(s: seq<int>) {
    forall i, j :: 0 <= i <= j < |s| ==> s[i] <= s[j]
  }

  /** The largest number of failures any window of the lockout length may hold. */
  function Bound(cfg: Setup): int {
    cfg.limits.userMax + cfg.capacity - 1
  }

  ghost predicate WithinBound(cfg: Setup, stretch: seq<int>) {
    forall i, j :: 0 <= i <= j < |stretch| && stretch[j] - stretch[i] <= Window(cfg.limits) ==> j - i + 1 <= Bound(cfg)
  }

  /** The table counts what the history counts, for every instant still in the window. */
  ghost predicate CountsHistory(cfg: Setup, s: State) {
    forall x :: s.now - Window(cfg.limits) <= x ==> FailuresSince(s.tokens, cfg.user, x) == AtLeast(s.since, x)
  }

  ghost predicate Inv(cfg: Setup, s: State) {
    && |s.checked| <= cfg.capacity
    && Ascending(s.since) && (s.since != [] ==> s.since[|s.since| - 1] <= s.now)
    && CountsHistory(cfg, s)
    && (forall i :: 0 <= i < |s.since| && s.now - Window(cfg.limits) <= s.since[i] ==>
          |s.since| - i + |s.checked| <= Bound(cfg))
    && WithinBound(cfg, s.since) && (forall k :: 0 <= k < |s.past| ==> WithinBound(cfg, s.past[k]))
  }

  // ------------------------------------------------------------ counting lemmas

  lemma {:induction false} AtLeastAppend(s: seq<int>, x: int, since: int)
    ensures AtLeast(s + [x], since) == AtLeast(s, since) + if since <= x then 1 else 0
  {
    if s != [] {
      assert (s + [x])[1..] == s[1..] + [x];
      AtLeastAppend(s[1..], x, since);
    } else {
      assert s + [x] == [x] && [x][1..] == [];
    }
  }

  /** In an ascending list everything from `i` on is at least as recent as the `i`-th. */
  lemma {:induction false} TailIsRecent(s: seq<int>, i: nat, since: int)
    requires Ascending(s) && i < |s| && since <= s[i]
    ensures |s| - i <= AtLeast(s, since)
  {
    if i > 0 {
      TailIsRecent(s[1..], i - 1, since);
    } else if |s| > 1 {
      TailIsRecent(s[1..], 0, since);
    }
  }

  lemma Narrower(tokens: seq<GenericToken>, user: UserId, cut: int, since: int)
    requires cut <= since
    ensures Keep(Keep(tokens, FailuresFrom(user, cut)), FailuresFrom(user, since))
      == Keep(tokens, FailuresFrom(user, since))
  {
    KeepKeep(tokens, FailuresFrom(user, cut), FailuresFrom(user, since), FailuresFrom(user, since));
  }

  /** Tables that agree on the failures that count agree on every count taken of them. */
  lemma SameCounted(cfg: Setup, tokens: seq<GenericToken>, tokens': seq<GenericToken>, now: int, since: int)
    requires Counted(cfg, tokens, now) == Counted(cfg, tokens', now) && now - Window(cfg.limits) <= since
    ensures FailuresSince(tokens, cfg.user, since) == FailuresSince(tokens', cfg.user, since)
  {
    var cut := now - AttemptAge(cfg.limits);
    Narrower(tokens, cfg.user, cut, since);
    Narrower(tokens', cfg.user, cut, since);
  }

  lemma FailureCounts(cfg: Setup, tokens: seq<GenericToken>, challenge: TokenId, now: int, since: int)
    requires now - Window(cfg.limits) <= since
    ensures FailuresSince(Recorded(cfg.limits, tokens, cfg.user, challenge, now).0, cfg.user, since)
      == FailuresSince(tokens, cfg.user, since) + if since <= now then 1 else 0
  {
    var row := GenericToken(cfg.user, challenge, LoginAttempt, now);
    AgedOutUncounted(cfg.limits, tokens, cfg.user, now, since);
    AppendCounts(AttemptsPurged(cfg.limits, tokens, cfg.user, now), row, since);
    ChallengesAside(WithFailure(cfg.limits, tokens, cfg.user, challenge, now), cfg.user, challenge,
        FailuresFrom(cfg.user, since));
  }

  // ------------------------------------------------------------------- the steps

  lemma CheckStep(cfg: Setup, s: State, a: Action)
    requires Inv(cfg, s) && a.Check? && Enabled(cfg, s, a) && 0 < cfg.limits.userMax
    ensures Inv(cfg, Perform(cfg, s, a))
  {
    var s' := Perform(cfg, s, a);
    var opening := s.now - Window(cfg.limits);
    LockoutIsWindowCount(cfg.limits, s.tokens, cfg.user, s.now);
    assert AtLeast(s.since, opening) < cfg.limits.userMax;
    forall i | 0 <= i < |s.since| && opening <= s.since[i] ensures |s.since| - i + |s'.checked| <= Bound(cfg) {
      TailIsRecent(s.since, i, opening);
    }
  }

  lemma FailStep(cfg: Setup, s: State, a: Action)
    requires Inv(cfg, s) && a.Fail? && Enabled(cfg, s, a) && 0 < cfg.limits.userMax
    ensures Inv(cfg, Perform(cfg, s, a))
  {
    var s' := Perform(cfg, s, a);
    forall x | s'.now - Window(cfg.limits) <= x
      ensures FailuresSince(s'.tokens, cfg.user, x) == AtLeast(s'.since, x)
    {
      FailureCounts(cfg, s.tokens, s.checked[a.request], s.now, x);
      AtLeastAppend(s.since, s.now, x);
    }
    assert |s'.checked| == |s.checked| - 1 by {
      assert s'.checked.Keys == s.checked.Keys - {a.request};
    }
  }

  lemma SucceedStep(cfg: Setup, s: State, a: Action)
    requires Inv(cfg, s) && a.Succeed? && Enabled(cfg, s, a)
    ensures Inv(cfg, Perform(cfg, s, a))
  {
    var s' := Perform(cfg, s, a);
    forall x ensures FailuresSince(s'.tokens, cfg.user, x) == 0 {
      KeepNone(s'.tokens, FailuresFrom(cfg.user, x));
    }
    assert s'.checked.Keys == s.checked.Keys - {a.request};
  }

  lemma InvStep(cfg: Setup, s: State, a: Action)
    requires Inv(cfg, s) && Enabled(cfg, s, a) && 0 < cfg.limits.userMax
    ensures Inv(cfg, Perform(cfg, s, a))
  {
    match a
    case Check(_, _) => CheckStep(cfg, s, a);
    case Fail(_) => FailStep(cfg, s, a);
    case Succeed(_) => SucceedStep(cfg, s, a);
    case GiveUp(request) => assert Perform(cfg, s, a).checked.Keys == s.checked.Keys - {request};
    case Elsewhere(tokens) =>
      forall x | s.now - Window(cfg.limits) <= x ensures FailuresSince(tokens, cfg.user, x) == AtLeast(s.since, x) {
        SameCounted(cfg, s.tokens, tokens, s.now, x);
      }
    case Tick(_) =>
  }

  lemma {:induction false} InvRun(cfg: Setup, s: State, run: seq<Action>)
    requires Inv(cfg, s) && CanRun(cfg, s, run) && 0 < cfg.limits.userMax
    ensures Inv(cfg, After(cfg, s, run))
    decreases |run|
  {
    if run != [] {
      InvStep(cfg, s, run[0]);
      InvRun(cfg, Perform(cfg, s, run[0]), run[1..]);
    }
  }

  /** No failure has been recorded yet and nobody is in flight. */
  predicate Quiet(cfg: Setup, s: State) {
    Attempts(s.tokens, cfg.user) == [] && s.checked == map[] && s.since == [] && s.past == []
  }

  lemma QuietIsInv(cfg: Setup, s: State)
    requires Quiet(cfg, s) && 0 < cfg.limits.userMax
    ensures Inv(cfg, s)
  {
    forall x ensures FailuresSince(s.tokens, cfg.user, x) == 0 {
      KeepKeep(s.tokens, RowsOf(cfg.user, LoginAttempt), FailuresFrom(cfg.user, x), FailuresFrom(cfg.user, x));
    }
  }

  /**
   The guess bound: with at most `capacity` verifications in flight, any stretch without a
   success records at most `userMax + capacity - 1` failures in any window of the lockout
   length, over both endpoints and any number of challenges; exactly the limit when
   verifications come one at a time.
   */
  lemma GuessBound(cfg: Setup, s: State, run: seq<Action>)
    requires Quiet(cfg, s) && CanRun(cfg, s, run) && 0 < cfg.limits.userMax
    ensures var s' := After(cfg, s, run);
      && WithinBound(cfg, s'.since)
      && (forall k :: 0 <= k < |s'.past| ==> WithinBound(cfg, s'.past[k]))
  {
    QuietIsInv(cfg, s);
    InvRun(cfg, s, run);
  }
}
