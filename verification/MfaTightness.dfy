/** The guess bound is exact: some run records as many failures as it allows, at a single instant. */
module MfaTightness {
  import opened Basics
  import opened Store
  import opened MfaStorage
  import opened MfaLimiter

  /** Every failure so far is of this instant. */
  ghost predicate AllNow(s: State) {
    forall i :: 0 <= i < |s.since| ==> s.since[i] == s.now
  }

  predicate HasChallenge(cfg: Setup, s: State, challenge: TokenId) {
    var row := CredentialRow(s.tokens, challenge, LoginChallenge);
    Live(row, s.now) && row.value.user == cfg.user
  }

  /** Every id in the table was drawn before `id`. */
  ghost predicate Below(tokens: seq<GenericToken>, id: TokenId) {
    forall t :: t in tokens ==> t.token < id
  }

  /** The table a login of the user leaves: a challenge under a new id, for an account that is not locked out. */
  ghost predicate LoginStep(cfg: Setup, s: State, tokens: seq<GenericToken>) {
    && !LockedOut(cfg.limits, s.tokens, cfg.user, s.now)
    && tokens != []
    && var id := tokens[|tokens| - 1].token;
       Below(s.tokens, id) && tokens == ChallengeIssued(cfg.limits, s.tokens, cfg.user, id, s.now)
  }

  /** A step the flows really take: a check of a live challenge of the user, or elsewhere nothing but a login. */
  ghost predicate Real(cfg: Setup, s: State, a: Action) {
    && (a.Check? ==> HasChallenge(cfg, s, a.challenge))
    && (a.Elsewhere? ==> LoginStep(cfg, s, a.tokens))
  }

  ghost function RealIn(cfg: Setup): (State, Action) -> bool {
    (s: State, a: Action) => Real(cfg, s, a)
  }

  /** Every step of the run is as `ok` says, in the state it is taken in. */
  ghost predicate Steps(cfg: Setup, s: State, run: seq<Action>, ok: (State, Action) -> bool)
    requires CanRun(cfg, s, run)
    decreases |run|
  {
    run == [] || (ok(s, run[0]) && Steps(cfg, Perform(cfg, s, run[0]), run[1..], ok))
  }

  lemma NoSteps(cfg: Setup, s: State, ok: (State, Action) -> bool)
    ensures CanRun(cfg, s, []) && After(cfg, s, []) == s && Steps(cfg, s, [], ok)
  {
  }

  lemma StepsCons(cfg: Setup, s: State, a: Action, s': State, run: seq<Action>, ok: (State, Action) -> bool)
    requires Enabled(cfg, s, a) && s' == Perform(cfg, s, a) && CanRun(cfg, s', run) && Steps(cfg, s', run, ok)
    requires ok(s, a)
    ensures CanRun(cfg, s, [a] + run) && After(cfg, s, [a] + run) == After(cfg, s', run)
    ensures Steps(cfg, s, [a] + run, ok)
  {
    RunCons(cfg, s, a, s', run);
    assert ([a] + run)[1..] == run;
  }

  lemma {:induction false} StepsAppend(cfg: Setup, s: State, head: seq<Action>, tail: seq<Action>,
          ok: (State, Action) -> bool)
    requires CanRun(cfg, s, head) && Steps(cfg, s, head, ok)
    requires CanRun(cfg, After(cfg, s, head), tail) && Steps(cfg, After(cfg, s, head), tail, ok)
    ensures CanRun(cfg, s, head + tail) && After(cfg, s, head + tail) == After(cfg, After(cfg, s, head), tail)
    ensures Steps(cfg, s, head + tail, ok)
    decreases |head|
  {
    if head == [] {
      assert head + tail == tail;
    } else {
      var s1 := Perform(cfg, s, head[0]);
      StepsAppend(cfg, s1, head[1..], tail, ok);
      StepsCons(cfg, s, head[0], s1, head[1..] + tail, ok);
      assert head + tail == [head[0]] + (head[1..] + tail);
    }
  }

  lemma {:induction false} AtMostAll(s: seq<int>, since: int)
    ensures AtLeast(s, since) <= |s|
  {
    if s != [] {
      AtMostAll(s[1..], since);
    }
  }

  lemma FreeBelowLimit(cfg: Setup, s: State)
    requires Inv(cfg, s) && |s.since| < cfg.limits.userMax
    ensures !LockedOut(cfg.limits, s.tokens, cfg.user, s.now)
  {
    AtMostAll(s.since, s.now - Window(cfg.limits));
    LockoutIsWindowCount(cfg.limits, s.tokens, cfg.user, s.now);
  }

  /** A login leaves the failures that count. */
  lemma LoginCounts(cfg: Setup, s: State, id: TokenId)
    ensures Counted(cfg, ChallengeIssued(cfg.limits, s.tokens, cfg.user, id, s.now), s.now)
      == Counted(cfg, s.tokens, s.now)
  {
    var p := FailuresFrom(cfg.user, s.now - AttemptAge(cfg.limits));
    var aged := AttemptsPurged(cfg.limits, s.tokens, cfg.user, s.now);
    KeepKeep(s.tokens, NotOlder(cfg.user, LoginAttempt, s.now - AttemptAge(cfg.limits)), p, p);
    ChallengePasses(aged, cfg.user, id, s.now, p);
  }

  lemma ChallengePasses(tokens: seq<GenericToken>, user: UserId, id: TokenId, now: int, p: GenericToken -> bool)
    requires forall t :: p(t) ==> t.purpose == LoginAttempt
    ensures Keep(ExpiredPurged(tokens, user, LoginChallenge, now) + [GenericToken(user, id, LoginChallenge, now)], p)
      == Keep(tokens, p)
  {
    KeepKeep(tokens, NotOlder(user, LoginChallenge, now - TOKEN_MAX_AGE), p, p);
    KeepPast(ExpiredPurged(tokens, user, LoginChallenge, now), GenericToken(user, id, LoginChallenge, now), p);
  }

  lemma LoginChallengeIsNew(cfg: Setup, s: State, id: TokenId)
    requires Below(s.tokens, id)
    ensures var tokens := ChallengeIssued(cfg.limits, s.tokens, cfg.user, id, s.now);
      && Keep(tokens, TokensOf(id, LoginChallenge)) == [GenericToken(cfg.user, id, LoginChallenge, s.now)]
      && Below(tokens, id + 1) && tokens[|tokens| - 1].token == id
  {
    var row := GenericToken(cfg.user, id, LoginChallenge, s.now);
    var aged := AttemptsPurged(cfg.limits, s.tokens, cfg.user, s.now);
    var purged := ExpiredPurged(aged, cfg.user, LoginChallenge, s.now);
    forall t | t in purged ensures t.token < id {
      assert t in aged;
    }
    KeepAppend(purged, [row], TokensOf(id, LoginChallenge));
    KeepOne(row, TokensOf(id, LoginChallenge));
    KeepNone(purged, TokensOf(id, LoginChallenge));
  }

  /** A login hands out a live challenge under the new id. */
  lemma Login(cfg: Setup, s: State, id: TokenId) returns (a: Action, s': State)
    requires Inv(cfg, s) && Below(s.tokens, id) && |s.since| < cfg.limits.userMax
    ensures a.Elsewhere? && Enabled(cfg, s, a) && RealIn(cfg)(s, a) && s' == Perform(cfg, s, a)
    ensures Inv(cfg, s') && HasChallenge(cfg, s', id) && s' == s.(tokens := s'.tokens) && Below(s'.tokens, id + 1)
  {
    a := Elsewhere(ChallengeIssued(cfg.limits, s.tokens, cfg.user, id, s.now));
    LoginCounts(cfg, s, id);
    LoginChallengeIsNew(cfg, s, id);
    FreeBelowLimit(cfg, s);
    s' := Perform(cfg, s, a);
    InvStep(cfg, s, a);
    assert Latest([GenericToken(cfg.user, id, LoginChallenge, s.now)]).Some?;
  }

  function FirstIds(n: nat): (ids: set<RequestId>)
    ensures |ids| == n && forall r :: r in ids ==> r < n
  {
    if n == 0 then {} else FirstIds(n - 1) + {n - 1}
  }

  lemma CheckOne(cfg: Setup, s: State, id: TokenId, m: nat) returns (s': State)
    requires Inv(cfg, s) && HasChallenge(cfg, s, id) && |s.since| < cfg.limits.userMax
    requires s.checked.Keys == FirstIds(m) && m < cfg.capacity
    ensures Enabled(cfg, s, Check(m, id)) && RealIn(cfg)(s, Check(m, id)) && s' == Perform(cfg, s, Check(m, id))
      && Inv(cfg, s')
    ensures s' == s.(checked := s.checked[m := id]) && s'.checked.Keys == FirstIds(m + 1)
  {
    FreeBelowLimit(cfg, s);
    assert |s.checked| == |s.checked.Keys|;
    InvStep(cfg, s, Check(m, id));
    s' := Perform(cfg, s, Check(m, id));
  }

  /** The requests in flight work on challenges drawn before `id`. */
  ghost predicate ChecksBelow(s: State, id: TokenId) {
    forall r :: r in s.checked ==> s.checked[r] < id
  }

  /** With an account that is free, as many requests pass the check as may be in flight. */
  lemma {:induction false} CheckUpTo(cfg: Setup, s: State, id: TokenId, m: nat, n: nat) returns (run: seq<Action>)
    requires Inv(cfg, s) && HasChallenge(cfg, s, id) && |s.since| < cfg.limits.userMax && ChecksBelow(s, id + 1)
    requires s.checked.Keys == FirstIds(m) && m <= n <= cfg.capacity
    ensures CanRun(cfg, s, run) && Steps(cfg, s, run, RealIn(cfg)) && Inv(cfg, After(cfg, s, run))
    ensures var s' := After(cfg, s, run);
      s' == s.(checked := s'.checked) && s'.checked.Keys == FirstIds(n) && ChecksBelow(s', id + 1)
    decreases n - m
  {
    if m == n {
      run := [];
      NoSteps(cfg, s, RealIn(cfg));
    } else {
      var s1 := CheckOne(cfg, s, id, m);
      var rest := CheckUpTo(cfg, s1, id, m + 1, n);
      run := [Check(m, id)] + rest;
      StepsCons(cfg, s, Check(m, id), s1, rest, RealIn(cfg));
    }
  }

  lemma RecordedBelow(cfg: Setup, tokens: seq<GenericToken>, challenge: TokenId, now: int, id: TokenId)
    requires Below(tokens, id) && challenge < id
    ensures Below(Recorded(cfg.limits, tokens, cfg.user, challenge, now).0, id)
  {
    var counted := WithFailure(cfg.limits, tokens, cfg.user, challenge, now);
    assert Below(counted, id);
    assert Below(RowsDropped(counted, cfg.user, LoginChallenge), id);
    assert Below(TokenDropped(counted, challenge, LoginChallenge), id);
  }

  lemma FailOne(cfg: Setup, s: State, id: TokenId, n: nat) returns (s': State)
    requires Inv(cfg, s) && AllNow(s) && Below(s.tokens, id) && ChecksBelow(s, id)
    requires 0 < cfg.limits.userMax && 0 < n && s.checked.Keys == FirstIds(n)
    ensures Enabled(cfg, s, Fail(n - 1)) && RealIn(cfg)(s, Fail(n - 1)) && s' == Perform(cfg, s, Fail(n - 1))
    ensures Inv(cfg, s') && AllNow(s') && Below(s'.tokens, id) && ChecksBelow(s', id)
    ensures s'.now == s.now && s'.past == s.past && s'.checked.Keys == FirstIds(n - 1) && |s'.since| == |s.since| + 1
  {
    assert n - 1 in s.checked.Keys;
    InvStep(cfg, s, Fail(n - 1));
    RecordedBelow(cfg, s.tokens, s.checked[n - 1], s.now, id);
    s' := Perform(cfg, s, Fail(n - 1));
    assert s'.checked.Keys == s.checked.Keys - {n - 1};
    assert n - 1 !in FirstIds(n - 1);
  }

  /** Nobody in flight, every failure of this instant, and `id` never drawn. */
  ghost predicate Settled(s: State, id: TokenId) {
    AllNow(s) && s.checked == map[] && Below(s.tokens, id)
  }

  /** Whoever passed the check records, locked out or not. */
  lemma {:induction false} FailAll(cfg: Setup, s: State, id: TokenId, n: nat) returns (run: seq<Action>)
    requires Inv(cfg, s) && AllNow(s) && Below(s.tokens, id) && ChecksBelow(s, id)
    requires 0 < cfg.limits.userMax && s.checked.Keys == FirstIds(n)
    ensures CanRun(cfg, s, run) && Steps(cfg, s, run, RealIn(cfg)) && Inv(cfg, After(cfg, s, run))
    ensures var s' := After(cfg, s, run);
      Settled(s', id) && s'.now == s.now && s'.past == s.past && |s'.since| == |s.since| + n
    decreases n
  {
    if n == 0 {
      run := [];
      NoSteps(cfg, s, RealIn(cfg));
      assert s.checked.Keys == {};
    } else {
      var s1 := FailOne(cfg, s, id, n);
      var rest := FailAll(cfg, s1, id, n - 1);
      run := [Fail(n - 1)] + rest;
      StepsCons(cfg, s, Fail(n - 1), s1, rest, RealIn(cfg));
    }
  }

  /** A round: a login, `n` checks of its challenge, and then `n` failures. */
  lemma Round(cfg: Setup, s: State, id: TokenId, n: nat) returns (run: seq<Action>)
    requires Inv(cfg, s) && Settled(s, id) && |s.since| < cfg.limits.userMax && n <= cfg.capacity
    ensures CanRun(cfg, s, run) && Steps(cfg, s, run, RealIn(cfg)) && Inv(cfg, After(cfg, s, run))
    ensures var s' := After(cfg, s, run);
      Settled(s', id + 1) && s'.now == s.now && s'.past == s.past && |s'.since| == |s.since| + n
  {
    var login, s1 := Login(cfg, s, id);
    assert s1.checked.Keys == FirstIds(0);
    var checks := CheckUpTo(cfg, s1, id, 0, n);
    var fails := FailAll(cfg, After(cfg, s1, checks), id + 1, n);
    StepsAppend(cfg, s1, checks, fails, RealIn(cfg));
    StepsCons(cfg, s, login, s1, checks + fails, RealIn(cfg));
    run := [login] + (checks + fails);
  }

  /** Failures one at a time, up to `k` of them. */
  lemma {:induction false} Serially(cfg: Setup, s: State, id: TokenId, k: nat) returns (run: seq<Action>)
    requires Inv(cfg, s) && Settled(s, id) && 0 < cfg.capacity && |s.since| + k <= cfg.limits.userMax
    ensures CanRun(cfg, s, run) && Steps(cfg, s, run, RealIn(cfg)) && Inv(cfg, After(cfg, s, run))
    ensures var s' := After(cfg, s, run);
      Settled(s', id + k) && s'.now == s.now && s'.past == s.past && |s'.since| == |s.since| + k
    decreases k
  {
    if k == 0 {
      run := [];
      NoSteps(cfg, s, RealIn(cfg));
    } else {
      var first := Round(cfg, s, id, 1);
      var rest := Serially(cfg, After(cfg, s, first), id + 1, k - 1);
      StepsAppend(cfg, s, first, rest, RealIn(cfg));
      run := first + rest;
    }
  }

  /** Some id is above all in the table. */
  lemma {:induction false} FreshId(tokens: seq<GenericToken>) returns (id: TokenId)
    ensures Below(tokens, id)
  {
    if tokens == [] {
      id := 0;
    } else {
      var rest := FreshId(tokens[1..]);
      id := Max(rest, tokens[0].token + 1);
      forall t | t in tokens ensures t.token < id {
        assert t == tokens[0] || t in tokens[1..];
      }
    }
  }

  /**
   The bound is reached: one short of the limit is spent one code at a time, then as many
   requests as may be in flight pass the check together, and all of them record. Every check
   of that run is made on a live challenge of the user, and beside the requests of the two
   endpoints it takes nothing but logins of that user.
   */
  lemma BoundIsReached(cfg: Setup, s: State) returns (run: seq<Action>)
    requires Quiet(cfg, s) && 0 < cfg.limits.userMax && 0 < cfg.capacity
    ensures CanRun(cfg, s, run) && Steps(cfg, s, run, RealIn(cfg))
    ensures var s' := After(cfg, s, run);
      |s'.since| == Bound(cfg) && s'.past == [] && forall i :: 0 <= i < |s'.since| ==> s'.since[i] == s'.now
  {
    QuietIsInv(cfg, s);
    var id := FreshId(s.tokens);
    var serial := Serially(cfg, s, id, cfg.limits.userMax - 1);
    var together := Round(cfg, After(cfg, s, serial), id + cfg.limits.userMax - 1, cfg.capacity);
    StepsAppend(cfg, s, serial, together, RealIn(cfg));
    run := serial + together;
  }
}
