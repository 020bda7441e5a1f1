/** The guess bound and the flows: every other flow leaves the failures that count, and serial runs obey the bound. */
module MfaFlows {
  import opened Basics
  import opened Store
  import opened MfaStorage
  import opened Purge
  import opened CapabilityInvariants
  import opened CapabilityTable
  import opened CapabilityLimiter
  import opened CapabilityCounts
  import Flows = Capabilities
  import M = MfaLimiter

  /** The concurrent machine at the instant and the table of the flows. */
  ghost predicate At(s: Flows.State, m: M.State) {
    m.now == s.now && m.tokens == s.tokens
  }

  function SetupFor(policy: Policy, user: UserId, capacity: nat): M.Setup {
    M.Setup(user, policy.limits, capacity)
  }

  /**
   Whatever is in flight, a request of any flow other than a wrong code or a success of the
   user, the wrong codes of other users and the purge included, is a step the concurrent
   machine takes elsewhere.
   */
  lemma FlowIsElsewhere(policy: Policy, s: Flows.State, r: Flows.Request, user: UserId, capacity: nat, m: M.State)
    requires KeepsBuiltIns(policy) && At(s, m)
    requires !Misses(s, r, Flows.Serve(policy, s, r).1, user) && !Clears(r, Flows.Serve(policy, s, r).1, user)
    ensures M.Enabled(SetupFor(policy, user, capacity), m, M.Elsewhere(Flows.Serve(policy, s, r).0.tokens))
  {
    CountedChangeOnlyBy(policy, s, r, user, s.now - AttemptAge(policy.limits));
  }

  /** The times of the failures since the last success, and of the stretches between earlier ones. */
  datatype History = History(since: seq<int>, past: seq<seq<int>>)

  function Noted(s: Flows.State, r: Flows.Request, answer: Flows.Answer, user: UserId, h: History): History {
    if Misses(s, r, answer, user) then h.(since := h.since + [s.now])
    else if Clears(r, answer, user) then History([], h.past + [h.since])
    else h
  }

  /** What the answers along a run say of the user, on top of `h`. */
  function HistoryOf(policy: Policy, s: Flows.State, run: seq<Flows.Request>, user: UserId, h: History): History
    decreases |run|
  {
    if run == [] then h
    else
      var (s', answer) := Flows.Serve(policy, s, run[0]);
      HistoryOf(policy, s', run[1..], user, Noted(s, run[0], answer, user, h))
  }

  /** Nobody in flight, and the same history. */
  ghost predicate Follows(s: Flows.State, h: History, m: M.State) {
    At(s, m) && m.checked == map[] && m.since == h.since && m.past == h.past
  }

  lemma WrongCodeFollows(policy: Policy, s: Flows.State, r: Flows.Request, user: UserId, h: History, m: M.State)
    returns (m': M.State)
    requires Follows(s, h, m) && Misses(s, r, Flows.Serve(policy, s, r).1, user)
    ensures var actions := [M.Check(0, r.challenge), M.Fail(0)]; var cfg := SetupFor(policy, user, 1);
      M.CanRun(cfg, m, actions) && m' == M.After(cfg, m, actions)
    ensures var (s', answer) := Flows.Serve(policy, s, r); Follows(s', Noted(s, r, answer, user, h), m')
  {
    var cfg := SetupFor(policy, user, 1);
    WrongCodeRecords(policy, s, r.challenge, r.enrolled, r.right);
    var m1 := M.Perform(cfg, m, M.Check(0, r.challenge));
    m' := M.Perform(cfg, m1, M.Fail(0));
    assert m1.checked - {0} == map[];
    M.RunCons(cfg, m1, M.Fail(0), m', []);
    M.RunCons(cfg, m, M.Check(0, r.challenge), m1, [M.Fail(0)] + []);
    assert [M.Check(0, r.challenge)] + ([M.Fail(0)] + []) == [M.Check(0, r.challenge), M.Fail(0)];
  }

  lemma SuccessIsFree(policy: Policy, s: Flows.State, id: TokenId, enrolled: bool, right: bool, user: UserId)
    requires Flows.VerifyCode(policy, s, id, enrolled, right).1 == Flows.SignedIn(user)
    ensures !LockedOut(policy.limits, s.tokens, user, s.now)
    ensures Flows.VerifyCode(policy, s, id, enrolled, right).0
      == s.(tokens := RowsDropped(TokenDropped(s.tokens, id, LoginChallenge), user, LoginAttempt))
  {
    assert LockoutRemaining(policy.limits, s.tokens, user, s.now) == 0;
  }

  lemma SuccessFollows(policy: Policy, s: Flows.State, r: Flows.Request, user: UserId, h: History, m: M.State)
    returns (m': M.State)
    requires Follows(s, h, m) && Clears(r, Flows.Serve(policy, s, r).1, user)
    ensures var actions := [M.Check(0, r.challenge), M.Succeed(0)]; var cfg := SetupFor(policy, user, 1);
      M.CanRun(cfg, m, actions) && m' == M.After(cfg, m, actions)
    ensures var (s', answer) := Flows.Serve(policy, s, r); Follows(s', Noted(s, r, answer, user, h), m')
  {
    var cfg := SetupFor(policy, user, 1);
    SuccessIsFree(policy, s, r.challenge, r.enrolled, r.right, user);
    var m1 := M.Perform(cfg, m, M.Check(0, r.challenge));
    m' := M.Perform(cfg, m1, M.Succeed(0));
    assert m1.checked - {0} == map[];
    M.RunCons(cfg, m1, M.Succeed(0), m', []);
    M.RunCons(cfg, m, M.Check(0, r.challenge), m1, [M.Succeed(0)] + []);
    assert [M.Check(0, r.challenge)] + ([M.Succeed(0)] + []) == [M.Check(0, r.challenge), M.Succeed(0)];
  }

  lemma OtherFollows(policy: Policy, s: Flows.State, r: Flows.Request, user: UserId, h: History, m: M.State)
    returns (actions: seq<M.Action>, m': M.State)
    requires KeepsBuiltIns(policy) && Follows(s, h, m)
    requires !Misses(s, r, Flows.Serve(policy, s, r).1, user) && !Clears(r, Flows.Serve(policy, s, r).1, user)
    ensures var cfg := SetupFor(policy, user, 1); M.CanRun(cfg, m, actions) && m' == M.After(cfg, m, actions)
    ensures var (s', answer) := Flows.Serve(policy, s, r); Follows(s', Noted(s, r, answer, user, h), m')
  {
    var cfg := SetupFor(policy, user, 1);
    var a := if r.Wait? then M.Tick(r.delta) else M.Elsewhere(Flows.Serve(policy, s, r).0.tokens);
    FlowIsElsewhere(policy, s, r, user, 1, m);
    HandsStep(policy, s, r);
    m' := M.Perform(cfg, m, a);
    actions := [a] + [];
    M.RunCons(cfg, m, a, m', []);
  }

  lemma {:induction false} RunFollows(policy: Policy, s: Flows.State, run: seq<Flows.Request>, user: UserId, h: History,
          m: M.State)
    returns (actions: seq<M.Action>)
    requires KeepsBuiltIns(policy) && Follows(s, h, m)
    ensures var cfg := SetupFor(policy, user, 1);
      && M.CanRun(cfg, m, actions)
      && Follows(Flows.After(policy, s, run), HistoryOf(policy, s, run, user, h), M.After(cfg, m, actions))
    decreases |run|
  {
    if run == [] {
      actions := [];
    } else {
      var cfg := SetupFor(policy, user, 1);
      var r := run[0];
      var (s', answer) := Flows.Serve(policy, s, r);
      var first, m' := [], m;
      if Misses(s, r, answer, user) {
        m' := WrongCodeFollows(policy, s, r, user, h, m);
        first := [M.Check(0, r.challenge), M.Fail(0)];
      } else if Clears(r, answer, user) {
        m' := SuccessFollows(policy, s, r, user, h, m);
        first := [M.Check(0, r.challenge), M.Succeed(0)];
      } else {
        first, m' := OtherFollows(policy, s, r, user, h, m);
      }
      var rest := RunFollows(policy, s', run[1..], user, Noted(s, r, answer, user, h), m');
      M.RunAppend(cfg, m, first, rest);
      actions := first + rest;
    }
  }

  /** No window of the lockout length holds more failures than the limit. */
  ghost predicate WithinLimit(limits: Limits, stretch: seq<int>) {
    forall i, j :: 0 <= i <= j < |stretch| && stretch[j] - stretch[i] <= Window(limits) ==> j - i + 1 <= limits.userMax
  }

  /**
   The limit of the user over serial runs of every flow, purges included: between successes no
   window of the lockout length records more than the configured number of wrong codes.
   */
  lemma SerialGuessBound(policy: Policy, s: Flows.State, run: seq<Flows.Request>, user: UserId)
    requires KeepsBuiltIns(policy) && 0 < policy.limits.userMax && Attempts(s.tokens, user) == []
    ensures var h := HistoryOf(policy, s, run, user, History([], []));
      && WithinLimit(policy.limits, h.since)
      && (forall k :: 0 <= k < |h.past| ==> WithinLimit(policy.limits, h.past[k]))
  {
    var cfg := SetupFor(policy, user, 1);
    var m := M.State(s.now, s.tokens, map[], [], []);
    var actions := RunFollows(policy, s, run, user, History([], []), m);
    M.GuessBound(cfg, m, actions);
    var last := M.After(cfg, m, actions);
    assert M.WithinBound(cfg, last.since) && forall k :: 0 <= k < |last.past| ==> M.WithinBound(cfg, last.past[k]);
  }
}
