/** What whole runs of requests guarantee about lifetimes, purges and hand-overs of sessions. */
module SessionRuns {
  import opened Basics
  import opened Store
  import opened Tokens
  import opened Rotation
  import opened Sessions

  // --------------------------------------------------------- absolute lifetime

  lemma StampKept(cfg: Settings, s: State, r: Request, x: Session)
    requires Inv(s) && x in s.stamps
    ensures var s' := Serve(cfg, s, r).0; x in s'.stamps && s'.stamps[x] == s.stamps[x]
  {
    if r.Refresh? && r.jti in s.minted {
      assert TokenKept(s, s.minted[r.jti]);
      if r.jti in s.rows {
        assert RowKept(s, r.jti, s.rows[r.jti]);
      }
    }
  }

  lemma {:induction false} StampNeverChanges(cfg: Settings, s: State, run: seq<Request>, x: Session)
    requires Inv(s) && x in s.stamps
    ensures x in After(cfg, s, run).stamps && After(cfg, s, run).stamps[x] == s.stamps[x]
    decreases |run|
  {
    if run != [] {
      InvStep(cfg, s, run[0]);
      StampKept(cfg, s, run[0], x);
      StampNeverChanges(cfg, Serve(cfg, s, run[0]).0, run[1..], x);
    }
  }

  /** Whatever is new carries the start of its session and expires within the lifetime counted from it. */
  ghost predicate OnlyBoundedAdded(cfg: Settings, s: State, s': State) {
    && (forall j :: j in s'.minted ==>
          (j in s.minted && s'.minted[j] == s.minted[j])
          || BoundedExpiry(cfg, s'.minted[j].token.sessionIat, s'.minted[j].token.exp))
    && |s.accesses| <= |s'.accesses| && s'.accesses[..|s.accesses|] == s.accesses
    && (forall k :: |s.accesses| <= k < |s'.accesses| ==>
          BoundedExpiry(cfg, s'.accesses[k].access.sessionIat, s'.accesses[k].access.exp))
  }

  predicate BoundedExpiry(cfg: Settings, stamp: Option<int>, exp: int) {
    stamp.Some? && Bounded(cfg, stamp.value, exp)
  }

  lemma BoundedStep(cfg: Settings, s: State, r: Request)
    ensures OnlyBoundedAdded(cfg, s, Serve(cfg, s, r).0)
  {
  }

  lemma BoundedTwice(cfg: Settings, s: State, mid: State, s': State)
    requires OnlyBoundedAdded(cfg, s, mid) && OnlyBoundedAdded(cfg, mid, s')
    ensures OnlyBoundedAdded(cfg, s, s')
  {
    forall k | 0 <= k < |mid.accesses| ensures s'.accesses[k] == mid.accesses[k] {
      assert s'.accesses[..|mid.accesses|][k] == mid.accesses[k];
    }
    assert s'.accesses[..|s.accesses|] == mid.accesses[..|s.accesses|];
  }

  lemma {:induction false} HandedOutBounded(cfg: Settings, s: State, run: seq<Request>)
    ensures OnlyBoundedAdded(cfg, s, After(cfg, s, run))
    decreases |run|
  {
    if run != [] {
      var mid := Serve(cfg, s, run[0]).0;
      BoundedStep(cfg, s, run[0]);
      HandedOutBounded(cfg, mid, run[1..]);
      BoundedTwice(cfg, s, mid, After(cfg, mid, run[1..]));
    }
  }

  /**
   Absolute lifetime, over rotation chains of any length: once a session is stamped, every
   refresh or access token handed out for it from then on carries the stamp and expires within
   the lifetime, and no rotation of the session succeeds from the deadline on, whatever the
   expiry of the token presented: it may have been handed out while there was no limit.
   */
  lemma AbsoluteLifetime(cfg: Settings, s: State, run: seq<Request>, x: Session)
    requires Inv(s) && x in s.stamps && cfg.sessionLifetime.Some?
    ensures var s' := After(cfg, s, run);
      var deadline := FromEpoch(s.stamps[x]) + cfg.sessionLifetime.value;
      && (forall j :: j in s'.minted && s'.minted[j].token.session == x
                      && (j !in s.minted || s'.minted[j].token.sessionIat.Some?) ==>
            s'.minted[j].token.sessionIat == Some(s.stamps[x]))
      && (forall j :: j in s'.minted && s'.minted[j].token.session == x
                      && (j in s.minted ==> BoundedExpiry(cfg, s.minted[j].token.sessionIat, s.minted[j].token.exp)) ==>
            FromEpoch(s'.minted[j].token.exp) <= deadline)
      && (forall k :: |s.accesses| <= k < |s'.accesses| && s'.accesses[k].access.session == x ==>
            s'.accesses[k].access.sessionIat == Some(s.stamps[x]) && FromEpoch(s'.accesses[k].access.exp) <= deadline)
      && (forall j :: j in s'.minted && s'.minted[j].token.session == x && deadline <= s'.now ==>
            Serve(cfg, s', Refresh(j)).1.Refused?)
  {
    InvRun(cfg, s, run);
    StampNeverChanges(cfg, s, run, x);
    HandedOutBounded(cfg, s, run);
    KeptInMint(cfg, s, run);
    var s' := After(cfg, s, run);
    forall j | j in s'.minted ensures TokenKept(s', s'.minted[j]) {
    }
    forall k | 0 <= k < |s'.accesses| ensures AccessKept(s', s'.accesses[k]) {
    }
    forall j | j in s'.rows ensures RowKept(s', j, s'.rows[j]) {
    }
  }

  lemma KeptInMint(cfg: Settings, s: State, run: seq<Request>)
    requires Inv(s)
    ensures forall j :: j in s.minted ==> j in After(cfg, s, run).minted && After(cfg, s, run).minted[j] == s.minted[j]
  {
    forall j | j in s.minted
      ensures j in After(cfg, s, run).minted && After(cfg, s, run).minted[j] == s.minted[j]
    {
      MintedForGood(cfg, s, run, j);
    }
  }

  /**
   The refresh endpoint reports an expired session exactly for a token that is itself still
   good, listed and enabled, and whose stamp lies a lifetime or more back; and then no row of
   the session is left.
   */
  lemma SessionOverExactly(cfg: Settings, s: State, j: Jti)
    requires Inv(s)
    ensures var (s', answer) := Serve(cfg, s, Refresh(j));
      && (answer == Answer.Refused(SessionOver) <==>
          && j in s.minted && !Over(s.minted[j].token.exp, s.now)
          && j in s.rows && s.rows[j].enabled
          && s.minted[j].token.sessionIat.Some? && cfg.sessionLifetime.Some?
          && FromEpoch(s.minted[j].token.sessionIat.value) + cfg.sessionLifetime.value <= s.now)
      && (answer == Answer.Refused(SessionOver) ==> !SessionListed(s'.rows, s.minted[j].token.session))
  {
  }

  /** Two weeks for a refresh token, half an hour for an access token, and this limit for a session. */
  function TwoWeeks(limit: Option<int>): Settings {
    Settings(1209600 * SECOND, 1800 * SECOND, limit, NotConfigured, true, true)
  }

  /** A session opened while there is no limit, some time later. */
  function OpenedWithoutLimit(user: UserId, elapsed: nat): State {
    var start := State(0, map[], {user}, {}, 0, map[], [], map[], map[]);
    Serve(TwoWeeks(None), Serve(TwoWeeks(None), start, Open(user, true)).0, Advance(elapsed)).0
  }

  lemma WithoutLimit(user: UserId, elapsed: nat)
    ensures var s := OpenedWithoutLimit(user, elapsed);
      && Inv(s) && s.now == elapsed && 0 in s.minted && s.active == {user}
      && s.minted[0].token == SessionToken(0, 1, user, Some(0), 1209600)
      && s.rows == map[0 := Row(user, 1, true, 0)] && s.nextId == 2
  {
    var start := State(0, map[], {user}, {}, 0, map[], [], map[], map[]);
    InvStep(TwoWeeks(None), start, Open(user, true));
    InvStep(TwoWeeks(None), Serve(TwoWeeks(None), start, Open(user, true)).0, Advance(elapsed));
  }

  /** The guard is needed: two hours later a limit of one hour ends a session whose token is good for two weeks. */
  lemma LimitEndsOldSession(user: UserId)
    ensures var s := OpenedWithoutLimit(user, 7200 * SECOND);
      var cfg := TwoWeeks(Some(3600 * SECOND));
      && Inv(s) && 0 in s.minted && !Over(s.minted[0].token.exp, s.now)
      && Serve(cfg, s, Refresh(0)).1 == Answer.Refused(SessionOver)
  {
    WithoutLimit(user, 7200 * SECOND);
    SessionOverExactly(TwoWeeks(Some(3600 * SECOND)), OpenedWithoutLimit(user, 7200 * SECOND), 0);
  }

  /** An access token is handed out with the refresh token it belongs to, and lives no longer than configured. */
  lemma AccessIsShort(cfg: Settings, s: State, r: Request)
    requires Serve(cfg, s, r).1.Signed?
    ensures var answer := Serve(cfg, s, r).1;
      && answer.access.session == answer.refresh.session && answer.access.user == answer.refresh.user
      && answer.access.sessionIat == answer.refresh.sessionIat
      && FromEpoch(answer.access.exp) <= s.now + cfg.accessLifetime
      && FromEpoch(answer.refresh.exp) <= s.now + cfg.refreshLifetime
      && (cfg.sessionLifetime.None? ==>
            && answer.access.exp == Epoch(s.now + cfg.accessLifetime)
            && answer.refresh.exp == Epoch(s.now + cfg.refreshLifetime))
  {
  }

  /** A token from before the claim existed starts the clock of its session at its first rotation. */
  lemma LegacyIsAnchored(cfg: Settings, s: State, j: Jti)
    requires Inv(s) && j in s.minted && s.minted[j].token.sessionIat.None?
    requires Serve(cfg, s, Refresh(j)).1.Signed?
    ensures s.minted[j].token.session !in s.stamps
    ensures Serve(cfg, s, Refresh(j)).0.stamps[s.minted[j].token.session] == Epoch(s.now)
  {
    assert RowKept(s, j, s.rows[j]);
  }

  /**
   A token capped to its session is over by the time the session is: an expired session is
   only ever met by a token minted while no lifetime, or a longer one, was configured.
   */
  lemma CappedDiesFirst(cfg: Settings, stamp: Option<int>, exp: int, now: int)
    requires Overdue(cfg, stamp, now)
    ensures Over(Capped(cfg, stamp, exp), now)
  {
  }

  /** The invariant admits an installation that starts out empty, and one with tokens from before lifetimes. */
  lemma WhereRunsStart(cfg: Settings, now: int, active: set<UserId>, user: UserId)
    ensures var empty := State(now, map[], active, {}, 0, map[], [], map[], map[]); Inv(empty) && Retained(cfg, empty)
    ensures Inv(LegacyStart(cfg, now, active, user)) && Retained(cfg, LegacyStart(cfg, now, active, user))
  {
  }

  /** One session of `user`, opened just now by a version that wrote no session start. */
  function LegacyStart(cfg: Settings, now: int, active: set<UserId>, user: UserId): State {
    State(now, map[0 := Row(user, 1, true, now)], active, {}, 2,
          map[0 := Minted(SessionToken(0, 1, user, None, Epoch(now + cfg.refreshLifetime)), now)],
          [MintedAccess(SessionAccess(1, user, None, Epoch(now + cfg.accessLifetime)), now)],
          map[1 := Line(user, 0)], map[])
  }

  // ------------------------------------------------- expiry along a rotation chain

  /** The second the session of the token ends in, once a rotation now has stamped it. */
  function LastSecond(token: SessionToken, now: int, lifetime: int): int {
    Epoch(FromEpoch(Anchor(token.sessionIat, now).value) + lifetime)
  }

  /**
   Whatever the settings a token was handed out under, rotation brings its expiry closer exactly
   when it was to live longer than a token handed out now, or a limit is set and the lifetime of
   the session, counted from its stamp or, without one, from now, ends before the token would
   have. Where the lifetime of tokens was not shortened since, only the limit can do it.
   */
  lemma ExpiryMovesForward(cfg: Settings, token: SessionToken, at: int, now: int, jti: Jti)
    requires at <= now
    ensures Successor(cfg, token, jti, now).exp < token.exp
      <==> || Epoch(now + cfg.refreshLifetime) < token.exp
           || (cfg.sessionLifetime.Some? && LastSecond(token, now, cfg.sessionLifetime.value) < token.exp)
    ensures token.exp <= Epoch(at + cfg.refreshLifetime) ==>
      (Successor(cfg, token, jti, now).exp < token.exp
       <==> cfg.sessionLifetime.Some? && LastSecond(token, now, cfg.sessionLifetime.value) < token.exp)
  {
    EpochMonotone(at + cfg.refreshLifetime, now + cfg.refreshLifetime);
  }

  /** A token capped to the present limit, stamped or not, is only ever brought closer if it has no stamp. */
  lemma CappedMovesForward(cfg: Settings, token: SessionToken, at: int, now: int, jti: Jti)
    requires at <= now && token.exp == Capped(cfg, token.sessionIat, Epoch(at + cfg.refreshLifetime))
    ensures Successor(cfg, token, jti, now).exp < token.exp ==> token.sessionIat.None?
  {
    EpochMonotone(at + cfg.refreshLifetime, now + cfg.refreshLifetime);
  }

  /** Without a stamp: two weeks to live, and a lifetime of one hour imposed on the second day. */
  lemma LegacyExpiryComesCloser(user: UserId)
    ensures var cfg := TwoWeeks(Some(3600 * SECOND));
      var s := Serve(cfg, LegacyStart(cfg, 0, {user}, user), Advance(86400 * SECOND)).0;
      var answer := Serve(cfg, s, Refresh(0)).1;
      Inv(s) && answer.Signed? && answer.refresh.exp == 90000 < s.minted[0].token.exp == 1209600
  {
    var cfg := TwoWeeks(Some(3600 * SECOND));
    var start := LegacyStart(cfg, 0, {user}, user);
    WhereRunsStart(cfg, 0, {user}, user);
    InvStep(cfg, start, Advance(86400 * SECOND));
  }

  /** With a stamp: two weeks to live, and a lifetime of ten days set on the third day. */
  lemma StampedExpiryComesCloser(user: UserId)
    ensures var s := OpenedWithoutLimit(user, 172800 * SECOND);
      var cfg := TwoWeeks(Some(864000 * SECOND));
      var answer := Serve(cfg, s, Refresh(0)).1;
      Inv(s) && answer.Signed? && answer.refresh.exp == 864000 < s.minted[0].token.exp == 1209600
  {
    WithoutLimit(user, 172800 * SECOND);
  }

  // ----------------------------------------------------------- purging sessions

  /** No outstanding token lives longer than the retention, counted from when it was handed out. */
  ghost predicate Retained(cfg: Settings, s: State) {
    && (forall j :: j in s.minted ==> FromEpoch(s.minted[j].token.exp) <= s.minted[j].at + SessionRetention(cfg))
    && (forall k :: 0 <= k < |s.accesses| ==>
          FromEpoch(s.accesses[k].access.exp) <= s.accesses[k].at + SessionRetention(cfg))
  }

  /** Whatever is handed out is retained; an installation that shortens no lifetime of tokens always is. */
  lemma RetainedStep(cfg: Settings, s: State, r: Request)
    requires Retained(cfg, s)
    ensures Retained(cfg, Serve(cfg, s, r).0)
  {
    var s' := Serve(cfg, s, r).0;
    forall k | 0 <= k < |s'.accesses|
      ensures FromEpoch(s'.accesses[k].access.exp) <= s'.accesses[k].at + SessionRetention(cfg)
    {
      assert k < |s.accesses| ==> s'.accesses[k] == s.accesses[k];
    }
  }

  lemma {:induction false} RetainedRun(cfg: Settings, s: State, run: seq<Request>)
    requires Retained(cfg, s)
    ensures Retained(cfg, After(cfg, s, run))
    decreases |run|
  {
    if run != [] {
      RetainedStep(cfg, s, run[0]);
      RetainedRun(cfg, Serve(cfg, s, run[0]).0, run[1..]);
    }
  }

  /** The same history, with some rows past the retention missing from the second. */
  ghost predicate Twins(cfg: Settings, a: State, b: State) {
    && b == a.(rows := b.rows)
    && (forall j :: j in b.rows ==> j in a.rows && b.rows[j] == a.rows[j])
    && (forall j :: j in a.rows && j !in b.rows ==> PastRetention(cfg, a.now, a.rows[j]))
  }

  /** When the row of a session is past the retention, every token of that session is over. */
  lemma OldRowOldTokens(cfg: Settings, s: State, j: Jti)
    requires Inv(s) && Retained(cfg, s) && j in s.rows && PastRetention(cfg, s.now, s.rows[j])
    ensures forall i :: i in s.minted && s.minted[i].token.session == s.rows[j].session ==>
      Over(s.minted[i].token.exp, s.now)
    ensures forall k :: 0 <= k < |s.accesses| && s.accesses[k].access.session == s.rows[j].session ==>
      Over(s.accesses[k].access.exp, s.now)
  {
    forall i | i in s.minted && s.minted[i].token.session == s.rows[j].session
      ensures Over(s.minted[i].token.exp, s.now)
    {
      assert TokenKept(s, s.minted[i]);
    }
    forall k | 0 <= k < |s.accesses| && s.accesses[k].access.session == s.rows[j].session
      ensures Over(s.accesses[k].access.exp, s.now)
    {
      assert AccessKept(s, s.accesses[k]);
    }
  }

  /** The rows of the session of a token that is still good have not been purged. */
  lemma GoodTokenKeepsRows(cfg: Settings, a: State, b: State, session: Session)
    requires Inv(a) && Retained(cfg, a) && Twins(cfg, a, b)
    requires (exists i :: i in a.minted && a.minted[i].token.session == session && !Over(a.minted[i].token.exp, a.now))
      || (exists k :: 0 <= k < |a.accesses| && a.accesses[k].access.session == session
                      && !Over(a.accesses[k].access.exp, a.now))
    ensures forall j :: j in a.rows && a.rows[j].session == session ==> j in b.rows
  {
    forall j | j in a.rows && a.rows[j].session == session ensures j in b.rows {
      if j !in b.rows {
        OldRowOldTokens(cfg, a, j);
      }
    }
  }

  lemma TwinsDelete(cfg: Settings, a: State, b: State, scope: Scope)
    requires Twins(cfg, a, b)
    ensures Twins(cfg, a.(rows := Without(a.rows, scope)), b.(rows := Without(b.rows, scope)))
  {
  }

  lemma TwinsRefresh(cfg: Settings, a: State, b: State, j: Jti)
    requires Inv(a) && Retained(cfg, a) && Twins(cfg, a, b) && j in a.minted && !Over(a.minted[j].token.exp, a.now)
    ensures var token := a.minted[j].token;
      && RefreshSession(cfg, a, token).1 == RefreshSession(cfg, b, token).1
      && Twins(cfg, RefreshSession(cfg, a, token).0, RefreshSession(cfg, b, token).0)
  {
    var token := a.minted[j].token;
    assert TokenKept(a, a.minted[j]);
    GoodTokenKeepsRows(cfg, a, b, token.session);
    if j in a.rows {
      assert RowKept(a, j, a.rows[j]);
    }
    match VerdictAt(cfg, a.rows, a.active, token, a.now)
    case Refused(reason) =>
      if j in a.rows {
        assert b.rows[j] == a.rows[j];
      }
      match Penalty(reason, token.session, if j in a.rows then a.rows[j].user else token.user) {
        case Some(scope) => TwinsDelete(cfg, a, b, scope);
        case None =>
      }
    case Accepted =>
      assert b.rows[j] == a.rows[j];
  }

  lemma TwinsLogout(cfg: Settings, a: State, b: State, j: Jti, caller: UserId)
    requires Inv(a) && Retained(cfg, a) && Twins(cfg, a, b) && j in a.minted && !Over(a.minted[j].token.exp, a.now)
    ensures var token := a.minted[j].token;
      && CloseSession(a, token, caller).1 == CloseSession(b, token, caller).1
      && Twins(cfg, CloseSession(a, token, caller).0, CloseSession(b, token, caller).0)
  {
    var token := a.minted[j].token;
    var scope := OfTokenOrSession(token.jti, token.session);
    GoodTokenKeepsRows(cfg, a, b, token.session);
    forall i | i in Selected(a.rows, scope) ensures i in Selected(b.rows, scope) {
      assert RowKept(a, i, a.rows[i]);
    }
    forall i | i in Selected(b.rows, scope) ensures i in Selected(a.rows, scope) {
    }
    TwinsDelete(cfg, a, b, scope);
  }

  lemma TwinsAuthenticate(cfg: Settings, a: State, b: State, k: nat)
    requires Inv(a) && Retained(cfg, a) && Twins(cfg, a, b)
    ensures Serve(cfg, a, Authenticate(k)).1 == Serve(cfg, b, Authenticate(k)).1
  {
    if k < |a.accesses| && !Over(a.accesses[k].access.exp, a.now) {
      GoodTokenKeepsRows(cfg, a, b, a.accesses[k].access.session);
      assert SessionListed(a.rows, a.accesses[k].access.session)
        <==> SessionListed(b.rows, a.accesses[k].access.session);
    }
  }

  lemma TwinsPresented(cfg: Settings, a: State, b: State, r: Request, j: Jti)
    requires Inv(a) && Retained(cfg, a) && Twins(cfg, a, b) && ((r.Refresh? && r.jti == j) || (r.Logout? && r.jti == j))
    ensures Serve(cfg, a, r).1 == Serve(cfg, b, r).1
    ensures Twins(cfg, Serve(cfg, a, r).0, Serve(cfg, b, r).0)
  {
    if j in a.minted && !Over(a.minted[j].token.exp, a.now) {
      if r.Refresh? {
        TwinsRefresh(cfg, a, b, j);
      } else {
        TwinsLogout(cfg, a, b, j, r.caller);
      }
    }
  }

  lemma TwinsClose(cfg: Settings, a: State, b: State, r: Request)
    requires Inv(a) && Retained(cfg, a) && Twins(cfg, a, b) && (r.LogoutAll? || r.ChangeCredentials?)
    ensures Serve(cfg, a, r).1 == Serve(cfg, b, r).1
    ensures Twins(cfg, Serve(cfg, a, r).0, Serve(cfg, b, r).0)
  {
    TwinsDelete(cfg, a, b, OfUser(r.user));
  }

  /** The same request gets the same answer from both, and leaves them twins. */
  lemma TwinsStep(cfg: Settings, a: State, b: State, r: Request)
    requires Inv(a) && Retained(cfg, a) && Twins(cfg, a, b) && !r.PurgeSessions?
    ensures Serve(cfg, a, r).1 == Serve(cfg, b, r).1
    ensures Twins(cfg, Serve(cfg, a, r).0, Serve(cfg, b, r).0)
  {
    match r
    case Refresh(j) => TwinsPresented(cfg, a, b, r, j);
    case Logout(j, _) => TwinsPresented(cfg, a, b, r, j);
    case LogoutAll(_) => TwinsClose(cfg, a, b, r);
    case ChangeCredentials(_) => TwinsClose(cfg, a, b, r);
    case Authenticate(k) => TwinsAuthenticate(cfg, a, b, k);
    case _ =>
  }

  /** The answers given along a run, those of the purge command left out. */
  function Transcript(cfg: Settings, s: State, run: seq<Request>): seq<Answer>
    decreases |run|
  {
    if run == [] then []
    else
      var (s', answer) := Serve(cfg, s, run[0]);
      (if run[0].PurgeSessions? then [] else [answer]) + Transcript(cfg, s', run[1..])
  }

  function WithoutPurges(run: seq<Request>): seq<Request> {
    if run == [] then []
    else (if run[0].PurgeSessions? then [] else [run[0]]) + WithoutPurges(run[1..])
  }

  lemma {:induction false} TwinsRun(cfg: Settings, a: State, b: State, run: seq<Request>)
    requires Inv(a) && Retained(cfg, a) && Twins(cfg, a, b)
    ensures Transcript(cfg, b, run) == Transcript(cfg, a, WithoutPurges(run))
    decreases |run|
  {
    if run != [] {
      var r := run[0];
      if r.PurgeSessions? {
        var purged := Serve(cfg, b, r).0;
        assert [] + WithoutPurges(run[1..]) == WithoutPurges(run[1..]);
        assert [] + Transcript(cfg, purged, run[1..]) == Transcript(cfg, purged, run[1..]);
        TwinsRun(cfg, a, purged, run[1..]);
      } else {
        TwinsStep(cfg, a, b, r);
        InvStep(cfg, a, r);
        RetainedStep(cfg, a, r);
        assert WithoutPurges(run) == [r] + WithoutPurges(run[1..]);
        assert WithoutPurges(run)[1..] == WithoutPurges(run[1..]);
        TwinsRun(cfg, Serve(cfg, a, r).0, Serve(cfg, b, r).0, run[1..]);
      }
    }
  }

  /**
   Purging sessions is invisible: whenever and however often the command runs, every refresh,
   logout and authentication is answered as if it never had. The tokens outstanding at the
   start must not be from when their lifetimes were longer than the retention is now.
   */
  lemma PurgingSessionsIsInvisible(cfg: Settings, s: State, run: seq<Request>)
    requires Inv(s) && Retained(cfg, s)
    ensures Transcript(cfg, s, run) == Transcript(cfg, s, WithoutPurges(run))
  {
    TwinsRun(cfg, s, s, run);
  }

  /**
   Without that, a purge is seen by a refresh exactly when the token is still good, its row is
   past the retention, and the row would have meant another answer than a replay does.
   */
  lemma SessionPurgeSeenExactly(cfg: Settings, s: State, j: Jti)
    requires Inv(s)
    ensures Serve(cfg, Serve(cfg, s, PurgeSessions).0, Refresh(j)).1 != Serve(cfg, s, Refresh(j)).1
      <==> && j in s.minted && !Over(s.minted[j].token.exp, s.now)
           && j in s.rows && PastRetention(cfg, s.now, s.rows[j])
           && if s.rows[j].enabled
              then Overdue(cfg, s.minted[j].token.sessionIat, s.now) || s.rows[j].user in s.active
              else s.minted[j].token.user !in s.verified
  {
    if j in s.minted && j in s.rows {
      assert TokenKept(s, s.minted[j]) && RowKept(s, j, s.rows[j]);
      var purged := Serve(cfg, s, PurgeSessions).0;
      assert j in purged.rows <==> !PastRetention(cfg, s.now, s.rows[j]);
    }
  }

  /** Such a token exists: good for two weeks, in an installation that has cut the lifetime to a day two days later. */
  lemma ShorterLifetimeSeesPurge(user: UserId)
    ensures var s := OpenedWithoutLimit(user, 172800 * SECOND);
      var cfg := Settings(86400 * SECOND, 1800 * SECOND, None, NotConfigured, true, true);
      && Inv(s)
      && Serve(cfg, s, Refresh(0)).1.Signed?
      && Serve(cfg, Serve(cfg, s, PurgeSessions).0, Refresh(0)).1 == Answer.Refused(InvalidToken)
  {
    WithoutLimit(user, 172800 * SECOND);
  }

  // ----------------------------------- the one request that can see a purge

  /**
   Confirming an address and purging commute exactly when the first row of the user is not past
   the retention, or when nothing is left for the purge to expose: otherwise the confirmation
   is spent on a dead row, and after a purge it enables the live one.
   */
  lemma ConfirmationSeesPurge(cfg: Settings, rows: Whitelist, user: UserId, now: int, first: Option<Jti>,
          left: Option<Jti>)
    requires IsFirst(rows, user, first) && IsFirst(Purged(cfg, now, rows), user, left)
    ensures Purged(cfg, now, EnableFirst(rows, first)) == EnableFirst(Purged(cfg, now, rows), left)
      <==> (first.None? || !PastRetention(cfg, now, rows[first.value]) || left.None? || rows[left.value].enabled)
  {
    var purged := Purged(cfg, now, rows);
    if first.Some? {
      var f := first.value;
      if PastRetention(cfg, now, rows[f]) {
        assert Purged(cfg, now, EnableFirst(rows, first)) == purged;
        if left.Some? {
          assert EnableFirst(purged, left)[left.value].enabled;
          assert rows[left.value].enabled ==> EnableFirst(purged, left) == purged;
        }
      } else {
        assert f in purged && left == first;
      }
    }
  }

  /**
   Such a user exists: a session abandoned before the retention and a new one waiting for its
   address to be confirmed. The confirmation alone leaves the new session disabled; after a
   purge it enables it.
   */
  lemma ConfirmationSeesPurgeExample(cfg: Settings, user: UserId)
    requires 0 <= SessionRetention(cfg)
    ensures var dead, young := Row(user, 1, true, -SessionRetention(cfg) - 1), Row(user, 3, false, 0);
      var rows := map[0 := dead, 2 := young];
      && IsFirst(rows, user, Some(0)) && IsFirst(Purged(cfg, 0, rows), user, Some(2))
      && Purged(cfg, 0, EnableFirst(rows, Some(0))) == map[2 := young]
      && EnableFirst(Purged(cfg, 0, rows), Some(2)) == map[2 := young.(enabled := true)]
      && Purged(cfg, 0, EnableFirst(rows, Some(0))) != EnableFirst(Purged(cfg, 0, rows), Some(2))
  {
    var dead, young := Row(user, 1, true, -SessionRetention(cfg) - 1), Row(user, 3, false, 0);
    var rows := map[0 := dead, 2 := young];
    assert Purged(cfg, 0, rows) == map[2 := young];
    ConfirmationSeesPurge(cfg, rows, user, 0, Some(0), Some(2));
  }

  // -------------------------------------------------------------- the hand-over

  predicate Ended(s: State, x: Session) {
    x in s.lines && !SessionListed(s.rows, x)
  }

  lemma EndedStep(cfg: Settings, s: State, r: Request, x: Session)
    requires Inv(s) && Ended(s, x)
    ensures Ended(Serve(cfg, s, r).0, x)
  {
    if r.Refresh? && r.jti in s.minted && r.jti in s.rows {
      assert RowKept(s, r.jti, s.rows[r.jti]);
    }
  }

  lemma {:induction false} EndedForGood(cfg: Settings, s: State, run: seq<Request>, x: Session)
    requires Inv(s) && Ended(s, x)
    ensures Inv(After(cfg, s, run)) && Ended(After(cfg, s, run), x)
    decreases |run|
  {
    if run != [] {
      EndedStep(cfg, s, run[0], x);
      InvStep(cfg, s, run[0]);
      EndedForGood(cfg, Serve(cfg, s, run[0]).0, run[1..], x);
    }
  }

  lemma {:induction false} MintedForGood(cfg: Settings, s: State, run: seq<Request>, j: Jti)
    requires Inv(s) && j in s.minted
    ensures j in After(cfg, s, run).minted && After(cfg, s, run).minted[j] == s.minted[j]
    decreases |run|
  {
    if run != [] {
      InvStep(cfg, s, run[0]);
      MintedForGood(cfg, Serve(cfg, s, run[0]).0, run[1..], j);
    }
  }

  /**
   The hand-over is complete for sessions: after the credentials of a user change, no refresh
   token of that user handed out before is ever accepted again, and with the session check on
   no access token of its session is either.
   */
  lemma HandoverEndsSessions(cfg: Settings, s: State, user: UserId, run: seq<Request>, j: Jti, k: nat)
    requires Inv(s) && cfg.logoutOnPasswordChange
    requires j in s.minted && s.minted[j].token.user == user
    ensures var s' := After(cfg, Serve(cfg, s, ChangeCredentials(user)).0, run);
      && j in s'.minted && s'.minted[j] == s.minted[j] && Serve(cfg, s', Refresh(j)).1.Refused?
      && (cfg.sessionCheck && k < |s'.accesses| && s'.accesses[k].access.session == s.minted[j].token.session
          ==> Serve(cfg, s', Authenticate(k)).1.Refused?)
  {
    var changed := Serve(cfg, s, ChangeCredentials(user)).0;
    var x := s.minted[j].token.session;
    InvStep(cfg, s, ChangeCredentials(user));
    assert TokenKept(s, s.minted[j]);
    forall i | i in s.rows && s.rows[i].session == x ensures s.rows[i].user == user {
      assert RowKept(s, i, s.rows[i]);
    }
    EndedForGood(cfg, changed, run, x);
    MintedForGood(cfg, changed, run, j);
    var s' := After(cfg, changed, run);
    forall i | i in s'.rows ensures RowKept(s', i, s'.rows[i]) {
    }
  }
}
