/**
 Sessions over whole runs of requests and a moving clock: the absolute lifetime of a
 session, what a purge of old rows changes, and what a change of credentials ends.
 */
module Sessions {
  import opened Basics
  import opened Store
  import opened Tokens
  import opened Rotation

  /** A token that was handed out, and when. */
  datatype Minted = Minted(token: SessionToken, at: int)

  datatype MintedAccess = MintedAccess(access: SessionAccess, at: int)

  /**
   `minted`, `accesses`, `lines` and `stamps` are history: every token handed out, the user and
   the last refresh token of each session, and the start written in its tokens.
   */
  datatype State = State(
    now: int,
    rows: Whitelist,
    active: set<UserId>,
    verified: set<UserId>,
    nextId: nat,
    minted: map<Jti, Minted>,
    accesses: seq<MintedAccess>,
    lines: map<Session, Line>,
    stamps: map<Session, int>)

  datatype Request =
    | Open(user: UserId, enabled: bool)
    | Refresh(jti: Jti)
    | Logout(jti: Jti, caller: UserId)
    | LogoutAll(user: UserId)
    | ChangeCredentials(user: UserId)
    | Authenticate(access: nat)
    | SetActive(user: UserId, active: bool)
    | Confirm(user: UserId)
    | Advance(delta: nat)
    | PurgeSessions

  datatype Answer =
    | Refused(error: Error)
    | Signed(refresh: SessionToken, access: SessionAccess)
    | Welcome(user: UserId)
    | Done

  /** A JWT is over from the second of its `exp` claim on. */
  predicate Over(exp: int, now: int) {
    FromEpoch(exp) <= now
  }

  /** The age past which a whitelist row is dropped by the purge. */
  function SessionRetention(cfg: Settings): int {
    Max(cfg.refreshLifetime, cfg.accessLifetime)
  }

  predicate PastRetention(cfg: Settings, now: int, row: Row) {
    row.created < now - SessionRetention(cfg)
  }

  function Purged(cfg: Settings, now: int, rows: Whitelist): Whitelist {
    map j | j in rows && !PastRetention(cfg, now, rows[j]) :: rows[j]
  }

  /** The purge command on the database; counts without deleting on a dry run. */
  method PurgeSessionRows(db: Database, cfg: Settings, dryRun: bool) returns (removed: nat)
    modifies db`whitelist
    ensures removed == |old(db.whitelist)| - |Purged(cfg, db.now, old(db.whitelist))|
    ensures db.whitelist == if dryRun then old(db.whitelist) else Purged(cfg, db.now, old(db.whitelist))
    ensures !dryRun ==> forall j :: j in old(db.whitelist) ==>
      (j in db.whitelist <==> db.now <= old(db.whitelist)[j].created + Max(cfg.refreshLifetime, cfg.accessLifetime))
  {
    var past := set j | j in db.whitelist && PastRetention(cfg, db.now, db.whitelist[j]);
    assert Purged(cfg, db.now, db.whitelist) == db.whitelist - past;
    assert (db.whitelist - past).Keys == db.whitelist.Keys - past;
    assert |db.whitelist.Keys - past| == |db.whitelist.Keys| - |past|;
    if !dryRun {
      db.whitelist := db.whitelist - past;
    }
    return |past|;
  }

  function OpenSession(cfg: Settings, s: State, user: UserId, enabled: bool): (State, Answer) {
    var session := s.nextId + 1;
    var token := FirstToken(cfg, s.nextId, session, user, s.now);
    var access := AccessOf(cfg, token, token.sessionIat, s.now);
    (s.(nextId := s.nextId + 2,
        rows := s.rows[s.nextId := Row(user, session, enabled, s.now)],
        minted := s.minted[s.nextId := Minted(token, s.now)],
        accesses := s.accesses + [MintedAccess(access, s.now)],
        lines := s.lines[session := Line(user, s.nextId)],
        stamps := s.stamps[session := Epoch(s.now)]),
     Signed(token, access))
  }

  function RefreshSession(cfg: Settings, s: State, token: SessionToken): (State, Answer) {
    match VerdictAt(cfg, s.rows, s.active, token, s.now)
    case Refused(reason) =>
      (s.(rows := Punished(s.rows, token, reason)), Answer.Refused(ErrorOf(reason, token.user in s.verified)))
    case Accepted =>
      var successor := Successor(cfg, token, s.nextId, s.now);
      var access := AccessOf(cfg, token, successor.sessionIat, s.now);
      (s.(nextId := s.nextId + 1,
          rows := Exchange(s.rows, token.jti, s.nextId, Row(token.user, token.session, true, s.now)),
          minted := s.minted[s.nextId := Minted(successor, s.now)],
          accesses := s.accesses + [MintedAccess(access, s.now)],
          lines := s.lines[token.session := Line(token.user, s.nextId)],
          stamps := s.stamps[token.session := successor.sessionIat.value]),
       Signed(successor, access))
  }

  function CloseSession(s: State, token: SessionToken, caller: UserId): (State, Answer) {
    var scope := OfTokenOrSession(token.jti, token.session);
    if caller != token.user || Selected(s.rows, scope) == {} then (s, Answer.Refused(InvalidToken))
    else (s.(rows := Without(s.rows, scope)), Done)
  }

  /** One request, with nothing beside it. Tokens that were never handed out, or are over, are refused first. */
  function Serve(cfg: Settings, s: State, r: Request): (State, Answer) {
    match r
    case Open(user, enabled) => OpenSession(cfg, s, user, enabled)
    case Refresh(jti) =>
      if jti !in s.minted || Over(s.minted[jti].token.exp, s.now) then (s, Answer.Refused(InvalidToken))
      else RefreshSession(cfg, s, s.minted[jti].token)
    case Logout(jti, caller) =>
      if jti !in s.minted || Over(s.minted[jti].token.exp, s.now) then (s, Answer.Refused(InvalidToken))
      else CloseSession(s, s.minted[jti].token, caller)
    case LogoutAll(user) => (s.(rows := Without(s.rows, OfUser(user))), Done)
    case ChangeCredentials(user) =>
      (if cfg.logoutOnPasswordChange then s.(rows := Without(s.rows, OfUser(user))) else s, Done)
    case Authenticate(k) =>
      if k >= |s.accesses| || Over(s.accesses[k].access.exp, s.now)
         || !SessionValid(cfg, s.rows, Some(s.accesses[k].access.session))
      then (s, Answer.Refused(InvalidToken)) else (s, Welcome(s.accesses[k].access.user))
    case SetActive(user, active) => (s.(active := if active then s.active + {user} else s.active - {user}), Done)
    case Confirm(user) => (s.(verified := s.verified + {user}), Done)
    case Advance(delta) => (s.(now := s.now + delta), Done)
    case PurgeSessions => (s.(rows := Purged(cfg, s.now, s.rows)), Done)
  }

  function After(cfg: Settings, s: State, run: seq<Request>): State
    decreases |run|
  {
    if run == [] then s else After(cfg, Serve(cfg, s, run[0]).0, run[1..])
  }

  // --------------------------------------------------------------- the invariant

  predicate TokenKept(s: State, m: Minted) {
    && m.at <= s.now
    && m.token.session in s.lines && s.lines[m.token.session].user == m.token.user && m.token.session < s.nextId
    && (m.token.sessionIat.Some? ==>
          m.token.session in s.stamps && s.stamps[m.token.session] == m.token.sessionIat.value)
  }

  predicate AccessKept(s: State, m: MintedAccess) {
    && m.at <= s.now
    && m.access.session in s.lines
    && (m.access.sessionIat.Some? ==>
          m.access.session in s.stamps && s.stamps[m.access.session] == m.access.sessionIat.value)
  }

  /** The expiry is within the lifetime of a session that started at `stamp`. */
  predicate Bounded(cfg: Settings, stamp: int, exp: int) {
    cfg.sessionLifetime.Some? ==> FromEpoch(exp) <= FromEpoch(stamp) + cfg.sessionLifetime.value
  }

  /** A row stands for the last token of its session, which carries the stamp if there is one. */
  predicate RowKept(s: State, j: Jti, row: Row) {
    && j in s.minted && s.minted[j].token.jti == j
    && s.minted[j].token.session == row.session && s.minted[j].token.user == row.user
    && row.session in s.lines && s.lines[row.session] == Line(row.user, j)
    && row.created <= s.now
    && (row.session in s.stamps ==> s.minted[j].token.sessionIat.Some?)
  }

  /**
   Everything handed out is dated and stamped alike within a session. Nothing is said of how
   long it lives: a token may have been handed out under other settings, no limit included.
   */
  ghost predicate TokensKept(s: State) {
    && (forall j :: j in s.minted ==> j < s.nextId && s.minted[j].token.jti == j && TokenKept(s, s.minted[j]))
    && (forall k :: 0 <= k < |s.accesses| ==> AccessKept(s, s.accesses[k]))
    && (forall x :: x in s.lines ==> x < s.nextId)
    && (forall x :: x in s.stamps ==> x in s.lines)
  }

  ghost predicate RowsKept(s: State) {
    forall j :: j in s.rows ==> RowKept(s, j, s.rows[j])
  }

  ghost predicate Inv(s: State) {
    TokensKept(s) && RowsKept(s) && NothingAfterRow(s)
  }

  /** Nothing of a session was handed out after its row was written. */
  ghost predicate NothingAfterRow(s: State) {
    && (forall i, j :: i in s.minted && j in s.rows && s.minted[i].token.session == s.rows[j].session
                       ==> s.minted[i].at <= s.rows[j].created)
    && (forall k, j :: 0 <= k < |s.accesses| && j in s.rows && s.accesses[k].access.session == s.rows[j].session
                       ==> s.accesses[k].at <= s.rows[j].created)
  }

  /** A pair of tokens of one session is handed out now, and its row replaces the one it had. */
  predicate HandsOut(s: State, s': State, m: Minted, a: MintedAccess, stamp: int) {
    var session := m.token.session;
    && (session in s.lines ==> s.lines[session].user == m.token.user)
    && m.token.jti == s.nextId < s'.nextId && session < s'.nextId && m.at == a.at == s.now == s'.now
    && a.access.session == session && m.token.sessionIat == a.access.sessionIat == Some(stamp)
    && s'.minted == s.minted[s.nextId := m] && s'.accesses == s.accesses + [a]
    && s'.lines == s.lines[session := Line(m.token.user, s.nextId)] && s'.stamps == s.stamps[session := stamp]
  }

  lemma TokensGrow(s: State, s': State, m: Minted, a: MintedAccess, stamp: int)
    requires TokensKept(s) && HandsOut(s, s', m, a, stamp)
    requires m.token.session in s.stamps ==> s.stamps[m.token.session] == stamp
    ensures TokensKept(s')
  {
    forall k | 0 <= k < |s'.accesses| ensures AccessKept(s', s'.accesses[k]) {
      if k < |s.accesses| {
        assert s'.accesses[k] == s.accesses[k] && AccessKept(s, s.accesses[k]);
      }
    }
    forall j | j in s'.minted ensures TokenKept(s', s'.minted[j]) {
      if j != s.nextId {
        assert TokenKept(s, s.minted[j]);
      }
    }
  }

  /** The rows afterwards: the new one, and old ones of other sessions. */
  predicate NewRow(s: State, s': State, token: SessionToken) {
    && s.nextId in s'.rows && s'.rows[s.nextId].session == token.session
    && s'.rows[s.nextId].user == token.user && s'.rows[s.nextId].created == s.now
    && (forall j :: j in s'.rows && j != s.nextId ==>
          j in s.rows && s'.rows[j] == s.rows[j] && s.rows[j].session != token.session)
  }

  lemma RowsGrow(s: State, s': State, m: Minted, a: MintedAccess, stamp: int)
    requires RowsKept(s) && s.nextId !in s.minted && HandsOut(s, s', m, a, stamp) && NewRow(s, s', m.token)
    ensures RowsKept(s')
  {
    forall j | j in s'.rows ensures RowKept(s', j, s'.rows[j]) {
      if j != s.nextId {
        assert RowKept(s, j, s.rows[j]);
      }
    }
  }

  lemma NothingAfterGrow(s: State, s': State, m: Minted, a: MintedAccess, stamp: int)
    requires TokensKept(s) && NothingAfterRow(s)
    requires HandsOut(s, s', m, a, stamp) && NewRow(s, s', m.token)
    ensures NothingAfterRow(s')
  {
    forall i, j | i in s'.minted && j in s'.rows && s'.minted[i].token.session == s'.rows[j].session
      ensures s'.minted[i].at <= s'.rows[j].created
    {
      if i != s.nextId {
        assert TokenKept(s, s.minted[i]);
      }
    }
    forall k, j | 0 <= k < |s'.accesses| && j in s'.rows && s'.accesses[k].access.session == s'.rows[j].session
      ensures s'.accesses[k].at <= s'.rows[j].created
    {
      if k < |s.accesses| {
        assert s'.accesses[k] == s.accesses[k] && AccessKept(s, s.accesses[k]);
      }
    }
  }

  lemma InvGrow(s: State, s': State, m: Minted, a: MintedAccess, stamp: int)
    requires Inv(s) && HandsOut(s, s', m, a, stamp) && NewRow(s, s', m.token)
    requires m.token.session in s.stamps ==> s.stamps[m.token.session] == stamp
    ensures Inv(s')
  {
    assert s.nextId !in s.minted;
    TokensGrow(s, s', m, a, stamp);
    RowsGrow(s, s', m, a, stamp);
    NothingAfterGrow(s, s', m, a, stamp);
  }

  /** Rows are at most removed, nothing is handed out, and the clock does not go back. */
  predicate Subsides(s: State, s': State) {
    && s.now <= s'.now && s'.nextId == s.nextId
    && s'.minted == s.minted && s'.accesses == s.accesses && s'.lines == s.lines && s'.stamps == s.stamps
    && (forall j :: j in s'.rows ==> j in s.rows && s'.rows[j] == s.rows[j])
  }

  lemma InvSubsides(s: State, s': State)
    requires Inv(s) && Subsides(s, s')
    ensures Inv(s')
  {
    forall j | j in s'.minted ensures TokenKept(s', s'.minted[j]) {
      assert TokenKept(s, s.minted[j]);
    }
    forall k | 0 <= k < |s'.accesses| ensures AccessKept(s', s'.accesses[k]) {
      assert AccessKept(s, s.accesses[k]);
    }
    forall j | j in s'.rows ensures RowKept(s', j, s'.rows[j]) {
      assert RowKept(s, j, s.rows[j]);
    }
  }

  lemma InvOpen(cfg: Settings, s: State, user: UserId, enabled: bool)
    requires Inv(s)
    ensures Inv(OpenSession(cfg, s, user, enabled).0)
  {
    var s' := OpenSession(cfg, s, user, enabled).0;
    forall j | j in s.rows ensures s.rows[j].session < s.nextId {
      assert RowKept(s, j, s.rows[j]);
    }
    InvGrow(s, s', s'.minted[s.nextId], s'.accesses[|s.accesses|], Epoch(s.now));
  }

  lemma InvRotate(cfg: Settings, s: State, jti: Jti)
    requires Inv(s) && jti in s.minted
    requires VerdictAt(cfg, s.rows, s.active, s.minted[jti].token, s.now).Accepted?
    ensures Inv(RefreshSession(cfg, s, s.minted[jti].token).0)
  {
    var token := s.minted[jti].token;
    var s' := RefreshSession(cfg, s, token).0;
    var stamp := Anchor(token.sessionIat, s.now).value;
    assert TokenKept(s, s.minted[jti]) && RowKept(s, jti, s.rows[jti]);
    forall j | j in s.rows && j != jti ensures s.rows[j].session != token.session {
      assert RowKept(s, j, s.rows[j]);
    }
    InvGrow(s, s', s'.minted[s.nextId], s'.accesses[|s.accesses|], stamp);
  }

  lemma InvStep(cfg: Settings, s: State, r: Request)
    requires Inv(s)
    ensures Inv(Serve(cfg, s, r).0)
  {
    if r.Open? {
      InvOpen(cfg, s, r.user, r.enabled);
    } else if r.Refresh? && r.jti in s.minted && !Over(s.minted[r.jti].token.exp, s.now)
      && VerdictAt(cfg, s.rows, s.active, s.minted[r.jti].token, s.now).Accepted? {
      InvRotate(cfg, s, r.jti);
    } else {
      InvSubsides(s, Serve(cfg, s, r).0);
    }
  }

  lemma {:induction false} InvRun(cfg: Settings, s: State, run: seq<Request>)
    requires Inv(s)
    ensures Inv(After(cfg, s, run))
    decreases |run|
  {
    if run != [] {
      InvStep(cfg, s, run[0]);
      InvRun(cfg, Serve(cfg, s, run[0]).0, run[1..]);
    }
  }
}
