/**
 The promises of the session protocol over whole interleaved runs: the serial order, no
 revocation overtaken by a rotation, the death of a replayed session, and the agreement
 of the whitelist with the history of each session.
 */
module SessionGuarantees {
  import opened Basics
  import opened Store
  import opened Protocol
  import opened ProtocolInvariants
  import opened Refinement

  // ---------------------------------------------------------------- the order

  function PidsOf(turns: seq<Turn>, user: UserId): seq<Pid> {
    if turns == [] then []
    else
      var last := turns[|turns| - 1];
      PidsOf(turns[..|turns| - 1], user) + if last.user == user then [last.pid] else []
  }

  /** The holder of the lock whose turn is not in the log yet. */
  function Outstanding(s: State, user: UserId): seq<Pid> {
    if user in s.lock && s.lock[user] in s.txns && !s.txns[s.lock[user]].phase.Scanned?
    then [s.lock[user]] else []
  }

  ghost predicate InOrder(s: State, user: UserId) {
    PidsOf(Turns(s.log), user) + Outstanding(s, user) == PidsOf(s.granted, user)
  }

  lemma TurnsAppended(log: seq<Entry>, e: Entry, user: UserId)
    ensures PidsOf(Turns(log + [e]), user) == PidsOf(Turns(log), user) + PidsOf(TurnOf(e), user)
  {
    assert (log + [e])[..|log|] == log;
    if TurnOf(e) == [] {
      assert Turns(log) + [] == Turns(log);
    } else {
      var t := TurnOf(e)[0];
      assert TurnOf(e) == [t] && [t][..0] == [];
      PidAppended(Turns(log), t, user);
    }
  }

  lemma PidAppended(turns: seq<Turn>, t: Turn, user: UserId)
    ensures PidsOf(turns + [t], user) == PidsOf(turns, user) + if t.user == user then [t.pid] else []
  {
    assert (turns + [t])[..|turns|] == turns;
  }

  lemma HolderOf(s: State, pid: Pid)
    requires Guarded(s) && pid in s.txns && !s.txns[pid].phase.Waiting?
    ensures s.txns[pid].job.Owner() in s.lock && s.lock[s.txns[pid].job.Owner()] == pid
  {
  }

  lemma HolderIsOwner(s: State, user: UserId)
    requires Guarded(s) && user in s.lock
    ensures s.lock[user] in s.txns && s.txns[s.lock[user]].job.Owner() == user
  {
  }

  /** What a step adds to the log and to the grants: nothing, or one turn of the user it serves. */
  lemma LogOfStep(s: State, a: Action)
    requires Enabled(true, s, a)
    ensures var s' := Perform(true, s, a);
      || s'.log == s.log
      || (s'.log == s.log + [s'.log[|s.log|]] &&
          TurnOf(s'.log[|s.log|]) == if a.Open? then [] else [Turn(s.txns[a.pid].job.Owner(), a.pid)])
    ensures Perform(true, s, a).granted ==
      if a.Acquire? then s.granted + [Turn(s.txns[a.pid].job.Owner(), a.pid)] else s.granted
  {
  }

  lemma OutstandingElsewhere(s: State, a: Action, user: UserId)
    requires Enabled(true, s, a)
    requires !a.Open? && !a.Start? ==> s.txns[a.pid].job.Owner() != user
    requires user in s.lock ==> s.lock[user] in s.txns && s.txns[s.lock[user]].job.Owner() == user
    ensures Outstanding(Perform(true, s, a), user) == Outstanding(s, user)
  {
  }

  /** A turn of somebody else does not show in the order of this user. */
  lemma LogElsewhere(s: State, a: Action, user: UserId)
    requires Enabled(true, s, a)
    requires !a.Open? && !a.Start? ==> s.txns[a.pid].job.Owner() != user
    ensures PidsOf(Turns(Perform(true, s, a).log), user) == PidsOf(Turns(s.log), user)
    ensures PidsOf(Perform(true, s, a).granted, user) == PidsOf(s.granted, user)
  {
    var s' := Perform(true, s, a);
    LogOfStep(s, a);
    if s'.log != s.log {
      TurnsAppended(s.log, s'.log[|s.log|], user);
    }
    if a.Acquire? {
      PidAppended(s.granted, Turn(s.txns[a.pid].job.Owner(), a.pid), user);
    }
  }

  /** The turn of the holder is logged: it is outstanding no longer. */
  lemma OrderLogged(s: State, s': State, user: UserId, pid: Pid)
    requires InOrder(s, user) && s'.granted == s.granted
    requires Outstanding(s, user) == [pid] && Outstanding(s', user) == []
    requires |s'.log| > |s.log| && s'.log == s.log + [s'.log[|s.log|]] && TurnOf(s'.log[|s.log|]) == [Turn(user, pid)]
    ensures InOrder(s', user)
  {
    TurnsAppended(s.log, s'.log[|s.log|], user);
    PidAppended([], Turn(user, pid), user);
    assert [] + [Turn(user, pid)] == [Turn(user, pid)];
  }

  /** The holder of the lock is outstanding until its turn is logged. */
  lemma OutstandingHere(s: State, a: Action, user: UserId)
    requires Enabled(true, s, a) && !a.Open? && !a.Start? && s.txns[a.pid].job.Owner() == user
    requires PhaseAgrees(s, s.txns[a.pid])
    requires !s.txns[a.pid].phase.Waiting? ==> user in s.lock && s.lock[user] == a.pid
    ensures var s' := Perform(true, s, a);
      && (a.Acquire? ==> Outstanding(s, user) == [] && Outstanding(s', user) == [a.pid] && s'.log == s.log)
      && (!a.Acquire? ==> s'.granted == s.granted)
      && (!a.Acquire? && s'.log == s.log ==> Outstanding(s', user) == Outstanding(s, user))
      && (!a.Acquire? && s'.log != s.log ==> Outstanding(s, user) == [a.pid] && Outstanding(s', user) == [])
  {
  }

  lemma OrderHere(s: State, a: Action, user: UserId)
    requires Enabled(true, s, a) && InOrder(s, user)
    requires !a.Open? && !a.Start? && s.txns[a.pid].job.Owner() == user
    requires PhaseAgrees(s, s.txns[a.pid])
    requires !s.txns[a.pid].phase.Waiting? ==> user in s.lock && s.lock[user] == a.pid
    ensures InOrder(Perform(true, s, a), user)
  {
    var s' := Perform(true, s, a);
    OutstandingHere(s, a, user);
    LogOfStep(s, a);
    if a.Acquire? {
      PidAppended(s.granted, Turn(user, a.pid), user);
    } else if s'.log != s.log {
      OrderLogged(s, s', user, a.pid);
    }
  }

  lemma OrderStep(s: State, a: Action, user: UserId)
    requires Guarded(s) && Enabled(true, s, a) && InOrder(s, user)
    ensures InOrder(Perform(true, s, a), user)
  {
    if user in s.lock {
      HolderIsOwner(s, user);
    }
    if a.Open? || a.Start? || s.txns[a.pid].job.Owner() != user {
      OutstandingElsewhere(s, a, user);
      LogElsewhere(s, a, user);
    } else {
      assert PhaseAgrees(s, s.txns[a.pid]);
      if !s.txns[a.pid].phase.Waiting? {
        HolderOf(s, a.pid);
      }
      OrderHere(s, a, user);
    }
  }

  lemma {:induction false} LockedRun(s: State, run: seq<Action>)
    requires Guarded(s) && Refines(s) && (forall u: UserId :: InOrder(s, u)) && CanRun(true, s, run)
    ensures var s' := After(true, s, run); Guarded(s') && Refines(s') && forall u: UserId :: InOrder(s', u)
    decreases |run|
  {
    if run != [] {
      GuardedStep(s, run[0]);
      RefinesStep(s, run[0]);
      forall u: UserId ensures InOrder(Perform(true, s, run[0]), u) {
        OrderStep(s, run[0], u);
      }
      LockedRun(Perform(true, s, run[0]), run[1..]);
    }
  }

  lemma InitiallyLocked()
    ensures Guarded(INITIAL) && Refines(INITIAL) && forall u: UserId :: InOrder(INITIAL, u)
  {
    assert Condemned(INITIAL) == {};
  }

  /**
   Every interleaving is a serial run. The log lists whole requests; run one at a time they
   give the same answers and leave the committed whitelist, up to deletions that have begun
   and not committed; and the turns of each user are in the order the lock was granted.
   */
  lemma SerialInLockOrder(run: seq<Action>)
    requires CanRun(true, INITIAL, run)
    ensures var s := After(true, INITIAL, run);
      && Honest(s.log) && Serial(s.log) == s.rows - Condemned(s)
      && (forall u: UserId :: PidsOf(Turns(s.log), u) + Outstanding(s, u) == PidsOf(s.granted, u))
      && ((forall p :: p in s.txns ==> !s.txns[p].phase.Scanned?) ==> s.rows == Serial(s.log))
  {
    InitiallyLocked();
    LockedRun(INITIAL, run);
    var s := After(true, INITIAL, run);
    forall u: UserId ensures PidsOf(Turns(s.log), u) + Outstanding(s, u) == PidsOf(s.granted, u) {
      assert InOrder(s, u);
    }
    if forall p :: p in s.txns ==> !s.txns[p].phase.Scanned? {
      assert Condemned(s) == {};
    }
  }

  // --------------------------------------------------- revocation is not overtaken

  /** A revocation whose deletion begins from now on sees every session opened so far. */
  predicate SeesBefore(s: State, pid: Pid, bound: nat) {
    bound <= s.nextId && (pid in s.txns && s.txns[pid].phase.Scanned? ==> bound <= s.txns[pid].phase.horizon)
  }

  lemma SeesBeforeStep(s: State, a: Action, pid: Pid, bound: nat)
    requires Enabled(true, s, a) && SeesBefore(s, pid, bound)
    ensures SeesBefore(Perform(true, s, a), pid, bound)
  {
  }

  /** A session keeps its user, whatever happens. */
  lemma LineKept(s: State, a: Action, session: Session)
    requires Sound(s) && Enabled(true, s, a) && session in s.lines
    ensures var s' := Perform(true, s, a); session in s'.lines && s'.lines[session].user == s.lines[session].user
  {
    if !a.Open? && !a.Start? {
      assert JobAgrees(s, s.txns[a.pid].job) && PhaseAgrees(s, s.txns[a.pid]);
    }
  }

  lemma {:induction false} DuringRun(s: State, run: seq<Action>, pid: Pid, bound: nat, session: Session)
    requires Guarded(s) && CanRun(true, s, run) && SeesBefore(s, pid, bound) && session in s.lines
    ensures var s' := After(true, s, run);
      && Guarded(s') && SeesBefore(s', pid, bound)
      && session in s'.lines && s'.lines[session].user == s.lines[session].user
    decreases |run|
  {
    if run != [] {
      GuardedStep(s, run[0]);
      SeesBeforeStep(s, run[0], pid, bound);
      LineKept(s, run[0], session);
      DuringRun(Perform(true, s, run[0]), run[1..], pid, bound, session);
    }
  }

  /** The sessions a revocation of this user reaches. */
  predicate Reaches(scope: Scope, session: Session, user: UserId) {
    match scope
    case OfSession(x) => x == session
    case OfTokenOrSession(_, x) => x == session
    case OfUser(u) => u == user
  }

  lemma ReachesItsRows(s: State, user: UserId, scope: Scope, j: Jti)
    requires Ledger(s) && Owned(s, user, scope) && j in s.rows
    ensures InScope(scope, j, s.rows[j]) <==> Reaches(scope, s.rows[j].session, s.rows[j].user)
  {
  }

  /** When a revocation commits, every session it reaches that was opened before its deletion is closed. */
  lemma RevocationCloses(s: State, pid: Pid, session: Session)
    requires Guarded(s) && Enabled(true, s, Commit(pid)) && s.txns[pid].phase.Scanned?
    requires session in s.lines && session < s.txns[pid].phase.horizon
    requires Reaches(s.txns[pid].job.scope, session, s.lines[session].user)
    ensures Closed(Perform(true, s, Commit(pid)), session)
  {
    var t := s.txns[pid];
    assert GuardAgrees(s, t) && JobAgrees(s, t.job);
    forall j | j in s.rows && s.rows[j].session == session ensures j in t.phase.hit {
      ReachesItsRows(s, t.job.Owner(), t.job.scope, j);
    }
  }

  /** From the moment a revocation waits for the lock to its commit, and ever after. */
  lemma RevocationClosesForGood(s: State, pid: Pid, mid: seq<Action>, rest: seq<Action>, session: Session)
    requires Guarded(s) && pid in s.txns && s.txns[pid].job.Revocation? && s.txns[pid].phase.Waiting?
    requires session in s.lines && Reaches(s.txns[pid].job.scope, session, s.lines[session].user)
    requires CanRun(true, s, mid)
    requires var committing := After(true, s, mid);
      && Enabled(true, committing, Commit(pid)) && committing.txns[pid].job == s.txns[pid].job
      && CanRun(true, Perform(true, committing, Commit(pid)), rest)
    ensures var committed := Perform(true, After(true, s, mid), Commit(pid));
      Sound(committed) && Closed(committed, session) && Closed(After(true, committed, rest), session)
  {
    assert session < s.nextId;
    DuringRun(s, mid, pid, s.nextId, session);
    var committing := After(true, s, mid);
    assert PhaseAgrees(committing, committing.txns[pid]);
    RevocationCloses(committing, pid, session);
    SoundStep(true, committing, Commit(pid));
    ClosedForGood(true, Perform(true, committing, Commit(pid)), rest, session);
  }

  /**
   No overtaken revocation: a session that had a row when the revocation took the lock, and
   that is in its scope, has none when it commits and none in any later state, whatever
   other requests did in between (`mid`) and do afterwards (`rest`).
   */
  lemma NoOvertakenRevocation(s: State, pid: Pid, mid: seq<Action>, rest: seq<Action>, session: Session)
    requires Guarded(s) && Enabled(true, s, Acquire(pid)) && s.txns[pid].job.Revocation?
    requires SessionListed(s.rows, session)
    requires Reaches(s.txns[pid].job.scope, session, s.lines[session].user)
    requires CanRun(true, Perform(true, s, Acquire(pid)), mid)
    requires var committing := After(true, Perform(true, s, Acquire(pid)), mid);
      && Enabled(true, committing, Commit(pid)) && committing.txns[pid].job == s.txns[pid].job
      && CanRun(true, Perform(true, committing, Commit(pid)), rest)
    ensures var committed := Perform(true, After(true, Perform(true, s, Acquire(pid)), mid), Commit(pid));
      !SessionListed(committed.rows, session) && !SessionListed(After(true, committed, rest).rows, session)
  {
    assert session in s.lines;
    RevocationClosesForGood(s, pid, [Acquire(pid)] + mid, rest, session);
  }

  // ------------------------------------------------------------ a replayed token

  /** The token was handed out and is no longer whitelisted: it was exchanged or revoked. */
  predicate Consumed(s: State, token: Token) {
    Genuine(s, token) && token.jti !in s.rows
  }

  lemma ConsumedStep(locking: bool, s: State, a: Action, token: Token)
    requires Sound(s) && Enabled(locking, s, a) && Consumed(s, token)
    ensures Consumed(Perform(locking, s, a), token)
  {
    if a.Commit? && s.txns[a.pid].phase.Inserted? {
      assert PhaseAgrees(s, s.txns[a.pid]) && JobAgrees(s, s.txns[a.pid].job);
    }
  }

  /** A consumed token stays consumed, with the lock or without it. */
  lemma {:induction false} ConsumedForGood(locking: bool, s: State, run: seq<Action>, token: Token)
    requires Sound(s) && CanRun(locking, s, run) && Consumed(s, token)
    ensures Consumed(After(locking, s, run), token)
    decreases |run|
  {
    if run != [] {
      SoundStep(locking, s, run[0]);
      ConsumedStep(locking, s, run[0], token);
      ConsumedForGood(locking, Perform(locking, s, run[0]), run[1..], token);
    }
  }

  /** Presenting a consumed token always ends the rotation and starts the revocation of its session. */
  lemma ReplayIsDetected(locking: bool, s: State, pid: Pid, seen: Seen)
    requires Enabled(locking, s, Read(pid, seen)) && Consumed(s, s.txns[pid].job.token)
    ensures var token := s.txns[pid].job.token;
      var s' := Perform(locking, s, Read(pid, seen));
      && s'.rows == s.rows && |s'.log| > |s.log|
      && s'.log == s.log + [Attempt(pid, token, seen, 0, 0, Verdict.Refused(Replayed))]
      && pid in s'.txns && s'.txns[pid] == Transaction(Revocation(token.user, OfSession(token.session), false), Waiting)
  {
  }

  /** The row is there and enabled and its session is not over, but the account behind it was deactivated. */
  predicate FoundInactive(s: State, token: Token, seen: Seen) {
    && token.jti in s.rows && s.rows[token.jti].enabled && !seen.expired
    && s.rows[token.jti].user !in seen.active
  }

  /** What each refusal starts: the revocation of the session, or of everything of the account, or nothing. */
  lemma RefusalStarts(locking: bool, s: State, pid: Pid, seen: Seen)
    requires Enabled(locking, s, Read(pid, seen))
    ensures var token := s.txns[pid].job.token;
      var s' := Perform(locking, s, Read(pid, seen));
      && s'.rows == s.rows
      && (token.jti !in s.rows || (s.rows[token.jti].enabled && seen.expired) ==>
            && pid in s'.txns
            && s'.txns[pid] == Transaction(Revocation(token.user, OfSession(token.session), false), Waiting))
      && (token.jti in s.rows && !s.rows[token.jti].enabled ==> pid !in s'.txns)
      && (FoundInactive(s, token, seen) ==>
            var user := s.rows[token.jti].user;
            pid in s'.txns && s'.txns[pid] == Transaction(Revocation(user, OfUser(user), false), Waiting))
  {
  }

  /**
   A deactivated account is shut out for good. From a state in which a rotation finds the
   account deactivated to the commit of the revocation it calls for: no session the account had
   then has a row from the commit on, not only the one that was presented.
   */
  lemma InactiveUserIsShutOut(s: State, pid: Pid, seen: Seen, mid: seq<Action>, rest: seq<Action>, session: Session)
    requires Guarded(s) && Enabled(true, s, Read(pid, seen)) && FoundInactive(s, s.txns[pid].job.token, seen)
    requires session in s.lines && s.lines[session].user == s.rows[s.txns[pid].job.token.jti].user
    requires CanRun(true, Perform(true, s, Read(pid, seen)), mid)
    requires var detected := Perform(true, s, Read(pid, seen));
      var committing := After(true, detected, mid);
      && pid in detected.txns && Enabled(true, committing, Commit(pid))
      && committing.txns[pid].job == detected.txns[pid].job
      && CanRun(true, Perform(true, committing, Commit(pid)), rest)
    ensures var committed := Perform(true, After(true, Perform(true, s, Read(pid, seen)), mid), Commit(pid));
      !SessionListed(committed.rows, session) && !SessionListed(After(true, committed, rest).rows, session)
  {
    RefusalStarts(true, s, pid, seen);
    GuardedStep(s, Read(pid, seen));
    var detected := Perform(true, s, Read(pid, seen));
    assert detected.lines == s.lines;
    RevocationClosesForGood(detected, pid, mid, rest, session);
  }

  /** Only the session of the scope loses rows. */
  lemma OnlyItsSession(s: State, pid: Pid, j: Jti)
    requires Guarded(s) && Enabled(true, s, Commit(pid)) && s.txns[pid].phase.Scanned?
    requires s.txns[pid].job.scope.OfSession? && j in s.rows && s.rows[j].session != s.txns[pid].job.scope.session
    ensures var s' := Perform(true, s, Commit(pid)); j in s'.rows && s'.rows[j] == s.rows[j]
  {
    assert GuardAgrees(s, s.txns[pid]);
  }

  lemma NoTokenOfClosed(s: State, session: Session, t: Token, seen: Seen)
    requires Sound(s) && Closed(s, session) && t.session == session && Genuine(s, t)
    ensures Judge(s.rows, t.jti, seen.expired, seen.active) == Verdict.Refused(Replayed)
  {
    assert t.jti in s.rows ==> s.rows[t.jti].session == session;
  }

  /**
   Replay kills the session for good. From a state in which a consumed token is read by a
   rotation, through any steps of anybody (`mid`) to the commit of the revocation the replay
   calls for: the session has no row then and in every later state (`rest`), no token of it
   is ever accepted again, and that commit leaves the rows of every other session alone.
   */
  lemma ReplayKillsSession(s: State, pid: Pid, seen: Seen, mid: seq<Action>, rest: seq<Action>)
    requires Guarded(s) && Enabled(true, s, Read(pid, seen)) && Consumed(s, s.txns[pid].job.token)
    requires CanRun(true, Perform(true, s, Read(pid, seen)), mid)
    requires var detected := Perform(true, s, Read(pid, seen));
      var committing := After(true, detected, mid);
      && pid in detected.txns && Enabled(true, committing, Commit(pid))
      && committing.txns[pid].job == detected.txns[pid].job
      && CanRun(true, Perform(true, committing, Commit(pid)), rest)
    ensures var session := s.txns[pid].job.token.session;
      var committing := After(true, Perform(true, s, Read(pid, seen)), mid);
      var committed := Perform(true, committing, Commit(pid));
      var last := After(true, committed, rest);
      && !SessionListed(committed.rows, session) && !SessionListed(last.rows, session)
      && (forall t: Token, later: Seen :: t.session == session && Genuine(last, t)
            ==> Judge(last.rows, t.jti, later.expired, later.active) == Verdict.Refused(Replayed))
      && (forall j :: j in committing.rows && committing.rows[j].session != session
            ==> j in committed.rows && committed.rows[j] == committing.rows[j])
  {
    var session := s.txns[pid].job.token.session;
    ReplayIsDetected(true, s, pid, seen);
    GuardedStep(s, Read(pid, seen));
    var detected := Perform(true, s, Read(pid, seen));
    RevocationClosesForGood(detected, pid, mid, rest, session);
    DuringRun(detected, mid, pid, 0, session);
    var committing := After(true, detected, mid);
    var committed := Perform(true, committing, Commit(pid));
    assert PhaseAgrees(committing, committing.txns[pid]);
    forall j | j in committing.rows && committing.rows[j].session != session
      ensures j in committed.rows && committed.rows[j] == committing.rows[j]
    {
      OnlyItsSession(committing, pid, j);
    }
    SoundRun(true, committed, rest);
    var last := After(true, committed, rest);
    forall t: Token, later: Seen | t.session == session && Genuine(last, t)
      ensures Judge(last.rows, t.jti, later.expired, later.active) == Verdict.Refused(Replayed)
    {
      NoTokenOfClosed(last, session, t, later);
    }
  }
}
