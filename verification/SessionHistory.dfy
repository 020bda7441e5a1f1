/**
 The whitelist against the history of each session: who opened it, what it was exchanged
 for, who closed it.
 */
module SessionHistory {
  import opened Basics
  import opened Store
  import opened Protocol
  import opened ProtocolInvariants
  import opened Refinement
  import opened SessionGuarantees

  // ------------------------------------------------ the history of each session

  /** The request closes the session, when it is open. */
  predicate Closes(e: Entry, session: Session, user: UserId) {
    e.Revoked? && Reaches(e.scope, session, user)
  }

  predicate OpensSession(e: Entry, session: Session) {
    e.Opened? && e.row.session == session
  }

  /** Opened, and not closed since. */
  ghost predicate Alive(log: seq<Entry>, session: Session, user: UserId) {
    exists i :: 0 <= i < |log| && OpensSession(log[i], session)
      && forall k :: i < k < |log| ==> !Closes(log[k], session, user)
  }

  /** The refresh tokens handed out for the session, in order. */
  function Chain(log: seq<Entry>, session: Session): seq<Jti> {
    if log == [] then [] else Chain(log[..|log| - 1], session) + Link(log[|log| - 1], session)
  }

  function Link(e: Entry, session: Session): seq<Jti> {
    if OpensSession(e, session) then [e.jti]
    else if Exchanged(e) && e.token.session == session then [e.successor]
    else []
  }

  lemma AliveAppended(log: seq<Entry>, e: Entry, session: Session, user: UserId)
    ensures Alive(log + [e], session, user)
      <==> OpensSession(e, session) || (Alive(log, session, user) && !Closes(e, session, user))
  {
    var log' := log + [e];
    if OpensSession(e, session) {
      assert log'[|log|] == e;
    } else if Alive(log, session, user) && !Closes(e, session, user) {
      var i :| 0 <= i < |log| && OpensSession(log[i], session)
        && forall k :: i < k < |log| ==> !Closes(log[k], session, user);
      assert OpensSession(log'[i], session);
    } else if Alive(log', session, user) {
      var i :| 0 <= i < |log'| && OpensSession(log'[i], session)
        && forall k :: i < k < |log'| ==> !Closes(log'[k], session, user);
      assert i < |log| && OpensSession(log[i], session);
      assert !Closes(log'[|log|], session, user);
      forall k | i < k < |log| ensures !Closes(log[k], session, user) {
        assert log'[k] == log[k];
      }
    }
  }

  lemma ChainAppended(log: seq<Entry>, e: Entry, session: Session)
    ensures Chain(log + [e], session) == Chain(log, session) + Link(e, session)
  {
    assert (log + [e])[..|log|] == log;
  }

  /** The serial whitelist says of the session what its history says. */
  ghost predicate TellsHistory(s: State, session: Session) {
    && session in s.lines
    && (SessionListed(Serial(s.log), session) <==> Alive(s.log, session, s.lines[session].user))
    && Chain(s.log, session) != [] && Chain(s.log, session)[|Chain(s.log, session)| - 1] == s.lines[session].last
  }

  /** A request that leaves the serial whitelist alone and is not a revocation that reaches the session. */
  lemma HistoryQuiet(s: State, s': State, e: Entry, session: Session)
    requires TellsHistory(s, session) && s'.log == s.log + [e] && s'.lines == s.lines
    requires Serial(s'.log) == Serial(s.log) && !OpensSession(e, session) && !Exchanged(e)
    requires Closes(e, session, s.lines[session].user) ==> !SessionListed(Serial(s.log), session)
    ensures TellsHistory(s', session)
  {
    AliveAppended(s.log, e, session, s.lines[session].user);
    ChainAppended(s.log, e, session);
  }

  lemma HistoryOpen(s: State, a: Action, session: Session)
    requires a.Open? && Honest(s.log) && s.nextId !in Serial(s.log) && !SessionListed(Serial(s.log), s.nextId + 1)
    requires s.nextId + 1 !in s.lines && (session in s.lines ==> TellsHistory(s, session))
    requires session in Perform(true, s, a).lines
    ensures TellsHistory(Perform(true, s, a), session)
  {
    var s' := Perform(true, s, a);
    var e := s'.log[|s.log|];
    Appended(s.log, e);
    AliveAppended(s.log, e, session, s'.lines[session].user);
    ChainAppended(s.log, e, session);
    if session == s.nextId + 1 {
      assert Serial(s'.log)[s.nextId].session == session;
    } else {
      forall j | j in Serial(s.log) ensures j in Serial(s'.log) && Serial(s'.log)[j] == Serial(s.log)[j] {
      }
    }
  }

  lemma ListedAfterExchange(rows: Whitelist, jti: Jti, successor: Jti, row: Row, session: Session)
    requires jti in rows && rows[jti].session == row.session && successor !in rows
    ensures SessionListed(Exchange(rows, jti, successor, row), session) <==> SessionListed(rows, session)
  {
    var rows' := Exchange(rows, jti, successor, row);
    forall j | j in rows && j != jti ensures j in rows' && rows'[j] == rows[j] {
    }
    assert rows'[successor] == row;
  }

  /** What a committed rotation adds to the log and to the lines. */
  lemma LogOfExchange(s: State, a: Action)
    requires Enabled(true, s, a) && a.Commit? && s.txns[a.pid].phase.Inserted? && s.txns[a.pid].job.Rotation?
    ensures var s' := Perform(true, s, a);
      var token, phase := s.txns[a.pid].job.token, s.txns[a.pid].phase;
      && s'.log == s.log + [Attempt(a.pid, token, phase.seen, phase.successor, phase.created, Accepted)]
      && s'.lines == s.lines[token.session := Line(token.user, phase.successor)]
  {
  }

  /** An accepted rotation, as the serial whitelist answers it. */
  lemma ServedExchange(log: seq<Entry>, e: Entry, session: Session)
    requires Exchanged(e) && Honest(log) && e.successor !in Serial(log)
    requires e.token.jti in Serial(log) && Serial(log)[e.token.jti].session == e.token.session
    requires Judge(Serial(log), e.token.jti, e.seen.expired, e.seen.active).Accepted?
    ensures SessionListed(Serial(log + [e]), session) <==> SessionListed(Serial(log), session)
  {
    Appended(log, e);
    var row := Row(e.token.user, e.token.session, true, e.created);
    assert Serial(log + [e]) == Exchange(Serial(log), e.token.jti, e.successor, row);
    ListedAfterExchange(Serial(log), e.token.jti, e.successor, row, session);
  }

  lemma HistoryExchange(s: State, s': State, e: Entry, session: Session)
    requires Exchanged(e) && s'.log == s.log + [e]
      && s'.lines == s.lines[e.token.session := Line(e.token.user, e.successor)]
    requires TellsHistory(s, session) && Honest(s.log) && e.successor !in Serial(s.log)
    requires e.token.jti in Serial(s.log) && Serial(s.log)[e.token.jti].session == e.token.session
    requires e.token.session in s.lines && s.lines[e.token.session].user == e.token.user
    requires Judge(Serial(s.log), e.token.jti, e.seen.expired, e.seen.active).Accepted?
    ensures TellsHistory(s', session)
  {
    ServedExchange(s.log, e, session);
    AliveAppended(s.log, e, session, s.lines[session].user);
    ChainAppended(s.log, e, session);
  }

  lemma ListedAfterRevocation(rows: Whitelist, e: Entry, session: Session, reached: bool)
    requires e.Revoked?
    requires forall j :: j in rows && rows[j].session == session ==> (InScope(e.scope, j, rows[j]) <==> reached)
    ensures SessionListed(Serve(rows, e), session) <==> SessionListed(rows, session) && !reached
  {
    var rows' := Serve(rows, e);
    forall j | j in rows && rows[j].session == session
      ensures j in Selected(rows, e.scope) <==> reached
      ensures !reached ==> j in rows' && rows'[j] == rows[j]
    {
    }
  }

  lemma HistoryScan(s: State, s': State, e: Entry, session: Session)
    requires e.Revoked? && s'.log == s.log + [e] && s'.lines == s.lines
    requires TellsHistory(s, session) && Honest(s.log) && AnswerAgrees(Serial(s.log), e)
    requires forall j :: j in Serial(s.log) && Serial(s.log)[j].session == session ==>
      (InScope(e.scope, j, Serial(s.log)[j]) <==> Reaches(e.scope, session, s.lines[session].user))
    ensures TellsHistory(s', session)
  {
    Appended(s.log, e);
    AliveAppended(s.log, e, session, s.lines[session].user);
    ChainAppended(s.log, e, session);
    ListedAfterRevocation(Serial(s.log), e, session, Reaches(e.scope, session, s.lines[session].user));
  }

  /** What the serial rows are worth: they are committed rows, and genuine. */
  lemma SerialRowFacts(s: State, j: Jti)
    requires Ledger(s) && Refines(s) && j in Serial(s.log)
    ensures j in s.rows && Serial(s.log)[j] == s.rows[j] && j < s.nextId
    ensures s.rows[j].session in s.lines && s.rows[j].session < s.nextId
    ensures s.lines[s.rows[j].session] == Line(s.rows[j].user, j)
  {
    assert Genuine(s, Token(j, s.rows[j].session, s.rows[j].user));
  }

  lemma ScopeOnSerial(s: State, user: UserId, scope: Scope, session: Session)
    requires Ledger(s) && Refines(s) && Owned(s, user, scope) && session in s.lines
    ensures forall j :: j in Serial(s.log) && Serial(s.log)[j].session == session ==>
      (InScope(scope, j, Serial(s.log)[j]) <==> Reaches(scope, session, s.lines[session].user))
  {
    forall j | j in Serial(s.log) && Serial(s.log)[j].session == session
      ensures InScope(scope, j, Serial(s.log)[j]) <==> Reaches(scope, session, s.lines[session].user)
    {
      SerialRowFacts(s, j);
      ReachesItsRows(s, user, scope, j);
    }
  }

  lemma LogOfScan(s: State, a: Action)
    requires Enabled(true, s, a) && a.Scan?
    ensures var s' := Perform(true, s, a);
      var job := s.txns[a.pid].job;
      && s'.lines == s.lines && |s'.log| > |s.log|
      && s'.log == s.log + [Revoked(a.pid, job.user, job.scope, job.needsMatch, Selected(s.rows, job.scope) != {})]
  {
  }

  lemma HistoryOfExchange(s: State, a: Action, session: Session)
    requires Guarded(s) && Refines(s) && Enabled(true, s, a) && a.Commit? && s.txns[a.pid].phase.Inserted?
    requires TellsHistory(s, session)
    ensures TellsHistory(Perform(true, s, a), session)
  {
    ExchangeFacts(s, a.pid);
    var token := s.txns[a.pid].job.token;
    assert JobAgrees(s, s.txns[a.pid].job);
    assert Genuine(s, Token(token.jti, s.rows[token.jti].session, s.rows[token.jti].user));
    LogOfExchange(s, a);
    HistoryExchange(s, Perform(true, s, a), Perform(true, s, a).log[|s.log|], session);
  }

  lemma HistoryOfOpen(s: State, a: Action, session: Session)
    requires Guarded(s) && Refines(s) && a.Open? && session in Perform(true, s, a).lines
    requires session in s.lines ==> TellsHistory(s, session)
    ensures TellsHistory(Perform(true, s, a), session)
  {
    forall j | j in Serial(s.log) ensures j < s.nextId && Serial(s.log)[j].session < s.nextId {
      SerialRowFacts(s, j);
    }
    assert s.nextId + 1 !in s.lines;
    HistoryOpen(s, a, session);
  }

  lemma LogOfRest(s: State, a: Action)
    requires Enabled(true, s, a) && !a.Open? && !a.Scan?
    requires !a.Start? ==> PhaseAgrees(s, s.txns[a.pid])
    requires !(a.Commit? && s.txns[a.pid].phase.Inserted?)
    ensures var s' := Perform(true, s, a);
      && s'.lines == s.lines
      && (s'.log == s.log ||
          (|s'.log| > |s.log| && s'.log == s.log + [s'.log[|s.log|]]
           && !Exchanged(s'.log[|s.log|]) && !s'.log[|s.log|].Opened? && !s'.log[|s.log|].Revoked?))
  {
  }

  /** A rotation that is refused, or anything that is undone, is not part of the history of a session. */
  lemma HistoryOfRest(s: State, s': State, session: Session)
    requires TellsHistory(s, session) && Refines(s') && s'.lines == s.lines
    requires s'.log == s.log ||
      (|s'.log| > |s.log| && s'.log == s.log + [s'.log[|s.log|]]
       && !Exchanged(s'.log[|s.log|]) && !s'.log[|s.log|].Opened? && !s'.log[|s.log|].Revoked?)
    ensures TellsHistory(s', session)
  {
    if s'.log != s.log {
      AnsweredAlone(s, s', s'.log[|s.log|]);
      HistoryQuiet(s, s', s'.log[|s.log|], session);
    }
  }

  /** An entry that is neither a sign-in, nor a revocation, nor an accepted rotation changes nothing. */
  lemma AnsweredAlone(s: State, s': State, e: Entry)
    requires Refines(s') && s'.log == s.log + [e] && !e.Opened? && !e.Revoked? && !Exchanged(e)
    ensures Serial(s'.log) == Serial(s.log)
  {
    assert s'.log[..|s.log|] == s.log;
    assert AnswerAgrees(Serial(s'.log[..|s.log|]), s'.log[|s.log|]);
  }

  lemma HistoryStep(s: State, a: Action, session: Session)
    requires Guarded(s) && Refines(s) && Enabled(true, s, a)
    requires session in Perform(true, s, a).lines && (session in s.lines ==> TellsHistory(s, session))
    ensures TellsHistory(Perform(true, s, a), session)
  {
    if a.Open? {
      HistoryOfOpen(s, a, session);
    } else {
      if !a.Start? {
        assert JobAgrees(s, s.txns[a.pid].job) && PhaseAgrees(s, s.txns[a.pid]);
      }
      assert session in s.lines;
      if a.Scan? {
        SelectedAlike(s, a.pid);
        ScopeOnSerial(s, s.txns[a.pid].job.Owner(), s.txns[a.pid].job.scope, session);
        LogOfScan(s, a);
        HistoryScan(s, Perform(true, s, a), Perform(true, s, a).log[|s.log|], session);
      } else if a.Commit? && s.txns[a.pid].phase.Inserted? {
        HistoryOfExchange(s, a, session);
      } else {
        RefinesStep(s, a);
        LogOfRest(s, a);
        HistoryOfRest(s, Perform(true, s, a), session);
      }
    }
  }

  lemma {:induction false} HistoryRun(s: State, run: seq<Action>)
    requires Guarded(s) && Refines(s) && CanRun(true, s, run)
    requires forall x :: x in s.lines ==> TellsHistory(s, x)
    ensures var s' := After(true, s, run);
      Guarded(s') && Refines(s') && forall x :: x in s'.lines ==> TellsHistory(s', x)
    decreases |run|
  {
    if run != [] {
      var s' := Perform(true, s, run[0]);
      GuardedStep(s, run[0]);
      RefinesStep(s, run[0]);
      forall x | x in s'.lines ensures TellsHistory(s', x) {
        HistoryStep(s, run[0], x);
      }
      HistoryRun(s', run[1..]);
    }
  }

  /**
   The whitelist agrees with the history. In every reachable state, and for every session
   that was opened: it has a row, not already marked for deletion, exactly when it was
   opened and not revoked since; and the row holds the last token of its chain.
   */
  lemma WhitelistTellsHistory(run: seq<Action>, session: Session)
    requires CanRun(true, INITIAL, run) && session in After(true, INITIAL, run).lines
    ensures var s := After(true, INITIAL, run);
      var standing := s.rows - Condemned(s);
      && (SessionListed(standing, session) <==> Alive(s.log, session, s.lines[session].user))
      && (forall j :: j in standing && standing[j].session == session ==>
            Chain(s.log, session) != [] && j == Chain(s.log, session)[|Chain(s.log, session)| - 1])
  {
    var s := After(true, INITIAL, run);
    assert Guarded(INITIAL) && Refines(INITIAL) by {
      InitiallyLocked();
    }
    HistoryRun(INITIAL, run);
    assert TellsHistory(s, session);
    forall j | j in Serial(s.log) && Serial(s.log)[j].session == session ensures j == s.lines[session].last {
      SerialRowFacts(s, j);
    }
  }
}
