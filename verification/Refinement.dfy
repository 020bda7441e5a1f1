/**
 The interleaved protocol against its serial specification: with the lock of the user in
 place, every run leaves the whitelist that the same requests leave when they are run one
 at a time in the order in which they were given the lock.
 */
module Refinement {
  import opened Basics
  import opened Store
  import opened Protocol
  import opened ProtocolInvariants

  // ------------------------------------------------------- the serial whitelist

  /** One whole request, run with nothing beside it. */
  function Serve(rows: Whitelist, e: Entry): Whitelist {
    match e
    case Opened(jti, row) => rows[jti := row]
    case Attempt(_, token, seen, successor, created, _) =>
      if Judge(rows, token.jti, seen.expired, seen.active).Accepted?
      then Exchange(rows, token.jti, successor, Row(token.user, token.session, true, created))
      else rows
    case Revoked(_, _, scope, needsMatch, _) =>
      if needsMatch && Selected(rows, scope) == {} then rows else Without(rows, scope)
    case Aborted(_, _) => rows
  }

  /** The answer the request gets when it is run alone is the one that was recorded. */
  predicate AnswerAgrees(rows: Whitelist, e: Entry) {
    match e
    case Opened(jti, row) => jti !in rows && !SessionListed(rows, row.session)
    case Attempt(_, token, seen, _, _, verdict) => verdict == Judge(rows, token.jti, seen.expired, seen.active)
    case Revoked(_, _, scope, _, found) => found == (Selected(rows, scope) != {})
    case Aborted(_, _) => true
  }

  function Serial(log: seq<Entry>): Whitelist {
    if log == [] then map[] else Serve(Serial(log[..|log| - 1]), log[|log| - 1])
  }

  ghost predicate Honest(log: seq<Entry>) {
    forall i :: 0 <= i < |log| ==> AnswerAgrees(Serial(log[..i]), log[i])
  }

  /** The turns of the log, in order. */
  function Turns(log: seq<Entry>): seq<Turn> {
    if log == [] then [] else Turns(log[..|log| - 1]) + TurnOf(log[|log| - 1])
  }

  function TurnOf(e: Entry): seq<Turn> {
    match e
    case Opened(_, _) => []
    case Attempt(pid, token, _, _, _, _) => [Turn(token.user, pid)]
    case Revoked(pid, user, _, _, _) => [Turn(user, pid)]
    case Aborted(pid, user) => [Turn(user, pid)]
  }

  // ------------------------------------------------------------- the refinement

  /** Rows a revocation has begun to delete and not yet committed. */
  ghost function Condemned(s: State): set<Jti> {
    set j | j in s.rows && exists p :: p in s.txns && s.txns[p].phase.Scanned? && j in s.txns[p].phase.hit
  }

  ghost predicate Refines(s: State) {
    Honest(s.log) && Serial(s.log) == s.rows - Condemned(s)
  }

  lemma Appended(log: seq<Entry>, e: Entry)
    requires Honest(log) && AnswerAgrees(Serial(log), e)
    ensures Honest(log + [e]) && Serial(log + [e]) == Serve(Serial(log), e)
  {
    var log' := log + [e];
    assert log'[..|log|] == log;
    forall i | 0 <= i < |log'| ensures AnswerAgrees(Serial(log'[..i]), log'[i]) {
      if i < |log| {
        assert log'[..i] == log[..i];
      }
    }
  }

  /** A condemned row belongs to the revocation holding the lock of its user. */
  lemma CondemnedIsHeld(s: State, j: Jti) returns (p: Pid)
    requires Guarded(s) && j in Condemned(s)
    ensures p in s.txns && s.txns[p].phase.Scanned? && j in s.txns[p].phase.hit
    ensures s.rows[j].user in s.lock && s.lock[s.rows[j].user] == p
  {
    p :| p in s.txns && s.txns[p].phase.Scanned? && j in s.txns[p].phase.hit;
    var t := s.txns[p];
    assert GuardAgrees(s, t) && JobAgrees(s, t.job) && PhaseAgrees(s, t);
    ScopeIsOwned(s, t.job.Owner(), t.job.scope, j);
  }

  /** Seen from the holder of the lock of a user, the serial whitelist has the same rows. */
  lemma HolderSeesSerial(s: State, pid: Pid, j: Jti)
    requires Guarded(s) && Refines(s) && pid in s.txns
    requires !s.txns[pid].phase.Waiting? && !s.txns[pid].phase.Scanned?
    requires j in s.rows && s.rows[j].user == s.txns[pid].job.Owner()
    ensures j in Serial(s.log) && Serial(s.log)[j] == s.rows[j]
  {
    if j in Condemned(s) {
      var p := CondemnedIsHeld(s, j);
    }
  }

  lemma JudgedAlike(s: State, pid: Pid, seen: Seen)
    requires Guarded(s) && Refines(s) && pid in s.txns && s.txns[pid].job.Rotation?
    requires !s.txns[pid].phase.Waiting? && !s.txns[pid].phase.Scanned?
    ensures var jti := s.txns[pid].job.token.jti;
      Judge(Serial(s.log), jti, seen.expired, seen.active) == Judge(s.rows, jti, seen.expired, seen.active)
  {
    var token := s.txns[pid].job.token;
    assert JobAgrees(s, s.txns[pid].job);
    if token.jti in s.rows {
      HolderSeesSerial(s, pid, token.jti);
    }
  }

  lemma SelectedAlike(s: State, pid: Pid)
    requires Guarded(s) && Refines(s) && pid in s.txns && s.txns[pid].job.Revocation?
    requires s.txns[pid].phase.Holding?
    ensures Selected(Serial(s.log), s.txns[pid].job.scope) == Selected(s.rows, s.txns[pid].job.scope)
  {
    var scope := s.txns[pid].job.scope;
    assert JobAgrees(s, s.txns[pid].job);
    forall j | j in Selected(s.rows, scope) ensures j in Selected(Serial(s.log), scope) {
      ScopeIsOwned(s, s.txns[pid].job.Owner(), scope, j);
      HolderSeesSerial(s, pid, j);
    }
  }

  /** A step that leaves the rows and the revocations under way alone. */
  lemma RefinesSame(s: State, s': State)
    requires Refines(s) && s'.rows == s.rows && s'.log == s.log
    requires forall p :: p in s.txns && s.txns[p].phase.Scanned? ==> p in s'.txns && s'.txns[p] == s.txns[p]
    requires forall p :: p in s'.txns && s'.txns[p].phase.Scanned? ==> p in s.txns && s'.txns[p] == s.txns[p]
    ensures Refines(s')
  {
    assert Condemned(s') == Condemned(s);
  }

  /** Every revocation under way has marked only rows that are there. */
  ghost predicate HitsExist(s: State) {
    forall p :: p in s.txns && s.txns[p].phase.Scanned? ==> s.txns[p].phase.hit <= s.rows.Keys
  }

  lemma GuardedHits(s: State)
    requires Guarded(s)
    ensures HitsExist(s)
  {
    forall p | p in s.txns ensures GuardAgrees(s, s.txns[p]) {
    }
  }

  lemma OpenIsNew(s: State)
    requires Sound(s)
    ensures s.nextId !in s.rows && !SessionListed(s.rows, s.nextId + 1)
  {
  }

  lemma RefinesOpen(s: State, a: Action)
    requires Refines(s) && HitsExist(s) && a.Open?
    requires s.nextId !in s.rows && !SessionListed(s.rows, s.nextId + 1)
    ensures Refines(Perform(true, s, a))
  {
    var s' := Perform(true, s, a);
    CondemnedStay(s, s');
    OpenBeside(s.rows, Condemned(s), s.nextId, s'.rows[s.nextId]);
    Appended(s.log, s'.log[|s.log|]);
  }

  /** Adding a row commutes with removing others. */
  lemma OpenBeside(rows: Whitelist, gone: set<Jti>, jti: Jti, row: Row)
    requires jti !in gone
    ensures rows[jti := row] - gone == (rows - gone)[jti := row]
  {
  }

  lemma CondemnedStay(s: State, s': State)
    requires HitsExist(s) && s'.txns == s.txns && s.rows.Keys <= s'.rows.Keys
    ensures Condemned(s') == Condemned(s)
  {
  }

  /** The turn ends without changing a row: the serial run of the request changes none either. */
  lemma RefinesQuietEntry(s: State, s': State, pid: Pid, e: Entry)
    requires Refines(s) && s'.rows == s.rows && s'.log == s.log + [e]
    requires pid in s.txns && !s.txns[pid].phase.Scanned? && s'.txns - {pid} == s.txns - {pid}
    requires pid in s'.txns ==> s'.txns[pid].phase.Waiting?
    requires AnswerAgrees(Serial(s.log), e) && Serve(Serial(s.log), e) == Serial(s.log)
    ensures Refines(s')
  {
    Appended(s.log, e);
    forall p | p != pid ensures (p in s.txns <==> p in s'.txns) && (p in s.txns ==> s'.txns[p] == s.txns[p]) {
      assert p in s.txns <==> p in s.txns - {pid};
      assert p in s'.txns <==> p in s'.txns - {pid};
      if p in s.txns {
        assert (s.txns - {pid})[p] == (s'.txns - {pid})[p];
      }
    }
    assert Condemned(s') == Condemned(s);
  }

  lemma RefinesRead(s: State, a: Action)
    requires Refines(s) && Enabled(true, s, a) && a.Read?
    requires var jti := s.txns[a.pid].job.token.jti;
      Judge(Serial(s.log), jti, a.seen.expired, a.seen.active) == Judge(s.rows, jti, a.seen.expired, a.seen.active)
    ensures Refines(Perform(true, s, a))
  {
    var s' := Perform(true, s, a);
    if Judge(s.rows, s.txns[a.pid].job.token.jti, a.seen.expired, a.seen.active).Accepted? {
      RefinesSame(s, s');
    } else {
      assert s'.txns - {a.pid} == s.txns - {a.pid};
      RefinesQuietEntry(s, s', a.pid, s'.log[|s.log|]);
    }
  }

  lemma RefinesClaim(s: State, a: Action)
    requires Guarded(s) && Refines(s) && Enabled(true, s, a) && a.Claim?
    ensures Refines(Perform(true, s, a))
  {
    assert GuardAgrees(s, s.txns[a.pid]);
    RefinesSame(s, Perform(true, s, a));
  }

  /** A revocation that found rows marks them; serially they are gone at once. */
  lemma RefinesFound(s: State, s': State, pid: Pid, e: Entry, hit: set<Jti>)
    requires Refines(s) && AnswerAgrees(Serial(s.log), e) && Serve(Serial(s.log), e) == Serial(s.log) - hit
    requires pid in s.txns && !s.txns[pid].phase.Scanned? && hit <= s.rows.Keys
    requires s'.rows == s.rows && s'.log == s.log + [e]
    requires pid in s'.txns && s'.txns == s.txns[pid := s'.txns[pid]]
    requires s'.txns[pid].phase.Scanned? && s'.txns[pid].phase.hit == hit
    ensures Refines(s')
  {
    Appended(s.log, e);
    CondemnMore(s, s', pid);
  }

  lemma RefinesScan(s: State, a: Action)
    requires Refines(s) && Enabled(true, s, a) && a.Scan?
    requires Selected(Serial(s.log), s.txns[a.pid].job.scope) == Selected(s.rows, s.txns[a.pid].job.scope)
    ensures Refines(Perform(true, s, a))
  {
    var s' := Perform(true, s, a);
    var e := s'.log[|s.log|];
    if e.needsMatch && !e.found {
      assert s'.txns - {a.pid} == s.txns - {a.pid};
      RefinesQuietEntry(s, s', a.pid, e);
    } else {
      RefinesFound(s, s', a.pid, e, Selected(s.rows, s.txns[a.pid].job.scope));
    }
  }

  lemma CondemnMore(s: State, s': State, pid: Pid)
    requires pid in s.txns && !s.txns[pid].phase.Scanned? && s'.rows == s.rows
    requires pid in s'.txns && s'.txns == s.txns[pid := s'.txns[pid]] && s'.txns[pid].phase.Scanned?
    requires s'.txns[pid].phase.hit <= s.rows.Keys
    ensures Condemned(s') == Condemned(s) + s'.txns[pid].phase.hit
    ensures s'.rows - Condemned(s') == s.rows - Condemned(s) - s'.txns[pid].phase.hit
  {
    forall j | j in Condemned(s) ensures j in Condemned(s') {
      var p :| p in s.txns && s.txns[p].phase.Scanned? && j in s.txns[p].phase.hit;
      assert s'.txns[p] == s.txns[p];
    }
  }

  lemma ExchangeFacts(s: State, pid: Pid)
    requires Guarded(s) && Refines(s) && pid in s.txns && s.txns[pid].phase.Inserted?
    ensures s.txns[pid].job.Rotation?
    ensures var token, seen := s.txns[pid].job.token, s.txns[pid].phase.seen;
      && token.jti in s.rows && token.jti !in Condemned(s) && s.txns[pid].phase.successor !in s.rows
      && Judge(Serial(s.log), token.jti, seen.expired, seen.active).Accepted?
  {
    var t := s.txns[pid];
    assert GuardAgrees(s, t) && PhaseAgrees(s, t) && JobAgrees(s, t.job);
    JudgedAlike(s, pid, t.phase.seen);
  }

  lemma RefinesExchange(s: State, a: Action)
    requires Refines(s) && HitsExist(s) && Enabled(true, s, a) && a.Commit?
    requires s.txns[a.pid].phase.Inserted? && s.txns[a.pid].job.Rotation?
    requires var token, seen := s.txns[a.pid].job.token, s.txns[a.pid].phase.seen;
      && token.jti in s.rows && token.jti !in Condemned(s) && s.txns[a.pid].phase.successor !in s.rows
      && Judge(Serial(s.log), token.jti, seen.expired, seen.active).Accepted?
    ensures Refines(Perform(true, s, a))
  {
    var s' := Perform(true, s, a);
    var token := s.txns[a.pid].job.token;
    CondemnSame(s, s', a.pid);
    ExchangeBeside(s.rows, Condemned(s), token.jti, s.txns[a.pid].phase.successor,
                   Row(token.user, token.session, true, s.txns[a.pid].phase.created));
    Appended(s.log, s'.log[|s.log|]);
  }

  /** An exchange of a row that is not condemned commutes with removing those that are. */
  lemma ExchangeBeside(rows: Whitelist, gone: set<Jti>, jti: Jti, successor: Jti, row: Row)
    requires jti in rows && jti !in gone && successor !in rows && gone <= rows.Keys
    ensures Exchange(rows, jti, successor, row) - gone == Exchange(rows - gone, jti, successor, row)
  {
  }

  /** The end of a transaction that marked nothing leaves the same rows condemned. */
  lemma CondemnSame(s: State, s': State, pid: Pid)
    requires HitsExist(s) && pid in s.txns && !s.txns[pid].phase.Scanned? && s'.txns == s.txns - {pid}
    requires forall j :: j in Condemned(s) ==> j in s'.rows
    ensures Condemned(s') == Condemned(s)
  {
    forall j | j in Condemned(s) ensures j in Condemned(s') {
      var p :| p in s.txns && s.txns[p].phase.Scanned? && j in s.txns[p].phase.hit;
      assert s'.txns[p] == s.txns[p];
    }
    forall j | j in Condemned(s') ensures j in Condemned(s) {
      var p :| p in s'.txns && s'.txns[p].phase.Scanned? && j in s'.txns[p].phase.hit;
      assert s'.txns[p] == s.txns[p];
    }
  }

  lemma RefinesDelete(s: State, a: Action)
    requires Guarded(s) && Refines(s) && Enabled(true, s, a) && a.Commit? && s.txns[a.pid].phase.Scanned?
    ensures Refines(Perform(true, s, a))
  {
    var s' := Perform(true, s, a);
    var hit := s.txns[a.pid].phase.hit;
    assert GuardAgrees(s, s.txns[a.pid]) && PhaseAgrees(s, s.txns[a.pid]);
    forall j ensures j in Condemned(s') <==> j in Condemned(s) - hit {
      if j in Condemned(s) - hit {
        var p := CondemnedIsHeld(s, j);
        assert s'.txns[p] == s.txns[p];
      }
    }
    assert hit <= Condemned(s);
    assert s'.rows - Condemned(s') == s.rows - Condemned(s);
  }

  lemma RefinesCommit(s: State, a: Action)
    requires Guarded(s) && Refines(s) && Enabled(true, s, a) && a.Commit?
    ensures Refines(Perform(true, s, a))
  {
    if s.txns[a.pid].phase.Inserted? {
      GuardedHits(s);
      ExchangeFacts(s, a.pid);
      RefinesExchange(s, a);
    } else {
      RefinesDelete(s, a);
    }
  }

  /** Steps that end no turn and mark no row. */
  lemma RefinesProgress(s: State, a: Action)
    requires Refines(s) && Enabled(true, s, a) && (a.Start? || a.Acquire? || a.Insert?)
    ensures Refines(Perform(true, s, a))
  {
    RefinesSame(s, Perform(true, s, a));
  }

  lemma RefinesStep(s: State, a: Action)
    requires Guarded(s) && Refines(s) && Enabled(true, s, a)
    ensures Refines(Perform(true, s, a))
  {
    match a
    case Open(_, _, _) =>
      GuardedHits(s);
      OpenIsNew(s);
      RefinesOpen(s, a);
    case Start(_, _) => RefinesProgress(s, a);
    case Acquire(_) => RefinesProgress(s, a);
    case Read(pid, seen) =>
      JudgedAlike(s, pid, seen);
      RefinesRead(s, a);
    case Claim(_) => RefinesClaim(s, a);
    case Insert(_, _) => RefinesProgress(s, a);
    case Scan(pid) =>
      SelectedAlike(s, pid);
      RefinesScan(s, a);
    case Commit(_) => RefinesCommit(s, a);
    case Abort(pid) => RefinesAbort(s, pid);
  }

  lemma RefinesAbort(s: State, pid: Pid)
    requires Refines(s) && Enabled(true, s, Abort(pid))
    ensures Refines(Perform(true, s, Abort(pid)))
  {
    var s' := Perform(true, s, Abort(pid));
    assert s'.txns - {pid} == s.txns - {pid};
    RefinesQuietEntry(s, s', pid, s'.log[|s.log|]);
  }
}
