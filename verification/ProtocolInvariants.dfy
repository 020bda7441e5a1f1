/**
 What every step of the session protocol keeps: first what needs no lock of the user,
 then what the lock adds.
 */
module ProtocolInvariants {
  import opened Basics
  import opened Store
  import opened Protocol

  // --------------------------------------------- what holds with or without lock

  ghost predicate TokensAgree(s: State) {
    && (forall j :: j in s.issued ==> j < s.nextId && s.issued[j] in s.lines)
    && (forall x :: x in s.lines ==> x < s.nextId)
  }

  /** A row is the last token of its session, so a session has at most one row. */
  ghost predicate RowsAgree(s: State) {
    forall j :: j in s.rows ==>
      Genuine(s, Token(j, s.rows[j].session, s.rows[j].user)) && s.lines[s.rows[j].session].last == j
  }

  predicate JobAgrees(s: State, job: Job) {
    match job
    case Rotation(token) => Genuine(s, token)
    case Revocation(user, scope, _) => Owned(s, user, scope)
  }

  predicate PhaseAgrees(s: State, t: Transaction) {
    match t.phase
    case Waiting => true
    case Holding => true
    case Cleared(_) => t.job.Rotation?
    case Claimed(_) => t.job.Rotation? && t.job.token.jti in s.rows
    case Inserted(_, successor, _) =>
      && t.job.Rotation? && t.job.token.jti in s.rows
      && successor < s.nextId && successor !in s.issued
    case Scanned(_, horizon) => t.job.Revocation? && horizon <= s.nextId
  }

  ghost predicate PendingDistinct(s: State) {
    forall p, q :: p in s.txns && q in s.txns && p != q ==> Apart(s.txns[p], s.txns[q])
  }

  /** Two open transactions neither delete the same row nor insert the same one. */
  predicate Apart(t: Transaction, u: Transaction) {
    && (t.job.Rotation? && t.Claims(t.job.token.jti) ==> !u.Claims(t.job.token.jti))
    && (t.phase.Inserted? && u.phase.Inserted? ==> t.phase.successor != u.phase.successor)
  }

  /** Every exchanged token is gone from the whitelist, and no token was exchanged twice. */
  ghost predicate SpentOnce(s: State) {
    && (forall i :: 0 <= i < |s.log| && Exchanged(s.log[i]) ==> Spent(s, s.log[i].token))
    && (forall i, j :: 0 <= i < j < |s.log| && Exchanged(s.log[i]) && Exchanged(s.log[j])
                       ==> s.log[i].token.jti != s.log[j].token.jti)
  }

  predicate Spent(s: State, token: Token) {
    token.jti in s.issued && token.jti !in s.rows
  }

  predicate Exchanged(e: Entry) {
    e.Attempt? && e.verdict.Accepted?
  }

  /** The history and the committed rows. */
  ghost predicate Ledger(s: State) {
    TokensAgree(s) && RowsAgree(s) && SpentOnce(s)
  }

  /** The open transactions. */
  ghost predicate Threads(s: State) {
    && PendingDistinct(s)
    && (forall p :: p in s.txns ==> JobAgrees(s, s.txns[p].job) && PhaseAgrees(s, s.txns[p]))
  }

  ghost predicate Sound(s: State) {
    Ledger(s) && Threads(s)
  }

  /** A token leaves the whitelist when it is exchanged, and no spent token comes back. */
  lemma SpentGrows(s: State, s': State, entry: Entry)
    requires SpentOnce(s) && s'.log == s.log + [entry]
    requires forall j :: j in s.issued ==> j in s'.issued && (j in s'.rows ==> j in s.rows)
    requires Exchanged(entry) ==> Spent(s', entry.token) && entry.token.jti in s.rows
    ensures SpentOnce(s')
  {
    forall i | 0 <= i < |s.log| && Exchanged(s.log[i]) ensures Spent(s', s.log[i].token) {
      assert Spent(s, s.log[i].token);
    }
  }

  /** Nothing is issued and rows are at most removed. */
  predicate Shrinks(s: State, s': State) {
    && s'.issued == s.issued && s'.lines == s.lines && s.nextId <= s'.nextId
    && s'.rows.Keys <= s.rows.Keys && (forall j :: j in s'.rows ==> s'.rows[j] == s.rows[j])
    && (s'.log == s.log || (|s'.log| == |s.log| + 1 && s'.log[..|s.log|] == s.log && !Exchanged(s'.log[|s.log|])))
  }

  lemma LedgerShrinks(s: State, s': State)
    requires Ledger(s) && Shrinks(s, s')
    ensures Ledger(s')
  {
    if s'.log != s.log {
      assert s'.log == s'.log[..|s.log|] + [s'.log[|s.log|]];
      SpentGrows(s, s', s'.log[|s.log|]);
    }
  }

  /** What a step owes to the transactions it does not touch. */
  predicate Grows(s: State, s': State, touched: set<Pid>) {
    && (s'.txns - touched) == (s.txns - touched)
    && (forall j :: j in s.issued ==> j in s'.issued && s'.issued[j] == s.issued[j])
    && (forall x :: x in s.lines ==> x in s'.lines && s'.lines[x].user == s.lines[x].user)
    && s.nextId <= s'.nextId
  }

  predicate Fits(s: State, touched: set<Pid>) {
    forall p :: p in s.txns && p in touched ==>
      && JobAgrees(s, s.txns[p].job) && PhaseAgrees(s, s.txns[p])
      && forall q :: q in s.txns && q != p ==> Apart(s.txns[p], s.txns[q]) && Apart(s.txns[q], s.txns[p])
  }

  lemma ThreadsStep(s: State, s': State, touched: set<Pid>)
    requires Threads(s) && Grows(s, s', touched) && Fits(s', touched)
    requires forall p :: p in s.txns && p !in touched ==> PhaseAgrees(s', s.txns[p])
    ensures Threads(s')
  {
    forall p | p in s'.txns && p !in touched
      ensures p in s.txns && s'.txns[p] == s.txns[p] && JobAgrees(s', s'.txns[p].job)
    {
      assert p in s'.txns - touched;
      assert s'.txns[p] == (s'.txns - touched)[p] == (s.txns - touched)[p];
    }
  }

  /** A step that issues nothing and removes no row pending elsewhere. */
  lemma Quiet(s: State, s': State, pid: Pid)
    requires Sound(s) && Shrinks(s, s') && Grows(s, s', {pid}) && Fits(s', {pid})
    requires forall p, j :: p in s.txns && p != pid && j in s.rows && s.txns[p].Claims(j) ==> j in s'.rows
    ensures Sound(s')
  {
    LedgerShrinks(s, s');
    forall p | p in s.txns && p != pid ensures PhaseAgrees(s', s.txns[p]) {
      assert PhaseAgrees(s, s.txns[p]);
      if s.txns[p].job.Rotation? {
        assert s.txns[p].job.token.jti in s.rows && s.txns[p].Claims(s.txns[p].job.token.jti)
          ==> s.txns[p].job.token.jti in s'.rows;
      }
    }
    ThreadsStep(s, s', {pid});
  }

  lemma OpenRows(locking: bool, s: State, user: UserId, enabled: bool, created: int)
    requires TokensAgree(s) && RowsAgree(s)
    ensures TokensAgree(Perform(locking, s, Open(user, enabled, created)))
    ensures RowsAgree(Perform(locking, s, Open(user, enabled, created)))
  {
  }

  lemma OpenLedger(locking: bool, s: State, user: UserId, enabled: bool, created: int)
    requires Ledger(s)
    ensures Ledger(Perform(locking, s, Open(user, enabled, created)))
  {
    OpenRows(locking, s, user, enabled, created);
    var s' := Perform(locking, s, Open(user, enabled, created));
    SpentGrows(s, s', s'.log[|s.log|]);
  }

  lemma OpenThreads(locking: bool, s: State, user: UserId, enabled: bool, created: int)
    requires Sound(s)
    ensures Threads(Perform(locking, s, Open(user, enabled, created)))
  {
    var s' := Perform(locking, s, Open(user, enabled, created));
    forall p | p in s.txns ensures PhaseAgrees(s', s.txns[p]) {
      assert PhaseAgrees(s, s.txns[p]);
    }
    ThreadsStep(s, s', {});
  }

  lemma ExchangeRows(locking: bool, s: State, pid: Pid)
    requires TokensAgree(s) && RowsAgree(s)
    requires Enabled(locking, s, Commit(pid)) && s.txns[pid].phase.Inserted?
    requires PhaseAgrees(s, s.txns[pid]) && JobAgrees(s, s.txns[pid].job)
    ensures TokensAgree(Perform(locking, s, Commit(pid)))
    ensures RowsAgree(Perform(locking, s, Commit(pid)))
  {
  }

  lemma ExchangeLedger(locking: bool, s: State, pid: Pid)
    requires Ledger(s)
    requires Enabled(locking, s, Commit(pid)) && s.txns[pid].phase.Inserted?
    requires PhaseAgrees(s, s.txns[pid]) && JobAgrees(s, s.txns[pid].job)
    ensures Ledger(Perform(locking, s, Commit(pid)))
  {
    var s' := Perform(locking, s, Commit(pid));
    ExchangeRows(locking, s, pid);
    SpentGrows(s, s', s'.log[|s.log|]);
  }

  lemma ExchangeThreads(locking: bool, s: State, pid: Pid)
    requires Sound(s) && Enabled(locking, s, Commit(pid)) && s.txns[pid].phase.Inserted?
    ensures Threads(Perform(locking, s, Commit(pid)))
  {
    var s' := Perform(locking, s, Commit(pid));
    var token := s.txns[pid].job.token;
    assert PhaseAgrees(s, s.txns[pid]) && JobAgrees(s, s.txns[pid].job);
    assert s'.txns - {pid} == s.txns - {pid};
    forall p | p in s.txns && p != pid ensures PhaseAgrees(s', s.txns[p]) {
      assert PhaseAgrees(s, s.txns[p]) && Apart(s.txns[pid], s.txns[p]) && s.txns[pid].Claims(token.jti);
    }
    ThreadsStep(s, s', {pid});
  }

  lemma ProgressSound(s: State, s': State, pid: Pid)
    requires Sound(s) && pid in s.txns && pid in s'.txns && s'.txns == s.txns[pid := s'.txns[pid]]
    requires s'.txns[pid].job == s.txns[pid].job
    requires Shrinks(s, s') && s'.rows == s.rows
    requires PhaseAgrees(s', s'.txns[pid])
    requires forall p :: p in s.txns && p != pid ==> Apart(s.txns[p], s'.txns[pid]) && Apart(s'.txns[pid], s.txns[p])
    ensures Sound(s')
  {
    assert JobAgrees(s, s.txns[pid].job);
    assert s'.txns - {pid} == s.txns - {pid};
    Quiet(s, s', pid);
  }

  lemma EndSound(s: State, s': State, pid: Pid)
    requires Sound(s) && pid in s.txns && s'.txns == s.txns - {pid}
    requires Shrinks(s, s')
    requires forall p, j :: p in s.txns && p != pid && j in s.rows && s.txns[p].Claims(j) ==> j in s'.rows
    ensures Sound(s')
  {
    assert s'.txns - {pid} == s.txns - {pid};
    Quiet(s, s', pid);
  }

  lemma StartSound(locking: bool, s: State, pid: Pid, job: Job)
    requires Sound(s) && Enabled(locking, s, Start(pid, job))
    ensures Sound(Perform(locking, s, Start(pid, job)))
  {
    var s' := Perform(locking, s, Start(pid, job));
    assert s'.txns - {pid} == s.txns - {pid};
    Quiet(s, s', pid);
  }

  lemma RefuseSound(s: State, pid: Pid, seen: Seen, reason: Reason)
    requires Sound(s) && pid in s.txns && s.txns[pid].job.Rotation?
    ensures Sound(Refuse(s, pid, seen, reason))
  {
    var token := s.txns[pid].job.token;
    var undone := Finish(s, pid, Attempt(pid, token, seen, 0, 0, Verdict.Refused(reason)));
    assert JobAgrees(s, s.txns[pid].job);
    EndSound(s, undone, pid);
    var s' := Refuse(s, pid, seen, reason);
    if pid in s'.txns {
      StartSound(true, undone, pid, s'.txns[pid].job);
    }
  }

  lemma InsertSound(locking: bool, s: State, pid: Pid, created: int)
    requires Sound(s) && Enabled(locking, s, Insert(pid, created))
    ensures Sound(Perform(locking, s, Insert(pid, created)))
  {
    var s' := Perform(locking, s, Insert(pid, created));
    assert PhaseAgrees(s, s.txns[pid]);
    assert s.txns[pid].Claims(s.txns[pid].job.token.jti);
    forall p | p in s.txns && p != pid ensures Apart(s.txns[p], s'.txns[pid]) && Apart(s'.txns[pid], s.txns[p]) {
      assert PhaseAgrees(s, s.txns[p]) && Apart(s.txns[p], s.txns[pid]) && Apart(s.txns[pid], s.txns[p]);
    }
    ProgressSound(s, s', pid);
  }

  lemma ReadSound(locking: bool, s: State, pid: Pid, seen: Seen)
    requires Sound(s) && Enabled(locking, s, Read(pid, seen))
    ensures Sound(Perform(locking, s, Read(pid, seen)))
  {
    match Judge(s.rows, s.txns[pid].job.token.jti, seen.expired, seen.active)
    case Accepted => ProgressSound(s, Perform(locking, s, Read(pid, seen)), pid);
    case Refused(reason) => RefuseSound(s, pid, seen, reason);
  }

  lemma ClaimSound(locking: bool, s: State, pid: Pid)
    requires Sound(s) && Enabled(locking, s, Claim(pid))
    ensures Sound(Perform(locking, s, Claim(pid)))
  {
    if s.txns[pid].job.token.jti in s.rows {
      ProgressSound(s, Perform(locking, s, Claim(pid)), pid);
    } else {
      RefuseSound(s, pid, s.txns[pid].phase.seen, Replayed);
    }
  }

  lemma ScanSound(locking: bool, s: State, pid: Pid)
    requires Sound(s) && Enabled(locking, s, Scan(pid))
    ensures Sound(Perform(locking, s, Scan(pid)))
  {
    var s' := Perform(locking, s, Scan(pid));
    if pid in s'.txns {
      ProgressSound(s, s', pid);
    } else {
      EndSound(s, s', pid);
    }
  }

  lemma CommitSound(locking: bool, s: State, pid: Pid)
    requires Sound(s) && Enabled(locking, s, Commit(pid))
    ensures Sound(Perform(locking, s, Commit(pid)))
  {
    if s.txns[pid].phase.Inserted? {
      assert PhaseAgrees(s, s.txns[pid]) && JobAgrees(s, s.txns[pid].job);
      ExchangeLedger(locking, s, pid);
      ExchangeThreads(locking, s, pid);
    } else {
      EndSound(s, Perform(locking, s, Commit(pid)), pid);
    }
  }

  lemma AcquireSound(locking: bool, s: State, pid: Pid)
    requires Sound(s) && Enabled(locking, s, Acquire(pid))
    ensures Sound(Perform(locking, s, Acquire(pid)))
  {
    ProgressSound(s, Perform(locking, s, Acquire(pid)), pid);
  }

  lemma AbortSound(locking: bool, s: State, pid: Pid)
    requires Sound(s) && Enabled(locking, s, Abort(pid))
    ensures Sound(Perform(locking, s, Abort(pid)))
  {
    EndSound(s, Perform(locking, s, Abort(pid)), pid);
  }

  /** Every step keeps the whole invariant, with the lock of the user or without it. */
  lemma SoundStep(locking: bool, s: State, a: Action)
    requires Sound(s) && Enabled(locking, s, a)
    ensures Sound(Perform(locking, s, a))
  {
    match a
    case Open(user, enabled, created) =>
      OpenLedger(locking, s, user, enabled, created);
      OpenThreads(locking, s, user, enabled, created);
    case Start(pid, job) => StartSound(locking, s, pid, job);
    case Acquire(pid) => AcquireSound(locking, s, pid);
    case Read(pid, seen) => ReadSound(locking, s, pid, seen);
    case Claim(pid) => ClaimSound(locking, s, pid);
    case Insert(pid, created) => InsertSound(locking, s, pid, created);
    case Scan(pid) => ScanSound(locking, s, pid);
    case Commit(pid) => CommitSound(locking, s, pid);
    case Abort(pid) => AbortSound(locking, s, pid);
  }

  lemma {:induction false} SoundRun(locking: bool, s: State, run: seq<Action>)
    requires Sound(s) && CanRun(locking, s, run)
    ensures Sound(After(locking, s, run))
    decreases |run|
  {
    if run != [] {
      SoundStep(locking, s, run[0]);
      SoundRun(locking, Perform(locking, s, run[0]), run[1..]);
    }
  }

  /**
   No fork: whatever the interleaving, and even if the lock of the user does nothing, a
   session never has two whitelisted tokens and a token is never exchanged twice.
   */
  lemma NoFork(locking: bool, run: seq<Action>)
    requires CanRun(locking, INITIAL, run)
    ensures var s := After(locking, INITIAL, run);
      && (forall i, j :: i in s.rows && j in s.rows && s.rows[i].session == s.rows[j].session ==> i == j)
      && (forall i, j :: 0 <= i < j < |s.log| && Exchanged(s.log[i]) && Exchanged(s.log[j])
                         ==> s.log[i].token.jti != s.log[j].token.jti)
  {
    SoundRun(locking, INITIAL, run);
  }

  /** The session was opened and has no committed row. */
  predicate Closed(s: State, session: Session) {
    session in s.lines && !SessionListed(s.rows, session)
  }

  lemma ClosedStep(locking: bool, s: State, a: Action, session: Session)
    requires Sound(s) && Enabled(locking, s, a) && Closed(s, session)
    ensures Closed(Perform(locking, s, a), session)
  {
    if a.Commit? && s.txns[a.pid].phase.Inserted? {
      assert PhaseAgrees(s, s.txns[a.pid]) && JobAgrees(s, s.txns[a.pid].job);
      assert s.rows[s.txns[a.pid].job.token.jti].session != session;
    }
  }

  /** Nothing reopens a closed session, with the lock or without it. */
  lemma {:induction false} ClosedForGood(locking: bool, s: State, run: seq<Action>, session: Session)
    requires Sound(s) && CanRun(locking, s, run) && Closed(s, session)
    ensures Closed(After(locking, s, run), session)
    decreases |run|
  {
    if run != [] {
      SoundStep(locking, s, run[0]);
      ClosedStep(locking, s, run[0], session);
      ClosedForGood(locking, Perform(locking, s, run[0]), run[1..], session);
    }
  }

  // ------------------------------------------------------- what the lock adds

  /** What a transaction read while holding the lock stays true until it ends. */
  predicate GuardAgrees(s: State, t: Transaction) {
    match t.phase
    case Waiting => true
    case Holding => true
    case Cleared(seen) => t.job.Rotation? && Judge(s.rows, t.job.token.jti, seen.expired, seen.active).Accepted?
    case Claimed(seen) => t.job.Rotation? && Judge(s.rows, t.job.token.jti, seen.expired, seen.active).Accepted?
    case Inserted(seen, _, _) => t.job.Rotation? && Judge(s.rows, t.job.token.jti, seen.expired, seen.active).Accepted?
    case Scanned(hit, horizon) =>
      && t.job.Revocation? && hit <= s.rows.Keys
      && (forall j :: j in hit ==> InScope(t.job.scope, j, s.rows[j]))
      && (forall j :: j in s.rows && InScope(t.job.scope, j, s.rows[j]) && s.rows[j].session < horizon ==> j in hit)
  }

  ghost predicate Locked(s: State) {
    && (forall p :: p in s.txns && !s.txns[p].phase.Waiting? ==>
          s.txns[p].job.Owner() in s.lock && s.lock[s.txns[p].job.Owner()] == p)
    && (forall u :: u in s.lock ==> s.lock[u] in s.txns)
    && (forall u :: u in s.lock ==> s.txns[s.lock[u]].job.Owner() == u && !s.txns[s.lock[u]].phase.Waiting?)
  }

  ghost predicate Guarded(s: State) {
    Sound(s) && Locked(s) && forall p :: p in s.txns ==> GuardAgrees(s, s.txns[p])
  }

  /** The holder steps without letting go. */
  predicate Keeps(s: State, s': State, pid: Pid) {
    && s'.lock == s.lock && pid in s.txns && !s.txns[pid].phase.Waiting?
    && pid in s'.txns && s'.txns == s.txns[pid := s'.txns[pid]]
    && s'.txns[pid].job == s.txns[pid].job && !s'.txns[pid].phase.Waiting?
  }

  /** The holder ends, or starts over without the lock. */
  predicate Ends(s: State, s': State, pid: Pid) {
    && pid in s.txns && !s.txns[pid].phase.Waiting?
    && s'.lock == s.lock - {s.txns[pid].job.Owner()}
    && s'.txns - {pid} == s.txns - {pid} && (pid in s'.txns ==> s'.txns[pid].phase.Waiting?)
  }

  lemma LockedKeep(s: State, s': State, pid: Pid)
    requires Locked(s) && Keeps(s, s', pid)
    ensures Locked(s')
  {
  }

  lemma LockedEnd(s: State, s': State, pid: Pid)
    requires Locked(s) && Ends(s, s', pid)
    ensures Locked(s')
  {
    forall p | p in s'.txns && p != pid ensures p in s.txns && s'.txns[p] == s.txns[p] {
      assert p in s'.txns - {pid} && s'.txns[p] == (s'.txns - {pid})[p];
    }
    forall p | p in s.txns && p != pid ensures p in s'.txns && s'.txns[p] == s.txns[p] {
      assert p in s.txns - {pid} && s.txns[p] == (s.txns - {pid})[p];
    }
  }

  lemma LockedStart(s: State, a: Action)
    requires Locked(s) && Enabled(true, s, a) && (a.Start? || a.Acquire?)
    ensures Locked(Perform(true, s, a))
  {
  }

  lemma RefuseEnds(s: State, pid: Pid, seen: Seen, reason: Reason)
    requires pid in s.txns && s.txns[pid].job.Rotation? && !s.txns[pid].phase.Waiting?
    ensures Ends(s, Refuse(s, pid, seen, reason), pid)
  {
    assert Refuse(s, pid, seen, reason).txns - {pid} == s.txns - {pid};
  }

  /** The two steps of a rotation that may refuse. */
  lemma JudgeSteps(s: State, a: Action)
    requires Enabled(true, s, a) && (a.Read? || a.Claim?)
    ensures Keeps(s, Perform(true, s, a), a.pid) || Ends(s, Perform(true, s, a), a.pid)
  {
    var token := s.txns[a.pid].job.token;
    if a.Claim? {
      RefuseEnds(s, a.pid, s.txns[a.pid].phase.seen, Replayed);
    } else {
      match Judge(s.rows, token.jti, a.seen.expired, a.seen.active)
      case Accepted =>
      case Refused(reason) => RefuseEnds(s, a.pid, a.seen, reason);
    }
  }

  lemma HolderSteps(s: State, a: Action)
    requires Enabled(true, s, a) && !a.Open? && !a.Start? && !a.Acquire?
    requires PhaseAgrees(s, s.txns[a.pid])
    ensures Keeps(s, Perform(true, s, a), a.pid) || Ends(s, Perform(true, s, a), a.pid)
  {
    if a.Read? || a.Claim? {
      JudgeSteps(s, a);
    } else {
      assert Perform(true, s, a).txns - {a.pid} == s.txns - {a.pid};
    }
  }

  lemma LockedStep(s: State, a: Action)
    requires Sound(s) && Locked(s) && Enabled(true, s, a)
    ensures Locked(Perform(true, s, a))
  {
    if a.Start? || a.Acquire? {
      LockedStart(s, a);
    } else if !a.Open? {
      HolderSteps(s, a);
      if Keeps(s, Perform(true, s, a), a.pid) {
        LockedKeep(s, Perform(true, s, a), a.pid);
      } else {
        LockedEnd(s, Perform(true, s, a), a.pid);
      }
    }
  }

  /** Everything in the scope of a revocation belongs to the user whose lock it takes. */
  lemma ScopeIsOwned(s: State, user: UserId, scope: Scope, j: Jti)
    requires Ledger(s) && Owned(s, user, scope) && j in s.rows && InScope(scope, j, s.rows[j])
    ensures s.rows[j].user == user
  {
  }

  /** The step leaves the rows of the user alone. */
  predicate Untouched(s: State, s': State, user: UserId) {
    && (forall j :: j in s.rows && s.rows[j].user == user ==> j in s'.rows && s'.rows[j] == s.rows[j])
    && (forall j :: j in s'.rows && s'.rows[j].user == user ==> j in s.rows && s'.rows[j] == s.rows[j])
  }

  /** Only the holder of the lock of a user changes the rows of that user, sign-ins apart. */
  lemma OthersUntouched(s: State, a: Action, user: UserId)
    requires Ledger(s) && Enabled(true, s, a) && !a.Open?
    requires a.Commit? ==>
      && s.txns[a.pid].job.Owner() != user && GuardAgrees(s, s.txns[a.pid])
      && PhaseAgrees(s, s.txns[a.pid]) && JobAgrees(s, s.txns[a.pid].job)
    ensures Untouched(s, Perform(true, s, a), user)
  {
    if a.Commit? {
      var t := s.txns[a.pid];
      if t.phase.Scanned? {
        forall j | j in t.phase.hit ensures s.rows[j].user == t.job.Owner() {
          ScopeIsOwned(s, t.job.Owner(), t.job.scope, j);
        }
      }
    }
  }

  lemma GuardFrame(s: State, s': State, t: Transaction)
    requires Ledger(s) && Ledger(s') && JobAgrees(s, t.job) && JobAgrees(s', t.job)
    requires PhaseAgrees(s, t) && GuardAgrees(s, t) && Untouched(s, s', t.job.Owner())
    ensures GuardAgrees(s', t)
  {
    if t.phase.Scanned? {
      forall j | j in t.phase.hit ensures s.rows[j].user == t.job.Owner() {
        ScopeIsOwned(s, t.job.Owner(), t.job.scope, j);
      }
      forall j | j in s'.rows && InScope(t.job.scope, j, s'.rows[j]) ensures s'.rows[j].user == t.job.Owner() {
        ScopeIsOwned(s', t.job.Owner(), t.job.scope, j);
      }
    } else if t.job.Rotation? && t.job.token.jti in s.rows {
      assert s.rows[t.job.token.jti].user == t.job.Owner();
    }
  }

  lemma GuardFacts(s: State, a: Action, p: Pid)
    requires Guarded(s) && Enabled(true, s, a) && p in s.txns && !a.Open? && p != a.pid && !s.txns[p].phase.Waiting?
    ensures GuardAgrees(s, s.txns[p]) && JobAgrees(s, s.txns[p].job) && PhaseAgrees(s, s.txns[p])
    ensures a.Commit? ==>
      && s.txns[a.pid].job.Owner() != s.txns[p].job.Owner() && GuardAgrees(s, s.txns[a.pid])
      && PhaseAgrees(s, s.txns[a.pid]) && JobAgrees(s, s.txns[a.pid].job)
  {
  }

  lemma SteppedApart(s: State, a: Action, p: Pid)
    requires Enabled(true, s, a) && p in s.txns && !a.Open? && p != a.pid
    ensures var s' := Perform(true, s, a); p in s'.txns && s'.txns[p] == s.txns[p]
  {
  }

  /** A transaction that is not stepping keeps what it read. */
  lemma GuardKept(s: State, a: Action, p: Pid)
    requires Guarded(s) && Enabled(true, s, a) && p in s.txns && !a.Open? && p != a.pid && !s.txns[p].phase.Waiting?
    requires Ledger(Perform(true, s, a)) && JobAgrees(Perform(true, s, a), s.txns[p].job)
    ensures GuardAgrees(Perform(true, s, a), s.txns[p])
  {
    GuardFacts(s, a, p);
    OthersUntouched(s, a, s.txns[p].job.Owner());
    GuardFrame(s, Perform(true, s, a), s.txns[p]);
  }

  /** A sign-in is not in the scope of a revocation that has already begun. */
  lemma GuardSpared(s: State, a: Action, p: Pid)
    requires Guarded(s) && Enabled(true, s, a) && a.Open? && p in s.txns
    ensures GuardAgrees(Perform(true, s, a), s.txns[p])
  {
    assert GuardAgrees(s, s.txns[p]) && PhaseAgrees(s, s.txns[p]);
    assert s.nextId !in s.rows;
  }

  lemma GuardOwn(s: State, a: Action)
    requires Guarded(s) && Enabled(true, s, a) && !a.Open?
    requires a.pid in Perform(true, s, a).txns
    ensures GuardAgrees(Perform(true, s, a), Perform(true, s, a).txns[a.pid])
  {
    if a.pid in s.txns {
      assert GuardAgrees(s, s.txns[a.pid]) && PhaseAgrees(s, s.txns[a.pid]);
    }
  }

  lemma GuardedStep(s: State, a: Action)
    requires Guarded(s) && Enabled(true, s, a)
    ensures Guarded(Perform(true, s, a))
  {
    var s' := Perform(true, s, a);
    SoundStep(true, s, a);
    LockedStep(s, a);
    forall p | p in s'.txns ensures GuardAgrees(s', s'.txns[p]) {
      if a.Open? {
        GuardSpared(s, a, p);
      } else if p == a.pid {
        GuardOwn(s, a);
      } else {
        assert JobAgrees(s', s'.txns[p].job);
        assert p in s.txns;
        SteppedApart(s, a, p);
        if !s.txns[p].phase.Waiting? {
          GuardKept(s, a, p);
        }
      }
    }
  }
}
