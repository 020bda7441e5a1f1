/**
 The session whitelist under concurrency.

 Requests run as transactions made of small steps, in any interleaving: wait for the lock of
 the user, read, delete, insert, commit. Reads and deletes see committed rows. With
 `locking` off, the lock of the user is never taken, and all that is left is what the
 database does by itself: a row being deleted by one open transaction cannot be deleted
 by another until the first one ends.
 */
module Protocol {
  import opened Basics
  import opened Store

  type Pid = nat

  /** A refresh token, as the whitelist sees it. Only issued tokens carry a valid signature. */
  datatype Token = Token(jti: Jti, session: Session, user: UserId)

  datatype Job =
    | Rotation(token: Token)
    | Revocation(user: UserId, scope: Scope, needsMatch: bool)
  {
    /** The user whose lock the transaction takes. */
    function Owner(): UserId {
      match this
      case Rotation(token) => token.user
      case Revocation(user, _, _) => user
    }
  }

  /** What a rotation learned outside the whitelist when it read its row. */
  datatype Seen = Seen(expired: bool, active: set<UserId>)

  datatype Phase =
    | Waiting
    | Holding
    | Cleared(seen: Seen)
    | Claimed(seen: Seen)
    | Inserted(seen: Seen, successor: Jti, created: int)
    | Scanned(hit: set<Jti>, horizon: nat)

  datatype Transaction = Transaction(job: Job, phase: Phase) {
    /** The row this transaction has deleted but not committed. */
    predicate Claims(jti: Jti) {
      job.Rotation? && (phase.Claimed? || phase.Inserted?) && job.token.jti == jti
    }
  }

  /** What is remembered of each finished turn, with the answer that was given. */
  datatype Entry =
    | Opened(jti: Jti, row: Row)
    | Attempt(pid: Pid, token: Token, seen: Seen, successor: Jti, created: int, verdict: Verdict)
    | Revoked(pid: Pid, user: UserId, scope: Scope, needsMatch: bool, found: bool)
    | Aborted(pid: Pid, user: UserId)

  datatype Turn = Turn(user: UserId, pid: Pid)

  datatype State = State(
    rows: Whitelist,
    lock: map<UserId, Pid>,
    txns: map<Pid, Transaction>,
    nextId: nat,
    issued: map<Jti, Session>,
    lines: map<Session, Line>,
    log: seq<Entry>,
    granted: seq<Turn>)

  const INITIAL: State := State(map[], map[], map[], 0, map[], map[], [], [])

  /** The token was handed out: its signature is good, so its claims are the ones written then. */
  predicate Genuine(s: State, token: Token) {
    && token.jti in s.issued && s.issued[token.jti] == token.session
    && token.session in s.lines && s.lines[token.session].user == token.user
  }

  // -------------------------------------------------------------------- steps

  datatype Action =
    | Open(user: UserId, enabled: bool, created: int)
    | Start(pid: Pid, job: Job)
    | Acquire(pid: Pid)
    | Read(pid: Pid, seen: Seen)
    | Claim(pid: Pid)
    | Insert(pid: Pid, created: int)
    | Scan(pid: Pid)
    | Commit(pid: Pid)
    | Abort(pid: Pid)

  /** A scope is only ever built from a token of the user, or from the user itself. */
  predicate Owned(s: State, user: UserId, scope: Scope) {
    match scope
    case OfUser(u) => u == user
    case OfSession(session) => session in s.lines && s.lines[session].user == user
    case OfTokenOrSession(jti, session) => Genuine(s, Token(jti, session, user))
  }

  predicate Enabled(locking: bool, s: State, a: Action) {
    match a
    case Open(_, _, _) => true
    case Start(pid, job) =>
      && pid !in s.txns
      && (match job
          case Rotation(token) => Genuine(s, token)
          case Revocation(user, scope, _) => Owned(s, user, scope))
    case Acquire(pid) =>
      pid in s.txns && s.txns[pid].phase.Waiting? && (locking ==> s.txns[pid].job.Owner() !in s.lock)
    case Read(pid, _) => pid in s.txns && s.txns[pid].job.Rotation? && s.txns[pid].phase.Holding?
    case Claim(pid) =>
      && pid in s.txns && s.txns[pid].job.Rotation? && s.txns[pid].phase.Cleared?
      && forall p :: p in s.txns ==> !s.txns[p].Claims(s.txns[pid].job.token.jti)
    case Insert(pid, _) => pid in s.txns && s.txns[pid].job.Rotation? && s.txns[pid].phase.Claimed?
    case Scan(pid) => pid in s.txns && s.txns[pid].job.Revocation? && s.txns[pid].phase.Holding?
    case Commit(pid) =>
      && pid in s.txns
      && (s.txns[pid].phase.Inserted? || s.txns[pid].phase.Scanned?)
      && (s.txns[pid].phase.Scanned? ==>
            forall p, j :: p in s.txns && j in s.txns[pid].phase.hit ==> !s.txns[p].Claims(j))
    case Abort(pid) =>
      pid in s.txns && !s.txns[pid].phase.Waiting? && !s.txns[pid].phase.Scanned?
  }

  function SetPhase(s: State, pid: Pid, phase: Phase): State
    requires pid in s.txns
  {
    s.(txns := s.txns[pid := s.txns[pid].(phase := phase)])
  }

  /** The transaction ends: its lock is released and its turn is recorded. */
  function Finish(s: State, pid: Pid, entry: Entry): State
    requires pid in s.txns
  {
    s.(txns := s.txns - {pid}, lock := s.lock - {s.txns[pid].job.Owner()}, log := s.log + [entry])
  }

  /** A refused rotation is undone; its revocation, if it calls for one, is a new transaction. */
  function Refuse(s: State, pid: Pid, seen: Seen, reason: Reason): State
    requires pid in s.txns && s.txns[pid].job.Rotation?
  {
    var token := s.txns[pid].job.token;
    var entry := Attempt(pid, token, seen, 0, 0, Refused(reason));
    var undone := Finish(s, pid, entry);
    var rowUser := if token.jti in s.rows then s.rows[token.jti].user else token.user;
    match Penalty(reason, token.session, rowUser)
    case None => undone
    case Some(scope) =>
      var user := if reason == InactiveUser then rowUser else token.user;
      undone.(txns := undone.txns[pid := Transaction(Revocation(user, scope, false), Waiting)])
  }

  function Perform(locking: bool, s: State, a: Action): State
    requires Enabled(locking, s, a)
  {
    match a
    case Open(user, enabled, created) =>
      var row := Row(user, s.nextId + 1, enabled, created);
      s.(rows := s.rows[s.nextId := row], nextId := s.nextId + 2,
         issued := s.issued[s.nextId := s.nextId + 1],
         lines := s.lines[s.nextId + 1 := Line(user, s.nextId)], log := s.log + [Opened(s.nextId, row)])
    case Start(pid, job) => s.(txns := s.txns[pid := Transaction(job, Waiting)])
    case Acquire(pid) =>
      var user := s.txns[pid].job.Owner();
      SetPhase(s, pid, Holding).(
        lock := if locking then s.lock[user := pid] else s.lock,
        granted := s.granted + [Turn(user, pid)])
    case Read(pid, seen) =>
      (match Judge(s.rows, s.txns[pid].job.token.jti, seen.expired, seen.active)
       case Accepted => SetPhase(s, pid, Cleared(seen))
       case Refused(reason) => Refuse(s, pid, seen, reason))
    case Claim(pid) =>
      var seen := s.txns[pid].phase.seen;
      if s.txns[pid].job.token.jti in s.rows then SetPhase(s, pid, Claimed(seen))
      else Refuse(s, pid, seen, Replayed)
    case Insert(pid, created) =>
      SetPhase(s, pid, Inserted(s.txns[pid].phase.seen, s.nextId, created)).(nextId := s.nextId + 1)
    case Scan(pid) =>
      var Revocation(user, scope, needsMatch) := s.txns[pid].job;
      var hit := Selected(s.rows, scope);
      var entry := Revoked(pid, user, scope, needsMatch, hit != {});
      if needsMatch && hit == {} then Finish(s, pid, entry)
      else SetPhase(s, pid, Scanned(hit, s.nextId)).(log := s.log + [entry])
    case Commit(pid) =>
      (match s.txns[pid].phase
       case Inserted(seen, successor, created) =>
         if s.txns[pid].job.Rotation? then
           var token := s.txns[pid].job.token;
           var row := Row(token.user, token.session, true, created);
           Finish(s, pid, Attempt(pid, token, seen, successor, created, Accepted)).(
             rows := Exchange(s.rows, token.jti, successor, row),
             issued := s.issued[successor := token.session],
             lines := s.lines[token.session := Line(token.user, successor)])
         else s
       case Scanned(hit, _) =>
         s.(rows := s.rows - hit, txns := s.txns - {pid}, lock := s.lock - {s.txns[pid].job.Owner()})
       case _ => s)
    case Abort(pid) => Finish(s, pid, Aborted(pid, s.txns[pid].job.Owner()))
  }

  /** The actions can be performed one after the other. */
  predicate CanRun(locking: bool, s: State, run: seq<Action>)
    decreases |run|
  {
    run == [] || (Enabled(locking, s, run[0]) && CanRun(locking, Perform(locking, s, run[0]), run[1..]))
  }

  function After(locking: bool, s: State, run: seq<Action>): State
    requires CanRun(locking, s, run)
    decreases |run|
  {
    if run == [] then s else After(locking, Perform(locking, s, run[0]), run[1..])
  }
}
