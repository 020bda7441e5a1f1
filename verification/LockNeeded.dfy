/**
 What the lock of the user is for: without it a run of the same protocol exists in which a
 logout everywhere is answered and the rotated session survives it.
 */
module LockNeeded {
  import opened Basics
  import opened Store
  import opened Protocol
  import opened ProtocolInvariants

  lemma {:induction false} Extend(locking: bool, s: State, run: seq<Action>, a: Action)
    requires CanRun(locking, s, run) && Enabled(locking, After(locking, s, run), a)
    ensures CanRun(locking, s, run + [a])
    ensures After(locking, s, run + [a]) == Perform(locking, After(locking, s, run), a)
    decreases |run|
  {
    var longer := run + [a];
    if run == [] {
      assert longer[1..] == [];
    } else {
      assert longer[1..] == run[1..] + [a];
      Extend(locking, Perform(locking, s, run[0]), run[1..], a);
    }
  }

  ghost predicate Reachable(locking: bool, s: State) {
    exists run :: CanRun(locking, INITIAL, run) && After(locking, INITIAL, run) == s
  }

  lemma ReachNext(locking: bool, s: State, a: Action)
    requires Reachable(locking, s) && Enabled(locking, s, a)
    ensures Reachable(locking, Perform(locking, s, a))
  {
    var run :| CanRun(locking, INITIAL, run) && After(locking, INITIAL, run) == s;
    Extend(locking, INITIAL, run, a);
  }

  const FIRST: Row := Row(0, 1, true, 0)
  const SEEN: Seen := Seen(false, {0})
  const REFRESH: Job := Rotation(Token(0, 1, 0))
  const LOGOUT_ALL: Job := Revocation(0, OfUser(0), false)

  /** One session is open, and its token is being rotated. */
  function Rotating(phase: Phase, nextId: nat, granted: seq<Turn>): State {
    State(map[0 := FIRST], map[], map[0 := Transaction(REFRESH, phase)], nextId,
          map[0 := 1], map[1 := Line(0, 0)], [Opened(0, FIRST)], granted)
  }

  lemma RotationStarts()
    ensures Reachable(false, Rotating(Waiting, 2, []))
  {
    assert After(false, INITIAL, []) == INITIAL;
    ReachNext(false, INITIAL, Open(0, true, 0));
    var signedIn := Perform(false, INITIAL, Open(0, true, 0));
    ReachNext(false, signedIn, Start(0, REFRESH));
    assert Perform(false, signedIn, Start(0, REFRESH)) == Rotating(Waiting, 2, []);
  }

  lemma RotationHolds()
    ensures Reachable(false, Rotating(Holding, 2, [Turn(0, 0)]))
  {
    RotationStarts();
    ReachNext(false, Rotating(Waiting, 2, []), Acquire(0));
    assert Perform(false, Rotating(Waiting, 2, []), Acquire(0)) == Rotating(Holding, 2, [Turn(0, 0)]);
  }

  lemma RotationBegins()
    ensures Reachable(false, Rotating(Cleared(SEEN), 2, [Turn(0, 0)]))
  {
    RotationHolds();
    ReachNext(false, Rotating(Holding, 2, [Turn(0, 0)]), Read(0, SEEN));
    assert Perform(false, Rotating(Holding, 2, [Turn(0, 0)]), Read(0, SEEN))
      == Rotating(Cleared(SEEN), 2, [Turn(0, 0)]);
  }

  lemma RotationInserts()
    ensures Reachable(false, Rotating(Inserted(SEEN, 2, 0), 3, [Turn(0, 0)]))
  {
    RotationBegins();
    var cleared := Rotating(Cleared(SEEN), 2, [Turn(0, 0)]);
    var claimed := Rotating(Claimed(SEEN), 2, [Turn(0, 0)]);
    ReachNext(false, cleared, Claim(0));
    assert Perform(false, cleared, Claim(0)) == claimed;
    ReachNext(false, claimed, Insert(0, 0));
    assert Perform(false, claimed, Insert(0, 0)) == Rotating(Inserted(SEEN, 2, 0), 3, [Turn(0, 0)]);
  }

  /** The rotation has inserted its successor and a logout everywhere comes in beside it. */
  function Overlapping(phase: Phase, granted: seq<Turn>, log: seq<Entry>): State {
    Rotating(Inserted(SEEN, 2, 0), 3, granted).(
      txns := map[0 := Transaction(REFRESH, Inserted(SEEN, 2, 0)), 1 := Transaction(LOGOUT_ALL, phase)],
      log := [Opened(0, FIRST)] + log)
  }

  lemma LogoutStarts()
    ensures Reachable(false, Overlapping(Waiting, [Turn(0, 0)], []))
  {
    RotationInserts();
    var inserted := Rotating(Inserted(SEEN, 2, 0), 3, [Turn(0, 0)]);
    ReachNext(false, inserted, Start(1, LOGOUT_ALL));
    assert Perform(false, inserted, Start(1, LOGOUT_ALL)) == Overlapping(Waiting, [Turn(0, 0)], []);
  }

  lemma LogoutBegins()
    ensures Reachable(false, Overlapping(Holding, [Turn(0, 0), Turn(0, 1)], []))
  {
    LogoutStarts();
    var waiting := Overlapping(Waiting, [Turn(0, 0)], []);
    ReachNext(false, waiting, Acquire(1));
    assert Perform(false, waiting, Acquire(1)) == Overlapping(Holding, [Turn(0, 0), Turn(0, 1)], []);
  }

  lemma LogoutScans()
    ensures Reachable(false,
      Overlapping(Scanned({0}, 3), [Turn(0, 0), Turn(0, 1)], [Revoked(1, 0, OfUser(0), false, true)]))
  {
    LogoutBegins();
    var holding := Overlapping(Holding, [Turn(0, 0), Turn(0, 1)], []);
    assert Selected(holding.rows, OfUser(0)) == {0};
    ReachNext(false, holding, Scan(1));
    assert Perform(false, holding, Scan(1)) ==
      Overlapping(Scanned({0}, 3), [Turn(0, 0), Turn(0, 1)], [Revoked(1, 0, OfUser(0), false, true)]);
  }

  /** A logout everywhere was answered, and the session it found is still open. */
  predicate Overtaken(s: State) {
    && s.txns == map[] && |s.log| == 3
    && s.log[0] == Opened(0, FIRST) && s.log[1] == Revoked(1, 0, OfUser(0), false, true)
    && 2 in s.rows && s.rows[2].session == 1
  }

  /**
   With the lock of the user a no-op, a rotation overtakes the logout everywhere: the
   successor of the only session there was survives it.
   */
  lemma WithoutTheLock()
    ensures exists s :: Reachable(false, s) && Overtaken(s)
  {
    LogoutScans();
    var both := Overlapping(Scanned({0}, 3), [Turn(0, 0), Turn(0, 1)], [Revoked(1, 0, OfUser(0), false, true)]);
    ReachNext(false, both, Commit(0));
    var rotated := Perform(false, both, Commit(0));
    assert rotated.rows == map[2 := FIRST];
    assert rotated.txns == map[1 := Transaction(LOGOUT_ALL, Scanned({0}, 3))];
    WithoutTheLockEnds(rotated);
  }

  lemma WithoutTheLockEnds(s: State)
    requires Reachable(false, s) && s.rows == map[2 := FIRST] && |s.log| == 3
    requires s.txns == map[1 := Transaction(LOGOUT_ALL, Scanned({0}, 3))]
    requires s.log[0] == Opened(0, FIRST) && s.log[1] == Revoked(1, 0, OfUser(0), false, true)
    ensures exists s' :: Reachable(false, s') && Overtaken(s')
  {
    ReachNext(false, s, Commit(1));
    assert Overtaken(Perform(false, s, Commit(1)));
  }
}
