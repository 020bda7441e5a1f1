/** Retention of the single-use tokens: how long a row matters, and the purge that drops the rest. */
module Purge {
  import opened Basics
  import opened Store
  import opened MfaStorage
  import opened Tokens

  datatype TotpMode = Off | Offered | Required

  /**
   The settings the capability flows read. `resetTimeout` is in seconds, as Django keeps it;
   the other durations are exact. `overrides` extends or replaces the built-in retentions.
   */
  datatype Policy = Policy(
    invitations: bool,
    selfRegistration: bool,
    resetTimeout: int,
    jwt: Settings,
    confirmationWindow: int,
    limits: Limits,
    totpMode: TotpMode,
    overrides: map<Purpose, int>)

  /** How long a row of a purpose the library knows stays relevant. */
  function Lifetime(policy: Policy, purpose: Purpose): int
    requires !purpose.Custom?
  {
    match purpose
    case PassReset => policy.resetTimeout * SECOND
    case PassSet => policy.resetTimeout * SECOND
    case PassResetAccess => policy.jwt.accessLifetime
    case PassSetAccess => policy.jwt.accessLifetime
    case EmailConfirmation => policy.confirmationWindow
    case Invitation => policy.confirmationWindow
    case SetupChallenge => TOKEN_MAX_AGE
    case LoginChallenge => TOKEN_MAX_AGE
    case SetupSecret => TOKEN_MAX_AGE
    case LoginAttempt => AttemptAge(policy.limits)
  }

  const KNOWN: set<Purpose> := {
    PassReset, PassSet, PassResetAccess, PassSetAccess, EmailConfirmation, Invitation,
    SetupChallenge, LoginChallenge, SetupSecret, LoginAttempt}

  function BuiltInRetentions(policy: Policy): map<Purpose, int> {
    map p | p in KNOWN && !p.Custom? :: Lifetime(policy, p)
  }

  function Retentions(policy: Policy): map<Purpose, int> {
    BuiltInRetentions(policy) + policy.overrides
  }

  /** No override makes a built-in retention shorter. */
  predicate KeepsBuiltIns(policy: Policy) {
    forall p :: p in policy.overrides && !p.Custom? ==> Lifetime(policy, p) <= policy.overrides[p]
  }

  lemma RetentionCovers(policy: Policy, purpose: Purpose)
    requires KeepsBuiltIns(policy) && !purpose.Custom?
    ensures purpose in Retentions(policy) && Lifetime(policy, purpose) <= Retentions(policy)[purpose]
  {
    assert purpose in KNOWN;
  }

  /**
   What a purge with the built-in retentions leaves: every row up to the last instant some flow can
   use it, and no older one of a purpose the library knows.
   */
  lemma PurgeLeavesExactly(policy: Policy, now: int, tokens: seq<GenericToken>, t: GenericToken)
    requires policy.overrides == map[]
    requires t in tokens
    ensures t in PurgedTokens(Retentions(policy), now, tokens) <==>
      match t.purpose
      case PassReset => now <= t.created + policy.resetTimeout * SECOND
      case PassSet => now <= t.created + policy.resetTimeout * SECOND
      case PassResetAccess => now <= t.created + policy.jwt.accessLifetime
      case PassSetAccess => now <= t.created + policy.jwt.accessLifetime
      case EmailConfirmation => now <= t.created + policy.confirmationWindow
      case Invitation => now <= t.created + policy.confirmationWindow
      case LoginAttempt => now <= t.created + Max(policy.limits.lockoutSeconds, 300) * SECOND
      case Custom(_) => true
      case _ => now <= t.created + 300 * SECOND
  {
    if !t.purpose.Custom? {
      assert t.purpose in KNOWN;
    }
  }

  /** Rows of one purpose older than `retention`. */
  function OlderThan(purpose: Purpose, retention: int, now: int): GenericToken -> bool {
    (t: GenericToken) => t.purpose == purpose && t.created < now - retention
  }

  predicate PastRetention(retentions: map<Purpose, int>, now: int, t: GenericToken) {
    t.purpose in retentions && t.created < now - retentions[t.purpose]
  }

  function PurgedTokens(retentions: map<Purpose, int>, now: int, tokens: seq<GenericToken>): seq<GenericToken> {
    Keep(tokens, (t: GenericToken) => !PastRetention(retentions, now, t))
  }

  function Restrict(retentions: map<Purpose, int>, purposes: set<Purpose>): map<Purpose, int> {
    map p | p in retentions && p in purposes :: retentions[p]
  }

  function Sparing(purpose: Purpose, retention: int, now: int): GenericToken -> bool {
    (t: GenericToken) => !OlderThan(purpose, retention, now)(t)
  }

  /** Deleting one more purpose extends what has been purged, and counts only its own rows. */
  lemma {:induction false} PurgeOneMore(tokens: seq<GenericToken>, retentions: map<Purpose, int>, done: set<Purpose>,
          p: Purpose, now: int)
    requires p in retentions && p !in done
    ensures var left := PurgedTokens(Restrict(retentions, done), now, tokens);
      && Keep(left, Sparing(p, retentions[p], now)) == PurgedTokens(Restrict(retentions, done + {p}), now, tokens)
      && Count(left, OlderThan(p, retentions[p], now)) == Count(tokens, OlderThan(p, retentions[p], now))
  {
    if tokens != [] {
      PurgeOneMore(tokens[1..], retentions, done, p, now);
    }
  }

  lemma {:induction false} NothingToPurge(tokens: seq<GenericToken>, now: int)
    ensures PurgedTokens(map[], now, tokens) == tokens
  {
    if tokens != [] {
      NothingToPurge(tokens[1..], now);
    }
  }

  /** Deletes the rows of one purpose past their retention, or counts them on a dry run. */
  method DropOlder(db: Database, purpose: Purpose, retention: int, dryRun: bool) returns (count: nat)
    modifies db`tokens
    ensures count == Count(old(db.tokens), OlderThan(purpose, retention, db.now))
    ensures db.tokens == if dryRun then old(db.tokens) else Keep(old(db.tokens), Sparing(purpose, retention, db.now))
  {
    count := Count(db.tokens, OlderThan(purpose, retention, db.now));
    if !dryRun {
      db.tokens := Keep(db.tokens, Sparing(purpose, retention, db.now));
    }
  }

  /** How many rows of the purpose are past retention. */
  function Overaged(retentions: map<Purpose, int>, tokens: seq<GenericToken>, now: int, purpose: Purpose): nat
    requires purpose in retentions
  {
    Count(tokens, OlderThan(purpose, retentions[purpose], now))
  }

  /** The report names every one of the purposes with something to remove, and no other. */
  ghost predicate Reports(removed: map<Purpose, nat>, purposes: set<Purpose>, retentions: map<Purpose, int>,
          tokens: seq<GenericToken>, now: int)
    requires purposes <= retentions.Keys
  {
    && (forall p :: p in removed <==> p in purposes && 0 < Overaged(retentions, tokens, now, p))
    && (forall p :: p in removed && p in purposes ==> removed[p] == Overaged(retentions, tokens, now, p))
  }

  /**
   The command: deletes purpose by purpose, or only counts on a dry run. What it reports is
   the number of rows past retention in the table as it was, whichever way.
   */
  method PurgeTokens(db: Database, retentions: map<Purpose, int>, dryRun: bool) returns (removed: map<Purpose, nat>)
    modifies db`tokens
    ensures db.tokens == if dryRun then old(db.tokens) else PurgedTokens(retentions, db.now, old(db.tokens))
    ensures Reports(removed, retentions.Keys, retentions, old(db.tokens), db.now)
  {
    var todo := retentions.Keys;
    ghost var done: set<Purpose> := {};
    removed := map[];
    NothingToPurge(db.tokens, db.now);
    assert Restrict(retentions, done) == map[];
    while todo != {}
      invariant todo + done == retentions.Keys && todo !! done
      invariant db.tokens
        == if dryRun then old(db.tokens) else PurgedTokens(Restrict(retentions, done), db.now, old(db.tokens))
      invariant Reports(removed, done, retentions, old(db.tokens), db.now)
      decreases todo
    {
      var p :| p in todo;
      PurgeOneMore(old(db.tokens), retentions, done, p, db.now);
      var count := DropOlder(db, p, retentions[p], dryRun);
      if count > 0 {
        removed := removed[p := count];
      }
      todo, done := todo - {p}, done + {p};
    }
    assert Restrict(retentions, done) == retentions;
  }
}
