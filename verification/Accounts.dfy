/** Whether an e-mail address is really somebody's: the two questions, and the two resolvers. */
module Accounts {
  import opened Basics
  import opened Store
  import opened Purge
  import opened Capabilities

  // ------------------------------------------------------------ the predicates

  predicate Privileged(s: State, user: UserId) {
    user in s.accounts && (s.accounts[user].staff || s.accounts[user].superuser)
  }

  predicate EverLoggedIn(s: State, user: UserId) {
    user in s.accounts && s.accounts[user].everLoggedIn
  }

  /** Whether somebody has demonstrated control of the mailbox. Nobody has for no account. */
  predicate MailboxControlProven(policy: Policy, s: State, user: Option<UserId>, reserveInvitations: bool) {
    user.Some? &&
    (Privileged(s, user.value)
     || EmailVerified(s.addresses, user.value)
     || (reserveInvitations && HasOpenInvitation(policy, s, user.value)))
  }

  /** Whether the account is in use and must not be destroyed. */
  predicate AccountIsClaimed(policy: Policy, s: State, user: Option<UserId>, reserveInvitations: bool) {
    user.None? || EverLoggedIn(s, user.value) || MailboxControlProven(policy, s, user, reserveInvitations)
  }

  // -------------------------------------------------------------- the resolvers

  function HoldersOf(email: Email): Address -> bool {
    (x: Address) => x.email == email
  }

  /** The rows of the address, in whatever order the table returns them. */
  function RowsFor(s: State, email: Email): seq<Address> {
    Keep(s.addresses, HoldersOf(email))
  }

  function Users(rows: seq<Address>): seq<UserId> {
    seq(|rows|, i requires 0 <= i < |rows| => rows[i].user)
  }

  function Taken(policy: Policy, s: State, reserveInvitations: bool): Address -> bool {
    (x: Address) => x.verified || AccountIsClaimed(policy, s, Some(x.user), reserveInvitations)
  }

  function Proven(policy: Policy, s: State): Address -> bool {
    (x: Address) => x.verified || MailboxControlProven(policy, s, Some(x.user), true)
  }

  function Used(s: State): Address -> bool {
    (x: Address) => EverLoggedIn(s, x.user)
  }

  function Unused(s: State): Address -> bool {
    (x: Address) => !EverLoggedIn(s, x.user)
  }

  function FirstUser(rows: seq<Address>): Option<UserId> {
    if rows == [] then None else Some(rows[0].user)
  }

  /** Who established ownership of the address for registration, and who may be superseded if nobody has. */
  function Resolution(policy: Policy, s: State, email: Email, reserveInvitations: bool): (Option<UserId>, seq<UserId>) {
    var owner := FirstUser(Keep(RowsFor(s, email), Taken(policy, s, reserveInvitations)));
    (owner, if owner.Some? then [] else Users(RowsFor(s, email)))
  }

  /** The three outcomes of a provider: the proven owner, the accounts in use, and the abandoned ones. */
  function ProviderResolution(policy: Policy, s: State, email: Email): (Option<UserId>, seq<UserId>, seq<UserId>) {
    var rows := RowsFor(s, email);
    var owner := FirstUser(Keep(rows, Proven(policy, s)));
    if owner.Some? then (owner, [], []) else (None, Users(Keep(rows, Used(s))), Users(Keep(rows, Unused(s))))
  }

  lemma {:induction false} FirstFound(rows: seq<Address>, i: nat, p: Address -> bool)
    requires i < |rows| && p(rows[i]) && Keep(rows[..i], p) == []
    ensures FirstUser(Keep(rows, p)) == Some(rows[i].user)
  {
    if i > 0 {
      assert rows[..i][0] == rows[0] && rows[..i][1..] == rows[1..][..i - 1];
      FirstFound(rows[1..], i - 1, p);
    }
  }

  /** One more row looked at. */
  lemma KeepNext(rows: seq<Address>, i: nat, p: Address -> bool)
    requires i < |rows|
    ensures Keep(rows[..i + 1], p) == Keep(rows[..i], p) + if p(rows[i]) then [rows[i]] else []
    ensures Users(Keep(rows[..i + 1], p)) == Users(Keep(rows[..i], p)) + if p(rows[i]) then [rows[i].user] else []
  {
    assert rows[..i + 1] == rows[..i] + [rows[i]];
    KeepAppend(rows[..i], [rows[i]], p);
    KeepOne(rows[i], p);
  }

  method ResolveEmail(policy: Policy, s: State, email: Email, reserveInvitations: bool)
    returns (owner: Option<UserId>, superseded: seq<UserId>)
    ensures (owner, superseded) == Resolution(policy, s, email, reserveInvitations)
  {
    var rows := Keep(s.addresses, HoldersOf(email));
    ghost var taken := Taken(policy, s, reserveInvitations);
    superseded := [];
    for i := 0 to |rows|
      invariant Keep(rows[..i], taken) == []
      invariant superseded == Users(rows[..i])
    {
      if rows[i].verified || AccountIsClaimed(policy, s, Some(rows[i].user), reserveInvitations) {
        FirstFound(rows, i, taken);
        return Some(rows[i].user), [];
      }
      KeepNext(rows, i, taken);
      superseded := superseded + [rows[i].user];
    }
    assert rows[..|rows|] == rows;
    owner := None;
  }

  method ResolveEmailForProvider(policy: Policy, s: State, email: Email)
    returns (owner: Option<UserId>, occupied: seq<UserId>, abandoned: seq<UserId>)
    ensures (owner, occupied, abandoned) == ProviderResolution(policy, s, email)
  {
    var rows := Keep(s.addresses, HoldersOf(email));
    ghost var proven := Proven(policy, s);
    occupied, abandoned := [], [];
    for i := 0 to |rows|
      invariant Keep(rows[..i], proven) == []
      invariant occupied == Users(Keep(rows[..i], Used(s)))
      invariant abandoned == Users(Keep(rows[..i], Unused(s)))
    {
      var user := rows[i].user;
      if rows[i].verified || MailboxControlProven(policy, s, Some(user), true) {
        FirstFound(rows, i, proven);
        return Some(user), [], [];
      }
      KeepNext(rows, i, proven);
      KeepNext(rows, i, Used(s));
      KeepNext(rows, i, Unused(s));
      if EverLoggedIn(s, user) {
        occupied := occupied + [user];
      } else {
        abandoned := abandoned + [user];
      }
    }
    assert rows[..|rows|] == rows;
    owner := None;
  }

  /** What a registration may take over: `None` when the address is somebody's. */
  function SupersededAccounts(policy: Policy, s: State, email: Email, reserveInvitations: bool): Option<seq<UserId>> {
    var (owner, superseded) := Resolution(policy, s, email, reserveInvitations);
    if owner.Some? then None else Some(superseded)
  }

  // ------------------------------------------------------------------- the laws

  /** A live invitation of an account without a password. */
  ghost predicate Awaited(policy: Policy, s: State, user: UserId) {
    && !(user in s.accounts && s.accounts[user].usablePassword)
    && exists t :: t in s.tokens && t.user == user && t.purpose == Invitation
                   && s.now - policy.confirmationWindow <= t.created
  }

  /**
   The two questions, said of flags and rows alone. Having logged in is no proof of control of a
   mailbox: whoever registers an address first can log in to the account without ever seeing it.
   */
  lemma QuestionsExactly(policy: Policy, s: State, user: UserId, reserveInvitations: bool)
    ensures MailboxControlProven(policy, s, Some(user), reserveInvitations)
      <==> || (user in s.accounts && (s.accounts[user].staff || s.accounts[user].superuser))
           || (exists x :: x in s.addresses && x.user == user && x.verified)
           || (reserveInvitations && Awaited(policy, s, user))
    ensures AccountIsClaimed(policy, s, Some(user), reserveInvitations)
      <==> || (user in s.accounts && s.accounts[user].everLoggedIn)
           || (user in s.accounts && (s.accounts[user].staff || s.accounts[user].superuser))
           || (exists x :: x in s.addresses && x.user == user && x.verified)
           || (reserveInvitations && Awaited(policy, s, user))
    ensures !MailboxControlProven(policy, s, None, reserveInvitations)
    ensures AccountIsClaimed(policy, s, None, reserveInvitations)
  {
    if x :| x in s.addresses && x.user == user && x.verified {
      VerifiedSomewhere(s, x);
    }
    if EmailVerified(s.addresses, user) {
      var i :| 0 <= i < |s.addresses| && s.addresses[i].user == user && s.addresses[i].verified;
      assert s.addresses[i] in s.addresses;
    }
    var open := Keep(s.tokens, InvitationsFrom(user, s.now - policy.confirmationWindow));
    if open != [] {
      assert open[0] in open;
    }
  }

  /**
   The two resolvers stay in step: registration finds no owner exactly when a provider finds
   neither an owner nor an account in use, and then both would remove the same accounts, in
   the same order.
   */
  lemma ResolversInStep(policy: Policy, s: State, email: Email)
    ensures var (owner, superseded) := Resolution(policy, s, email, true);
      var (proven, occupied, abandoned) := ProviderResolution(policy, s, email);
      && (owner.None? <==> proven.None? && occupied == [])
      && (owner.None? ==> superseded == abandoned)
  {
    var rows := RowsFor(s, email);
    StepByRow(policy, s, rows);
    if Keep(rows, Taken(policy, s, true)) == [] {
      NobodyUsed(s, rows);
      assert Keep(rows, Unused(s)) == rows;
    }
  }

  lemma {:induction false} StepByRow(policy: Policy, s: State, rows: seq<Address>)
    ensures Keep(rows, Taken(policy, s, true)) == []
      <==> Keep(rows, Proven(policy, s)) == [] && Keep(rows, Used(s)) == []
  {
    if rows != [] {
      StepByRow(policy, s, rows[1..]);
    }
  }

  lemma NobodyUsed(s: State, rows: seq<Address>)
    requires Keep(rows, Used(s)) == []
    ensures Keep(rows, Unused(s)) == rows
  {
    forall x | x in rows ensures Unused(s)(x) {
      assert !Used(s)(x);
    }
    KeepAll(rows, Unused(s));
  }

  /** Lifting the reservation can only free an address: what the administrator finds taken is taken for everybody. */
  lemma ReissueIsWeaker(policy: Policy, s: State, email: Email)
    ensures Resolution(policy, s, email, true).0.None?
      ==> Resolution(policy, s, email, false) == Resolution(policy, s, email, true)
  {
    if Resolution(policy, s, email, true).0.None? {
      var rows := RowsFor(s, email);
      forall x | x in rows ensures !Taken(policy, s, false)(x) {
        assert !Taken(policy, s, true)(x);
      }
      KeepNone(rows, Taken(policy, s, false));
    }
  }

  /** An owner really holds the address and is claimed; nobody superseded is. */
  lemma ResolutionIsSound(policy: Policy, s: State, email: Email, reserveInvitations: bool, user: UserId)
    ensures var (owner, superseded) := Resolution(policy, s, email, reserveInvitations);
      && (owner == Some(user) ==> AccountIsClaimed(policy, s, Some(user), reserveInvitations)
                                  && exists x :: x in s.addresses && x.email == email && x.user == user)
      && (user in superseded ==> !AccountIsClaimed(policy, s, Some(user), reserveInvitations)
                                 && exists x :: x in s.addresses && x.email == email && x.user == user)
  {
    var rows := RowsFor(s, email);
    var taken := Keep(rows, Taken(policy, s, reserveInvitations));
    var (owner, superseded) := Resolution(policy, s, email, reserveInvitations);
    if owner == Some(user) {
      assert taken[0] in taken && taken[0] in s.addresses;
      VerifiedSomewhere(s, taken[0]);
    }
    if user in superseded {
      var i :| 0 <= i < |superseded| && superseded[i] == user;
      assert rows[i] in rows && rows[i] !in taken;
    }
  }

  lemma VerifiedKept(rows: seq<Address>, rows': seq<Address>, user: UserId)
    requires EmailVerified(rows, user)
    requires forall x :: x in rows && x.user == user && x.verified ==> x in rows'
    ensures EmailVerified(rows', user)
  {
    var i :| 0 <= i < |rows| && rows[i].user == user && rows[i].verified;
    assert rows[i] in rows';
  }

  lemma VerifiedSomewhere(s: State, x: Address)
    requires x in s.addresses
    ensures x.verified ==> EmailVerified(s.addresses, x.user)
  {
    var i :| 0 <= i < |s.addresses| && s.addresses[i] == x;
  }
}
