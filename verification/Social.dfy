/** Social login: what the addresses a provider vouches for decide, and what the login then does. */
module Social {
  import opened Basics
  import opened Store
  import opened Purge
  import opened Capabilities
  import opened Accounts
  import opened Registration

  /** What the addresses come to: an account to link, one of two refusals, or a sign-up. */
  datatype Verdict = Link(owner: UserId) | Conflict | LocalUnverified | SignUp(superseded: seq<UserId>)

  datatype Vouched = Vouched(email: Email, verified: bool)

  datatype Refusal =
    | EmailUnverified
    | EmailConflict
    | LocalAccountUnverified
    | SignupClosed
    | SignupNotAllowed
    | SecondFactorFirst(owner: UserId)
    | InactiveAccount
    | NotVerifiedEmail

  /** A verified login: the account its identity is connected to already, and the addresses it carries. */
  datatype SocialLogin = SocialLogin(connected: Option<UserId>, linking: bool, emails: seq<Vouched>)

  // ------------------------------------------------------------------ the verdict

  function FirstOwner(policy: Policy, s: State, emails: seq<Email>): Option<UserId> {
    if emails == [] then None
    else
      var owner := ProviderResolution(policy, s, emails[0]).0;
      if owner.Some? then owner else FirstOwner(policy, s, emails[1..])
  }

  function Blocked(policy: Policy, s: State, emails: seq<Email>): seq<UserId> {
    if emails == [] then [] else ProviderResolution(policy, s, emails[0]).1 + Blocked(policy, s, emails[1..])
  }

  function Abandoned(policy: Policy, s: State, emails: seq<Email>): seq<UserId> {
    if emails == [] then [] else ProviderResolution(policy, s, emails[0]).2 + Abandoned(policy, s, emails[1..])
  }

  function VerdictOn(policy: Policy, s: State, linking: bool, emails: seq<Email>): Verdict {
    var owner := FirstOwner(policy, s, emails);
    if owner.Some? then if linking then Link(owner.value) else Conflict
    else if Blocked(policy, s, emails) != [] then if linking then LocalUnverified else Conflict
    else SignUp(Abandoned(policy, s, emails))
  }

  lemma {:induction false} BlockedAppend(policy: Policy, s: State, emails: seq<Email>, email: Email)
    ensures Blocked(policy, s, emails + [email]) == Blocked(policy, s, emails) + Blocked(policy, s, [email])
  {
    if emails == [] {
      assert emails + [email] == [email];
    } else {
      var both := emails + [email];
      assert both[0] == emails[0] && both[1..] == emails[1..] + [email];
      BlockedAppend(policy, s, emails[1..], email);
      var first := ProviderResolution(policy, s, emails[0]).1;
      var rest, last := Blocked(policy, s, emails[1..]), Blocked(policy, s, [email]);
      assert first + (rest + last) == (first + rest) + last;
    }
  }

  lemma {:induction false} AbandonedAppend(policy: Policy, s: State, emails: seq<Email>, email: Email)
    ensures Abandoned(policy, s, emails + [email]) == Abandoned(policy, s, emails) + Abandoned(policy, s, [email])
  {
    if emails == [] {
      assert emails + [email] == [email];
    } else {
      var both := emails + [email];
      assert both[0] == emails[0] && both[1..] == emails[1..] + [email];
      AbandonedAppend(policy, s, emails[1..], email);
      var first := ProviderResolution(policy, s, emails[0]).2;
      var rest, last := Abandoned(policy, s, emails[1..]), Abandoned(policy, s, [email]);
      assert first + (rest + last) == (first + rest) + last;
    }
  }

  lemma NextEmail(policy: Policy, s: State, emails: seq<Email>, i: nat)
    requires i < |emails|
    ensures var (_, occupied, abandoned) := ProviderResolution(policy, s, emails[i]);
      && Blocked(policy, s, emails[..i + 1]) == Blocked(policy, s, emails[..i]) + occupied
      && Abandoned(policy, s, emails[..i + 1]) == Abandoned(policy, s, emails[..i]) + abandoned
  {
    assert emails[..i + 1] == emails[..i] + [emails[i]];
    BlockedAppend(policy, s, emails[..i], emails[i]);
    AbandonedAppend(policy, s, emails[..i], emails[i]);
    assert [emails[i]][1..] == [];
  }

  /** Every address is looked at before a refusal: an owner among the later ones is still the answer. */
  method ResolveAddresses(policy: Policy, s: State, linking: bool, emails: seq<Email>) returns (verdict: Verdict)
    ensures verdict == VerdictOn(policy, s, linking, emails)
  {
    var superseded, blocked: seq<UserId> := [], [];
    for i := 0 to |emails|
      invariant FirstOwner(policy, s, emails) == FirstOwner(policy, s, emails[i..])
      invariant blocked == Blocked(policy, s, emails[..i])
      invariant superseded == Abandoned(policy, s, emails[..i])
    {
      var owner, occupied, abandoned := ResolveEmailForProvider(policy, s, emails[i]);
      assert emails[i..][0] == emails[i] && emails[i..][1..] == emails[i + 1..];
      if owner.Some? {
        return if linking then Link(owner.value) else Conflict;
      }
      NextEmail(policy, s, emails, i);
      blocked := blocked + occupied;
      superseded := superseded + abandoned;
    }
    assert emails[..|emails|] == emails;
    if blocked != [] {
      return if linking then LocalUnverified else Conflict;
    }
    return SignUp(superseded);
  }

  // --------------------------------------------------- what the verdict means

  /** The row is confirmed, or its account is privileged, has another confirmed address, or awaits its invitation. */
  ghost predicate OwnsAddress(policy: Policy, s: State, x: Address) {
    || x.verified
    || (x.user in s.accounts && (s.accounts[x.user].staff || s.accounts[x.user].superuser))
    || (exists y :: y in s.addresses && y.user == x.user && y.verified)
    || Awaited(policy, s, x.user)
  }

  lemma OwnsExactly(policy: Policy, s: State, x: Address)
    ensures OwnsAddress(policy, s, x) <==> Proven(policy, s)(x)
  {
    QuestionsExactly(policy, s, x.user, true);
  }

  /** Somebody proved control of one of the addresses. */
  ghost predicate SomeOwner(policy: Policy, s: State, emails: seq<Email>) {
    exists x :: x in s.addresses && x.email in emails && OwnsAddress(policy, s, x)
  }

  /** An account that has logged in holds one of the addresses. */
  ghost predicate SomeOccupant(s: State, emails: seq<Email>) {
    exists x :: x in s.addresses && x.email in emails && x.user in s.accounts && s.accounts[x.user].everLoggedIn
  }

  ghost predicate Holds(s: State, user: UserId, emails: seq<Email>) {
    exists x :: x in s.addresses && x.email in emails && x.user == user
  }

  lemma OwnerOfOne(policy: Policy, s: State, email: Email)
    ensures ProviderResolution(policy, s, email).0.Some?
      <==> exists x :: x in s.addresses && x.email == email && OwnsAddress(policy, s, x)
  {
    forall x | x in s.addresses ensures OwnsAddress(policy, s, x) <==> Proven(policy, s)(x) {
      OwnsExactly(policy, s, x);
    }
    var hits := Keep(RowsFor(s, email), Proven(policy, s));
    if hits != [] {
      assert hits[0] in hits;
    }
  }

  lemma {:induction false} OwnerExactly(policy: Policy, s: State, emails: seq<Email>)
    ensures FirstOwner(policy, s, emails).Some? <==> SomeOwner(policy, s, emails)
  {
    if emails != [] {
      OwnerOfOne(policy, s, emails[0]);
      OwnerExactly(policy, s, emails[1..]);
      assert forall e :: e in emails <==> e == emails[0] || e in emails[1..];
    }
  }

  lemma OccupantOfOne(policy: Policy, s: State, email: Email)
    requires ProviderResolution(policy, s, email).0.None?
    ensures ProviderResolution(policy, s, email).1 != []
      <==> exists x :: x in s.addresses && x.email == email && Used(s)(x)
  {
    var hits := Keep(RowsFor(s, email), Used(s));
    if hits != [] {
      assert hits[0] in hits;
    }
  }

  lemma {:induction false} OccupantExactly(policy: Policy, s: State, emails: seq<Email>)
    requires FirstOwner(policy, s, emails).None?
    ensures Blocked(policy, s, emails) != [] <==> SomeOccupant(s, emails)
  {
    if emails != [] {
      OccupantOfOne(policy, s, emails[0]);
      OccupantExactly(policy, s, emails[1..]);
      assert forall e :: e in emails <==> e == emails[0] || e in emails[1..];
    }
  }

  /** The verdict, said of the set of rows and the set of addresses alone. */
  lemma VerdictExactly(policy: Policy, s: State, linking: bool, emails: seq<Email>)
    ensures var verdict := VerdictOn(policy, s, linking, emails);
      && (verdict.Link? <==> linking && SomeOwner(policy, s, emails))
      && (verdict.Conflict? <==> !linking && (SomeOwner(policy, s, emails) || SomeOccupant(s, emails)))
      && (verdict.LocalUnverified? <==> linking && !SomeOwner(policy, s, emails) && SomeOccupant(s, emails))
      && (verdict.SignUp? <==> !SomeOwner(policy, s, emails) && !SomeOccupant(s, emails))
  {
    OwnerExactly(policy, s, emails);
    if FirstOwner(policy, s, emails).None? {
      OccupantExactly(policy, s, emails);
    }
  }

  lemma {:induction false} AbandonedExactly(policy: Policy, s: State, emails: seq<Email>, user: UserId)
    requires FirstOwner(policy, s, emails).None?
    ensures user in Abandoned(policy, s, emails) <==> Holds(s, user, emails) && !EverLoggedIn(s, user)
  {
    if emails != [] {
      AbandonedOfOne(policy, s, emails[0], user);
      AbandonedExactly(policy, s, emails[1..], user);
      assert forall e :: e in emails <==> e == emails[0] || e in emails[1..];
    }
  }

  lemma AbandonedOfOne(policy: Policy, s: State, email: Email, user: UserId)
    requires ProviderResolution(policy, s, email).0.None?
    ensures user in ProviderResolution(policy, s, email).2
      <==> !EverLoggedIn(s, user) && exists x :: x in s.addresses && x.email == email && x.user == user
  {
    var rows := Keep(RowsFor(s, email), Unused(s));
    if user in Users(rows) {
      var i :| 0 <= i < |rows| && Users(rows)[i] == user;
      assert rows[i] in rows;
    }
    if x :| x in s.addresses && x.email == email && x.user == user && !EverLoggedIn(s, user) {
      assert x in rows;
      var i :| 0 <= i < |rows| && rows[i] == x;
      assert Users(rows)[i] == user;
    }
  }

  /** The same rows and the same addresses, in another order. */
  ghost predicate Shuffled(s: State, s': State) {
    s' == s.(addresses := s'.addresses) && forall x :: x in s.addresses <==> x in s'.addresses
  }

  lemma ShuffledOwns(policy: Policy, s: State, s': State, x: Address)
    requires Shuffled(s, s')
    ensures OwnsAddress(policy, s, x) == OwnsAddress(policy, s', x)
  {
    assert Awaited(policy, s, x.user) == Awaited(policy, s', x.user);
  }

  lemma ShuffledOwner(policy: Policy, s: State, s': State, emails: seq<Email>, emails': seq<Email>)
    requires Shuffled(s, s') && forall e :: e in emails ==> e in emails'
    requires SomeOwner(policy, s, emails)
    ensures SomeOwner(policy, s', emails')
  {
    var x :| x in s.addresses && x.email in emails && OwnsAddress(policy, s, x);
    ShuffledOwns(policy, s, s', x);
    assert x in s'.addresses && x.email in emails' && OwnsAddress(policy, s', x);
  }

  lemma ShuffledOccupant(s: State, s': State, emails: seq<Email>, emails': seq<Email>)
    requires Shuffled(s, s') && forall e :: e in emails ==> e in emails'
    requires SomeOccupant(s, emails)
    ensures SomeOccupant(s', emails')
  {
    var x :| x in s.addresses && x.email in emails && x.user in s.accounts && s.accounts[x.user].everLoggedIn;
    assert x in s'.addresses && x.email in emails';
  }

  lemma ShuffledMeaning(policy: Policy, s: State, s': State, emails: seq<Email>, emails': seq<Email>)
    requires Shuffled(s, s') && forall e :: e in emails <==> e in emails'
    ensures SomeOwner(policy, s, emails) == SomeOwner(policy, s', emails')
    ensures SomeOccupant(s, emails) == SomeOccupant(s', emails')
  {
    if SomeOwner(policy, s, emails) { ShuffledOwner(policy, s, s', emails, emails'); }
    if SomeOwner(policy, s', emails') { ShuffledOwner(policy, s', s, emails', emails); }
    if SomeOccupant(s, emails) { ShuffledOccupant(s, s', emails, emails'); }
    if SomeOccupant(s', emails') { ShuffledOccupant(s', s, emails', emails); }
  }

  /**
   The verdict is order-free: neither the order the provider lists the addresses in nor the
   order the database returns the rows in decides between linking, refusing and signing up,
   nor which accounts a sign-up removes.
   */
  lemma VerdictIsOrderFree(policy: Policy, s: State, s': State, linking: bool, emails: seq<Email>, emails': seq<Email>)
    requires Shuffled(s, s') && forall e :: e in emails <==> e in emails'
    ensures var verdict, verdict' := VerdictOn(policy, s, linking, emails), VerdictOn(policy, s', linking, emails');
      && verdict.Link? == verdict'.Link? && verdict.Conflict? == verdict'.Conflict?
      && verdict.LocalUnverified? == verdict'.LocalUnverified? && verdict.SignUp? == verdict'.SignUp?
      && (verdict.SignUp? ==> Members(verdict.superseded) == Members(verdict'.superseded))
  {
    VerdictExactly(policy, s, linking, emails);
    VerdictExactly(policy, s', linking, emails');
    ShuffledMeaning(policy, s, s', emails, emails');
    var verdict, verdict' := VerdictOn(policy, s, linking, emails), VerdictOn(policy, s', linking, emails');
    if verdict.SignUp? {
      forall user ensures user in verdict.superseded <==> user in verdict'.superseded {
        AbandonedExactly(policy, s, emails, user);
        AbandonedExactly(policy, s', emails', user);
      }
    }
  }

  lemma {:induction false} OwnerIsProven(policy: Policy, s: State, emails: seq<Email>, user: UserId)
    requires FirstOwner(policy, s, emails) == Some(user)
    ensures MailboxControlProven(policy, s, Some(user), true) && Holds(s, user, emails)
  {
    var hits := Keep(RowsFor(s, emails[0]), Proven(policy, s));
    if hits != [] {
      var x := hits[0];
      assert x in hits && x in s.addresses && x.email in emails;
      VerifiedSomewhere(s, x);
    } else {
      OwnerIsProven(policy, s, emails[1..], user);
      assert forall e :: e in emails[1..] ==> e in emails;
    }
  }

  /**
   The verdict is sound. An account it links to holds one of the addresses and is privileged, has
   a confirmed address, or awaits its invitation; that it was ever logged in to is not enough. An
   account a sign-up removes holds one of the addresses and is none of these, and was never
   logged in to.
   */
  lemma VerdictIsSound(policy: Policy, s: State, linking: bool, emails: seq<Email>, user: UserId)
    ensures var verdict := VerdictOn(policy, s, linking, emails);
      var established :=
        || (user in s.accounts && (s.accounts[user].staff || s.accounts[user].superuser))
        || (exists y :: y in s.addresses && y.user == user && y.verified)
        || Awaited(policy, s, user);
      && (verdict == Link(user) ==> linking && established && Holds(s, user, emails))
      && (verdict.SignUp? && user in verdict.superseded ==>
            !established && !(user in s.accounts && s.accounts[user].everLoggedIn) && Holds(s, user, emails))
  {
    var verdict := VerdictOn(policy, s, linking, emails);
    QuestionsExactly(policy, s, user, true);
    if verdict == Link(user) {
      OwnerIsProven(policy, s, emails, user);
    }
    if verdict.SignUp? && user in verdict.superseded {
      AbandonedExactly(policy, s, emails, user);
      NobodyRemovedOwns(policy, s, emails, user);
    }
  }

  lemma NobodyRemovedOwns(policy: Policy, s: State, emails: seq<Email>, user: UserId)
    requires FirstOwner(policy, s, emails).None? && Holds(s, user, emails)
    ensures !MailboxControlProven(policy, s, Some(user), true)
  {
    OwnerExactly(policy, s, emails);
    var x :| x in s.addresses && x.email in emails && x.user == user;
    OwnsExactly(policy, s, x);
    assert !OwnsAddress(policy, s, x);
  }

  /**
   Which account is linked: the one of the first owned row, in table order, of the first of the
   provider's addresses that anybody owns.
   */
  lemma {:induction false} OwnerIsFirst(policy: Policy, s: State, emails: seq<Email>, user: UserId)
    requires FirstOwner(policy, s, emails) == Some(user)
    ensures exists i: nat, k: nat :: FirstOwned(policy, s, emails, user, i, k)
  {
    if ProviderResolution(policy, s, emails[0]).0.Some? {
      var k := FirstOfOne(policy, s, emails[0], user);
      assert FirstOwned(policy, s, emails, user, 0, k);
    } else {
      OwnerOfOne(policy, s, emails[0]);
      OwnerIsFirst(policy, s, emails[1..], user);
      var i: nat, k: nat :| FirstOwned(policy, s, emails[1..], user, i, k);
      assert forall e :: e in emails[..i + 1] ==> e == emails[0] || e in emails[1..][..i];
      assert FirstOwned(policy, s, emails, user, i + 1, k);
    }
  }

  ghost predicate FirstOwned(policy: Policy, s: State, emails: seq<Email>, user: UserId, i: nat, k: nat) {
    && i < |emails| && k < |s.addresses|
    && s.addresses[k].user == user && s.addresses[k].email == emails[i] && OwnsAddress(policy, s, s.addresses[k])
    && (forall l :: 0 <= l < k && s.addresses[l].email == emails[i] ==> !OwnsAddress(policy, s, s.addresses[l]))
    && (forall x :: x in s.addresses && x.email in emails[..i] ==> !OwnsAddress(policy, s, x))
  }

  lemma FirstOfOne(policy: Policy, s: State, email: Email, user: UserId) returns (k: nat)
    requires ProviderResolution(policy, s, email).0 == Some(user)
    ensures k < |s.addresses| && s.addresses[k].user == user && s.addresses[k].email == email
    ensures OwnsAddress(policy, s, s.addresses[k])
    ensures forall l :: 0 <= l < k && s.addresses[l].email == email ==> !OwnsAddress(policy, s, s.addresses[l])
  {
    var mine := (x: Address) => x.email == email && Proven(policy, s)(x);
    KeepKeep(s.addresses, HoldersOf(email), Proven(policy, s), mine);
    k := FirstKept(s.addresses, mine);
    forall l | 0 <= l <= k ensures OwnsAddress(policy, s, s.addresses[l]) <==> Proven(policy, s)(s.addresses[l]) {
      OwnsExactly(policy, s, s.addresses[l]);
    }
  }

  lemma {:induction false} FirstKept(rows: seq<Address>, p: Address -> bool) returns (k: nat)
    requires Keep(rows, p) != []
    ensures k < |rows| && rows[k] == Keep(rows, p)[0] && p(rows[k]) && forall l :: 0 <= l < k ==> !p(rows[l])
  {
    if p(rows[0]) {
      k := 0;
    } else {
      var rest := FirstKept(rows[1..], p);
      k := rest + 1;
      forall l | 0 <= l < k ensures !p(rows[l]) {
        assert l > 0 ==> rows[l] == rows[1..][l - 1];
      }
    }
  }

  // -------------------------------------------------------------------- the login

  /** Who is let in, whether the identity is connected to them on the way, and the database after. */
  datatype Admission = Admission(s: State, user: UserId, connects: bool)

  function VerifiedEmails(emails: seq<Vouched>): seq<Email> {
    if emails == [] then []
    else if emails[0].verified then [emails[0].email] + VerifiedEmails(emails[1..])
    else VerifiedEmails(emails[1..])
  }

  /** The addresses of a new account, as the provider gave them. */
  function Grafted(newcomer: UserId, emails: seq<Vouched>): seq<Address> {
    seq(|emails|, i requires 0 <= i < |emails| => Address(emails[i].email, newcomer, emails[i].verified, i == 0))
  }

  /** The account behind a login that matched nothing; a provider leaves it without a password. */
  function SignedUpSocially(s: State, gone: set<UserId>, newcomer: UserId, account: Account,
          emails: seq<Vouched>): State {
    var left := Erased(s, gone);
    left.(accounts := left.accounts[newcomer := account.(usablePassword := false)],
          addresses := left.addresses + Grafted(newcomer, emails))
  }

  /** The accounts a login removes when it signs up. */
  function Removed(policy: Policy, s: State, login: SocialLogin): set<UserId> {
    var verdict := VerdictOn(policy, s, login.linking, VerifiedEmails(login.emails));
    if verdict.SignUp? then Members(verdict.superseded) else {}
  }

  /** The accounts a login removes; one that is connected already removes none. */
  function Displaced(policy: Policy, s: State, login: SocialLogin): set<UserId> {
    if login.connected.Some? then {} else Removed(policy, s, login)
  }

  function SignUpOrLink(policy: Policy, site: Site, s: State, login: SocialLogin, newcomer: UserId,
          account: Account): Result<Admission, Refusal> {
    var emails := VerifiedEmails(login.emails);
    if emails == [] && site.requireVerifiedEmail then Err(EmailUnverified)
    else
      match VerdictOn(policy, s, login.linking, emails)
      case Conflict => Err(EmailConflict)
      case LocalUnverified => Err(LocalAccountUnverified)
      case Link(owner) =>
        if SecondFactorPending(policy, s.accounts, owner) then Err(SecondFactorFirst(owner))
        else Ok(Admission(s, owner, true))
      case SignUp(superseded) =>
        if !site.openForSignup then Err(SignupClosed)
        else if !site.autoSignup then Err(SignupNotAllowed)
        else Ok(Admission(SignedUpSocially(s, Members(superseded), newcomer, account, login.emails), newcomer, true))
  }

  function Found(policy: Policy, site: Site, s: State, login: SocialLogin, newcomer: UserId,
          account: Account): Result<Admission, Refusal> {
    if login.connected.Some? then Ok(Admission(s, login.connected.value, false))
    else SignUpOrLink(policy, site, s, login, newcomer, account)
  }

  function Stamped(site: Site, s: State, user: UserId): State {
    if site.updateLastLogin && user in s.accounts
    then s.(accounts := s.accounts[user := s.accounts[user].(everLoggedIn := true)]) else s
  }

  /** The gates a login by password passes too, and then the stamp; a refusal undoes everything. */
  function Authenticate(policy: Policy, site: Site, s: State, login: SocialLogin, newcomer: UserId,
          account: Account): Result<Admission, Refusal> {
    var found := Found(policy, site, s, login, newcomer, account);
    if found.Err? then found
    else
      var refusal := GateRefusal(site, found.value.s, found.value.user);
      if refusal.Some? then Err(refusal.value)
      else Ok(found.value.(s := Stamped(site, found.value.s, found.value.user)))
  }

  lemma NobodyEvicted(rows: Whitelist)
    ensures Evicted(rows, {}) == rows
  {
  }

  method SignUpAccount(db: Database, site: Site, login: SocialLogin, superseded: seq<UserId>, newcomer: UserId,
          account: Account)
    returns (refused: Option<Refusal>)
    modifies db`accounts, db`addresses, db`tokens, db`whitelist
    ensures refused == if !site.openForSignup then Some(SignupClosed)
                       else if !site.autoSignup then Some(SignupNotAllowed) else None
    ensures refused.Some? ==> Snapshot(db) == old(Snapshot(db)) && db.whitelist == old(db.whitelist)
    ensures refused.None? ==>
      && Snapshot(db) == SignedUpSocially(old(Snapshot(db)), Members(superseded), newcomer, account, login.emails)
      && db.whitelist == Evicted(old(db.whitelist), Members(superseded))
  {
    if !site.openForSignup {
      return Some(SignupClosed);
    }
    if !site.autoSignup {
      return Some(SignupNotAllowed);
    }
    DeleteUsers(db, superseded);
    db.accounts := db.accounts[newcomer := account.(usablePassword := false)];
    db.addresses := db.addresses + Grafted(newcomer, login.emails);
    return None;
  }

  /** Links, refuses or signs up; a link waits for the second factor of the account. */
  method FindOrCreate(db: Database, policy: Policy, site: Site, login: SocialLogin, newcomer: UserId, account: Account)
    returns (user: Result<UserId, Refusal>, connects: bool)
    modifies db`accounts, db`addresses, db`tokens, db`whitelist
    ensures match SignUpOrLink(policy, site, old(Snapshot(db)), login, newcomer, account)
      case Ok(admission) => user == Ok(admission.user) && connects && Snapshot(db) == admission.s
        && db.whitelist == Evicted(old(db.whitelist), Removed(policy, old(Snapshot(db)), login))
      case Err(refusal) =>
        user == Err(refusal) && Snapshot(db) == old(Snapshot(db)) && db.whitelist == old(db.whitelist)
  {
    connects := true;
    var emails := VerifiedEmails(login.emails);
    if emails == [] && site.requireVerifiedEmail {
      return Err(EmailUnverified), false;
    }
    var verdict := ResolveAddresses(policy, Snapshot(db), login.linking, emails);
    match verdict
    case Conflict => return Err(EmailConflict), false;
    case LocalUnverified => return Err(LocalAccountUnverified), false;
    case Link(owner) =>
      if SecondFactorPending(policy, db.accounts, owner) {
        return Err(SecondFactorFirst(owner)), false;
      }
      NobodyEvicted(db.whitelist);
      return Ok(owner), true;
    case SignUp(superseded) =>
      var refused := SignUpAccount(db, site, login, superseded, newcomer, account);
      if refused.Some? {
        return Err(refused.value), false;
      }
      return Ok(newcomer), true;
  }

  method FindAccount(db: Database, policy: Policy, site: Site, login: SocialLogin, newcomer: UserId, account: Account)
    returns (user: Result<UserId, Refusal>, connects: bool)
    modifies db`accounts, db`addresses, db`tokens, db`whitelist
    ensures match Found(policy, site, old(Snapshot(db)), login, newcomer, account)
      case Ok(admission) => user == Ok(admission.user) && connects == admission.connects && Snapshot(db) == admission.s
        && db.whitelist == Evicted(old(db.whitelist), Displaced(policy, old(Snapshot(db)), login))
      case Err(refusal) =>
        user == Err(refusal) && Snapshot(db) == old(Snapshot(db)) && db.whitelist == old(db.whitelist)
  {
    if login.connected.Some? {
      NobodyEvicted(db.whitelist);
      return Ok(login.connected.value), false;
    }
    user, connects := FindOrCreate(db, policy, site, login, newcomer, account);
  }

  /** The gates after authentication: an active account, and a confirmed address where that is mandatory. */
  function GateRefusal(site: Site, s: State, user: UserId): Option<Refusal> {
    if !IsActive(s.accounts, user) then Some(InactiveAccount)
    else if site.verificationMandatory && !EmailVerified(s.addresses, user) then Some(NotVerifiedEmail)
    else None
  }

  method StampLogin(db: Database, site: Site, user: UserId)
    requires user in db.accounts
    modifies db`accounts
    ensures Snapshot(db) == Stamped(site, old(Snapshot(db)), user)
  {
    if site.updateLastLogin {
      db.accounts := db.accounts[user := db.accounts[user].(everLoggedIn := true)];
    }
  }

  /** One transaction: whatever refuses the login also undoes the sign-up, the deletions and the link. */
  method AuthenticateSocialLogin(db: Database, policy: Policy, site: Site, login: SocialLogin, newcomer: UserId,
          account: Account)
    returns (user: Result<UserId, Refusal>, connects: bool)
    modifies db`accounts, db`addresses, db`tokens, db`whitelist
    ensures match Authenticate(policy, site, old(Snapshot(db)), login, newcomer, account)
      case Ok(admission) => user == Ok(admission.user) && connects == admission.connects && Snapshot(db) == admission.s
        && db.whitelist == Evicted(old(db.whitelist), Displaced(policy, old(Snapshot(db)), login))
      case Err(refusal) =>
        user == Err(refusal) && Snapshot(db) == old(Snapshot(db)) && db.whitelist == old(db.whitelist)
  {
    var accounts, addresses, tokens, whitelist := db.accounts, db.addresses, db.tokens, db.whitelist;
    user, connects := FindAccount(db, policy, site, login, newcomer, account);
    if user.Ok? {
      var refusal := GateRefusal(site, Snapshot(db), user.value);
      if refusal.None? {
        StampLogin(db, site, user.value);
        return user, connects;
      }
      user := Err(refusal.value);
    }
    db.accounts, db.addresses, db.tokens, db.whitelist := accounts, addresses, tokens, whitelist;
    return user, false;
  }

  lemma {:induction false} VouchedEmails(emails: seq<Vouched>, email: Email)
    ensures email in VerifiedEmails(emails) <==> Vouched(email, true) in emails
  {
    if emails != [] {
      VouchedEmails(emails[1..], email);
    }
  }

  /** An address the provider vouches for belongs to somebody, or to an account that has logged in. */
  ghost predicate OwnedVouched(policy: Policy, s: State, login: SocialLogin) {
    exists x :: x in s.addresses && Vouched(x.email, true) in login.emails && OwnsAddress(policy, s, x)
  }

  ghost predicate UsedVouched(s: State, login: SocialLogin) {
    exists x :: x in s.addresses && Vouched(x.email, true) in login.emails
                && x.user in s.accounts && s.accounts[x.user].everLoggedIn
  }

  lemma VouchedMeaning(policy: Policy, s: State, login: SocialLogin)
    ensures SomeOwner(policy, s, VerifiedEmails(login.emails)) <==> OwnedVouched(policy, s, login)
    ensures SomeOccupant(s, VerifiedEmails(login.emails)) <==> UsedVouched(s, login)
    ensures VerifiedEmails(login.emails) == [] <==> forall v :: v in login.emails ==> !v.verified
  {
    var emails := VerifiedEmails(login.emails);
    forall e ensures e in emails <==> Vouched(e, true) in login.emails {
      VouchedEmails(login.emails, e);
    }
    if emails != [] {
      assert emails[0] in emails;
    }
    if v :| v in login.emails && v.verified {
      assert v == Vouched(v.email, true) && v.email in emails;
    }
  }

  /**
   What a login without a connection comes to before the gates, each outcome exactly: an account
   is linked when some vouched address is owned, linking is on and no second factor is owed; an
   address that is merely in use is refused; only free addresses sign up, where that is open.
   */
  lemma LoginExactly(policy: Policy, site: Site, s: State, login: SocialLogin, newcomer: UserId, account: Account)
    ensures var r := SignUpOrLink(policy, site, s, login, newcomer, account);
      var nothing := site.requireVerifiedEmail && forall v :: v in login.emails ==> !v.verified;
      var owned, used := OwnedVouched(policy, s, login), UsedVouched(s, login);
      && (r == Err(EmailUnverified) <==> nothing)
      && (r == Err(EmailConflict) <==> !nothing && !login.linking && (owned || used))
      && (r == Err(LocalAccountUnverified) <==> !nothing && login.linking && !owned && used)
      && (r == Err(SignupClosed) <==> !nothing && !owned && !used && !site.openForSignup)
      && (r == Err(SignupNotAllowed) <==> !nothing && !owned && !used && site.openForSignup && !site.autoSignup)
      && (r.Ok? && r.value.s != s ==>
            !owned && !used && site.openForSignup && site.autoSignup && r.value.user == newcomer)
      && (r.Ok? && (owned || used) ==> login.linking && owned && r.value.s == s)
      && (r.Ok? ==> r.value.connects)
      && (r.Err? && r.error.SecondFactorFirst? ==>
            && login.linking && owned && policy.totpMode != Off
            && (policy.totpMode == Required || (r.error.owner in s.accounts && s.accounts[r.error.owner].totp)))
  {
    var emails := VerifiedEmails(login.emails);
    VouchedMeaning(policy, s, login);
    VerdictExactly(policy, s, login.linking, emails);
  }

  /** An identity that is connected reaches its account whatever the addresses say, and is not connected again. */
  lemma ConnectedExactly(policy: Policy, site: Site, s: State, login: SocialLogin, newcomer: UserId, account: Account)
    ensures var r := Found(policy, site, s, login, newcomer, account);
      && (login.connected.Some? ==>
            r.Ok? && r.value.s == s && r.value.user == login.connected.value && !r.value.connects)
      && (login.connected.None? ==> r == SignUpOrLink(policy, site, s, login, newcomer, account))
  {
  }

  /** Who loses account and sessions: whoever holds a vouched address, when nothing is connected, owned or used. */
  lemma DisplacedExactly(policy: Policy, s: State, login: SocialLogin, user: UserId)
    ensures user in Displaced(policy, s, login)
      <==> login.connected.None? && !OwnedVouched(policy, s, login) && !UsedVouched(s, login)
           && exists x :: x in s.addresses && Vouched(x.email, true) in login.emails && x.user == user
  {
    var emails := VerifiedEmails(login.emails);
    VouchedMeaning(policy, s, login);
    VerdictExactly(policy, s, login.linking, emails);
    forall e ensures e in emails <==> Vouched(e, true) in login.emails {
      VouchedEmails(login.emails, e);
    }
    if VerdictOn(policy, s, login.linking, emails).SignUp? {
      AbandonedExactly(policy, s, emails, user);
    }
  }

  /** The gates after authentication, for whatever account the login reached. */
  lemma GatesExactly(policy: Policy, site: Site, s: State, login: SocialLogin, newcomer: UserId, account: Account)
    requires Found(policy, site, s, login, newcomer, account).Ok?
    ensures var found := Found(policy, site, s, login, newcomer, account).value;
      var r := Authenticate(policy, site, s, login, newcomer, account);
      var active := found.user in found.s.accounts && found.s.accounts[found.user].active;
      var confirmed := exists x :: x in found.s.addresses && x.user == found.user && x.verified;
      && (r == Err(InactiveAccount) <==> !active)
      && (r == Err(NotVerifiedEmail) <==> active && site.verificationMandatory && !confirmed)
      && (r.Ok? <==> active && (site.verificationMandatory ==> confirmed))
      && (r.Ok? ==> r.value.user == found.user && r.value.connects == found.connects)
  {
    var found := Found(policy, site, s, login, newcomer, account).value;
    QuestionsExactly(policy, found.s, found.user, false);
    assert EmailVerified(found.s.addresses, found.user)
      <==> exists x :: x in found.s.addresses && x.user == found.user && x.verified by {
      if x :| x in found.s.addresses && x.user == found.user && x.verified {
        VerifiedSomewhere(found.s, x);
      }
    }
  }

  /**
   A login let in stamps the account it reached where the installation does so, and changes no
   other; an account it created has no password, and the addresses the provider sent, confirmed
   as the provider says, the first of them primary.
   */
  lemma LetInExactly(policy: Policy, site: Site, s: State, login: SocialLogin, newcomer: UserId, account: Account)
    requires Authenticate(policy, site, s, login, newcomer, account).Ok? && newcomer !in s.accounts
    requires forall x :: x in s.addresses ==> x.user != newcomer
    ensures var s', user := Authenticate(policy, site, s, login, newcomer, account).value.s,
                            Authenticate(policy, site, s, login, newcomer, account).value.user;
      && user in s'.accounts && (site.updateLastLogin ==> s'.accounts[user].everLoggedIn)
      && (forall u :: u in s'.accounts && u != user ==> u in s.accounts && s'.accounts[u] == s.accounts[u])
      && (user == newcomer && login.connected.None? ==>
            && s'.accounts[user].(everLoggedIn := account.everLoggedIn) == account.(usablePassword := false)
            && Keep(s'.addresses, (x: Address) => x.user == newcomer) == Grafted(newcomer, login.emails))
      && (user != newcomer ==>
            s'.accounts.Keys == s.accounts.Keys && s'.addresses == s.addresses && s'.tokens == s.tokens)
  {
    var found := Found(policy, site, s, login, newcomer, account).value;
    if found.user == newcomer && login.connected.None? {
      var mine := (x: Address) => x.user == newcomer;
      var left := Erased(s, Removed(policy, s, login)).addresses;
      KeepAppend(left, Grafted(newcomer, login.emails), mine);
      KeepNone(left, mine);
      KeepAll(Grafted(newcomer, login.emails), mine);
    }
  }

  /** An account that was only ever logged in to is nobody's proof: holding a vouched address, it is refused. */
  lemma UsedIsNotProven(policy: Policy, site: Site, s: State, login: SocialLogin, newcomer: UserId, account: Account,
          user: UserId, x: Address)
    requires login.connected.None? && user in s.accounts && s.accounts[user].everLoggedIn
    requires x in s.addresses && x.user == user && Vouched(x.email, true) in login.emails
    requires forall y :: y in s.addresses && Vouched(y.email, true) in login.emails ==> !OwnsAddress(policy, s, y)
    ensures Authenticate(policy, site, s, login, newcomer, account)
      == Err(if login.linking then LocalAccountUnverified else EmailConflict)
  {
    assert UsedVouched(s, login) && !OwnedVouched(policy, s, login);
    assert !(forall v :: v in login.emails ==> !v.verified);
    LoginExactly(policy, site, s, login, newcomer, account);
  }

  /**
   A login that reaches an account it was not connected to holds proof: the provider may be
   linked and vouched for an address the account holds; the account is privileged, has a
   confirmed address, or awaits its invitation; no second factor is owed, and it is active.
   */
  lemma NoTakeover(policy: Policy, site: Site, s: State, login: SocialLogin, newcomer: UserId, account: Account)
    requires newcomer !in s.accounts && login.connected.None?
    requires var r := Authenticate(policy, site, s, login, newcomer, account); r.Ok? && r.value.user != newcomer
    ensures var user := Authenticate(policy, site, s, login, newcomer, account).value.user;
      && login.linking && user in s.accounts && s.accounts[user].active
      && (|| s.accounts[user].staff || s.accounts[user].superuser
          || (exists y :: y in s.addresses && y.user == user && y.verified)
          || (!s.accounts[user].usablePassword
              && exists t :: t in s.tokens && t.user == user && t.purpose == Invitation
                             && s.now - policy.confirmationWindow <= t.created))
      && (policy.totpMode == Off || (policy.totpMode == Offered && !s.accounts[user].totp))
      && (exists x :: x in s.addresses && x.user == user && Vouched(x.email, true) in login.emails)
  {
    var user := Authenticate(policy, site, s, login, newcomer, account).value.user;
    var emails := VerifiedEmails(login.emails);
    VerdictIsSound(policy, s, login.linking, emails, user);
    var x :| x in s.addresses && x.email in emails && x.user == user;
    VouchedEmails(login.emails, x.email);
  }
}
