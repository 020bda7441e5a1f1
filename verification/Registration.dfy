/** Sign-up, by oneself or by an administrator: claiming the address, and the account it creates. */
module Registration {
  import opened Basics
  import opened Store
  import opened Purge
  import opened Capabilities
  import opened Accounts

  /** The settings of an installation that decide about accounts. */
  datatype Site = Site(
    uniqueEmail: bool,
    verificationEnabled: bool,
    verificationMandatory: bool,
    requireVerifiedEmail: bool,
    openForSignup: bool,
    autoSignup: bool,
    updateLastLogin: bool)

  /** The serializer: whether invitations reserve their address against it, and whether it hides a conflict. */
  datatype Form = Form(reserveInvitations: bool, hidesConflict: bool)

  /** The administrator's form lifts its own reservation and hides nothing. */
  const INVITING := Form(false, false)

  // ------------------------------------------------------------------- deletion

  function AddressesSparing(gone: set<UserId>): Address -> bool {
    (x: Address) => x.user !in gone
  }

  function TokensSparing(gone: set<UserId>): GenericToken -> bool {
    (t: GenericToken) => t.user !in gone
  }

  /** Deleting accounts takes their addresses and single-use tokens with them. */
  function Erased(s: State, gone: set<UserId>): State {
    s.(accounts := s.accounts - gone,
       addresses := Keep(s.addresses, AddressesSparing(gone)),
       tokens := Keep(s.tokens, TokensSparing(gone)))
  }

  /** And their sessions. */
  function Evicted(rows: Whitelist, gone: set<UserId>): Whitelist {
    map j | j in rows && rows[j].user !in gone :: rows[j]
  }

  function Members(users: seq<UserId>): set<UserId> {
    set u | u in users
  }

  /** Deleting accounts takes exactly what is theirs, sessions included, and leaves everything of everybody else. */
  lemma ErasedExactly(s: State, rows: Whitelist, gone: set<UserId>)
    ensures var left := Erased(s, gone);
      && (forall u :: u in left.accounts <==> u in s.accounts && u !in gone)
      && (forall u :: u in left.accounts ==> left.accounts[u] == s.accounts[u])
      && (forall x :: x in left.addresses <==> x in s.addresses && x.user !in gone)
      && (forall t :: t in left.tokens <==> t in s.tokens && t.user !in gone)
    ensures forall j :: j in Evicted(rows, gone) <==> j in rows && rows[j].user !in gone
    ensures forall j :: j in Evicted(rows, gone) ==> Evicted(rows, gone)[j] == rows[j]
  {
    assert forall x :: x in Erased(s, gone).addresses <==> x in s.addresses && AddressesSparing(gone)(x);
    assert forall t :: t in Erased(s, gone).tokens <==> t in s.tokens && TokensSparing(gone)(t);
  }

  lemma {:induction false} SparingMore(s: State, gone: set<UserId>, user: UserId)
    ensures Erased(Erased(s, gone), {user}) == Erased(s, gone + {user})
  {
    KeepKeep(s.addresses, AddressesSparing(gone), AddressesSparing({user}), AddressesSparing(gone + {user}));
    KeepKeep(s.tokens, TokensSparing(gone), TokensSparing({user}), TokensSparing(gone + {user}));
    assert s.accounts - gone - {user} == s.accounts - (gone + {user});
  }

  lemma NothingErased(s: State)
    ensures Erased(s, {}) == s
  {
    KeepAll(s.addresses, AddressesSparing({}));
    KeepAll(s.tokens, TokensSparing({}));
  }

  method DeleteUser(db: Database, user: UserId)
    modifies db`accounts, db`addresses, db`tokens, db`whitelist
    ensures Snapshot(db) == Erased(old(Snapshot(db)), {user})
    ensures db.whitelist == Evicted(old(db.whitelist), {user})
  {
    db.accounts := db.accounts - {user};
    db.addresses := Keep(db.addresses, AddressesSparing({user}));
    db.tokens := Keep(db.tokens, TokensSparing({user}));
    db.whitelist := Evicted(db.whitelist, {user});
  }

  /** Superseded sign-ups are removed whole, one after the other. */
  method DeleteUsers(db: Database, users: seq<UserId>)
    modifies db`accounts, db`addresses, db`tokens, db`whitelist
    ensures Snapshot(db) == Erased(old(Snapshot(db)), Members(users))
    ensures db.whitelist == Evicted(old(db.whitelist), Members(users))
    ensures forall u :: u in db.accounts <==> u in old(db.accounts) && u !in users
    ensures forall x :: x in db.addresses <==> x in old(db.addresses) && x.user !in users
    ensures forall t :: t in db.tokens <==> t in old(db.tokens) && t.user !in users
    ensures forall j :: j in db.whitelist <==> j in old(db.whitelist) && old(db.whitelist)[j].user !in users
  {
    NothingErased(Snapshot(db));
    assert Members(users[..0]) == {};
    for i := 0 to |users|
      invariant Snapshot(db) == Erased(old(Snapshot(db)), Members(users[..i]))
      invariant db.whitelist == Evicted(old(db.whitelist), Members(users[..i]))
    {
      SparingMore(old(Snapshot(db)), Members(users[..i]), users[i]);
      assert Members(users[..i + 1]) == Members(users[..i]) + {users[i]};
      DeleteUser(db, users[i]);
    }
    assert users[..|users|] == users;
  }

  // --------------------------------------------------------- claiming the address

  /** What claiming the address comes to; no account is created when a conflict is being hidden. */
  datatype Claim = Claimed(gone: set<UserId>) | Hidden | Conflicting

  function ClaimOf(policy: Policy, site: Site, form: Form, s: State, email: Email, known: bool): Claim {
    if known then Hidden
    else if !site.uniqueEmail then Claimed({})
    else
      var superseded := SupersededAccounts(policy, s, email, form.reserveInvitations);
      if superseded.Some? then Claimed(Members(superseded.value))
      else if form.hidesConflict then Hidden else Conflicting
  }

  /** The address an account registers with. */
  function WithAddress(s: State, newcomer: UserId, account: Account, email: Email, verified: bool): State {
    s.(accounts := s.accounts[newcomer := account],
       addresses := s.addresses + [Address(email, newcomer, verified, true)])
  }

  /** A self-service sign-up; the address stands confirmed at once where nothing is verified. */
  function SignedUp(site: Site, s: State, gone: set<UserId>, newcomer: UserId, account: Account, email: Email): State {
    WithAddress(Erased(s, gone), newcomer, account, email, !site.verificationEnabled)
  }

  /** An invitation: no password until the link is followed, and the link goes out. */
  function Invited(policy: Policy, s: State, gone: set<UserId>, newcomer: UserId, account: Account,
          email: Email): (State, Answer) {
    SendConfirmationMail(policy,
      WithAddress(Erased(s, gone), newcomer, account.(usablePassword := false), email, false), newcomer, true)
  }

  /** One address row is new, and the others were there. */
  ghost predicate Arrives(rows: seq<Address>, rows': seq<Address>, row: Address) {
    rows' != [] && rows'[|rows'| - 1] == row && forall x :: x in rows'[..|rows'| - 1] ==> x in rows
  }

  function AddressesOf(user: UserId): Address -> bool {
    (x: Address) => x.user == user
  }

  lemma OneAddress(s: State, gone: set<UserId>, newcomer: UserId, account: Account, email: Email, verified: bool)
    requires forall x :: x in s.addresses ==> x.user != newcomer
    ensures Keep(WithAddress(Erased(s, gone), newcomer, account, email, verified).addresses, AddressesOf(newcomer))
      == [Address(email, newcomer, verified, true)]
  {
    var left := Erased(s, gone).addresses;
    var row := Address(email, newcomer, verified, true);
    KeepAppend(left, [row], AddressesOf(newcomer));
    KeepNone(left, AddressesOf(newcomer));
    KeepOne(row, AddressesOf(newcomer));
  }

  /**
   An account nobody had before has exactly one address after its sign-up, the primary one, and
   it stands confirmed only where the installation verifies nothing.
   */
  lemma SignedUpExactly(site: Site, s: State, gone: set<UserId>, newcomer: UserId, account: Account, email: Email)
    requires newcomer !in s.accounts && forall x :: x in s.addresses ==> x.user != newcomer
    ensures var s' := SignedUp(site, s, gone, newcomer, account, email);
      && newcomer in s'.accounts && s'.accounts[newcomer] == account
      && Keep(s'.addresses, AddressesOf(newcomer)) == [Address(email, newcomer, !site.verificationEnabled, true)]
      && (EmailVerified(s'.addresses, newcomer) <==> !site.verificationEnabled)
  {
    OneAddress(s, gone, newcomer, account, email, !site.verificationEnabled);
    OnlyOf(SignedUp(site, s, gone, newcomer, account, email).addresses, newcomer);
  }

  lemma OnlyOf(rows: seq<Address>, user: UserId)
    ensures EmailVerified(rows, user) <==> exists x :: x in Keep(rows, AddressesOf(user)) && x.verified
  {
    if EmailVerified(rows, user) {
      var i :| 0 <= i < |rows| && rows[i].user == user && rows[i].verified;
      assert rows[i] in rows && AddressesOf(user)(rows[i]);
    }
  }

  /** An invited account has no password, one address, nobody confirmed it, and its invitation is the newest row. */
  lemma InvitedExactly(policy: Policy, s: State, gone: set<UserId>, newcomer: UserId, account: Account, email: Email)
    requires newcomer !in s.accounts && forall x :: x in s.addresses ==> x.user != newcomer
    ensures var (s', answer) := Invited(policy, s, gone, newcomer, account, email);
      && newcomer in s'.accounts && s'.accounts[newcomer] == account.(usablePassword := false)
      && Keep(s'.addresses, AddressesOf(newcomer)) == [Address(email, newcomer, false, true)]
      && !EmailVerified(s'.addresses, newcomer)
      && (policy.invitations ==> GenericToken(newcomer, s.next, Invitation, s.now) in s'.tokens)
  {
    OneAddress(s, gone, newcomer, account.(usablePassword := false), email, false);
    OnlyOf(Invited(policy, s, gone, newcomer, account, email).0.addresses, newcomer);
  }

  /** The registration serializer, which remembers that the address was found taken. */
  class RegisterForm {
    const form: Form
    var accountAlreadyExists: bool

    constructor (form: Form)
      ensures this.form == form && !accountAlreadyExists
    {
      this.form := form;
      accountAlreadyExists := false;
    }

    /** Read-only validation: an error, or a conflict to hide. */
    method ValidateEmail(db: Database, policy: Policy, site: Site, email: Email) returns (ok: bool)
      modifies this`accountAlreadyExists
      ensures ok == !ClaimOf(policy, site, form, Snapshot(db), email, false).Conflicting?
      ensures accountAlreadyExists
        == (old(accountAlreadyExists) || ClaimOf(policy, site, form, Snapshot(db), email, false).Hidden?)
    {
      if site.uniqueEmail {
        var owner, superseded := ResolveEmail(policy, Snapshot(db), email, form.reserveInvitations);
        if owner.Some? {
          if !form.hidesConflict {
            return false;
          }
          accountAlreadyExists := true;
        }
      }
      return true;
    }

    /** Frees the address, asking again: it may have been claimed between validation and now. */
    method ClaimEmail(db: Database, policy: Policy, site: Site, email: Email) returns (r: Result<bool, ()>)
      modifies this`accountAlreadyExists, db`accounts, db`addresses, db`tokens, db`whitelist
      ensures match ClaimOf(policy, site, form, old(Snapshot(db)), email, old(accountAlreadyExists))
        case Claimed(gone) =>
          && r == Ok(true) && Snapshot(db) == Erased(old(Snapshot(db)), gone)
          && db.whitelist == Evicted(old(db.whitelist), gone)
        case Hidden =>
          && r == Ok(false) && accountAlreadyExists && Snapshot(db) == old(Snapshot(db))
          && db.whitelist == old(db.whitelist)
        case Conflicting =>
          r == Err(()) && Snapshot(db) == old(Snapshot(db)) && db.whitelist == old(db.whitelist)
    {
      NothingErased(Snapshot(db));
      assert db.whitelist == Evicted(db.whitelist, {});
      if !accountAlreadyExists && site.uniqueEmail {
        var owner, superseded := ResolveEmail(policy, Snapshot(db), email, form.reserveInvitations);
        if owner.Some? {
          if !form.hidesConflict {
            return Err(());
          }
          accountAlreadyExists := true;
        } else {
          DeleteUsers(db, superseded);
        }
      }
      return Ok(!accountAlreadyExists);
    }

    /** Creates the account of a self-service sign-up; `None` when the address was taken and nobody is told. */
    method Save(db: Database, policy: Policy, site: Site, email: Email, newcomer: UserId, account: Account)
      returns (user: Result<Option<UserId>, ()>)
      modifies this`accountAlreadyExists, db`accounts, db`addresses, db`tokens, db`whitelist
      ensures match ClaimOf(policy, site, form, old(Snapshot(db)), email, old(accountAlreadyExists))
        case Claimed(gone) =>
          && user == Ok(Some(newcomer))
          && Snapshot(db) == SignedUp(site, old(Snapshot(db)), gone, newcomer, account, email)
          && db.whitelist == Evicted(old(db.whitelist), gone)
        case Hidden => user == Ok(None) && Snapshot(db) == old(Snapshot(db)) && db.whitelist == old(db.whitelist)
        case Conflicting => user == Err(()) && Snapshot(db) == old(Snapshot(db)) && db.whitelist == old(db.whitelist)
      ensures user.Ok? && user.value.Some? ==>
        && newcomer in db.accounts && db.accounts[newcomer] == account
        && Arrives(old(db.addresses), db.addresses, Address(email, newcomer, !site.verificationEnabled, true))
    {
      var claimed := ClaimEmail(db, policy, site, email);
      if claimed.Err? {
        return Err(());
      }
      if !claimed.value {
        return Ok(None);
      }
      db.accounts := db.accounts[newcomer := account];
      db.addresses := db.addresses + [Address(email, newcomer, !site.verificationEnabled, true)];
      return Ok(Some(newcomer));
    }

    /** Creates an invited account and sends its link. */
    method SaveInvited(db: Database, policy: Policy, site: Site, email: Email, newcomer: UserId, account: Account)
      returns (user: Result<Option<UserId>, ()>)
      requires policy.invitations
      modifies this`accountAlreadyExists, db`accounts, db`addresses, db`tokens, db`whitelist, db`issued, db`nextId
      ensures match ClaimOf(policy, site, form, old(Snapshot(db)), email, old(accountAlreadyExists))
        case Claimed(gone) =>
          && user == Ok(Some(newcomer))
          && Snapshot(db) == Invited(policy, old(Snapshot(db)), gone, newcomer, account, email).0
          && db.whitelist == Evicted(old(db.whitelist), gone)
        case Hidden => user == Ok(None) && Snapshot(db) == old(Snapshot(db)) && db.whitelist == old(db.whitelist)
        case Conflicting => user == Err(()) && Snapshot(db) == old(Snapshot(db)) && db.whitelist == old(db.whitelist)
      ensures user.Ok? && user.value.Some? ==>
        && newcomer in db.accounts && db.accounts[newcomer] == account.(usablePassword := false)
        && Arrives(old(db.addresses), db.addresses, Address(email, newcomer, false, true))
        && GenericToken(newcomer, old(db.nextId), Invitation, db.now) in db.tokens
    {
      var claimed := ClaimEmail(db, policy, site, email);
      if claimed.Err? {
        return Err(());
      }
      if !claimed.value {
        return Ok(None);
      }
      db.accounts := db.accounts[newcomer := account.(usablePassword := false)];
      db.addresses := db.addresses + [Address(email, newcomer, false, true)];
      var id := db.nextId;
      db.issued := db.issued[id := Credential(newcomer, Invitation, db.now)];
      db.nextId := id + 1;
      db.tokens := db.tokens + [GenericToken(newcomer, id, Invitation, db.now)];
      return Ok(Some(newcomer));
    }
  }

  /** Nothing is deleted unless an account is created, and then only accounts nobody claimed. */
  lemma ClaimTakesNobodys(policy: Policy, site: Site, form: Form, s: State, email: Email, known: bool, user: UserId)
    requires var claim := ClaimOf(policy, site, form, s, email, known); claim.Claimed? && user in claim.gone
    ensures !AccountIsClaimed(policy, s, Some(user), form.reserveInvitations)
    ensures exists x :: x in s.addresses && x.email == email && x.user == user
  {
    ResolutionIsSound(policy, s, email, form.reserveInvitations, user);
  }

  /** Who a claim deletes: every holder of the address, where addresses are unique, and otherwise nobody. */
  lemma ClaimDeletesExactly(policy: Policy, site: Site, form: Form, s: State, email: Email, known: bool, user: UserId)
    requires ClaimOf(policy, site, form, s, email, known).Claimed?
    ensures user in ClaimOf(policy, site, form, s, email, known).gone
      <==> site.uniqueEmail && exists x :: x in s.addresses && x.email == email && x.user == user
  {
    var rows := RowsFor(s, email);
    if x :| x in s.addresses && x.email == email && x.user == user {
      assert x in rows;
      var i :| 0 <= i < |rows| && rows[i] == x;
      assert Users(rows)[i] == user;
    }
    if user in Users(rows) {
      var i :| 0 <= i < |rows| && Users(rows)[i] == user;
      assert rows[i] in rows;
    }
  }

  /** A claim that fails is hidden when the conflict was found before or the form hides it, and an error otherwise. */
  lemma ClaimAnswersExactly(policy: Policy, site: Site, form: Form, s: State, email: Email, known: bool)
    ensures var claim := ClaimOf(policy, site, form, s, email, known);
      var free := ClaimOf(policy, site, form, s, email, false).Claimed?;
      && (claim.Claimed? <==> !known && free)
      && (claim.Hidden? <==> known || (!free && form.hidesConflict))
      && (claim.Conflicting? <==> !known && !free && !form.hidesConflict)
  {
  }

  /** A fresh request is turned away exactly when somebody established ownership of the address. */
  lemma ClaimFailsExactly(policy: Policy, site: Site, form: Form, s: State, email: Email)
    ensures ClaimOf(policy, site, form, s, email, false).Claimed?
      <==> !site.uniqueEmail
           || forall x :: x in s.addresses && x.email == email ==>
                !x.verified && !AccountIsClaimed(policy, s, Some(x.user), form.reserveInvitations)
  {
    var rows := RowsFor(s, email);
    var taken := Taken(policy, s, form.reserveInvitations);
    if forall x :: x in rows ==> !taken(x) {
      KeepNone(rows, taken);
    } else {
      var x :| x in rows && taken(x);
      assert x in Keep(rows, taken);
    }
  }
}
