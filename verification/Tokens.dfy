/** The refresh token: its time claims, the cap of the session lifetime, the account claims. */
module Tokens {
  import opened Basics
  import opened Store

  /** Names of claims and of attributes; the claims the token manages itself are told apart. */
  datatype Name =
    | TokenType
    | Exp
    | Iat
    | JtiClaim
    | UserIdClaim
    | SessionClaim
    | SessionIat
    | Role
    | EmailVerifiedClaim
    | Other(name: string)

  /** A claim value; `Thing` stands for any object that is not one of the plain kinds. */
  datatype Value =
    | Num(n: int)
    | Text(text: string)
    | Flag(flag: bool)
    | Thing(id: nat)

  type Payload = map<Name, Value>

  type Path = seq<Name>

  datatype Attributes =
    | NotConfigured
    | Legacy(paths: seq<Path>)
    | Mapping(entries: map<Name, Path>)

  datatype Settings = Settings(
    refreshLifetime: int,
    accessLifetime: int,
    sessionLifetime: Option<int>,
    attributes: Attributes,
    sessionCheck: bool,
    logoutOnPasswordChange: bool)

  // -------------------------------------------------------------- the user model

  /** What reading an attribute finds: `Broken` is one whose getter raises. */
  datatype Attribute =
    | Plain(value: Value)
    | Null
    | Callable
    | Broken
    | Node(id: nat, fields: map<Name, Attribute>)

  /** The account as the claims see it: its role and everything hanging from the model. */
  datatype Profile = Profile(role: int, root: Attribute)

  /** What the path leads to, or `None` when it is missing, null or cannot be read. */
  function Follow(at: Attribute, path: Path): Option<Attribute> {
    if path == [] then Some(at)
    else if at.Node? && path[0] in at.fields && !at.fields[path[0]].Broken? && !at.fields[path[0]].Null?
    then Follow(at.fields[path[0]], path[1..])
    else None
  }

  /** The claim an attribute becomes; methods never become claims. */
  function ClaimOf(at: Option<Attribute>): Option<Value> {
    match at
    case Some(Plain(v)) => Some(v)
    case Some(Node(id, _)) => Some(Thing(id))
    case _ => None
  }

  predicate Reserved(name: Name) {
    !name.Other?
  }

  /** Reading one field of an object: it is there, it does not raise, and it is not null. */
  predicate StepsTo(from: Attribute, field: Name, to: Attribute) {
    from.Node? && field in from.fields && to == from.fields[field] && to != Broken && to != Null
  }

  /** The attributes met on the way along the path. */
  ghost predicate Trail(root: Attribute, path: Path, trail: seq<Attribute>) {
    && |trail| == |path| + 1 && trail[0] == root
    && forall i :: 0 <= i < |path| ==> StepsTo(trail[i], path[i], trail[i + 1])
  }

  lemma TrailRest(root: Attribute, path: Path, trail: seq<Attribute>)
    requires path != [] && Trail(root, path, trail)
    ensures Trail(trail[1], path[1..], trail[1..])
  {
    var rest := trail[1..];
    forall i | 0 <= i < |path[1..]| ensures StepsTo(rest[i], path[1..][i], rest[i + 1]) {
      assert StepsTo(trail[i + 1], path[i + 1], trail[i + 2]);
    }
  }

  lemma TrailCons(root: Attribute, path: Path, rest: seq<Attribute>)
    requires path != [] && rest != [] && StepsTo(root, path[0], rest[0]) && Trail(rest[0], path[1..], rest)
    ensures Trail(root, path, [root] + rest)
  {
    var trail := [root] + rest;
    forall i | 0 <= i < |path| ensures StepsTo(trail[i], path[i], trail[i + 1]) {
      if i > 0 {
        assert StepsTo(rest[i - 1], path[1..][i - 1], rest[i]);
      }
    }
  }

  /** A path leads somewhere exactly when every step of it can be read, and then it leads to its end. */
  lemma {:induction false} FollowExactly(root: Attribute, path: Path, end: Attribute)
    ensures Follow(root, path) == Some(end) <==> exists trail :: Trail(root, path, trail) && trail[|path|] == end
    decreases |path|
  {
    if path == [] {
      assert Trail(root, path, [root]);
    } else {
      if Follow(root, path) == Some(end) {
        var next := root.fields[path[0]];
        FollowExactly(next, path[1..], end);
        var rest :| Trail(next, path[1..], rest) && rest[|path| - 1] == end;
        TrailCons(root, path, rest);
        assert ([root] + rest)[|path|] == end;
      }
      if trail :| Trail(root, path, trail) && trail[|path|] == end {
        assert StepsTo(trail[0], path[0], trail[1]);
        TrailRest(root, path, trail);
        assert trail[1..][|path[1..]|] == end;
        FollowExactly(trail[1], path[1..], end);
      }
    }
  }

  /** A configured name becomes a claim exactly when its path ends at a plain value or an object; methods never do. */
  lemma WrittenExactly(attributes: map<Name, Path>, profile: Profile, n: Name, v: Value)
    ensures Written(attributes, profile, n) == Some(v)
      <==> && n in attributes
           && exists trail :: Trail(profile.root, attributes[n], trail) && Shows(trail[|attributes[n]|], v)
  {
    if n in attributes {
      var found := Follow(profile.root, attributes[n]);
      if found.Some? {
        FollowExactly(profile.root, attributes[n], found.value);
      }
      if trail :| Trail(profile.root, attributes[n], trail) && Shows(trail[|attributes[n]|], v) {
        FollowExactly(profile.root, attributes[n], trail[|attributes[n]|]);
      }
    }
  }

  predicate Shows(end: Attribute, v: Value) {
    end == Plain(v) || (end.Node? && v == Thing(end.id))
  }

  /** The legacy list names each claim after the last step of its path; a later path of the same name wins. */
  lemma {:induction false} LegacyNamesLast(paths: seq<Path>, n: Name, path: Path)
    ensures n in LegacyMap(paths) && LegacyMap(paths)[n] == path
      <==> exists i :: 0 <= i < |paths| && paths[i] == path && LastEnding(paths, i, n)
  {
    if paths != [] {
      var last := |paths| - 1;
      LegacyNamesLast(paths[..last], n, path);
      if Ends(paths[last], n) {
        assert LastEnding(paths, last, n);
      } else {
        forall i | 0 <= i < last ensures LastEnding(paths, i, n) <==> LastEnding(paths[..last], i, n) {
          assert forall k :: 0 <= k < last ==> paths[..last][k] == paths[k];
        }
      }
    }
  }

  /** The `i`-th path ends in the name, and none after it does. */
  ghost predicate LastEnding(paths: seq<Path>, i: nat, n: Name)
    requires i < |paths|
  {
    Ends(paths[i], n) && forall k :: i < k < |paths| ==> !Ends(paths[k], n)
  }

  predicate Ends(path: Path, n: Name) {
    path != [] && path[|path| - 1] == n
  }

  /** The attribute map: the legacy list names each claim after the last step of its path. */
  function AttributeMap(attributes: Attributes): map<Name, Path> {
    match attributes
    case NotConfigured => map[]
    case Legacy(paths) => LegacyMap(paths)
    case Mapping(entries) => entries
  }

  /** Without a setting no claim is configured; a map is taken as it is, a list as `LegacyNamesLast` says. */
  lemma AttributeMapExactly(attributes: Attributes, n: Name, path: Path)
    ensures n in AttributeMap(attributes) && AttributeMap(attributes)[n] == path
      <==> || (attributes.Mapping? && n in attributes.entries && attributes.entries[n] == path)
           || (attributes.Legacy? && exists i :: 0 <= i < |attributes.paths| && attributes.paths[i] == path
                                                 && LastEnding(attributes.paths, i, n))
  {
    if attributes.Legacy? {
      LegacyNamesLast(attributes.paths, n, path);
    }
  }

  function LegacyMap(paths: seq<Path>): map<Name, Path> {
    if paths == [] then map[]
    else
      var last := paths[|paths| - 1];
      var before := LegacyMap(paths[..|paths| - 1]);
      if last == [] then before else before[last[|last| - 1] := last]
  }

  // -------------------------------------------------------- the session of a token

  /** The part of a refresh token the session protocol is about. */
  datatype SessionToken = SessionToken(jti: Jti, session: Session, user: UserId, sessionIat: Option<int>, exp: int)

  /** The part of an access token the session protocol is about. */
  datatype SessionAccess = SessionAccess(session: Session, user: UserId, sessionIat: Option<int>, exp: int)

  /** The instant at which a session stamped `iat` ends, unless there is no limit. */
  function Deadline(cfg: Settings, sessionIat: Option<int>): Option<int> {
    match (cfg.sessionLifetime, sessionIat)
    case (Some(lifetime), Some(iat)) => Some(FromEpoch(iat) + lifetime)
    case _ => None
  }

  function Capped(cfg: Settings, sessionIat: Option<int>, exp: int): int {
    match Deadline(cfg, sessionIat)
    case None => exp
    case Some(deadline) => Min(exp, Epoch(deadline))
  }

  predicate Overdue(cfg: Settings, sessionIat: Option<int>, at: int) {
    match Deadline(cfg, sessionIat)
    case None => false
    case Some(deadline) => deadline <= at
  }

  /** The stamp a rotation works with: a token from before the claim existed is stamped now. */
  function Anchor(sessionIat: Option<int>, parsed: int): Option<int> {
    if sessionIat.Some? then sessionIat else Some(Epoch(parsed))
  }

  /** The token a session opens with. */
  function FirstToken(cfg: Settings, jti: Jti, session: Session, user: UserId, parsed: int): SessionToken {
    var iat := Some(Epoch(parsed));
    SessionToken(jti, session, user, iat, Capped(cfg, iat, Epoch(parsed + cfg.refreshLifetime)))
  }

  /** The token that replaces `token` in a rotation whose request was parsed at `parsed`. */
  function Successor(cfg: Settings, token: SessionToken, jti: Jti, parsed: int): SessionToken {
    var iat := Anchor(token.sessionIat, parsed);
    token.(jti := jti, sessionIat := iat, exp := Capped(cfg, iat, Epoch(parsed + cfg.refreshLifetime)))
  }

  /** The access token derived from a refresh token with this stamp. */
  function AccessOf(cfg: Settings, token: SessionToken, sessionIat: Option<int>, parsed: int): SessionAccess {
    SessionAccess(token.session, token.user, sessionIat, Capped(cfg, sessionIat, Epoch(parsed + cfg.accessLifetime)))
  }

  predicate Numeric(payload: Payload, name: Name) {
    name in payload && payload[name].Num?
  }

  /** The time claims and the id of a token are numbers. */
  predicate WellTyped(payload: Payload) {
    && Numeric(payload, Exp) && Numeric(payload, Iat)
    && Numeric(payload, JtiClaim) && payload[JtiClaim].n >= 0
    && (SessionIat in payload ==> payload[SessionIat].Num?)
  }

  predicate OfASession(payload: Payload) {
    && WellTyped(payload)
    && Numeric(payload, SessionClaim) && payload[SessionClaim].n >= 0
    && Numeric(payload, UserIdClaim) && payload[UserIdClaim].n >= 0
  }

  function StampOf(payload: Payload): Option<int>
    requires WellTyped(payload)
  {
    if SessionIat in payload then Some(payload[SessionIat].n) else None
  }

  /** What the session protocol reads in a payload. */
  function View(payload: Payload): SessionToken
    requires OfASession(payload)
  {
    SessionToken(payload[JtiClaim].n, payload[SessionClaim].n, payload[UserIdClaim].n, StampOf(payload), payload[Exp].n)
  }

  function AccessView(payload: Payload): SessionAccess
    requires OfASession(payload)
  {
    var v := View(payload);
    SessionAccess(v.session, v.user, v.sessionIat, v.exp)
  }

  // ----------------------------------------------------------- the account claims

  /** What the attribute map makes of one claim for an account. */
  function Written(attributes: map<Name, Path>, profile: Profile, n: Name): Option<Value> {
    if n in attributes then ClaimOf(Follow(profile.root, attributes[n])) else None
  }

  /** The claims an attribute map writes for an account into a payload that lacks them. */
  function WithAttributes(payload: Payload, attributes: map<Name, Path>, profile: Profile): Payload {
    payload + map n | n in attributes && Written(attributes, profile, n).Some? && n !in payload
                    :: Written(attributes, profile, n).value
  }

  function WithAccount(payload: Payload, profile: Profile, verified: bool): Payload {
    payload[Role := Num(profile.role)][EmailVerifiedClaim := Flag(verified)]
  }

  /** A payload stripped of the configured claims, which are about to be read again. */
  function Stripped(payload: Payload, attributes: map<Name, Path>): Payload {
    payload - (set n | n in attributes && !Reserved(n))
  }

  function Synced(payload: Payload, attributes: map<Name, Path>, profile: Profile, verified: bool): Payload {
    WithAttributes(WithAccount(Stripped(payload, attributes), profile, verified), attributes, profile)
  }

  lemma AttributesByName(payload: Payload, written: Payload, attributes: map<Name, Path>, profile: Profile)
    requires forall n :: n in written <==> n in payload || Written(attributes, profile, n).Some?
    requires forall n :: n in written ==>
      written[n] == if n in payload then payload[n] else Written(attributes, profile, n).value
    ensures written == WithAttributes(payload, attributes, profile)
  {
    var expected := WithAttributes(payload, attributes, profile);
    forall n ensures n in expected <==> n in payload || Written(attributes, profile, n).Some? {
      assert Written(attributes, profile, n).Some? ==> n in attributes;
    }
  }

  function Lookup(payload: Payload, n: Name): Option<Value> {
    if n in payload then Some(payload[n]) else None
  }

  /** One claim of a payload after the account was read again. */
  function SyncedAt(payload: Payload, attributes: map<Name, Path>, profile: Profile, verified: bool,
          n: Name): Option<Value> {
    if n == EmailVerifiedClaim then Some(Flag(verified))
    else if n == Role then Some(Num(profile.role))
    else if n in payload && (n !in attributes || Reserved(n)) then Some(payload[n])
    else Written(attributes, profile, n)
  }

  lemma SyncedByName(payload: Payload, attributes: map<Name, Path>, profile: Profile, verified: bool, n: Name)
    ensures Lookup(Synced(payload, attributes, profile, verified), n)
      == SyncedAt(payload, attributes, profile, verified, n)
  {
  }

  /** The payload of a sign-in before the configured attributes are added. */
  function OpeningPayload(cfg: Settings, user: UserId, profile: Profile, verified: bool, session: Session, jti: Jti,
          at: int): Payload {
    map[TokenType := Text("refresh"), Exp := Num(Epoch(at + cfg.refreshLifetime)),
        Iat := Num(Epoch(at)), JtiClaim := Num(jti)]
       [UserIdClaim := Num(user)][SessionClaim := Num(session)][SessionIat := Num(Epoch(at))]
       [Exp := Num(FirstToken(cfg, jti, session, user, at).exp)]
       [Role := Num(profile.role)][EmailVerifiedClaim := Flag(verified)]
  }

  /** The payload a sign-in hands out. */
  function SignInPayload(cfg: Settings, user: UserId, profile: Profile, verified: bool, session: Session, jti: Jti,
          at: int): Payload {
    var opening := OpeningPayload(cfg, user, profile, verified, session, jti, at);
    WithAttributes(opening, AttributeMap(cfg.attributes), profile)
  }

  lemma OpeningView(cfg: Settings, user: UserId, profile: Profile, verified: bool, session: Session, jti: Jti, at: int)
    ensures var payload := SignInPayload(cfg, user, profile, verified, session, jti, at);
      OfASession(payload) && View(payload) == FirstToken(cfg, jti, session, user, at)
  {
    var opening := OpeningPayload(cfg, user, profile, verified, session, jti, at);
    var payload := SignInPayload(cfg, user, profile, verified, session, jti, at);
    forall n | n in opening ensures n in payload && payload[n] == opening[n] {
    }
  }

  /** The account claims of a sign-in, one by one. */
  lemma SignInClaims(cfg: Settings, user: UserId, profile: Profile, verified: bool, session: Session, jti: Jti, at: int)
    ensures var payload := SignInPayload(cfg, user, profile, verified, session, jti, at);
      && Lookup(payload, Role) == Some(Num(profile.role)) && Lookup(payload, EmailVerifiedClaim) == Some(Flag(verified))
      && forall n :: n in AttributeMap(cfg.attributes) && !Reserved(n) ==>
           Lookup(payload, n) == Written(AttributeMap(cfg.attributes), profile, n)
  {
  }

  /**
   Claims are a fresh projection of the account: after a rotation the role, the verified flag
   and every configured claim are what a sign-in of the account would hand out now, whatever
   the old token said.
   */
  lemma SyncIsFresh(stale: Payload, cfg: Settings, user: UserId, profile: Profile, verified: bool, session: Session,
          jti: Jti, at: int, n: Name)
    requires ReadAgain(AttributeMap(cfg.attributes), n)
    ensures Lookup(Synced(stale, AttributeMap(cfg.attributes), profile, verified), n)
      == Lookup(SignInPayload(cfg, user, profile, verified, session, jti, at), n)
  {
  }

  /** What a rotation reads again: the role, the verified flag and the configured claims it may touch. */
  predicate ReadAgain(attributes: map<Name, Path>, n: Name) {
    n == Role || n == EmailVerifiedClaim || (n in attributes && !Reserved(n))
  }

  /** The claims every refresh token of a session carries by the time its account is read again. */
  predicate Complete(payload: Payload) {
    OfASession(payload) && SessionIat in payload && TokenType in payload
  }

  /** On any payload at all: another claim changes only where it was absent and the account fills it in. */
  lemma SyncChangesExactly(stale: Payload, attributes: map<Name, Path>, profile: Profile, verified: bool, n: Name)
    requires !ReadAgain(attributes, n)
    ensures Lookup(Synced(stale, attributes, profile, verified), n) != Lookup(stale, n)
      <==> n !in stale && Written(attributes, profile, n).Some?
  {
  }

  /** Every other claim of the token a rotation works on is unchanged, present or absent. */
  lemma SyncKeepsTheRest(stale: Payload, attributes: map<Name, Path>, profile: Profile, verified: bool, n: Name)
    requires (Complete(stale) || n in stale) && !ReadAgain(attributes, n)
    ensures Lookup(Synced(stale, attributes, profile, verified), n) == Lookup(stale, n)
  {
    SyncChangesExactly(stale, attributes, profile, verified, n);
  }

  lemma SyncKeepsSessionClaims(stale: Payload, attributes: map<Name, Path>, profile: Profile, verified: bool)
    requires Complete(stale)
    ensures Complete(Synced(stale, attributes, profile, verified))
  {
    var synced := Synced(stale, attributes, profile, verified);
    forall n | n in {TokenType, Exp, Iat, JtiClaim, UserIdClaim, SessionClaim, SessionIat}
      ensures n in synced && synced[n] == stale[n]
    {
      SyncKeepsTheRest(stale, attributes, profile, verified, n);
    }
  }

  /** The payload after a chain of rotations, each reading the account as it was then. */
  function SyncedAlong(payload: Payload, attributes: map<Name, Path>, accounts: seq<(Profile, bool)>): Payload {
    if accounts == [] then payload
    else
      var last := accounts[|accounts| - 1];
      Synced(SyncedAlong(payload, attributes, accounts[..|accounts| - 1]), attributes, last.0, last.1)
  }

  /**
   Stale privileges do not survive a rotation chain: after any number of rotations the
   account claims are those a sign-in of the account hands out, as it was at the last one, and
   every other claim is what it was in the first token, present or absent.
   */
  lemma {:induction false} NoStalePrivilege(first: Payload, cfg: Settings, accounts: seq<(Profile, bool)>,
          user: UserId, session: Session, jti: Jti, at: int, n: Name)
    requires accounts != []
    ensures var last := accounts[|accounts| - 1];
      var attributes := AttributeMap(cfg.attributes);
      var now := SyncedAlong(first, attributes, accounts);
      && (ReadAgain(attributes, n) ==>
            Lookup(now, n) == Lookup(SignInPayload(cfg, user, last.0, last.1, session, jti, at), n))
      && (!ReadAgain(attributes, n) && (Complete(first) || n in first) ==> Lookup(now, n) == Lookup(first, n))
  {
    var attributes := AttributeMap(cfg.attributes);
    var last := accounts[|accounts| - 1];
    var earlier := accounts[..|accounts| - 1];
    var before := SyncedAlong(first, attributes, earlier);
    if ReadAgain(attributes, n) {
      SyncIsFresh(before, cfg, user, last.0, last.1, session, jti, at, n);
    } else if Complete(first) || n in first {
      if Complete(first) {
        ChainKeepsSessionClaims(first, attributes, earlier);
      }
      if earlier != [] {
        NoStalePrivilege(first, cfg, earlier, user, session, jti, at, n);
      }
      SyncKeepsTheRest(before, attributes, last.0, last.1, n);
    }
  }

  lemma {:induction false} ChainKeepsSessionClaims(first: Payload, attributes: map<Name, Path>,
          accounts: seq<(Profile, bool)>)
    requires Complete(first)
    ensures Complete(SyncedAlong(first, attributes, accounts))
  {
    if accounts != [] {
      var last := accounts[|accounts| - 1];
      var earlier := accounts[..|accounts| - 1];
      ChainKeepsSessionClaims(first, attributes, earlier);
      SyncKeepsSessionClaims(SyncedAlong(first, attributes, earlier), attributes, last.0, last.1);
    }
  }

  // ------------------------------------------------------------------- the class

  class RefreshToken {
    var payload: Payload
    /** The instant the token object was built: every claim of the request is dated from it. */
    const currentTime: int

    /** A token object with the claims every token starts with. */
    constructor Fresh(cfg: Settings, at: int, jti: Jti)
      ensures currentTime == at
      ensures payload == map[TokenType := Text("refresh"), Exp := Num(Epoch(at + cfg.refreshLifetime)),
                             Iat := Num(Epoch(at)), JtiClaim := Num(jti)]
    {
      currentTime := at;
      payload := map[TokenType := Text("refresh"), Exp := Num(Epoch(at + cfg.refreshLifetime)),
                     Iat := Num(Epoch(at)), JtiClaim := Num(jti)];
    }

    method SetSession(id: Session)
      modifies this
      ensures payload == old(payload)[SessionClaim := Num(id)]
    {
      payload := payload[SessionClaim := Num(id)];
    }

    method SetSessionIat(at: Option<int>)
      modifies this
      ensures payload == old(payload)[SessionIat := Num(Epoch(if at.Some? then at.value else currentTime))]
    {
      payload := payload[SessionIat := Num(Epoch(if at.Some? then at.value else currentTime))];
    }

    method SetIat()
      modifies this
      ensures payload == old(payload)[Iat := Num(Epoch(currentTime))]
    {
      payload := payload[Iat := Num(Epoch(currentTime))];
    }

    method SetJti(jti: Jti)
      modifies this
      ensures payload == old(payload)[JtiClaim := Num(jti)]
    {
      payload := payload[JtiClaim := Num(jti)];
    }

    method SetExp(cfg: Settings)
      modifies this
      ensures payload == old(payload)[Exp := Num(Epoch(currentTime + cfg.refreshLifetime))]
    {
      payload := payload[Exp := Num(Epoch(currentTime + cfg.refreshLifetime))];
    }

    function SessionDeadline(cfg: Settings): Option<int>
      requires WellTyped(payload)
      reads this
    {
      Deadline(cfg, StampOf(payload))
    }

    predicate SessionExpired(cfg: Settings, at: int)
      requires WellTyped(payload)
      reads this
    {
      Overdue(cfg, StampOf(payload), at)
    }

    method CapExpToSession(cfg: Settings)
      requires WellTyped(payload)
      modifies this
      ensures WellTyped(payload)
      ensures payload == old(payload)[Exp := Num(Capped(cfg, StampOf(old(payload)), old(payload)[Exp].n))]
    {
      var deadline := SessionDeadline(cfg);
      if deadline.Some? {
        payload := payload[Exp := Num(Min(payload[Exp].n, Epoch(deadline.value)))];
      } else {
        assert payload == payload[Exp := payload[Exp]];
      }
    }

    /** The claims of the derived access token: all but the kind, the expiry and the id are copied. */
    method AccessToken(cfg: Settings, jti: Jti) returns (access: Payload)
      requires WellTyped(payload)
      ensures WellTyped(access)
      ensures forall n :: n != TokenType && n != Exp && n != JtiClaim ==>
        ((n in access <==> n in payload) && (n in access ==> access[n] == payload[n]))
      ensures access[JtiClaim] == Num(jti)
      ensures access[Exp] == Num(Capped(cfg, StampOf(payload), Epoch(currentTime + cfg.accessLifetime)))
      ensures OfASession(payload) ==> OfASession(access)
      ensures OfASession(payload) ==> AccessView(access) == AccessOf(cfg, View(payload), StampOf(payload), currentTime)
    {
      access := payload[TokenType := Text("access")][JtiClaim := Num(jti)];
      access := access[Exp := Num(Epoch(currentTime + cfg.accessLifetime))];
      var deadline := SessionDeadline(cfg);
      if deadline.Some? {
        access := access[Exp := Num(Min(access[Exp].n, Epoch(deadline.value)))];
      }
    }

    /** Walks one path from the account; the claim is `None` when a step of it is missing. */
    static method ReadAttribute(root: Attribute, path: Path) returns (found: Option<Attribute>)
      ensures found == Follow(root, path)
    {
      var current := root;
      var i := 0;
      while i < |path|
        invariant 0 <= i <= |path|
        invariant Follow(root, path) == Follow(current, path[i..])
      {
        if !current.Node? || path[i] !in current.fields {
          return None;
        }
        var next := current.fields[path[i]];
        if next.Broken? || next.Null? {
          return None;
        }
        assert path[i..][1..] == path[i + 1..];
        current := next;
        i := i + 1;
      }
      return Some(current);
    }

    /** Adds the configured attributes; a map that names `role` is refused. */
    method SetUserAttributes(attributes: map<Name, Path>, profile: Profile) returns (ok: bool)
      modifies this
      ensures ok == (Role !in attributes)
      ensures payload == if ok then WithAttributes(old(payload), attributes, profile) else old(payload)
    {
      if Role in attributes {
        return false;
      }
      var todo := attributes.Keys;
      while todo != {}
        invariant todo <= attributes.Keys
        invariant forall n :: n in payload <==>
          n in old(payload) || (n !in todo && Written(attributes, profile, n).Some?)
        invariant forall n :: n in payload ==>
          payload[n] == if n in old(payload) then old(payload)[n] else Written(attributes, profile, n).value
        decreases |todo|
      {
        var n :| n in todo;
        var found := ReadAttribute(profile.root, attributes[n]);
        var claim := ClaimOf(found);
        assert claim == Written(attributes, profile, n);
        if claim.Some? && n !in payload {
          payload := payload[n := claim.value];
        }
        todo := todo - {n};
      }
      AttributesByName(old(payload), payload, attributes, profile);
      return true;
    }

    /** Reads the account again: the configured claims, the role and the verified flag. */
    method SyncUserClaims(attributes: map<Name, Path>, profile: Profile, verified: bool) returns (ok: bool)
      modifies this
      ensures ok == (Role !in attributes)
      ensures ok ==> payload == Synced(old(payload), attributes, profile, verified)
    {
      var todo := attributes.Keys;
      while todo != {}
        invariant todo <= attributes.Keys
        invariant payload == old(payload) - (set n | n in attributes.Keys - todo && !Reserved(n))
        decreases |todo|
      {
        var n :| n in todo;
        if !Reserved(n) {
          payload := payload - {n};
        }
        todo := todo - {n};
      }
      assert payload == Stripped(old(payload), attributes);
      payload := payload[Role := Num(profile.role)];
      payload := payload[EmailVerifiedClaim := Flag(verified)];
      ok := SetUserAttributes(attributes, profile);
    }
  }
}
