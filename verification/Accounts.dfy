/** Users, their sessions and the tokens minted for them, one HTTP request at a time. Signing is not
    modelled: the tokens that exist are the ones this service minted. Times are seconds. */
module Accounts {
  import opened Prelude

  type UserId = nat
  type SessionId = nat
  type Password = string
  type Email = string

  /** Access tokens live for 480 minutes. */
  const TOKEN_LIFE: int := 28800

  datatype User = User(email: Email, password: Password, isAdmin: bool)

  datatype Session = Session(user: UserId, expires: int, revoked: bool)

  datatype Token = Token(sub: UserId, isAdmin: bool, jti: SessionId, exp: int)

  /** A user id as it stands in a URL: the UUID it parses to, if any, and whether it is spelled the way
      the service itself writes that UUID. */
  datatype RawId = RawId(parsed: Option<UserId>, canonical: bool)

  datatype State = State(
    now: int, users: map<UserId, User>, nextUser: UserId,
    sessions: map<SessionId, Session>, nextSession: SessionId, minted: set<Token>)

  const EMPTY := State(0, map[], 0, map[], 0, {})

  /** `valid` says that an e-mail has the form and the domain allowed and the password the strength
      asked for, and `strong` the last alone. */
  datatype Request =
    | Tick(span: nat)
    | Bootstrap(email: Email, password: Password)
    | Register(email: Email, password: Password, valid: bool)
    | Login(email: Email, password: Password)
    | Logout(token: Token)
    | LogoutAll(token: Token)
    | ChangePassword(token: Token, oldPassword: Password, newPassword: Password, strong: bool)
    | Invite(token: Token, email: Email, password: Password, isAdmin: bool, valid: bool)
    | ChangeRole(token: Token, target: RawId, isAdmin: bool)
    | DeleteUser(token: Token, target: RawId)

  /** What decode_token accepts: a minted token that has not expired and whose session is active. */
  predicate Accepts(s: State, t: Token) {
    && t in s.minted && s.now <= t.exp
    && t.jti in s.sessions && !s.sessions[t.jti].revoked && s.now < s.sessions[t.jti].expires
  }

  predicate AcceptsAdmin(s: State, t: Token) {
    Accepts(s, t) && t.isAdmin
  }

  /** The comparison of the raw id with the caller's own. */
  predicate NamesCaller(target: RawId, t: Token) {
    target.canonical && target.parsed == Some(t.sub)
  }

  /** The user with this e-mail; there is at most one. */
  ghost function UserOf(users: map<UserId, User>, email: Email): Option<UserId> {
    if exists u :: u in users && users[u].email == email
    then var u :| u in users && users[u].email == email; Some(u)
    else None
  }

  function WithUser(s: State, u: User): State {
    s.(users := s.users[s.nextUser := u], nextUser := s.nextUser + 1)
  }

  function Minted(s: State, user: UserId): State
    requires user in s.users
  {
    var exp := s.now + TOKEN_LIFE;
    s.(sessions := s.sessions[s.nextSession := Session(user, exp, false)], nextSession := s.nextSession + 1,
       minted := s.minted + {Token(user, s.users[user].isAdmin, s.nextSession, exp)})
  }

  function RevokedFor(sessions: map<SessionId, Session>, user: UserId): map<SessionId, Session> {
    map j | j in sessions :: if sessions[j].user == user then sessions[j].(revoked := true) else sessions[j]
  }

  function RevokedOne(sessions: map<SessionId, Session>, jti: SessionId): map<SessionId, Session> {
    if jti in sessions then sessions[jti := sessions[jti].(revoked := true)] else sessions
  }

  function OthersSessions(sessions: map<SessionId, Session>, user: UserId): map<SessionId, Session> {
    map j | j in sessions && sessions[j].user != user :: sessions[j]
  }

  /** Sessions go with their user. */
  function WithoutUser(s: State, user: UserId): State {
    s.(users := s.users - {user}, sessions := OthersSessions(s.sessions, user))
  }

  /** Revoking sessions that are about to go changes nothing. */
  lemma RevokedAndGone(sessions: map<SessionId, Session>, user: UserId)
    ensures OthersSessions(RevokedFor(sessions, user), user) == OthersSessions(sessions, user)
  {
  }

  ghost function Step(s: State, r: Request): State {
    match r
    case Tick(span) => s.(now := s.now + span)
    case Bootstrap(email, password) =>
      if s.users == map[] then WithUser(s, User(email, password, true)) else s
    case Register(email, password, valid) =>
      if valid && UserOf(s.users, email).None?
      then Minted(WithUser(s, User(email, password, false)), s.nextUser) else s
    case Login(email, password) =>
      var user := UserOf(s.users, email);
      if user.Some? && s.users[user.value].password == password then Minted(s, user.value) else s
    case Logout(t) => if Accepts(s, t) then s.(sessions := RevokedOne(s.sessions, t.jti)) else s
    case LogoutAll(t) => if Accepts(s, t) then s.(sessions := RevokedFor(s.sessions, t.sub)) else s
    case ChangePassword(t, oldPassword, newPassword, strong) =>
      if Accepts(s, t) && t.sub in s.users && s.users[t.sub].password == oldPassword && strong
      then s.(users := s.users[t.sub := s.users[t.sub].(password := newPassword)],
              sessions := RevokedFor(s.sessions, t.sub))
      else s
    case Invite(t, email, password, isAdmin, valid) =>
      if AcceptsAdmin(s, t) && valid && UserOf(s.users, email).None?
      then WithUser(s, User(email, password, isAdmin)) else s
    case ChangeRole(t, target, isAdmin) =>
      if AcceptsAdmin(s, t) && !NamesCaller(target, t) && target.parsed.Some? && target.parsed.value in s.users
      then var u := target.parsed.value;
           s.(users := s.users[u := s.users[u].(isAdmin := isAdmin)], sessions := RevokedFor(s.sessions, u))
      else s
    case DeleteUser(t, target) =>
      if AcceptsAdmin(s, t) && !NamesCaller(target, t) && target.parsed.Some? && target.parsed.value in s.users
      then WithoutUser(s, target.parsed.value)
      else s
  }

  ghost function Run(s: State, requests: seq<Request>): State
    decreases |requests|
  {
    if requests == [] then s else Run(Step(s, requests[0]), requests[1..])
  }

  // ----- the invariant -----

  /** A live session vouches for its user's current role. */
  ghost predicate TokenOk(s: State, t: Token) {
    && t.jti < s.nextSession
    && (t.jti in s.sessions ==>
          && s.sessions[t.jti].user == t.sub && s.sessions[t.jti].expires == t.exp
          && (!s.sessions[t.jti].revoked ==> t.sub in s.users && s.users[t.sub].isAdmin == t.isAdmin))
  }

  ghost predicate EmailsDiffer(users: map<UserId, User>) {
    forall u, v :: u in users && v in users && users[u].email == users[v].email ==> u == v
  }

  ghost predicate Inv(s: State) {
    && (forall u :: u in s.users ==> u < s.nextUser)
    && EmailsDiffer(s.users)
    && (forall j :: j in s.sessions ==> j < s.nextSession && s.sessions[j].user in s.users)
    && (forall t :: t in s.minted ==> TokenOk(s, t))
    && (forall t, u :: t in s.minted && u in s.minted && t.jti == u.jti ==> t == u)
  }

  lemma StepKeeps(s: State, r: Request)
    requires Inv(s)
    ensures Inv(Step(s, r))
  {
    var s' := Step(s, r);
    forall t | t in s'.minted ensures TokenOk(s', t) {
      TokenStep(s, r, t);
    }
    UsersStep(s, r);
    SessionsStep(s, r);
    TokensStep(s, r);
  }

  lemma UsersStep(s: State, r: Request)
    requires Inv(s)
    ensures var s' := Step(s, r); EmailsDiffer(s'.users) && forall u :: u in s'.users ==> u < s'.nextUser
  {
  }

  lemma SessionsStep(s: State, r: Request)
    requires Inv(s)
    ensures var s' := Step(s, r);
            forall j :: j in s'.sessions ==> j < s'.nextSession && s'.sessions[j].user in s'.users
  {
  }

  /** A session has one token. */
  lemma TokensStep(s: State, r: Request)
    requires Inv(s)
    ensures var s' := Step(s, r);
            forall t, u :: t in s'.minted && u in s'.minted && t.jti == u.jti ==> t == u
  {
    forall t | t in s.minted ensures t.jti < s.nextSession {
      assert TokenOk(s, t);
    }
  }

  lemma TokenStep(s: State, r: Request, t: Token)
    requires Inv(s) && t in Step(s, r).minted
    ensures TokenOk(Step(s, r), t)
  {
    assert t in s.minted ==> TokenOk(s, t);
    if r.ChangeRole? || r.DeleteUser? {
      AdminTokenStep(s, r, t);
    }
  }

  /** A change of role and a deletion mint nothing and take the sessions of their target. */
  lemma AdminTokenStep(s: State, r: Request, t: Token)
    requires TokenOk(s, t) && (r.ChangeRole? || r.DeleteUser?)
    ensures Step(s, r).minted == s.minted && TokenOk(Step(s, r), t)
  {
  }

  lemma {:induction false} RunKeeps(s: State, requests: seq<Request>)
    requires Inv(s)
    ensures Inv(Run(s, requests))
    decreases |requests|
  {
    if requests != [] {
      StepKeeps(s, requests[0]);
      RunKeeps(Step(s, requests[0]), requests[1..]);
    }
  }

  /** In every reachable state an accepted token belongs to an existing user and carries that user's
      current role. */
  lemma AcceptedTokensAreCurrent(requests: seq<Request>, t: Token)
    requires Accepts(Run(EMPTY, requests), t)
    ensures var s := Run(EMPTY, requests);
            t.sub in s.users && s.users[t.sub].isAdmin == t.isAdmin
  {
    RunKeeps(EMPTY, requests);
    assert TokenOk(Run(EMPTY, requests), t);
  }

  lemma RejectionStep(s: State, r: Request, t: Token)
    requires Inv(s) && t in s.minted && !Accepts(s, t)
    ensures t in Step(s, r).minted && !Accepts(Step(s, r), t)
  {
    assert TokenOk(s, t);
  }

  /** A token that was rejected once, for expiry or revocation, is rejected for ever. */
  lemma {:induction false} RejectionIsFinal(s: State, requests: seq<Request>, t: Token)
    requires Inv(s) && t in s.minted && !Accepts(s, t)
    ensures !Accepts(Run(s, requests), t)
    decreases |requests|
  {
    if requests != [] {
      RejectionStep(s, requests[0], t);
      StepKeeps(s, requests[0]);
      RejectionIsFinal(Step(s, requests[0]), requests[1..], t);
    }
  }

  /** The same over whole runs: whatever happens after a rejection. */
  lemma RejectedTokensStayRejected(before: seq<Request>, after: seq<Request>, t: Token)
    requires t in Run(EMPTY, before).minted && !Accepts(Run(EMPTY, before), t)
    ensures !Accepts(Run(Run(EMPTY, before), after), t)
  {
    RunKeeps(EMPTY, before);
    RejectionIsFinal(Run(EMPTY, before), after, t);
  }

  /** The user whose tokens a request takes away, if it goes through. */
  function Victim(s: State, r: Request): Option<UserId> {
    match r
    case LogoutAll(t) => if Accepts(s, t) then Some(t.sub) else None
    case ChangePassword(t, oldPassword, newPassword, strong) =>
      if Accepts(s, t) && t.sub in s.users && s.users[t.sub].password == oldPassword && strong
      then Some(t.sub) else None
    case ChangeRole(t, target, _) =>
      if AcceptsAdmin(s, t) && !NamesCaller(target, t) && target.parsed.Some? && target.parsed.value in s.users
      then target.parsed else None
    case DeleteUser(t, target) =>
      if AcceptsAdmin(s, t) && !NamesCaller(target, t) && target.parsed.Some? && target.parsed.value in s.users
      then target.parsed else None
    case _ => None
  }

  /** Apart from time passing, a request takes away exactly the tokens of its victim, or the one token
      that logs out, and leaves every other token as it was. */
  lemma RevocationIsExact(s: State, r: Request, t: Token)
    requires Inv(s) && !r.Tick? && t in s.minted
    ensures Accepts(Step(s, r), t) <==>
            Accepts(s, t) && Victim(s, r) != Some(t.sub) && r != Logout(t)
  {
    assert TokenOk(s, t);
  }

  /** No run gives two users one e-mail. */
  lemma EmailsStayApart(requests: seq<Request>, u: UserId, v: UserId)
    requires var users := Run(EMPTY, requests).users; u in users && v in users && users[u].email == users[v].email
    ensures u == v
  {
    RunKeeps(EMPTY, requests);
  }

  /** A login with the e-mail and the password of a user yields a token of that user, and no other,
      which is accepted until it expires. */
  lemma LoginIsAccepted(s: State, user: UserId, email: Email, password: Password)
    requires Inv(s) && user in s.users && s.users[user].email == email && s.users[user].password == password
    ensures var t := Token(user, s.users[user].isAdmin, s.nextSession, s.now + 28800);
            && t !in s.minted
            && forall span: nat :: Accepts(Step(Step(s, Login(email, password)), Tick(span)), t) <==> span < 28800
  {
    var t := Token(user, s.users[user].isAdmin, s.nextSession, s.now + TOKEN_LIFE);
    assert t in s.minted ==> TokenOk(s, t);
  }

  /** A registration that goes through answers with a token of the new user, accepted for as long. */
  lemma RegistrationIsAccepted(s: State, email: Email, password: Password, span: nat)
    requires Inv(s) && UserOf(s.users, email).None?
    ensures var t := Token(s.nextUser, false, s.nextSession, s.now + 28800);
            Accepts(Step(Step(s, Register(email, password, true)), Tick(span)), t) <==> span < 28800
  {
  }

  // ----- who has an account, and who can log in -----

  /** Somebody has an account with this e-mail, password and role. */
  ghost predicate HasAccount(s: State, account: User) {
    exists u :: u in s.users && s.users[u] == account
  }

  ghost predicate Taken(s: State, email: Email) {
    exists u :: u in s.users && s.users[u].email == email
  }

  /** A login does nothing unless there is an account with the e-mail and the password. */
  lemma LoginNeedsAccount(s: State, email: Email, password: Password)
    requires Inv(s)
    ensures Step(s, Login(email, password)) != s <==>
            exists isAdmin :: HasAccount(s, User(email, password, isAdmin))
  {
    if isAdmin :| HasAccount(s, User(email, password, isAdmin)) {
      var u :| u in s.users && s.users[u] == User(email, password, isAdmin);
      LoginIsAccepted(s, u, email, password);
    } else if UserOf(s.users, email).Some? {
      var u := UserOf(s.users, email).value;
      assert !HasAccount(s, User(email, password, s.users[u].isAdmin));
    }
  }

  /** The accounts after a request: which it adds, with what password and role, which it changes and which
      it takes away. */
  ghost predicate HasAccountAfter(s: State, r: Request, account: User) {
    match r
    case Bootstrap(email, password) =>
      HasAccount(s, account) || (s.users == map[] && account == User(email, password, true))
    case Register(email, password, valid) =>
      HasAccount(s, account) || (valid && !Taken(s, email) && account == User(email, password, false))
    case Invite(t, email, password, isAdmin, valid) =>
      HasAccount(s, account)
      || (Accepts(s, t) && t.isAdmin && valid && !Taken(s, email) && account == User(email, password, isAdmin))
    case ChangePassword(t, oldPassword, newPassword, strong) =>
      if Accepts(s, t) && t.sub in s.users && s.users[t.sub].email == account.email
         && s.users[t.sub].password == oldPassword && strong
      then account == User(s.users[t.sub].email, newPassword, s.users[t.sub].isAdmin)
      else HasAccount(s, account)
    case ChangeRole(t, target, isAdmin) =>
      if Targets(s, t, target) && s.users[target.parsed.value].email == account.email
      then account == User(account.email, s.users[target.parsed.value].password, isAdmin)
      else HasAccount(s, account)
    case DeleteUser(t, target) =>
      HasAccount(s, account) && !(Targets(s, t, target) && s.users[target.parsed.value].email == account.email)
    case _ => HasAccount(s, account)
  }

  /** An admin's request about another user, as far as the spelling of the id tells. */
  ghost predicate Targets(s: State, t: Token, target: RawId) {
    && Accepts(s, t) && t.isAdmin && target.parsed.Some? && target.parsed.value in s.users
    && !(target.canonical && target.parsed.value == t.sub)
  }

  lemma AddedAccount(s: State, added: User, account: User)
    requires Inv(s)
    ensures HasAccount(WithUser(s, added), account) <==> HasAccount(s, account) || account == added
  {
    var s' := WithUser(s, added);
    assert s'.users[s.nextUser] == added;
    if HasAccount(s, account) {
      var u :| u in s.users && s.users[u] == account;
      assert s'.users[u] == account;
    }
  }

  lemma ReplacedAccount(users: map<UserId, User>, u: UserId, changed: User, s: State, s': State, account: User)
    requires EmailsDiffer(users) && u in users && changed.email == users[u].email
    requires s.users == users && s'.users == users[u := changed]
    ensures HasAccount(s', account) <==>
            if account.email == users[u].email then account == changed else HasAccount(s, account)
  {
    assert s'.users[u] == changed;
    if account.email != users[u].email && HasAccount(s, account) {
      var v :| v in users && users[v] == account;
      assert s'.users[v] == account;
    }
  }

  lemma RemovedAccount(s: State, u: UserId, account: User)
    requires EmailsDiffer(s.users) && u in s.users
    ensures HasAccount(WithoutUser(s, u), account) <==> HasAccount(s, account) && account.email != s.users[u].email
  {
    if HasAccount(s, account) && account.email != s.users[u].email {
      var v :| v in s.users && s.users[v] == account;
      assert WithoutUser(s, u).users[v] == account;
    }
  }

  lemma SameAccounts(s: State, s': State, account: User)
    requires s'.users == s.users
    ensures HasAccount(s', account) <==> HasAccount(s, account)
  {
  }

  /** Whatever the request, the accounts afterwards are exactly these. */
  lemma AccountsAfter(s: State, r: Request, account: User)
    requires Inv(s)
    ensures HasAccount(Step(s, r), account) <==> HasAccountAfter(s, r, account)
  {
    match r
    case Bootstrap(email, password) => AddedAccount(s, User(email, password, true), account);
    case Register(email, password, valid) => RegistrationAdds(s, email, password, valid, account);
    case Invite(t, email, password, isAdmin, valid) => AddedAccount(s, User(email, password, isAdmin), account);
    case ChangePassword(t, oldPassword, newPassword, strong) =>
      if t.sub in s.users {
        PasswordReplaced(s, t, oldPassword, newPassword, strong, account);
      }
    case ChangeRole(t, target, isAdmin) =>
      if Targets(s, t, target) {
        var u := target.parsed.value;
        ReplacedAccount(s.users, u, s.users[u].(isAdmin := isAdmin), s, Step(s, r), account);
      }
    case DeleteUser(t, target) =>
      if Targets(s, t, target) {
        RemovedAccount(s, target.parsed.value, account);
      }
    case Login(_, _) => SameAccounts(s, Step(s, r), account);
    case Logout(_) => SameAccounts(s, Step(s, r), account);
    case LogoutAll(_) => SameAccounts(s, Step(s, r), account);
    case Tick(_) => SameAccounts(s, Step(s, r), account);
  }

  lemma RegistrationAdds(s: State, email: Email, password: Password, valid: bool, account: User)
    requires Inv(s)
    ensures var r := Register(email, password, valid);
            HasAccount(Step(s, r), account) <==> HasAccountAfter(s, r, account)
  {
    var added := WithUser(s, User(email, password, false));
    AddedAccount(s, User(email, password, false), account);
    if valid && UserOf(s.users, email).None? {
      SameAccounts(added, Minted(added, s.nextUser), account);
    }
  }

  lemma PasswordReplaced(s: State, t: Token, oldPassword: Password, newPassword: Password, strong: bool, account: User)
    requires Inv(s) && t.sub in s.users
    ensures var r := ChangePassword(t, oldPassword, newPassword, strong);
            HasAccount(Step(s, r), account) <==> HasAccountAfter(s, r, account)
  {
    var r := ChangePassword(t, oldPassword, newPassword, strong);
    if Accepts(s, t) && s.users[t.sub].password == oldPassword && strong {
      ReplacedAccount(s.users, t.sub, s.users[t.sub].(password := newPassword), s, Step(s, r), account);
    }
  }

  /** After a password is changed, the new one logs in and the old one does not. */
  lemma NewPasswordLogsIn(s: State, t: Token, oldPassword: Password, newPassword: Password)
    requires Inv(s) && Accepts(s, t) && t.sub in s.users
    requires s.users[t.sub].password == oldPassword != newPassword
    ensures var s', email := Step(s, ChangePassword(t, oldPassword, newPassword, true)), s.users[t.sub].email;
            && Step(s', Login(email, oldPassword)) == s'
            && Step(s', Login(email, newPassword)).minted ==
               s'.minted + {Token(t.sub, s.users[t.sub].isAdmin, s'.nextSession, s'.now + 28800)}
  {
    var r, email := ChangePassword(t, oldPassword, newPassword, true), s.users[t.sub].email;
    var s' := Step(s, r);
    StepKeeps(s, r);
    forall isAdmin ensures !HasAccount(s', User(email, oldPassword, isAdmin)) {
      AccountsAfter(s, r, User(email, oldPassword, isAdmin));
    }
    LoginNeedsAccount(s', email, oldPassword);
    assert s'.users[t.sub] == User(email, newPassword, s.users[t.sub].isAdmin);
  }

  // ----- the last admin -----

  ghost predicate IsAdmin(s: State, u: UserId) {
    u in s.users && s.users[u].isAdmin
  }

  ghost predicate HasAdmin(s: State) {
    exists u :: IsAdmin(s, u)
  }

  /** Whether the request takes the role, or the account, of its target. */
  predicate Unseats(r: Request) {
    r.DeleteUser? || (r.ChangeRole? && !r.isAdmin)
  }

  /** The caller is the only admin, and names itself in a spelling that differs from its own. */
  ghost predicate RemovesLastAdmin(s: State, r: Request) {
    && Unseats(r) && AcceptsAdmin(s, r.token)
    && r.target.parsed == Some(r.token.sub) && !r.target.canonical
    && forall u :: IsAdmin(s, u) ==> u == r.token.sub
  }

  /** Exactly such a request leaves the service without an admin. */
  lemma LastAdminLost(s: State, r: Request)
    requires Inv(s) && HasAdmin(s)
    ensures !HasAdmin(Step(s, r)) <==> RemovesLastAdmin(s, r)
  {
    if RemovesLastAdmin(s, r) {
      LastAdminGoes(s, r);
    } else if Unseats(r) && AcceptsAdmin(s, r.token) {
      assert TokenOk(s, r.token);
      assert IsAdmin(s, r.token.sub);
      if r.target.parsed != Some(r.token.sub) || r.target.canonical {
        AdminStays(s, r, r.token.sub);
      } else {
        var u :| IsAdmin(s, u) && u != r.token.sub;
        AdminStays(s, r, u);
      }
    } else {
      var u :| IsAdmin(s, u);
      AdminStays(s, r, u);
    }
  }

  lemma LastAdminGoes(s: State, r: Request)
    requires Inv(s) && RemovesLastAdmin(s, r)
    ensures !HasAdmin(Step(s, r))
  {
    assert TokenOk(s, r.token);
    assert forall u :: IsAdmin(Step(s, r), u) ==> IsAdmin(s, u);
  }

  /** Only a request that gets past its checks unseats an admin, its target. */
  lemma AdminStays(s: State, r: Request, u: UserId)
    requires Inv(s) && IsAdmin(s, u)
    requires Unseats(r) && AcceptsAdmin(s, r.token) && r.target.parsed == Some(u) ==> NamesCaller(r.target, r.token)
    ensures IsAdmin(Step(s, r), u)
  {
  }

  ghost predicate CanonicalIds(requests: seq<Request>) {
    forall i :: 0 <= i < |requests| && Unseats(requests[i]) ==> requests[i].target.canonical
  }

  lemma {:induction false} AdminRemains(s: State, requests: seq<Request>)
    requires Inv(s) && HasAdmin(s) && CanonicalIds(requests)
    ensures HasAdmin(Run(s, requests))
    decreases |requests|
  {
    if requests != [] {
      assert Unseats(requests[0]) ==> requests[0].target.canonical;
      LastAdminLost(s, requests[0]);
      StepKeeps(s, requests[0]);
      AdminRemains(Step(s, requests[0]), requests[1..]);
    }
  }

  /** From the bootstrap on there is always an admin, as long as ids are spelled canonically. */
  lemma AdminAlwaysExists(email: Email, password: Password, requests: seq<Request>)
    requires CanonicalIds(requests)
    ensures HasAdmin(Run(Step(EMPTY, Bootstrap(email, password)), requests))
  {
    var s := Step(EMPTY, Bootstrap(email, password));
    assert IsAdmin(s, 0);
    AdminRemains(s, requests);
  }

  /** Without that, two requests suffice: the admin logs in and demotes itself. */
  lemma SpellingCanUnseat(email: Email, password: Password)
    ensures var s := Step(EMPTY, Bootstrap(email, password));
            var token := Token(0, true, 0, TOKEN_LIFE);
            !HasAdmin(Step(Step(s, Login(email, password)), ChangeRole(token, RawId(Some(0), false), false)))
  {
    var s := Step(EMPTY, Bootstrap(email, password));
    var s1 := Step(s, Login(email, password));
    StepKeeps(EMPTY, Bootstrap(email, password));
    StepKeeps(s, Login(email, password));
    assert IsAdmin(s1, 0);
    LastAdminLost(s1, ChangeRole(Token(0, true, 0, TOKEN_LIFE), RawId(Some(0), false), false));
  }

  // ----- the service itself -----

  /** The tables behind the routes; every handler does to them what the corresponding request does
      to the state above. */
  class AuthService {
    var now: int
    var users: map<UserId, User>
    var nextUser: UserId
    var sessions: map<SessionId, Session>
    var nextSession: SessionId
    /** The tokens whose signature verifies. */
    var minted: set<Token>

    ghost function Snapshot(): State
      reads this
    {
      State(now, users, nextUser, sessions, nextSession, minted)
    }

    ghost predicate Valid()
      reads this
    {
      Inv(Snapshot())
    }

    constructor ()
      ensures Valid() && Snapshot() == EMPTY
    {
      now, users, nextUser, sessions, nextSession, minted := 0, map[], 0, map[], 0, {};
    }

    /** The signature and expiry check, then the session lookup. */
    method DecodeToken(t: Token) returns (accepted: bool)
      ensures accepted == Accepts(Snapshot(), t)
    {
      if t !in minted || t.exp < now {
        return false;
      }
      if t.jti !in sessions {
        return false;
      }
      var active := sessions[t.jti];
      return !active.revoked && now < active.expires;
    }

    /** The lookup by e-mail. */
    method FindByEmail(email: Email) returns (user: Option<UserId>)
      requires EmailsDiffer(users)
      ensures user == UserOf(users, email)
    {
      if u :| u in users && users[u].email == email {
        return Some(u);
      }
      user := None;
    }

    method CreateUser(email: Email, password: Password, isAdmin: bool) returns (user: UserId)
      modifies this`users, this`nextUser
      ensures user == old(nextUser)
      ensures Snapshot() == WithUser(old(Snapshot()), User(email, password, isAdmin))
    {
      user := nextUser;
      users := users[user := User(email, password, isAdmin)];
      nextUser := nextUser + 1;
    }

    method CreateAccessToken(user: UserId) returns (t: Token)
      requires user in users
      modifies this`sessions, this`nextSession, this`minted
      ensures Snapshot() == Minted(old(Snapshot()), user)
      ensures t == Token(user, users[user].isAdmin, old(nextSession), now + TOKEN_LIFE)
    {
      var expires := now + TOKEN_LIFE;
      sessions := sessions[nextSession := Session(user, expires, false)];
      t := Token(user, users[user].isAdmin, nextSession, expires);
      nextSession := nextSession + 1;
      minted := minted + {t};
    }

    /** Answers how many sessions were active until now. */
    method RevokeAllUserSessions(user: UserId) returns (count: nat)
      modifies this`sessions
      ensures sessions == RevokedFor(old(sessions), user)
      ensures count == |set j | j in old(sessions) && old(sessions)[j].user == user && !old(sessions)[j].revoked|
    {
      count := |set j | j in sessions && sessions[j].user == user && !sessions[j].revoked|;
      sessions := sessions + (map j | j in sessions && sessions[j].user == user && !sessions[j].revoked ::
                                sessions[j].(revoked := true));
    }

    method EnsureAdminExists(email: Email, password: Password)
      requires Valid()
      modifies this
      ensures Valid() && Snapshot() == Step(old(Snapshot()), Bootstrap(email, password))
    {
      StepKeeps(Snapshot(), Bootstrap(email, password));
      if |users| == 0 {
        var _ := CreateUser(email, password, true);
      }
    }

    /** Registration answers with a token, unless the checks fail or the e-mail is taken. */
    method RegisterUser(email: Email, password: Password, valid: bool) returns (t: Option<Token>)
      requires Valid()
      modifies this
      ensures Valid() && Snapshot() == Step(old(Snapshot()), Register(email, password, valid))
      ensures t == if valid && UserOf(old(users), email).None?
                   then Some(Token(old(nextUser), false, old(nextSession), now + TOKEN_LIFE)) else None
    {
      StepKeeps(Snapshot(), Register(email, password, valid));
      t := None;
      if valid {
        var existing := FindByEmail(email);
        if existing.None? {
          var user := CreateUser(email, password, false);
          var token := CreateAccessToken(user);
          t := Some(token);
        }
      }
    }

    method LogIn(email: Email, password: Password) returns (t: Option<Token>)
      requires Valid()
      modifies this
      ensures Valid() && Snapshot() == Step(old(Snapshot()), Login(email, password))
      ensures var user := UserOf(users, email);
              t == if user.Some? && users[user.value].password == password
                   then Some(Token(user.value, users[user.value].isAdmin, old(nextSession), now + TOKEN_LIFE))
                   else None
    {
      StepKeeps(Snapshot(), Login(email, password));
      t := None;
      var user := FindByEmail(email);
      if user.Some? && users[user.value].password == password {
        var token := CreateAccessToken(user.value);
        t := Some(token);
      }
    }

    method LogOut(t: Token)
      requires Valid()
      modifies this
      ensures Valid() && Snapshot() == Step(old(Snapshot()), Logout(t))
    {
      StepKeeps(Snapshot(), Logout(t));
      var accepted := DecodeToken(t);
      if accepted {
        sessions := sessions[t.jti := sessions[t.jti].(revoked := true)];
      }
    }

    method LogOutAll(t: Token)
      requires Valid()
      modifies this
      ensures Valid() && Snapshot() == Step(old(Snapshot()), LogoutAll(t))
    {
      StepKeeps(Snapshot(), LogoutAll(t));
      var accepted := DecodeToken(t);
      if accepted {
        var _ := RevokeAllUserSessions(t.sub);
      }
    }

    /** An invitation answers with the new user, unless it is refused. */
    method InviteUser(t: Token, email: Email, password: Password, isAdmin: bool, valid: bool)
      returns (user: Option<UserId>)
      requires Valid()
      modifies this
      ensures Valid() && Snapshot() == Step(old(Snapshot()), Invite(t, email, password, isAdmin, valid))
      ensures user == if AcceptsAdmin(old(Snapshot()), t) && valid && UserOf(old(users), email).None?
                      then Some(old(nextUser)) else None
    {
      StepKeeps(Snapshot(), Invite(t, email, password, isAdmin, valid));
      user := None;
      var accepted := DecodeToken(t);
      if accepted && t.isAdmin && valid {
        var existing := FindByEmail(email);
        if existing.None? {
          var created := CreateUser(email, password, isAdmin);
          user := Some(created);
        }
      }
    }

    method ChangeOwnPassword(t: Token, oldPassword: Password, newPassword: Password, strong: bool)
      requires Valid()
      modifies this
      ensures Valid() && Snapshot() == Step(old(Snapshot()), ChangePassword(t, oldPassword, newPassword, strong))
    {
      StepKeeps(Snapshot(), ChangePassword(t, oldPassword, newPassword, strong));
      var accepted := DecodeToken(t);
      if !accepted || t.sub !in users {
        return;
      }
      if users[t.sub].password != oldPassword || !strong {
        return;
      }
      users := users[t.sub := users[t.sub].(password := newPassword)];
      var _ := RevokeAllUserSessions(t.sub);
    }

    method ChangeUserRole(t: Token, target: RawId, isAdmin: bool)
      requires Valid()
      modifies this
      ensures Valid() && Snapshot() == Step(old(Snapshot()), ChangeRole(t, target, isAdmin))
    {
      StepKeeps(Snapshot(), ChangeRole(t, target, isAdmin));
      var accepted := DecodeToken(t);
      if !accepted || !t.isAdmin || NamesCaller(target, t) || target.parsed.None? {
        return;
      }
      var u := target.parsed.value;
      if u !in users {
        return;
      }
      users := users[u := users[u].(isAdmin := isAdmin)];
      var _ := RevokeAllUserSessions(u);
    }

    method DeleteOtherUser(t: Token, target: RawId)
      requires Valid()
      modifies this
      ensures Valid() && Snapshot() == Step(old(Snapshot()), DeleteUser(t, target))
    {
      StepKeeps(Snapshot(), DeleteUser(t, target));
      var accepted := DecodeToken(t);
      if !accepted || !t.isAdmin || NamesCaller(target, t) || target.parsed.None? {
        return;
      }
      var u := target.parsed.value;
      if u !in users {
        return;
      }
      var _ := RevokeAllUserSessions(u);
      RevokedAndGone(old(sessions), u);
      users := users - {u};
      sessions := OthersSessions(sessions, u);
    }
  }
}
