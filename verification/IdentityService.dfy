/** What each identity request does to the committed tables, taken as one step
    (app/modules/identity/service.py and router.py, app/core/deps.py).
    `IdentityDatabase` holds the statement-by-statement form and proves that it
    commits exactly this. */
module IdentityService {
  import opened Prelude
  import opened Security
  import opened Rbac
  import opened IdentityModels

  // --- Lookups ---------------------------------------------------------------

  /** `scalar_one_or_none`: no row, one row, or an error. */
  datatype Found = NoRow | OneRow(id: string) | ManyRows

  predicate SameEmail(u: User, email: string) {
    Lower(u.email) == Lower(email)
  }

  /** No two accounts have addresses that differ at most in case. */
  predicate AddressesApart(users: map<string, User>) {
    forall u, v | u in users && v in users && SameEmail(users[u], users[v].email) :: u == v
  }

  function WithEmail(users: map<string, User>, email: string): set<string> {
    set u | u in users && SameEmail(users[u], email)
  }

  function FindByEmail(users: map<string, User>, email: string): (r: Found)
    ensures r.OneRow? ==> r.id in users && SameEmail(users[r.id], email)
  {
    var hits := WithEmail(users, email);
    if hits == {} then NoRow
    else if |hits| == 1 then
      SingletonUnique(hits);
      var u :| u in hits;
      OneRow(u)
    else ManyRows
  }

  /** The lookup fails exactly when no account has the address, ignoring case,
      and answers exactly when one and only one has it. */
  lemma FindByEmailMeaning(users: map<string, User>, email: string)
    ensures FindByEmail(users, email).NoRow? <==> forall u | u in users :: Lower(users[u].email) != Lower(email)
    ensures forall id :: FindByEmail(users, email) == OneRow(id) <==>
              id in users && Lower(users[id].email) == Lower(email)
              && forall v | v in users && Lower(users[v].email) == Lower(email) :: v == id
  {
    var hits := WithEmail(users, email);
    assert forall u :: u in hits <==> u in users && SameEmail(users[u], email);
    if |hits| == 1 {
      SingletonUnique(hits);
    } else if hits != {} {
      NotSingleton(hits);
    }
  }

  lemma NotSingleton<T>(s: set<T>)
    requires s != {} && |s| != 1
    ensures forall x | x in s :: exists y :: y in s && y != x
  {
    forall x | x in s
      ensures exists y :: y in s && y != x
    {
      assert |s - {x}| != 0;
      var y :| y in s - {x};
      assert y in s && y != x;
    }
  }

  // --- Tokens and principals ---------------------------------------------------

  function TokensForSession(s: Settings, uid: string, user: User, sid: string, jti: string, now: nat): Pair {
    Pair(AccessToken(s, uid, user.email, user.roleId, sid, now), RefreshToken(s, uid, sid, jti, now))
  }

  function GetCurrentPrincipal(db: Tables, bearer: Bearer, now: nat): Result<Principal, Cause> {
    if bearer.NoToken? then Failure(MissingToken)
    else
      var decoded := DecodeToken(bearer, now);
      if decoded.Failure? then Failure(if decoded.error == Expired then ExpiredToken else InvalidToken)
      else
        var c := decoded.value;
        if c.typ != None && c.typ != Some(Access) then Failure(WrongType)
        else if c.sub == "" then Failure(NoSubject)
        else if c.sub !in db.users then Failure(UserGone)
        else if !IsActive(db.users[c.sub]) then Failure(AccountDisabled)
        else if Truthy(c.sid) && (c.sid.value !in db.sessions || !Live(db.sessions[c.sid.value], now)) then
          Failure(SessionGone)
        else
          var user := db.users[c.sub];
          if user.roleId !in db.roles then Failure(RoleGone)
          else Success(Principal(c.sub, user.email, user.roleId, db.roles[user.roleId].permissions,
                                 c.sid, user.mustReset))
  }

  /** The permission a command's route asks for; None: any caller. */
  function Needs(command: Command): Option<(PermKey, PermAction)> {
    match command
    case ViewAs(key, action) => Some((key, action))
    case CreateUser(_) => Some((UserManagement, Edit))
    case UpdateUser(_, _) => Some((UserManagement, Edit))
    case SaveRole(_) => Some((RoleManagement, Edit))
    case SetPermissions(_, _) => Some((RoleManagement, Edit))
    case _ => None
  }

  function Guard(db: Tables, bearer: Bearer, command: Command, now: nat): Result<Principal, Cause> {
    var caller := GetCurrentPrincipal(db, bearer, now);
    if caller.Failure? then caller
    else
      var need := Needs(command);
      if need.Some? && !HasPermission(caller.value.permissions, need.value.0, need.value.1) then
        Failure(Forbidden)
      else caller
  }

  // --- Writing rows --------------------------------------------------------------

  function PutUser(db: Tables, uid: string, user: User): Tables {
    db.(users := db.users[uid := user])
  }

  function PutSession(db: Tables, sid: string, session: UserSession): Tables {
    db.(sessions := db.sessions[sid := session])
  }

  function AddAudit(db: Tables, row: AuditRow): Tables {
    db.(audit := db.audit + [row])
  }

  // --- Sign-in -------------------------------------------------------------------

  function LockUntil(s: Settings, now: nat): int {
    now + s.lockoutMinutes * MICROS_PER_MINUTE
  }

  function ExpiryFrom(s: Settings, now: nat): int {
    now + s.refreshMinutes * MICROS_PER_MINUTE
  }

  function AfterWrongPassword(s: Settings, user: User, now: nat): User {
    if user.failed + 1 >= s.maxFailedLogins then
      user.(failed := 0, lockedUntil := Some(LockUntil(s, now)))
    else
      user.(failed := user.failed + 1)
  }

  function AfterSignIn(env: Env, user: User, password: string, salt: string, now: nat): User {
    user.(failed := 0, lockedUntil := None, lastLogin := Some(now),
          hashed := if NeedsRehash(env.prims, user.hashed) then HashPassword(env.prims, password, salt)
                    else user.hashed)
  }

  function NewSession(s: Settings, uid: string, jti: string, client: Client, now: nat): UserSession {
    UserSession(uid, jti, client, now, ExpiryFrom(s, now), None, now)
  }

  predicate Locked(user: User, now: nat) {
    user.lockedUntil.Some? && user.lockedUntil.value > now
  }

  function LoginStep(env: Env, db: Tables, email: string, password: string,
                     client: Client, now: nat, draw: Draw): Outcome
  {
    match FindByEmail(db.users, email)
    case NoRow => Outcome(db, Failure(UnknownEmail))
    case ManyRows => Outcome(db, Failure(AmbiguousRow))
    case OneRow(uid) =>
      var user := db.users[uid];
      if Locked(user, now) then Outcome(db, Failure(AccountLocked(uid)))
      else if !IsActive(user) then Outcome(db, Failure(AccountDisabled))
      else if !VerifyPassword(env.prims, password, user.hashed) then
        Outcome(PutUser(db, uid, AfterWrongPassword(env.settings, user, now)),
                Failure(if user.failed + 1 >= env.settings.maxFailedLogins then LockedOut(uid)
                        else WrongPassword(uid)))
      else
        var user' := AfterSignIn(env, user, password, draw.salt, now);
        var db1 := PutUser(db, uid, user');
        var db2 := PutSession(db1, draw.sid, NewSession(env.settings, uid, draw.jti, client, now));
        Outcome(AddAudit(db2, AuditRow(user'.email, uid, SignedIn, Some(uid), client, now)),
                Success(LoggedIn(TokensForSession(env.settings, uid, user', draw.sid, draw.jti, now))))
  }

  // --- Refresh ---------------------------------------------------------------------

  function Or(newer: Option<string>, kept: Option<string>): Option<string> {
    if Truthy(newer) then newer else kept
  }

  function AfterRefresh(s: Settings, session: UserSession, jti: string, client: Client, now: nat): UserSession {
    session.(refreshJti := jti, lastSeenAt := now, expiresAt := ExpiryFrom(s, now),
             client := Client(Or(client.userAgent, session.client.userAgent), Or(client.ip, session.client.ip)))
  }

  function RefreshStep(env: Env, db: Tables, token: Bearer, client: Client, now: nat, draw: Draw): Outcome {
    var decoded := DecodeToken(token, now);
    if decoded.Failure? then Outcome(db, Failure(BadRefreshToken))
    else
      var c := decoded.value;
      if c.typ != Some(Security.Refresh) then Outcome(db, Failure(NotRefreshToken))
      else if c.sid.None? || c.sid.value !in db.sessions || !Live(db.sessions[c.sid.value], now) then
        Outcome(db, Failure(SessionGone))
      else
        var sid := c.sid.value;
        var session := db.sessions[sid];
        var revoked := PutSession(db, sid, session.(revokedAt := Some(now)));
        var uid := session.userId;
        if Some(session.refreshJti) != c.jti then Outcome(revoked, Failure(TokenReused(uid, sid)))
        else if uid !in db.users || !IsActive(db.users[uid]) then
          Outcome(revoked, Failure(OwnerInactive(uid, sid)))
        else
          Outcome(PutSession(db, sid, AfterRefresh(env.settings, session, draw.jti, client, now)),
                  Success(Refreshed(TokensForSession(env.settings, uid, db.users[uid], sid, draw.jti, now))))
  }

  // --- Commands of a signed-in caller ----------------------------------------------

  predicate Revocable(db: Tables, sid: Option<string>) {
    Truthy(sid) && sid.value in db.sessions && db.sessions[sid.value].revokedAt.None?
  }

  function RevokeSession(db: Tables, sid: Option<string>, now: nat): Tables {
    if Revocable(db, sid) then
      PutSession(db, sid.value, db.sessions[sid.value].(revokedAt := Some(now)))
    else db
  }

  /** The unique index on addresses, which compares exact spellings. */
  predicate EmailTaken(db: Tables, uid: string, email: string) {
    exists v :: v in db.users && v != uid && db.users[v].email == email
  }

  function Updated(env: Env, user: User, c: UserUpdate, salt: string, now: nat): User {
    user.(
      roleId := if Truthy(c.role) then c.role.value else user.roleId,
      profile := Profile(if c.fullName.Some? then c.fullName.value else user.profile.fullName,
                         if c.phone.Some? then c.phone else user.profile.phone,
                         if c.department.Some? then c.department else user.profile.department),
      email := if c.email.Some? then c.email.value else user.email,
      status := if c.status.Some? then c.status.value else user.status,
      hashed := if Truthy(c.password) then HashPassword(env.prims, c.password.value, salt) else user.hashed,
      passwordChangedAt := if Truthy(c.password) then Some(now) else user.passwordChangedAt)
  }

  function Created(env: Env, c: UserCreate, salt: string, now: nat): User {
    User(c.profile, c.email, HashPassword(env.prims, c.password, salt), c.role, c.status,
         None, 0, None, c.mustReset, Some(now))
  }

  function Slug(name: string): string {
    var low := Lower(name);
    seq(|low|, i requires 0 <= i < |low| => if low[i] == ' ' then '_' else low[i])
  }

  function RoleIdOf(c: RoleUpsert): string {
    if Truthy(c.id) then c.id.value else Slug(c.name)
  }

  function SavedRoleRow(db: Tables, c: RoleUpsert): Role {
    var rid := RoleIdOf(c);
    if rid in db.roles then
      Role(c.name, c.description, c.status,
           if c.permissions.Some? then c.permissions.value else db.roles[rid].permissions)
    else
      Role(c.name, c.description, c.status,
           if c.permissions.Some? && c.permissions.value != map[] then c.permissions.value
           else DefaultPermissionsFor(rid))
  }

  /** The change a command makes, without its audit row: the new tables and the
      audit target, or the reason it fails. */
  function Perform(env: Env, db: Tables, who: Principal, command: Command, now: nat, draw: Draw)
    : Result<(Tables, Option<string>), Cause>
  {
    match command
    case ViewAs(_, _) => Success((db, None))
    case Me => Success((db, None))
    case Logout => Success((RevokeSession(db, who.sessionId, now), None))
    case ChangePassword(current, replacement) =>
      if who.id !in db.users then Failure(NotFound)
      else
        var user := db.users[who.id];
        if !VerifyPassword(env.prims, current, user.hashed) then Failure(WrongCurrent)
        else Success((PutUser(db, who.id,
                              user.(hashed := HashPassword(env.prims, replacement, draw.salt),
                                    passwordChangedAt := Some(now), mustReset := false)), None))
    case CreateUser(c) =>
      if c.role !in db.roles then Failure(NotFound)
      else
        (match FindByEmail(db.users, c.email)
         case NoRow => Success((PutUser(db, draw.userId, Created(env, c, draw.salt, now)), Some(draw.userId)))
         case OneRow(_) => Failure(Conflict)
         case ManyRows => Failure(AmbiguousRow))
    case UpdateUser(uid, c) =>
      if uid !in db.users then Failure(NotFound)
      else if Truthy(c.role) && c.role.value != db.users[uid].roleId && c.role.value !in db.roles then
        Failure(NotFound)
      else if c.email.Some? && EmailTaken(db, uid, c.email.value) then Failure(Conflict)
      else Success((PutUser(db, uid, Updated(env, db.users[uid], c, draw.salt, now)), Some(uid)))
    case SaveRole(c) =>
      Success((db.(roles := db.roles[RoleIdOf(c) := SavedRoleRow(db, c)]), Some(RoleIdOf(c))))
    case SetPermissions(rid, permissions) =>
      if rid !in db.roles then Failure(NotFound)
      else Success((db.(roles := db.roles[rid := db.roles[rid].(permissions := permissions)]), Some(rid)))
  }

  /** The audit action a command records; None: it records nothing. */
  function AuditOf(command: Command): Option<Action> {
    match command
    case ViewAs(_, _) => None
    case Me => None
    case Logout => Some(SignedOut)
    case ChangePassword(_, _) => Some(ChangedPassword)
    case CreateUser(_) => Some(CreatedUser)
    case UpdateUser(_, _) => Some(UpdatedUser)
    case SaveRole(_) => Some(SavedRole)
    case SetPermissions(_, _) => Some(UpdatedRolePermissions)
  }

  function CommandStep(env: Env, db: Tables, bearer: Bearer, command: Command,
                       client: Client, now: nat, draw: Draw): Outcome
  {
    var caller := Guard(db, bearer, command, now);
    if caller.Failure? then Outcome(db, Failure(caller.error))
    else
      var who := caller.value;
      var done := Perform(env, db, who, command, now, draw);
      if done.Failure? then Outcome(db, Failure(done.error))
      else
        var action := AuditOf(command);
        Outcome(if action.None? then done.value.0
                else AddAudit(done.value.0,
                              AuditRow(who.email, who.id, action.value, done.value.1, client, now)),
                Success(if command == Logout then SignedOutOf(who) else Allowed(who)))
  }

  function Handle(env: Env, db: Tables, req: Request, client: Client, now: nat, draw: Draw): Outcome {
    match req
    case Login(email, password) => LoginStep(env, db, email, password, client, now, draw)
    case Refresh(token) => RefreshStep(env, db, token, client, now, draw)
    case Authorised(bearer, command) => CommandStep(env, db, bearer, command, client, now, draw)
  }

  // --- When the database fails -------------------------------------------------------

  /** How many flushes and commits a request needs, told by its answer `reply` on the
      tables `db`: a flush for each changed row the code flushes and for its audit
      row, and a commit, deliberate or closing. An address refused by the unique
      index has been sent to the database; every other refusal only reads. */
  function WritesNeeded(db: Tables, req: Request, reply: Reply): nat {
    match reply
    case Success(LoggedIn(_)) => 3
    case Success(Refreshed(_)) => 2
    case Success(SignedOutOf(who)) => if Revocable(db, who.sessionId) then 3 else 2
    case Success(Allowed(_)) => if req.Authorised? && AuditOf(req.command).Some? then 3 else 1
    case Failure(cause) =>
      if cause.WrongPassword? || cause.LockedOut? || cause.TokenReused? || cause.OwnerInactive? then 1
      else if cause.Conflict? && req.Authorised? && req.command.UpdateUser? then 1
      else 0
  }

  /** A request against a database that carries out `writes` more flushes and commits
      and then fails: either it needs no more than that, or it changes nothing. */
  function Served(env: Env, db: Tables, req: Request, client: Client, now: nat, draw: Draw, writes: nat): Outcome {
    var out := Handle(env, db, req, client, now, draw);
    if WritesNeeded(db, req, out.reply) <= writes then out else Outcome(db, Failure(StorageFailed))
  }
}
