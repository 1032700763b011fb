/** What each request commits when it succeeds, row by row, and exactly when the
    commands succeed (app/modules/identity/service.py and router.py). Everything
    not named stays as it was. */
module CommandTheorems {
  import opened Prelude
  import opened Security
  import opened Rbac
  import opened IdentityModels
  import opened IdentityService
  import opened IdentityRuns
  import opened LockoutTheorems
  import opened PasswordTheorems

  /** A sign-in changes four columns of the account, adds one session and one audit
      row, and nothing else. */
  lemma SignInCommits(env: Env, db: Tables, email: string, password: string, client: Client, now: nat, draw: Draw)
    requires draw.sid !in db.sessions
    ensures var out := LoginStep(env, db, email, password, client, now, draw);
      out.reply.Success? ==>
        var p := out.reply.value.pair;
        var uid := p.access.sub;
        && uid in db.users && p.access.sid.Some? && p.refresh.jti.Some? && p.access.sid.value !in db.sessions
        && out.db.users.Keys == db.users.Keys && (forall u | u in db.users && u != uid :: out.db.users[u] == db.users[u])
        && out.db.users[uid] == db.users[uid].(failed := 0, lockedUntil := None, lastLogin := Some(now),
                                               hashed := out.db.users[uid].hashed)
        && out.db.roles == db.roles
        && out.db.sessions == db.sessions[p.access.sid.value :=
             UserSession(uid, p.refresh.jti.value, client, now, now + env.settings.refreshMinutes * MICROS_PER_MINUTE,
                         None, now)]
        && out.db.audit == db.audit + [AuditRow(db.users[uid].email, uid, SignedIn, Some(uid), client, now)]
  {
  }

  /** What a request reports of its client, where it reports anything. */
  predicate Reported(given: Option<string>, before: Option<string>, after: Option<string>) {
    if given == None || given == Some("") then after == before else after == given
  }

  /** An accepted refresh changes one session: its identifier, its times and what is
      known of the client. */
  lemma RefreshCommits(env: Env, db: Tables, c: Claims, client: Client, now: nat, draw: Draw)
    ensures var out := RefreshStep(env, db, Signed(c), client, now, draw);
      out.reply.Success? ==>
        var p := out.reply.value.pair;
        && c.sid.Some? && c.sid.value in db.sessions && p.access.sid == c.sid && p.refresh.jti == Some(draw.jti)
        && c.sid.value in out.db.sessions
        && var before, after := db.sessions[c.sid.value], out.db.sessions[c.sid.value];
        && out.db == db.(sessions := db.sessions[c.sid.value := after])
        && after == before.(refreshJti := draw.jti, lastSeenAt := now, client := after.client,
                            expiresAt := now + env.settings.refreshMinutes * MICROS_PER_MINUTE)
        && Reported(client.userAgent, before.client.userAgent, after.client.userAgent)
        && Reported(client.ip, before.client.ip, after.client.ip)
  {
  }

  // --- Commands ---------------------------------------------------------------------------

  /** The caller's audit row about an action. */
  function RowBy(who: Principal, action: Action, target: Option<string>, client: Client, now: nat): AuditRow {
    AuditRow(who.email, who.id, action, target, client, now)
  }

  /** A command that the guard refuses, and one that only reads, commits nothing. */
  lemma ReadingCommitsNothing(env: Env, db: Tables, b: Bearer, command: Command, client: Client, now: nat, draw: Draw)
    ensures var guard, out := Guard(db, b, command, now), CommandStep(env, db, b, command, client, now, draw);
      && (guard.Failure? ==> out == Outcome(db, Failure(guard.error)))
      && (guard.Success? && (command.Me? || command.ViewAs?) ==> out == Outcome(db, Success(Allowed(guard.value))))
  {
  }

  /** Signing out revokes the caller's session, if it is not revoked, as of now. */
  lemma LogoutCommits(env: Env, db: Tables, b: Bearer, who: Principal, client: Client, now: nat, draw: Draw)
    requires Guard(db, b, Logout, now) == Success(who)
    ensures var out := CommandStep(env, db, b, Logout, client, now, draw);
      && out.reply == Success(SignedOutOf(who))
      && out.db.users == db.users && out.db.roles == db.roles
      && out.db.audit == db.audit + [RowBy(who, SignedOut, None, client, now)]
      && out.db.sessions.Keys == db.sessions.Keys
      && forall sid | sid in db.sessions ::
           out.db.sessions[sid] == if who.sessionId == Some(sid) && sid != "" && db.sessions[sid].revokedAt == None
                                   then db.sessions[sid].(revokedAt := Some(now)) else db.sessions[sid]
  {
  }

  /** A password change succeeds exactly with the right current password. It then
      stores a current hash of the replacement, which the replacement verifies;
      every other account, and everything else of this one, stays. */
  lemma PasswordChangeCommits(env: Env, db: Tables, b: Bearer, who: Principal, current: string, replacement: string,
                              client: Client, now: nat, draw: Draw)
    requires Lawful(env.prims) && Guard(db, b, ChangePassword(current, replacement), now) == Success(who)
    ensures who.id in db.users
    ensures var before := db.users[who.id];
      var out := CommandStep(env, db, b, ChangePassword(current, replacement), client, now, draw);
      && (out.reply == Success(Allowed(who)) <==> VerifyPassword(env.prims, current, before.hashed))
      && (out.reply == Failure(WrongCurrent) <==> !VerifyPassword(env.prims, current, before.hashed))
      && (out.reply.Success? ==>
            && who.id in out.db.users
            && var after := out.db.users[who.id];
            && Current(env.prims, after.hashed) && VerifyPassword(env.prims, replacement, after.hashed)
            && after.hashed == env.prims.argonHash(replacement, draw.salt)
            && out.db == db.(users := db.users[who.id := after],
                             audit := db.audit + [RowBy(who, ChangedPassword, None, client, now)])
            && after == before.(hashed := after.hashed, passwordChangedAt := Some(now), mustReset := false))
  {
    NewHashIsCurrent(env.prims, replacement, draw.salt);
    KeptHashes(env.prims, env.prims.argonHash(replacement, draw.salt));
  }

  predicate AddressFree(users: map<string, User>, email: string) {
    forall v | v in users :: !SameEmail(users[v], email)
  }

  /** An account is created exactly if its role exists and no account has the address
      up to case. The new row has the given columns, a current hash that the given
      password verifies, and a clear lock. */
  lemma CreateUserCommits(env: Env, db: Tables, b: Bearer, who: Principal, c: UserCreate,
                          client: Client, now: nat, draw: Draw)
    requires Lawful(env.prims) && Guard(db, b, CreateUser(c), now) == Success(who)
    ensures var out := CommandStep(env, db, b, CreateUser(c), client, now, draw);
      && (out.reply.Success? <==> c.role in db.roles && AddressFree(db.users, c.email))
      && (out.reply == Failure(NotFound) <==> c.role !in db.roles)
      && (out.reply in {Failure(Conflict), Failure(AmbiguousRow)} <==>
            c.role in db.roles && !AddressFree(db.users, c.email))
      && (out.reply.Success? ==>
            && out.reply == Success(Allowed(who)) && draw.userId in out.db.users
            && var row := out.db.users[draw.userId];
            && out.db == db.(users := db.users[draw.userId := row],
                             audit := db.audit + [RowBy(who, CreatedUser, Some(draw.userId), client, now)])
            && row == User(c.profile, c.email, row.hashed, c.role, c.status, None, 0, None, c.mustReset, Some(now))
            && Current(env.prims, row.hashed) && VerifyPassword(env.prims, c.password, row.hashed))
  {
    FindByEmailMeaning(db.users, c.email);
    NewHashIsCurrent(env.prims, c.password, draw.salt);
    KeptHashes(env.prims, env.prims.argonHash(c.password, draw.salt));
  }

  /** A column that an update may give: the given value if there is one. */
  predicate Given<T(==)>(given: Option<T>, before: T, after: T) {
    match given
    case Some(value) => after == value
    case None => after == before
  }

  /** The account after an update, column by column. The columns of the lock, the
      last sign-in and the reset flag are never touched. */
  predicate UpdatedAsGiven(k: Primitives, c: UserUpdate, before: User, after: User, now: nat) {
    && Given(c.fullName, before.profile.fullName, after.profile.fullName)
    && (if c.phone.Some? then after.profile.phone == c.phone else after.profile.phone == before.profile.phone)
    && (if c.department.Some? then after.profile.department == c.department
        else after.profile.department == before.profile.department)
    && Given(c.email, before.email, after.email)
    && Given(c.status, before.status, after.status)
    && (if c.role == None || c.role == Some("") then after.roleId == before.roleId else after.roleId == c.role.value)
    && (if c.password == None || c.password == Some("") then
          after.hashed == before.hashed && after.passwordChangedAt == before.passwordChangedAt
        else
          && Current(k, after.hashed) && VerifyPassword(k, c.password.value, after.hashed)
          && after.passwordChangedAt == Some(now))
    && after.failed == before.failed && after.lockedUntil == before.lockedUntil
    && after.lastLogin == before.lastLogin && after.mustReset == before.mustReset
  }

  lemma UpdatedMeaning(env: Env, before: User, c: UserUpdate, salt: string, now: nat)
    requires Lawful(env.prims)
    ensures UpdatedAsGiven(env.prims, c, before, Updated(env, before, c, salt, now), now)
  {
    if Truthy(c.password) {
      NewHashIsCurrent(env.prims, c.password.value, salt);
      KeptHashes(env.prims, env.prims.argonHash(c.password.value, salt));
    }
  }

  predicate UpdateFinds(db: Tables, uid: string, c: UserUpdate) {
    && uid in db.users
    && (c.role == None || c.role == Some("") || c.role.value == db.users[uid].roleId || c.role.value in db.roles)
  }

  predicate UpdateClashes(db: Tables, uid: string, c: UserUpdate) {
    c.email.Some? && exists v :: v in db.users && v != uid && db.users[v].email == c.email.value
  }

  lemma UpdateTable(env: Env, db: Tables, who: Principal, uid: string, c: UserUpdate, now: nat, draw: Draw)
    ensures var done := Perform(env, db, who, UpdateUser(uid, c), now, draw);
      && (done == Failure(NotFound) <==> !UpdateFinds(db, uid, c))
      && (done == Failure(Conflict) <==> UpdateFinds(db, uid, c) && UpdateClashes(db, uid, c))
      && (done.Success? <==> UpdateFinds(db, uid, c) && !UpdateClashes(db, uid, c))
      && (done.Success? ==>
            done.value == (PutUser(db, uid, Updated(env, db.users[uid], c, draw.salt, now)), Some(uid)))
  {
    assert UpdateClashes(db, uid, c) <==> c.email.Some? && EmailTaken(db, uid, c.email.value);
  }

  /** An update succeeds exactly if the account exists, a new role exists, and no other
      account has the new address in the same spelling; it then changes the given
      columns of that account. */
  lemma UpdateUserCommits(env: Env, db: Tables, b: Bearer, who: Principal, uid: string, c: UserUpdate,
                          client: Client, now: nat, draw: Draw)
    requires Lawful(env.prims) && Guard(db, b, UpdateUser(uid, c), now) == Success(who)
    ensures var out := CommandStep(env, db, b, UpdateUser(uid, c), client, now, draw);
      && (out.reply == Failure(NotFound) <==> !UpdateFinds(db, uid, c))
      && (out.reply == Failure(Conflict) <==> UpdateFinds(db, uid, c) && UpdateClashes(db, uid, c))
      && (out.reply.Success? <==> UpdateFinds(db, uid, c) && !UpdateClashes(db, uid, c))
      && (out.reply.Success? ==>
            && out.reply == Success(Allowed(who)) && uid in out.db.users
            && out.db == db.(users := db.users[uid := out.db.users[uid]],
                             audit := db.audit + [RowBy(who, UpdatedUser, Some(uid), client, now)])
            && UpdatedAsGiven(env.prims, c, db.users[uid], out.db.users[uid], now))
  {
    UpdateTable(env, db, who, uid, c, now, draw);
    if uid in db.users {
      UpdatedMeaning(env, db.users[uid], c, draw.salt, now);
    }
  }

  /** Saving a role always succeeds. It creates or overwrites one row: the identifier
      is the given one or made from the name; an existing role keeps its matrix
      unless one is given, even an empty one; a new role gets the given matrix, or
      the default one if none or an empty one is given. */
  lemma SaveRoleCommits(env: Env, db: Tables, b: Bearer, who: Principal, c: RoleUpsert,
                        client: Client, now: nat, draw: Draw)
    requires Guard(db, b, SaveRole(c), now) == Success(who)
    ensures var out := CommandStep(env, db, b, SaveRole(c), client, now, draw);
      var rid := if c.id == None || c.id == Some("") then Slug(c.name) else c.id.value;
      && out.reply == Success(Allowed(who)) && rid in out.db.roles
      && var row := out.db.roles[rid];
      && out.db == db.(roles := db.roles[rid := row],
                       audit := db.audit + [RowBy(who, SavedRole, Some(rid), client, now)])
      && SavedAsGiven(db, c, rid, row)
  {
    SavedMeaning(db, c);
  }

  /** The saved row, column by column. */
  predicate SavedAsGiven(db: Tables, c: RoleUpsert, rid: string, row: Role) {
    && row.name == c.name && row.description == c.description && row.status == c.status
    && (if rid in db.roles then Given(c.permissions, db.roles[rid].permissions, row.permissions)
        else if c.permissions.Some? && c.permissions.value.Keys != {} then row.permissions == c.permissions.value
        else GrantsDefaults(row.permissions, rid))
  }

  lemma SavedMeaning(db: Tables, c: RoleUpsert)
    ensures SavedAsGiven(db, c, RoleIdOf(c), SavedRoleRow(db, c))
  {
    DefaultsAre(RoleIdOf(c));
    if c.permissions.Some? && c.permissions.value.Keys == {} {
      assert c.permissions.value == map[];
    }
  }

  /** An identifier made from a name is the name in lower case with underscores for
      spaces. */
  lemma SlugMeaning(name: string)
    ensures |Slug(name)| == |name|
    ensures forall i | 0 <= i < |name| ::
              && Slug(name)[i] != ' ' && !('A' <= Slug(name)[i] <= 'Z')
              && (name[i] == ' ' ==> Slug(name)[i] == '_')
              && (name[i] != ' ' && !('A' <= name[i] <= 'Z') ==> Slug(name)[i] == name[i])
              && ('A' <= name[i] <= 'Z' ==> Slug(name)[i] as int - 'a' as int == name[i] as int - 'A' as int)
  {
  }

  /** Setting a matrix succeeds exactly if the role exists, and changes only that. */
  lemma SetPermissionsCommits(env: Env, db: Tables, b: Bearer, who: Principal, rid: string, permissions: PermissionMap,
                              client: Client, now: nat, draw: Draw)
    requires Guard(db, b, SetPermissions(rid, permissions), now) == Success(who)
    ensures var out := CommandStep(env, db, b, SetPermissions(rid, permissions), client, now, draw);
      && (rid !in db.roles ==> out == Outcome(db, Failure(NotFound)))
      && (rid in db.roles ==>
            out == Outcome(db.(roles := db.roles[rid := db.roles[rid].(permissions := permissions)],
                               audit := db.audit + [RowBy(who, UpdatedRolePermissions, Some(rid), client, now)]),
                           Success(Allowed(who))))
  {
  }

  // --- Passwords take effect ----------------------------------------------------------------

  /** After a password change the caller can sign in with the new password: with any
      spelling of the address, if it finds only this account, as soon as the
      history leaves the account open. */
  lemma NewPasswordSignsIn(env: Env, r: Run, i: nat, c: Claims, current: string, replacement: string,
                           email: string, client: Client, now: nat, draw: Draw)
    requires Lawful(env.prims) && IsRun(env, r) && i < |r.events|
    requires r.events[i].req == Authorised(Signed(c), ChangePassword(current, replacement))
    requires OutcomeOf(env, r.worlds[i], r.events[i]).reply.Success?
    requires var w' := r.worlds[i + 1];
      && (forall v | v in w'.db.users :: SameEmail(w'.db.users[v], email) <==> v == c.sub)
      && OpenBy(env.settings, FailTimes(w'.log, c.sub), now)
    ensures LoginStep(env, r.worlds[i + 1].db, email, replacement, client, now, draw).reply.Success?
  {
    var w, e := r.worlds[i], r.events[i];
    var who := Guard(w.db, Signed(c), e.req.command, e.now).value;
    PasswordChangeCommits(env, w.db, Signed(c), who, current, replacement, e.client, e.now, e.draw);
    assert who.id == c.sub && IsActive(w.db.users[c.sub]);
    SignInDecision(env, r, i + 1, c.sub, email, replacement, client, now, draw);
  }

  /** And a new account can sign in at once with the password it was created with,
      if its status is active. */
  lemma NewAccountSignsIn(env: Env, r: Run, i: nat, b: Bearer, c: UserCreate, client: Client, now: nat, draw: Draw)
    requires Lawful(env.prims) && IsRun(env, r) && i < |r.events|
    requires r.events[i].req == Authorised(b, CreateUser(c)) && Lower(c.status) == "active"
    requires OutcomeOf(env, r.worlds[i], r.events[i]).reply.Success?
    ensures LoginStep(env, r.worlds[i + 1].db, c.email, c.password, client, now, draw).reply.Success?
  {
    var w, w', e := r.worlds[i], r.worlds[i + 1], r.events[i];
    var who := Guard(w.db, b, e.req.command, e.now).value;
    CreateUserCommits(env, w.db, b, who, c, e.client, e.now, e.draw);
    var uid := e.draw.userId;
    AlwaysGrounded(env, r, i);
    AlwaysTracked(env, r, i, uid);
    FailAppend(w.log, Entry(e.req, e.now, OutcomeOf(env, w, e).reply), uid);
    CommandNeverFailsPassword(env, w.db, b, e.req.command, e.client, e.now, e.draw, uid);
    assert FailTimes(w'.log, uid) == [];
    SignInDecision(env, r, i + 1, uid, c.email, c.password, client, now, draw);
  }
}
