/** The identity service statement by statement: a request works on its own copy
    of the tables inside one transaction. Leaving normally commits, raising rolls
    back, and four error paths commit on purpose before they raise. Any flush and
    any commit can itself raise, after rows have been changed in the transaction
    (app/core/database.py, app/modules/identity/service.py and router.py). */
module IdentityDatabase {
  import opened Prelude
  import opened Security
  import opened Rbac
  import opened IdentityModels
  import opened IdentityService

  class AppSession {
    const env: Env
    var committed: Tables
    var working: Tables
    var writes: nat  // flushes and commits the database still carries out

    /** Between requests the transaction is empty. */
    predicate Idle()
      reads this
    {
      working == committed
    }

    constructor (env: Env, tables: Tables, writes: nat)
      ensures this.env == env && this.writes == writes && committed == tables && Idle()
    {
      this.env := env;
      this.writes := writes;
      committed, working := tables, tables;
    }

    /** Sends the changed rows to the database. */
    method Flush() returns (ok: bool)
      modifies this`writes
      ensures ok == (old(writes) > 0)
      ensures writes == if ok then old(writes) - 1 else 0
    {
      ok := writes > 0;
      if ok {
        writes := writes - 1;
      }
    }

    method Commit() returns (ok: bool)
      modifies this`committed, this`writes
      ensures ok == (old(writes) > 0)
      ensures committed == if ok then working else old(committed)
    {
      ok := Flush();
      if ok {
        committed := working;
      }
    }

    /** The end of the request scope. A request that did not raise is committed; one
        that raised, or whose commit raises, is rolled back. */
    method Close(returned: bool) returns (ok: bool)
      modifies this
      ensures Idle()
      ensures ok == (returned && old(writes) > 0)
      ensures committed == if ok then old(working) else old(committed)
    {
      ok := false;
      if returned {
        ok := Commit();
      }
      if !ok {
        working := committed;
      }
    }

    method RecordAudit(actor: string, actorId: string, action: Action, target: Option<string>, client: Client, now: nat)
      returns (ok: bool)
      modifies this`working, this`writes
      ensures ok == (old(writes) > 0) && writes == (if ok then old(writes) - 1 else 0)
      ensures working == AddAudit(old(working), AuditRow(actor, actorId, action, target, client, now))
    {
      working := working.(audit := working.audit + [AuditRow(actor, actorId, action, target, client, now)]);
      ok := Flush();
    }

    method IssueSession(uid: string, client: Client, now: nat, draw: Draw) returns (pair: Option<Pair>)
      requires uid in working.users
      modifies this`working, this`writes
      ensures pair.Some? == (old(writes) > 0) && writes == (if pair.Some? then old(writes) - 1 else 0)
      ensures working == PutSession(old(working), draw.sid, NewSession(env.settings, uid, draw.jti, client, now))
      ensures pair.Some? ==>
                pair.value == TokensForSession(env.settings, uid, old(working).users[uid], draw.sid, draw.jti, now)
    {
      var expires := now + env.settings.refreshMinutes * MICROS_PER_MINUTE;
      working := working.(sessions :=
        working.sessions[draw.sid := UserSession(uid, draw.jti, client, now, expires, None, now)]);
      var ok := Flush();
      if !ok {
        return None;
      }
      pair := Some(TokensForSession(env.settings, uid, working.users[uid], draw.sid, draw.jti, now));
    }

    /** A wrong password is counted, and possibly locks the account, in a commit of
        its own. */
    method CountFailure(uid: string, now: nat) returns (cause: Cause)
      requires Idle() && uid in working.users
      modifies this
      ensures var user := old(committed).users[uid];
              if old(writes) == 0 then cause == StorageFailed && committed == old(committed)
              else
                && committed == PutUser(old(committed), uid, AfterWrongPassword(env.settings, user, now))
                && cause == (if user.failed + 1 >= env.settings.maxFailedLogins then LockedOut(uid)
                             else WrongPassword(uid))
    {
      var user := working.users[uid];
      user := user.(failed := user.failed + 1);
      cause := WrongPassword(uid);
      if user.failed >= env.settings.maxFailedLogins {
        user := user.(lockedUntil := Some(now + env.settings.lockoutMinutes * MICROS_PER_MINUTE));
        user := user.(failed := 0);
        cause := LockedOut(uid);
      }
      working := PutUser(working, uid, user);
      var ok := Commit();
      if !ok {
        cause := StorageFailed;
      }
    }

    /** Checks the credentials and opens a session. */
    method Authenticate(email: string, password: string, client: Client, now: nat, draw: Draw)
      returns (r: Result<(Pair, string), Cause>)
      requires Idle()
      modifies this
      ensures var out := LoginStep(env, old(committed), email, password, client, now, draw);
        if out.reply.Failure? then
          && r.Failure?
          && Outcome(committed, Failure(r.error))
             == Served(env, old(committed), Login(email, password), client, now, draw, old(writes))
        else
          && committed == old(committed)
          && (if old(writes) == 0 then r == Failure(StorageFailed)
              else
                && r.Success? && writes == old(writes) - 1 && r.value.1 in working.users
                && var row := AuditRow(working.users[r.value.1].email, r.value.1, SignedIn, Some(r.value.1), client, now);
                   Outcome(AddAudit(working, row), Success(LoggedIn(r.value.0))) == out)
    {
      var found := FindByEmail(working.users, email);
      if found.NoRow? {
        return Failure(UnknownEmail);
      }
      if found.ManyRows? {
        return Failure(AmbiguousRow);
      }
      var uid := found.id;
      var user := working.users[uid];
      if user.lockedUntil.Some? && user.lockedUntil.value > now {
        return Failure(AccountLocked(uid));
      }
      if !IsActive(user) {
        return Failure(AccountDisabled);
      }
      if !VerifyPassword(env.prims, password, user.hashed) {
        var cause := CountFailure(uid, now);
        return Failure(cause);
      }
      user := user.(failed := 0);
      user := user.(lockedUntil := None);
      user := user.(lastLogin := Some(now));
      if NeedsRehash(env.prims, user.hashed) {
        user := user.(hashed := HashPassword(env.prims, password, draw.salt));
      }
      working := PutUser(working, uid, user);
      var pair := IssueSession(uid, client, now, draw);
      if pair.None? {
        return Failure(StorageFailed);
      }
      return Success((pair.value, uid));
    }

    method SignIn(email: string, password: string, client: Client, now: nat, draw: Draw) returns (reply: Reply)
      requires Idle()
      modifies this
      ensures Idle()
      ensures Outcome(committed, reply)
           == Served(env, old(committed), Login(email, password), client, now, draw, old(writes))
    {
      var r := Authenticate(email, password, client, now, draw);
      if r.Failure? {
        var _ := Close(false);
        return Failure(r.error);
      }
      var uid := r.value.1;
      var audited := RecordAudit(working.users[uid].email, uid, SignedIn, Some(uid), client, now);
      var done := Close(audited);
      return if done then Success(LoggedIn(r.value.0)) else Failure(StorageFailed);
    }

    /** Ends a session for good, in a commit of its own. */
    method Kill(sid: string, now: nat, why: Cause) returns (cause: Cause)
      requires Idle() && sid in working.sessions
      modifies this
      ensures if old(writes) == 0 then cause == StorageFailed && committed == old(committed)
              else
                && cause == why
                && committed == PutSession(old(committed), sid, old(committed).sessions[sid].(revokedAt := Some(now)))
    {
      working := PutSession(working, sid, working.sessions[sid].(revokedAt := Some(now)));
      var ok := Commit();
      cause := if ok then why else StorageFailed;
    }

    /** Rotates a refresh token. A replayed token, or one whose owner is no longer
        active, revokes the session. */
    method RefreshSession(token: Bearer, client: Client, now: nat, draw: Draw) returns (reply: Reply)
      requires Idle()
      modifies this
      ensures var out := RefreshStep(env, old(committed), token, client, now, draw);
        if out.reply.Failure? then
          Outcome(committed, reply)
            == Served(env, old(committed), IdentityModels.Refresh(token), client, now, draw, old(writes))
        else
          && committed == old(committed)
          && (if old(writes) == 0 then reply == Failure(StorageFailed)
              else Outcome(working, reply) == out && writes == old(writes) - 1)
    {
      var decoded := DecodeToken(token, now);
      if decoded.Failure? {
        return Failure(BadRefreshToken);
      }
      var c := decoded.value;
      if c.typ != Some(Security.Refresh) {
        return Failure(NotRefreshToken);
      }
      if c.sid.None? || c.sid.value !in working.sessions {
        return Failure(SessionGone);
      }
      var sid := c.sid.value;
      var session := working.sessions[sid];
      if session.revokedAt.Some? || session.expiresAt <= now {
        return Failure(SessionGone);
      }
      if Some(session.refreshJti) != c.jti {
        var cause := Kill(sid, now, TokenReused(session.userId, sid));
        return Failure(cause);
      }
      if session.userId !in working.users || !IsActive(working.users[session.userId]) {
        var cause := Kill(sid, now, OwnerInactive(session.userId, sid));
        return Failure(cause);
      }
      session := session.(refreshJti := draw.jti);
      session := session.(lastSeenAt := now);
      session := session.(expiresAt := now + env.settings.refreshMinutes * MICROS_PER_MINUTE);
      if Truthy(client.userAgent) {
        session := session.(client := session.client.(userAgent := client.userAgent));
      }
      if Truthy(client.ip) {
        session := session.(client := session.client.(ip := client.ip));
      }
      working := PutSession(working, sid, session);
      var ok := Flush();
      if !ok {
        return Failure(StorageFailed);
      }
      var user := working.users[session.userId];
      return Success(Refreshed(TokensForSession(env.settings, session.userId, user, sid, draw.jti, now)));
    }

    method RotateTokens(token: Bearer, client: Client, now: nat, draw: Draw) returns (reply: Reply)
      requires Idle()
      modifies this
      ensures Idle()
      ensures Outcome(committed, reply)
           == Served(env, old(committed), IdentityModels.Refresh(token), client, now, draw, old(writes))
    {
      reply := RefreshSession(token, client, now, draw);
      var done := Close(reply.Success?);
      if reply.Success? && !done {
        reply := Failure(StorageFailed);
      }
    }

    // --- Commands ----------------------------------------------------------------------

    /** Copies the profile fields that are given. */
    method ChangeProfile(old': Profile, c: UserUpdate) returns (p: Profile)
      ensures p == Profile(if c.fullName.Some? then c.fullName.value else old'.fullName,
                           if c.phone.Some? then c.phone else old'.phone,
                           if c.department.Some? then c.department else old'.department)
    {
      p := old';
      if c.fullName.Some? {
        p := p.(fullName := c.fullName.value);
      }
      if c.phone.Some? {
        p := p.(phone := c.phone);
      }
      if c.department.Some? {
        p := p.(department := c.department);
      }
    }

    /** Copies the account fields that are given. */
    method ChangeAccount(old': User, c: UserUpdate, now: nat, draw: Draw) returns (user: User)
      ensures user == Updated(env, old', c, draw.salt, now).(profile := old'.profile)
    {
      user := old';
      if Truthy(c.role) && c.role.value != user.roleId {
        user := user.(roleId := c.role.value);
      }
      if c.email.Some? {
        user := user.(email := c.email.value);
      }
      if c.status.Some? {
        user := user.(status := c.status.value);
      }
      if Truthy(c.password) {
        user := user.(hashed := HashPassword(env.prims, c.password.value, draw.salt));
        user := user.(passwordChangedAt := Some(now));
      }
    }

    /** The account, or the role it is to have, does not exist. */
    static predicate RowsMissing(db: Tables, uid: string, c: UserUpdate) {
      uid !in db.users || (Truthy(c.role) && c.role.value != db.users[uid].roleId && c.role.value !in db.roles)
    }

    /** The row is changed first; only then does the flush find the address taken,
        which leaves the change for the rollback to drop. */
    method UpdateUserRow(uid: string, c: UserUpdate, now: nat, draw: Draw) returns (failed: Option<Cause>)
      modifies this`working, this`writes
      ensures (failed == Some(NotFound)) == RowsMissing(old(working), uid, c)
      ensures failed == Some(NotFound) ==> working == old(working)
      ensures failed != Some(NotFound) ==>
        && writes == (if old(writes) > 0 then old(writes) - 1 else 0)
        && working == PutUser(old(working), uid, Updated(env, old(working).users[uid], c, draw.salt, now))
        && failed == if old(writes) == 0 then Some(StorageFailed)
                     else if c.email.Some? && EmailTaken(old(working), uid, c.email.value) then Some(Conflict)
                     else None
    {
      if uid !in working.users {
        return Some(NotFound);
      }
      var user := working.users[uid];
      if Truthy(c.role) && c.role.value != user.roleId && c.role.value !in working.roles {
        return Some(NotFound);
      }
      var profile := ChangeProfile(user.profile, c);
      user := ChangeAccount(user, c, now, draw);
      user := user.(profile := profile);
      if c.email.Some? {
        OthersUnchanged(working, uid, user, c.email.value);
      }
      working := PutUser(working, uid, user);
      failed := FlushUser(uid, c.email);
    }

    /** Sends a changed account to the database, whose unique index may refuse it. */
    method FlushUser(uid: string, email: Option<string>) returns (failed: Option<Cause>)
      modifies this`writes
      ensures writes == if old(writes) > 0 then old(writes) - 1 else 0
      ensures failed == if old(writes) == 0 then Some(StorageFailed)
                        else if email.Some? && EmailTaken(working, uid, email.value) then Some(Conflict)
                        else None
    {
      var ok := Flush();
      failed := if !ok then Some(StorageFailed)
                else if email.Some? && EmailTaken(working, uid, email.value) then Some(Conflict)
                else None;
    }

    static lemma OthersUnchanged(db: Tables, uid: string, user: User, email: string)
      ensures EmailTaken(PutUser(db, uid, user), uid, email) == EmailTaken(db, uid, email)
    {
      if EmailTaken(db, uid, email) {
        var v :| v in db.users && v != uid && db.users[v].email == email;
        assert v in PutUser(db, uid, user).users && PutUser(db, uid, user).users[v].email == email;
      }
    }

    method UpsertRole(c: RoleUpsert) returns (rid: string, ok: bool)
      modifies this`working, this`writes
      ensures rid == RoleIdOf(c) && ok == (old(writes) > 0) && writes == (if ok then old(writes) - 1 else 0)
      ensures working == old(working).(roles := old(working).roles[rid := SavedRoleRow(old(working), c)])
    {
      rid := if Truthy(c.id) then c.id.value else Slug(c.name);
      var permissions := if c.permissions.Some? && c.permissions.value != map[] then c.permissions.value
                         else DefaultPermissionsFor(rid);
      var role: Role;
      if rid !in working.roles {
        role := Role(c.name, c.description, c.status, permissions);
      } else {
        role := working.roles[rid];
        role := role.(name := c.name);
        role := role.(description := c.description);
        role := role.(status := c.status);
        if c.permissions.Some? {
          role := role.(permissions := c.permissions.value);
        }
      }
      working := working.(roles := working.roles[rid := role]);
      ok := Flush();
    }

    /** How many flushes a command's service call needs when it succeeds. */
    static function FlushesOf(db: Tables, who: Principal, command: Command): nat {
      match command
      case ViewAs(_, _) => 0
      case Me => 0
      case Logout => if Revocable(db, who.sessionId) then 1 else 0
      case _ => 1
    }

    /** The service call behind a command; the audit row is the route's. On an error
        the transaction may be left dirty. */
    method Run(who: Principal, command: Command, now: nat, draw: Draw) returns (done: Result<Option<string>, Cause>)
      modifies this`working, this`writes
      ensures var spec := Perform(env, old(working), who, command, now, draw);
        if spec.Success? then
          if old(writes) < FlushesOf(old(working), who, command) then done == Failure(StorageFailed)
          else
            && done.Success? && spec.value == (working, done.value)
            && writes == old(writes) - FlushesOf(old(working), who, command)
        else done == Failure(if spec.error.Conflict? && command.UpdateUser? && old(writes) == 0 then StorageFailed
                             else spec.error)
    {
      match command
      case ViewAs(_, _) => return Success(None);
      case Me => return Success(None);
      case Logout =>
        if Truthy(who.sessionId) && who.sessionId.value in working.sessions {
          var session := working.sessions[who.sessionId.value];
          if session.revokedAt.None? {
            working := PutSession(working, who.sessionId.value, session.(revokedAt := Some(now)));
            var ok := Flush();
            if !ok {
              return Failure(StorageFailed);
            }
          }
        }
        return Success(None);
      case ChangePassword(current, replacement) =>
        if who.id !in working.users {
          return Failure(NotFound);
        }
        var user := working.users[who.id];
        if !VerifyPassword(env.prims, current, user.hashed) {
          return Failure(WrongCurrent);
        }
        user := user.(hashed := HashPassword(env.prims, replacement, draw.salt));
        user := user.(passwordChangedAt := Some(now));
        user := user.(mustReset := false);
        working := PutUser(working, who.id, user);
        var ok := Flush();
        return if ok then Success(None) else Failure(StorageFailed);
      case CreateUser(c) =>
        if c.role !in working.roles {
          return Failure(NotFound);
        }
        var found := FindByEmail(working.users, c.email);
        if found.ManyRows? {
          return Failure(AmbiguousRow);
        }
        if found.OneRow? {
          return Failure(Conflict);
        }
        working := PutUser(working, draw.userId, Created(env, c, draw.salt, now));
        var ok := Flush();
        return if ok then Success(Some(draw.userId)) else Failure(StorageFailed);
      case UpdateUser(uid, c) =>
        var failed := UpdateUserRow(uid, c, now, draw);
        if failed.Some? {
          return Failure(failed.value);
        }
        return Success(Some(uid));
      case SaveRole(c) =>
        var rid, ok := UpsertRole(c);
        return if ok then Success(Some(rid)) else Failure(StorageFailed);
      case SetPermissions(rid, permissions) =>
        if rid !in working.roles {
          return Failure(NotFound);
        }
        working := working.(roles := working.roles[rid := working.roles[rid].(permissions := permissions)]);
        var ok := Flush();
        return if ok then Success(Some(rid)) else Failure(StorageFailed);
    }

    /** What the one-step description says of a command, outcome by outcome. */
    static lemma CommandServed(env: Env, db: Tables, bearer: Bearer, command: Command, client: Client, now: nat,
                               draw: Draw, writes: nat)
      ensures var caller := Guard(db, bearer, command, now);
        var served := Served(env, db, Authorised(bearer, command), client, now, draw, writes);
        if caller.Failure? then served == Outcome(db, Failure(caller.error))
        else
          var who, action := caller.value, AuditOf(command);
          var done := Perform(env, db, who, command, now, draw);
          if done.Failure? then
            served == Outcome(db, Failure(if done.error.Conflict? && command.UpdateUser? && writes == 0 then StorageFailed
                                          else done.error))
          else if writes <= FlushesOf(db, who, command) + (if action.Some? then 1 else 0) then
            served == Outcome(db, Failure(StorageFailed))
          else
            served == Outcome(
              if action.None? then done.value.0
              else AddAudit(done.value.0, AuditRow(who.email, who.id, action.value, done.value.1, client, now)),
              Success(if command == Logout then SignedOutOf(who) else Allowed(who)))
    {
    }

    method Obey(bearer: Bearer, command: Command, client: Client, now: nat, draw: Draw) returns (reply: Reply)
      requires Idle()
      modifies this
      ensures Idle()
      ensures Outcome(committed, reply)
           == Served(env, old(committed), Authorised(bearer, command), client, now, draw, old(writes))
    {
      CommandServed(env, working, bearer, command, client, now, draw, writes);
      var caller := Guard(working, bearer, command, now);
      if caller.Failure? {
        var _ := Close(false);
        return Failure(caller.error);
      }
      var who := caller.value;
      var done := Run(who, command, now, draw);
      if done.Failure? {
        var _ := Close(false);
        return Failure(done.error);
      }
      var ok := Conclude(who, AuditOf(command), done.value, client, now);
      return if !ok then Failure(StorageFailed)
             else Success(if command == Logout then SignedOutOf(who) else Allowed(who));
    }

    /** The route's audit row and the closing commit. */
    method Conclude(who: Principal, action: Option<Action>, target: Option<string>, client: Client, now: nat)
      returns (ok: bool)
      modifies this
      ensures Idle()
      ensures ok == (old(writes) > if action.Some? then 1 else 0)
      ensures committed == if !ok then old(committed)
                           else if action.None? then old(working)
                           else AddAudit(old(working), AuditRow(who.email, who.id, action.value, target, client, now))
    {
      ok := true;
      if action.Some? {
        ok := RecordAudit(who.email, who.id, action.value, target, client, now);
      }
      ok := Close(ok);
    }

    /** Whatever the request, whichever way it ends and whichever write the database
        fails at, what is left committed and answered is the one-step description
        in full or nothing at all, and the transaction is over. */
    method Serve(req: Request, client: Client, now: nat, draw: Draw) returns (reply: Reply)
      requires Idle()
      modifies this
      ensures Idle()
      ensures Outcome(committed, reply) == Served(env, old(committed), req, client, now, draw, old(writes))
    {
      match req
      case Login(email, password) => reply := SignIn(email, password, client, now, draw);
      case Refresh(token) => reply := RotateTokens(token, client, now, draw);
      case Authorised(bearer, command) => reply := Obey(bearer, command, client, now, draw);
    }
  }
}
