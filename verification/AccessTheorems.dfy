/** Which tokens are accepted, told by the history of a run rather than by the
    rows the code reads (app/core/deps.py, app/core/security.py), and what a
    request that fails may have changed (app/core/database.py). */
module AccessTheorems {
  import opened Prelude
  import opened Security
  import opened Rbac
  import opened IdentityModels
  import opened IdentityService
  import opened IdentityRuns
  import opened RotationTheorems

  // --- Access tokens ------------------------------------------------------------------

  /** What the guard answers to a token the service returned, told by the history
      alone, outcome by outcome. It is accepted exactly when it is an access token,
      has not reached its `exp`, its account is active, nothing has ended its
      session, and the session has not expired; with access lifetimes at most the
      refresh lifetime, session expiry never refuses it. Its caller is the session's
      owner as stored now, with the permissions the owner's role has now. */
  lemma AccessDecision(env: Env, r: Run, i: nat, c: Claims, now: nat)
    requires IsRun(env, r) && i < |r.worlds|
    requires c in r.worlds[i].minted
    ensures var w := r.worlds[i];
      var caller := GetCurrentPrincipal(w.db, Signed(c), now);
      && c.sid.Some? && c.sid.value in w.db.sessions && w.db.sessions[c.sid.value].userId == c.sub
      && c.sub in w.db.users && w.db.users[c.sub].roleId in w.db.roles
      && var user, session := w.db.users[c.sub], w.db.sessions[c.sid.value];
      var unexpired, access := now < c.exp * MICROS_PER_SECOND, c.typ == Some(Access);
      var live := !Ended(w.log, c.sid.value) && now < session.expiresAt;
      && (SaneLifetimes(env.settings) && unexpired ==> now < session.expiresAt)
      && (caller == Failure(ExpiredToken) <==> !unexpired)
      && (caller == Failure(WrongType) <==> unexpired && !access)
      && (caller == Failure(AccountDisabled) <==> unexpired && access && !IsActive(user))
      && (caller == Failure(SessionGone) <==> unexpired && access && IsActive(user) && !live)
      && (caller.Success? <==> unexpired && access && IsActive(user) && live)
      && (caller.Success? ==>
            caller.value == Principal(c.sub, user.email, user.roleId, w.db.roles[user.roleId].permissions, c.sid,
                                      user.mustReset))
  {
    AlwaysHistory(env, r, i);
    AlwaysTimely(env, r, i);
    var w := r.worlds[i];
    assert GroundedToken(w, c) && TimelyToken(env, w, c) && GroundedSession(w, c.sid.value);
    assert Ended(w.log, c.sid.value) <==> w.db.sessions[c.sid.value].revokedAt.Some?;
    PrincipalTable(w.db, c, now);
  }

  lemma PrincipalTable(db: Tables, c: Claims, now: nat)
    requires Truthy(c.sid) && c.sid.value in db.sessions && c.sub != "" && c.sub in db.users
    requires db.users[c.sub].roleId in db.roles && c.typ.Some?
    ensures var caller := GetCurrentPrincipal(db, Signed(c), now);
      var user, session := db.users[c.sub], db.sessions[c.sid.value];
      var unexpired, access := now < c.exp * MICROS_PER_SECOND, c.typ == Some(Access);
      var live := session.revokedAt.None? && now < session.expiresAt;
      && (caller == Failure(ExpiredToken) <==> !unexpired)
      && (caller == Failure(WrongType) <==> unexpired && !access)
      && (caller == Failure(AccountDisabled) <==> unexpired && access && !IsActive(user))
      && (caller == Failure(SessionGone) <==> unexpired && access && IsActive(user) && !live)
      && (caller.Success? <==> unexpired && access && IsActive(user) && live)
      && (caller.Success? ==>
            caller.value == Principal(c.sub, user.email, user.roleId, db.roles[user.roleId].permissions, c.sid,
                                      user.mustReset))
  {
  }

  /** What the application never returns: a missing or forged token is refused by its
      kind; a token without a type counts as an access token; and one without a
      session answers to its account alone. */
  lemma OtherBearers(env: Env, db: Tables, c: Claims, client: Client, now: nat, draw: Draw)
    ensures GetCurrentPrincipal(db, NoToken, now) == Failure(MissingToken)
    ensures GetCurrentPrincipal(db, Unsigned, now) == Failure(InvalidToken)
    ensures RefreshStep(env, db, NoToken, client, now, draw) == Outcome(db, Failure(BadRefreshToken))
    ensures RefreshStep(env, db, Unsigned, client, now, draw) == Outcome(db, Failure(BadRefreshToken))
    ensures GetCurrentPrincipal(db, Signed(c.(typ := None)), now)
         == GetCurrentPrincipal(db, Signed(c.(typ := Some(Access))), now)
    ensures c.typ == Some(Access) && (c.sid == None || c.sid == Some("")) ==>
      (GetCurrentPrincipal(db, Signed(c), now).Success? <==>
         now < c.exp * MICROS_PER_SECOND && c.sub != "" && c.sub in db.users && IsActive(db.users[c.sub])
         && db.users[c.sub].roleId in db.roles)
  {
  }

  /** No bearer value is ever accepted both as an access and as a refresh token. */
  lemma NoTokenHasTwoUses(env: Env, db: Tables, b: Bearer, client: Client, now: nat, later: nat, draw: Draw)
    ensures GetCurrentPrincipal(db, b, now).Failure? || RefreshStep(env, db, b, client, later, draw).reply.Failure?
  {
  }

  /** Every token in every run lives exactly its configured lifetime, and, unless it
      is an access token configured to outlive refresh tokens, at most as long as
      its session, whose expiry never moves back. */
  lemma TokenTimes(env: Env, r: Run, i: nat, j: nat, c: Claims)
    requires IsRun(env, r) && i <= j < |r.worlds|
    requires c in r.worlds[i].minted
    ensures c.sid.Some? && c.sid.value in r.worlds[i].db.sessions && c.sid.value in r.worlds[j].db.sessions
    ensures var minutes := MinutesOf(env.settings, c);
      0 <= minutes ==>
        && c.exp - c.iat == 60 * minutes
        && (minutes <= env.settings.refreshMinutes ==>
              c.exp * MICROS_PER_SECOND <= r.worlds[i].db.sessions[c.sid.value].expiresAt)
    ensures r.worlds[i].db.sessions[c.sid.value].expiresAt <= r.worlds[j].db.sessions[c.sid.value].expiresAt
  {
    AlwaysTimely(env, r, i);
    assert TimelyToken(env, r.worlds[i], c);
    ExpiryNeverMovesBack(env, r, i, j);
  }

  lemma ExpiryNeverMovesBack(env: Env, r: Run, i: nat, j: nat)
    requires IsRun(env, r) && i <= j < |r.worlds|
    ensures ExpiryKept(r.worlds[i].db, r.worlds[j].db)
  {
    forall k | i <= k < j
      ensures ExpiryKept(r.worlds[k].db, r.worlds[k + 1].db)
    {
      AlwaysGrounded(env, r, k);
      AlwaysTimely(env, r, k);
      StepKeepsTimely(env, r.worlds[k], r.events[k]);
    }
    ExpiryKeptAlong(r.worlds, i, j);
  }

  lemma {:induction false} ExpiryKeptAlong(worlds: seq<World>, i: nat, j: nat)
    requires i <= j < |worlds| && forall k | i <= k < j :: ExpiryKept(worlds[k].db, worlds[k + 1].db)
    ensures ExpiryKept(worlds[i].db, worlds[j].db)
    decreases j - i
  {
    if i == j {
    } else {
      ExpiryKeptAlong(worlds, i, j - 1);
      assert ExpiryKept(worlds[j - 1].db, worlds[j - 1 + 1].db);
    }
  }

  /** With an access lifetime longer than the refresh lifetime the agreement
      fails at once: the new access token outlives its new session. */
  lemma LongAccessOutlivesSession(s: Settings, uid: string, user: User, sid: string, jti: string,
                                  client: Client, now: nat)
    requires 0 <= s.refreshMinutes
    ensures TokensForSession(s, uid, user, sid, jti, now).access.exp * MICROS_PER_SECOND
              <= NewSession(s, uid, jti, client, now).expiresAt
       <==> s.accessMinutes <= s.refreshMinutes
  {
    if s.accessMinutes >= 0 {
      LifetimeIsExact(s.accessMinutes, now);
      var t := now + s.accessMinutes * MICROS_PER_MINUTE;
      assert Seconds(t) * MICROS_PER_SECOND > t - MICROS_PER_SECOND;
    }
  }

  // --- New tokens work ------------------------------------------------------------------

  /** `exp` lies less than a second before the end of the configured lifetime. */
  predicate EndsOnTime(c: Claims, now: nat, minutes: int) {
    0 <= minutes ==>
      now + minutes * MICROS_PER_MINUTE - MICROS_PER_SECOND < c.exp * MICROS_PER_SECOND
                                                            <= now + minutes * MICROS_PER_MINUTE
  }

  /** The tokens a request returns name the account, as it is then stored, and its
      live session, and end on time. */
  predicate GoodPair(env: Env, after: Tables, p: Pair, now: nat) {
    && p.access.sub == p.refresh.sub && p.access.sub in after.users && IsActive(after.users[p.access.sub])
    && p.access.email == Some(after.users[p.access.sub].email)
    && p.access.role == Some(after.users[p.access.sub].roleId)
    && p.access.typ == Some(Access) && p.refresh.typ == Some(Security.Refresh) && p.refresh.jti.Some?
    && p.access.sid == p.refresh.sid && p.access.sid.Some? && p.access.sid.value in after.sessions
    && after.sessions[p.access.sid.value].revokedAt.None?
    && after.sessions[p.access.sid.value].expiresAt == now + env.settings.refreshMinutes * MICROS_PER_MINUTE
    && EndsOnTime(p.access, now, env.settings.accessMinutes)
    && EndsOnTime(p.refresh, now, env.settings.refreshMinutes)
  }

  lemma NewTokensEndOnTime(s: Settings, uid: string, user: User, sid: string, jti: string, now: nat)
    ensures var p := TokensForSession(s, uid, user, sid, jti, now);
            EndsOnTime(p.access, now, s.accessMinutes) && EndsOnTime(p.refresh, now, s.refreshMinutes)
  {
  }

  lemma LoginPair(env: Env, db: Tables, email: string, password: string, client: Client, now: nat, draw: Draw)
    ensures var out := LoginStep(env, db, email, password, client, now, draw);
            out.reply.Success? ==> GoodPair(env, out.db, out.reply.value.pair, now)
  {
    var out := LoginStep(env, db, email, password, client, now, draw);
    if out.reply.Success? {
      var uid := out.reply.value.pair.access.sub;
      NewTokensEndOnTime(env.settings, uid, out.db.users[uid], draw.sid, draw.jti, now);
    }
  }

  lemma RefreshPair(env: Env, db: Tables, token: Bearer, client: Client, now: nat, draw: Draw)
    ensures var out := RefreshStep(env, db, token, client, now, draw);
            out.reply.Success? ==> GoodPair(env, out.db, out.reply.value.pair, now)
  {
    var out := RefreshStep(env, db, token, client, now, draw);
    if out.reply.Success? {
      var p := out.reply.value.pair;
      NewTokensEndOnTime(env.settings, p.access.sub, db.users[p.access.sub], p.access.sid.value, draw.jti, now);
    }
  }

  lemma NewPairIsGood(env: Env, w: World, e: Event)
    requires Grounded(w) && Possible(w, e) && Issues(OutcomeOf(env, w, e).reply)
    ensures GoodPair(env, OutcomeOf(env, w, e).db, OutcomeOf(env, w, e).reply.value.pair, e.now)
  {
    match e.req
    case Login(email, password) => LoginPair(env, w.db, email, password, e.client, e.now, e.draw);
    case Refresh(token) => RefreshPair(env, w.db, token, e.client, e.now, e.draw);
    case Authorised(bearer, command) => CommandFrame(env, w.db, bearer, command, e.client, e.now, e.draw);
  }

  /** Whoever is given a pair of tokens can use both from the next state on until
      their `exp`, which is less than a second before the configured end; the access
      token also not past the session's expiry. */
  lemma NewPairWorks(env: Env, r: Run, i: nat, t: nat, client: Client, draw: Draw)
    requires IsRun(env, r) && i < |r.events| && Issues(OutcomeOf(env, r.worlds[i], r.events[i]).reply)
    ensures var p, db := OutcomeOf(env, r.worlds[i], r.events[i]).reply.value.pair, r.worlds[i + 1].db;
      && GoodPair(env, db, p, r.events[i].now)
      && (GetCurrentPrincipal(db, Signed(p.access), t).Success? <==>
            t < p.access.exp * MICROS_PER_SECOND
            && t < r.events[i].now + env.settings.refreshMinutes * MICROS_PER_MINUTE)
      && (RefreshStep(env, db, Signed(p.refresh), client, t, draw).reply.Success? <==>
            t < p.refresh.exp * MICROS_PER_SECOND)
  {
    var w, w', e := r.worlds[i], r.worlds[i + 1], r.events[i];
    AlwaysGrounded(env, r, i);
    NewPairIsGood(env, w, e);
    var en := Entry(e.req, e.now, OutcomeOf(env, w, e).reply);
    var p := en.reply.value.pair;
    assert w'.log == w.log + [en] && w'.db == OutcomeOf(env, w, e).db;
    LastIssuedAppend(w.log, en, p.refresh.sid.value);
    AlwaysHistory(env, r, i + 1);
    assert !Ended(w'.log, p.refresh.sid.value);
    AccessDecision(env, r, i + 1, p.access, t);
    RefreshDecision(env, r, i + 1, p.refresh, client, t, draw);
  }

  /** Sign-out is total: once a caller has signed out, in every later state every
      token ever returned for that session is refused. */
  lemma LogoutIsTotal(env: Env, r: Run, i: nat, j: nat, b: Bearer, client: Client, now: nat, draw: Draw)
    requires IsRun(env, r) && i < j < |r.worlds|
    requires r.events[i].req == Authorised(b, Logout) && OutcomeOf(env, r.worlds[i], r.events[i]).reply.Success?
    ensures b.Signed? && b.claims.sid.Some?
    ensures forall d | d in r.worlds[j].minted && d.sid == b.claims.sid ::
              && GetCurrentPrincipal(r.worlds[j].db, Signed(d), now).Failure?
              && RefreshStep(env, r.worlds[j].db, Signed(d), client, now, draw).reply.Failure?
  {
    var w, e := r.worlds[i], r.events[i];
    AlwaysGrounded(env, r, i);
    var en := Entry(e.req, e.now, OutcomeOf(env, w, e).reply);
    var who := Guard(w.db, b, Logout, e.now).value;
    assert en.reply == Success(SignedOutOf(who));
    assert GroundedToken(w, b.claims);
    EndedAppend(w.log, en, b.claims.sid.value);
    assert r.worlds[i + 1].log == w.log + [en];
    forall d | d in r.worlds[j].minted && d.sid == b.claims.sid
      ensures GetCurrentPrincipal(r.worlds[j].db, Signed(d), now).Failure?
      ensures RefreshStep(env, r.worlds[j].db, Signed(d), client, now, draw).reply.Failure?
    {
      EndedForever(env, r, i + 1, j, d, client, now, draw);
    }
  }

  // --- Live authorisation ----------------------------------------------------------------

  /** The role and address a token carries never influence a decision. */
  lemma ClaimsDoNotDecide(db: Tables, c: Claims, email: Option<string>, role: Option<string>, command: Command, now: nat)
    ensures Guard(db, Signed(c.(email := email, role := role)), command, now) == Guard(db, Signed(c), command, now)
  {
  }

  /** The matrix lets a command pass: each guarded command by the flag, present and
      set, of one entry. */
  predicate Admits(matrix: PermissionMap, command: Command) {
    match command
    case ViewAs(key, action) => key in matrix && action in matrix[key] && matrix[key][action]
    case CreateUser(_) =>
      UserManagement in matrix && Edit in matrix[UserManagement] && matrix[UserManagement][Edit]
    case UpdateUser(_, _) =>
      UserManagement in matrix && Edit in matrix[UserManagement] && matrix[UserManagement][Edit]
    case SaveRole(_) =>
      RoleManagement in matrix && Edit in matrix[RoleManagement] && matrix[RoleManagement][Edit]
    case SetPermissions(_, _) =>
      RoleManagement in matrix && Edit in matrix[RoleManagement] && matrix[RoleManagement][Edit]
    case Me => true
    case Logout => true
    case ChangePassword(_, _) => true
  }

  /** In every reachable state a guarded request with a returned token is decided by
      the present matrix of the owner's present role, whatever the token carries and
      whenever it was returned: with a usable token a command passes the guard
      exactly when that matrix admits it, is otherwise forbidden, and succeeds only
      if it passes. */
  lemma GuardDecision(env: Env, r: Run, i: nat, c: Claims, command: Command, client: Client, now: nat, draw: Draw)
    requires IsRun(env, r) && i < |r.worlds| && c in r.worlds[i].minted
    ensures var w := r.worlds[i];
      && c.sid.Some? && c.sid.value in w.db.sessions
      && c.sub in w.db.users && w.db.users[c.sub].roleId in w.db.roles
      && var usable := c.typ == Some(Access) && now < c.exp * MICROS_PER_SECOND && IsActive(w.db.users[c.sub])
                       && !Ended(w.log, c.sid.value) && now < w.db.sessions[c.sid.value].expiresAt;
         var admitted := Admits(w.db.roles[w.db.users[c.sub].roleId].permissions, command);
         var reply := CommandStep(env, w.db, Signed(c), command, client, now, draw).reply;
         && (Guard(w.db, Signed(c), command, now).Success? <==> usable && admitted)
         && (reply == Failure(Forbidden) <==> usable && !admitted)
         && (reply.Success? ==> usable && admitted)
  {
    AccessDecision(env, r, i, c, now);
    GuardTable(env, r.worlds[i].db, Signed(c), command, client, now, draw);
  }

  lemma GuardTable(env: Env, db: Tables, b: Bearer, command: Command, client: Client, now: nat, draw: Draw)
    ensures var caller, guard := GetCurrentPrincipal(db, b, now), Guard(db, b, command, now);
      var reply := CommandStep(env, db, b, command, client, now, draw).reply;
      && (guard.Success? <==> caller.Success? && Admits(caller.value.permissions, command))
      && (guard.Success? ==> guard == caller)
      && (reply == Failure(Forbidden) <==> caller.Success? && !Admits(caller.value.permissions, command))
      && (reply.Success? ==> guard.Success?)
  {
  }

  /** A role whose entry for a feature only grants viewing: whoever holds it may view
      the feature and not edit it; for user management, nobody is created or changed. */
  lemma ViewOnlyDecision(env: Env, r: Run, i: nat, c: Claims, key: PermKey, user: UserCreate, uid: string,
                         changes: UserUpdate, client: Client, now: nat, draw: Draw)
    requires IsRun(env, r) && i < |r.worlds| && c in r.worlds[i].minted
    requires GetCurrentPrincipal(r.worlds[i].db, Signed(c), now).Success?
    requires var matrix := GetCurrentPrincipal(r.worlds[i].db, Signed(c), now).value.permissions;
             key in matrix && matrix[key] == map[View := true, Edit := false]
    ensures var db := r.worlds[i].db;
      && Guard(db, Signed(c), ViewAs(key, View), now).Success?
      && CommandStep(env, db, Signed(c), ViewAs(key, Edit), client, now, draw) == Outcome(db, Failure(Forbidden))
      && (key == UserManagement ==>
            && CommandStep(env, db, Signed(c), CreateUser(user), client, now, draw) == Outcome(db, Failure(Forbidden))
            && CommandStep(env, db, Signed(c), UpdateUser(uid, changes), client, now, draw)
               == Outcome(db, Failure(Forbidden)))
  {
    var db := r.worlds[i].db;
    GuardTable(env, db, Signed(c), ViewAs(key, View), client, now, draw);
    Refused(env, db, Signed(c), ViewAs(key, Edit), client, now, draw);
    if key == UserManagement {
      Refused(env, db, Signed(c), CreateUser(user), client, now, draw);
      Refused(env, db, Signed(c), UpdateUser(uid, changes), client, now, draw);
    }
  }

  lemma Refused(env: Env, db: Tables, b: Bearer, command: Command, client: Client, now: nat, draw: Draw)
    requires var caller := GetCurrentPrincipal(db, b, now); caller.Success? && !Admits(caller.value.permissions, command)
    ensures CommandStep(env, db, b, command, client, now, draw) == Outcome(db, Failure(Forbidden))
  {
  }

  /** A command that, when it succeeds, decides a role's matrix. */
  predicate SetsMatrix(command: Command, rid: string) {
    match command
    case SetPermissions(id, _) => id == rid
    case SaveRole(c) => RoleIdOf(c) == rid
    case _ => false
  }

  predicate Rewrites(e: Event, rid: string) {
    e.req.Authorised? && SetsMatrix(e.req.command, rid)
  }

  /** The matrix a role has in some tables. */
  function MatrixOf(db: Tables, rid: string): Option<PermissionMap> {
    if rid in db.roles then Some(db.roles[rid].permissions) else None
  }

  lemma StepKeepsMatrix(env: Env, w: World, e: Event, rid: string)
    requires !Rewrites(e, rid)
    ensures MatrixOf(Advance(env, w, e).db, rid) == MatrixOf(w.db, rid)
  {
    if e.req.Authorised? {
      CommandKeepsMatrix(env, w.db, e.req.bearer, e.req.command, e.client, e.now, e.draw, rid);
    }
  }

  lemma CommandKeepsMatrix(env: Env, db: Tables, b: Bearer, command: Command, client: Client, now: nat, draw: Draw,
                           rid: string)
    requires !SetsMatrix(command, rid)
    ensures MatrixOf(CommandStep(env, db, b, command, client, now, draw).db, rid) == MatrixOf(db, rid)
  {
  }

  /** A role's matrix changes by nothing but a request that saves that role. */
  lemma MatrixPersists(env: Env, r: Run, i: nat, j: nat, rid: string)
    requires IsRun(env, r) && i <= j < |r.worlds|
    requires forall k | i <= k < j :: !Rewrites(r.events[k], rid)
    ensures MatrixOf(r.worlds[j].db, rid) == MatrixOf(r.worlds[i].db, rid)
  {
    var matrices := seq(|r.worlds|, k requires 0 <= k < |r.worlds| => MatrixOf(r.worlds[k].db, rid));
    forall k | i <= k < j
      ensures matrices[k + 1] == matrices[k]
    {
      NextKeepsMatrix(env, r, k, rid);
    }
    SameAlong(matrices, i, j);
  }

  lemma NextKeepsMatrix(env: Env, r: Run, k: nat, rid: string)
    requires IsRun(env, r) && k < |r.events| && !Rewrites(r.events[k], rid)
    ensures MatrixOf(r.worlds[k + 1].db, rid) == MatrixOf(r.worlds[k].db, rid)
  {
    StepKeepsMatrix(env, r.worlds[k], r.events[k], rid);
  }

  /** The matrix a successful command leaves in the role it is about. */
  function NewMatrix(db: Tables, command: Command): PermissionMap
    requires command.SetPermissions? || command.SaveRole?
  {
    if command.SetPermissions? then command.permissions
    else
      var c := command.role;
      if RoleIdOf(c) in db.roles then
        (if c.permissions.Some? then c.permissions.value else db.roles[RoleIdOf(c)].permissions)
      else if c.permissions.Some? && c.permissions.value != map[] then c.permissions.value
      else DefaultPermissionsFor(RoleIdOf(c))
  }

  lemma CommandSetsMatrix(env: Env, db: Tables, b: Bearer, command: Command, client: Client, now: nat, draw: Draw,
                          rid: string)
    requires SetsMatrix(command, rid) && CommandStep(env, db, b, command, client, now, draw).reply.Success?
    ensures MatrixOf(CommandStep(env, db, b, command, client, now, draw).db, rid) == Some(NewMatrix(db, command))
  {
  }

  /** As soon as a change of a role's matrix commits, and until that role is saved
      again, every token ever returned to whoever holds the role at the time of the
      decision, before or after the change, is decided by the new matrix. */
  lemma NewPermissionsApplyAtOnce(env: Env, r: Run, i: nat, j: nat, rid: string,
                                  c: Claims, command: Command, now: nat)
    requires IsRun(env, r) && i < j < |r.worlds|
    requires Rewrites(r.events[i], rid) && OutcomeOf(env, r.worlds[i], r.events[i]).reply.Success?
    requires forall k | i < k < j :: !Rewrites(r.events[k], rid)
    requires c in r.worlds[j].minted && c.sub in r.worlds[j].db.users && r.worlds[j].db.users[c.sub].roleId == rid
    requires GetCurrentPrincipal(r.worlds[j].db, Signed(c), now).Success?
    ensures Guard(r.worlds[j].db, Signed(c), command, now).Success?
       <==> Admits(NewMatrix(r.worlds[i].db, r.events[i].req.command), command)
  {
    var w, e := r.worlds[i], r.events[i];
    CommandSetsMatrix(env, w.db, e.req.bearer, e.req.command, e.client, e.now, e.draw, rid);
    MatrixPersists(env, r, i + 1, j, rid);
    assert MatrixOf(r.worlds[j].db, rid) == Some(NewMatrix(w.db, e.req.command));
    AccessDecision(env, r, j, c, now);
    GuardTable(env, r.worlds[j].db, Signed(c), command, e.client, now, e.draw);
  }

  /** Giving an account another role has the same immediate effect. */
  lemma NewRoleAppliesAtOnce(env: Env, r: Run, i: nat, uid: string, changes: UserUpdate,
                             c: Claims, command: Command, now: nat)
    requires IsRun(env, r) && i < |r.events|
    requires r.events[i].req.Authorised? && r.events[i].req.command == UpdateUser(uid, changes) && Truthy(changes.role)
    requires OutcomeOf(env, r.worlds[i], r.events[i]).reply.Success?
    requires c in r.worlds[i + 1].minted && c.sub == uid
    requires GetCurrentPrincipal(r.worlds[i + 1].db, Signed(c), now).Success?
    ensures var db := r.worlds[i + 1].db;
      && changes.role.value in db.roles
      && (Guard(db, Signed(c), command, now).Success? <==> Admits(db.roles[changes.role.value].permissions, command))
  {
    AccessDecision(env, r, i + 1, c, now);
    GuardTable(env, r.worlds[i + 1].db, Signed(c), command, r.events[i].client, now, r.events[i].draw);
    RoleIsSet(env, r.worlds[i].db, r.events[i], uid, changes);
  }

  lemma RoleIsSet(env: Env, db: Tables, e: Event, uid: string, changes: UserUpdate)
    requires e.req.Authorised? && e.req.command == UpdateUser(uid, changes) && Truthy(changes.role)
    ensures var out := CommandStep(env, db, e.req.bearer, e.req.command, e.client, e.now, e.draw);
            out.reply.Success? ==> uid in out.db.users && out.db.users[uid].roleId == changes.role.value
  {
  }

  // --- Sign-in addresses -------------------------------------------------------------------

  /** Sign-in finds the account behind every stored address exactly when no two
      addresses differ only in case; otherwise the lookup itself fails. */
  lemma AddressesMustBeApart(users: map<string, User>)
    ensures AddressesApart(users) <==> forall u | u in users :: FindByEmail(users, users[u].email) == OneRow(u)
  {
    forall u | u in users
      ensures FindByEmail(users, users[u].email) == OneRow(u)
         <==> forall v | v in users && SameEmail(users[v], users[u].email) :: v == u
    {
      FindByEmailMeaning(users, users[u].email);
    }
  }

  /** Creating an account keeps addresses apart. Changing one keeps them apart exactly
      when no other account has the new address up to case: the update checks only
      for the identical spelling, so it can lock two accounts out of sign-in. */
  lemma AddressChanges(env: Env, db: Tables, who: Principal, command: Command, now: nat, draw: Draw)
    requires AddressesApart(db.users) && draw.userId !in db.users
    requires Perform(env, db, who, command, now, draw).Success?
    ensures var after := Perform(env, db, who, command, now, draw).value.0.users;
      (match command
       case UpdateUser(uid, c) =>
         AddressesApart(after) <==>
           c.email.None? || forall v | v in db.users && SameEmail(db.users[v], c.email.value) :: v == uid
       case _ => AddressesApart(after))
  {
    match command
    case CreateUser(c) => FindByEmailMeaning(db.users, c.email);
    case UpdateUser(uid, c) => UpdateKeepsApart(db.users, uid, Updated(env, db.users[uid], c, draw.salt, now));
    case ChangePassword(_, _) =>
    case _ =>
  }

  /** An update that gives an account the address of another in other letters
      succeeds all the same, and from then on neither spelling signs anybody in. */
  lemma UpdateCanLockOut(env: Env, db: Tables, who: Principal, uid: string, other: string, changes: UserUpdate,
                         now: nat, draw: Draw)
    requires Perform(env, db, who, UpdateUser(uid, changes), now, draw).Success?
    requires other in db.users && other != uid
    requires changes.email.Some? && SameEmail(db.users[other], changes.email.value)
    ensures var after := Perform(env, db, who, UpdateUser(uid, changes), now, draw).value.0.users;
      && FindByEmail(after, changes.email.value).ManyRows?
      && FindByEmail(after, db.users[other].email).ManyRows?
  {
    var after := Perform(env, db, who, UpdateUser(uid, changes), now, draw).value.0.users;
    assert after[uid].email == changes.email.value && after[other] == db.users[other];
    FindByEmailMeaning(after, changes.email.value);
    FindByEmailMeaning(after, db.users[other].email);
  }

  /** There is such an update, on addresses that were apart before it. */
  lemma SuchAnUpdate(env: Env, user: User, who: Principal, now: nat, draw: Draw)
    ensures var users := map["a" := user.(email := "ra@x.io"), "b" := user.(email := "b@x.io")];
      var changes := UserUpdate(None, Some("RA@x.io"), None, None, None, None, None);
      && AddressesApart(users) && SameEmail(users["a"], changes.email.value)
      && Perform(env, Tables(users, map[], map[], []), who, UpdateUser("b", changes), now, draw).Success?
  {
    var users := map["a" := user.(email := "ra@x.io"), "b" := user.(email := "b@x.io")];
    Spellings();
    assert forall v | v in users && v != "b" :: v == "a" && users[v].email == "ra@x.io";
    assert !EmailTaken(Tables(users, map[], map[], []), "b", "RA@x.io");
    assert AddressesApart(users);
  }

  lemma Spellings()
    ensures "RA@x.io" != "ra@x.io" && Lower("RA@x.io") == Lower("ra@x.io") != Lower("b@x.io") && "a" != "b"
  {
    assert "RA@x.io"[0] != "ra@x.io"[0] && "a"[0] != "b"[0];
    assert |Lower("ra@x.io")| == 7 && |Lower("b@x.io")| == 6;
  }

  lemma UpdateKeepsApart(users: map<string, User>, uid: string, user: User)
    requires AddressesApart(users) && uid in users
    ensures AddressesApart(users[uid := user]) <==>
              forall v | v in users && v != uid :: !SameEmail(users[v], user.email)
  {
    var after := users[uid := user];
    if AddressesApart(after) {
      forall v | v in users && v != uid
        ensures !SameEmail(users[v], user.email)
      {
        assert after[v] == users[v] && after[uid] == user;
      }
    }
  }

  // --- Failing requests ---------------------------------------------------------------------

  /** A request that ends in an error commits at most: the failure count and lock
      of the account whose password was wrong, or the revocation of the live
      session whose token was reused or whose owner is inactive. It never commits
      an audit row. Those two writes are committed, unless it is their own commit
      that the database fails at; a request that fails at any other write leaves
      nothing of the rows it had changed. */
  lemma ErrorAtomicity(env: Env, db: Tables, req: Request, client: Client, now: nat, draw: Draw, writes: nat)
    requires draw.userId !in db.users
    ensures var out := Served(env, db, req, client, now, draw, writes);
      out.reply.Failure? ==>
        (match out.reply.error
         case WrongPassword(uid) =>
           && uid in db.users
           && out.db == PutUser(db, uid, db.users[uid].(failed := db.users[uid].failed + 1))
         case LockedOut(uid) =>
           && uid in db.users
           && out.db == PutUser(db, uid, db.users[uid].(failed := 0,
                                                        lockedUntil := Some(LockUntil(env.settings, now))))
         case TokenReused(uid, sid) =>
           && sid in db.sessions && Live(db.sessions[sid], now) && db.sessions[sid].userId == uid
           && out.db == PutSession(db, sid, db.sessions[sid].(revokedAt := Some(now)))
         case OwnerInactive(uid, sid) =>
           && sid in db.sessions && Live(db.sessions[sid], now) && db.sessions[sid].userId == uid
           && out.db == PutSession(db, sid, db.sessions[sid].(revokedAt := Some(now)))
         case _ => out.db == db)
  {
    match req
    case Login(_, _) =>
    case Refresh(_) =>
    case Authorised(bearer, command) =>
      CommandErrorKeepsAll(env, db, bearer, command, client, now, draw);
  }

  lemma CommandErrorKeepsAll(env: Env, db: Tables, bearer: Bearer, command: Command,
                             client: Client, now: nat, draw: Draw)
    ensures var out := CommandStep(env, db, bearer, command, client, now, draw);
      out.reply.Failure? ==>
        && out.db == db
        && !out.reply.error.WrongPassword? && !out.reply.error.LockedOut?
        && !out.reply.error.TokenReused? && !out.reply.error.OwnerInactive?
  {
  }
}
