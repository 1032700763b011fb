/** Serial runs of the identity service: every request is one atomic step, the
    clock never goes back, identifiers are never drawn twice, and a client can
    only present tokens the service has returned. */
module IdentityRuns {
  import opened Prelude
  import opened Security
  import opened IdentityModels
  import opened IdentityService

  datatype Event = Event(req: Request, client: Client, now: nat, draw: Draw)

  datatype Entry = Entry(req: Request, now: nat, reply: Reply)

  /** The committed tables with the history of the run that led to them. */
  datatype World = World(
    db: Tables,
    clock: nat,
    issued: set<string>,  // every identifier drawn so far
    minted: set<Claims>,  // every token returned so far
    log: seq<Entry>)      // every request answered so far

  function DrawnIds(d: Draw): set<string> {
    {d.sid, d.jti, d.userId}
  }

  predicate FreshDraw(issued: set<string>, d: Draw) {
    && d.sid != "" && d.userId != ""
    && d.sid != d.jti && d.sid != d.userId && d.jti != d.userId
    && DrawnIds(d) !! issued
  }

  function Presented(req: Request): Bearer {
    match req
    case Login(_, _) => NoToken
    case Refresh(token) => token
    case Authorised(bearer, _) => bearer
  }

  predicate Possible(w: World, e: Event) {
    && w.clock <= e.now
    && FreshDraw(w.issued, e.draw)
    && (Presented(e.req).Signed? ==> Presented(e.req).claims in w.minted)
  }

  predicate Issues(reply: Reply) {
    reply.Success? && (reply.value.LoggedIn? || reply.value.Refreshed?)
  }

  function MintedBy(reply: Reply): set<Claims> {
    if Issues(reply) then {reply.value.pair.access, reply.value.pair.refresh} else {}
  }

  function OutcomeOf(env: Env, w: World, e: Event): Outcome {
    Handle(env, w.db, e.req, e.client, e.now, e.draw)
  }

  function Advance(env: Env, w: World, e: Event): World {
    var out := OutcomeOf(env, w, e);
    World(out.db, e.now, w.issued + DrawnIds(e.draw), w.minted + MintedBy(out.reply),
          w.log + [Entry(e.req, e.now, out.reply)])
  }

  /** A new deployment: accounts and roles, but nobody has signed in yet. */
  predicate Initial(w: World) {
    && w.db.sessions == map[] && w.db.audit == [] && w.minted == {} && w.log == []
    && w.db.users.Keys <= w.issued && "" !in w.db.users
    && (forall u | u in w.db.users ::
         && w.db.users[u].failed == 0 && w.db.users[u].lockedUntil.None?
         && w.db.users[u].roleId in w.db.roles)
  }

  datatype Run = Run(worlds: seq<World>, events: seq<Event>)

  ghost predicate IsRun(env: Env, r: Run) {
    && |r.worlds| == |r.events| + 1
    && Initial(r.worlds[0])
    && forall i | 0 <= i < |r.events| ::
         Possible(r.worlds[i], r.events[i]) && r.worlds[i + 1] == Advance(env, r.worlds[i], r.events[i])
  }

  // --- What one step can change --------------------------------------------------

  predicate SameLock(a: User, b: User) {
    a.failed == b.failed && a.lockedUntil == b.lockedUntil
  }

  /** Everything but sign-in leaves the two lockout columns of every account
      alone, and a new account starts with a clear lock. */
  predicate LocksKept(before: Tables, after: Tables, newId: string) {
    && before.users.Keys <= after.users.Keys <= before.users.Keys + {newId}
    && (forall u | u in before.users :: SameLock(before.users[u], after.users[u]))
    && (newId in after.users && newId !in before.users ==>
          after.users[newId].failed == 0 && after.users[newId].lockedUntil.None?)
  }

  /** What a command changes apart from its audit row. */
  lemma PerformFrame(env: Env, db: Tables, who: Principal, command: Command, now: nat, draw: Draw)
    requires draw.userId !in db.users
    ensures var done := Perform(env, db, who, command, now, draw);
      done.Success? ==>
        && LocksKept(db, done.value.0, draw.userId)
        && db.roles.Keys <= done.value.0.roles.Keys
        && done.value.0.audit == db.audit
        && done.value.0.sessions == (if command == Logout then RevokeSession(db, who.sessionId, now).sessions
                                     else db.sessions)
  {
  }

  lemma PerformKeepsRoles(env: Env, db: Tables, who: Principal, command: Command, now: nat, draw: Draw)
    requires forall u | u in db.users :: db.users[u].roleId in db.roles
    ensures var done := Perform(env, db, who, command, now, draw);
      done.Success? ==> forall u | u in done.value.0.users :: done.value.0.users[u].roleId in done.value.0.roles
  {
  }

  lemma CommandFrame(env: Env, db: Tables, bearer: Bearer, command: Command,
                     client: Client, now: nat, draw: Draw)
    requires draw.userId !in db.users
    ensures var out := CommandStep(env, db, bearer, command, client, now, draw);
      && LocksKept(db, out.db, draw.userId)
      && db.roles.Keys <= out.db.roles.Keys
      && !Issues(out.reply)
      && (out.reply.Failure? ==> out.db == db)
      && db.audit <= out.db.audit
      && out.db.sessions == (if command == Logout && out.reply.Success? then
                               RevokeSession(db, Guard(db, bearer, command, now).value.sessionId, now).sessions
                             else db.sessions)
  {
    var caller := Guard(db, bearer, command, now);
    if caller.Success? {
      PerformFrame(env, db, caller.value, command, now, draw);
    }
  }

  // --- Grounding: users, roles, sessions and tokens refer to each other -------------

  /** A token that names an existing session and that session's owner, and is
      either an access or a refresh token. */
  predicate GroundedToken(w: World, c: Claims) {
    && c.sid.Some? && c.sid.value in w.db.sessions
    && c.sub == w.db.sessions[c.sid.value].userId
    && (c.typ == Some(Access) || (c.typ == Some(Security.Refresh) && c.jti.Some? && c.jti.value in w.issued))
  }

  predicate GroundedSession(w: World, sid: string)
    requires sid in w.db.sessions
  {
    && w.db.sessions[sid].userId in w.db.users
    && w.db.sessions[sid].refreshJti in w.issued
  }

  /** The accounts and roles of a world refer to each other as they should. */
  predicate GroundedUsers(w: World) {
    && w.db.users.Keys <= w.issued && "" !in w.db.users
    && (forall u | u in w.db.users :: w.db.users[u].roleId in w.db.roles)
  }

  predicate GroundedSessions(w: World) {
    && w.db.sessions.Keys <= w.issued && "" !in w.db.sessions
    && (forall sid | sid in w.db.sessions :: GroundedSession(w, sid))
  }

  predicate Grounded(w: World) {
    && GroundedUsers(w) && GroundedSessions(w)
    && (forall c | c in w.minted :: GroundedToken(w, c))
  }

  /** No user, role or session ever disappears, and no session changes owner. */
  predicate Grows(before: Tables, after: Tables) {
    && before.users.Keys <= after.users.Keys
    && before.roles.Keys <= after.roles.Keys
    && before.sessions.Keys <= after.sessions.Keys
    && (forall sid | sid in before.sessions :: after.sessions[sid].userId == before.sessions[sid].userId)
    && (forall sid | sid in before.sessions && before.sessions[sid].revokedAt.Some? ::
          after.sessions[sid].revokedAt.Some?)
    && before.audit <= after.audit
  }

  lemma LoginGrows(env: Env, db: Tables, email: string, password: string, client: Client, now: nat, draw: Draw)
    requires draw.sid !in db.sessions
    ensures Grows(db, LoginStep(env, db, email, password, client, now, draw).db)
  {
  }

  lemma RefreshGrows(env: Env, db: Tables, token: Bearer, client: Client, now: nat, draw: Draw)
    ensures Grows(db, RefreshStep(env, db, token, client, now, draw).db)
  {
  }

  lemma StepGrows(env: Env, db: Tables, req: Request, client: Client, now: nat, draw: Draw)
    requires draw.sid !in db.sessions && draw.userId !in db.users
    ensures Grows(db, Handle(env, db, req, client, now, draw).db)
  {
    match req
    case Login(email, password) => LoginGrows(env, db, email, password, client, now, draw);
    case Refresh(token) => RefreshGrows(env, db, token, client, now, draw);
    case Authorised(bearer, command) => CommandFrame(env, db, bearer, command, client, now, draw);
  }

  /** Grounding carries over to larger tables whose new sessions and new tokens
      are grounded. */
  lemma GroundedCarries(w: World, w': World, added: set<Claims>)
    requires Grounded(w) && Grows(w.db, w'.db) && w.issued <= w'.issued && w'.minted <= w.minted + added
    requires GroundedUsers(w') && GroundedSessions(w')
    requires forall c | c in added :: GroundedToken(w', c)
    ensures Grounded(w')
  {
    forall c | c in w'.minted
      ensures GroundedToken(w', c)
    {
      assert c in added || GroundedToken(w, c);
    }
  }

  lemma LoginSessionsGrounded(env: Env, w: World, e: Event)
    requires Grounded(w) && Possible(w, e) && e.req.Login?
    ensures GroundedSessions(Advance(env, w, e))
  {
    var w' := Advance(env, w, e);
    assert w'.db.sessions.Keys <= w.db.sessions.Keys + {e.draw.sid};
    forall sid | sid in w'.db.sessions
      ensures GroundedSession(w', sid)
    {
      assert sid == e.draw.sid || GroundedSession(w, sid);
    }
  }

  lemma LoginUsersGrounded(env: Env, w: World, e: Event)
    requires Grounded(w) && Possible(w, e) && e.req.Login?
    ensures GroundedUsers(Advance(env, w, e))
  {
    assert Advance(env, w, e).db.users.Keys == w.db.users.Keys;
  }

  lemma LoginTokensGrounded(env: Env, w: World, e: Event)
    requires Possible(w, e) && e.req.Login?
    ensures forall c | c in MintedBy(OutcomeOf(env, w, e).reply) :: GroundedToken(Advance(env, w, e), c)
  {
    assert e.draw.jti in DrawnIds(e.draw);
  }

  lemma LoginKeepsGrounded(env: Env, w: World, e: Event)
    requires Grounded(w) && Possible(w, e) && e.req.Login?
    ensures Grounded(Advance(env, w, e))
  {
    LoginGrows(env, w.db, e.req.email, e.req.password, e.client, e.now, e.draw);
    LoginUsersGrounded(env, w, e);
    LoginSessionsGrounded(env, w, e);
    LoginTokensGrounded(env, w, e);
    GroundedCarries(w, Advance(env, w, e), MintedBy(OutcomeOf(env, w, e).reply));
  }

  lemma RefreshUsersGrounded(env: Env, w: World, e: Event)
    requires Grounded(w) && Possible(w, e) && e.req.Refresh?
    ensures GroundedUsers(Advance(env, w, e))
  {
    assert Advance(env, w, e).db.users == w.db.users && Advance(env, w, e).db.roles == w.db.roles;
  }

  lemma RefreshSessionsGrounded(env: Env, w: World, e: Event)
    requires Grounded(w) && Possible(w, e) && e.req.Refresh?
    ensures GroundedSessions(Advance(env, w, e))
  {
    var w' := Advance(env, w, e);
    assert w'.db.sessions.Keys == w.db.sessions.Keys;
    forall sid | sid in w'.db.sessions
      ensures GroundedSession(w', sid)
    {
      assert GroundedSession(w, sid);
    }
  }

  lemma RefreshTokensGrounded(env: Env, w: World, e: Event)
    requires Possible(w, e) && e.req.Refresh?
    ensures forall c | c in MintedBy(OutcomeOf(env, w, e).reply) :: GroundedToken(Advance(env, w, e), c)
  {
    assert e.draw.jti in DrawnIds(e.draw);
  }

  lemma RefreshKeepsGrounded(env: Env, w: World, e: Event)
    requires Grounded(w) && Possible(w, e) && e.req.Refresh?
    ensures Grounded(Advance(env, w, e))
  {
    RefreshGrows(env, w.db, e.req.token, e.client, e.now, e.draw);
    RefreshUsersGrounded(env, w, e);
    RefreshSessionsGrounded(env, w, e);
    RefreshTokensGrounded(env, w, e);
    GroundedCarries(w, Advance(env, w, e), MintedBy(OutcomeOf(env, w, e).reply));
  }

  lemma CommandSessionsGrounded(env: Env, w: World, e: Event)
    requires Grounded(w) && Possible(w, e) && e.req.Authorised?
    ensures GroundedUsers(Advance(env, w, e)) && GroundedSessions(Advance(env, w, e))
  {
    var w' := Advance(env, w, e);
    CommandFrame(env, w.db, e.req.bearer, e.req.command, e.client, e.now, e.draw);
    CommandKeepsRoles(env, w.db, e.req.bearer, e.req.command, e.client, e.now, e.draw);
    forall sid | sid in w'.db.sessions
      ensures GroundedSession(w', sid)
    {
      assert GroundedSession(w, sid);
    }
  }

  lemma CommandKeepsGrounded(env: Env, w: World, e: Event)
    requires Grounded(w) && Possible(w, e) && e.req.Authorised?
    ensures Grounded(Advance(env, w, e))
  {
    StepGrows(env, w.db, e.req, e.client, e.now, e.draw);
    CommandFrame(env, w.db, e.req.bearer, e.req.command, e.client, e.now, e.draw);
    CommandSessionsGrounded(env, w, e);
    GroundedCarries(w, Advance(env, w, e), {});
  }

  lemma StepKeepsGrounded(env: Env, w: World, e: Event)
    requires Grounded(w) && Possible(w, e)
    ensures Grounded(Advance(env, w, e))
  {
    match e.req
    case Login(_, _) => LoginKeepsGrounded(env, w, e);
    case Refresh(_) => RefreshKeepsGrounded(env, w, e);
    case Authorised(_, _) => CommandKeepsGrounded(env, w, e);
  }

  lemma CommandKeepsRoles(env: Env, db: Tables, bearer: Bearer, command: Command,
                          client: Client, now: nat, draw: Draw)
    requires forall u | u in db.users :: db.users[u].roleId in db.roles
    ensures var after := CommandStep(env, db, bearer, command, client, now, draw).db;
            forall u | u in after.users :: after.users[u].roleId in after.roles
  {
    var caller := Guard(db, bearer, command, now);
    if caller.Success? {
      PerformKeepsRoles(env, db, caller.value, command, now, draw);
    }
  }

  lemma {:induction false} AlwaysGrounded(env: Env, r: Run, i: nat)
    requires IsRun(env, r) && i < |r.worlds|
    ensures Grounded(r.worlds[i])
  {
    if i == 0 {
      assert Initial(r.worlds[0]);
    } else {
      AlwaysGrounded(env, r, i - 1);
      StepKeepsGrounded(env, r.worlds[i - 1], r.events[i - 1]);
    }
  }

  /** A later world: nothing has been lost. */
  predicate Extends(w: World, w': World) {
    Grows(w.db, w'.db) && w.minted <= w'.minted && w.clock <= w'.clock && w.log <= w'.log
  }

  lemma {:induction false} ExtendsAlong(worlds: seq<World>, i: nat, j: nat)
    requires i <= j < |worlds| && forall k | i <= k < j :: Extends(worlds[k], worlds[k + 1])
    ensures Extends(worlds[i], worlds[j])
    decreases j - i
  {
    if i == j {
    } else {
      ExtendsAlong(worlds, i, j - 1);
      assert Extends(worlds[j - 1], worlds[j - 1 + 1]);
    }
  }

  lemma StepExtends(env: Env, w: World, e: Event)
    requires Grounded(w) && Possible(w, e)
    ensures Extends(w, Advance(env, w, e))
  {
    StepGrows(env, w.db, e.req, e.client, e.now, e.draw);
  }

  /** Later tables extend earlier ones, over any stretch of any run. */
  lemma AlwaysGrows(env: Env, r: Run, i: nat, j: nat)
    requires IsRun(env, r) && i <= j < |r.worlds|
    ensures Extends(r.worlds[i], r.worlds[j])
  {
    forall k | i <= k < j
      ensures Extends(r.worlds[k], r.worlds[k + 1])
    {
      AlwaysGrounded(env, r, k);
      StepExtends(env, r.worlds[k], r.events[k]);
    }
    ExtendsAlong(r.worlds, i, j);
  }

  // --- Time: tokens never outlive their session --------------------------------------

  /** Access tokens live at most as long as refresh tokens. */
  predicate SaneLifetimes(s: Settings) {
    s.accessMinutes <= s.refreshMinutes
  }

  /** The configured lifetime of a token. */
  function MinutesOf(s: Settings, c: Claims): int {
    if c.typ == Some(Access) then s.accessMinutes else s.refreshMinutes
  }

  /** The token has its exact lifetime. It ends by its session's expiry unless its
      own lifetime is configured to be the longer one; with a negative lifetime
      and a time before 1970 it may also carry an `exp` of zero or less, which
      nothing accepts. */
  predicate TimelyToken(env: Env, w: World, c: Claims) {
    var minutes := MinutesOf(env.settings, c);
    && c.sid.Some? && c.sid.value in w.db.sessions
    && (0 <= minutes ==> c.exp - c.iat == 60 * minutes)
    && (minutes <= env.settings.refreshMinutes && (0 <= minutes || 0 < c.exp) ==>
          c.exp * MICROS_PER_SECOND <= w.db.sessions[c.sid.value].expiresAt)
  }

  predicate ExpiriesBounded(env: Env, w: World) {
    forall sid | sid in w.db.sessions :: w.db.sessions[sid].expiresAt <= ExpiryFrom(env.settings, w.clock)
  }

  predicate Timely(env: Env, w: World) {
    && ExpiriesBounded(env, w)
    && (forall c | c in w.minted :: TimelyToken(env, w, c))
  }

  /** A lifetime added to the present, floored to seconds. */
  lemma EndOfLife(minutes: int, limit: int, now: nat)
    ensures var exp := Seconds(now + minutes * MICROS_PER_MINUTE);
      && (0 <= minutes ==> exp - Seconds(now) == 60 * minutes)
      && (minutes <= limit && (0 <= minutes || 0 < exp) ==>
            exp * MICROS_PER_SECOND <= now + limit * MICROS_PER_MINUTE)
  {
    if 0 <= minutes {
      LifetimeIsExact(minutes, now);
    }
  }

  lemma NewPairIsTimely(env: Env, w: World, uid: string, user: User, sid: string, jti: string, now: nat)
    requires sid in w.db.sessions && w.db.sessions[sid].expiresAt == ExpiryFrom(env.settings, now)
    ensures var p := TokensForSession(env.settings, uid, user, sid, jti, now);
            TimelyToken(env, w, p.access) && TimelyToken(env, w, p.refresh)
  {
    EndOfLife(env.settings.accessMinutes, env.settings.refreshMinutes, now);
    EndOfLife(env.settings.refreshMinutes, env.settings.refreshMinutes, now);
  }

  /** One step never brings a session's expiry forward. */
  predicate ExpiryKept(before: Tables, after: Tables) {
    forall sid | sid in before.sessions ::
      sid in after.sessions && before.sessions[sid].expiresAt <= after.sessions[sid].expiresAt
  }

  /** Old tokens stay timely as long as no session's expiry is brought forward. */
  lemma TimelyCarries(env: Env, w: World, w': World, added: set<Claims>)
    requires Timely(env, w) && ExpiryKept(w.db, w'.db) && w'.minted <= w.minted + added
    requires ExpiriesBounded(env, w')
    requires forall c | c in added :: TimelyToken(env, w', c)
    ensures Timely(env, w')
  {
    forall c | c in w'.minted
      ensures TimelyToken(env, w', c)
    {
      assert c in added || TimelyToken(env, w, c);
    }
  }

  lemma LoginTokensTimely(env: Env, w: World, e: Event, c: Claims)
    requires e.req.Login? && c in MintedBy(OutcomeOf(env, w, e).reply)
    ensures TimelyToken(env, Advance(env, w, e), c)
  {
    var w' := Advance(env, w, e);
    var uid := FindByEmail(w.db.users, e.req.email).id;
    NewPairIsTimely(env, w', uid, w'.db.users[uid], e.draw.sid, e.draw.jti, e.now);
  }

  lemma LoginExpiries(env: Env, w: World, e: Event)
    requires Grounded(w) && Timely(env, w) && Possible(w, e) && e.req.Login?
    ensures ExpiriesBounded(env, Advance(env, w, e)) && ExpiryKept(w.db, Advance(env, w, e).db)
  {
  }

  lemma RefreshTokensTimely(env: Env, w: World, e: Event, c: Claims)
    requires e.req.Refresh? && c in MintedBy(OutcomeOf(env, w, e).reply)
    ensures TimelyToken(env, Advance(env, w, e), c)
  {
    var sid := e.req.token.claims.sid.value;
    var uid := w.db.sessions[sid].userId;
    NewPairIsTimely(env, Advance(env, w, e), uid, w.db.users[uid], sid, e.draw.jti, e.now);
  }

  lemma RefreshExpiries(env: Env, w: World, e: Event)
    requires Timely(env, w) && Possible(w, e) && e.req.Refresh?
    ensures ExpiriesBounded(env, Advance(env, w, e)) && ExpiryKept(w.db, Advance(env, w, e).db)
  {
  }

  lemma CommandExpiries(env: Env, w: World, e: Event)
    requires Grounded(w) && Timely(env, w) && Possible(w, e) && e.req.Authorised?
    ensures ExpiriesBounded(env, Advance(env, w, e)) && ExpiryKept(w.db, Advance(env, w, e).db)
    ensures MintedBy(OutcomeOf(env, w, e).reply) == {}
  {
    CommandFrame(env, w.db, e.req.bearer, e.req.command, e.client, e.now, e.draw);
  }

  lemma LoginKeepsTimely(env: Env, w: World, e: Event)
    requires Grounded(w) && Timely(env, w) && Possible(w, e) && e.req.Login?
    ensures Timely(env, Advance(env, w, e)) && ExpiryKept(w.db, Advance(env, w, e).db)
  {
    var minted := MintedBy(OutcomeOf(env, w, e).reply);
    LoginExpiries(env, w, e);
    forall c | c in minted
      ensures TimelyToken(env, Advance(env, w, e), c)
    {
      LoginTokensTimely(env, w, e, c);
    }
    TimelyCarries(env, w, Advance(env, w, e), minted);
  }

  lemma RefreshKeepsTimely(env: Env, w: World, e: Event)
    requires Timely(env, w) && Possible(w, e) && e.req.Refresh?
    ensures Timely(env, Advance(env, w, e)) && ExpiryKept(w.db, Advance(env, w, e).db)
  {
    var minted := MintedBy(OutcomeOf(env, w, e).reply);
    RefreshExpiries(env, w, e);
    forall c | c in minted
      ensures TimelyToken(env, Advance(env, w, e), c)
    {
      RefreshTokensTimely(env, w, e, c);
    }
    TimelyCarries(env, w, Advance(env, w, e), minted);
  }

  lemma StepKeepsTimely(env: Env, w: World, e: Event)
    requires Grounded(w) && Timely(env, w) && Possible(w, e)
    ensures Timely(env, Advance(env, w, e)) && ExpiryKept(w.db, Advance(env, w, e).db)
  {
    match e.req
    case Login(_, _) => LoginKeepsTimely(env, w, e);
    case Refresh(_) => RefreshKeepsTimely(env, w, e);
    case Authorised(_, _) =>
      CommandExpiries(env, w, e);
      TimelyCarries(env, w, Advance(env, w, e), {});
  }

  lemma {:induction false} AlwaysTimely(env: Env, r: Run, i: nat)
    requires IsRun(env, r) && i < |r.worlds|
    ensures Timely(env, r.worlds[i])
  {
    if i == 0 {
      assert Initial(r.worlds[0]);
    } else {
      AlwaysGrounded(env, r, i - 1);
      AlwaysTimely(env, r, i - 1);
      StepKeepsTimely(env, r.worlds[i - 1], r.events[i - 1]);
    }
  }
}
