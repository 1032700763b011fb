/** The identity service under concurrency. A request reads rows, decides, and at
    its commit writes back only the columns it changed, as the ORM does; other
    requests may commit in between. No row is locked when it is read
    (app/core/database.py, app/modules/identity/service.py). */
module Interleaving {
  import opened Security
  import opened IdentityModels
  import opened IdentityService
  import opened IdentityRuns

  /** A request under way. Each row of `view` is the row as it was committed at
      some moment since the request began, not the same moment for all rows. */
  datatype Flight = Flight(req: Request, client: Client, draw: Draw, start: nat, view: Tables)

  datatype World = World(
    db: Tables, clock: nat, issued: set<string>, minted: set<Claims>, flights: map<nat, Flight>)

  datatype Move =
    | Tick(now: nat)
    | Begin(id: nat, req: Request, client: Client, draw: Draw)
    | Reread(id: nat, users: set<string>, roles: set<string>, sessions: set<string>)
    | Finish(id: nat, now: nat)
    | Abort(id: nat)

  // --- Writing back changed columns ------------------------------------------------

  function Column<T(==)>(read: T, new': T, current: T): T {
    if new' != read then new' else current
  }

  function MergeUser(r: User, n: User, c: User): User {
    User(Profile(Column(r.profile.fullName, n.profile.fullName, c.profile.fullName),
                 Column(r.profile.phone, n.profile.phone, c.profile.phone),
                 Column(r.profile.department, n.profile.department, c.profile.department)),
         Column(r.email, n.email, c.email), Column(r.hashed, n.hashed, c.hashed),
         Column(r.roleId, n.roleId, c.roleId), Column(r.status, n.status, c.status),
         Column(r.lastLogin, n.lastLogin, c.lastLogin), Column(r.failed, n.failed, c.failed),
         Column(r.lockedUntil, n.lockedUntil, c.lockedUntil), Column(r.mustReset, n.mustReset, c.mustReset),
         Column(r.passwordChangedAt, n.passwordChangedAt, c.passwordChangedAt))
  }

  function MergeSession(r: UserSession, n: UserSession, c: UserSession): UserSession {
    UserSession(Column(r.userId, n.userId, c.userId), Column(r.refreshJti, n.refreshJti, c.refreshJti),
                Client(Column(r.client.userAgent, n.client.userAgent, c.client.userAgent),
                       Column(r.client.ip, n.client.ip, c.client.ip)),
                Column(r.issuedAt, n.issuedAt, c.issuedAt), Column(r.expiresAt, n.expiresAt, c.expiresAt),
                Column(r.revokedAt, n.revokedAt, c.revokedAt), Column(r.lastSeenAt, n.lastSeenAt, c.lastSeenAt))
  }

  function MergeRole(r: Role, n: Role, c: Role): Role {
    Role(Column(r.name, n.name, c.name), Column(r.description, n.description, c.description),
         Column(r.status, n.status, c.status), Column(r.permissions, n.permissions, c.permissions))
  }

  function MergeUsers(r: map<string, User>, n: map<string, User>, c: map<string, User>): map<string, User> {
    map k | k in c.Keys + n.Keys ::
      if k !in c then n[k] else if k in r && k in n then MergeUser(r[k], n[k], c[k]) else c[k]
  }

  function MergeSessions(r: map<string, UserSession>, n: map<string, UserSession>, c: map<string, UserSession>)
    : map<string, UserSession>
  {
    map k | k in c.Keys + n.Keys ::
      if k !in c then n[k] else if k in r && k in n then MergeSession(r[k], n[k], c[k]) else c[k]
  }

  function MergeRoles(r: map<string, Role>, n: map<string, Role>, c: map<string, Role>): map<string, Role> {
    map k | k in c.Keys + n.Keys ::
      if k !in c then n[k] else if k in r && k in n then MergeRole(r[k], n[k], c[k]) else c[k]
  }

  /** `current` after writing what changed between `read` and `new'`. */
  function Merge(read: Tables, new': Tables, current: Tables): Tables
    requires |read.audit| <= |new'.audit|
  {
    Tables(MergeUsers(read.users, new'.users, current.users),
           MergeRoles(read.roles, new'.roles, current.roles),
           MergeSessions(read.sessions, new'.sessions, current.sessions),
           current.audit + new'.audit[|read.audit|..])
  }

  /** An insert whose primary key is already taken cannot commit. */
  predicate InsertsFree(read: Tables, new': Tables, current: Tables) {
    && (new'.users.Keys - read.users.Keys) !! current.users.Keys
    && (new'.roles.Keys - read.roles.Keys) !! current.roles.Keys
    && (new'.sessions.Keys - read.sessions.Keys) !! current.sessions.Keys
  }

  function Overlay<V>(old': map<string, V>, current: map<string, V>, ids: set<string>): map<string, V> {
    map k | k in old'.Keys + current.Keys && (if k in ids then k in current else k in old') ::
      if k in ids then current[k] else old'[k]
  }

  function Refetch(view: Tables, current: Tables, users: set<string>, roles: set<string>, sessions: set<string>)
    : Tables
  {
    Tables(Overlay(view.users, current.users, users), Overlay(view.roles, current.roles, roles),
           Overlay(view.sessions, current.sessions, sessions), view.audit)
  }

  // --- Steps -----------------------------------------------------------------------------

  /** What a request decides from the rows it has read. */
  function Decide(env: Env, f: Flight, now: nat): Outcome {
    Handle(env, f.view, f.req, f.client, now, f.draw)
  }

  predicate Possible(env: Env, w: World, m: Move) {
    match m
    case Tick(now) => w.clock <= now
    case Begin(id, req, _, draw) =>
      && id !in w.flights && FreshDraw(w.issued, draw)
      && (Presented(req).Signed? ==> Presented(req).claims in w.minted)
    case Reread(id, _, _, _) => id in w.flights
    case Finish(id, now) =>
      && id in w.flights && w.flights[id].start <= now <= w.clock
      && |w.flights[id].view.audit| <= |Decide(env, w.flights[id], now).db.audit|
      && InsertsFree(w.flights[id].view, Decide(env, w.flights[id], now).db, w.db)
    case Abort(id) => id in w.flights
  }

  function Step(env: Env, w: World, m: Move): World
    requires Possible(env, w, m)
  {
    match m
    case Tick(now) => w.(clock := now)
    case Begin(id, req, client, draw) =>
      w.(issued := w.issued + DrawnIds(draw),
         flights := w.flights[id := Flight(req, client, draw, w.clock, w.db)])
    case Reread(id, users, roles, sessions) =>
      var f := w.flights[id];
      w.(flights := w.flights[id := f.(view := Refetch(f.view, w.db, users, roles, sessions))])
    case Finish(id, now) =>
      var f := w.flights[id];
      var out := Decide(env, f, now);
      w.(db := Merge(f.view, out.db, w.db), minted := w.minted + MintedBy(out.reply), flights := w.flights - {id})
    case Abort(id) => w.(flights := w.flights - {id})
  }

  predicate Initial(w: World) {
    && IdentityRuns.Initial(IdentityRuns.World(w.db, w.clock, w.issued, w.minted, []))
    && w.flights == map[]
  }

  datatype Run = Run(worlds: seq<World>, moves: seq<Move>)

  ghost predicate IsRun(env: Env, r: Run) {
    && |r.worlds| == |r.moves| + 1
    && Initial(r.worlds[0])
    && forall i | 0 <= i < |r.moves| ::
         Possible(env, r.worlds[i], r.moves[i]) && r.worlds[i + 1] == Step(env, r.worlds[i], r.moves[i])
  }

  // --- What a write-back writes ------------------------------------------------------------

  /** A request that changed nothing writes nothing, whatever has committed since it
      read; rows are never removed. */
  lemma MergeNothing(read: Tables, current: Tables)
    requires read.users.Keys <= current.users.Keys && read.roles.Keys <= current.roles.Keys
    requires read.sessions.Keys <= current.sessions.Keys
    ensures Merge(read, read, current) == current
  {
    assert MergeUsers(read.users, read.users, current.users) == current.users;
    assert MergeRoles(read.roles, read.roles, current.roles) == current.roles;
    assert MergeSessions(read.sessions, read.sessions, current.sessions) == current.sessions;
  }

  /** Two decisions about one value of a row: at most one of them changes it. */
  predicate Apart<T(==)>(read: T, a: T, b: T) {
    a == read || b == read
  }

  predicate ApartUser(r: User, a: User, b: User) {
    && Apart(r.profile.fullName, a.profile.fullName, b.profile.fullName)
    && Apart(r.profile.phone, a.profile.phone, b.profile.phone)
    && Apart(r.profile.department, a.profile.department, b.profile.department)
    && Apart(r.email, a.email, b.email) && Apart(r.hashed, a.hashed, b.hashed) && Apart(r.roleId, a.roleId, b.roleId)
    && Apart(r.status, a.status, b.status) && Apart(r.lastLogin, a.lastLogin, b.lastLogin)
    && Apart(r.failed, a.failed, b.failed) && Apart(r.lockedUntil, a.lockedUntil, b.lockedUntil)
    && Apart(r.mustReset, a.mustReset, b.mustReset) && Apart(r.passwordChangedAt, a.passwordChangedAt, b.passwordChangedAt)
  }

  /** Requests that change different columns of one account do not lose each other's
      change: the commits can come in either order, and an account that differs from
      what both read only in the columns of one ends with all of them. */
  lemma DifferentColumnsBothSurvive(r: User, a: User, b: User, c: User)
    requires ApartUser(r, a, b)
    ensures MergeUser(r, a, MergeUser(r, b, c)) == MergeUser(r, b, MergeUser(r, a, c))
    ensures MergeUser(r, a, MergeUser(r, b, r)) == MergeUser(r, a, b) == MergeUser(r, b, a)
    ensures MergeUser(r, a, r) == a && MergeUser(r, r, c) == c
  {
  }

  // --- Undisturbed rows --------------------------------------------------------------------

  lemma MergeUndisturbed(read: Tables, new': Tables)
    requires Grows(read, new')
    ensures Merge(read, new', read) == new'
  {
    assert MergeUsers(read.users, new'.users, read.users) == new'.users;
    assert MergeRoles(read.roles, new'.roles, read.roles) == new'.roles;
    assert MergeSessions(read.sessions, new'.sessions, read.sessions) == new'.sessions;
    assert read.audit + new'.audit[|read.audit|..] == new'.audit;
  }
}
