/** The rows the identity module stores (app/modules/identity/models.py), the
    requests it answers, and the answers it gives. */
module IdentityModels {
  import opened Prelude
  import opened Security
  import opened Rbac

  datatype Profile = Profile(fullName: string, phone: Option<string>, department: Option<string>)

  datatype User = User(
    profile: Profile,
    email: string,
    hashed: string,
    roleId: string,
    status: string,
    lastLogin: Option<nat>,
    failed: int,
    lockedUntil: Option<int>,
    mustReset: bool,
    passwordChangedAt: Option<nat>)

  predicate IsActive(u: User) {
    Lower(u.status) == "active"
  }

  /** A status counts as active in any spelling of the word, and in no other. */
  lemma ActiveSpellings(u: User)
    ensures IsActive(u) <==>
              (|u.status| == 6 && forall i | 0 <= i < 6 :: u.status[i] in {"active"[i], "ACTIVE"[i]})
  {
    var s := u.status;
    assert |Lower(s)| == |s|;
    if |s| == 6 {
      forall i | 0 <= i < 6
        ensures LowerChar(s[i]) == "active"[i] <==> s[i] in {"active"[i], "ACTIVE"[i]}
      {
      }
      assert IsActive(u) <==> forall i | 0 <= i < 6 :: Lower(s)[i] == "active"[i];
    }
  }

  datatype Role = Role(name: string, description: string, status: string, permissions: PermissionMap)

  datatype UserSession = UserSession(
    userId: string,
    refreshJti: string,
    client: Client,
    issuedAt: nat,
    expiresAt: int,
    revokedAt: Option<nat>,
    lastSeenAt: nat)

  /** A session that can still be used at `now`. */
  predicate Live(s: UserSession, now: nat) {
    s.revokedAt.None? && s.expiresAt > now
  }

  /** User agent and address, as the request middleware captured them. */
  datatype Client = Client(userAgent: Option<string>, ip: Option<string>)

  datatype Action =
    | SignedIn | SignedOut | ChangedPassword | CreatedUser
    | UpdatedUser | UpdatedRolePermissions | SavedRole

  datatype AuditRow = AuditRow(
    actor: string, actorId: string, action: Action, target: Option<string>, client: Client, at: nat)

  datatype Tables = Tables(
    users: map<string, User>,
    roles: map<string, Role>,
    sessions: map<string, UserSession>,
    audit: seq<AuditRow>)

  /** What does not change between requests. */
  datatype Env = Env(settings: Settings, prims: Primitives)

  /** The random values one request may draw: identifiers and a salt. */
  datatype Draw = Draw(sid: string, jti: string, userId: string, salt: string)

  datatype UserCreate = UserCreate(
    profile: Profile, email: string, password: string, role: string, status: string, mustReset: bool)

  datatype UserUpdate = UserUpdate(
    fullName: Option<string>, email: Option<string>, password: Option<string>, role: Option<string>,
    phone: Option<string>, department: Option<string>, status: Option<string>)

  datatype RoleUpsert = RoleUpsert(
    id: Option<string>, name: string, description: string, status: string,
    permissions: Option<PermissionMap>)

  datatype Command =
    | ViewAs(key: PermKey, action: PermAction)
    | Me
    | Logout
    | ChangePassword(current: string, replacement: string)
    | CreateUser(user: UserCreate)
    | UpdateUser(userId: string, changes: UserUpdate)
    | SaveRole(role: RoleUpsert)
    | SetPermissions(roleId: string, permissions: PermissionMap)

  datatype Request =
    | Login(email: string, password: string)
    | Refresh(token: Bearer)
    | Authorised(bearer: Bearer, command: Command)

  /** The authenticated caller. */
  datatype Principal = Principal(
    id: string, email: string, role: string, permissions: PermissionMap,
    sessionId: Option<string>, mustReset: bool)

  datatype Pair = Pair(access: Claims, refresh: Claims)

  datatype Answer =
    | LoggedIn(pair: Pair)
    | Refreshed(pair: Pair)
    | SignedOutOf(principal: Principal)
    | Allowed(principal: Principal)

  /** Why a request failed: finer than the text the client is shown, which is the
      same for an unknown address and a wrong password. */
  datatype Cause =
    | UnknownEmail
    | AmbiguousRow
    | AccountLocked(uid: string)
    | AccountDisabled
    | WrongPassword(uid: string)
    | LockedOut(uid: string)
    | BadRefreshToken
    | NotRefreshToken
    | SessionGone
    | TokenReused(uid: string, sid: string)
    | OwnerInactive(uid: string, sid: string)
    | MissingToken
    | ExpiredToken
    | InvalidToken
    | WrongType
    | NoSubject
    | UserGone
    | RoleGone
    | Forbidden
    | WrongCurrent
    | NotFound
    | Conflict
    | StorageFailed

  type Reply = Result<Answer, Cause>

  /** The committed tables after a request, and its reply. */
  datatype Outcome = Outcome(db: Tables, reply: Reply)
}
