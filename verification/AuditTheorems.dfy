/** The audit log accounts for the session table, over whole serial runs
    (app/modules/identity/router.py, login and logout; service.py,
    refresh_session and revoke_session). */
module AuditTheorems {
  import opened Prelude
  import opened Security
  import opened IdentityModels
  import opened IdentityService
  import opened IdentityRuns

  /** A user's sessions, and those of them that are revoked. */
  function Owned(sessions: map<string, UserSession>, uid: string): set<string> {
    set sid | sid in sessions && sessions[sid].userId == uid
  }

  function Revoked(sessions: map<string, UserSession>, uid: string): set<string> {
    set sid | sid in sessions && sessions[sid].userId == uid && sessions[sid].revokedAt.Some?
  }

  /** Audit rows of one action by one user. */
  function Rows(audit: seq<AuditRow>, action: Action, uid: string): nat {
    if audit == [] then 0
    else
      var row := audit[|audit| - 1];
      Rows(audit[..|audit| - 1], action, uid) + (if row.action == action && row.actorId == uid then 1 else 0)
  }

  /** The entry revoked one of the user's sessions without a sign-out. */
  predicate Forces(en: Entry, uid: string) {
    match en.reply
    case Failure(TokenReused(u, _)) => u == uid
    case Failure(OwnerInactive(u, _)) => u == uid
    case _ => false
  }

  function Forced(log: seq<Entry>, uid: string): nat {
    if log == [] then 0
    else Forced(log[..|log| - 1], uid) + (if Forces(log[|log| - 1], uid) then 1 else 0)
  }

  predicate Balanced(w: World, uid: string) {
    && |Owned(w.db.sessions, uid)| == Rows(w.db.audit, SignedIn, uid)
    && |Revoked(w.db.sessions, uid)| == Rows(w.db.audit, SignedOut, uid) + Forced(w.log, uid)
  }

  // --- One row at a time -------------------------------------------------------------

  lemma RowsAppend(audit: seq<AuditRow>, row: AuditRow, action: Action, uid: string)
    ensures Rows(audit + [row], action, uid)
         == Rows(audit, action, uid) + (if row.action == action && row.actorId == uid then 1 else 0)
  {
    assert (audit + [row])[..|audit|] == audit;
  }

  lemma ForcedAppend(log: seq<Entry>, en: Entry, uid: string)
    ensures Forced(log + [en], uid) == Forced(log, uid) + (if Forces(en, uid) then 1 else 0)
  {
    assert (log + [en])[..|log|] == log;
  }

  lemma OpenCounts(sessions: map<string, UserSession>, sid: string, s: UserSession, uid: string)
    requires sid !in sessions && s.revokedAt.None?
    ensures |Owned(sessions[sid := s], uid)| == |Owned(sessions, uid)| + (if s.userId == uid then 1 else 0)
    ensures |Revoked(sessions[sid := s], uid)| == |Revoked(sessions, uid)|
  {
    var after := sessions[sid := s];
    if s.userId == uid {
      assert Owned(after, uid) == Owned(sessions, uid) + {sid};
    } else {
      assert Owned(after, uid) == Owned(sessions, uid);
    }
    assert Revoked(after, uid) == Revoked(sessions, uid);
  }

  lemma ReplaceCounts(sessions: map<string, UserSession>, sid: string, s: UserSession, uid: string)
    requires sid in sessions && sessions[sid].revokedAt.None? && s.userId == sessions[sid].userId
    ensures |Owned(sessions[sid := s], uid)| == |Owned(sessions, uid)|
    ensures |Revoked(sessions[sid := s], uid)|
         == |Revoked(sessions, uid)| + (if s.revokedAt.Some? && s.userId == uid then 1 else 0)
  {
    assert Owned(sessions[sid := s], uid) == Owned(sessions, uid);
    if s.revokedAt.Some? && s.userId == uid {
      RevokeOne(sessions, sid, s, uid);
    } else {
      assert Revoked(sessions[sid := s], uid) == Revoked(sessions, uid);
    }
  }

  lemma RevokeOne(sessions: map<string, UserSession>, sid: string, s: UserSession, uid: string)
    requires sid in sessions && sessions[sid].revokedAt.None? && s.revokedAt.Some? && s.userId == uid
    ensures |Revoked(sessions[sid := s], uid)| == |Revoked(sessions, uid)| + 1
  {
    assert Revoked(sessions[sid := s], uid) == Revoked(sessions, uid) + {sid};
    assert sid !in Revoked(sessions, uid);
  }

  // --- One step --------------------------------------------------------------------------

  /** A step moves both sides of the balance by the same amount. */
  predicate KeepsBalance(before: Tables, after: Tables, en: Entry, uid: string) {
    && |Owned(after.sessions, uid)| - |Owned(before.sessions, uid)|
       == Rows(after.audit, SignedIn, uid) - Rows(before.audit, SignedIn, uid)
    && |Revoked(after.sessions, uid)| - |Revoked(before.sessions, uid)|
       == Rows(after.audit, SignedOut, uid) - Rows(before.audit, SignedOut, uid) + (if Forces(en, uid) then 1 else 0)
  }

  lemma LoginBalances(env: Env, db: Tables, email: string, password: string, client: Client, now: nat, draw: Draw,
                      uid: string)
    requires draw.sid !in db.sessions
    ensures var out := LoginStep(env, db, email, password, client, now, draw);
            KeepsBalance(db, out.db, Entry(Login(email, password), now, out.reply), uid)
  {
    var out := LoginStep(env, db, email, password, client, now, draw);
    if out.reply.Success? {
      var owner := FindByEmail(db.users, email).id;
      var session := NewSession(env.settings, owner, draw.jti, client, now);
      var row := AuditRow(out.db.users[owner].email, owner, SignedIn, Some(owner), client, now);
      OpenCounts(db.sessions, draw.sid, session, uid);
      RowsAppend(db.audit, row, SignedIn, uid);
      RowsAppend(db.audit, row, SignedOut, uid);
      assert out.db.sessions == db.sessions[draw.sid := session] && out.db.audit == db.audit + [row];
    }
  }

  lemma RefreshBalances(env: Env, db: Tables, token: Bearer, client: Client, now: nat, draw: Draw, uid: string)
    ensures var out := RefreshStep(env, db, token, client, now, draw);
            KeepsBalance(db, out.db, Entry(IdentityModels.Refresh(token), now, out.reply), uid)
  {
    var out := RefreshStep(env, db, token, client, now, draw);
    var en := Entry(IdentityModels.Refresh(token), now, out.reply);
    var replaced := RefreshReplaces(env, db, token, client, now, draw);
    if replaced.Some? {
      ReplaceCounts(db.sessions, token.claims.sid.value, replaced.value, uid);
    }
  }

  /** A refresh changes nothing, or one row of a live session, which it revokes
      exactly when its reply says so. */
  lemma RefreshReplaces(env: Env, db: Tables, token: Bearer, client: Client, now: nat, draw: Draw)
    returns (replaced: Option<UserSession>)
    ensures var out := RefreshStep(env, db, token, client, now, draw);
      var en := Entry(IdentityModels.Refresh(token), now, out.reply);
      if replaced.None? then out.db == db && forall uid :: !Forces(en, uid)
      else
        && token.Signed? && token.claims.sid.Some? && token.claims.sid.value in db.sessions
        && var sid := token.claims.sid.value;
           && db.sessions[sid].revokedAt.None? && replaced.value.userId == db.sessions[sid].userId
           && out.db.sessions == db.sessions[sid := replaced.value] && out.db.audit == db.audit
           && forall uid :: Forces(en, uid) <==> replaced.value.revokedAt.Some? && uid == replaced.value.userId
  {
    var out := RefreshStep(env, db, token, client, now, draw);
    replaced := if out.db == db && !out.reply.Success? then None
                else Some(out.db.sessions[token.claims.sid.value]);
  }

  /** A command adds at most its own audit row. */
  lemma CommandAudit(env: Env, db: Tables, bearer: Bearer, command: Command, client: Client, now: nat, draw: Draw)
    returns (row: AuditRow)
    requires draw.userId !in db.users
    ensures var out := CommandStep(env, db, bearer, command, client, now, draw);
      && (out.reply.Success? && AuditOf(command).Some? ==>
            && out.db.audit == db.audit + [row]
            && row.action == AuditOf(command).value && row.actorId == Guard(db, bearer, command, now).value.id)
      && (out.reply.Failure? || AuditOf(command).None? ==> out.db.audit == db.audit)
  {
    row := AuditRow("", "", SignedOut, None, client, now);
    var caller := Guard(db, bearer, command, now);
    if caller.Success? {
      PerformFrame(env, db, caller.value, command, now, draw);
      var done := Perform(env, db, caller.value, command, now, draw);
      if done.Success? && AuditOf(command).Some? {
        row := AuditRow(caller.value.email, caller.value.id, AuditOf(command).value, done.value.1, client, now);
      }
    }
  }

  lemma CommandBalances(env: Env, db: Tables, bearer: Bearer, command: Command, client: Client, now: nat,
                        draw: Draw, uid: string)
    requires draw.userId !in db.users && command != Logout
    ensures var out := CommandStep(env, db, bearer, command, client, now, draw);
            KeepsBalance(db, out.db, Entry(Authorised(bearer, command), now, out.reply), uid)
  {
    var out := CommandStep(env, db, bearer, command, client, now, draw);
    CommandFrame(env, db, bearer, command, client, now, draw);
    var row := CommandAudit(env, db, bearer, command, client, now, draw);
    CommandNeverForces(env, db, bearer, command, client, now, draw, uid);
    assert out.db.sessions == db.sessions;
    PlainRowBalances(db, out.db, row, Entry(Authorised(bearer, command), now, out.reply), uid);
  }

  lemma CommandNeverForces(env: Env, db: Tables, bearer: Bearer, command: Command, client: Client, now: nat,
                           draw: Draw, uid: string)
    ensures var out := CommandStep(env, db, bearer, command, client, now, draw);
            !Forces(Entry(Authorised(bearer, command), now, out.reply), uid)
  {
  }

  /** A row about anything but sessions keeps the balance. */
  lemma PlainRowBalances(before: Tables, after: Tables, row: AuditRow, en: Entry, uid: string)
    requires after.sessions == before.sessions && !Forces(en, uid)
    requires after.audit == before.audit
             || (after.audit == before.audit + [row] && row.action != SignedIn && row.action != SignedOut)
    ensures KeepsBalance(before, after, en, uid)
  {
    RowsAppend(before.audit, row, SignedIn, uid);
    RowsAppend(before.audit, row, SignedOut, uid);
  }

  lemma LogoutBalances(env: Env, w: World, bearer: Bearer, client: Client, now: nat, draw: Draw, uid: string)
    requires Grounded(w) && (bearer.Signed? ==> bearer.claims in w.minted)
    ensures var out := CommandStep(env, w.db, bearer, Logout, client, now, draw);
            KeepsBalance(w.db, out.db, Entry(Authorised(bearer, Logout), now, out.reply), uid)
  {
    var out := CommandStep(env, w.db, bearer, Logout, client, now, draw);
    var caller := Guard(w.db, bearer, Logout, now);
    if caller.Failure? {
      assert out == Outcome(w.db, Failure(caller.error)) && !caller.error.TokenReused? && !caller.error.OwnerInactive?;
    } else {
      var who := caller.value;
      var row := AuditRow(who.email, who.id, SignedOut, None, client, now);
      assert out.db.sessions == RevokeSession(w.db, who.sessionId, now).sessions;
      assert out.db.audit == w.db.audit + [row] && out.reply == Success(SignedOutOf(who));
      SignOutRevokes(env, w, bearer, now, uid);
      RowsAppend(w.db.audit, row, SignedIn, uid);
      RowsAppend(w.db.audit, row, SignedOut, uid);
    }
  }

  /** A caller who passes the guard holds a live session of their own. */
  lemma SignOutRevokes(env: Env, w: World, bearer: Bearer, now: nat, uid: string)
    requires Grounded(w) && (bearer.Signed? ==> bearer.claims in w.minted)
    requires Guard(w.db, bearer, Logout, now).Success?
    ensures var who := Guard(w.db, bearer, Logout, now).value;
      var after := RevokeSession(w.db, who.sessionId, now).sessions;
      && |Owned(after, uid)| == |Owned(w.db.sessions, uid)|
      && |Revoked(after, uid)| == |Revoked(w.db.sessions, uid)| + (if who.id == uid then 1 else 0)
  {
    var who := Guard(w.db, bearer, Logout, now).value;
    assert GroundedToken(w, bearer.claims);
    var sid := who.sessionId.value;
    ReplaceCounts(w.db.sessions, sid, w.db.sessions[sid].(revokedAt := Some(now)), uid);
  }

  lemma StepKeepsBalance(env: Env, w: World, e: Event, uid: string)
    requires Grounded(w) && Possible(w, e)
    ensures var out := OutcomeOf(env, w, e);
            KeepsBalance(w.db, out.db, Entry(e.req, e.now, out.reply), uid)
  {
    match e.req
    case Login(email, password) => LoginBalances(env, w.db, email, password, e.client, e.now, e.draw, uid);
    case Refresh(token) => RefreshBalances(env, w.db, token, e.client, e.now, e.draw, uid);
    case Authorised(bearer, command) =>
      if command == Logout {
        LogoutBalances(env, w, bearer, e.client, e.now, e.draw, uid);
      } else {
        CommandBalances(env, w.db, bearer, command, e.client, e.now, e.draw, uid);
      }
  }

  lemma {:induction false} AlwaysBalanced(env: Env, r: Run, i: nat, uid: string)
    requires IsRun(env, r) && i < |r.worlds|
    ensures Balanced(r.worlds[i], uid)
  {
    if i == 0 {
      assert Initial(r.worlds[0]);
      assert Owned(map[], uid) == {} && Revoked(map[], uid) == {};
    } else {
      AlwaysBalanced(env, r, i - 1, uid);
      AlwaysGrounded(env, r, i - 1);
      var w, e := r.worlds[i - 1], r.events[i - 1];
      StepKeepsBalance(env, w, e, uid);
      ForcedAppend(w.log, Entry(e.req, e.now, OutcomeOf(env, w, e).reply), uid);
    }
  }

  /** Audit conservation: in every reachable state each user's "Signed in" rows
      number that user's sessions, and the user's revoked sessions number the
      "Signed out" rows plus the revocations forced by token reuse or by a
      disabled account; so sign-outs never exceed sign-ins. */
  lemma AuditConservation(env: Env, r: Run, i: nat, uid: string)
    requires IsRun(env, r) && i < |r.worlds|
    ensures var w := r.worlds[i];
      && Rows(w.db.audit, SignedIn, uid) == |Owned(w.db.sessions, uid)|
      && Rows(w.db.audit, SignedOut, uid) + Forced(w.log, uid) == |Revoked(w.db.sessions, uid)|
      && Rows(w.db.audit, SignedOut, uid) + Forced(w.log, uid) <= Rows(w.db.audit, SignedIn, uid)
  {
    AlwaysBalanced(env, r, i, uid);
    var w := r.worlds[i];
    SubsetSize(Revoked(w.db.sessions, uid), Owned(w.db.sessions, uid));
  }

  lemma {:induction false} SubsetSize<T>(a: set<T>, b: set<T>)
    requires a <= b
    ensures |a| <= |b|
  {
    assert |b| == |a| + |b - a| by {
      assert b == a + (b - a);
    }
  }
}
