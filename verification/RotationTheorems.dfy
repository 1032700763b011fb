/** Refresh-token rotation with reuse detection, over whole serial runs
    (app/modules/identity/service.py, refresh_session). The reference is the
    history alone: which token was returned last for a session, and whether
    anything has ended that session. */
module RotationTheorems {
  import opened Prelude
  import opened Security
  import opened IdentityModels
  import opened IdentityService
  import opened IdentityRuns

  /** The entry is a refresh that was accepted. */
  predicate Accepts(en: Entry) {
    en.req.Refresh? && en.req.token.Signed? && en.reply.Success?
  }

  /** The entry returned a token pair for session `sid`. */
  predicate IssuesFor(en: Entry, sid: string) {
    Issues(en.reply) && en.reply.value.pair.refresh.sid == Some(sid)
  }

  /** The refresh token most recently returned for a session. */
  function LastIssued(log: seq<Entry>, sid: string): Option<Claims> {
    if log == [] then None
    else
      var en := log[|log| - 1];
      if IssuesFor(en, sid) then Some(en.reply.value.pair.refresh)
      else LastIssued(log[..|log| - 1], sid)
  }

  /** The entry ended the session: sign-out, replay of a rotated token, or a
      refresh on behalf of a disabled account. */
  predicate Ends(en: Entry, sid: string) {
    match en.reply
    case Success(SignedOutOf(who)) => who.sessionId == Some(sid)
    case Failure(TokenReused(_, s)) => s == sid
    case Failure(OwnerInactive(_, s)) => s == sid
    case _ => false
  }

  predicate Ended(log: seq<Entry>, sid: string) {
    exists i :: 0 <= i < |log| && Ends(log[i], sid)
  }

  // --- The invariant ---------------------------------------------------------------

  predicate CurrentToken(w: World, sid: string)
    requires sid in w.db.sessions
  {
    var last := LastIssued(w.log, sid);
    && last.Some? && last.value in w.minted
    && last.value.typ == Some(Security.Refresh) && last.value.sid == Some(sid)
    && last.value.jti == Some(w.db.sessions[sid].refreshJti)
  }

  predicate IsRefreshToken(c: Claims) {
    c.typ == Some(Security.Refresh) && c.jti.Some?
  }

  predicate TokensTracked(w: World) {
    && (forall sid | sid in w.db.sessions :: CurrentToken(w, sid))
    && (forall c, d | c in w.minted && d in w.minted && IsRefreshToken(c) && IsRefreshToken(d) && c.jti == d.jti ::
          c == d)
  }

  /** The i-th entry accepted exactly the token last returned for its session,
      and that token is no longer the session's current one. */
  predicate GoodAccept(w: World, i: nat)
    requires i < |w.log| && Accepts(w.log[i])
  {
    var c := w.log[i].req.token.claims;
    && c in w.minted && IsRefreshToken(c)
    && c.sid.Some? && c.sid.value in w.db.sessions
    && LastIssued(w.log[..i], c.sid.value) == Some(c)
    && c.jti != Some(w.db.sessions[c.sid.value].refreshJti)
  }

  predicate AcceptsTracked(w: World) {
    && (forall i: nat | i < |w.log| && Accepts(w.log[i]) :: GoodAccept(w, i))
    && (forall i: nat, j: nat | i < j < |w.log| && Accepts(w.log[i]) && Accepts(w.log[j]) ::
          w.log[i].req.token != w.log[j].req.token)
  }

  ghost predicate EndsTracked(w: World) {
    forall sid :: Ended(w.log, sid) <==> sid in w.db.sessions && w.db.sessions[sid].revokedAt.Some?
  }

  // --- One step --------------------------------------------------------------------

  lemma LastIssuedAppend(log: seq<Entry>, en: Entry, sid: string)
    ensures LastIssued(log + [en], sid)
         == if IssuesFor(en, sid) then Some(en.reply.value.pair.refresh) else LastIssued(log, sid)
  {
    assert (log + [en])[..|log|] == log;
  }

  lemma EndedAppend(log: seq<Entry>, en: Entry, sid: string)
    ensures Ended(log + [en], sid) <==> Ended(log, sid) || Ends(en, sid)
  {
    var all := log + [en];
    if Ended(log, sid) {
      var i :| 0 <= i < |log| && Ends(log[i], sid);
      assert Ends(all[i], sid);
    }
    if Ends(en, sid) {
      assert Ends(all[|log|], sid);
    }
    if Ended(all, sid) {
      var i :| 0 <= i < |all| && Ends(all[i], sid);
      assert i < |log| ==> Ends(log[i], sid);
    }
  }

  /** What a step does to one session, told by its reply alone. */
  predicate EffectOn(before: map<string, UserSession>, after: map<string, UserSession>, en: Entry, jti: string, sid: string) {
    if sid !in before then
      && !Ends(en, sid)
      && (sid in after ==> IssuesFor(en, sid) && after[sid].refreshJti == jti && after[sid].revokedAt.None?)
      && (sid in after && IssuesFor(en, sid) ==> en.reply.value.pair.refresh.jti == Some(jti))
    else
      && sid in after
      && after[sid].refreshJti == (if IssuesFor(en, sid) then jti else before[sid].refreshJti)
      && (IssuesFor(en, sid) ==> en.reply.value.pair.refresh.jti == Some(jti))
      && (after[sid].revokedAt.Some? <==> before[sid].revokedAt.Some? || Ends(en, sid))
  }

  lemma LoginEffect(env: Env, db: Tables, email: string, password: string, client: Client, now: nat, draw: Draw,
                    sid: string)
    requires draw.sid !in db.sessions
    ensures var out := LoginStep(env, db, email, password, client, now, draw);
            EffectOn(db.sessions, out.db.sessions, Entry(Login(email, password), now, out.reply), draw.jti, sid)
  {
  }

  lemma RefreshEffect(env: Env, db: Tables, token: Bearer, client: Client, now: nat, draw: Draw, sid: string)
    ensures var out := RefreshStep(env, db, token, client, now, draw);
            EffectOn(db.sessions, out.db.sessions,
                     Entry(IdentityModels.Refresh(token), now, out.reply), draw.jti, sid)
  {
  }

  lemma CommandEffect(env: Env, w: World, bearer: Bearer, command: Command, client: Client, now: nat, draw: Draw,
                      sid: string)
    requires Grounded(w) && draw.userId !in w.db.users
    requires bearer.Signed? ==> bearer.claims in w.minted
    ensures var out := CommandStep(env, w.db, bearer, command, client, now, draw);
            EffectOn(w.db.sessions, out.db.sessions, Entry(Authorised(bearer, command), now, out.reply), draw.jti, sid)
  {
    var out := CommandStep(env, w.db, bearer, command, client, now, draw);
    CommandFrame(env, w.db, bearer, command, client, now, draw);
    CommandEnds(env, w.db, bearer, command, client, now, draw, sid);
    if command == Logout && out.reply.Success? {
      assert GroundedToken(w, bearer.claims);
    }
  }

  /** Of all commands only a successful sign-out ends a session: the caller's. */
  lemma CommandEnds(env: Env, db: Tables, bearer: Bearer, command: Command, client: Client, now: nat, draw: Draw,
                    sid: string)
    ensures var reply := CommandStep(env, db, bearer, command, client, now, draw).reply;
            (Ends(Entry(Authorised(bearer, command), now, reply), sid) <==>
               command == Logout && reply.Success? && bearer.Signed? && bearer.claims.sid == Some(sid))
  {
  }

  lemma SessionEffect(env: Env, w: World, e: Event, sid: string)
    requires Grounded(w) && Possible(w, e)
    ensures var out := OutcomeOf(env, w, e);
            EffectOn(w.db.sessions, out.db.sessions, Entry(e.req, e.now, out.reply), e.draw.jti, sid)
  {
    match e.req
    case Login(email, password) => LoginEffect(env, w.db, email, password, e.client, e.now, e.draw, sid);
    case Refresh(token) => RefreshEffect(env, w.db, token, e.client, e.now, e.draw, sid);
    case Authorised(bearer, command) => CommandEffect(env, w, bearer, command, e.client, e.now, e.draw, sid);
  }

  lemma StepKeepsEnds(env: Env, w: World, e: Event)
    requires Grounded(w) && EndsTracked(w) && Possible(w, e)
    ensures EndsTracked(Advance(env, w, e))
  {
    var w' := Advance(env, w, e);
    var en := Entry(e.req, e.now, OutcomeOf(env, w, e).reply);
    forall sid
      ensures Ended(w'.log, sid) <==> sid in w'.db.sessions && w'.db.sessions[sid].revokedAt.Some?
    {
      EndedAppend(w.log, en, sid);
      SessionEffect(env, w, e, sid);
    }
  }

  /** A pair is only ever returned for a session that then exists, carries the
      drawn identifier, and is well formed. */
  lemma NewPair(env: Env, w: World, e: Event)
    requires Grounded(w) && Possible(w, e) && Issues(OutcomeOf(env, w, e).reply)
    ensures var p := OutcomeOf(env, w, e).reply.value.pair;
      && p.access.typ == Some(Access) && p.refresh.typ == Some(Security.Refresh)
      && p.refresh.jti == Some(e.draw.jti) && p.refresh.sid.Some?
      && p.refresh.sid.value in Advance(env, w, e).db.sessions
  {
    match e.req
    case Login(_, _) =>
    case Refresh(_) =>
    case Authorised(bearer, command) =>
      CommandFrame(env, w.db, bearer, command, e.client, e.now, e.draw);
  }

  lemma StepKeepsCurrent(env: Env, w: World, e: Event, sid: string)
    requires Grounded(w) && TokensTracked(w) && Possible(w, e) && sid in Advance(env, w, e).db.sessions
    ensures CurrentToken(Advance(env, w, e), sid)
  {
    var en := Entry(e.req, e.now, OutcomeOf(env, w, e).reply);
    if Issues(en.reply) {
      NewPair(env, w, e);
    }
    LastIssuedAppend(w.log, en, sid);
    SessionEffect(env, w, e, sid);
    assert sid in w.db.sessions ==> CurrentToken(w, sid);
  }

  lemma StepKeepsTokens(env: Env, w: World, e: Event)
    requires Grounded(w) && TokensTracked(w) && Possible(w, e)
    ensures TokensTracked(Advance(env, w, e))
  {
    var w' := Advance(env, w, e);
    forall sid | sid in w'.db.sessions
      ensures CurrentToken(w', sid)
    {
      StepKeepsCurrent(env, w, e, sid);
    }
    NewTokens(env, w, e);
    forall c, d | c in w'.minted && d in w'.minted && IsRefreshToken(c) && IsRefreshToken(d) && c.jti == d.jti
      ensures c == d
    {
      NewPairIsNew(w, MintedBy(OutcomeOf(env, w, e).reply), e.draw.jti, c, d);
    }
  }

  /** At most one of the tokens returned by a step is a refresh token. */
  predicate OneRefreshToken(added: set<Claims>, jti: string) {
    && (forall a | a in added && IsRefreshToken(a) :: a.jti == Some(jti))
    && (forall a, b | a in added && b in added && IsRefreshToken(a) && IsRefreshToken(b) :: a == b)
  }

  lemma NewTokens(env: Env, w: World, e: Event)
    requires Grounded(w) && Possible(w, e)
    ensures OneRefreshToken(MintedBy(OutcomeOf(env, w, e).reply), e.draw.jti)
  {
    if Issues(OutcomeOf(env, w, e).reply) {
      NewPair(env, w, e);
    }
  }

  /** Tokens with a newly drawn identifier are told apart from all earlier ones. */
  lemma NewPairIsNew(w: World, added: set<Claims>, jti: string, c: Claims, d: Claims)
    requires Grounded(w) && TokensTracked(w) && jti !in w.issued && OneRefreshToken(added, jti)
    requires c in w.minted + added && d in w.minted + added && IsRefreshToken(c) && IsRefreshToken(d) && c.jti == d.jti
    ensures c == d
  {
    assert c in w.minted ==> GroundedToken(w, c);
    assert d in w.minted ==> GroundedToken(w, d);
  }

  /** An accepted refresh presented the current token of its session. */
  lemma AcceptedIsCurrent(env: Env, w: World, e: Event)
    requires Grounded(w) && TokensTracked(w) && Possible(w, e)
    requires Accepts(Entry(e.req, e.now, OutcomeOf(env, w, e).reply))
    ensures var c := e.req.token.claims;
      && c in w.minted && IsRefreshToken(c)
      && c.sid.Some? && c.sid.value in w.db.sessions
      && LastIssued(w.log, c.sid.value) == Some(c)
      && c.jti == Some(w.db.sessions[c.sid.value].refreshJti)
      && IssuesFor(Entry(e.req, e.now, OutcomeOf(env, w, e).reply), c.sid.value)
  {
    var c := e.req.token.claims;
    assert CurrentToken(w, c.sid.value);
  }

  lemma StepKeepsAccepts(env: Env, w: World, e: Event)
    requires Grounded(w) && TokensTracked(w) && AcceptsTracked(w) && Possible(w, e)
    ensures AcceptsTracked(Advance(env, w, e))
  {
    var w' := Advance(env, w, e);
    var n := |w.log|;
    if Accepts(w'.log[n]) {
      AcceptedIsCurrent(env, w, e);
    }
    forall i: nat | i < |w'.log| && Accepts(w'.log[i])
      ensures GoodAccept(w', i)
    {
      var sid := w'.log[i].req.token.claims.sid;
      if i < n {
        assert GoodAccept(w, i) && w'.log[..i] == w.log[..i];
        assert GroundedToken(w, w.log[i].req.token.claims);
      } else {
        assert w'.log[..i] == w.log;
        assert GroundedToken(w, w'.log[i].req.token.claims);
      }
      SessionEffect(env, w, e, sid.value);
    }
    forall i: nat, j: nat | i < j < |w'.log| && Accepts(w'.log[i]) && Accepts(w'.log[j])
      ensures w'.log[i].req.token != w'.log[j].req.token
    {
      assert GoodAccept(w, i);
    }
  }

  ghost predicate History(w: World) {
    Grounded(w) && TokensTracked(w) && AcceptsTracked(w) && EndsTracked(w)
  }

  lemma {:induction false} AlwaysHistory(env: Env, r: Run, i: nat)
    requires IsRun(env, r) && i < |r.worlds|
    ensures History(r.worlds[i])
  {
    if i == 0 {
      AlwaysGrounded(env, r, 0);
      assert Initial(r.worlds[0]);
    } else {
      AlwaysHistory(env, r, i - 1);
      var w, e := r.worlds[i - 1], r.events[i - 1];
      StepKeepsGrounded(env, w, e);
      StepKeepsTokens(env, w, e);
      StepKeepsAccepts(env, w, e);
      StepKeepsEnds(env, w, e);
    }
  }

  // --- The theorems -----------------------------------------------------------------

  /** Over any serial run no refresh token is accepted twice, and every accepted
      token is the one returned by the latest sign-in or accepted refresh of its
      session: the accepted tokens of a session form one chain. */
  lemma RefreshTokensFormAChain(env: Env, r: Run, i: nat)
    requires IsRun(env, r) && i < |r.worlds|
    ensures var log := r.worlds[i].log;
      && (forall a: nat, b: nat | a < b < |log| && Accepts(log[a]) && Accepts(log[b]) ::
            log[a].req.token != log[b].req.token)
      && (forall a: nat | a < |log| && Accepts(log[a]) ::
            var c := log[a].req.token.claims;
            c.sid.Some? && LastIssued(log[..a], c.sid.value) == Some(c))
  {
    AlwaysHistory(env, r, i);
    var w := r.worlds[i];
    forall a: nat | a < |w.log| && Accepts(w.log[a])
      ensures var c := w.log[a].req.token.claims;
              c.sid.Some? && LastIssued(w.log[..a], c.sid.value) == Some(c)
    {
      assert GoodAccept(w, a);
    }
  }

  /** What a refresh answers for a token the service returned, told by the history
      alone, whatever the settings, outcome by outcome. An unexpired current token
      is never refused because its session expired. */
  lemma RefreshDecision(env: Env, r: Run, i: nat, c: Claims, client: Client, now: nat, draw: Draw)
    requires IsRun(env, r) && i < |r.worlds|
    requires c in r.worlds[i].minted && c.sid.Some?
    ensures var w := r.worlds[i];
      var reply := RefreshStep(env, w.db, Signed(c), client, now, draw).reply;
      var unexpired := now < c.exp * MICROS_PER_SECOND;
      var usable := unexpired && c.typ == Some(Security.Refresh) && !Ended(w.log, c.sid.value);
      var current := LastIssued(w.log, c.sid.value) == Some(c);
      && c.sub in w.db.users
      && (reply == Failure(BadRefreshToken) <==> !unexpired)
      && (reply == Failure(NotRefreshToken) <==> unexpired && c.typ != Some(Security.Refresh))
      && (reply == Failure(SessionGone) <==>
            unexpired && c.typ == Some(Security.Refresh) && Ended(w.log, c.sid.value))
      && (reply == Failure(TokenReused(c.sub, c.sid.value)) <==> usable && !current)
      && (reply == Failure(OwnerInactive(c.sub, c.sid.value)) <==>
            usable && current && !IsActive(w.db.users[c.sub]))
      && (reply.Success? <==> usable && current && IsActive(w.db.users[c.sub]))
  {
    AlwaysHistory(env, r, i);
    AlwaysTimely(env, r, i);
    var w := r.worlds[i];
    assert GroundedToken(w, c) && GroundedSession(w, c.sid.value);
    assert TimelyToken(env, w, c) && CurrentToken(w, c.sid.value);
    assert Ended(w.log, c.sid.value) <==> w.db.sessions[c.sid.value].revokedAt.Some?;
    CurrentIsLastIssued(w, c);
    RefreshTable(env, w.db, c, client, now, draw);
  }

  /** A returned refresh token is its session's last one exactly when the session
      stores its identifier. */
  lemma CurrentIsLastIssued(w: World, c: Claims)
    requires History(w) && c in w.minted && c.sid.Some? && c.sid.value in w.db.sessions
    requires c.typ == Some(Security.Refresh) ==> c.jti.Some?
    ensures c.typ == Some(Security.Refresh) ==>
              (LastIssued(w.log, c.sid.value) == Some(c) <==> c.jti == Some(w.db.sessions[c.sid.value].refreshJti))
  {
    assert CurrentToken(w, c.sid.value);
  }

  lemma RefreshTable(env: Env, db: Tables, c: Claims, client: Client, now: nat, draw: Draw)
    requires c.sid.Some? && c.sid.value in db.sessions && db.sessions[c.sid.value].userId == c.sub
    requires c.sub in db.users
    requires now < c.exp * MICROS_PER_SECOND && c.typ == Some(Security.Refresh) ==> now < db.sessions[c.sid.value].expiresAt
    ensures var reply := RefreshStep(env, db, Signed(c), client, now, draw).reply;
      var session := db.sessions[c.sid.value];
      var unexpired := now < c.exp * MICROS_PER_SECOND;
      var usable := unexpired && c.typ == Some(Security.Refresh) && session.revokedAt.None?;
      var current := c.jti == Some(session.refreshJti);
      && (reply == Failure(BadRefreshToken) <==> !unexpired)
      && (reply == Failure(NotRefreshToken) <==> unexpired && c.typ != Some(Security.Refresh))
      && (reply == Failure(SessionGone) <==>
            unexpired && c.typ == Some(Security.Refresh) && session.revokedAt.Some?)
      && (reply == Failure(TokenReused(c.sub, c.sid.value)) <==> usable && !current)
      && (reply == Failure(OwnerInactive(c.sub, c.sid.value)) <==> usable && current && !IsActive(db.users[c.sub]))
      && (reply.Success? <==> usable && current && IsActive(db.users[c.sub]))
  {
  }

  /** A revoked session answers no token. */
  lemma RevokedRefuses(env: Env, db: Tables, c: Claims, client: Client, now: nat, draw: Draw)
    requires Truthy(c.sid) && c.sid.value in db.sessions && db.sessions[c.sid.value].revokedAt.Some?
    ensures GetCurrentPrincipal(db, Signed(c), now).Failure?
    ensures RefreshStep(env, db, Signed(c), client, now, draw).reply.Failure?
    ensures RefreshStep(env, db, Signed(c), client, now, draw).db == db
  {
  }

  /** Once anything has ended a session, in every later state no token naming it
      is accepted, as access or as refresh, whatever its other claims say. */
  lemma EndedForever(env: Env, r: Run, i: nat, j: nat, c: Claims, client: Client, now: nat, draw: Draw)
    requires IsRun(env, r) && i <= j < |r.worlds|
    requires c.sid.Some? && Ended(r.worlds[i].log, c.sid.value)
    ensures var db := r.worlds[j].db;
      && GetCurrentPrincipal(db, Signed(c), now).Failure?
      && RefreshStep(env, db, Signed(c), client, now, draw).reply.Failure?
      && RefreshStep(env, db, Signed(c), client, now, draw).db == db
  {
    AlwaysHistory(env, r, i);
    AlwaysGrows(env, r, i, j);
    RevokedRefuses(env, r.worlds[j].db, c, client, now, draw);
  }

  /** An answer that ends a session ends it for good: from the next state on every
      token ever returned for it is refused, whatever happens to its owner. */
  lemma EndingIsFinal(env: Env, r: Run, i: nat, j: nat, sid: string, d: Claims, client: Client, now: nat, draw: Draw)
    requires IsRun(env, r) && i < j < |r.worlds| && d.sid == Some(sid)
    requires Ends(Entry(r.events[i].req, r.events[i].now, OutcomeOf(env, r.worlds[i], r.events[i]).reply), sid)
    ensures GetCurrentPrincipal(r.worlds[j].db, Signed(d), now).Failure?
    ensures RefreshStep(env, r.worlds[j].db, Signed(d), client, now, draw).reply.Failure?
  {
    var w, e := r.worlds[i], r.events[i];
    var en := Entry(e.req, e.now, OutcomeOf(env, w, e).reply);
    EndedAppend(w.log, en, sid);
    assert r.worlds[i + 1].log == w.log + [en];
    EndedForever(env, r, i + 1, j, d, client, now, draw);
  }

  /** Presenting a rotated token to a live session ends the session for good:
      from then on every token ever returned for it is refused. */
  lemma ReplayEndsSession(env: Env, r: Run, i: nat, j: nat, c: Claims, client: Client, now: nat, draw: Draw)
    requires IsRun(env, r) && i < j < |r.worlds|
    requires r.events[i].req == IdentityModels.Refresh(Signed(c))
    requires c.typ == Some(Security.Refresh) && r.events[i].now < c.exp * MICROS_PER_SECOND && c.sid.Some?
    requires !Ended(r.worlds[i].log, c.sid.value) && LastIssued(r.worlds[i].log, c.sid.value) != Some(c)
    ensures OutcomeOf(env, r.worlds[i], r.events[i]).reply == Failure(TokenReused(c.sub, c.sid.value))
    ensures forall d | d in r.worlds[j].minted && d.sid == c.sid ::
              && GetCurrentPrincipal(r.worlds[j].db, Signed(d), now).Failure?
              && RefreshStep(env, r.worlds[j].db, Signed(d), client, now, draw).reply.Failure?
  {
    var e := r.events[i];
    RefreshDecision(env, r, i, c, e.client, e.now, e.draw);
    forall d | d in r.worlds[j].minted && d.sid == c.sid
      ensures GetCurrentPrincipal(r.worlds[j].db, Signed(d), now).Failure?
      ensures RefreshStep(env, r.worlds[j].db, Signed(d), client, now, draw).reply.Failure?
    {
      EndingIsFinal(env, r, i, j, c.sid.value, d, client, now, draw);
    }
  }

  /** So does a refresh on behalf of an account that is no longer active, and making
      the account active again does not bring the session back. */
  lemma InactiveOwnerEndsSession(env: Env, r: Run, i: nat, j: nat, c: Claims, client: Client, now: nat, draw: Draw)
    requires IsRun(env, r) && i < j < |r.worlds|
    requires r.events[i].req == IdentityModels.Refresh(Signed(c))
    requires c.typ == Some(Security.Refresh) && r.events[i].now < c.exp * MICROS_PER_SECOND && c.sid.Some?
    requires !Ended(r.worlds[i].log, c.sid.value) && LastIssued(r.worlds[i].log, c.sid.value) == Some(c)
    requires c.sub in r.worlds[i].db.users ==> !IsActive(r.worlds[i].db.users[c.sub])
    ensures OutcomeOf(env, r.worlds[i], r.events[i]).reply == Failure(OwnerInactive(c.sub, c.sid.value))
    ensures forall d | d in r.worlds[j].minted && d.sid == c.sid ::
              && GetCurrentPrincipal(r.worlds[j].db, Signed(d), now).Failure?
              && RefreshStep(env, r.worlds[j].db, Signed(d), client, now, draw).reply.Failure?
  {
    var e := r.events[i];
    RefreshDecision(env, r, i, c, e.client, e.now, e.draw);
    forall d | d in r.worlds[j].minted && d.sid == c.sid
      ensures GetCurrentPrincipal(r.worlds[j].db, Signed(d), now).Failure?
      ensures RefreshStep(env, r.worlds[j].db, Signed(d), client, now, draw).reply.Failure?
    {
      EndingIsFinal(env, r, i, j, c.sid.value, d, client, now, draw);
    }
  }
}
