/** What concurrency cannot break in the identity service: every statement here is
    about every interleaving of reads, commits and aborts of any number of
    requests. */
module InterleavingTheorems {
  import opened Prelude
  import opened Security
  import opened IdentityModels
  import opened IdentityService
  import opened IdentityRuns
  import opened LockoutTheorems
  import opened RotationTheorems
  import I = Interleaving

  // --- What deciding on any view can produce -----------------------------------------

  /** New rows have drawn keys, new sessions belong to accounts that were read,
      and returned tokens name a session and its owner. */
  predicate SaneDecision(view: Tables, draw: Draw, out: Outcome) {
    && Grows(view, out.db)
    && out.db.users.Keys <= view.users.Keys + {draw.userId}
    && out.db.sessions.Keys <= view.sessions.Keys + {draw.sid}
    && (draw.sid in out.db.sessions ==> out.db.sessions[draw.sid].userId in view.users)
    && (forall c | c in MintedBy(out.reply) ::
          c.sid.Some? && c.sid.value in out.db.sessions && c.sub == out.db.sessions[c.sid.value].userId)
  }

  lemma DecisionIsSane(env: Env, view: Tables, req: Request, client: Client, now: nat, draw: Draw)
    requires draw.sid !in view.sessions && draw.userId !in view.users
    ensures SaneDecision(view, draw, Handle(env, view, req, client, now, draw))
  {
    StepGrows(env, view, req, client, now, draw);
    match req
    case Login(email, password) => LoginIsSane(env, view, email, password, client, now, draw);
    case Refresh(_) =>
    case Authorised(bearer, command) => CommandFrame(env, view, bearer, command, client, now, draw);
  }

  lemma LoginIsSane(env: Env, view: Tables, email: string, password: string, client: Client, now: nat, draw: Draw)
    requires draw.sid !in view.sessions
    ensures SaneDecision(view, draw, LoginStep(env, view, email, password, client, now, draw))
  {
  }

  // --- The invariant --------------------------------------------------------------------

  predicate Named(w: I.World, c: Claims) {
    c.sid.Some? && c.sid.value in w.db.sessions && c.sub == w.db.sessions[c.sid.value].userId
  }

  predicate ViewedSession(w: I.World, view: Tables, sid: string)
    requires sid in view.sessions
  {
    && sid in w.db.sessions
    && view.sessions[sid].userId == w.db.sessions[sid].userId
    && (view.sessions[sid].revokedAt.Some? ==> w.db.sessions[sid].revokedAt.Some?)
  }

  predicate FlightOk(w: I.World, f: I.Flight) {
    && f.start <= w.clock
    && DrawnIds(f.draw) <= w.issued && f.draw.sid != "" && f.draw.userId != ""
    && (Presented(f.req).Signed? ==> Presented(f.req).claims in w.minted)
    && f.draw.sid !in w.db.sessions && f.draw.userId !in w.db.users
    && f.view.users.Keys <= w.db.users.Keys && f.view.sessions.Keys <= w.db.sessions.Keys
    && (forall sid | sid in f.view.sessions :: ViewedSession(w, f.view, sid))
  }

  predicate Sound(w: I.World) {
    && w.db.users.Keys <= w.issued && w.db.sessions.Keys <= w.issued
    && "" !in w.db.users && "" !in w.db.sessions
    && (forall sid | sid in w.db.sessions :: w.db.sessions[sid].userId in w.db.users)
    && (forall c | c in w.minted :: Named(w, c))
    && (forall id | id in w.flights :: FlightOk(w, w.flights[id]))
    && (forall a, b | a in w.flights && b in w.flights && a != b ::
          DrawnIds(w.flights[a].draw) !! DrawnIds(w.flights[b].draw))
  }

  /** Sessions keep their owner, and a revocation that has committed stays. */
  predicate Persists(before: Tables, after: Tables) {
    && before.users.Keys <= after.users.Keys
    && before.sessions.Keys <= after.sessions.Keys
    && (forall sid | sid in before.sessions :: after.sessions[sid].userId == before.sessions[sid].userId)
    && (forall sid | sid in before.sessions && before.sessions[sid].revokedAt.Some? ::
          after.sessions[sid].revokedAt.Some?)
    && before.audit <= after.audit
  }

  /** Writing back changed columns of rows read earlier never undoes a
      revocation, whatever committed in between. */
  lemma MergePersists(w: I.World, f: I.Flight, out: Outcome)
    requires FlightOk(w, f) && SaneDecision(f.view, f.draw, out)
    ensures Persists(w.db, I.Merge(f.view, out.db, w.db))
  {
    forall sid | sid in w.db.sessions
      ensures var after := I.Merge(f.view, out.db, w.db).sessions;
        && after[sid].userId == w.db.sessions[sid].userId
        && (w.db.sessions[sid].revokedAt.Some? ==> after[sid].revokedAt.Some?)
    {
      assert sid in f.view.sessions ==> ViewedSession(w, f.view, sid);
    }
  }

  lemma FlightPersists(w: I.World, w': I.World, f: I.Flight)
    requires FlightOk(w, f) && Persists(w.db, w'.db)
    requires w.clock <= w'.clock && w.issued <= w'.issued && w.minted <= w'.minted
    requires f.draw.sid !in w'.db.sessions && f.draw.userId !in w'.db.users
    ensures FlightOk(w', f)
  {
    forall sid | sid in f.view.sessions
      ensures ViewedSession(w', f.view, sid)
    {
      assert ViewedSession(w, f.view, sid);
    }
  }

  lemma FinishKeepsSound(env: Env, w: I.World, id: nat, now: nat)
    requires Sound(w) && I.Possible(env, w, I.Finish(id, now))
    ensures var w' := I.Step(env, w, I.Finish(id, now)); Sound(w') && Persists(w.db, w'.db)
  {
    var f := w.flights[id];
    var out := I.Decide(env, f, now);
    var w' := I.Step(env, w, I.Finish(id, now));
    assert FlightOk(w, f);
    DecisionIsSane(env, f.view, f.req, f.client, now, f.draw);
    FinishFromDecision(w, id, f, out, w');
  }

  /** The world after a decision's write-back. */
  predicate Wrote(w: I.World, id: nat, f: I.Flight, out: Outcome, w': I.World) {
    && id in w.flights && w.flights[id] == f && SaneDecision(f.view, f.draw, out)
    && w' == w.(db := I.Merge(f.view, out.db, w.db), minted := w.minted + MintedBy(out.reply),
                flights := w.flights - {id})
  }

  lemma WriteBackKeys(w: I.World, id: nat, f: I.Flight, out: Outcome, w': I.World)
    requires Sound(w) && Wrote(w, id, f, out, w')
    ensures Persists(w.db, w'.db)
    ensures w'.db.sessions.Keys <= w.db.sessions.Keys + {f.draw.sid}
    ensures w'.db.users.Keys <= w.db.users.Keys + {f.draw.userId}
    ensures f.draw.sid in w'.db.sessions ==> w'.db.sessions[f.draw.sid].userId in w'.db.users
    ensures f.draw.sid in w.issued && f.draw.userId in w.issued && f.draw.sid != "" && f.draw.userId != ""
  {
    assert FlightOk(w, f);
    MergePersists(w, f, out);
    assert f.draw.sid in DrawnIds(f.draw) && f.draw.userId in DrawnIds(f.draw);
  }

  lemma WriteBackOwners(w: I.World, id: nat, f: I.Flight, out: Outcome, w': I.World)
    requires Sound(w) && Wrote(w, id, f, out, w') && Persists(w.db, w'.db)
    requires w'.db.sessions.Keys <= w.db.sessions.Keys + {f.draw.sid}
    requires f.draw.sid in w'.db.sessions ==> w'.db.sessions[f.draw.sid].userId in w'.db.users
    ensures forall sid | sid in w'.db.sessions :: w'.db.sessions[sid].userId in w'.db.users
  {
    forall sid | sid in w'.db.sessions
      ensures w'.db.sessions[sid].userId in w'.db.users
    {
      if sid != f.draw.sid {
        assert w'.db.sessions[sid].userId == w.db.sessions[sid].userId;
      }
    }
  }

  lemma WriteBackTokens(w: I.World, id: nat, f: I.Flight, out: Outcome, w': I.World, c: Claims)
    requires Sound(w) && Wrote(w, id, f, out, w') && Persists(w.db, w'.db) && c in w'.minted
    ensures Named(w', c)
  {
    assert FlightOk(w, f);
    if c in w.minted {
      assert Named(w, c);
    } else if c.sid.value in f.view.sessions {
      assert ViewedSession(w, f.view, c.sid.value);
    }
  }

  lemma WriteBackFlights(w: I.World, id: nat, f: I.Flight, out: Outcome, w': I.World, o: nat)
    requires Sound(w) && Wrote(w, id, f, out, w') && Persists(w.db, w'.db) && o in w'.flights
    requires w'.db.sessions.Keys <= w.db.sessions.Keys + {f.draw.sid}
    requires w'.db.users.Keys <= w.db.users.Keys + {f.draw.userId}
    ensures FlightOk(w', w'.flights[o])
  {
    var other := w.flights[o];
    assert FlightOk(w, other) && o != id;
    assert other.draw.sid in DrawnIds(other.draw) && other.draw.userId in DrawnIds(other.draw);
    assert f.draw.sid in DrawnIds(f.draw) && f.draw.userId in DrawnIds(f.draw);
    FlightPersists(w, w', other);
  }

  lemma FinishFromDecision(w: I.World, id: nat, f: I.Flight, out: Outcome, w': I.World)
    requires Sound(w) && Wrote(w, id, f, out, w')
    ensures Sound(w') && Persists(w.db, w'.db)
  {
    WriteBackKeys(w, id, f, out, w');
    WriteBackOwners(w, id, f, out, w');
    forall c | c in w'.minted
      ensures Named(w', c)
    {
      WriteBackTokens(w, id, f, out, w', c);
    }
    forall o | o in w'.flights
      ensures FlightOk(w', w'.flights[o])
    {
      WriteBackFlights(w, id, f, out, w', o);
    }
  }

  lemma RereadKeepsFlight(w: I.World, f: I.Flight, users: set<string>, roles: set<string>, sessions: set<string>)
    requires FlightOk(w, f)
    ensures FlightOk(w, f.(view := I.Refetch(f.view, w.db, users, roles, sessions)))
  {
    var view := I.Refetch(f.view, w.db, users, roles, sessions);
    forall sid | sid in view.sessions
      ensures ViewedSession(w, view, sid)
    {
      assert sid in f.view.sessions ==> ViewedSession(w, f.view, sid);
    }
  }

  lemma StepKeepsSound(env: Env, w: I.World, m: I.Move)
    requires Sound(w) && I.Possible(env, w, m)
    ensures Sound(I.Step(env, w, m)) && Persists(w.db, I.Step(env, w, m).db)
    ensures w.minted <= I.Step(env, w, m).minted
  {
    var w' := I.Step(env, w, m);
    if m.Finish? {
      FinishKeepsSound(env, w, m.id, m.now);
    } else {
      forall c | c in w'.minted ensures Named(w', c) { assert Named(w, c); }
      forall o | o in w'.flights
        ensures FlightOk(w', w'.flights[o])
      {
        OtherMoveKeepsFlight(env, w, m, o);
      }
    }
  }

  lemma OtherMoveKeepsFlight(env: Env, w: I.World, m: I.Move, o: nat)
    requires Sound(w) && I.Possible(env, w, m) && !m.Finish? && o in I.Step(env, w, m).flights
    ensures FlightOk(I.Step(env, w, m), I.Step(env, w, m).flights[o])
  {
    var w' := I.Step(env, w, m);
    if o in w.flights {
      assert FlightOk(w, w.flights[o]);
      FlightPersists(w, w', w.flights[o]);
    }
    if m.Reread? && m.id == o {
      RereadKeepsFlight(w', w.flights[o], m.users, m.roles, m.sessions);
    }
  }

  lemma {:induction false} AlwaysSound(env: Env, r: I.Run, i: nat)
    requires I.IsRun(env, r) && i < |r.worlds|
    ensures Sound(r.worlds[i])
  {
    if i == 0 {
      assert I.Initial(r.worlds[0]);
    } else {
      AlwaysSound(env, r, i - 1);
      StepKeepsSound(env, r.worlds[i - 1], r.moves[i - 1]);
    }
  }

  /** Sessions and returned tokens of a world are still those of a later one. */
  predicate Lasts(w: I.World, w': I.World) {
    Persists(w.db, w'.db) && w.minted <= w'.minted
  }

  lemma {:induction false} LastsAlong(worlds: seq<I.World>, i: nat, j: nat)
    requires i <= j < |worlds| && forall k | i <= k < j :: Lasts(worlds[k], worlds[k + 1])
    ensures Lasts(worlds[i], worlds[j])
    decreases j - i
  {
    if i == j {
    } else {
      LastsAlong(worlds, i, j - 1);
    }
  }

  lemma AlwaysPersists(env: Env, r: I.Run, i: nat, j: nat)
    requires I.IsRun(env, r) && i <= j < |r.worlds|
    ensures Lasts(r.worlds[i], r.worlds[j])
  {
    forall k | i <= k < j
      ensures Lasts(r.worlds[k], r.worlds[k + 1])
    {
      AlwaysSound(env, r, k);
      StepKeepsSound(env, r.worlds[k], r.moves[k]);
    }
    LastsAlong(r.worlds, i, j);
  }

  // --- What a request holds was committed since it began ---------------------------------

  function RowOf<V>(rows: map<string, V>, key: string): Option<V> {
    if key in rows then Some(rows[key]) else None
  }

  /** One step of a request's view of a session: unchanged, or as committed now. */
  predicate ViewMoves(w: I.World, w': I.World, id: nat, sid: string) {
    id in w'.flights ==>
      var row := RowOf(w'.flights[id].view.sessions, sid);
      row == RowOf(w.db.sessions, sid) || (id in w.flights && row == RowOf(w.flights[id].view.sessions, sid))
  }

  lemma StepMovesView(env: Env, w: I.World, m: I.Move, id: nat, sid: string)
    requires I.Possible(env, w, m)
    ensures ViewMoves(w, I.Step(env, w, m), id, sid)
  {
  }

  lemma {:induction false} ReadSince(worlds: seq<I.World>, p: nat, j: nat, id: nat, sid: string) returns (q: nat)
    requires p < j < |worlds| && forall l | p < l < j :: ViewMoves(worlds[l], worlds[l + 1], id, sid)
    requires id in worlds[p + 1].flights
             && RowOf(worlds[p + 1].flights[id].view.sessions, sid) == RowOf(worlds[p].db.sessions, sid)
    requires id in worlds[j].flights
    ensures p <= q < j
    ensures RowOf(worlds[j].flights[id].view.sessions, sid) == RowOf(worlds[q].db.sessions, sid)
    decreases j - p
  {
    q := j - 1;
    if RowOf(worlds[j].flights[id].view.sessions, sid) != RowOf(worlds[q].db.sessions, sid) {
      if j > p + 1 {
        assert ViewMoves(worlds[j - 1], worlds[j - 1 + 1], id, sid);
        q := ReadSince(worlds, p, j - 1, id, sid);
      }
    }
  }

  /** The session row a request holds is the one committed at some moment since the
      request began. */
  lemma SessionRowWasCommitted(env: Env, r: I.Run, p: nat, j: nat, id: nat, sid: string) returns (q: nat)
    requires I.IsRun(env, r) && p < j < |r.worlds|
    requires r.moves[p].Begin? && r.moves[p].id == id && id in r.worlds[j].flights
    ensures p <= q < j
    ensures RowOf(r.worlds[j].flights[id].view.sessions, sid) == RowOf(r.worlds[q].db.sessions, sid)
  {
    assert r.worlds[p + 1] == I.Step(env, r.worlds[p], r.moves[p]);
    forall l | p < l < j
      ensures ViewMoves(r.worlds[l], r.worlds[l + 1], id, sid)
    {
      StepMovesView(env, r.worlds[l], r.moves[l], id, sid);
    }
    q := ReadSince(r.worlds, p, j, id, sid);
  }

  // --- An undisturbed request is one serial step -----------------------------------------

  /** From its beginning at move `p` up to world `k`, the request goes on and no
      request commits. */
  ghost predicate Alone(r: I.Run, p: nat, k: nat, id: nat)
    requires p < k < |r.worlds| == |r.moves| + 1
  {
    && r.moves[p].Begin? && r.moves[p].id == id
    && forall l | p < l < k :: !r.moves[l].Finish? && r.moves[l] != I.Abort(id)
  }

  lemma RefetchSame(view: Tables, users: set<string>, roles: set<string>, sessions: set<string>)
    ensures I.Refetch(view, view, users, roles, sessions) == view
  {
    assert I.Overlay(view.users, view.users, users) == view.users;
    assert I.Overlay(view.roles, view.roles, roles) == view.roles;
    assert I.Overlay(view.sessions, view.sessions, sessions) == view.sessions;
  }

  lemma {:induction false} UndisturbedView(env: Env, r: I.Run, p: nat, k: nat, id: nat)
    requires I.IsRun(env, r) && p < k < |r.worlds| && Alone(r, p, k, id)
    ensures r.worlds[k].db == r.worlds[p].db && id in r.worlds[k].flights
    ensures var m := r.moves[p];
            r.worlds[k].flights[id] == I.Flight(m.req, m.client, m.draw, r.worlds[p].clock, r.worlds[p].db)
    decreases k - p
  {
    if k == p + 1 {
      assert r.worlds[k] == I.Step(env, r.worlds[p], r.moves[p]);
    } else {
      UndisturbedView(env, r, p, k - 1, id);
      var m := r.moves[k - 1];
      if m.Reread? {
        RefetchSame(r.worlds[p].db, m.users, m.roles, m.sessions);
      }
    }
  }

  /** The interleaved service refines the serial one: a request that nobody else's
      commit separates from its beginning can commit at any time up to now, and
      then changes the tables, and answers, exactly as the serial step at that
      time. */
  lemma SoloFlightIsSerial(env: Env, r: I.Run, p: nat, k: nat, id: nat, now: nat)
    requires I.IsRun(env, r) && p < k < |r.worlds| && Alone(r, p, k, id)
    requires r.worlds[p].clock <= now <= r.worlds[k].clock
    ensures id in r.worlds[k].flights && I.Possible(env, r.worlds[k], I.Finish(id, now))
    ensures var m, w' := r.moves[p], I.Step(env, r.worlds[k], I.Finish(id, now));
      var serial := Handle(env, r.worlds[p].db, m.req, m.client, now, m.draw);
      && I.Decide(env, r.worlds[k].flights[id], now) == serial
      && w'.db == serial.db && w'.minted == r.worlds[k].minted + MintedBy(serial.reply)
  {
    var m, db := r.moves[p], r.worlds[p].db;
    UndisturbedView(env, r, p, k, id);
    AlwaysSound(env, r, p);
    StepGrows(env, db, m.req, m.client, now, m.draw);
    I.MergeUndisturbed(db, Handle(env, db, m.req, m.client, now, m.draw).db);
  }

  // --- What concurrency cannot break ------------------------------------------------------

  /** A session whose revocation has committed is refused for ever after: no claims
      naming it are accepted in any later state. */
  lemma RevokedForever(env: Env, r: I.Run, i: nat, j: nat, c: Claims, client: Client, now: nat, draw: Draw)
    requires I.IsRun(env, r) && i <= j < |r.worlds|
    requires c.sid.Some? && c.sid.value in r.worlds[i].db.sessions
    requires r.worlds[i].db.sessions[c.sid.value].revokedAt.Some?
    ensures var db := r.worlds[j].db;
      && c.sid.value in db.sessions && db.sessions[c.sid.value].revokedAt.Some?
      && GetCurrentPrincipal(db, Signed(c), now).Failure?
      && RefreshStep(env, db, Signed(c), client, now, draw).reply.Failure?
  {
    AlwaysPersists(env, r, i, j);
    AlwaysSound(env, r, j);
  }

  predicate HoldsRevoked(view: Tables, sid: string) {
    sid in view.sessions && view.sessions[sid].revokedAt.Some?
  }

  /** A request that began after a revocation committed holds the revoked row,
      whatever it has reread since. */
  lemma LaterViewIsRevoked(env: Env, r: I.Run, i: nat, p: nat, j: nat, id: nat, sid: string)
    requires I.IsRun(env, r) && i <= p < j < |r.worlds| && HoldsRevoked(r.worlds[i].db, sid)
    requires r.moves[p].Begin? && r.moves[p].id == id && id in r.worlds[j].flights
    ensures HoldsRevoked(r.worlds[j].flights[id].view, sid)
  {
    var q := SessionRowWasCommitted(env, r, p, j, id, sid);
    AlwaysPersists(env, r, i, q);
  }

  /** So a committed revocation also decides every request that begins after it:
      with a token of the session the request fails whenever it commits, and has
      nothing to write. */
  lemma RevokedRefusesLaterRequests(env: Env, r: I.Run, i: nat, p: nat, j: nat, id: nat, c: Claims, now: nat)
    requires I.IsRun(env, r) && i <= p < j < |r.worlds|
    requires c.sid.Some? && HoldsRevoked(r.worlds[i].db, c.sid.value)
    requires r.moves[p].Begin? && r.moves[p].id == id && id in r.worlds[j].flights
    requires Presented(r.worlds[j].flights[id].req) == Signed(c)
    ensures var f := r.worlds[j].flights[id];
            I.Decide(env, f, now).reply.Failure? && I.Decide(env, f, now).db == f.view
  {
    LaterViewIsRevoked(env, r, i, p, j, id, c.sid.value);
    AlwaysSound(env, r, i);
    var f := r.worlds[j].flights[id];
    if f.req.Refresh? {
      RevokedRefuses(env, f.view, c, f.client, now, f.draw);
    } else {
      RevokedRefuses(env, f.view, c, f.client, now, f.draw);
      assert Guard(f.view, f.req.bearer, f.req.command, now).Failure?;
    }
  }

  /** No resurrection: a refresh that read its session before a revocation
      committed may still commit and return a pair, but the session stays
      revoked, and that pair is refused in every later state. */
  lemma NoResurrection(env: Env, r: I.Run, k: nat, j: nat, id: nat, at: nat, client: Client, now: nat, draw: Draw)
    requires I.IsRun(env, r) && k < j < |r.worlds| && r.moves[k] == I.Finish(id, at)
    requires id in r.worlds[k].flights && r.worlds[k].flights[id].req.Refresh?
    requires var reply := I.Decide(env, r.worlds[k].flights[id], at).reply; reply.Success? && Issues(reply)
    requires var sid := I.Decide(env, r.worlds[k].flights[id], at).reply.value.pair.refresh.sid;
             sid.Some? && sid.value in r.worlds[k].db.sessions
             && r.worlds[k].db.sessions[sid.value].revokedAt.Some?
    ensures var p := I.Decide(env, r.worlds[k].flights[id], at).reply.value.pair;
      var db := r.worlds[j].db;
      && p.refresh.sid.value in db.sessions && db.sessions[p.refresh.sid.value].revokedAt.Some?
      && GetCurrentPrincipal(db, Signed(p.access), now).Failure?
      && RefreshStep(env, db, Signed(p.refresh), client, now, draw).reply.Failure?
  {
    var f := r.worlds[k].flights[id];
    var p := I.Decide(env, f, at).reply.value.pair;
    assert p.access.sid == p.refresh.sid;
    RevokedForever(env, r, k, j, p.refresh, client, now, draw);
    RevokedForever(env, r, k, j, p.access, client, now, draw);
  }

  /** Sign-out is total under every interleaving: once it has committed, in every
      later state every token ever returned for the session is refused, also those
      of a refresh that overtakes it. */
  lemma LogoutIsTotal(env: Env, r: I.Run, k: nat, j: nat, id: nat, at: nat, b: Bearer, d: Claims,
                      client: Client, now: nat, draw: Draw)
    requires I.IsRun(env, r) && k < j < |r.worlds| && r.moves[k] == I.Finish(id, at)
    requires id in r.worlds[k].flights && r.worlds[k].flights[id].req == Authorised(b, Logout)
    requires I.Decide(env, r.worlds[k].flights[id], at).reply.Success?
    requires b.Signed? ==> d.sid == b.claims.sid
    ensures GetCurrentPrincipal(r.worlds[j].db, Signed(d), now).Failure?
    ensures RefreshStep(env, r.worlds[j].db, Signed(d), client, now, draw).reply.Failure?
  {
    AlwaysSound(env, r, k);
    var w := r.worlds[k];
    var f := w.flights[id];
    assert FlightOk(w, f) && Named(w, b.claims);
    assert ViewedSession(w, f.view, d.sid.value);
    LogoutWrites(env, w, id, at, b);
    RevokedForever(env, r, k + 1, j, d, client, now, draw);
  }

  lemma LogoutWrites(env: Env, w: I.World, id: nat, at: nat, b: Bearer)
    requires I.Possible(env, w, I.Finish(id, at)) && w.flights[id].req == Authorised(b, Logout)
    requires I.Decide(env, w.flights[id], at).reply.Success?
    requires b.Signed? && Truthy(b.claims.sid) && b.claims.sid.value in w.db.sessions
    ensures var after := I.Step(env, w, I.Finish(id, at)).db.sessions;
            b.claims.sid.value in after && after[b.claims.sid.value].revokedAt.Some?
  {
    var f := w.flights[id];
    var sid := b.claims.sid.value;
    assert Live(f.view.sessions[sid], at);
    assert I.Decide(env, f, at).db.sessions[sid] == f.view.sessions[sid].(revokedAt := Some(at));
  }

  // --- Lockout columns -----------------------------------------------------------------------

  /** The stored count is below the limit, and a stored lock ends at most one
      lockout after the latest time. */
  predicate Bounded(s: Settings, clock: nat, u: User) {
    && 0 <= u.failed < Limit(s)
    && (u.lockedUntil.Some? ==> u.lockedUntil.value <= clock + Lockout(s))
  }

  predicate CountersBounded(env: Env, w: I.World) {
    && (forall u | u in w.db.users :: Bounded(env.settings, w.clock, w.db.users[u]))
    && (forall id, u | id in w.flights && u in w.flights[id].view.users ::
          Bounded(env.settings, w.clock, w.flights[id].view.users[u]))
  }

  lemma DecisionIsBounded(env: Env, view: Tables, req: Request, client: Client, now: nat, draw: Draw, clock: nat, u: string)
    requires draw.userId !in view.users && now <= clock
    requires u in view.users ==> Bounded(env.settings, clock, view.users[u])
    ensures var after := Handle(env, view, req, client, now, draw).db.users;
            u in after ==> Bounded(env.settings, clock, after[u])
  {
    if req.Login? {
      LoginLocks(env, view, req.email, req.password, client, now, draw, u);
    } else {
      OthersLeaveLocksAlone(env, view, req, client, now, draw, u);
    }
  }

  lemma MergeIsBounded(env: Env, w: I.World, f: I.Flight, out: Outcome, u: string)
    requires CountersBounded(env, w) && FlightOk(w, f) && SaneDecision(f.view, f.draw, out)
    requires u in out.db.users ==> Bounded(env.settings, w.clock, out.db.users[u])
    ensures var after := I.Merge(f.view, out.db, w.db).users;
            u in after ==> Bounded(env.settings, w.clock, after[u])
  {
  }

  lemma StepKeepsBounded(env: Env, w: I.World, m: I.Move)
    requires Sound(w) && CountersBounded(env, w) && I.Possible(env, w, m)
    ensures CountersBounded(env, I.Step(env, w, m))
  {
    var w' := I.Step(env, w, m);
    if m.Finish? {
      var f := w.flights[m.id];
      assert FlightOk(w, f);
      DecisionIsSane(env, f.view, f.req, f.client, m.now, f.draw);
      forall u | u in w'.db.users
        ensures Bounded(env.settings, w'.clock, w'.db.users[u])
      {
        DecisionIsBounded(env, f.view, f.req, f.client, m.now, f.draw, w.clock, u);
        MergeIsBounded(env, w, f, I.Decide(env, f, m.now), u);
      }
    }
    forall id, u | id in w'.flights && u in w'.flights[id].view.users
      ensures Bounded(env.settings, w'.clock, w'.flights[id].view.users[u])
    {
      assert id in w.flights && u in w.flights[id].view.users ==>
          Bounded(env.settings, w.clock, w.flights[id].view.users[u]);
      assert u in w.db.users ==> Bounded(env.settings, w.clock, w.db.users[u]);
    }
  }

  /** Under every interleaving the failure count stays in [0, limit) and no stored
      lock ends later than one lockout from now. */
  lemma {:induction false} CountersAlwaysBounded(env: Env, r: I.Run, i: nat)
    requires I.IsRun(env, r) && i < |r.worlds|
    ensures CountersBounded(env, r.worlds[i])
  {
    if i == 0 {
      assert I.Initial(r.worlds[0]);
    } else {
      CountersAlwaysBounded(env, r, i - 1);
      AlwaysSound(env, r, i - 1);
      StepKeepsBounded(env, r.worlds[i - 1], r.moves[i - 1]);
    }
  }
}
