/** What concurrency does break in the identity service, and exactly when: rotation
    and failure counting are exact for requests that do not overlap, and for
    overlapping ones in the cases stated here. */
module OverlapTheorems {
  import opened Prelude
  import opened Security
  import opened IdentityModels
  import opened IdentityService
  import opened IdentityRuns
  import opened InterleavingTheorems
  import AccessTheorems
  import I = Interleaving

  // --- Refresh identifiers -------------------------------------------------------------------

  /** Refresh identifiers of returned tokens and of stored sessions were drawn
      already, and by no request still under way. */
  predicate JtisApart(w: I.World) {
    && (forall c | c in w.minted && c.jti.Some? :: c.jti.value in w.issued)
    && (forall id, c | id in w.flights && c in w.minted :: c.jti != Some(w.flights[id].draw.jti))
  }

  /** A decision changes a session's refresh identifier only to the drawn one,
      and returns tokens with no other identifier. */
  predicate OnlyDrawnJti(view: Tables, out: Outcome, jti: string) {
    && (forall sid | sid in view.sessions ::
          sid in out.db.sessions && out.db.sessions[sid].refreshJti in {view.sessions[sid].refreshJti, jti})
    && (forall c | c in MintedBy(out.reply) :: c.jti.None? || c.jti == Some(jti))
  }

  lemma LoginJtis(env: Env, view: Tables, email: string, password: string, client: Client, now: nat, draw: Draw)
    requires draw.sid !in view.sessions
    ensures OnlyDrawnJti(view, LoginStep(env, view, email, password, client, now, draw), draw.jti)
  {
  }

  lemma RefreshJtis(env: Env, view: Tables, token: Bearer, client: Client, now: nat, draw: Draw)
    ensures OnlyDrawnJti(view, RefreshStep(env, view, token, client, now, draw), draw.jti)
  {
  }

  lemma DecisionJtis(env: Env, view: Tables, req: Request, client: Client, now: nat, draw: Draw)
    requires draw.sid !in view.sessions && draw.userId !in view.users
    ensures OnlyDrawnJti(view, Handle(env, view, req, client, now, draw), draw.jti)
  {
    match req
    case Login(email, password) => LoginJtis(env, view, email, password, client, now, draw);
    case Refresh(token) => RefreshJtis(env, view, token, client, now, draw);
    case Authorised(bearer, command) => CommandFrame(env, view, bearer, command, client, now, draw);
  }

  lemma StepKeepsJtis(env: Env, w: I.World, m: I.Move)
    requires Sound(w) && JtisApart(w) && I.Possible(env, w, m)
    ensures JtisApart(I.Step(env, w, m))
  {
    if m.Finish? {
      var f := w.flights[m.id];
      assert FlightOk(w, f);
      assert f.draw.jti in DrawnIds(f.draw);
      DecisionJtis(env, f.view, f.req, f.client, m.now, f.draw);
      forall id | id in w.flights && id != m.id
        ensures w.flights[id].draw.jti != f.draw.jti
      {
        assert w.flights[id].draw.jti in DrawnIds(w.flights[id].draw);
      }
    }
  }

  lemma {:induction false} JtisAlwaysApart(env: Env, r: I.Run, i: nat)
    requires I.IsRun(env, r) && i < |r.worlds|
    ensures JtisApart(r.worlds[i])
  {
    if i == 0 {
      assert I.Initial(r.worlds[0]);
    } else {
      JtisAlwaysApart(env, r, i - 1);
      AlwaysSound(env, r, i - 1);
      StepKeepsJtis(env, r.worlds[i - 1], r.moves[i - 1]);
    }
  }

  /** The session's stored refresh identifier is no longer `jti`, and no request
      under way can bring it back. */
  predicate Retired(w: I.World, sid: string, jti: string) {
    && jti in w.issued
    && (forall id | id in w.flights :: w.flights[id].draw.jti != jti)
    && sid in w.db.sessions && w.db.sessions[sid].refreshJti != jti
  }

  lemma StepKeepsRetired(env: Env, w: I.World, m: I.Move, sid: string, jti: string)
    requires Sound(w) && I.Possible(env, w, m) && Retired(w, sid, jti)
    ensures Retired(I.Step(env, w, m), sid, jti)
  {
    if m.Finish? {
      var f := w.flights[m.id];
      assert FlightOk(w, f);
      DecisionJtis(env, f.view, f.req, f.client, m.now, f.draw);
    }
  }

  lemma {:induction false} RetiredForever(env: Env, r: I.Run, i: nat, j: nat, sid: string, jti: string)
    requires I.IsRun(env, r) && i <= j < |r.worlds| && Retired(r.worlds[i], sid, jti)
    ensures Retired(r.worlds[j], sid, jti)
    decreases j - i
  {
    if i == j {
      assert Retired(r.worlds[i], sid, jti);
    } else {
      RetiredForever(env, r, i, j - 1, sid, jti);
      AlwaysSound(env, r, j - 1);
      StepKeepsRetired(env, r.worlds[j - 1], r.moves[j - 1], sid, jti);
    }
  }

  /** The request `id` is a refresh with token `c`, and finishing it now accepts. */
  predicate AcceptsNow(env: Env, w: I.World, id: nat, at: nat, c: Claims) {
    && id in w.flights && w.flights[id].req == IdentityModels.Refresh(Signed(c))
    && I.Decide(env, w.flights[id], at).reply.Success?
  }

  lemma AcceptedRefreshReads(env: Env, w: I.World, id: nat, at: nat, c: Claims)
    requires AcceptsNow(env, w, id, at, c)
    ensures c.sid.Some? && c.sid.value in w.flights[id].view.sessions
    ensures Some(w.flights[id].view.sessions[c.sid.value].refreshJti) == c.jti
  {
  }

  lemma AcceptedRefreshRetires(env: Env, w: I.World, id: nat, at: nat, c: Claims)
    requires Sound(w) && JtisApart(w) && I.Possible(env, w, I.Finish(id, at)) && AcceptsNow(env, w, id, at, c)
    ensures c.sid.Some? && c.jti.Some? && Retired(I.Step(env, w, I.Finish(id, at)), c.sid.value, c.jti.value)
  {
    var f := w.flights[id];
    assert FlightOk(w, f) && Named(w, c);
    assert ViewedSession(w, f.view, c.sid.value);
    assert I.Decide(env, f, at).db.sessions[c.sid.value].refreshJti == f.draw.jti;
  }

  /** A request that began after a refresh token was accepted refuses that token. */
  lemma LaterRequestRefuses(env: Env, r: I.Run, k: nat, p: nat, j: nat, a: nat, b: nat, atA: nat, atB: nat, c: Claims)
    requires I.IsRun(env, r) && k < p < j < |r.worlds|
    requires r.moves[k] == I.Finish(a, atA) && AcceptsNow(env, r.worlds[k], a, atA, c)
    requires r.moves[p].Begin? && r.moves[p].id == b
    ensures !AcceptsNow(env, r.worlds[j], b, atB, c)
  {
    if AcceptsNow(env, r.worlds[j], b, atB, c) {
      AlwaysSound(env, r, k);
      JtisAlwaysApart(env, r, k);
      AcceptedRefreshRetires(env, r.worlds[k], a, atA, c);
      var q := SessionRowWasCommitted(env, r, p, j, b, c.sid.value);
      RetiredForever(env, r, k + 1, q, c.sid.value, c.jti.value);
      AcceptedRefreshReads(env, r.worlds[j], b, atB, c);
      assert false;
    }
  }

  /** Under every interleaving a refresh token is accepted a second time only by a
      request that had begun before the first acceptance committed: any beginning
      of that request lies before it. */
  lemma SecondUseOverlapsFirst(env: Env, r: I.Run, k: nat, j: nat, a: nat, b: nat, atA: nat, atB: nat, c: Claims, p: nat)
    requires I.IsRun(env, r) && k < j < |r.moves| && p < j
    requires r.moves[k] == I.Finish(a, atA) && AcceptsNow(env, r.worlds[k], a, atA, c)
    requires r.moves[j] == I.Finish(b, atB) && AcceptsNow(env, r.worlds[j], b, atB, c)
    requires r.moves[p].Begin? && r.moves[p].id == b
    ensures p < k
  {
    if k < p {
      LaterRequestRefuses(env, r, k, p, j, a, b, atA, atB, c);
    }
  }

  /** And overlapping is enough: of two requests under way with the same token that would
      both be accepted, the commit of one does not stop the other. The later
      commit wins, so the first client's new token is already a rotated one. */
  lemma OverlappingRefreshesBothAccepted(env: Env, w: I.World, a: nat, b: nat, atA: nat, atB: nat, c: Claims)
    requires Sound(w) && JtisApart(w) && a != b
    requires I.Possible(env, w, I.Finish(a, atA)) && AcceptsNow(env, w, a, atA, c)
    requires AcceptsNow(env, w, b, atB, c) && w.flights[b].start <= atB <= w.clock
    ensures var w1 := I.Step(env, w, I.Finish(a, atA));
      && I.Possible(env, w1, I.Finish(b, atB)) && AcceptsNow(env, w1, b, atB, c)
      && var w2 := I.Step(env, w1, I.Finish(b, atB));
      && c.sid.Some? && c.sid.value in w2.db.sessions
      && w2.db.sessions[c.sid.value].refreshJti == w.flights[b].draw.jti
      && forall d | d in MintedBy(I.Decide(env, w.flights[a], atA).reply) ::
           d.jti != Some(w.flights[b].draw.jti)
  {
    assert FlightOk(w, w.flights[b]);
    FinishLeavesOther(env, w, a, atA, b, atB, c);
    FinishKeepsSound(env, w, a, atA);
    AcceptedRefreshWrites(env, I.Step(env, w, I.Finish(a, atA)), b, atB, c);
    MintedNeverNamesOther(env, w, a, atA, b);
  }

  lemma FinishLeavesOther(env: Env, w: I.World, a: nat, atA: nat, b: nat, atB: nat, c: Claims)
    requires I.Possible(env, w, I.Finish(a, atA)) && AcceptsNow(env, w, b, atB, c) && a != b
    ensures var w1 := I.Step(env, w, I.Finish(a, atA));
      && w1.clock == w.clock && b in w1.flights && w1.flights[b] == w.flights[b] && AcceptsNow(env, w1, b, atB, c)
  {
  }

  lemma MintedNeverNamesOther(env: Env, w: I.World, a: nat, atA: nat, b: nat)
    requires Sound(w) && a in w.flights && b in w.flights && a != b
    ensures forall d | d in MintedBy(I.Decide(env, w.flights[a], atA).reply) ::
              d.jti != Some(w.flights[b].draw.jti)
  {
    var fa, fb := w.flights[a], w.flights[b];
    assert FlightOk(w, fa);
    assert fa.draw.jti in DrawnIds(fa.draw) && fb.draw.jti in DrawnIds(fb.draw);
    DecisionJtis(env, fa.view, fa.req, fa.client, atA, fa.draw);
  }

  /** An accepted refresh inserts no row, and stores the identifier it drew. */
  lemma AcceptedRefreshWrites(env: Env, w: I.World, id: nat, at: nat, c: Claims)
    requires Sound(w) && AcceptsNow(env, w, id, at, c) && w.flights[id].start <= at <= w.clock
    requires c.jti != Some(w.flights[id].draw.jti)
    ensures I.Possible(env, w, I.Finish(id, at)) && c.sid.Some?
    ensures var after := I.Step(env, w, I.Finish(id, at)).db.sessions;
            c.sid.value in after && after[c.sid.value].refreshJti == w.flights[id].draw.jti
  {
    var f := w.flights[id];
    assert FlightOk(w, f) && ViewedSession(w, f.view, c.sid.value);
    var out := I.Decide(env, f, at);
    assert out.db.users == f.view.users && out.db.roles == f.view.roles;
    assert out.db.sessions.Keys == f.view.sessions.Keys;
    assert out.db.sessions[c.sid.value].refreshJti == f.draw.jti;
  }

  /** Wherever a refresh token would be accepted, any number of requests can begin
      with it, and each of them would be accepted. */
  lemma BeginningRefreshWouldBeAccepted(env: Env, w: I.World, id: nat, c: Claims, client: Client, draw: Draw)
    requires id !in w.flights && c in w.minted && FreshDraw(w.issued, draw)
    requires RefreshStep(env, w.db, Signed(c), client, w.clock, draw).reply.Success?
    ensures var m := I.Begin(id, IdentityModels.Refresh(Signed(c)), client, draw);
      && I.Possible(env, w, m)
      && AcceptsNow(env, I.Step(env, w, m), id, w.clock, c)
      && I.Step(env, w, m).db == w.db
      && forall other, at | AcceptsNow(env, w, other, at, c) :: AcceptsNow(env, I.Step(env, w, m), other, at, c)
  {
  }

  /** In every reachable world in which a refresh token would be accepted, two
      overlapping requests can both have it accepted, in four moves. */
  lemma TokenAcceptedTwice(env: Env, r: I.Run, i: nat, c: Claims, a: nat, b: nat,
                           clientA: Client, clientB: Client, drawA: Draw, drawB: Draw)
    requires I.IsRun(env, r) && i < |r.worlds| && c in r.worlds[i].minted
    requires a != b && a !in r.worlds[i].flights && b !in r.worlds[i].flights
    requires FreshDraw(r.worlds[i].issued, drawA) && FreshDraw(r.worlds[i].issued + DrawnIds(drawA), drawB)
    requires var w := r.worlds[i]; RefreshStep(env, w.db, Signed(c), clientA, w.clock, drawA).reply.Success?
    ensures var w, req := r.worlds[i], IdentityModels.Refresh(Signed(c));
      var beginA, beginB := I.Begin(a, req, clientA, drawA), I.Begin(b, req, clientB, drawB);
      && I.Possible(env, w, beginA)
      && var w1 := I.Step(env, w, beginA);
      && I.Possible(env, w1, beginB)
      && var w2 := I.Step(env, w1, beginB);
      && I.Possible(env, w2, I.Finish(a, w.clock)) && AcceptsNow(env, w2, a, w.clock, c)
      && var w3 := I.Step(env, w2, I.Finish(a, w.clock));
      && I.Possible(env, w3, I.Finish(b, w.clock)) && AcceptsNow(env, w3, b, w.clock, c)
  {
    var w, req := r.worlds[i], IdentityModels.Refresh(Signed(c));
    AlwaysSound(env, r, i);
    JtisAlwaysApart(env, r, i);
    var beginA, beginB := I.Begin(a, req, clientA, drawA), I.Begin(b, req, clientB, drawB);
    BeginningRefreshWouldBeAccepted(env, w, a, c, clientA, drawA);
    var w1 := BeginKeeps(env, w, beginA);
    AnyoneWouldBeAccepted(env, w.db, c, clientA, clientB, w.clock, drawA, drawB);
    BeginningRefreshWouldBeAccepted(env, w1, b, c, clientB, drawB);
    var w2 := BeginKeeps(env, w1, beginB);
    assert AcceptsNow(env, w2, a, w.clock, c);
    BothCommit(env, w2, a, b, w.clock, c);
  }

  lemma BeginKeeps(env: Env, w: I.World, m: I.Move) returns (w': I.World)
    requires Sound(w) && JtisApart(w) && I.Possible(env, w, m) && m.Begin?
    ensures w' == I.Step(env, w, m) && Sound(w') && JtisApart(w')
    ensures w'.clock == w.clock && w'.db == w.db && w'.minted == w.minted && w'.issued == w.issued + DrawnIds(m.draw)
    ensures w'.flights.Keys == w.flights.Keys + {m.id}
  {
    w' := I.Step(env, w, m);
    StepKeepsSound(env, w, m);
    StepKeepsJtis(env, w, m);
  }

  lemma AnyoneWouldBeAccepted(env: Env, db: Tables, c: Claims, clientA: Client, clientB: Client, now: nat,
                              drawA: Draw, drawB: Draw)
    ensures RefreshStep(env, db, Signed(c), clientA, now, drawA).reply.Success?
       <==> RefreshStep(env, db, Signed(c), clientB, now, drawB).reply.Success?
  {
  }

  lemma BothCommit(env: Env, w: I.World, a: nat, b: nat, at: nat, c: Claims)
    requires Sound(w) && JtisApart(w) && a != b && at == w.clock
    requires AcceptsNow(env, w, a, at, c) && AcceptsNow(env, w, b, at, c)
    ensures I.Possible(env, w, I.Finish(a, at))
    ensures var w1 := I.Step(env, w, I.Finish(a, at)); I.Possible(env, w1, I.Finish(b, at)) && AcceptsNow(env, w1, b, at, c)
  {
    assert FlightOk(w, w.flights[a]) && Named(w, c);
    JtiIsNotDrawn(w, a, c);
    AcceptedRefreshWrites(env, w, a, at, c);
    OverlappingRefreshesBothAccepted(env, w, a, b, at, at, c);
  }

  lemma JtiIsNotDrawn(w: I.World, id: nat, c: Claims)
    requires JtisApart(w) && id in w.flights && c in w.minted
    ensures c.jti != Some(w.flights[id].draw.jti)
  {
  }

  // --- Failure counting ------------------------------------------------------------------------

  /** What a wrong password that does not lock writes: one more than the count the
      request read. So it raises the stored count by one exactly when the two
      counts are equal, and lowers it exactly when others have meanwhile counted
      two failures or more. */
  lemma WrongPasswordCounts(env: Env, w: I.World, id: nat, at: nat, uid: string)
    requires Sound(w) && I.Possible(env, w, I.Finish(id, at))
    requires I.Decide(env, w.flights[id], at).reply == Failure(WrongPassword(uid))
    ensures uid in w.flights[id].view.users && uid in w.db.users
    ensures var read, stored := w.flights[id].view.users[uid].failed, w.db.users[uid].failed;
      var after := I.Step(env, w, I.Finish(id, at)).db.users;
      && uid in after && after[uid].failed == read + 1
      && (after[uid].failed == stored + 1 <==> read == stored)
      && (after[uid].failed < stored <==> read + 1 < stored)
  {
    var f := w.flights[id];
    assert FlightOk(w, f);
    WrongPasswordDecision(env, f.view, f.req, f.client, at, f.draw, uid);
    WrongPasswordWrites(env, w, id, at, uid);
  }

  predicate Reads(m: I.Move, id: nat, uid: string) {
    (m.Begin? && m.id == id) || (m.Reread? && m.id == id && uid in m.users)
  }

  /** The last move before world `k` at which the request read the account. */
  ghost predicate LastRead(r: I.Run, q: nat, k: nat, id: nat, uid: string)
    requires q < k < |r.worlds| == |r.moves| + 1
  {
    Reads(r.moves[q], id, uid) && forall l | q < l < k :: !Reads(r.moves[l], id, uid)
  }

  lemma ReadsCommitted(env: Env, w: I.World, m: I.Move, id: nat, uid: string)
    requires I.Possible(env, w, m) && Reads(m, id, uid)
    ensures var w' := I.Step(env, w, m);
            id in w'.flights && RowOf(w'.flights[id].view.users, uid) == RowOf(w.db.users, uid)
  {
  }

  predicate HoldsRow(w: I.World, id: nat, uid: string, row: Option<User>) {
    id in w.flights ==> RowOf(w.flights[id].view.users, uid) == row
  }

  lemma OthersKeepRow(env: Env, w: I.World, m: I.Move, id: nat, uid: string, row: Option<User>)
    requires I.Possible(env, w, m) && !Reads(m, id, uid) && HoldsRow(w, id, uid, row)
    ensures HoldsRow(I.Step(env, w, m), id, uid, row)
  {
  }

  /** The request holds the account as it was committed at its last read. */
  lemma {:induction false} HoldsLastRead(env: Env, r: I.Run, q: nat, k: nat, id: nat, uid: string)
    requires I.IsRun(env, r) && q < k < |r.worlds| && LastRead(r, q, k, id, uid)
    ensures HoldsRow(r.worlds[k], id, uid, RowOf(r.worlds[q].db.users, uid))
    decreases k - q
  {
    if k == q + 1 {
      ReadsCommitted(env, r.worlds[q], r.moves[q], id, uid);
    } else {
      HoldsLastRead(env, r, q, k - 1, id, uid);
      OthersKeepRow(env, r.worlds[k - 1], r.moves[k - 1], id, uid, RowOf(r.worlds[q].db.users, uid));
    }
  }

  function CountOf(w: I.World, uid: string): int {
    if uid in w.db.users then w.db.users[uid].failed else 0
  }

  /** Under every interleaving a wrong password is counted exactly, raising the
      stored count by one, if and only if the account's stored count at the commit
      is the one committed when the request last read the account. */
  lemma FailureCountedIffUndisturbed(env: Env, r: I.Run, q: nat, k: nat, id: nat, at: nat, uid: string)
    requires I.IsRun(env, r) && q < k < |r.moves| && LastRead(r, q, k, id, uid)
    requires r.moves[k] == I.Finish(id, at)
    requires I.Decide(env, r.worlds[k].flights[id], at).reply == Failure(WrongPassword(uid))
    ensures CountOf(r.worlds[k + 1], uid) == CountOf(r.worlds[q], uid) + 1
    ensures CountOf(r.worlds[k + 1], uid) == CountOf(r.worlds[k], uid) + 1
       <==> CountOf(r.worlds[k], uid) == CountOf(r.worlds[q], uid)
  {
    AlwaysSound(env, r, k);
    HoldsLastRead(env, r, q, k, id, uid);
    WrongPasswordCounts(env, r.worlds[k], id, at, uid);
  }

  /** So a caller whose account nobody else's commit touches between read and commit
      has every wrong password counted. */
  lemma UndisturbedFailureCounts(env: Env, r: I.Run, q: nat, k: nat, id: nat, at: nat, uid: string)
    requires I.IsRun(env, r) && q < k < |r.moves| && LastRead(r, q, k, id, uid)
    requires r.moves[k] == I.Finish(id, at)
    requires I.Decide(env, r.worlds[k].flights[id], at).reply == Failure(WrongPassword(uid))
    requires forall l | q <= l < k :: CountOf(r.worlds[l + 1], uid) == CountOf(r.worlds[l], uid)
    ensures CountOf(r.worlds[k + 1], uid) == CountOf(r.worlds[k], uid) + 1
  {
    var counts := seq(|r.worlds|, l requires 0 <= l < |r.worlds| => CountOf(r.worlds[l], uid));
    SameAlong(counts, q, k);
    FailureCountedIffUndisturbed(env, r, q, k, id, at, uid);
  }

  /** A sign-in clears the stored count unless it read zero: then failures that
      others have counted meanwhile stay. */
  lemma SignInClearsWhatItRead(env: Env, w: I.World, id: nat, at: nat, uid: string)
    requires Sound(w) && I.Possible(env, w, I.Finish(id, at))
    requires SignsInto(I.Decide(env, w.flights[id], at).reply, uid)
    ensures uid in w.flights[id].view.users && uid in w.db.users
    ensures var read, stored := w.flights[id].view.users[uid].failed, w.db.users[uid].failed;
            CountOf(I.Step(env, w, I.Finish(id, at)), uid) == if read != 0 then 0 else stored
  {
    var f := w.flights[id];
    assert FlightOk(w, f);
    SignInReads(env, f.view, f.req, f.client, at, f.draw, uid);
  }

  /** A lockout takes hold under every interleaving: whatever others have written
      meanwhile, the account is locked for the full lockout from the time of the
      deciding wrong password, and its count starts again. */
  lemma LockoutTakesHold(env: Env, r: I.Run, k: nat, id: nat, at: nat, uid: string)
    requires I.IsRun(env, r) && k < |r.moves| && r.moves[k] == I.Finish(id, at)
    requires I.Decide(env, r.worlds[k].flights[id], at).reply == Failure(LockedOut(uid))
    requires env.settings.lockoutMinutes > 0
    ensures uid in r.worlds[k + 1].db.users
    ensures var user := r.worlds[k + 1].db.users[uid];
            user.failed == 0 && user.lockedUntil == Some(LockUntil(env.settings, at))
  {
    AlwaysSound(env, r, k);
    CountersAlwaysBounded(env, r, k);
    LockoutWrites(env, r.worlds[k], id, at, uid);
  }

  lemma LockoutWrites(env: Env, w: I.World, id: nat, at: nat, uid: string)
    requires Sound(w) && CountersBounded(env, w) && I.Possible(env, w, I.Finish(id, at))
    requires I.Decide(env, w.flights[id], at).reply == Failure(LockedOut(uid)) && env.settings.lockoutMinutes > 0
    ensures var after := I.Step(env, w, I.Finish(id, at)).db.users;
            uid in after && after[uid].failed == 0 && after[uid].lockedUntil == Some(LockUntil(env.settings, at))
  {
    var f := w.flights[id];
    assert FlightOk(w, f);
    LockoutDecision(env, f.view, f.req, f.client, at, f.draw, uid);
    MergedLock(f.view.users, I.Decide(env, f, at).db.users, w.db.users, uid);
    assert Bounded(env.settings, w.clock, f.view.users[uid]) && Bounded(env.settings, w.clock, w.db.users[uid]);
  }

  lemma MergedLock(r: map<string, User>, n: map<string, User>, c: map<string, User>, uid: string)
    requires uid in r && uid in n && uid in c
    ensures var after := I.MergeUsers(r, n, c);
      && uid in after
      && after[uid].failed == I.Column(r[uid].failed, n[uid].failed, c[uid].failed)
      && after[uid].lockedUntil == I.Column(r[uid].lockedUntil, n[uid].lockedUntil, c[uid].lockedUntil)
  {
  }

  lemma LockoutDecision(env: Env, view: Tables, req: Request, client: Client, now: nat, draw: Draw, uid: string)
    requires Handle(env, view, req, client, now, draw).reply == Failure(LockedOut(uid))
    ensures uid in view.users && !Locked(view.users[uid], now)
            && view.users[uid].failed + 1 >= env.settings.maxFailedLogins
    ensures var after := Handle(env, view, req, client, now, draw).db.users;
            uid in after && after[uid].failed == 0 && after[uid].lockedUntil == Some(LockUntil(env.settings, now))
  {
  }

  predicate SignsInto(reply: Reply, uid: string) {
    reply.Success? && reply.value.LoggedIn? && reply.value.pair.refresh.sub == uid
  }

  lemma SignInReads(env: Env, view: Tables, req: Request, client: Client, now: nat, draw: Draw, uid: string)
    requires SignsInto(Handle(env, view, req, client, now, draw).reply, uid)
    ensures var after := Handle(env, view, req, client, now, draw).db.users;
            uid in view.users && uid in after && after[uid].failed == 0
  {
  }

  /** The lowering case: while one wrong password is under way, two others begin and
      commit. They are counted, and when the first one commits, the count falls. */
  lemma LateFailureLowersCount(env: Env, r: I.Run, i: nat, a: nat, b: nat, c: nat, uid: string,
                               email: string, password: string, client: Client, drawB: Draw, drawC: Draw)
    requires I.IsRun(env, r) && i < |r.worlds|
    requires a in r.worlds[i].flights && b !in r.worlds[i].flights && c !in r.worlds[i].flights
    requires FreshDraw(r.worlds[i].issued, drawB) && FreshDraw(r.worlds[i].issued + DrawnIds(drawB), drawC)
    requires var w := r.worlds[i];
      && I.Decide(env, w.flights[a], w.clock).reply == Failure(WrongPassword(uid))
      && uid in w.flights[a].view.users && uid in w.db.users
      && w.flights[a].view.users[uid].failed == w.db.users[uid].failed
      && w.db.users[uid].failed + 2 < env.settings.maxFailedLogins
      && LoginStep(env, w.db, email, password, client, w.clock, drawB).reply == Failure(WrongPassword(uid))
    ensures var w, req := r.worlds[i], Login(email, password);
      && I.Possible(env, w, I.Begin(b, req, client, drawB))
      && var w1 := I.Step(env, w, I.Begin(b, req, client, drawB));
      && I.Possible(env, w1, I.Finish(b, w.clock))
      && var w2 := I.Step(env, w1, I.Finish(b, w.clock));
      && I.Possible(env, w2, I.Begin(c, req, client, drawC))
      && var w3 := I.Step(env, w2, I.Begin(c, req, client, drawC));
      && I.Possible(env, w3, I.Finish(c, w.clock))
      && var w4 := I.Step(env, w3, I.Finish(c, w.clock));
      && I.Possible(env, w4, I.Finish(a, w.clock))
      && CountOf(w4, uid) == CountOf(w, uid) + 2
      && CountOf(I.Step(env, w4, I.Finish(a, w.clock)), uid) == CountOf(w, uid) + 1
  {
    var w, req := r.worlds[i], Login(email, password);
    AlwaysSound(env, r, i);
    var w2 := WholeRequest(env, w, b, req, client, drawB);
    SecondFailure(env, w.db, email, password, client, w.clock, drawB, drawC, uid);
    var w4 := WholeRequest(env, w2, c, req, client, drawC);
    assert w4.flights[a] == w.flights[a] && FlightOk(w4, w4.flights[a]);
    WrongPasswordWrites(env, w4, a, w.clock, uid);
  }

  /** A request that begins and commits at once. */
  lemma WholeRequest(env: Env, w: I.World, id: nat, req: Request, client: Client, draw: Draw) returns (w2: I.World)
    requires Sound(w) && I.Possible(env, w, I.Begin(id, req, client, draw))
    ensures var w1 := I.Step(env, w, I.Begin(id, req, client, draw));
            I.Possible(env, w1, I.Finish(id, w.clock)) && w2 == I.Step(env, w1, I.Finish(id, w.clock))
    ensures Sound(w2) && w2.db == Handle(env, w.db, req, client, w.clock, draw).db
    ensures w2.clock == w.clock && w2.flights == w.flights && w2.issued == w.issued + DrawnIds(draw)
  {
    var w1 := JustBegun(env, w, id, req, client, draw);
    FinishUndisturbed(env, w1, id, w.clock);
    w2 := I.Step(env, w1, I.Finish(id, w.clock));
  }

  lemma JustBegun(env: Env, w: I.World, id: nat, req: Request, client: Client, draw: Draw) returns (w1: I.World)
    requires Sound(w) && I.Possible(env, w, I.Begin(id, req, client, draw))
    ensures w1 == I.Step(env, w, I.Begin(id, req, client, draw)) && Sound(w1)
    ensures w1.clock == w.clock && w1.db == w.db && w1.issued == w.issued + DrawnIds(draw)
    ensures id in w1.flights && w1.flights[id] == I.Flight(req, client, draw, w.clock, w.db)
    ensures w1.flights - {id} == w.flights
  {
    StepKeepsSound(env, w, I.Begin(id, req, client, draw));
    w1 := I.Step(env, w, I.Begin(id, req, client, draw));
  }

  lemma FinishUndisturbed(env: Env, w: I.World, id: nat, at: nat)
    requires Sound(w) && id in w.flights && w.flights[id].view == w.db && w.flights[id].start <= at <= w.clock
    ensures I.Possible(env, w, I.Finish(id, at))
    ensures var w' := I.Step(env, w, I.Finish(id, at));
      && Sound(w') && w'.db == I.Decide(env, w.flights[id], at).db
      && w'.clock == w.clock && w'.issued == w.issued && w'.flights == w.flights - {id}
  {
    var f := w.flights[id];
    assert FlightOk(w, f);
    StepGrows(env, f.view, f.req, f.client, at, f.draw);
    I.MergeUndisturbed(w.db, I.Decide(env, f, at).db);
    FinishKeepsSound(env, w, id, at);
  }

  /** A wrong password short of the limit, followed by another one. */
  lemma SecondFailure(env: Env, db: Tables, email: string, password: string, client: Client, now: nat,
                      drawB: Draw, drawC: Draw, uid: string)
    requires LoginStep(env, db, email, password, client, now, drawB).reply == Failure(WrongPassword(uid))
    requires uid in db.users && db.users[uid].failed + 2 < env.settings.maxFailedLogins
    ensures var once := LoginStep(env, db, email, password, client, now, drawB).db;
      var twice := LoginStep(env, once, email, password, client, now, drawC).db;
      && uid in once.users && once.users[uid].failed == db.users[uid].failed + 1
      && uid in twice.users && twice.users[uid].failed == db.users[uid].failed + 2
  {
    var once := LoginStep(env, db, email, password, client, now, drawB).db;
    assert once == PutUser(db, uid, db.users[uid].(failed := db.users[uid].failed + 1));
    assert WithEmail(once.users, email) == WithEmail(db.users, email);
    FindByEmailMeaning(db.users, email);
    FindByEmailMeaning(once.users, email);
    assert FindByEmail(once.users, email) == OneRow(uid);
  }

  lemma WrongPasswordWrites(env: Env, w: I.World, id: nat, at: nat, uid: string)
    requires id in w.flights && w.flights[id].start <= at <= w.clock
    requires I.Decide(env, w.flights[id], at).reply == Failure(WrongPassword(uid))
    requires uid in w.flights[id].view.users && uid in w.db.users && w.flights[id].draw.userId !in w.flights[id].view.users
    ensures I.Possible(env, w, I.Finish(id, at))
    ensures var after := I.Step(env, w, I.Finish(id, at)).db.users;
            uid in after && after[uid].failed == w.flights[id].view.users[uid].failed + 1
  {
    var f := w.flights[id];
    WrongPasswordDecision(env, f.view, f.req, f.client, at, f.draw, uid);
    MergedLock(f.view.users, I.Decide(env, f, at).db.users, w.db.users, uid);
  }

  /** A wrong password that does not lock inserts no row and adds one to the count. */
  lemma WrongPasswordDecision(env: Env, view: Tables, req: Request, client: Client, now: nat, draw: Draw, uid: string)
    requires draw.userId !in view.users
    requires Handle(env, view, req, client, now, draw).reply == Failure(WrongPassword(uid))
    ensures uid in view.users
    ensures var after := Handle(env, view, req, client, now, draw).db;
      && after.users.Keys == view.users.Keys && after.users[uid].failed == view.users[uid].failed + 1
      && after.roles == view.roles && after.sessions == view.sessions && after.audit == view.audit
  {
    AccessTheorems.ErrorAtomicity(env, view, req, client, now, draw, 1);
  }
}
