/** Account lockout over whole serial runs (app/modules/identity/service.py,
    authenticate). The reference is the list of times at which a wrong password
    was evaluated for an account since its last sign-in. */
module LockoutTheorems {
  import opened Prelude
  import opened Security
  import opened IdentityModels
  import opened IdentityService
  import opened IdentityRuns

  /** The entry evaluated a wrong password for the account. */
  predicate Fails(en: Entry, uid: string) {
    en.reply == Failure(WrongPassword(uid)) || en.reply == Failure(LockedOut(uid))
  }

  /** The entry signed the account in. */
  predicate SignsIn(en: Entry, uid: string) {
    en.reply.Success? && en.reply.value.LoggedIn? && en.reply.value.pair.refresh.sub == uid
  }

  /** Times of the wrong passwords evaluated since the last sign-in. */
  function FailTimes(log: seq<Entry>, uid: string): seq<nat> {
    if log == [] then []
    else
      var en := log[|log| - 1];
      if SignsIn(en, uid) then []
      else
        var earlier := FailTimes(log[..|log| - 1], uid);
        if Fails(en, uid) then earlier + [en.now] else earlier
  }

  /** Lockouts since the last sign-in. */
  function Lockouts(log: seq<Entry>, uid: string): nat {
    if log == [] then 0
    else
      var en := log[|log| - 1];
      if SignsIn(en, uid) then 0
      else Lockouts(log[..|log| - 1], uid) + (if en.reply == Failure(LockedOut(uid)) then 1 else 0)
  }

  /** The number of wrong passwords that locks an account: the configured
      limit, or one when the limit is not positive. */
  function Limit(s: Settings): int
    ensures Limit(s) >= 1
  {
    Max(1, s.maxFailedLogins)
  }

  function Lockout(s: Settings): int {
    s.lockoutMinutes * MICROS_PER_MINUTE
  }

  /** The times are in order, and each block of `m` is at least `gap` after the
      end of the block before it. */
  predicate Spaced(f: seq<nat>, m: int, gap: int)
    requires m >= 1
  {
    && (forall i, j | 0 <= i <= j < |f| :: f[i] <= f[j])
    && (forall j | 0 < j < |f| && j % m == 0 :: f[j] >= f[j - 1] + gap)
  }

  /** The two stored columns, told by the list of failures `f` alone. */
  predicate ColumnsMatch(s: Settings, f: seq<nat>, failed: int, lockedUntil: Option<int>) {
    var m := Limit(s);
    && Spaced(f, m, Lockout(s))
    && failed == |f| % m
    && (if |f| < m then lockedUntil == None
        else BlockEnd(|f|, m); lockedUntil == Some(f[|f| / m * m - 1] + Lockout(s)))
  }

  predicate LockMatches(s: Settings, log: seq<Entry>, clock: nat, uid: string, user: User) {
    var f := FailTimes(log, uid);
    && ColumnsMatch(s, f, user.failed, user.lockedUntil)
    && (forall i | 0 <= i < |f| :: f[i] <= clock)
    && Lockouts(log, uid) == |f| / Limit(s)
  }

  lemma BlockEnd(n: nat, m: int)
    requires 1 <= m <= n
    ensures 0 <= n / m * m - 1 < n
  {
    assert n == n / m * m + n % m;
    assert n / m >= 1;
  }

  // --- Arithmetic of blocks -----------------------------------------------------------

  lemma NextInBlock(n: nat, m: int)
    requires m >= 1
    ensures n % m + 1 < m ==> (n + 1) % m == n % m + 1 && (n + 1) / m == n / m
    ensures n % m + 1 >= m ==> (n + 1) % m == 0 && (n + 1) / m == n / m + 1
                               && (n + 1) / m * m == n + 1
  {
    var q, k := n / m, n % m;
    assert n == q * m + k;
    if k + 1 < m {
      DivUnique(n + 1, m, q, k + 1);
    } else {
      assert n + 1 == (q + 1) * m;
      DivUnique(n + 1, m, q + 1, 0);
    }
  }

  lemma DivUnique(n: int, m: int, q: int, k: int)
    requires n == q * m + k && 0 <= k < m
    ensures n / m == q && n % m == k
  {
    var d := n / m - q;
    assert d * m == k - n % m;
    assert d >= 1 ==> d * m >= m;
    assert d <= -1 ==> d * m <= -m;
  }

  // --- One step ------------------------------------------------------------------------

  lemma FailAppend(log: seq<Entry>, en: Entry, uid: string)
    ensures FailTimes(log + [en], uid)
         == if SignsIn(en, uid) then []
            else if Fails(en, uid) then FailTimes(log, uid) + [en.now] else FailTimes(log, uid)
    ensures Lockouts(log + [en], uid)
         == if SignsIn(en, uid) then 0
            else Lockouts(log, uid) + (if en.reply == Failure(LockedOut(uid)) then 1 else 0)
  {
    assert (log + [en])[..|log|] == log;
  }

  /** What a step does to the two lockout columns of one account, told by its
      reply; `now` is the time of the step. */
  predicate LockEffect(s: Settings, before: map<string, User>, after: map<string, User>, en: Entry, u: string) {
    if u !in before then
      && !SignsIn(en, u) && !Fails(en, u)
      && (u in after ==> after[u].failed == 0 && after[u].lockedUntil == None)
    else
      && u in after
      && (if SignsIn(en, u) then after[u].failed == 0 && after[u].lockedUntil == None
          else if Fails(en, u) then
            && !Locked(before[u], en.now)
            && (if before[u].failed + 1 >= s.maxFailedLogins then
                  && en.reply == Failure(LockedOut(u))
                  && after[u].failed == 0 && after[u].lockedUntil == Some(en.now + Lockout(s))
                else
                  && en.reply == Failure(WrongPassword(u))
                  && after[u].failed == before[u].failed + 1
                  && after[u].lockedUntil == before[u].lockedUntil)
          else SameLock(before[u], after[u]))
  }

  lemma LoginLocks(env: Env, db: Tables, email: string, password: string, client: Client, now: nat, draw: Draw,
                   u: string)
    ensures var out := LoginStep(env, db, email, password, client, now, draw);
            LockEffect(env.settings, db.users, out.db.users, Entry(Login(email, password), now, out.reply), u)
  {
  }

  /** Every request other than sign-in leaves the lockout columns alone. */
  lemma OthersLeaveLocksAlone(env: Env, db: Tables, req: Request, client: Client, now: nat, draw: Draw, u: string)
    requires !req.Login? && draw.userId !in db.users
    ensures var out := Handle(env, db, req, client, now, draw);
      && !SignsIn(Entry(req, now, out.reply), u) && !Fails(Entry(req, now, out.reply), u)
      && (u in db.users ==> u in out.db.users && SameLock(db.users[u], out.db.users[u]))
      && (u !in db.users && u in out.db.users ==>
            out.db.users[u].failed == 0 && out.db.users[u].lockedUntil == None)
  {
    match req
    case Refresh(token) =>
    case Authorised(bearer, command) =>
      CommandFrame(env, db, bearer, command, client, now, draw);
      CommandNeverFailsPassword(env, db, bearer, command, client, now, draw, u);
  }

  lemma CommandNeverFailsPassword(env: Env, db: Tables, bearer: Bearer, command: Command,
                                  client: Client, now: nat, draw: Draw, u: string)
    ensures !Fails(Entry(Authorised(bearer, command), now,
                         CommandStep(env, db, bearer, command, client, now, draw).reply), u)
  {
  }

  /** A full block of failures has locked the account until a lockout after its last. */
  lemma BlockHasLocked(s: Settings, f: seq<nat>, now: nat, before: User)
    requires ColumnsMatch(s, f, before.failed, before.lockedUntil) && !Locked(before, now)
    requires |f| > 0 && |f| % Limit(s) == 0
    ensures now >= f[|f| - 1] + Lockout(s)
  {
    var m, n := Limit(s), |f|;
    assert n == n / m * m;
    if n < m {
      DivUnique(n, m, 0, n);
    }
    assert before.lockedUntil == Some(f[n - 1] + Lockout(s));
  }

  /** A failure at a time when the account is not locked keeps the list spaced. */
  lemma FailureKeepsSpacing(s: Settings, f: seq<nat>, now: nat, before: User)
    requires ColumnsMatch(s, f, before.failed, before.lockedUntil) && !Locked(before, now)
    requires forall i | 0 <= i < |f| :: f[i] <= now
    ensures Spaced(f + [now], Limit(s), Lockout(s))
  {
    var n, f' := |f|, f + [now];
    if n > 0 && n % Limit(s) == 0 {
      BlockHasLocked(s, f, now, before);
    }
    assert forall j | 0 <= j < n :: f'[j] == f[j];
  }

  /** The columns after a failure match the list extended by it. */
  lemma FailureKeepsColumns(s: Settings, f: seq<nat>, now: nat, before: User, failed: int, lockedUntil: Option<int>)
    requires ColumnsMatch(s, f, before.failed, before.lockedUntil) && Spaced(f + [now], Limit(s), Lockout(s))
    requires if before.failed + 1 >= s.maxFailedLogins then failed == 0 && lockedUntil == Some(now + Lockout(s))
             else failed == before.failed + 1 && lockedUntil == before.lockedUntil
    ensures ColumnsMatch(s, f + [now], failed, lockedUntil)
    ensures (|f| + 1) / Limit(s) == |f| / Limit(s) + (if before.failed + 1 >= s.maxFailedLogins then 1 else 0)
  {
    var m, n := Limit(s), |f|;
    NextInBlock(n, m);
    if n < m {
      DivUnique(n, m, 0, n);
    } else {
      BlockEnd(n, m);
    }
    if n + 1 < m {
      DivUnique(n + 1, m, 0, n + 1);
    }
  }

  ghost predicate Tracked(s: Settings, log: seq<Entry>, clock: nat, users: map<string, User>, u: string) {
    if u in users then LockMatches(s, log, clock, u, users[u])
    else FailTimes(log, u) == [] && Lockouts(log, u) == 0
  }

  lemma EffectKeepsTracked(s: Settings, log: seq<Entry>, clock: nat, before: map<string, User>,
                           after: map<string, User>, en: Entry, u: string)
    requires Tracked(s, log, clock, before, u) && clock <= en.now
    requires LockEffect(s, before, after, en, u)
    ensures Tracked(s, log + [en], en.now, after, u)
  {
    FailAppend(log, en, u);
    DivUnique(0, Limit(s), 0, 0);
    if u in before && Fails(en, u) {
      FailureKeepsSpacing(s, FailTimes(log, u), en.now, before[u]);
      FailureKeepsColumns(s, FailTimes(log, u), en.now, before[u], after[u].failed, after[u].lockedUntil);
    }
  }

  lemma StepLocks(env: Env, w: World, e: Event, u: string)
    requires Possible(w, e) && w.db.users.Keys <= w.issued
    ensures LockEffect(env.settings, w.db.users, Advance(env, w, e).db.users,
                       Entry(e.req, e.now, OutcomeOf(env, w, e).reply), u)
  {
    if e.req.Login? {
      LoginLocks(env, w.db, e.req.email, e.req.password, e.client, e.now, e.draw, u);
    } else {
      OthersLeaveLocksAlone(env, w.db, e.req, e.client, e.now, e.draw, u);
    }
  }

  /** A password of the account is evaluated exactly by a sign-in whose address
      finds that account, not locked and active; it counts as a failure exactly
      when it does not verify, and signs in exactly when it does. */
  lemma PasswordsEvaluated(env: Env, w: World, e: Event, u: string)
    requires Possible(w, e) && w.db.users.Keys <= w.issued
    ensures var en := Entry(e.req, e.now, OutcomeOf(env, w, e).reply);
            var evaluated := e.req.Login? && FindByEmail(w.db.users, e.req.email) == OneRow(u)
                             && (w.db.users[u].lockedUntil.None? || w.db.users[u].lockedUntil.value <= e.now)
                             && IsActive(w.db.users[u]);
      && (Fails(en, u) <==> evaluated && !VerifyPassword(env.prims, e.req.password, w.db.users[u].hashed))
      && (SignsIn(en, u) <==> evaluated && VerifyPassword(env.prims, e.req.password, w.db.users[u].hashed))
  {
    if !e.req.Login? {
      OthersLeaveLocksAlone(env, w.db, e.req, e.client, e.now, e.draw, u);
    }
  }

  lemma {:induction false} AlwaysTracked(env: Env, r: Run, i: nat, u: string)
    requires IsRun(env, r) && i < |r.worlds|
    ensures var w := r.worlds[i]; Tracked(env.settings, w.log, w.clock, w.db.users, u)
  {
    if i == 0 {
      assert Initial(r.worlds[0]);
      DivUnique(0, Limit(env.settings), 0, 0);
    } else {
      AlwaysTracked(env, r, i - 1, u);
      AlwaysGrounded(env, r, i - 1);
      var w, e := r.worlds[i - 1], r.events[i - 1];
      StepLocks(env, w, e, u);
      EffectKeepsTracked(env.settings, w.log, w.clock, w.db.users, r.worlds[i].db.users,
                         Entry(e.req, e.now, OutcomeOf(env, w, e).reply), u);
    }
  }

  // --- The theorems ----------------------------------------------------------------------

  /** In every serial run the stored count is the number of wrong passwords since
      the last sign-in modulo the limit, the lockouts since then are the
      quotient, and the stored lock is the end of the last lockout. */
  lemma CounterRefinesHistory(env: Env, r: Run, i: nat, u: string)
    requires IsRun(env, r) && i < |r.worlds| && u in r.worlds[i].db.users
    ensures var f, m, user := FailTimes(r.worlds[i].log, u), Limit(env.settings), r.worlds[i].db.users[u];
      && user.failed == |f| % m
      && Lockouts(r.worlds[i].log, u) == |f| / m
      && (|f| < m <==> user.lockedUntil == None)
      && (|f| >= m ==> 0 <= |f| / m * m - 1 < |f|
                       && user.lockedUntil == Some(f[|f| / m * m - 1] + Lockout(env.settings)))
  {
    AlwaysTracked(env, r, i, u);
    var f, m := FailTimes(r.worlds[i].log, u), Limit(env.settings);
    if |f| >= m {
      BlockEnd(|f|, m);
    }
  }

  /** By its failures since the last sign-in, the account is open: it has not been
      locked, or the last lockout is over. */
  predicate OpenBy(s: Settings, f: seq<nat>, now: nat) {
    var m := Limit(s);
    |f| < m || (BlockEnd(|f|, m); now >= f[|f| / m * m - 1] + Lockout(s))
  }

  lemma OpenMeansNotLocked(env: Env, r: Run, i: nat, u: string, now: nat)
    requires IsRun(env, r) && i < |r.worlds| && u in r.worlds[i].db.users
    ensures var w := r.worlds[i];
            OpenBy(env.settings, FailTimes(w.log, u), now) <==> !Locked(w.db.users[u], now)
  {
    CounterRefinesHistory(env, r, i, u);
  }

  /** Sign-in, told by the history alone. In every reachable state the one account
      an address finds is refused as locked exactly until the end of its last
      lockout since the last sign-in; then as disabled exactly if it is; otherwise
      its password is evaluated, and a wrong one locks exactly when it completes
      a block of failures. */
  lemma SignInDecision(env: Env, r: Run, i: nat, u: string, email: string, password: string,
                       client: Client, now: nat, draw: Draw)
    requires IsRun(env, r) && i < |r.worlds| && u in r.worlds[i].db.users
    requires forall v | v in r.worlds[i].db.users :: SameEmail(r.worlds[i].db.users[v], email) <==> v == u
    ensures var w := r.worlds[i];
      var user, f, m := w.db.users[u], FailTimes(w.log, u), Limit(env.settings);
      var open, right := OpenBy(env.settings, f, now), VerifyPassword(env.prims, password, user.hashed);
      var reply := LoginStep(env, w.db, email, password, client, now, draw).reply;
      && (reply == Failure(AccountLocked(u)) <==> !open)
      && (reply == Failure(AccountDisabled) <==> open && !IsActive(user))
      && (reply == Failure(WrongPassword(u)) <==> open && IsActive(user) && !right && |f| % m + 1 < m)
      && (reply == Failure(LockedOut(u)) <==> open && IsActive(user) && !right && |f| % m + 1 == m)
      && (reply.Success? <==> open && IsActive(user) && right)
  {
    var w := r.worlds[i];
    FindByEmailMeaning(w.db.users, email);
    OpenMeansNotLocked(env, r, i, u, now);
    CounterRefinesHistory(env, r, i, u);
    RemainderBelow(|FailTimes(w.log, u)|, Limit(env.settings));
    LoginTable(env, w.db, u, email, password, client, now, draw);
  }

  lemma RemainderBelow(n: nat, m: int)
    requires m >= 1
    ensures 0 <= n % m < m
  {
  }

  lemma LoginTable(env: Env, db: Tables, u: string, email: string, password: string, client: Client, now: nat, draw: Draw)
    requires FindByEmail(db.users, email) == OneRow(u)
    ensures var user, reply := db.users[u], LoginStep(env, db, email, password, client, now, draw).reply;
      var right := VerifyPassword(env.prims, password, user.hashed);
      && (reply == Failure(AccountLocked(u)) <==> Locked(user, now))
      && (reply == Failure(AccountDisabled) <==> !Locked(user, now) && !IsActive(user))
      && (reply == Failure(WrongPassword(u)) <==>
            !Locked(user, now) && IsActive(user) && !right && user.failed + 1 < env.settings.maxFailedLogins)
      && (reply == Failure(LockedOut(u)) <==>
            !Locked(user, now) && IsActive(user) && !right && user.failed + 1 >= env.settings.maxFailedLogins)
      && (reply.Success? <==> !Locked(user, now) && IsActive(user) && right)
  {
  }

  /** Failures `m` apart in the list are at least a lockout apart in time. */
  lemma FailuresAreApart(f: seq<nat>, m: int, gap: int, i: nat)
    requires m >= 1 && Spaced(f, m, gap) && i + m < |f|
    ensures f[i + m] >= f[i] + gap
  {
    var b := (i + m) / m * m;
    assert i + m == b + (i + m) % m;
    assert b % m == 0 by {
      DivUnique(b, m, (i + m) / m, 0);
    }
    assert f[b] >= f[b - 1] + gap;
  }

  lemma {:induction false} FailuresFarApart(f: seq<nat>, m: int, gap: int, i: nat, k: nat)
    requires m >= 1 && Spaced(f, m, gap) && i + k * m < |f|
    ensures 0 <= k * m && f[i + k * m] >= f[i] + k * gap
  {
    if k == 0 {
    } else {
      assert k * m == (k - 1) * m + m;
      assert (k - 1) * m >= 0;
      FailuresFarApart(f, m, gap, i, k - 1);
      FailuresAreApart(f, m, gap, i + (k - 1) * m);
      assert k * gap == (k - 1) * gap + gap;
    }
  }

  /** The failures in a closed time window. */
  function InWindow(f: seq<nat>, from: int, width: nat): set<int> {
    set k | 0 <= k < |f| && from <= f[k] <= from + width
  }

  lemma WindowBound(f: seq<nat>, m: int, gap: int, from: int, width: nat)
    requires m >= 1 && gap > 0 && Spaced(f, m, gap)
    ensures |InWindow(f, from, width)| <= m * (width / gap + 1)
  {
    var s, q := InWindow(f, from, width), width / gap + 1;
    assert q * gap > width && q * m == m * q && m * q >= 0;
    if |s| > 0 {
      var a := LeastMember(s);
      forall k | k in s
        ensures a <= k < a + m * q
      {
        if k >= a + q * m {
          FailuresFarApart(f, m, gap, a, q);
          assert false;
        }
      }
      RangeSize(s, a, m * q);
    }
  }

  /** The throttle: in any stretch of a serial run without a sign-in, the i-th and
      the (i + limit)-th wrong password evaluated for one account are a lockout
      apart, so in any window of time their number is at most the limit times one
      more than the lockouts that fit the window. */
  lemma ThrottleBound(env: Env, r: Run, i: nat, u: string, from: int, width: nat)
    requires IsRun(env, r) && i < |r.worlds| && u in r.worlds[i].db.users
    requires env.settings.lockoutMinutes > 0
    ensures |InWindow(FailTimes(r.worlds[i].log, u), from, width)|
         <= Limit(env.settings) * (width / Lockout(env.settings) + 1)
    ensures var f := FailTimes(r.worlds[i].log, u);
            forall k, j | 0 <= k && j == k + Limit(env.settings) && j < |f| :: f[j] >= f[k] + Lockout(env.settings)
  {
    AlwaysTracked(env, r, i, u);
    var f, m := FailTimes(r.worlds[i].log, u), Limit(env.settings);
    forall k, j | 0 <= k && j == k + m && j < |f|
      ensures f[j] >= f[k] + Lockout(env.settings)
    {
      FailuresAreApart(f, m, Lockout(env.settings), k);
    }
    WindowBound(FailTimes(r.worlds[i].log, u), Limit(env.settings), Lockout(env.settings), from, width);
  }
}
