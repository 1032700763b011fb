/** Migration of stored password hashes to Argon2id (SECURITY.md,
    app/core/security.py, app/modules/identity/service.py). */
module PasswordTheorems {
  import opened Prelude
  import opened Security
  import opened IdentityModels
  import opened IdentityService
  import opened IdentityRuns

  /** A hash made with the current algorithm and, as the library finds, the current
      parameters. */
  predicate Current(k: Primitives, hashed: string) {
    "$argon2" <= hashed && k.argonStale(hashed) == Some(false)
  }

  /** A successful sign-in leaves a current hash that still verifies the password
      just used: a hash that was already current is left as it was, and any other,
      of bcrypt or with stale parameters, is replaced by a new one. */
  lemma SignInUpgrades(env: Env, db: Tables, email: string, password: string, client: Client, now: nat, draw: Draw)
    requires Lawful(env.prims)
    ensures var out := LoginStep(env, db, email, password, client, now, draw);
      out.reply.Success? ==>
        var uid := out.reply.value.pair.access.sub;
        && uid in db.users && uid in out.db.users && SameEmail(db.users[uid], email)
        && Current(env.prims, out.db.users[uid].hashed)
        && VerifyPassword(env.prims, password, out.db.users[uid].hashed)
        && (Current(env.prims, db.users[uid].hashed) ==> out.db.users[uid].hashed == db.users[uid].hashed)
        && (!Current(env.prims, db.users[uid].hashed) ==>
              out.db.users[uid].hashed == env.prims.argonHash(password, draw.salt))
  {
    forall hashed ensures NeedsRehash(env.prims, hashed) <==> !Current(env.prims, hashed) {
      KeptHashes(env.prims, hashed);
    }
    NewHashIsCurrent(env.prims, password, draw.salt);
  }

  /** Each stored hash is, after a step, the one before it or a current one. */
  predicate HashesKeptOrCurrent(k: Primitives, before: map<string, User>, after: map<string, User>) {
    forall u | u in after ::
      (u in before && after[u].hashed == before[u].hashed) || Current(k, after[u].hashed)
  }

  lemma PerformHashes(env: Env, db: Tables, who: Principal, command: Command, now: nat, draw: Draw)
    requires Lawful(env.prims)
    ensures var done := Perform(env, db, who, command, now, draw);
            done.Success? ==> HashesKeptOrCurrent(env.prims, db.users, done.value.0.users)
  {
    match command
    case ChangePassword(_, replacement) => NewHashIsCurrent(env.prims, replacement, draw.salt);
    case CreateUser(c) => NewHashIsCurrent(env.prims, c.password, draw.salt);
    case UpdateUser(_, c) =>
      if Truthy(c.password) {
        NewHashIsCurrent(env.prims, c.password.value, draw.salt);
      }
    case _ =>
  }

  lemma LoginHashes(env: Env, db: Tables, email: string, password: string, client: Client, now: nat, draw: Draw)
    requires Lawful(env.prims)
    ensures HashesKeptOrCurrent(env.prims, db.users,
                                LoginStep(env, db, email, password, client, now, draw).db.users)
  {
    NewHashIsCurrent(env.prims, password, draw.salt);
  }

  lemma StepHashes(env: Env, db: Tables, req: Request, client: Client, now: nat, draw: Draw)
    requires Lawful(env.prims)
    ensures HashesKeptOrCurrent(env.prims, db.users, Handle(env, db, req, client, now, draw).db.users)
  {
    match req
    case Login(email, password) => LoginHashes(env, db, email, password, client, now, draw);
    case Refresh(_) =>
    case Authorised(bearer, command) =>
      var caller := Guard(db, bearer, command, now);
      if caller.Success? {
        PerformHashes(env, db, caller.value, command, now, draw);
      }
  }

  /** A current hash stays current in every run, and once every stored hash is an
      Argon2 hash it stays so: accounts are never handed back to bcrypt. */
  lemma MigrationNeverReverts(env: Env, r: Run, i: nat, j: nat)
    requires Lawful(env.prims) && IsRun(env, r) && i <= j < |r.worlds|
    ensures NoReversion(env.prims, r.worlds[i].db.users, r.worlds[j].db.users)
  {
    forall k | i <= k < j
      ensures NoReversion(env.prims, r.worlds[k].db.users, r.worlds[k + 1].db.users)
    {
      AlwaysGrounded(env, r, k);
      StepNeverReverts(env, r.worlds[k], r.events[k]);
    }
    NoReversionAlong(env.prims, r.worlds, i, j);
  }

  /** Current hashes are still there and current, and if all hashes were Argon2
      hashes, they all are. */
  predicate NoReversion(k: Primitives, before: map<string, User>, after: map<string, User>) {
    && (forall u | u in before && Current(k, before[u].hashed) :: u in after && Current(k, after[u].hashed))
    && ((forall u | u in before :: IsArgon2(before[u].hashed)) ==>
         forall u | u in after :: IsArgon2(after[u].hashed))
  }

  lemma {:induction false} NoReversionAlong(p: Primitives, worlds: seq<World>, i: nat, j: nat)
    requires i <= j < |worlds|
    requires forall k | i <= k < j :: NoReversion(p, worlds[k].db.users, worlds[k + 1].db.users)
    ensures NoReversion(p, worlds[i].db.users, worlds[j].db.users)
    decreases j - i
  {
    if i == j {
    } else {
      NoReversionAlong(p, worlds, i, j - 1);
      assert NoReversion(p, worlds[j - 1].db.users, worlds[j - 1 + 1].db.users);
    }
  }

  lemma StepNeverReverts(env: Env, w: World, e: Event)
    requires Lawful(env.prims) && Grounded(w) && Possible(w, e)
    ensures NoReversion(env.prims, w.db.users, Advance(env, w, e).db.users)
  {
    StepHashes(env, w.db, e.req, e.client, e.now, e.draw);
    StepExtends(env, w, e);
    var after := Advance(env, w, e).db.users;
    assert HashesKeptOrCurrent(env.prims, w.db.users, after) && w.db.users.Keys <= after.Keys;
  }

  /** So from a state in which all hashes are Argon2, the bcrypt branch can be
      removed: in every later state it changes no answer for any stored hash. */
  lemma BcryptCanBeRemoved(env: Env, r: Run, i: nat, j: nat, plain: string, u: string)
    requires Lawful(env.prims) && IsRun(env, r) && i <= j < |r.worlds|
    requires forall v | v in r.worlds[i].db.users :: IsArgon2(r.worlds[i].db.users[v].hashed)
    requires u in r.worlds[j].db.users
    ensures var h := r.worlds[j].db.users[u].hashed;
            VerifyPassword(env.prims, plain, h) == VerifyArgon2Only(env.prims, plain, h)
  {
    MigrationNeverReverts(env, r, i, j);
    BcryptBranchMatters(env.prims, plain, r.worlds[j].db.users[u].hashed);
  }
}
