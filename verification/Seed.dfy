/** The database seeder: it adds the listed rows that are missing and leaves every
    existing row alone (app/seed.py). Reads do not see rows that are added but not
    flushed; only the roles are flushed before the final commit. */
module Seed {
  import opened Prelude
  import opened Security
  import opened Rbac
  import opened IdentityModels
  import opened IdentityService

  datatype Decoder = Decoder(name: string, version: string, status: string, throughput: string)
  datatype Config = Config(environment: string, retentionDays: int, slaMinutes: int, alertEmail: string, maintenance: bool)
  datatype Alert = Alert(severity: string, stage: string, message: string, status: string, createdAt: nat)

  datatype Store = Store(
    roles: map<string, Role>,
    users: map<string, User>,  // by drawn id; the seeder looks users up by address
    decoders: map<string, Decoder>,
    config: map<string, Config>,
    alerts: map<string, Alert>)

  datatype Listed<V> = Listed(key: string, row: V)

  /** One execution's rows: passwords are hashed with new salts and alerts carry the
      time of the run, so two executions list the same keys with different rows. */
  datatype Plan = Plan(
    roles: seq<Listed<Role>>,
    users: seq<User>,
    ids: seq<string>,  // the ids drawn for the users
    decoders: seq<Listed<Decoder>>,
    config: seq<Listed<Config>>,
    alerts: seq<Listed<Alert>>)

  predicate DistinctKeys<V>(items: seq<Listed<V>>) {
    forall i, j | 0 <= i < j < |items| :: items[i].key != items[j].key
  }

  function Keys<V>(items: seq<Listed<V>>): set<string> {
    if items == [] then {} else Keys(items[..|items| - 1]) + {items[|items| - 1].key}
  }

  lemma {:induction false} InKeys<V>(items: seq<Listed<V>>)
    ensures forall i | 0 <= i < |items| :: items[i].key in Keys(items)
    ensures forall k | k in Keys(items) :: exists i :: 0 <= i < |items| && items[i].key == k
  {
    if items == [] {
    } else {
      var most := items[..|items| - 1];
      InKeys(most);
      assert forall i | 0 <= i < |most| :: most[i] == items[i];
    }
  }

  predicate HasEmail(users: map<string, User>, email: string) {
    exists u :: u in users && users[u].email == email
  }

  // --- What is added ----------------------------------------------------------------------

  /** The listed rows whose key the table does not hold. */
  function Missing<V>(table: map<string, V>, items: seq<Listed<V>>): map<string, V> {
    if items == [] then map[]
    else
      var earlier, last := Missing(table, items[..|items| - 1]), items[|items| - 1];
      if last.key in table then earlier else earlier[last.key := last.row]
  }

  predicate UsersReady(users: map<string, User>, listed: seq<User>, ids: seq<string>) {
    && |ids| == |listed|
    && (forall i, j | 0 <= i < j < |ids| :: ids[i] != ids[j])
    && (forall i | 0 <= i < |ids| :: ids[i] !in users)
  }

  /** The listed accounts whose address no account has, under the drawn ids. */
  function MissingUsers(users: map<string, User>, listed: seq<User>, ids: seq<string>): map<string, User>
    requires |ids| == |listed|
  {
    if listed == [] then map[]
    else
      var n := |listed| - 1;
      var earlier := MissingUsers(users, listed[..n], ids[..n]);
      if HasEmail(users, listed[n].email) then earlier else earlier[ids[n] := listed[n]]
  }

  predicate Ready(s: Store, p: Plan) {
    && DistinctKeys(p.roles) && DistinctKeys(p.decoders) && DistinctKeys(p.config) && DistinctKeys(p.alerts)
    && UsersReady(s.users, p.users, p.ids)
  }

  function Seeded(s: Store, p: Plan): Store
    requires |p.ids| == |p.users|
  {
    Store(s.roles + Missing(s.roles, p.roles), s.users + MissingUsers(s.users, p.users, p.ids),
          s.decoders + Missing(s.decoders, p.decoders), s.config + Missing(s.config, p.config),
          s.alerts + Missing(s.alerts, p.alerts))
  }

  /** The select-then-add loop over one table: reads go to `table`, which the rows
      being added have not reached yet. */
  method AddMissing<V>(table: map<string, V>, items: seq<Listed<V>>) returns (pending: map<string, V>)
    ensures pending == Missing(table, items)
  {
    pending := map[];
    for i := 0 to |items|
      invariant pending == Missing(table, items[..i])
    {
      assert items[..i + 1][..i] == items[..i];
      if items[i].key !in table {
        pending := pending[items[i].key := items[i].row];
      }
    }
    assert items[..|items|] == items;
  }

  method AddMissingUsers(users: map<string, User>, listed: seq<User>, ids: seq<string>)
    returns (pending: map<string, User>)
    requires |ids| == |listed|
    ensures pending == MissingUsers(users, listed, ids)
  {
    pending := map[];
    for i := 0 to |listed|
      invariant pending == MissingUsers(users, listed[..i], ids[..i])
    {
      assert listed[..i + 1][..i] == listed[..i] && ids[..i + 1][..i] == ids[..i];
      if !HasEmail(users, listed[i].email) {
        pending := pending[ids[i] := listed[i]];
      }
    }
    assert listed[..|listed|] == listed && ids[..|ids|] == ids;
  }

  class Seeder {
    var db: Store

    constructor (db: Store)
      ensures this.db == db
    {
      this.db := db;
    }

    /** One execution of the seeder, in the order of the code. */
    method Run(p: Plan)
      requires Ready(db, p)
      modifies this
      ensures db == Seeded(old(db), p)
    {
      var roles := AddMissing(db.roles, p.roles);
      db := db.(roles := db.roles + roles);  // flushed
      var users := AddMissingUsers(db.users, p.users, p.ids);
      var decoders := AddMissing(db.decoders, p.decoders);
      var config := AddMissing(db.config, p.config);
      var alerts := AddMissing(db.alerts, p.alerts);
      db := db.(users := db.users + users, decoders := db.decoders + decoders,
                config := db.config + config, alerts := db.alerts + alerts);
    }
  }

  // --- Idempotent and non-destructive ----------------------------------------------------------

  lemma {:induction false} MissingKeys<V>(table: map<string, V>, items: seq<Listed<V>>)
    ensures Missing(table, items).Keys == Keys(items) - table.Keys
  {
    if items == [] {
    } else {
      MissingKeys(table, items[..|items| - 1]);
    }
  }

  lemma {:induction false} MissingRow<V>(table: map<string, V>, items: seq<Listed<V>>, i: nat)
    requires DistinctKeys(items) && i < |items| && items[i].key !in table
    ensures items[i].key in Missing(table, items) && Missing(table, items)[items[i].key] == items[i].row
  {
    var n := |items| - 1;
    if i == n {
    } else {
      var most := items[..n];
      assert most[i] == items[i] && DistinctKeys(most);
      MissingRow(table, most, i);
      assert items[i].key != items[n].key;
    }
  }

  lemma MissingRows<V>(table: map<string, V>, items: seq<Listed<V>>)
    requires DistinctKeys(items)
    ensures Missing(table, items).Keys == Keys(items) - table.Keys
    ensures forall i | 0 <= i < |items| && items[i].key !in table ::
              items[i].key in Missing(table, items) && Missing(table, items)[items[i].key] == items[i].row
  {
    MissingKeys(table, items);
    forall i | 0 <= i < |items| && items[i].key !in table
      ensures items[i].key in Missing(table, items) && Missing(table, items)[items[i].key] == items[i].row
    {
      MissingRow(table, items, i);
    }
  }

  /** Nothing that was there is changed, exactly the listed keys are added, and a
      missing key gets its listed row. */
  lemma MissingIsExact<V>(table: map<string, V>, items: seq<Listed<V>>)
    requires DistinctKeys(items)
    ensures var after := table + Missing(table, items);
      && after.Keys == table.Keys + Keys(items)
      && (forall k | k in table :: after[k] == table[k])
      && (forall i | 0 <= i < |items| && items[i].key !in table ::
            items[i].key in after && after[items[i].key] == items[i].row)
  {
    MissingRows(table, items);
    InKeys(items);
  }

  lemma {:induction false} MissingUserIds(users: map<string, User>, listed: seq<User>, ids: seq<string>, u: string)
    requires |ids| == |listed| && u in MissingUsers(users, listed, ids)
    ensures u in ids
  {
    var n := |listed| - 1;
    if u != ids[n] {
      MissingUserIds(users, listed[..n], ids[..n], u);
      var i :| 0 <= i < n && ids[..n][i] == u;
      assert ids[i] == u;
    }
  }

  lemma {:induction false} MissingUserRow(users: map<string, User>, listed: seq<User>, ids: seq<string>, i: nat)
    requires UsersReady(users, listed, ids) && i < |listed| && !HasEmail(users, listed[i].email)
    ensures var added := MissingUsers(users, listed, ids); ids[i] in added && added[ids[i]] == listed[i]
  {
    var n := |listed| - 1;
    var most, early := listed[..n], ids[..n];
    if i < n {
      assert most[i] == listed[i] && early[i] == ids[i];
      MissingUserRow(users, most, early, i);
    }
  }

  lemma {:induction false} MissingUserSources(users: map<string, User>, listed: seq<User>, ids: seq<string>, u: string)
    returns (i: nat)
    requires UsersReady(users, listed, ids) && u in MissingUsers(users, listed, ids)
    ensures i < |listed| && u == ids[i] && MissingUsers(users, listed, ids)[u] == listed[i]
    ensures !HasEmail(users, listed[i].email)
  {
    i := |listed| - 1;
    var most, early := listed[..i], ids[..i];
    assert forall k | 0 <= k < i :: most[k] == listed[k] && early[k] == ids[k];
    if u != ids[i] || HasEmail(users, listed[i].email) {
      i := MissingUserSources(users, most, early, u);
    }
  }

  lemma UsersAreExact(users: map<string, User>, listed: seq<User>, ids: seq<string>)
    requires UsersReady(users, listed, ids)
    ensures var after := users + MissingUsers(users, listed, ids);
      && (forall u | u in users :: u in after && after[u] == users[u])
      && (forall i | 0 <= i < |listed| :: HasEmail(after, listed[i].email))
      && (forall u | u in after && u !in users ::
            exists i :: 0 <= i < |listed| && after[u] == listed[i] && !HasEmail(users, listed[i].email))
  {
    var after := users + MissingUsers(users, listed, ids);
    forall u | u in users
      ensures u in after && after[u] == users[u]
    {
      if u in MissingUsers(users, listed, ids) {
        MissingUserIds(users, listed, ids, u);
      }
    }
    forall u | u in after && u !in users
      ensures exists i :: 0 <= i < |listed| && after[u] == listed[i] && !HasEmail(users, listed[i].email)
    {
      var i := MissingUserSources(users, listed, ids, u);
    }
    forall i | 0 <= i < |listed|
      ensures HasEmail(after, listed[i].email)
    {
      if HasEmail(users, listed[i].email) {
        var u :| u in users && users[u].email == listed[i].email;
        assert u in after && after[u].email == listed[i].email;
      } else {
        MissingUserRow(users, listed, ids, i);
        assert ids[i] in after && after[ids[i]].email == listed[i].email;
      }
    }
  }

  predicate SameKeys<V>(a: seq<Listed<V>>, b: seq<Listed<V>>) {
    |a| == |b| && forall i | 0 <= i < |a| :: a[i].key == b[i].key
  }

  /** Two executions of the same seeder. */
  predicate SamePlan(p: Plan, q: Plan) {
    && SameKeys(p.roles, q.roles) && SameKeys(p.decoders, q.decoders)
    && SameKeys(p.config, q.config) && SameKeys(p.alerts, q.alerts)
    && |p.users| == |q.users| && forall i | 0 <= i < |p.users| :: p.users[i].email == q.users[i].email
  }

  lemma NothingMissing<V>(table: map<string, V>, first: seq<Listed<V>>, second: seq<Listed<V>>)
    requires DistinctKeys(first) && DistinctKeys(second) && SameKeys(first, second)
    ensures Missing(table + Missing(table, first), second) == map[]
  {
    MissingIsExact(table, first);
    MissingRows(table + Missing(table, first), second);
    InKeys(first);
    InKeys(second);
    forall k | k in Keys(second)
      ensures k in Keys(first)
    {
      var i :| 0 <= i < |second| && second[i].key == k;
      assert first[i].key == second[i].key;
    }
  }

  lemma NoUserMissing(users: map<string, User>, first: seq<User>, ids: seq<string>, second: seq<User>, more: seq<string>)
    requires UsersReady(users, first, ids) && UsersReady(users + MissingUsers(users, first, ids), second, more)
    requires |first| == |second| && forall i | 0 <= i < |first| :: first[i].email == second[i].email
    ensures MissingUsers(users + MissingUsers(users, first, ids), second, more) == map[]
  {
    var once := users + MissingUsers(users, first, ids);
    UsersAreExact(users, first, ids);
    forall i | 0 <= i < |second|
      ensures HasEmail(once, second[i].email)
    {
      assert HasEmail(once, first[i].email);
    }
    if u :| u in MissingUsers(once, second, more) {
      var i := MissingUserSources(once, second, more, u);
    }
  }

  /** Seeding twice is seeding once, whatever the database held, although the second
      execution hashes with other salts, draws other ids and reads another clock. */
  lemma SeedingTwiceIsSeedingOnce(s: Store, p: Plan, q: Plan)
    requires Ready(s, p) && SamePlan(p, q) && Ready(Seeded(s, p), q)
    ensures Seeded(Seeded(s, p), q) == Seeded(s, p)
  {
    NothingMissing(s.roles, p.roles, q.roles);
    NothingMissing(s.decoders, p.decoders, q.decoders);
    NothingMissing(s.config, p.config, q.config);
    NothingMissing(s.alerts, p.alerts, q.alerts);
    NoUserMissing(s.users, p.users, p.ids, q.users, q.ids);
    AddNothing(s.roles + Missing(s.roles, p.roles));
    AddNothing(s.decoders + Missing(s.decoders, p.decoders));
    AddNothing(s.config + Missing(s.config, p.config));
    AddNothing(s.alerts + Missing(s.alerts, p.alerts));
    AddNothing(s.users + MissingUsers(s.users, p.users, p.ids));
  }

  lemma AddNothing<V>(table: map<string, V>)
    ensures table + map[] == table
  {
  }

  /** Every existing row survives, every listed key is present afterwards, and if all
      accounts named an existing role and the listed ones name listed roles, then
      every account still names an existing role. */
  lemma SeedingIsNonDestructive(s: Store, p: Plan)
    requires Ready(s, p)
    ensures var t := Seeded(s, p);
      && (forall k | k in s.roles :: k in t.roles && t.roles[k] == s.roles[k])
      && (forall k | k in s.users :: k in t.users && t.users[k] == s.users[k])
      && (forall k | k in s.decoders :: k in t.decoders && t.decoders[k] == s.decoders[k])
      && (forall k | k in s.config :: k in t.config && t.config[k] == s.config[k])
      && (forall k | k in s.alerts :: k in t.alerts && t.alerts[k] == s.alerts[k])
      && Keys(p.roles) <= t.roles.Keys && Keys(p.decoders) <= t.decoders.Keys
      && Keys(p.config) <= t.config.Keys && Keys(p.alerts) <= t.alerts.Keys
      && (forall i | 0 <= i < |p.users| :: HasEmail(t.users, p.users[i].email))
  {
    MissingIsExact(s.roles, p.roles);
    MissingIsExact(s.decoders, p.decoders);
    MissingIsExact(s.config, p.config);
    MissingIsExact(s.alerts, p.alerts);
    UsersAreExact(s.users, p.users, p.ids);
  }

  lemma SeedingKeepsRoles(s: Store, p: Plan)
    requires Ready(s, p)
    requires forall u | u in s.users :: s.users[u].roleId in s.roles
    requires forall i | 0 <= i < |p.users| :: p.users[i].roleId in Keys(p.roles)
    ensures var t := Seeded(s, p); forall u | u in t.users :: t.users[u].roleId in t.roles
  {
    MissingIsExact(s.roles, p.roles);
    UsersAreExact(s.users, p.users, p.ids);
  }

  // --- Addresses ------------------------------------------------------------------------------

  predicate ListedApart(listed: seq<User>) {
    forall i, j | 0 <= i < j < |listed| :: !SameEmail(listed[i], listed[j].email)
  }

  /** The address is stored as it is listed, or not at all, not even in other letters. */
  predicate Settled(users: map<string, User>, email: string) {
    HasEmail(users, email) || forall u | u in users :: !SameEmail(users[u], email)
  }

  lemma {:induction false} AddedApart(users: map<string, User>, listed: seq<User>, ids: seq<string>, u: string, v: string)
    requires UsersReady(users, listed, ids) && AddressesApart(users) && ListedApart(listed)
    requires forall i | 0 <= i < |listed| :: Settled(users, listed[i].email)
    requires var after := users + MissingUsers(users, listed, ids);
             u in after && v in after && SameEmail(after[u], after[v].email) && u in MissingUsers(users, listed, ids)
    ensures u == v
  {
    var i := MissingUserSources(users, listed, ids, u);
    assert Settled(users, listed[i].email);
    if v in MissingUsers(users, listed, ids) {
      var j := MissingUserSources(users, listed, ids, v);
      assert i <= j ==> i == j;
      assert j <= i ==> i == j;
    }
  }

  /** The seeder looks addresses up as they are spelled, sign-in ignoring case. So
      seeding keeps addresses apart exactly when no listed address is stored only
      in another spelling. */
  lemma SeedingKeepsAddressesApart(users: map<string, User>, listed: seq<User>, ids: seq<string>)
    requires UsersReady(users, listed, ids) && AddressesApart(users) && ListedApart(listed)
    ensures AddressesApart(users + MissingUsers(users, listed, ids))
       <==> forall i | 0 <= i < |listed| :: Settled(users, listed[i].email)
  {
    var after := users + MissingUsers(users, listed, ids);
    if forall i | 0 <= i < |listed| :: Settled(users, listed[i].email) {
      forall u, v | u in after && v in after && SameEmail(after[u], after[v].email)
        ensures u == v
      {
        if u in MissingUsers(users, listed, ids) {
          AddedApart(users, listed, ids, u, v);
        } else if v in MissingUsers(users, listed, ids) {
          AddedApart(users, listed, ids, v, u);
        }
      }
    } else {
      var i :| 0 <= i < |listed| && !Settled(users, listed[i].email);
      var u :| u in users && SameEmail(users[u], listed[i].email);
      MissingUserRow(users, listed, ids, i);
      MissingUserIds(users, listed, ids, ids[i]);
      if u in MissingUsers(users, listed, ids) {
        MissingUserIds(users, listed, ids, u);
      }
      assert after[u] == users[u] && after[ids[i]] == listed[i] && u != ids[i];
    }
  }

  // --- The seeder's own lists ----------------------------------------------------------------

  function SlugAt(i: nat): string {
    match i
    case 0 => "admin"
    case 1 => "ra_lead"
    case 2 => "analyst"
    case _ => "viewer"
  }

  function TitleAt(i: nat): string {
    match i
    case 0 => "Administrator"
    case 1 => "RA Manager"
    case 2 => "RA Analyst"
    case _ => "Report Viewer"
  }

  function DescriptionAt(i: nat): string {
    match i
    case 0 => "Full platform access including user and role management."
    case 1 => "Oversees assurance operations, pipelines, reports and cases."
    case 2 => "Investigates leakage cases and works the assurance workbench."
    case _ => "Read-only access to dashboards, reports and pipelines."
  }

  function RoleAt(i: nat): Role {
    Role(TitleAt(i), DescriptionAt(i), "Active", DefaultPermissionsFor(SlugAt(i)))
  }

  function Roles(): (roles: seq<Listed<Role>>)
    ensures |roles| == 4 && forall i | 0 <= i < 4 :: roles[i].key == SlugAt(i)
  {
    seq(4, i requires 0 <= i < 4 => Listed(SlugAt(i), RoleAt(i)))
  }

  /** What differs from one execution to the next. */
  datatype Draws = Draws(salts: seq<string>, ids: seq<string>, now: nat)

  datatype Passwords = Passwords(bootstrap: string, demo: string)

  const ACCOUNTS: nat := 5

  datatype Person = Person(
    name: string, email: string, phone: string, department: string, role: string, status: string)

  function PersonAt(i: nat): Person {
    match i
    case 0 => Person("Daniel Okafor", "admin@radonaix.io", "+1 415 555 0100", "Platform Ops", SlugAt(0), "Active")
    case 1 => Person("Aarav Mehta", "aarav.mehta@radonaix.io", "+91 98765 43210", "Finance Operations", SlugAt(1), "Active")
    case 2 => Person("Priya Shah", "priya.shah@radonaix.io", "+91 99887 12345", "Assurance", SlugAt(2), "Active")
    case 3 => Person("Mei Tanaka", "viewer@radonaix.io", "+81 90 1234 5678", "Compliance", SlugAt(3), "Active")
    case _ => Person("Liam O'Connor", "liam.o@radonaix.io", "+353 87 555 1212", "Engineering", SlugAt(2), "Disabled")
  }

  /** A demonstration account: the administrator has the bootstrap password, the
      others share the demonstration password. */
  function Account(k: Primitives, w: Passwords, p: Person, salt: string): User {
    User(Profile(p.name, Some(p.phone), Some(p.department)), p.email,
         HashPassword(k, if p.role == "admin" then w.bootstrap else w.demo, salt), p.role, p.status,
         None, 0, None, false, None)
  }

  function Users(k: Primitives, w: Passwords, salts: seq<string>): (users: seq<User>)
    requires |salts| == ACCOUNTS
    ensures |users| == ACCOUNTS && forall i | 0 <= i < ACCOUNTS :: users[i] == Account(k, w, PersonAt(i), salts[i])
  {
    seq(ACCOUNTS, i requires 0 <= i < ACCOUNTS => Account(k, w, PersonAt(i), salts[i]))
  }

  function DecoderAt(i: nat): Listed<Decoder> {
    match i
    case 0 => Listed("DEC-ASN1-v3", Decoder("ASN.1 CDR Decoder", "3.2.1", "Enabled", "12k/s"))
    case 1 => Listed("DEC-JSON-v2", Decoder("JSON Event Decoder", "2.5.0", "Enabled", "28k/s"))
    case _ => Listed("DEC-CSV-v1", Decoder("Legacy CSV Decoder", "1.8.4", "Disabled", "\U{2014}"))
  }

  function Decoders(): (decoders: seq<Listed<Decoder>>)
    ensures |decoders| == 3 && forall i | 0 <= i < 3 :: decoders[i] == DecoderAt(i)
  {
    seq(3, i requires 0 <= i < 3 => DecoderAt(i))
  }

  function SystemConfig(): seq<Listed<Config>> {
    [Listed("system", Config("production", 365, 15, "ops-alerts@radonaix.io", false))]
  }

  function AlertAt(i: nat, now: nat): Listed<Alert> {
    match i
    case 0 => Listed("ALT-2231", Alert("high", "Validation", "Schema drift on field call_duration", "Open", now))
    case 1 => Listed("ALT-2230", Alert("medium", "Reconciliation", "Latency above SLA (18m vs 15m)", "Acknowledged", now))
    case 2 => Listed("ALT-2229", Alert("low", "Decoding", "Throughput degraded 4% on DEC-ASN1-v3", "Open", now))
    case _ => Listed("ALT-2228", Alert("critical", "File Collection", "Source MSC-EU-3 unreachable", "Open", now))
  }

  function Alerts(now: nat): (alerts: seq<Listed<Alert>>)
    ensures |alerts| == 4 && forall i | 0 <= i < 4 :: alerts[i] == AlertAt(i, now)
  {
    seq(4, i requires 0 <= i < 4 => AlertAt(i, now))
  }

  function ThePlan(k: Primitives, w: Passwords, d: Draws): (p: Plan)
    requires |d.salts| == |d.ids| == ACCOUNTS
    ensures |p.ids| == |p.users|
  {
    Plan(Roles(), Users(k, w, d.salts), d.ids, Decoders(), SystemConfig(), Alerts(d.now))
  }

  predicate DrawsFit(s: Store, d: Draws) {
    && |d.salts| == |d.ids| == ACCOUNTS
    && (forall i, j | 0 <= i < j < |d.ids| :: d.ids[i] != d.ids[j])
    && (forall i | 0 <= i < |d.ids| :: d.ids[i] !in s.users)
  }

  lemma RolesAreDistinct()
    ensures DistinctKeys(Roles())
  {
    forall i, j | 0 <= i < j < 4
      ensures Roles()[i].key != Roles()[j].key
    {
      SlugsDiffer(i, j);
    }
  }

  lemma SlugsDiffer(i: nat, j: nat)
    requires i < j < 4
    ensures SlugAt(i) != SlugAt(j)
  {
    assert |"admin"| == 5 && "ra_lead"[0] == 'r' && "analyst"[0] == 'a' && |"analyst"| == 7 && |"viewer"| == 6;
  }

  lemma DecodersAreDistinct()
    ensures DistinctKeys(Decoders())
  {
    assert "DEC-ASN1-v3"[4] == 'A' && "DEC-JSON-v2"[4] == 'J' && "DEC-CSV-v1"[4] == 'C';
  }

  lemma AlertsAreDistinct(now: nat)
    ensures DistinctKeys(Alerts(now))
  {
    assert "ALT-2231"[7] == '1' && "ALT-2230"[7] == '0' && "ALT-2229"[7] == '9' && "ALT-2228"[7] == '8';
  }

  /** The lists satisfy what seeding relies on: no key is listed twice. */
  lemma ThePlanIsReady(k: Primitives, w: Passwords, s: Store, d: Draws)
    requires DrawsFit(s, d)
    ensures Ready(s, ThePlan(k, w, d))
  {
    RolesAreDistinct();
    DecodersAreDistinct();
    AlertsAreDistinct(d.now);
  }

  lemma AlertKeys(now: nat, later: nat)
    ensures SameKeys(Alerts(now), Alerts(later))
  {
  }

  lemma UserAddresses(k: Primitives, w: Passwords, salts: seq<string>, more: seq<string>)
    requires |salts| == |more| == ACCOUNTS
    ensures forall i | 0 <= i < ACCOUNTS :: Users(k, w, salts)[i].email == Users(k, w, more)[i].email
  {
  }

  lemma PlansAgree(k: Primitives, w: Passwords, d: Draws, e: Draws)
    requires |d.salts| == |d.ids| == |e.salts| == |e.ids| == ACCOUNTS
    ensures SamePlan(ThePlan(k, w, d), ThePlan(k, w, e))
  {
    AlertKeys(d.now, e.now);
    UserAddresses(k, w, d.salts, e.salts);
  }

  lemma LaterDrawsFit(k: Primitives, w: Passwords, s: Store, d: Draws, e: Draws)
    requires DrawsFit(s, d) && DrawsFit(s, e) && forall id | id in e.ids :: id !in d.ids
    ensures DrawsFit(Seeded(s, ThePlan(k, w, d)), e)
  {
    var added := MissingUsers(s.users, Users(k, w, d.salts), d.ids);
    forall i | 0 <= i < |e.ids|
      ensures e.ids[i] !in s.users + added
    {
      if e.ids[i] in added {
        MissingUserIds(s.users, Users(k, w, d.salts), d.ids, e.ids[i]);
      }
    }
  }

  /** Seeding with the seeder's own lists is idempotent from any database, although
      the second execution draws other salts and ids and reads another clock. */
  lemma ReseedingChangesNothing(k: Primitives, w: Passwords, s: Store, d: Draws, e: Draws)
    requires DrawsFit(s, d) && DrawsFit(s, e) && forall id | id in e.ids :: id !in d.ids
    ensures var once := Seeded(s, ThePlan(k, w, d)); Seeded(once, ThePlan(k, w, e)) == once
  {
    ThePlanIsReady(k, w, s, d);
    LaterDrawsFit(k, w, s, d, e);
    ThePlanIsReady(k, w, Seeded(s, ThePlan(k, w, d)), e);
    PlansAgree(k, w, d, e);
    SeedingTwiceIsSeedingOnce(s, ThePlan(k, w, d), ThePlan(k, w, e));
  }

  /** No two listed addresses differ at most in case. */
  lemma TheAddressesAreApart(k: Primitives, w: Passwords, salts: seq<string>)
    requires |salts| == ACCOUNTS
    ensures ListedApart(Users(k, w, salts))
  {
    AddressShapes();
    var users := Users(k, w, salts);
    forall i, j | 0 <= i < j < |users|
      ensures !SameEmail(users[i], users[j].email)
    {
      var a, b := users[i].email, users[j].email;
      assert |Lower(a)| == |a| && |Lower(b)| == |b|;
      if i == 3 {
        assert Lower(a)[0] == 'v' && Lower(b)[0] == 'l';
      }
    }
  }

  lemma AddressShapes()
    ensures |PersonAt(0).email| == 17 && |PersonAt(1).email| == 23 && |PersonAt(2).email| == 22
    ensures |PersonAt(3).email| == 18 && |PersonAt(4).email| == 18
    ensures PersonAt(3).email[0] == 'v' && PersonAt(4).email[0] == 'l'
  {
  }

  lemma SlugsAreListed(j: nat)
    requires j < 4
    ensures SlugAt(j) in Keys(Roles())
  {
    var roles := Roles();
    InKeys(roles);
    assert roles[j].key in Keys(roles);
  }

  lemma RolesAreListed(i: nat)
    requires i < ACCOUNTS
    ensures PersonAt(i).role in Keys(Roles())
  {
    PersonRole(i);
    SlugsAreListed(if i < 4 then i else 2);
  }

  lemma PersonRole(i: nat)
    requires i < ACCOUNTS
    ensures PersonAt(i).role == SlugAt(if i < 4 then i else 2)
  {
  }

  lemma RoleRow(k: Primitives, w: Passwords, s: Store, d: Draws, j: nat)
    requires DrawsFit(s, d) && j < 4 && SlugAt(j) !in s.roles
    ensures var t := Seeded(s, ThePlan(k, w, d)); SlugAt(j) in t.roles && t.roles[SlugAt(j)] == RoleAt(j)
  {
    RolesAreDistinct();
    assert Roles()[j] == Listed(SlugAt(j), RoleAt(j));
    MissingRow(s.roles, Roles(), j);
  }

  /** A role the seeder adds grants what the role may do by default. */
  lemma SeededRoles(k: Primitives, w: Passwords, s: Store, d: Draws, j: nat)
    requires DrawsFit(s, d) && j < 4 && SlugAt(j) !in s.roles
    ensures var t := Seeded(s, ThePlan(k, w, d));
            SlugAt(j) in t.roles && GrantsDefaults(t.roles[SlugAt(j)].permissions, SlugAt(j))
  {
    RoleRow(k, w, s, d, j);
    RoleMatrix(j, SlugAt(j));
  }

  lemma RoleMatrix(j: nat, slug: string)
    requires slug == SlugAt(j)
    ensures GrantsDefaults(RoleAt(j).permissions, slug)
  {
    DefaultsAreGranted(RoleAt(j).permissions, slug);
  }

  lemma AccountRow(k: Primitives, w: Passwords, s: Store, d: Draws, i: nat)
    requires DrawsFit(s, d) && i < ACCOUNTS && !HasEmail(s.users, PersonAt(i).email)
    ensures var t := Seeded(s, ThePlan(k, w, d));
            d.ids[i] in t.users && t.users[d.ids[i]] == Account(k, w, PersonAt(i), d.salts[i])
  {
    var listed := Users(k, w, d.salts);
    assert listed[i].email == PersonAt(i).email;
    MissingUserRow(s.users, listed, d.ids, i);
  }

  lemma OnlyFirstIsAdmin(i: nat)
    requires i < ACCOUNTS
    ensures PersonAt(i).role == "admin" <==> i == 0
  {
    PersonRole(i);
    assert SlugAt(0) == "admin";
    if i > 0 {
      SlugsDiffer(0, if i < 4 then i else 2);
    }
  }

  /** An account the seeder adds has a current hash of its password, the bootstrap
      password for the administrator and the demonstration password for the others,
      and a clear lock. */
  lemma SeededAccounts(k: Primitives, w: Passwords, s: Store, d: Draws, i: nat)
    requires Lawful(k) && DrawsFit(s, d) && i < ACCOUNTS && !HasEmail(s.users, PersonAt(i).email)
    ensures var t := Seeded(s, ThePlan(k, w, d));
      && d.ids[i] in t.users
      && var row := t.users[d.ids[i]];
      && row.email == PersonAt(i).email && row.roleId == PersonAt(i).role && row.status == PersonAt(i).status
      && VerifyPassword(k, if i == 0 then w.bootstrap else w.demo, row.hashed) && !NeedsRehash(k, row.hashed)
      && row.failed == 0 && row.lockedUntil == None
  {
    AccountRow(k, w, s, d, i);
    OnlyFirstIsAdmin(i);
    NewHashIsCurrent(k, if i == 0 then w.bootstrap else w.demo, d.salts[i]);
  }

  /** After seeding any database whose accounts name existing roles they all still
      do, the five accounts are there, and sign-in can tell the addresses apart
      exactly if no listed one was stored only in another spelling. */
  lemma SeededDatabase(k: Primitives, w: Passwords, s: Store, d: Draws)
    requires DrawsFit(s, d) && AddressesApart(s.users)
    requires forall u | u in s.users :: s.users[u].roleId in s.roles
    ensures var t := Seeded(s, ThePlan(k, w, d));
      && (forall u | u in t.users :: t.users[u].roleId in t.roles)
      && (forall i | 0 <= i < ACCOUNTS :: HasEmail(t.users, PersonAt(i).email))
      && (AddressesApart(t.users) <==> forall i | 0 <= i < ACCOUNTS :: Settled(s.users, PersonAt(i).email))
  {
    var p := ThePlan(k, w, d);
    ThePlanIsReady(k, w, s, d);
    forall i | 0 <= i < ACCOUNTS
      ensures p.users[i].roleId in Keys(p.roles) && p.users[i].email == PersonAt(i).email
    {
      RolesAreListed(i);
    }
    SeedingKeepsRoles(s, p);
    SeedingIsNonDestructive(s, p);
    SeededAddresses(k, w, s, d);
  }

  lemma SeededAddresses(k: Primitives, w: Passwords, s: Store, d: Draws)
    requires DrawsFit(s, d) && AddressesApart(s.users)
    ensures AddressesApart(Seeded(s, ThePlan(k, w, d)).users)
       <==> forall i | 0 <= i < ACCOUNTS :: Settled(s.users, PersonAt(i).email)
  {
    var users := Users(k, w, d.salts);
    forall i | 0 <= i < ACCOUNTS
      ensures users[i].email == PersonAt(i).email
    {
    }
    TheAddressesAreApart(k, w, d.salts);
    SeedingKeepsAddressesApart(s.users, users, d.ids);
  }
}
