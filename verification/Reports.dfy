/** Report generation as a concurrent protocol: creations, at-least-once delivery
    of their tasks, workers that commit in the middle of their work, and downloads
    (app/modules/reporting/service.py and router.py, app/workers/tasks.py).
    Workers of different reports interleave freely; two executions of the same
    report do not overlap, but may follow each other after a crash or redelivery. */
module Reports {
  import opened Prelude
  import R = References

  type Bytes = seq<bv8>

  datatype Status = Queued | Running | Completed | Failed

  /** A report row; its reference is kept in the reference table. */
  datatype Report = Report(
    status: Status,
    size: Option<nat>,
    path: Option<string>,
    checksum: Option<string>,
    error: Option<string>,
    completedAt: Option<nat>)

  const NEW_REPORT := Report(Queued, None, None, None, None, None)

  /** How far a worker has come. */
  datatype Stage =
    | Loaded | Started | Writing | Written | Measured(size: nat) | Hashed(size: nat, sum: string)

  datatype Worker = Worker(report: string, stage: Stage)

  datatype World = World(
    table: R.State,                // references by report id, and creations under way
    reports: map<string, Report>,  // the other columns of the committed rows
    files: map<string, Bytes>,
    drawn: set<string>,            // every report id ever drawn
    messages: set<string>,         // ids whose task has been enqueued
    workers: map<nat, Worker>)

  datatype Move =
    | Create(move: R.Move)
    | Enqueue(t: nat)
    | Deliver(w: nat, id: string)
    | MarkRunning(w: nat)
    | Open(w: nat)
    | Append(w: nat, chunk: Bytes)
    | CloseFile(w: nat)
    | Measure(w: nat)
    | Digest(w: nat)
    | Complete(w: nat, now: nat)
    | Fail(w: nat, message: string)
    | Crash(w: nat)

  /** The reports directory and the file digest. */
  datatype Env = Env(dir: string, sha: Bytes -> string)

  function PathOf(env: Env, reference: string): string {
    env.dir + "/" + reference + ".csv"
  }

  lemma PathInjective(env: Env, a: string, b: string)
    requires PathOf(env, a) == PathOf(env, b)
    ensures a == b
  {
    var n := |env.dir + "/"|;
    assert PathOf(env, a)[n..|PathOf(env, a)| - 4] == a;
    assert PathOf(env, b)[n..|PathOf(env, b)| - 4] == b;
  }

  predicate Known(w: World, id: string) {
    id in w.reports && id in w.table.rows
  }

  function FileOf(env: Env, w: World, id: string): string
    requires Known(w, id)
  {
    PathOf(env, w.table.rows[id])
  }

  predicate At(w: World, k: nat, stage: Stage) {
    k in w.workers && w.workers[k].stage == stage && Known(w, w.workers[k].report)
  }

  predicate AtFile(env: Env, w: World, k: nat) {
    k in w.workers && Known(w, w.workers[k].report) && FileOf(env, w, w.workers[k].report) in w.files
  }

  predicate Possible(env: Env, w: World, m: Move) {
    match m
    case Create(move) =>
      && R.Possible(R.REPORTS, w.table, move)
      && (move.Insert? ==> move.id !in w.drawn)
    case Enqueue(t) => t in w.table.requests && w.table.requests[t].Inserted?
    case Deliver(k, id) =>
      id in w.messages && k !in w.workers && forall o | o in w.workers :: w.workers[o].report != id
    case MarkRunning(k) => At(w, k, Loaded)
    case Open(k) => At(w, k, Started)
    case Append(k, _) => At(w, k, Writing) && AtFile(env, w, k)
    case CloseFile(k) => At(w, k, Writing)
    case Measure(k) => At(w, k, Written) && AtFile(env, w, k)
    case Digest(k) => k in w.workers && w.workers[k].stage.Measured? && AtFile(env, w, k)
    case Complete(k, _) => k in w.workers && w.workers[k].stage.Hashed? && Known(w, w.workers[k].report)
    case Fail(k, _) => k in w.workers && Known(w, w.workers[k].report)
    case Crash(k) => k in w.workers
  }

  function Advance(w: World, k: nat, stage: Stage): World
    requires k in w.workers
  {
    w.(workers := w.workers[k := w.workers[k].(stage := stage)])
  }

  function Put(w: World, id: string, row: Report): World {
    w.(reports := w.reports[id := row])
  }

  function Leave(w: World, k: nat): World {
    w.(workers := w.workers - {k})
  }

  function Step(env: Env, w: World, m: Move): World
    requires Possible(env, w, m)
  {
    match m
    case Create(move) =>
      w.(table := R.Step(R.REPORTS, w.table, move),
         reports := if move.Commit? then w.reports[w.table.requests[move.t].id := NEW_REPORT] else w.reports,
         drawn := if move.Insert? then w.drawn + {move.id} else w.drawn)
    case Enqueue(t) => w.(messages := w.messages + {w.table.requests[t].id})
    case Deliver(k, id) => if Known(w, id) then w.(workers := w.workers[k := Worker(id, Loaded)]) else w
    case MarkRunning(k) =>
      var id := w.workers[k].report;
      Put(Advance(w, k, Started), id, w.reports[id].(status := Running))
    case Open(k) =>
      Advance(w, k, Writing).(files := w.files[FileOf(env, w, w.workers[k].report) := []])
    case Append(k, chunk) =>
      var path := FileOf(env, w, w.workers[k].report);
      w.(files := w.files[path := w.files[path] + chunk])
    case CloseFile(k) => Advance(w, k, Written)
    case Measure(k) => Advance(w, k, Measured(|w.files[FileOf(env, w, w.workers[k].report)]|))
    case Digest(k) =>
      Advance(w, k, Hashed(w.workers[k].stage.size, env.sha(w.files[FileOf(env, w, w.workers[k].report)])))
    case Complete(k, now) =>
      var id, done := w.workers[k].report, w.workers[k].stage;
      Leave(Put(w, id, Report(Completed, Some(done.size), Some(FileOf(env, w, id)), Some(done.sum), None, Some(now))), k)
    case Fail(k, message) =>
      var id := w.workers[k].report;
      Leave(Put(w, id, w.reports[id].(status := Failed, error := Some(message))), k)
    case Crash(k) => Leave(w, k)
  }

  datatype Run = Run(worlds: seq<World>, moves: seq<Move>)

  ghost predicate IsRun(env: Env, r: Run) {
    && |r.worlds| == |r.moves| + 1
    && r.worlds[0] == World(R.State(map[], map[]), map[], r.worlds[0].files, {}, {}, map[])
    && forall i | 0 <= i < |r.moves| ::
         Possible(env, r.worlds[i], r.moves[i]) && r.worlds[i + 1] == Step(env, r.worlds[i], r.moves[i])
  }

  // --- The invariant -----------------------------------------------------------------------

  /** A completed report names its own file, and its size and checksum are those of
      the bytes now in that file. A failed one says why. */
  predicate Certified(env: Env, w: World, id: string)
    requires Known(w, id)
  {
    var row, path := w.reports[id], FileOf(env, w, id);
    && (row.status == Completed ==>
          && row.path == Some(path) && path in w.files
          && row.size == Some(|w.files[path]|) && row.checksum == Some(env.sha(w.files[path]))
          && row.error == None && row.completedAt.Some?)
    && (row.status == Failed ==> row.error.Some?)
  }

  /** A worker past its first commit holds its report in the Running state, and what
      it has measured is still what the file holds. */
  predicate WorkerOk(env: Env, w: World, k: nat)
    requires k in w.workers
  {
    var id, stage := w.workers[k].report, w.workers[k].stage;
    && Known(w, id)
    && (stage != Loaded ==> w.reports[id].status == Running)
    && (stage != Loaded && stage != Started ==> FileOf(env, w, id) in w.files)
    && (stage.Measured? || stage.Hashed? ==> stage.size == |w.files[FileOf(env, w, id)]|)
    && (stage.Hashed? ==> stage.sum == env.sha(w.files[FileOf(env, w, id)]))
  }

  predicate RequestOk(w: World, t: nat)
    requires t in w.table.requests
  {
    var p := w.table.requests[t];
    p.Inserted? ==> p.id in w.drawn && p.id !in w.table.rows
  }

  predicate TablesMatch(w: World) {
    && w.reports.Keys == w.table.rows.Keys && w.table.rows.Keys <= w.drawn && w.messages <= w.drawn
    && (forall t | t in w.table.requests :: RequestOk(w, t))
  }

  predicate Sound(env: Env, w: World) {
    && R.Dense(R.REPORTS, w.table) && TablesMatch(w)
    && (forall id | id in w.reports :: Certified(env, w, id))
    && (forall k | k in w.workers :: WorkerOk(env, w, k))
    && (forall a, b | a in w.workers && b in w.workers && w.workers[a].report == w.workers[b].report :: a == b)
  }

  /** Different reports write to different files. */
  lemma FilesApart(env: Env, w: World, a: string, b: string)
    requires R.Distinct(w.table.rows) && Known(w, a) && Known(w, b) && a != b
    ensures FileOf(env, w, a) != FileOf(env, w, b)
  {
    if FileOf(env, w, a) == FileOf(env, w, b) {
      PathInjective(env, w.table.rows[a], w.table.rows[b]);
    }
  }

  // --- One step ---------------------------------------------------------------------------

  predicate IsWorkerMove(m: Move) {
    !m.Create? && !m.Enqueue? && !m.Deliver?
  }

  function Actor(m: Move): nat
    requires IsWorkerMove(m)
  {
    m.w
  }

  /** A worker's move touches only its own report row and its own file. */
  predicate OnlyOwn(env: Env, before: World, after: World, k: nat) {
    && k in before.workers && Known(before, before.workers[k].report)
    && after.table == before.table && after.drawn == before.drawn && after.messages == before.messages
    && after.reports.Keys == before.reports.Keys
    && (forall id | id in before.reports && id != before.workers[k].report :: after.reports[id] == before.reports[id])
    && before.files.Keys <= after.files.Keys
    && (forall p | p in before.files && p != FileOf(env, before, before.workers[k].report) ::
          after.files[p] == before.files[p])
    && after.workers.Keys <= before.workers.Keys
    && (forall o | o in after.workers && o != k :: after.workers[o] == before.workers[o])
    && (k in after.workers ==> after.workers[k].report == before.workers[k].report)
  }

  predicate GoodEffect(env: Env, w: World, w': World, k: nat) {
    && OnlyOwn(env, w, w', k)
    && Certified(env, w', w.workers[k].report)
    && (k in w'.workers ==> WorkerOk(env, w', k))
  }

  lemma TouchesOnlyOwn(env: Env, w: World, m: Move)
    requires Possible(env, w, m) && IsWorkerMove(m) && Known(w, w.workers[m.w].report)
    ensures OnlyOwn(env, w, Step(env, w, m), m.w)
  {
  }

  /** A worker's move keeps its own report certified, and itself truthful. */
  predicate KeepsOwn(env: Env, w: World, w': World, k: nat) {
    && k in w.workers && Known(w', w.workers[k].report)
    && Certified(env, w', w.workers[k].report)
    && (k in w'.workers ==> WorkerOk(env, w', k))
  }

  lemma ProgressKeepsOwn(env: Env, w: World, m: Move)
    requires Possible(env, w, m) && (m.MarkRunning? || m.CloseFile? || m.Measure? || m.Digest?)
    requires WorkerOk(env, w, m.w) && Certified(env, w, w.workers[m.w].report)
    ensures KeepsOwn(env, w, Step(env, w, m), m.w)
  {
  }

  lemma WritingKeepsOwn(env: Env, w: World, m: Move)
    requires Possible(env, w, m) && (m.Open? || m.Append?)
    requires WorkerOk(env, w, m.w) && Certified(env, w, w.workers[m.w].report)
    ensures KeepsOwn(env, w, Step(env, w, m), m.w)
  {
  }

  lemma LeavingKeepsOwn(env: Env, w: World, m: Move)
    requires Possible(env, w, m) && (m.Complete? || m.Fail? || m.Crash?)
    requires WorkerOk(env, w, m.w) && Certified(env, w, w.workers[m.w].report)
    ensures KeepsOwn(env, w, Step(env, w, m), m.w)
  {
  }

  lemma WorkerMoveEffect(env: Env, w: World, m: Move)
    requires Sound(env, w) && Possible(env, w, m) && IsWorkerMove(m)
    ensures GoodEffect(env, w, Step(env, w, m), Actor(m))
  {
    assert WorkerOk(env, w, m.w) && Certified(env, w, w.workers[m.w].report);
    TouchesOnlyOwn(env, w, m);
    if m.Open? || m.Append? {
      WritingKeepsOwn(env, w, m);
    } else if m.Complete? || m.Fail? || m.Crash? {
      LeavingKeepsOwn(env, w, m);
    } else {
      ProgressKeepsOwn(env, w, m);
    }
  }

  lemma OthersStayCertified(env: Env, w: World, w': World, k: nat, id: string)
    requires Sound(env, w) && OnlyOwn(env, w, w', k) && id in w.reports && id != w.workers[k].report
    ensures Known(w', id) && Certified(env, w', id)
  {
    assert Certified(env, w, id);
    FilesApart(env, w, id, w.workers[k].report);
  }

  lemma OthersStayOk(env: Env, w: World, w': World, k: nat, o: nat)
    requires Sound(env, w) && OnlyOwn(env, w, w', k) && o in w'.workers && o != k
    ensures WorkerOk(env, w', o)
  {
    assert WorkerOk(env, w, o);
    assert w.workers[o].report != w.workers[k].report;
    FilesApart(env, w, w.workers[o].report, w.workers[k].report);
  }

  lemma WorkerMoveKeepsSound(env: Env, w: World, w': World, k: nat)
    requires Sound(env, w) && GoodEffect(env, w, w', k)
    ensures Sound(env, w')
  {
    forall id | id in w'.reports
      ensures Certified(env, w', id)
    {
      if id != w.workers[k].report {
        OthersStayCertified(env, w, w', k, id);
      }
    }
    forall o | o in w'.workers
      ensures WorkerOk(env, w', o)
    {
      if o != k {
        OthersStayOk(env, w, w', k, o);
      }
    }
    assert TablesMatch(w');
  }

  /** Rows may be added; those that were there, the files and the workers stay. */
  predicate OnlyGrows(w: World, w': World) {
    && w'.files == w.files && w'.workers == w.workers
    && w.reports.Keys <= w'.reports.Keys && w.table.rows.Keys <= w'.table.rows.Keys
    && (forall id | id in w.reports :: w'.reports[id] == w.reports[id])
    && (forall id | id in w.table.rows :: w'.table.rows[id] == w.table.rows[id])
    && (forall id | id in w'.reports && id !in w.reports :: w'.reports[id] == NEW_REPORT)
  }

  lemma GrowthKeepsSound(env: Env, w: World, w': World)
    requires Sound(env, w) && R.Dense(R.REPORTS, w'.table) && TablesMatch(w') && OnlyGrows(w, w')
    ensures Sound(env, w')
  {
    forall id | id in w'.reports
      ensures Certified(env, w', id)
    {
      assert id in w.reports ==> Certified(env, w, id);
    }
    forall o | o in w'.workers
      ensures WorkerOk(env, w', o)
    {
      assert WorkerOk(env, w, o);
    }
  }

  /** A creation's commit adds a report that was not there. */
  predicate CommitsNew(w: World, m: Move) {
    m.Create? && m.move.Commit? ==>
      && m.move.t in w.table.requests && w.table.requests[m.move.t].Inserted?
      && w.table.requests[m.move.t].id !in w.reports && w.table.requests[m.move.t].id !in w.table.rows
      && w.table.requests[m.move.t].id in w.drawn
  }

  lemma CommitIsNew(env: Env, w: World, m: Move)
    requires Sound(env, w) && Possible(env, w, m)
    ensures CommitsNew(w, m)
  {
    if m.Create? && m.move.Commit? {
      assert RequestOk(w, m.move.t);
    }
  }

  lemma CreateKeepsTables(env: Env, w: World, move: R.Move)
    requires TablesMatch(w) && Possible(env, w, Create(move)) && CommitsNew(w, Create(move))
    requires forall a, b | a in w.table.requests && b in w.table.requests
               && w.table.requests[a].Inserted? && w.table.requests[b].Inserted? :: a == b
    ensures TablesMatch(Step(env, w, Create(move)))
  {
    var w' := Step(env, w, Create(move));
    forall t | t in w'.table.requests
      ensures RequestOk(w', t)
    {
      assert t in w.table.requests ==> RequestOk(w, t);
    }
  }

  lemma CreateGrows(env: Env, w: World, move: R.Move)
    requires Possible(env, w, Create(move)) && CommitsNew(w, Create(move))
    ensures OnlyGrows(w, Step(env, w, Create(move)))
  {
  }

  lemma CreateKeepsSound(env: Env, w: World, move: R.Move)
    requires Sound(env, w) && Possible(env, w, Create(move))
    ensures Sound(env, Step(env, w, Create(move)))
  {
    R.StepKeepsDense(R.REPORTS, w.table, move);
    CommitIsNew(env, w, Create(move));
    CreateKeepsTables(env, w, move);
    CreateGrows(env, w, move);
    GrowthKeepsSound(env, w, Step(env, w, Create(move)));
  }

  lemma EnqueueKeepsSound(env: Env, w: World, t: nat)
    requires Sound(env, w) && Possible(env, w, Enqueue(t))
    ensures Sound(env, Step(env, w, Enqueue(t)))
  {
    var w' := Step(env, w, Enqueue(t));
    assert RequestOk(w, t);
    forall o | o in w'.table.requests ensures RequestOk(w', o) { assert RequestOk(w, o); }
    GrowthKeepsSound(env, w, w');
  }

  lemma DeliverKeepsSound(env: Env, w: World, k: nat, id: string)
    requires Sound(env, w) && Possible(env, w, Deliver(k, id))
    ensures Sound(env, Step(env, w, Deliver(k, id)))
  {
    var w' := Step(env, w, Deliver(k, id));
    forall o | o in w'.table.requests ensures RequestOk(w', o) { assert RequestOk(w, o); }
    forall o | o in w'.reports ensures Certified(env, w', o) { assert Certified(env, w, o); }
    forall o | o in w'.workers
      ensures WorkerOk(env, w', o)
    {
      assert o in w.workers ==> WorkerOk(env, w, o);
    }
  }

  lemma StepKeepsSound(env: Env, w: World, m: Move)
    requires Sound(env, w) && Possible(env, w, m)
    ensures Sound(env, Step(env, w, m))
  {
    match m
    case Create(move) => CreateKeepsSound(env, w, move);
    case Enqueue(t) => EnqueueKeepsSound(env, w, t);
    case Deliver(k, id) => DeliverKeepsSound(env, w, k, id);
    case _ => WorkerStepKeepsSound(env, w, m);
  }

  lemma WorkerStepKeepsSound(env: Env, w: World, m: Move)
    requires Sound(env, w) && Possible(env, w, m) && IsWorkerMove(m)
    ensures Sound(env, Step(env, w, m))
  {
    WorkerMoveEffect(env, w, m);
    WorkerMoveKeepsSound(env, w, Step(env, w, m), Actor(m));
  }

  lemma {:induction false} AlwaysSound(env: Env, r: Run, i: nat)
    requires IsRun(env, r) && i < |r.worlds|
    ensures Sound(env, r.worlds[i])
  {
    if i == 0 {
      assert R.Refs(map[]) == R.First(R.REPORTS, 0);
    } else {
      AlwaysSound(env, r, i - 1);
      StepKeepsSound(env, r.worlds[i - 1], r.moves[i - 1]);
    }
  }

  // --- The theorems ---------------------------------------------------------------------

  /** The certificate invariant, over every run: a completed report is complete, and
      its certificate agrees with the bytes now on disk; and while a worker is
      anywhere between opening the file and completing, the report is Running. */
  lemma CertificatesHold(env: Env, r: Run, i: nat, id: string)
    requires IsRun(env, r) && i < |r.worlds| && id in r.worlds[i].reports
    ensures var w := r.worlds[i];
      && Known(w, id) && Certified(env, w, id)
      && forall k | k in w.workers && w.workers[k].report == id && w.workers[k].stage != Loaded ::
           w.reports[id].status == Running
  {
    AlwaysSound(env, r, i);
    var w := r.worlds[i];
    assert Certified(env, w, id);
    forall k | k in w.workers && w.workers[k].report == id && w.workers[k].stage != Loaded
      ensures w.reports[id].status == Running
    {
      assert WorkerOk(env, w, k);
    }
  }

  /** What a download sends: the bytes and the checksum header. */
  datatype Served = Served(body: Bytes, checksum: Option<string>)

  /** The row with a reference, looked up through the unique index. */
  function ByReference(rows: map<string, string>, reference: string): (found: Option<string>)
    requires R.Distinct(rows)
    ensures found.Some? ==> found.value in rows && rows[found.value] == reference
    ensures found.None? ==> reference !in R.Refs(rows)
  {
    if reference in R.Refs(rows) then
      var id :| id in rows && rows[id] == reference;
      Some(id)
    else None
  }

  function Download(w: World, reference: string): Option<Served>
    requires R.Distinct(w.table.rows) && w.table.rows.Keys <= w.reports.Keys
  {
    var id := ByReference(w.table.rows, reference);
    if id.None? then None
    else
      var row := w.reports[id.value];
      if row.status != Completed || !Truthy(row.path) || row.path.value !in w.files then None
      else Some(Served(w.files[row.path.value], if Truthy(row.checksum) then row.checksum else None))
  }

  /** A download is served exactly when the report with that reference is Completed;
      what is served is that report's own file, and the size on record and the
      checksum header are those of the bytes sent. */
  lemma DownloadsAreCertified(env: Env, r: Run, i: nat, reference: string, id: string)
    requires IsRun(env, r) && i < |r.worlds|
    requires id in r.worlds[i].table.rows && r.worlds[i].table.rows[id] == reference
    ensures var w := r.worlds[i];
      && R.Distinct(w.table.rows) && w.table.rows.Keys == w.reports.Keys
      && (Download(w, reference).Some? <==> w.reports[id].status == Completed)
      && (Download(w, reference).Some? ==>
            var served := Download(w, reference).value;
            && env.dir + "/" + reference + ".csv" in w.files
            && served.body == w.files[env.dir + "/" + reference + ".csv"]
            && w.reports[id].size == Some(|served.body|)
            && (env.sha(served.body) != "" ==> served.checksum == Some(env.sha(served.body))))
  {
    AlwaysSound(env, r, i);
    var w := r.worlds[i];
    assert Certified(env, w, id);
    assert |PathOf(env, reference)| >= 4;
    assert w.table.rows[id] in R.Refs(w.table.rows);
  }

  // --- Lifecycle ------------------------------------------------------------------------------

  /** The changes of status one step can make: any run of the task goes through
      Running to Completed, and an error leads to Failed from anywhere. */
  predicate Allowed(before: Status, after: Status) {
    after == before || after == Running || after == Failed || (before == Running && after == Completed)
  }

  predicate Moves(w: World, m: Move, id: string) {
    IsWorkerMove(m) && m.w in w.workers && w.workers[m.w].report == id
  }

  /** The status of a report after a move. */
  function StatusAfter(w: World, m: Move, id: string): Status
    requires id in w.reports
  {
    if Moves(w, m, id) && m.MarkRunning? then Running
    else if Moves(w, m, id) && m.Complete? then Completed
    else if Moves(w, m, id) && m.Fail? then Failed
    else w.reports[id].status
  }

  lemma StepStatus(env: Env, w: World, m: Move, id: string)
    requires Possible(env, w, m) && CommitsNew(w, m) && id in w.reports
    ensures id in Step(env, w, m).reports && Step(env, w, m).reports[id].status == StatusAfter(w, m, id)
  {
  }

  lemma StepIsAllowed(env: Env, w: World, m: Move, id: string)
    requires Sound(env, w) && Possible(env, w, m) && id in w.reports
    ensures id in Step(env, w, m).reports && Allowed(w.reports[id].status, Step(env, w, m).reports[id].status)
  {
    CommitIsNew(env, w, m);
    StepStatus(env, w, m, id);
    if Moves(w, m, id) {
      assert WorkerOk(env, w, m.w);
    }
  }

  /** A report becomes Failed without having been Running exactly when its task
      raises before the first commit. */
  lemma FailsWithoutRunning(env: Env, w: World, m: Move, id: string)
    requires Sound(env, w) && Possible(env, w, m) && id in w.reports
    requires w.reports[id].status != Running && w.reports[id].status != Failed
    ensures id in Step(env, w, m).reports
    ensures Step(env, w, m).reports[id].status == Failed
       <==> m.Fail? && w.workers[m.w].report == id && w.workers[m.w].stage == Loaded
  {
    CommitIsNew(env, w, m);
    StepStatus(env, w, m, id);
    if m.Fail? {
      assert WorkerOk(env, w, m.w);
    }
  }

  ghost predicate Leads(env: Env, w: World, m: Move, w': World) {
    Possible(env, w, m) && Step(env, w, m) == w'
  }

  const FRESH := World(R.State(map[], map[]), map[], map[], {}, {}, map[])

  /** One created report in an otherwise empty system. */
  function OneReport(row: Report): World {
    World(R.State(map["r" := R.Reference(R.REPORTS, 1)], map[]), map["r" := row], map[], {"r"}, {"r"}, map[])
  }

  lemma ReportIsCreated(env: Env) returns (w1: World, w2: World, w3: World)
    ensures Leads(env, FRESH, Create(R.Count(0)), w1) && Leads(env, w1, Create(R.Insert(0, "r")), w2)
    ensures Leads(env, w2, Enqueue(0), w3) && Leads(env, w3, Create(R.Commit(0)), OneReport(NEW_REPORT))
    ensures w1.reports == w2.reports == w3.reports == map[]
  {
    w1 := FRESH.(table := R.State(map[], map[0 := R.Counted(0)]));
    w2 := FRESH.(table := R.State(map[], map[0 := R.Inserted(0, "r")]), drawn := {"r"});
    w3 := w2.(messages := {"r"});
    assert Leads(env, w1, Create(R.Insert(0, "r")), w2);
    assert w2.table.requests - {0} == map[];
  }

  lemma ReportFails(env: Env, message: string) returns (w5: World)
    ensures Leads(env, OneReport(NEW_REPORT), Deliver(0, "r"), w5) && w5.reports == map["r" := NEW_REPORT]
    ensures Leads(env, w5, Fail(0, message), OneReport(NEW_REPORT.(status := Failed, error := Some(message))))
  {
    w5 := OneReport(NEW_REPORT).(workers := map[0 := Worker("r", Loaded)]);
    assert w5.workers - {0} == map[];
  }

  lemma FailingRun(env: Env, message: string) returns (r: Run, w1: World, w2: World, w3: World, w5: World)
    ensures IsRun(env, r) && |r.moves| == 6
    ensures r.worlds == [FRESH, w1, w2, w3, OneReport(NEW_REPORT), w5,
                         OneReport(NEW_REPORT.(status := Failed, error := Some(message)))]
    ensures w1.reports == w2.reports == w3.reports == map[] && w5.reports == map["r" := NEW_REPORT]
  {
    w1, w2, w3 := ReportIsCreated(env);
    w5 := ReportFails(env, message);
    r := Run([FRESH, w1, w2, w3, OneReport(NEW_REPORT), w5,
              OneReport(NEW_REPORT.(status := Failed, error := Some(message)))],
             [Create(R.Count(0)), Create(R.Insert(0, "r")), Enqueue(0), Create(R.Commit(0)), Deliver(0, "r"),
              Fail(0, message)]);
    ChainIsRun(env, r);
  }

  /** Such a run: the report goes from Queued to Failed and is never Running. */
  lemma QueuedReportCanFail(env: Env, message: string) returns (r: Run)
    ensures IsRun(env, r) && |r.moves| == 6 && "r" in r.worlds[4].reports && "r" in r.worlds[6].reports
    ensures r.worlds[4].reports["r"].status == Queued && r.worlds[6].reports["r"].status == Failed
    ensures forall i | 0 <= i <= 6 && "r" in r.worlds[i].reports :: r.worlds[i].reports["r"].status != Running
  {
    var w1, w2, w3, w5;
    r, w1, w2, w3, w5 := FailingRun(env, message);
    forall i | 0 <= i <= 6
      ensures r.worlds[i].reports == map[] || ("r" in r.worlds[i].reports && r.worlds[i].reports["r"].status != Running)
    {
      assert i == 0 || i == 1 || i == 2 || i == 3 || i == 4 || i == 5 || i == 6;
    }
  }

  lemma ChainIsRun(env: Env, r: Run)
    requires |r.worlds| == |r.moves| + 1 && r.worlds[0] == FRESH
    requires forall i | 0 <= i < |r.moves| :: Leads(env, r.worlds[i], r.moves[i], r.worlds[i + 1])
    ensures IsRun(env, r)
  {
    forall i | 0 <= i < |r.moves|
      ensures Possible(env, r.worlds[i], r.moves[i]) && r.worlds[i + 1] == Step(env, r.worlds[i], r.moves[i])
    {
      assert Leads(env, r.worlds[i], r.moves[i], r.worlds[i + 1]);
    }
  }

  /** The report is still there and has not returned to Queued, and if it became
      Completed in between it was Running in between. */
  ghost predicate Progressed(worlds: seq<World>, i: nat, j: nat, id: string)
    requires i <= j < |worlds| && id in worlds[i].reports
  {
    && id in worlds[j].reports
    && (worlds[j].reports[id].status == Queued ==> worlds[i].reports[id].status == Queued)
    && (worlds[j].reports[id].status == Completed ==>
          worlds[i].reports[id].status == Completed
          || exists k :: i <= k < j && id in worlds[k].reports && worlds[k].reports[id].status == Running)
  }

  lemma {:induction false} ProgressAlong(worlds: seq<World>, i: nat, j: nat, id: string)
    requires i <= j < |worlds| && id in worlds[i].reports
    requires forall k | i <= k < j && id in worlds[k].reports ::
               && id in worlds[k + 1].reports
               && Allowed(worlds[k].reports[id].status, worlds[k + 1].reports[id].status)
    ensures Progressed(worlds, i, j, id)
    decreases j - i
  {
    if i == j {
      assert worlds[i].reports[id].status == worlds[j].reports[id].status;
    } else {
      ProgressAlong(worlds, i, j - 1, id);
      assert id in worlds[j - 1].reports && Allowed(worlds[j - 1].reports[id].status, worlds[j - 1 + 1].reports[id].status);
    }
  }

  /** Reports never disappear and never return to Queued, and a report that becomes
      Completed was Running in between. */
  lemma Lifecycle(env: Env, r: Run, i: nat, j: nat, id: string)
    requires IsRun(env, r) && i <= j < |r.worlds| && id in r.worlds[i].reports
    ensures Progressed(r.worlds, i, j, id)
  {
    forall k | i <= k < j && id in r.worlds[k].reports
      ensures id in r.worlds[k + 1].reports
      ensures Allowed(r.worlds[k].reports[id].status, r.worlds[k + 1].reports[id].status)
    {
      AlwaysSound(env, r, k);
      StepIsAllowed(env, r.worlds[k], r.moves[k], id);
    }
    ProgressAlong(r.worlds, i, j, id);
  }

  /** The id of a creation that was rolled back: drawn, but never to be a row. */
  predicate Dead(w: World, id: string) {
    && id in w.drawn && id !in w.reports && id !in w.table.rows
    && (forall t | t in w.table.requests && w.table.requests[t].Inserted? :: w.table.requests[t].id != id)
    && (forall k | k in w.workers :: w.workers[k].report != id)
  }

  lemma StepKeepsDead(env: Env, w: World, m: Move, id: string)
    requires Possible(env, w, m) && Dead(w, id)
    ensures Dead(Step(env, w, m), id)
  {
  }

  /** A task enqueued by a creation that then rolled back changes nothing: in every
      later state there is no such report, no worker holds it, and delivering its
      message leaves rows, files and workers as they are. */
  lemma {:induction false} RolledBackTaskIsInert(env: Env, r: Run, i: nat, j: nat, t: nat, id: string)
    requires IsRun(env, r) && i < j < |r.worlds| && r.moves[i] == Create(R.Abort(t))
    requires t in r.worlds[i].table.requests && r.worlds[i].table.requests[t].Inserted?
    requires id == r.worlds[i].table.requests[t].id
    ensures Dead(r.worlds[j], id)
    ensures forall k | Possible(env, r.worlds[j], Deliver(k, id)) ::
              Step(env, r.worlds[j], Deliver(k, id)) == r.worlds[j]
    decreases j - i
  {
    if i + 1 == j {
      AlwaysSound(env, r, i);
      var w := r.worlds[i];
      assert RequestOk(w, t);
      forall k | k in w.workers
        ensures w.workers[k].report != id
      {
        assert WorkerOk(env, w, k);
      }
    } else {
      RolledBackTaskIsInert(env, r, i, j - 1, t, id);
      StepKeepsDead(env, r.worlds[j - 1], r.moves[j - 1], id);
    }
  }

  /** A task delivered before its row commits changes nothing either. */
  lemma EarlyDeliveryIsInert(env: Env, r: Run, i: nat, t: nat, k: nat)
    requires IsRun(env, r) && i < |r.worlds|
    requires t in r.worlds[i].table.requests && r.worlds[i].table.requests[t].Inserted?
    requires Possible(env, r.worlds[i], Deliver(k, r.worlds[i].table.requests[t].id))
    ensures Step(env, r.worlds[i], Deliver(k, r.worlds[i].table.requests[t].id)) == r.worlds[i]
  {
    AlwaysSound(env, r, i);
    assert RequestOk(r.worlds[i], t);
  }

  /** A report whose task no worker has taken up since it was committed. */
  predicate Untouched(w: World, id: string) {
    && id in w.reports && w.reports[id] == NEW_REPORT
    && forall k | k in w.workers :: w.workers[k].report != id
  }

  lemma StepKeepsUntouched(env: Env, w: World, m: Move, id: string)
    requires Possible(env, w, m) && CommitsNew(w, m) && Untouched(w, id)
    requires m.Deliver? ==> m.id != id
    ensures Untouched(Step(env, w, m), id)
  {
  }

  lemma CommitIsUntouched(env: Env, w: World, t: nat)
    requires Sound(env, w) && Possible(env, w, Create(R.Commit(t)))
    ensures Untouched(Step(env, w, Create(R.Commit(t))), w.table.requests[t].id)
  {
    assert RequestOk(w, t);
    forall k | k in w.workers
      ensures w.workers[k].report != w.table.requests[t].id
    {
      assert WorkerOk(env, w, k);
    }
  }

  lemma {:induction false} UntouchedAlong(worlds: seq<World>, i: nat, j: nat, id: string)
    requires i <= j < |worlds| && Untouched(worlds[i], id)
    requires forall k | i <= k < j && Untouched(worlds[k], id) :: Untouched(worlds[k + 1], id)
    ensures Untouched(worlds[j], id)
    decreases j - i
  {
    if i == j {
    } else {
      UntouchedAlong(worlds, i, j - 1, id);
      assert Untouched(worlds[j - 1 + 1], id);
    }
  }

  /** The price of enqueuing before the commit: a report all of whose deliveries came
      before its commit stays Queued, with no file, for as long as its task is not
      delivered again. */
  lemma EarlyDeliveryIsLost(env: Env, r: Run, i: nat, j: nat, t: nat, id: string)
    requires IsRun(env, r) && i < j < |r.worlds| && r.moves[i] == Create(R.Commit(t))
    requires t in r.worlds[i].table.requests && r.worlds[i].table.requests[t].Inserted?
    requires id == r.worlds[i].table.requests[t].id
    requires forall l | i < l < j && r.moves[l].Deliver? :: r.moves[l].id != id
    ensures Untouched(r.worlds[j], id)
  {
    AlwaysSound(env, r, i);
    CommitIsUntouched(env, r.worlds[i], t);
    forall k | i + 1 <= k < j && Untouched(r.worlds[k], id)
      ensures Untouched(r.worlds[k + 1], id)
    {
      NextKeepsUntouched(env, r, k, id);
    }
    UntouchedAlong(r.worlds, i + 1, j, id);
  }

  lemma NextKeepsUntouched(env: Env, r: Run, k: nat, id: string)
    requires IsRun(env, r) && k < |r.moves| && Untouched(r.worlds[k], id)
    requires r.moves[k].Deliver? ==> r.moves[k].id != id
    ensures Untouched(r.worlds[k + 1], id)
  {
    AlwaysSound(env, r, k);
    CommitIsNew(env, r.worlds[k], r.moves[k]);
    StepKeepsUntouched(env, r.worlds[k], r.moves[k], id);
  }
}
