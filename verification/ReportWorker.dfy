/** The body of the report task, run without interference: it writes the file,
    digests it in chunks, and completes the row, or records why it failed
    (app/workers/tasks.py). Each statement with an effect is a move of the
    protocol in `Reports`. */
module ReportWorker {
  import opened Prelude
  import opened Reports

  const CHUNK := 65536

  /** An incremental digest, as hashlib offers it. */
  datatype Hasher<!D> = Hasher(start: D, update: (D, Bytes) -> D, finish: D -> string)

  predicate Joins<D(==)>(h: Hasher<D>, d: D, a: Bytes, b: Bytes) {
    h.update(h.update(d, a), b) == h.update(d, a + b)
  }

  /** Feeding pieces one after the other is feeding them joined together. */
  ghost predicate Streams<D(!new)>(h: Hasher<D>) {
    (forall d, a, b :: Joins(h, d, a, b)) && h.update(h.start, []) == h.start
  }

  function DigestOf<D>(h: Hasher<D>, file: Bytes): string {
    h.finish(h.update(h.start, file))
  }

  /** One read: at most a chunk, empty only at the end of the file. */
  function Read(rest: Bytes): Bytes {
    if |rest| < CHUNK then rest else rest[..CHUNK]
  }

  /** What has been read, followed by the next read, is what has then been read. */
  lemma NextRead(file: Bytes, pos: nat)
    requires pos <= |file|
    ensures var chunk := Read(file[pos..]);
      && pos + |chunk| <= |file| && file[..pos] + chunk == file[..pos + |chunk|]
      && (chunk == [] ==> pos == |file|)
  {
    var chunk := Read(file[pos..]);
    assert chunk == file[pos..pos + |chunk|];
  }

  lemma Feeding<D(!new)>(h: Hasher<D>, done: Bytes, chunk: Bytes)
    requires Streams(h)
    ensures h.update(h.update(h.start, done), chunk) == h.update(h.start, done + chunk)
  {
    assert Joins(h, h.start, done, chunk);
  }

  /** Reads the file chunk by chunk until an empty read, and digests all of it. */
  method Sha256<D(!new)>(h: Hasher<D>, file: Bytes) returns (sum: string)
    requires Streams(h)
    ensures sum == DigestOf(h, file)
  {
    var digest, pos := h.start, 0;
    var chunk := Read(file);
    assert file[0..] == file && file[..0] == [];
    while chunk != []
      invariant 0 <= pos <= |file| && chunk == Read(file[pos..])
      invariant digest == h.update(h.start, file[..pos])
      decreases |file| - pos
    {
      NextRead(file, pos);
      Feeding(h, file[..pos], chunk);
      digest := h.update(digest, chunk);
      pos := pos + |chunk|;
      chunk := Read(file[pos..]);
    }
    NextRead(file, pos);
    assert file[..pos] == file;
    return h.finish(digest);
  }

  function Joined(chunks: seq<Bytes>): Bytes {
    if chunks == [] then [] else Joined(chunks[..|chunks| - 1]) + chunks[|chunks| - 1]
  }

  /** Where the task raises, if it does: before its first commit, after that commit
      but before the file is opened, after writing some of the pieces, or between
      the file and the last commit. */
  datatype Fault =
    | AtStart(message: string)
    | BeforeFile(message: string)
    | WhileWriting(message: string, written: nat)
    | AtEnd(message: string)

  /** The bytes an execution leaves in the report's file. */
  function Left(pieces: seq<Bytes>, fault: Option<Fault>): Bytes {
    if fault.Some? && fault.value.WhileWriting? && fault.value.written <= |pieces|
    then Joined(pieces[..fault.value.written]) else Joined(pieces)
  }

  /** The execution never opens the report's file. */
  predicate LeavesFile(fault: Option<Fault>) {
    fault.Some? && (fault.value.AtStart? || fault.value.BeforeFile?)
  }

  /** The world after one undisturbed execution for a known report: the row is
      Completed with the size and digest of exactly the pieces written, or Failed
      with the error's text, over whatever file was there if it had not been opened
      yet; no other row and no other file has changed. */
  function After(env: Env, w: World, id: string, pieces: seq<Bytes>, fault: Option<Fault>, now: nat): World
    requires Known(w, id)
  {
    var path := FileOf(env, w, id);
    var files := if LeavesFile(fault) then w.files else w.files[path := Left(pieces, fault)];
    var row := if fault.None? then
                 Report(Completed, Some(|Joined(pieces)|), Some(path), Some(env.sha(Joined(pieces))), None, Some(now))
               else w.reports[id].(status := Failed, error := Some(fault.value.message));
    w.(reports := w.reports[id := row], files := files)
  }

  /** Pieces are joined in their order. */
  lemma {:induction false} JoinedInOrder(a: seq<Bytes>, b: seq<Bytes>)
    ensures Joined(a + b) == Joined(a) + Joined(b) && forall piece :: Joined([piece]) == piece
  {
    if b == [] {
      assert a + b == a;
    } else {
      var most := b[..|b| - 1];
      assert (a + b)[..|a + b| - 1] == a + most;
      JoinedInOrder(a, most);
    }
    forall piece: Bytes ensures Joined([piece]) == piece {
      assert [piece][..0] == [];
    }
  }

  /** The outcome of an execution spelled out: a good run certifies all its pieces; a
      failed one keeps the row's other columns and leaves the old bytes, the pieces
      written so far, or all of them, by where it raised; nothing else changes. */
  lemma AfterMeaning(env: Env, w: World, id: string, pieces: seq<Bytes>, fault: Option<Fault>, now: nat)
    requires Known(w, id)
    requires fault.Some? && fault.value.WhileWriting? ==> fault.value.written <= |pieces|
    ensures var after, path := After(env, w, id, pieces, fault, now), env.dir + "/" + w.table.rows[id] + ".csv";
      && id in after.reports && after.reports.Keys == w.reports.Keys
      && (forall o | o in w.reports && o != id :: after.reports[o] == w.reports[o])
      && (forall p | p in w.files && p != path :: p in after.files && after.files[p] == w.files[p])
      && after.table == w.table && after.workers == w.workers && after.messages == w.messages
      && match fault
         case None =>
           && path in after.files && after.files[path] == Joined(pieces)
           && after.reports[id] == Report(Completed, Some(|Joined(pieces)|), Some(path), Some(env.sha(Joined(pieces))),
                                          None, Some(now))
         case Some(raised) =>
           && after.reports[id] == w.reports[id].(status := Failed, error := Some(raised.message))
           && (raised.AtStart? || raised.BeforeFile? ==> after.files == w.files)
           && (raised.WhileWriting? ==>
                 path in after.files && after.files[path] == Joined(pieces[..raised.written]))
           && (raised.AtEnd? ==> path in after.files && after.files[path] == Joined(pieces))
  {
  }

  class Task<D(!new)> {
    const env: Env
    const hasher: Hasher<D>
    var world: World

    constructor (env: Env, hasher: Hasher<D>, world: World)
      ensures this.env == env && this.hasher == hasher && this.world == world
    {
      this.env := env;
      this.hasher := hasher;
      this.world := world;
    }

    /** The hasher computes the digest that certificates carry. */
    ghost predicate Digests() {
      Streams(hasher) && forall file :: env.sha(file) == DigestOf(hasher, file)
    }

    method Do(m: Move)
      requires Possible(env, world, m)
      modifies this`world
      ensures world == Step(env, old(world), m)
    {
      world := Step(env, world, m);
    }

    /** Opens the file, dropping what it held, and writes the pieces one by one. */
    method WriteCsv(w: nat, id: string, pieces: seq<Bytes>)
      requires At(world, w, Started) && world.workers[w].report == id
      modifies this`world
      ensures Known(old(world), id)
      ensures world == Advance(old(world), w, Writing)
                         .(files := old(world).files[FileOf(env, old(world), id) := Joined(pieces)])
    {
      ghost var before := world;
      Do(Open(w));
      for i := 0 to |pieces|
        invariant Known(before, id)
        invariant world == Advance(before, w, Writing)
                             .(files := before.files[FileOf(env, before, id) := Joined(pieces[..i])])
      {
        assert pieces[..i + 1][..i] == pieces[..i];
        Do(Append(w, pieces[i]));
      }
      assert pieces[..|pieces|] == pieces;
    }

    /** The error path: the row is marked Failed and the worker is done. */
    method RecordFailure(w: nat, id: string, message: string, ghost others: map<nat, Worker>)
      requires w in world.workers && world.workers[w].report == id && Known(world, id)
      requires w !in others && world.workers - {w} == others
      modifies this`world
      ensures id in old(world).reports
      ensures world == old(world).(workers := others,
                         reports := old(world).reports[id := old(world).reports[id].(status := Failed, error := Some(message))])
    {
      Do(Fail(w, message));
    }

    /** The end of a good run: size, digest, and the completing commit. */
    method Conclude(w: nat, id: string, now: nat, ghost others: map<nat, Worker>)
      requires At(world, w, Writing) && world.workers[w].report == id && FileOf(env, world, id) in world.files
      requires w !in others && world.workers - {w} == others && Digests()
      modifies this`world
      ensures Known(old(world), id) && FileOf(env, old(world), id) in old(world).files
      ensures var path := FileOf(env, old(world), id);
              world == old(world).(workers := others,
                         reports := old(world).reports[id := Report(Completed, Some(|old(world).files[path]|), Some(path),
                                                                    Some(env.sha(old(world).files[path])), None, Some(now))])
    {
      Do(CloseFile(w));
      Do(Measure(w));
      var sum := Sha256(hasher, world.files[FileOf(env, world, id)]);
      Do(Digest(w));
      assert world.workers[w].stage.sum == sum;
      Do(Complete(w, now));
      assert world.workers == others;
    }

    /** One execution of the task for a report, with the pieces the query yields. */
    method Generate(w: nat, id: string, pieces: seq<Bytes>, fault: Option<Fault>, now: nat)
      requires Digests() && w !in world.workers && (id in world.reports <==> id in world.table.rows)
      requires id in world.messages && forall o | o in world.workers :: world.workers[o].report != id
      requires fault.Some? && fault.value.WhileWriting? ==> fault.value.written <= |pieces|
      modifies this`world
      ensures id !in old(world).reports ==> world == old(world)
      ensures id in old(world).reports ==> world == After(env, old(world), id, pieces, fault, now)
    {
      ghost var others := world.workers;
      Do(Deliver(w, id));
      if id in world.reports {
        Execute(w, id, pieces, fault, now, others);
      }
    }

    /** What follows once the row has been found. */
    method Execute(w: nat, id: string, pieces: seq<Bytes>, fault: Option<Fault>, now: nat, ghost others: map<nat, Worker>)
      requires Digests() && At(world, w, Loaded) && world.workers == others[w := Worker(id, Loaded)] && w !in others
      requires fault.Some? && fault.value.WhileWriting? ==> fault.value.written <= |pieces|
      modifies this`world
      ensures Known(old(world), id)
      ensures world == After(env, old(world), id, pieces, fault, now).(workers := others)
    {
      assert world.workers - {w} == others;
      if fault.Some? && fault.value.AtStart? {
        RecordFailure(w, id, fault.value.message, others);
        return;
      }
      Do(MarkRunning(w));
      assert world.workers - {w} == others;
      if fault.Some? && fault.value.BeforeFile? {
        RecordFailure(w, id, fault.value.message, others);
        return;
      }
      var writable := if fault.Some? && fault.value.WhileWriting? then pieces[..fault.value.written] else pieces;
      WriteCsv(w, id, writable);
      assert world.workers - {w} == others;
      if fault.Some? {
        RecordFailure(w, id, fault.value.message, others);
        return;
      }
      Conclude(w, id, now, others);
    }
  }
}
