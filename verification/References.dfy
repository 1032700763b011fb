/** Human-readable reference numbers for reports, cases and saved queries. Each
    creation counts the committed rows and inserts the next number under a unique
    index, with no lock between the two (app/modules/reporting/service.py,
    app/modules/assurance/service.py). */
module References {
  import opened Prelude
  import Decimal

  datatype Series = Series(prefix: string, base: nat)

  const REPORTS := Series("RPT-", 9900)
  const CASES := Series("CASE-", 2000)
  const QUERIES := Series("Q-", 500)

  /** The n-th reference of a series. */
  function Reference(s: Series, n: nat): string {
    s.prefix + Decimal.Print(s.base + n)
  }

  lemma ReferenceInjective(s: Series, a: nat, b: nat)
    requires Reference(s, a) == Reference(s, b)
    ensures a == b
  {
    assert Reference(s, a)[|s.prefix|..] == Decimal.Print(s.base + a);
    assert Reference(s, b)[|s.prefix|..] == Decimal.Print(s.base + b);
    Decimal.PrintInjective(s.base + a, s.base + b);
  }

  /** The number in a reference: what is printed after the prefix. */
  function NumberIn(s: Series, reference: string): int {
    if s.prefix <= reference then Decimal.Parse(reference[|s.prefix|..]) else 0
  }

  lemma NumberOfReference(s: Series, n: nat)
    ensures s.prefix <= Reference(s, n) && NumberIn(s, Reference(s, n)) == s.base + n
  {
    assert Reference(s, n)[|s.prefix|..] == Decimal.Print(s.base + n);
    Decimal.ParsePrint(s.base + n);
  }

  // --- Requests ---------------------------------------------------------------------

  /** A creation has counted `count` rows; or it has also inserted its row, which
      is not committed yet but holds its place in the unique index. */
  datatype Phase = Counted(count: nat) | Inserted(count: nat, id: string)

  /** Committed rows by primary key, and the creations under way. */
  datatype State = State(rows: map<string, string>, requests: map<nat, Phase>)

  datatype Move = Count(t: nat) | Insert(t: nat, id: string) | Conflict(t: nat) | Commit(t: nat) | Abort(t: nat)

  function Refs(rows: map<string, string>): set<string> {
    set id | id in rows :: rows[id]
  }

  function Wanted(s: Series, p: Phase): string {
    Reference(s, p.count + 1)
  }

  /** Another creation has inserted the same reference and not yet finished: the
      insert waits for it. */
  predicate Blocked(s: Series, st: State, t: nat)
    requires t in st.requests
  {
    exists o :: o in st.requests && o != t && st.requests[o].Inserted?
                && Wanted(s, st.requests[o]) == Wanted(s, st.requests[t])
  }

  predicate Unused(st: State, id: string) {
    id !in st.rows && forall o | o in st.requests && st.requests[o].Inserted? :: st.requests[o].id != id
  }

  predicate Possible(s: Series, st: State, m: Move) {
    match m
    case Count(t) => t !in st.requests
    case Insert(t, id) =>
      && t in st.requests && st.requests[t].Counted? && !Blocked(s, st, t)
      && Wanted(s, st.requests[t]) !in Refs(st.rows) && Unused(st, id)
    case Conflict(t) =>
      && t in st.requests && st.requests[t].Counted? && !Blocked(s, st, t)
      && Wanted(s, st.requests[t]) in Refs(st.rows)
    case Commit(t) => t in st.requests && st.requests[t].Inserted?
    case Abort(t) => t in st.requests
  }

  function Step(s: Series, st: State, m: Move): State
    requires Possible(s, st, m)
  {
    match m
    case Count(t) => st.(requests := st.requests[t := Counted(|st.rows|)])
    case Insert(t, id) => st.(requests := st.requests[t := Inserted(st.requests[t].count, id)])
    case Conflict(t) => st.(requests := st.requests - {t})
    case Commit(t) => State(st.rows[st.requests[t].id := Wanted(s, st.requests[t])], st.requests - {t})
    case Abort(t) => st.(requests := st.requests - {t})
  }

  datatype Run = Run(states: seq<State>, moves: seq<Move>)

  ghost predicate Follows(s: Series, r: Run) {
    && |r.states| == |r.moves| + 1
    && forall i | 0 <= i < |r.moves| ::
         Possible(s, r.states[i], r.moves[i]) && r.states[i + 1] == Step(s, r.states[i], r.moves[i])
  }

  ghost predicate IsRun(s: Series, r: Run) {
    Follows(s, r) && Dense(s, r.states[0]) && r.states[0].requests == map[]
  }

  // --- No gaps, no duplicates ---------------------------------------------------------

  predicate Distinct(rows: map<string, string>) {
    forall a, b | a in rows && b in rows && rows[a] == rows[b] :: a == b
  }

  predicate PhaseOk(s: Series, low: nat, st: State, p: Phase) {
    match p
    case Counted(c) => low <= c <= |st.rows|
    case Inserted(c, id) => c == |st.rows| && id !in st.rows && Wanted(s, p) !in Refs(st.rows)
  }

  /** References are distinct, and from number `low` on there are no gaps; at most
      one creation has inserted its row, under the next number. */
  predicate Filled(s: Series, low: nat, st: State) {
    && (forall k | low < k <= |st.rows| :: Reference(s, k) in Refs(st.rows))
    && Distinct(st.rows)
    && (forall t | t in st.requests :: PhaseOk(s, low, st, st.requests[t]))
    && (forall a, b | a in st.requests && b in st.requests
                      && st.requests[a].Inserted? && st.requests[b].Inserted? :: a == b)
  }

  predicate Dense(s: Series, st: State) {
    Filled(s, 0, st)
  }

  lemma AddDistinct(rows: map<string, string>, id: string, ref: string)
    requires Distinct(rows) && ref !in Refs(rows)
    ensures Distinct(rows[id := ref])
  {
    var after := rows[id := ref];
    forall a, b | a in after && b in after && after[a] == after[b]
      ensures a == b
    {
      assert a != id ==> rows[a] in Refs(rows);
      assert b != id ==> rows[b] in Refs(rows);
    }
  }

  lemma AddRef(rows: map<string, string>, id: string, ref: string)
    requires id !in rows
    ensures Refs(rows[id := ref]) == Refs(rows) + {ref} && |rows[id := ref]| == |rows| + 1
  {
    var after := rows[id := ref];
    assert after[id] == ref;
    forall k | k in rows ensures after[k] == rows[k] {}
  }

  lemma CommitKeepsFilled(s: Series, low: nat, st: State, t: nat)
    requires Filled(s, low, st) && Possible(s, st, Commit(t))
    ensures Filled(s, low, Step(s, st, Commit(t)))
  {
    var p, st' := st.requests[t], Step(s, st, Commit(t));
    assert PhaseOk(s, low, st, p);
    AddRef(st.rows, p.id, Wanted(s, p));
    AddDistinct(st.rows, p.id, Wanted(s, p));
    assert st'.rows == st.rows[p.id := Wanted(s, p)];
    forall o | o in st'.requests
      ensures PhaseOk(s, low, st', st'.requests[o])
    {
      assert o in st.requests && PhaseOk(s, low, st, st.requests[o]);
      assert st.requests[o].Counted?;
    }
    forall k | low < k <= |st'.rows|
      ensures Reference(s, k) in Refs(st'.rows)
    {
      assert k <= |st.rows| || k == p.count + 1;
    }
  }

  lemma StepKeepsFilled(s: Series, low: nat, st: State, m: Move)
    requires Filled(s, low, st) && Possible(s, st, m) && low <= |st.rows|
    ensures Filled(s, low, Step(s, st, m)) && |st.rows| <= |Step(s, st, m).rows|
  {
    match m
    case Commit(t) =>
      CommitKeepsFilled(s, low, st, t);
      assert PhaseOk(s, low, st, st.requests[t]);
    case Insert(t, id) =>
      assert PhaseOk(s, low, st, st.requests[t]);
      forall o | o in st.requests && o != t
        ensures !st.requests[o].Inserted?
      {
        assert PhaseOk(s, low, st, st.requests[o]);
      }
    case _ =>
  }

  lemma StepKeepsDense(s: Series, st: State, m: Move)
    requires Dense(s, st) && Possible(s, st, m)
    ensures Dense(s, Step(s, st, m))
  {
    StepKeepsFilled(s, 0, st, m);
  }

  lemma {:induction false} DenseAlong(s: Series, states: seq<State>, i: nat)
    requires i < |states| && Dense(s, states[0])
    requires forall j | 0 <= j < i && Dense(s, states[j]) :: Dense(s, states[j + 1])
    ensures Dense(s, states[i])
  {
    if i == 0 {
    } else {
      DenseAlong(s, states, i - 1);
      assert Dense(s, states[i - 1 + 1]);
    }
  }

  lemma AlwaysDense(s: Series, r: Run, i: nat)
    requires IsRun(s, r) && i < |r.states|
    ensures Dense(s, r.states[i])
  {
    forall j | 0 <= j < i && Dense(s, r.states[j])
      ensures Dense(s, r.states[j + 1])
    {
      StepKeepsDense(s, r.states[j], r.moves[j]);
    }
    DenseAlong(s, r.states, i);
  }

  /** The first n references of a series. */
  function First(s: Series, n: nat): set<string> {
    set k | 1 <= k <= n :: Reference(s, k)
  }

  lemma InFirst(s: Series, n: nat, k: nat)
    requires k >= 1
    ensures Reference(s, k) in First(s, n) <==> k <= n
  {
    if Reference(s, k) in First(s, n) {
      var j :| 1 <= j <= n && Reference(s, j) == Reference(s, k);
      ReferenceInjective(s, j, k);
    }
  }

  lemma {:induction false} FirstSize(s: Series, n: nat)
    ensures |First(s, n)| == n
  {
    if n == 0 {
      assert First(s, 0) == {};
    } else {
      FirstSize(s, n - 1);
      InFirst(s, n - 1, n);
      assert First(s, n) == First(s, n - 1) + {Reference(s, n)};
    }
  }

  function RefsOf(rows: map<string, string>, ids: set<string>): set<string>
    requires ids <= rows.Keys
  {
    set id | id in ids :: rows[id]
  }

  lemma {:induction false} SomeRefsSize(rows: map<string, string>, ids: set<string>)
    requires Distinct(rows) && ids <= rows.Keys
    ensures |RefsOf(rows, ids)| == |ids|
    decreases |ids|
  {
    if |ids| == 0 {
      assert RefsOf(rows, ids) == {};
    } else {
      var id := Member(ids);
      SomeRefsSize(rows, ids - {id});
      assert rows[id] !in RefsOf(rows, ids - {id});
      assert RefsOf(rows, ids) == RefsOf(rows, ids - {id}) + {rows[id]};
    }
  }

  lemma RefsSize(rows: map<string, string>)
    requires Distinct(rows)
    ensures |Refs(rows)| == |rows|
  {
    SomeRefsSize(rows, rows.Keys);
    assert Refs(rows) == RefsOf(rows, rows.Keys);
  }

  lemma SameSizeSubset<T>(a: set<T>, b: set<T>)
    requires a <= b && |a| == |b|
    ensures a == b
  {
    assert |b - a| == |b| - |a|;
  }

  /** References without gaps are exactly the first ones. */
  lemma DenseMeans(s: Series, rows: map<string, string>)
    requires Distinct(rows)
    ensures (forall k | 0 < k <= |rows| :: Reference(s, k) in Refs(rows)) <==> Refs(rows) == First(s, |rows|)
  {
    FirstSize(s, |rows|);
    RefsSize(rows);
    if forall k | 0 < k <= |rows| :: Reference(s, k) in Refs(rows) {
      assert First(s, |rows|) <= Refs(rows);
      SameSizeSubset(First(s, |rows|), Refs(rows));
    }
    if Refs(rows) == First(s, |rows|) {
      forall k | 0 < k <= |rows| ensures Reference(s, k) in Refs(rows) { InFirst(s, |rows|, k); }
    }
  }

  /** The numbers in the references of the rows. */
  function Numbers(s: Series, rows: map<string, string>): set<int> {
    set id | id in rows :: NumberIn(s, rows[id])
  }

  lemma FirstNumbers(s: Series, rows: map<string, string>)
    requires Refs(rows) == First(s, |rows|)
    ensures forall k: int :: k in Numbers(s, rows) <==> s.base + 1 <= k <= s.base + |rows|
    ensures forall id | id in rows :: s.prefix <= rows[id]
  {
    forall id | id in rows
      ensures s.prefix <= rows[id] && s.base + 1 <= NumberIn(s, rows[id]) <= s.base + |rows|
    {
      assert rows[id] in First(s, |rows|);
      var n :| 1 <= n <= |rows| && rows[id] == Reference(s, n);
      NumberOfReference(s, n);
    }
    forall k: int | s.base + 1 <= k <= s.base + |rows|
      ensures k in Numbers(s, rows)
    {
      NumberOfReference(s, k - s.base);
      InFirst(s, |rows|, k - s.base);
      assert Reference(s, k - s.base) in Refs(rows);
    }
  }

  /** In every interleaving of creations, conflicts and aborts, the committed
      references are exactly the first ones of the series, each held by one row:
      prefix and number, the numbers being those after the base without a gap. */
  lemma GapFree(s: Series, r: Run, i: nat)
    requires IsRun(s, r) && i < |r.states|
    ensures Refs(r.states[i].rows) == First(s, |r.states[i].rows|) && Distinct(r.states[i].rows)
    ensures forall id | id in r.states[i].rows :: s.prefix <= r.states[i].rows[id]
    ensures forall k: int :: k in Numbers(s, r.states[i].rows) <==> s.base + 1 <= k <= s.base + |r.states[i].rows|
  {
    AlwaysDense(s, r, i);
    DenseMeans(s, r.states[i].rows);
    FirstNumbers(s, r.states[i].rows);
  }

  /** A creation that commits adds one row, whose number is the base plus the number
      of rows there then are. */
  lemma NextNumber(s: Series, r: Run, i: nat)
    requires IsRun(s, r) && i < |r.moves| && r.moves[i].Commit?
    ensures var before, after := r.states[i].rows, r.states[i + 1].rows;
      && |after| == |before| + 1
      && exists id :: id in after && id !in before && after == before[id := after[id]]
                      && NumberIn(s, after[id]) == s.base + |after|
  {
    AlwaysDense(s, r, i);
    var st, t := r.states[i], r.moves[i].t;
    assert PhaseOk(s, 0, st, st.requests[t]);
    var id := st.requests[t].id;
    AddRef(st.rows, id, Wanted(s, st.requests[t]));
    NumberOfReference(s, |st.rows| + 1);
    assert r.states[i + 1].rows[id] == Reference(s, |st.rows| + 1);
  }

  /** The insert of a creation is refused exactly when a row has been committed
      since it counted. */
  lemma ConflictIffOvertaken(s: Series, r: Run, i: nat, t: nat)
    requires IsRun(s, r) && i < |r.states| && t in r.states[i].requests && r.states[i].requests[t].Counted?
    ensures Wanted(s, r.states[i].requests[t]) in Refs(r.states[i].rows)
       <==> r.states[i].requests[t].count < |r.states[i].rows|
  {
    AlwaysDense(s, r, i);
    GapFree(s, r, i);
    var st := r.states[i];
    assert PhaseOk(s, 0, st, st.requests[t]);
    InFirst(s, |st.rows|, st.requests[t].count + 1);
  }

  /** Rows only appear, and only when a creation commits. */
  lemma {:induction false} Overtaker(s: Series, r: Run, i: nat, j: nat) returns (k: nat)
    requires IsRun(s, r) && i <= j < |r.states|
    requires |r.states[i].rows| < |r.states[j].rows|
    ensures i <= k < j && r.moves[k].Commit?
    ensures |r.states[k].rows| == |r.states[i].rows| < |r.states[k + 1].rows|
    decreases j - i
  {
    k := i;
    AlwaysDense(s, r, i);
    OnlyCommitsAdd(s, r.states[i], r.moves[i]);
    if |r.states[i + 1].rows| == |r.states[i].rows| {
      k := Overtaker(s, r, i + 1, j);
    }
  }

  lemma OnlyCommitsAdd(s: Series, st: State, m: Move)
    requires Dense(s, st) && Possible(s, st, m)
    ensures var after := Step(s, st, m).rows;
            |after| == |st.rows| || (m.Commit? && |after| == |st.rows| + 1)
  {
    if m.Commit? {
      assert PhaseOk(s, 0, st, st.requests[m.t]);
    }
  }

  /** Each conflict is charged to another creation's success: between the count and
      the refused insert some other creation committed exactly the reference that
      was wanted. */
  lemma ConflictIsCharged(s: Series, r: Run, i: nat, j: nat, t: nat) returns (k: nat)
    requires IsRun(s, r) && i < j < |r.moves|
    requires r.moves[i] == Count(t) && r.moves[j] == Conflict(t)
    requires forall l | i < l <= j :: t in r.states[l].requests && r.states[l].requests[t] == r.states[i + 1].requests[t]
    ensures i < k < j && r.moves[k].Commit? && r.moves[k].t != t
    ensures var wanted := Wanted(s, r.states[j].requests[t]);
            wanted !in Refs(r.states[k].rows) && wanted in Refs(r.states[k + 1].rows)
  {
    ConflictIffOvertaken(s, r, j, t);
    assert r.states[i + 1].requests[t] == Counted(|r.states[i].rows|);
    k := Overtaker(s, r, i + 1, j);
    GapFree(s, r, k);
    GapFree(s, r, k + 1);
    var n := |r.states[i].rows|;
    InFirst(s, n, n + 1);
    InFirst(s, |r.states[k + 1].rows|, n + 1);
    assert r.states[k].requests[t] == r.states[i + 1].requests[t];
  }

  // --- When numbering goes on without end -------------------------------------------------

  /** Rows with distinct references of the series, whichever their numbers. */
  ghost predicate Numbered(s: Series, rows: map<string, string>) {
    Distinct(rows) && forall id | id in rows :: exists k: nat :: k >= 1 && rows[id] == Reference(s, k)
  }

  /** No stored number exceeds the number of rows. */
  ghost predicate WithinCount(s: Series, rows: map<string, string>) {
    forall k: nat | k > |rows| :: Reference(s, k) !in Refs(rows)
  }

  /** Some run that starts with these rows reaches `n` rows. */
  ghost predicate Reaches(s: Series, rows: map<string, string>, n: nat) {
    exists r: Run :: Follows(s, r) && r.states[0] == State(rows, map[]) && |r.states[|r.moves|].rows| == n
  }

  /** Creations succeed without end. */
  ghost predicate Endless(s: Series, rows: map<string, string>) {
    forall n: nat | n >= |rows| :: Reaches(s, rows, n)
  }

  /** The table is stuck below the stored number `k`. */
  predicate Below(s: Series, low: nat, k: nat, st: State) {
    Filled(s, low, st) && low <= |st.rows| < k && Reference(s, k) in Refs(st.rows)
  }

  lemma CommitStaysBelow(s: Series, low: nat, k: nat, st: State, t: nat)
    requires Below(s, low, k, st) && Possible(s, st, Commit(t))
    ensures Below(s, low, k, Step(s, st, Commit(t)))
  {
    CommitKeepsFilled(s, low, st, t);
    var p := st.requests[t];
    assert PhaseOk(s, low, st, p);
    AddRef(st.rows, p.id, Wanted(s, p));
  }

  lemma StepStaysBelow(s: Series, low: nat, k: nat, st: State, m: Move)
    requires Below(s, low, k, st) && Possible(s, st, m)
    ensures Below(s, low, k, Step(s, st, m))
  {
    if m.Commit? {
      CommitStaysBelow(s, low, k, st, m.t);
    } else {
      StepKeepsFilled(s, low, st, m);
    }
  }

  lemma {:induction false} BelowAlong(s: Series, low: nat, k: nat, states: seq<State>, i: nat)
    requires i < |states| && Below(s, low, k, states[0])
    requires forall j | 0 <= j < i && Below(s, low, k, states[j]) :: Below(s, low, k, states[j + 1])
    ensures Below(s, low, k, states[i])
  {
    if i == 0 {
    } else {
      BelowAlong(s, low, k, states, i - 1);
      assert Below(s, low, k, states[i - 1 + 1]);
    }
  }

  /** A stored number above the row count stops the numbering for good just below
      it: however creations interleave, the table never holds that many rows. */
  lemma NeverReaches(s: Series, r: Run, i: nat, k: nat)
    requires Follows(s, r) && i < |r.states|
    requires r.states[0].requests == map[] && Distinct(r.states[0].rows)
    requires |r.states[0].rows| < k && Reference(s, k) in Refs(r.states[0].rows)
    ensures |r.states[0].rows| <= |r.states[i].rows| < k && Reference(s, k) in Refs(r.states[i].rows)
  {
    var low := |r.states[0].rows|;
    assert Filled(s, low, r.states[0]);
    forall j | 0 <= j < i && Below(s, low, k, r.states[j])
      ensures Below(s, low, k, r.states[j + 1])
    {
      StepStaysBelow(s, low, k, r.states[j], r.moves[j]);
    }
    BelowAlong(s, low, k, r.states, i);
  }

  /** A primary key that is not in use. */
  lemma {:induction false} LongerThanAll(keys: set<string>) returns (n: nat)
    ensures forall k | k in keys :: |k| < n
    decreases |keys|
  {
    if |keys| == 0 {
      n := 0;
    } else {
      var key := Member(keys);
      n := LongerThanAll(keys - {key});
      assert forall k | k in keys :: k == key || k in keys - {key};
      n := if n <= |key| then |key| + 1 else n;
    }
  }

  lemma Extend(s: Series, r: Run, m: Move) returns (r': Run)
    requires Follows(s, r) && Possible(s, r.states[|r.moves|], m)
    ensures Follows(s, r') && r'.states[0] == r.states[0]
    ensures |r'.moves| == |r.moves| + 1 && r'.states[|r'.moves|] == Step(s, r.states[|r.moves|], m)
  {
    r' := Run(r.states + [Step(s, r.states[|r.moves|], m)], r.moves + [m]);
  }

  /** A table without gaps takes one more creation. */
  lemma OneMore(s: Series, r: Run) returns (r': Run)
    requires Follows(s, r) && Dense(s, r.states[|r.moves|]) && r.states[|r.moves|].requests == map[]
    ensures Follows(s, r') && r'.states[0] == r.states[0]
    ensures var st, st' := r.states[|r.moves|], r'.states[|r'.moves|];
            Dense(s, st') && st'.requests == map[] && |st'.rows| == |st.rows| + 1
  {
    var st := r.states[|r.moves|];
    var n := LongerThanAll(st.rows.Keys);
    var id := seq(n, _ => 'x');
    assert id !in st.rows;
    DenseMeans(s, st.rows);
    InFirst(s, |st.rows|, |st.rows| + 1);
    var r1 := Extend(s, r, Count(0));
    var r2 := Extend(s, r1, Insert(0, id));
    r' := Extend(s, r2, Commit(0));
    StepKeepsDense(s, st, Count(0));
    StepKeepsDense(s, r1.states[|r1.moves|], Insert(0, id));
    StepKeepsDense(s, r2.states[|r2.moves|], Commit(0));
    AddRef(st.rows, id, Reference(s, |st.rows| + 1));
  }

  lemma {:induction false} Growing(s: Series, rows: map<string, string>, m: nat) returns (r: Run)
    requires Dense(s, State(rows, map[]))
    ensures Follows(s, r) && r.states[0] == State(rows, map[])
    ensures var st := r.states[|r.moves|]; Dense(s, st) && st.requests == map[] && |st.rows| == |rows| + m
  {
    if m == 0 {
      r := Run([State(rows, map[])], []);
    } else {
      r := Growing(s, rows, m - 1);
      r := OneMore(s, r);
    }
  }

  /** A table of references of the series takes creations without end if and only if
      no stored number exceeds the number of its rows; otherwise it fills up to just
      below that number at most. */
  lemma EndlessIffWithinCount(s: Series, rows: map<string, string>)
    requires Numbered(s, rows)
    ensures Endless(s, rows) <==> WithinCount(s, rows)
  {
    if WithinCount(s, rows) {
      forall n: nat | n >= |rows|
        ensures Reaches(s, rows, n)
      {
        WithinCountIsDense(s, rows);
        var r := Growing(s, rows, n - |rows|);
        assert Follows(s, r);
      }
    } else {
      var k: nat :| k > |rows| && Reference(s, k) in Refs(rows);
      BlockedAt(s, rows, k);
    }
  }

  lemma BlockedAt(s: Series, rows: map<string, string>, k: nat)
    requires Distinct(rows) && k > |rows| && Reference(s, k) in Refs(rows)
    ensures !Reaches(s, rows, k)
  {
    if r: Run :| Follows(s, r) && r.states[0] == State(rows, map[]) && |r.states[|r.moves|].rows| == k {
      NeverReaches(s, r, |r.moves|, k);
    }
  }

  lemma WithinCountIsDense(s: Series, rows: map<string, string>)
    requires Numbered(s, rows) && WithinCount(s, rows)
    ensures Dense(s, State(rows, map[]))
  {
    forall ref | ref in Refs(rows)
      ensures ref in First(s, |rows|)
    {
      var id :| id in rows && rows[id] == ref;
      var k: nat :| k >= 1 && rows[id] == Reference(s, k);
      assert k <= |rows|;
    }
    FirstSize(s, |rows|);
    RefsSize(rows);
    SameSizeSubset(Refs(rows), First(s, |rows|));
    DenseMeans(s, rows);
  }

  /** Reports, cases and saved queries each number their rows in a series. */
  lemma FirstReferences()
    ensures Reference(REPORTS, 1) == "RPT-9901" && Reference(CASES, 1) == "CASE-2001" && Reference(QUERIES, 1) == "Q-501"
  {
  }
}
