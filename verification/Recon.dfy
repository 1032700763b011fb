/** The reconciliation figures. Three routes compute them separately, each with its
    own query over the same rows (app/modules/assurance/service.py,
    app/modules/operations/service.py, app/modules/meta/router.py). */
module Recon {
  import opened Prelude
  import opened Rounding
  import Decimal

  const MATCHED: string := "MATCHED"
  const AMOUNT_MISMATCH: string := "AMOUNT_MISMATCH"
  const RAW_ONLY: string := "RAW_ONLY"
  const PROC_ONLY: string := "PROC_ONLY"

  datatype Row = Row(status: Option<string>, raw: Option<real>, proc: Option<real>)

  /** `countIf(status = s)`: a null status is equal to nothing. */
  function CountOf(rows: seq<Row>, s: string): nat {
    if rows == [] then 0
    else CountOf(rows[..|rows| - 1], s) + (if rows[|rows| - 1].status == Some(s) then 1 else 0)
  }

  /** `countIf(status != s)`: a null status is not different from anything either. */
  function CountOther(rows: seq<Row>, s: string): nat {
    if rows == [] then 0
    else
      var last := rows[|rows| - 1].status;
      CountOther(rows[..|rows| - 1], s) + (if last.Some? && last.value != s then 1 else 0)
  }

  function Abs(x: real): real {
    if x < 0.0 then -x else x
  }

  function OrZero(x: Option<real>): real {
    if x.Some? then x.value else 0.0
  }

  /** What one row adds to the estimated leakage. */
  function Loss(row: Row): real {
    if row.status == Some(RAW_ONLY) then OrZero(row.raw)
    else if row.status == Some(AMOUNT_MISMATCH) then Abs(OrZero(row.raw) - OrZero(row.proc))
    else 0.0
  }

  function Leakage(rows: seq<Row>): real {
    if rows == [] then 0.0 else Leakage(rows[..|rows| - 1]) + Loss(rows[|rows| - 1])
  }

  function Hundredths(x: real): int {
    RoundHalfEven(x * 100.0)
  }

  function Round2(x: real): real {
    Hundredths(x) as real / 100.0
  }

  function Percent(matched: nat, total: nat): real {
    if total == 0 then 100.0 else matched as real / total as real * 100.0
  }

  // --- The three routes ------------------------------------------------------------------

  datatype Summary = Summary(
    total: nat, matched: nat, amountMismatch: nat, rawOnly: nat, procOnly: nat,
    matchRate: real, estimatedLeakage: real)

  function ReconSummary(rows: seq<Row>): Summary {
    Summary(|rows|, CountOf(rows, MATCHED), CountOf(rows, AMOUNT_MISMATCH), CountOf(rows, RAW_ONLY),
            CountOf(rows, PROC_ONLY), Round2(Percent(CountOf(rows, MATCHED), |rows|)), Round2(Leakage(rows)))
  }

  /** The failures of the pipeline page, counted by a query of their own. */
  function Failed24h(rows: seq<Row>): nat {
    CountOther(rows, MATCHED)
  }

  datatype Kpis = Kpis(assuredRevenue: real, matchRate: real, openLeakageRisk: real, criticalAlerts: nat)

  /** The dashboard's figures, derived from the summary. */
  function DashboardKpis(s: Summary): Kpis {
    var matchedAmount := s.total - s.amountMismatch - s.rawOnly - s.procOnly;
    Kpis(Round2(Max(matchedAmount, 0) as real), s.matchRate, s.estimatedLeakage, s.amountMismatch + s.rawOnly)
  }

  datatype Stage = Stage(key: string, name: string, status: string, duration: string, metric: string)

  const DASH: string := "\U{2014}"

  const STAGES: seq<Stage> := [
    Stage("collection", "File Collection", "ok", "1m 12s", DASH), Stage("decoding", "Decoding", "ok", "3m 47s", DASH),
    Stage("validation", "Validation", "ok", "2m 03s", DASH),
    Stage("reconciliation", "Reconciliation", "ok", "4m 21s", DASH),
    Stage("reporting", "Report Generation", "ok", "0m 58s", DASH)]

  /** A number of hundredths, with two decimals. */
  function TwoDecimals(h: nat): string {
    Decimal.Print(h / 100) + "." + [Decimal.Digit(h / 10 % 10), Decimal.Digit(h % 10)]
  }

  /** A number with thousands separators. */
  function Grouped(n: nat): string {
    if n < 1000 then Decimal.Print(n)
    else Grouped(n / 1000) + ","
         + [Decimal.Digit(n / 100 % 10), Decimal.Digit(n / 10 % 10), Decimal.Digit(n % 10)]
  }

  /** The percentage of matched rows. */
  function MatchPercent(rows: seq<Row>): real {
    Percent(CountOf(rows, MATCHED), |rows|)
  }

  /** The reconciliation stage the pipeline page shows for the rows. */
  function ReconStage(rows: seq<Row>): Stage {
    MatchPercentInRange(rows);
    Stage("reconciliation", "Reconciliation", if MatchPercent(rows) >= 99.0 then "ok" else "warning", "4m 21s",
          TwoDecimals(Hundredths(MatchPercent(rows))) + "% match")
  }

  /** The pipeline page: three entries of a copied list are overwritten. */
  method GetStages(rows: seq<Row>) returns (stages: seq<Stage>)
    ensures |stages| == |STAGES|
    ensures forall i | 0 <= i < |STAGES| && i != 1 && i != 3 :: stages[i] == STAGES[i]
    ensures stages[1] == Stage("decoding", "Decoding", "ok", "3m 47s", Grouped(|rows|) + " records")
    ensures stages[3] == ReconStage(rows)
  {
    var total, matched := |rows|, CountOf(rows, MATCHED);
    var percent := if total != 0 then matched as real / total as real * 100.0 else 100.0;
    MatchPercentInRange(rows);
    stages := STAGES;
    stages := stages[3 := stages[3].(metric := TwoDecimals(Hundredths(percent)) + "% match")];
    stages := stages[3 := stages[3].(status := if percent >= 99.0 then "ok" else "warning")];
    stages := stages[1 := stages[1].(metric := Grouped(total) + " records")];
  }

  /** Commas stand in every fourth place from the end, and nowhere else. */
  predicate GroupedByThree(s: string) {
    forall i | 0 <= i < |s| :: s[|s| - 1 - i] == ',' <==> i % 4 == 3
  }

  lemma AddGroup(g: string, a: char, b: char, c: char)
    requires GroupedByThree(g) && a != ',' && b != ',' && c != ','
    ensures GroupedByThree(g + "," + [a, b, c])
  {
    var s, n := g + "," + [a, b, c], |g|;
    assert s[n + 3] == c && s[n + 2] == b && s[n + 1] == a && s[n] == ',';
    forall i | 0 <= i < |s|
      ensures s[|s| - 1 - i] == ',' <==> i % 4 == 3
    {
      if i >= 4 {
        assert s[|s| - 1 - i] == g[n - 1 - (i - 4)] && (i - 4) % 4 == i % 4;
      } else {
        assert |s| - 1 - i == n + 3 - i;
      }
    }
  }

  lemma ShortPrint(n: nat)
    requires n < 1000
    ensures GroupedByThree(Decimal.Print(n))
  {
    assert n >= 10 ==> Decimal.Print(n) == Decimal.Print(n / 10) + [Decimal.Digit(n % 10)];
    assert n >= 100 ==> Decimal.Print(n / 10) == Decimal.Print(n / 100) + [Decimal.Digit(n / 10 % 10)];
  }

  /** The record count is printed in full, with a comma after every third digit from
      the end. */
  lemma {:induction false} GroupedIsPrint(n: nat)
    ensures Decimal.DigitsOf(Grouped(n)) == Decimal.Print(n) && GroupedByThree(Grouped(n))
  {
    if n < 1000 {
      Decimal.PrintIsDigits(n);
      ShortPrint(n);
    } else {
      GroupedIsPrint(n / 1000);
      AddGroup(Grouped(n / 1000), Decimal.Digit(n / 100 % 10), Decimal.Digit(n / 10 % 10), Decimal.Digit(n % 10));
      var g, a, b, c := Grouped(n / 1000), Decimal.Digit(n / 100 % 10), Decimal.Digit(n / 10 % 10), Decimal.Digit(n % 10);
      assert Grouped(n) == g + [','] + [a] + [b] + [c];
      Decimal.DigitsAppend(g, ',');
      Decimal.DigitsAppend(g + [','], a);
      Decimal.DigitsAppend(g + [','] + [a], b);
      Decimal.DigitsAppend(g + [','] + [a] + [b], c);
      assert n / 10 / 10 == n / 100 && n / 100 / 10 == n / 1000;
      assert Decimal.Print(n) == Decimal.Print(n / 10) + [c];
      assert Decimal.Print(n / 10) == Decimal.Print(n / 100) + [b];
      assert Decimal.Print(n / 100) == Decimal.Print(n / 1000) + [a];
    }
  }

  /** The rate is shown with two decimals and reads back as its number of hundredths. */
  lemma TwoDecimalsReadBack(h: nat)
    ensures var s := TwoDecimals(h);
      && |s| >= 4 && s[|s| - 3] == '.' && Decimal.Parse(Decimal.DigitsOf(s)) == h
  {
    var p, a, b := Decimal.Print(h / 100), h / 10 % 10, h % 10;
    TwoDecimalsDigits(h);
    Decimal.ParseAppend(p, a);
    Decimal.ParseAppend(p + [Decimal.Digit(a)], b);
    Decimal.ParsePrint(h / 100);
  }

  lemma TwoDecimalsDigits(h: nat)
    ensures Decimal.DigitsOf(TwoDecimals(h)) == Decimal.Print(h / 100) + [Decimal.Digit(h / 10 % 10)] + [Decimal.Digit(h % 10)]
  {
    var p, a, b := Decimal.Print(h / 100), Decimal.Digit(h / 10 % 10), Decimal.Digit(h % 10);
    assert TwoDecimals(h) == p + ['.'] + [a] + [b];
    Decimal.PrintIsDigits(h / 100);
    Decimal.DigitsAppend(p, '.');
    Decimal.DigitsAppend(p + ['.'], a);
    Decimal.DigitsAppend(p + ['.'] + [a], b);
  }

  // --- They agree ---------------------------------------------------------------------------

  predicate Unknown(s: Option<string>) {
    s.Some? && s.value != MATCHED && s.value != AMOUNT_MISMATCH && s.value != RAW_ONLY && s.value != PROC_ONLY
  }

  function CountUnknown(rows: seq<Row>): nat {
    if rows == [] then 0
    else CountUnknown(rows[..|rows| - 1]) + (if Unknown(rows[|rows| - 1].status) then 1 else 0)
  }

  function CountNull(rows: seq<Row>): nat {
    if rows == [] then 0
    else CountNull(rows[..|rows| - 1]) + (if rows[|rows| - 1].status.None? then 1 else 0)
  }

  lemma StatusesDiffer()
    ensures MATCHED != AMOUNT_MISMATCH && MATCHED != RAW_ONLY && MATCHED != PROC_ONLY
    ensures AMOUNT_MISMATCH != RAW_ONLY && AMOUNT_MISMATCH != PROC_ONLY && RAW_ONLY != PROC_ONLY
  {
    assert MATCHED[0] == 'M' && AMOUNT_MISMATCH[0] == 'A' && RAW_ONLY[0] == 'R' && PROC_ONLY[0] == 'P';
  }

  /** Every row is counted once: matched, one of the three anomalies, an unknown
      status, or none; and the failures are those that are neither matched nor null. */
  lemma {:induction false} Partition(rows: seq<Row>)
    ensures CountOf(rows, MATCHED) + CountOf(rows, AMOUNT_MISMATCH) + CountOf(rows, RAW_ONLY)
            + CountOf(rows, PROC_ONLY) + CountUnknown(rows) + CountNull(rows) == |rows|
    ensures Failed24h(rows) + CountOf(rows, MATCHED) + CountNull(rows) == |rows|
  {
    StatusesDiffer();
    if rows == [] {
    } else {
      Partition(rows[..|rows| - 1]);
    }
  }

  /** The pipeline's failures are the summary's unmatched rows exactly when no row
      has a null status. */
  lemma FailuresAgree(rows: seq<Row>)
    ensures Failed24h(rows) == ReconSummary(rows).total - ReconSummary(rows).matched
       <==> forall i | 0 <= i < |rows| :: rows[i].status.Some?
  {
    Partition(rows);
    NoNulls(rows);
  }

  lemma {:induction false} NoNulls(rows: seq<Row>)
    ensures CountNull(rows) == 0 <==> forall i | 0 <= i < |rows| :: rows[i].status.Some?
  {
    if rows == [] {
    } else {
      var most := rows[..|rows| - 1];
      NoNulls(most);
      assert forall i | 0 <= i < |most| :: most[i] == rows[i];
    }
  }

  lemma RoundOfWhole(n: int)
    ensures Round2(n as real) == n as real
  {
    var x := n as real * 100.0;
    assert x == (n * 100) as real;
    assert x.Floor == n * 100;
  }

  /** The dashboard against the other two: critical alerts are the failures apart from
      those only processed and those of unknown status, and the assured figure is the
      matched rows plus those of unknown or null status, so its clamp at zero never
      acts; rate and leakage are the summary's. */
  lemma DashboardAgrees(rows: seq<Row>)
    ensures var s, k := ReconSummary(rows), DashboardKpis(ReconSummary(rows));
      && k.criticalAlerts + s.procOnly + CountUnknown(rows) == Failed24h(rows)
      && k.assuredRevenue == (s.matched + CountUnknown(rows) + CountNull(rows)) as real
      && k.matchRate == s.matchRate && k.openLeakageRisk == s.estimatedLeakage
  {
    Partition(rows);
    RoundOfWhole(CountOf(rows, MATCHED) + CountUnknown(rows) + CountNull(rows));
  }

  /** The rows with a status, by position. */
  function Having(rows: seq<Row>, status: Option<string>): set<int> {
    set i | 0 <= i < |rows| && rows[i].status == status
  }

  /** Each count of the summary is the number of rows with exactly that status. */
  lemma {:induction false} CountOfIsNumber(rows: seq<Row>, s: string)
    ensures CountOf(rows, s) == |Having(rows, Some(s))|
  {
    if rows == [] {
    } else {
      var n := |rows| - 1;
      CountOfIsNumber(rows[..n], s);
      assert Having(rows, Some(s)) == Having(rows[..n], Some(s)) + (if rows[n].status == Some(s) then {n} else {});
    }
  }

  lemma {:induction false} CountNullIsNumber(rows: seq<Row>)
    ensures CountNull(rows) == |Having(rows, None)|
  {
    if rows == [] {
    } else {
      var n := |rows| - 1;
      CountNullIsNumber(rows[..n]);
      assert Having(rows, None) == Having(rows[..n], None) + (if rows[n].status == None then {n} else {});
    }
  }

  /** The summary in terms of the rows: its counts, and its rate and leakage to within
      half a hundredth. */
  lemma SummaryMeaning(rows: seq<Row>)
    ensures var s := ReconSummary(rows);
      && s.total == |rows|
      && s.matched == |Having(rows, Some("MATCHED"))| && s.amountMismatch == |Having(rows, Some("AMOUNT_MISMATCH"))|
      && s.rawOnly == |Having(rows, Some("RAW_ONLY"))| && s.procOnly == |Having(rows, Some("PROC_ONLY"))|
      && (if rows == [] then s.matchRate == 100.0
          else -0.005 <= s.matchRate - 100.0 * s.matched as real / s.total as real <= 0.005)
      && -0.005 <= s.estimatedLeakage - Leakage(rows) <= 0.005
  {
    CountOfIsNumber(rows, MATCHED);
    CountOfIsNumber(rows, AMOUNT_MISMATCH);
    CountOfIsNumber(rows, RAW_ONLY);
    CountOfIsNumber(rows, PROC_ONLY);
    RoundIsNear(MatchPercent(rows) * 100.0);
    RoundIsNear(Leakage(rows) * 100.0);
    if rows == [] {
      RoundOfWhole(100);
    } else {
      PercentTwoWays(CountOf(rows, MATCHED), |rows|);
    }
  }

  lemma PercentTwoWays(matched: nat, total: nat)
    requires total > 0
    ensures Percent(matched, total) == 100.0 * matched as real / total as real
  {
  }

  lemma PercentInRange(matched: nat, total: nat)
    requires matched <= total
    ensures 0.0 <= Percent(matched, total) <= 100.0
  {
    if total > 0 {
      assert 0.0 <= matched as real / total as real <= 1.0;
    }
  }

  lemma MatchPercentInRange(rows: seq<Row>)
    ensures 0.0 <= MatchPercent(rows) <= 100.0 && 0 <= Hundredths(MatchPercent(rows)) <= 10000
  {
    Partition(rows);
    PercentInRange(CountOf(rows, MATCHED), |rows|);
    RoundIsMonotone(0.0, MatchPercent(rows) * 100.0);
    RoundIsMonotone(MatchPercent(rows) * 100.0, 10000.0);
  }

  /** The shown match rate is between 0 and 100. */
  lemma MatchRateInRange(rows: seq<Row>)
    ensures 0.0 <= ReconSummary(rows).matchRate <= 100.0
  {
    MatchPercentInRange(rows);
  }

  lemma RoundReaches99(percent: real)
    ensures Round2(percent) >= 99.0 <==> percent >= 98.995
  {
    var x := percent * 100.0;
    if percent >= 98.995 {
      RoundIsMonotone(9899.5, x);
    } else {
      assert x < 9899.5;
      assert x.Floor <= 9899;
    }
  }

  /** The stage against the summary's match rate, computed apart from the same rows:
      both show the same hundredths; a stage that is ok shows at least 99, and one
      that shows at least 99 is still a warning exactly when the unrounded rate is
      in [98.995, 99). */
  lemma StageAgainstRate(rows: seq<Row>)
    ensures var stage, rate := ReconStage(rows), ReconSummary(rows).matchRate;
      && (exists h: nat :: rate == h as real / 100.0 && stage.metric == TwoDecimals(h) + "% match")
      && (stage.status == "ok" ==> rate >= 99.0)
      && (stage.status == "warning" && rate >= 99.0 <==> 98.995 <= MatchPercent(rows) < 99.0)
  {
    MatchPercentInRange(rows);
    RoundReaches99(MatchPercent(rows));
    var h: nat := Hundredths(MatchPercent(rows));
    assert ReconStage(rows).metric == TwoDecimals(h) + "% match";
    assert "ok" != "warning" by { assert |"ok"| == 2 && |"warning"| == 7; }
  }

  /** Matched rows, followed by rows that are not. */
  function Sample(matched: nat, others: nat): seq<Row> {
    if others > 0 then Sample(matched, others - 1) + [Row(Some(RAW_ONLY), None, None)]
    else if matched > 0 then Sample(matched - 1, 0) + [Row(Some(MATCHED), None, None)]
    else []
  }

  lemma {:induction false} SampleCounts(matched: nat, others: nat)
    ensures |Sample(matched, others)| == matched + others
    ensures CountOf(Sample(matched, others), MATCHED) == matched
    decreases matched + others
  {
    StatusesDiffer();
    var rows := Sample(matched, others);
    if others > 0 {
      SampleCounts(matched, others - 1);
      assert rows[..|rows| - 1] == Sample(matched, others - 1);
    } else if matched > 0 {
      SampleCounts(matched - 1, 0);
      assert rows[..|rows| - 1] == Sample(matched - 1, 0);
    }
  }

  /** Such rows: 296 of 299 match, the page shows 99.00% and a warning. */
  lemma WarningAt99()
    ensures var rows := Sample(296, 3);
            ReconStage(rows).status == "warning" && ReconSummary(rows).matchRate == 99.0
  {
    SampleCounts(296, 3);
    var percent := MatchPercent(Sample(296, 3));
    assert percent == 296.0 / 299.0 * 100.0 && 98.995 <= percent < 99.0;
    RoundIsMonotone(9899.5, percent * 100.0);
    RoundIsMonotone(percent * 100.0, 9900.0);
  }

  // --- Leakage ------------------------------------------------------------------------------

  /** `sumIf(raw, status = 'RAW_ONLY')`: missing amounts are zero. */
  function RawOnlySum(rows: seq<Row>): real {
    if rows == [] then 0.0
    else
      var last := rows[|rows| - 1];
      RawOnlySum(rows[..|rows| - 1])
      + (if last.status == Some("RAW_ONLY") && last.raw.Some? then last.raw.value else 0.0)
  }

  /** `sumIf(abs(raw - proc), status = 'AMOUNT_MISMATCH')`. */
  function MismatchSum(rows: seq<Row>): real {
    if rows == [] then 0.0
    else
      var last := rows[|rows| - 1];
      var raw, proc := if last.raw.Some? then last.raw.value else 0.0, if last.proc.Some? then last.proc.value else 0.0;
      MismatchSum(rows[..|rows| - 1])
      + (if last.status != Some("AMOUNT_MISMATCH") then 0.0 else if raw < proc then proc - raw else raw - proc)
  }

  /** The leakage is the query's two conditional sums; no other row adds to it. */
  lemma {:induction false} LeakageIsTwoSums(rows: seq<Row>)
    ensures Leakage(rows) == RawOnlySum(rows) + MismatchSum(rows)
  {
    StatusesDiffer();
    if rows == [] {
    } else {
      LeakageIsTwoSums(rows[..|rows| - 1]);
    }
  }

  /** Leakage adds up over any split of the rows. */
  lemma {:induction false} LeakageIsAdditive(a: seq<Row>, b: seq<Row>)
    ensures Leakage(a + b) == Leakage(a) + Leakage(b)
  {
    if b == [] {
      assert a + b == a;
    } else {
      var c := b[..|b| - 1];
      assert (a + b)[..|a + b| - 1] == a + c;
      LeakageIsAdditive(a, c);
    }
  }

  /** And it does not depend on the order in which the query yields them. */
  lemma {:induction false} LeakageIgnoresOrder(a: seq<Row>, b: seq<Row>)
    requires multiset(a) == multiset(b)
    ensures Leakage(a) == Leakage(b)
  {
    if a == [] {
      assert |multiset(b)| == 0;
    } else {
      var n := |a| - 1;
      var x := a[n];
      assert a == a[..n] + [x];
      assert x in multiset(b);
      var i :| 0 <= i < |b| && b[i] == x;
      var rest := b[..i] + b[i + 1..];
      assert b == b[..i] + [x] + b[i + 1..];
      assert multiset(a) == multiset(a[..n]) + multiset{x};
      assert multiset(b) == multiset(b[..i]) + multiset{x} + multiset(b[i + 1..]);
      assert multiset(rest) == multiset(b[..i]) + multiset(b[i + 1..]);
      assert multiset(a[..n]) == multiset(a) - multiset{x};
      assert multiset(rest) == multiset(b) - multiset{x};
      LeakageIgnoresOrder(a[..n], rest);
      LeakageIsAdditive(b[..i], b[i + 1..]);
      LeakageIsAdditive(b[..i] + [x], b[i + 1..]);
      LeakageIsAdditive(b[..i], [x]);
      assert [x][..0] == [];
    }
  }
}
