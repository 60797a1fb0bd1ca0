/** The engine's input records (a routing row, a purchased-part row), the rate tables
    both editions ship with, and `sort_values("Step")` on a routing. */
module Routing {

  /** One row of the routing table: the twelve routing columns. */
  datatype RoutingStep = RoutingStep(
    step: real,              // Step: processing order
    proces: string,          // Proces: process name, key into the machine rates
    qtyPerParent: real,      // Qty_per_parent (carried, not used by the engine)
    cycleMin: real,          // Cycle_min per unit
    setupMin: real,          // Setup_min per batch
    attendPct: real,         // Attend_pct, operator attendance in percent
    kwhPc: real,             // kWh_pc per unit
    qaMinPc: real,           // QA_min_pc per unit
    scrapPct: real,          // Scrap_pct as a fraction
    parallelMachines: real,  // Parallel_machines
    batchSize: real,         // Batch_size
    queueDays: real)         // Queue_days (carried, not used by the engine)

  /** One row of the purchased-parts table. */
  datatype BomLine = BomLine(part: string, qty: real, unitPrice: real, scrapPct: real)

  /** Machine hourly rates (EUR/h) shared by app.py and utils/Shared.py. */
  const MachineRates: map<string, real> :=
    map["CNC" := 85.0, "Laser" := 110.0, "Lassen" := 55.0, "Buigen" := 75.0,
        "Montage" := 40.0, "Casting" := 65.0]

  /** The operator rate LABOR_RATE (EUR/h). */
  const LaborRate: real := 45.0

  /** The column names a routing CSV must carry, in the order the editor shows them. */
  const RoutingCols: seq<string> :=
    ["Step", "Proces", "Qty_per_parent", "Cycle_min", "Setup_min", "Attend_pct",
     "kWh_pc", "QA_min_pc", "Scrap_pct", "Parallel_machines", "Batch_size", "Queue_days"]

  /** The column names a BOM CSV must carry. */
  const BomCols: seq<string> := ["Part", "Qty", "UnitPrice", "Scrap_pct"]

  /** Rows are in ascending Step order. */
  predicate StepSorted(s: seq<RoutingStep>)
  {
    forall i, j :: 0 <= i < j < |s| ==> s[i].step <= s[j].step
  }

  /** Inserts `x` before the first row with a Step not below its own. */
  function InsertByStep(x: RoutingStep, s: seq<RoutingStep>): (r: seq<RoutingStep>)
    ensures |r| == |s| + 1
    ensures multiset(r) == multiset(s) + multiset{x}
  {
    if s == [] || x.step <= s[0].step then [x] + s
    else
      var rest := InsertByStep(x, s[1..]);
      assert s == [s[0]] + s[1..];
      [s[0]] + rest
  }

  /** A row with a Step not above any of an ascending routing's goes in front. */
  lemma ConsSorted(h: RoutingStep, s: seq<RoutingStep>)
    requires StepSorted(s) && forall k :: 0 <= k < |s| ==> h.step <= s[k].step
    ensures StepSorted([h] + s)
  {
    var r := [h] + s;
    forall i, j | 0 <= i < j < |r| ensures r[i].step <= r[j].step {
      assert r[j] == s[j - 1];
      if i > 0 {
        assert r[i] == s[i - 1];
      }
    }
  }

  /** The rest of an ascending routing is ascending. */
  lemma TailSorted(s: seq<RoutingStep>)
    requires StepSorted(s) && s != []
    ensures StepSorted(s[1..])
  {
    var tail := s[1..];
    forall i, j | 0 <= i < j < |tail| ensures tail[i].step <= tail[j].step {
      assert tail[i] == s[i + 1] && tail[j] == s[j + 1];
    }
  }

  /** Inserting a row into rows all with a Step of at least `lo` keeps every Step at least
      `lo` when the row's own Step is. */
  lemma InsertByStepBounded(x: RoutingStep, s: seq<RoutingStep>, lo: real)
    requires x.step >= lo && forall k :: 0 <= k < |s| ==> s[k].step >= lo
    ensures forall k :: 0 <= k < |s| + 1 ==> InsertByStep(x, s)[k].step >= lo
  {
    var r := InsertByStep(x, s);
    forall k | 0 <= k < |r| ensures r[k].step >= lo {
      assert r[k] in multiset(s) + multiset{x};
      if r[k] != x {
        assert r[k] in s;
      }
    }
  }

  /** Inserting into an ascending routing keeps it ascending. */
  lemma {:induction false} InsertByStepSorted(x: RoutingStep, s: seq<RoutingStep>)
    requires StepSorted(s)
    ensures StepSorted(InsertByStep(x, s))
  {
    if s != [] && x.step > s[0].step {
      TailSorted(s);
      InsertByStepSorted(x, s[1..]);
      InsertByStepBounded(x, s[1..], s[0].step);
      ConsSorted(s[0], InsertByStep(x, s[1..]));
    } else {
      ConsSorted(x, s);
    }
  }

  /** `df.sort_values("Step")`: the same rows in ascending Step order. */
  function SortByStep(s: seq<RoutingStep>): (r: seq<RoutingStep>)
    ensures |r| == |s|
    ensures multiset(r) == multiset(s)
    ensures StepSorted(r)
  {
    if s == [] then []
    else
      assert s == [s[0]] + s[1..];
      var rest := SortByStep(s[1..]);
      InsertByStepSorted(s[0], rest);
      InsertByStep(s[0], rest)
  }

  /** Every row of the sorted routing is a row of the routing. */
  lemma SortedRowsAreRows(s: seq<RoutingStep>, k: nat)
    requires k < |s|
    ensures SortByStep(s)[k] in s
  {
    var r := SortByStep(s);
    assert r[k] in multiset(r);
  }

  /** A row appears in the sorted routing exactly when it appears in the routing. */
  lemma SortKeepsMembership(s: seq<RoutingStep>)
    ensures forall x :: x in SortByStep(s) <==> x in s
  {
    var r := SortByStep(s);
    forall x ensures x in r <==> x in s {
      assert x in r <==> x in multiset(r);
      assert x in s <==> x in multiset(s);
    }
  }

  /** Sorting a routing already in ascending Step order changes nothing. */
  lemma {:induction false} SortSortedKeeps(s: seq<RoutingStep>)
    requires StepSorted(s)
    ensures SortByStep(s) == s
  {
    if s != [] {
      TailSorted(s);
      SortSortedKeeps(s[1..]);
      assert SortByStep(s) == InsertByStep(s[0], s[1..]);
      if |s| > 1 {
        assert s[0].step <= s[1].step;
      }
      assert [s[0]] + s[1..] == s;
    }
  }
}
