/** The report tables of `build_powerbi_facts` in utils/Shared.py: one cost row per routing
    step, one cost row per purchased part, and one row per Monte-Carlo sample. */
module PowerBi {
  import opened Routing
  import opened ScrapChain
  import opened CostRollup

  /** One FactRouting row (the run date is left out). */
  datatype FactRoutingRow = FactRoutingRow(
    project: string, process: string, step: real, qtyInput: real, batches: int,
    setupMin: real, cycleMin: real, qaMin: real, attendPct: real, kwhTotal: real,
    parallelMachines: int, costMachine: real, costLabor: real, costEnergy: real,
    costLean: real, costTotalStep: real)

  /** The row built for one propagated step; its lean cost is fixed at 0. */
  function FactRow(project: string, p: Propagated, rates: Rates): FactRoutingRow
  {
    var t := TimesOf(p);
    var c := CostOf(p, rates);
    FactRoutingRow(project, p.row.proces, p.row.step, t.qty, t.batches, t.setupMin, t.cycleMin,
                   t.qaMin, t.attend * 100.0, t.kwh, t.par, c.machine, c.labor, c.energy, 0.0,
                   c.machine + c.labor + c.energy + 0.0)
  }

  /** A step's row holds the machine, labour and energy cost `cost_once` charges for it, and
      its total is their sum: the step's conversion cost. */
  lemma FactRowIsStepCost(project: string, p: Propagated, rates: Rates)
    ensures var f := FactRow(project, p, rates);
      && f.costLean == 0.0
      && f.costTotalStep == f.costMachine + f.costLabor + f.costEnergy
      && f.costTotalStep == StepConv(p, rates)
      && f.attendPct == p.row.attendPct
  {
  }

  /** The rows of some propagated steps. */
  function FactRows(project: string, ps: seq<Propagated>, rates: Rates): (fs: seq<FactRoutingRow>)
    ensures |fs| == |ps|
  {
    seq(|ps|, i requires 0 <= i < |ps| => FactRow(project, ps[i], rates))
  }

  /** The FactRouting table of a routing: empty for an empty routing. */
  function FactRoutingSpec(project: string, routing: seq<RoutingStep>, q: int, rates: Rates)
    : seq<FactRoutingRow>
  {
    if routing == [] then [] else FactRows(project, Propagation(routing, q), rates)
  }

  /** The FactRouting loop: propagates scrap and appends one row per step. */
  method BuildFactRouting(project: string, routing: seq<RoutingStep>, q: int, rates: Rates)
    returns (rows: seq<FactRoutingRow>)
    ensures rows == FactRoutingSpec(project, routing, q, rates)
  {
    rows := [];
    if routing != [] {
      var r := PropagateScrap(routing, q);
      var i := 0;
      while i < |r|
        invariant 0 <= i <= |r|
        invariant |rows| == i
        invariant forall k :: 0 <= k < i ==> rows[k] == FactRow(project, r[k], rates)
      {
        rows := rows + [FactRow(project, r[i], rates)];
        i := i + 1;
      }
    }
  }

  /** The sum of the `Cost_TotalStep` column. */
  function TotalStepSum(fs: seq<FactRoutingRow>): real
  {
    if fs == [] then 0.0 else TotalStepSum(fs[..|fs| - 1]) + fs[|fs| - 1].costTotalStep
  }

  /** Summing `Cost_TotalStep` over some propagated steps gives their conversion cost. */
  lemma {:induction false} FactRowsSumToConv(project: string, ps: seq<Propagated>, rates: Rates)
    ensures TotalStepSum(FactRows(project, ps, rates)) == ConvSum(ps, rates)
  {
    if ps != [] {
      var init := ps[..|ps| - 1];
      FactRowsSumToConv(project, init, rates);
      var fs := FactRows(project, ps, rates);
      assert fs[..|fs| - 1] == FactRows(project, init, rates);
      FactRowIsStepCost(project, ps[|ps| - 1], rates);
    }
  }

  /** One row per routing step, and the step totals add up to the `conv_total` utils/Shared.py's
      `cost_once` reports for the same routing. */
  lemma FactRoutingMatchesCostOnce(project: string, routing: seq<RoutingStep>, bom: seq<BomLine>,
                                   q: int, netKg: real, matPrice: real, rates: Rates,
                                   lp: LeanParams)
    requires q >= 1
    ensures |FactRoutingSpec(project, routing, q, rates)| == |routing|
    ensures TotalStepSum(FactRoutingSpec(project, routing, q, rates))
         == CostSpec(SharedPy, routing, bom, q, netKg, matPrice, rates, lp).convTotal
  {
    if routing != [] {
      PropagationKeepsRows(routing, q);
      FactRowsSumToConv(project, Propagation(routing, q), rates);
    }
  }

  /** One FactBOM row. */
  datatype FactBomRow = FactBomRow(
    project: string, part: string, qtyPer: real, unitPrice: real, scrapPct: real,
    qtyRun: real, costRun: real)

  /** The FactBOM table: each part's quantity and cost for the whole run of `Q` parts. */
  function FactBom(project: string, bom: seq<BomLine>, q: int): (fs: seq<FactBomRow>)
    ensures |fs| == |bom|
  {
    seq(|bom|, i requires 0 <= i < |bom| => BomFact(project, bom[i], q))
  }

  /** The FactBOM row of one purchased part. */
  function BomFact(project: string, l: BomLine, q: int): FactBomRow
  {
    FactBomRow(project, l.part, l.qty, l.unitPrice, l.scrapPct, l.qty * q as real,
               BomLineCost(l) * q as real)
  }

  /** The sum of the `Cost_Run` column. */
  function CostRunSum(fs: seq<FactBomRow>): real
  {
    if fs == [] then 0.0 else CostRunSum(fs[..|fs| - 1]) + fs[|fs| - 1].costRun
  }

  /** Rows whose `Cost_Run` is each line's cost times `qr` sum to the line sum times `qr`. */
  lemma {:induction false} ScaledRowsSum(fs: seq<FactBomRow>, bom: seq<BomLine>, qr: real)
    requires |fs| == |bom|
    requires forall i :: 0 <= i < |fs| ==> fs[i].costRun == BomLineCost(bom[i]) * qr
    ensures CostRunSum(fs) == BomSum(bom) * qr
  {
    if fs != [] {
      var n := |fs|;
      ScaledRowsSum(fs[..n - 1], bom[..n - 1], qr);
      var x := BomSum(bom[..n - 1]);
      var y := BomLineCost(bom[n - 1]);
      assert CostRunSum(fs) == x * qr + y * qr;
      assert BomSum(bom) == x + y;
      assert (x + y) * qr == x * qr + y * qr;
    }
  }

  /** Summing `Cost_Run` gives the purchased-parts line sum times `Q`. */
  lemma CostRunSumIsBomSum(project: string, bom: seq<BomLine>, q: int)
    ensures CostRunSum(FactBom(project, bom, q)) == BomSum(bom) * q as real
  {
    ScaledRowsSum(FactBom(project, bom, q), bom, q as real);
  }

  /** The `Cost_Run` column sums to the `buy_total` of `cost_once`. */
  lemma CostRunSumIsBuyTotal(project: string, bom: seq<BomLine>, q: int)
    ensures CostRunSum(FactBom(project, bom, q)) == BuyTotal(bom, q)
  {
    CostRunSumIsBomSum(project, bom, q);
  }

  /** One FactMC row. */
  datatype FactMcRow = FactMcRow(project: string, scenarioIdx: int, unitCost: real)

  /** The FactMC table: one row per sample, numbered from 1. */
  function FactMc(project: string, samples: seq<real>): (fs: seq<FactMcRow>)
    ensures |fs| == |samples|
    ensures forall k :: 0 <= k < |fs| ==> fs[k].scenarioIdx == k + 1 && fs[k].unitCost == samples[k]
  {
    seq(|samples|, k requires 0 <= k < |samples| => FactMcRow(project, k + 1, samples[k]))
  }
}
