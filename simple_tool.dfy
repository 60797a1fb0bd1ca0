/** The inline calculation of App.py, the simpler cost tool: material cost, a cost per
    selected process, rework, transport and storage, the overhead, contingency and profit
    markups, and the make-or-buy decision against the minimum order quantity. */
module SimpleTool {
  import opened Common

  /** The materials of the `materials` table. */
  datatype Material = S235JRSteel | S355Steel | SS304 | Al6082 | CuEcw

  /** A material's price per kg and waste fraction. */
  datatype MatInfo = MatInfo(price: real, waste: real)

  /** The `materials` table. */
  function Info(m: Material): MatInfo
  {
    match m
    case S235JRSteel => MatInfo(1.4, 0.08)
    case S355Steel => MatInfo(1.7, 0.10)
    case SS304 => MatInfo(3.5, 0.06)
    case Al6082 => MatInfo(4.2, 0.07)
    case CuEcw => MatInfo(8.0, 0.05)
  }

  /** The processes the sidebar offers. */
  datatype Process = CNC | Laser | Lassen | Buigen | Montage

  /** The `machine_rates` table, in euro per hour. */
  function Rate(p: Process): real
  {
    match p
    case CNC => 85.0
    case Laser => 110.0
    case Lassen => 55.0
    case Buigen => 75.0
    case Montage => 40.0
  }

  /** The fixed cycle time of each process, in minutes per part. */
  function CycleMin(p: Process): real
  {
    match p
    case CNC => 7.5
    case Laser => 5.0
    case Lassen => 8.0
    case Buigen => 4.0
    case Montage => 6.0
  }

  const LaborRate: real := 45.0
  const OverheadPct: real := 0.20
  const ProfitPct: real := 0.12
  const ContingencyPct: real := 0.05

  /** The yearly holding rate of the storage cost. */
  const StorageRate: real := 0.12

  /** The cost one process adds for a run of `q` parts. */
  function ProcCost(p: Process, q: int): (c: real)
    ensures q >= 0 ==> c >= 0.0
  {
    (CycleMin(p) / 60.0) * Rate(p) * q as real
  }

  /** The selected processes without repeats, in order of first selection: the key order
      of a dictionary filled from them. */
  function Dedup(ps: seq<Process>): (d: seq<Process>)
    ensures forall p :: p in d <==> p in ps
    ensures forall i, j :: 0 <= i < j < |d| ==> d[i] != d[j]
  {
    if ps == [] then []
    else
      var init := Dedup(ps[..|ps| - 1]);
      assert forall p :: p in ps <==> p in ps[..|ps| - 1] || p == ps[|ps| - 1];
      if ps[|ps| - 1] in init then init else init + [ps[|ps| - 1]]
  }

  /** A selection without repeats, as the multiselect widget yields, keeps its order. */
  lemma {:induction false} DedupDistinct(ps: seq<Process>)
    requires forall i, j :: 0 <= i < j < |ps| ==> ps[i] != ps[j]
    ensures Dedup(ps) == ps
  {
    if ps != [] {
      var init := ps[..|ps| - 1];
      DedupDistinct(init);
      assert ps[|ps| - 1] !in init;
      assert init + [ps[|ps| - 1]] == ps;
    }
  }

  /** The cost of each process in `keys`, summed. */
  function SumCosts(keys: seq<Process>, q: int): real
  {
    if keys == [] then 0.0 else SumCosts(keys[..|keys| - 1], q) + ProcCost(keys[|keys| - 1], q)
  }

  /** `sum(proc_costs.values())`: every selected process charged once. */
  function ProcSum(ps: seq<Process>, q: int): real
  {
    SumCosts(Dedup(ps), q)
  }

  /** The process sum is never negative. */
  lemma {:induction false} SumCostsNonNegative(keys: seq<Process>, q: int)
    requires q >= 0
    ensures SumCosts(keys, q) >= 0.0
  {
    if keys != [] {
      SumCostsNonNegative(keys[..|keys| - 1], q);
    }
  }

  /** `sum(d.values())` for a dictionary with keys `keys` in insertion order. */
  function DictSum(keys: seq<Process>, costs: map<Process, real>): real
    requires forall k :: k in keys ==> k in costs
  {
    if keys == [] then 0.0 else DictSum(keys[..|keys| - 1], costs) + costs[keys[|keys| - 1]]
  }

  /** A dictionary holding each process's own cost sums to the cost of its keys. */
  lemma {:induction false} DictSumIsSumCosts(keys: seq<Process>, costs: map<Process, real>, q: int)
    requires forall k :: k in keys ==> k in costs && costs[k] == ProcCost(k, q)
    ensures DictSum(keys, costs) == SumCosts(keys, q)
  {
    if keys != [] {
      DictSumIsSumCosts(keys[..|keys| - 1], costs, q);
    }
  }

  /** The loop filling the `proc_costs` dictionary: its keys in insertion order, and the
      cost stored under each. */
  method FillProcCosts(ps: seq<Process>, q: int) returns (keys: seq<Process>, costs: map<Process, real>)
    ensures keys == Dedup(ps)
    ensures costs.Keys == set p | p in ps
    ensures forall p :: p in costs ==> costs[p] == ProcCost(p, q)
    ensures (forall k :: k in keys ==> k in costs) && DictSum(keys, costs) == ProcSum(ps, q)
  {
    keys := [];
    costs := map[];
    var i := 0;
    while i < |ps|
      invariant 0 <= i <= |ps|
      invariant keys == Dedup(ps[..i])
      invariant costs.Keys == set p | p in ps[..i]
      invariant forall p :: p in costs ==> costs[p] == ProcCost(p, q)
    {
      var p := ps[i];
      var cost := ProcCost(p, q);
      assert ps[..i + 1][..i] == ps[..i];
      if p !in costs {
        keys := keys + [p];
      }
      costs := costs[p := cost];
      i := i + 1;
    }
    assert ps[..i] == ps;
    DictSumIsSumCosts(keys, costs, q);
  }

  /** The sidebar inputs of the calculation. */
  datatype Inputs = Inputs(
    q: int, material: Material, gewicht: real, processen: seq<Process>, scrapPct: real,
    reworkPct: real, transportMin: real, storageDays: int, buyPrice: real, moq: int,
    transportBuy: real)

  /** The costs the run incurs before any markup. */
  datatype DirectCosts = DirectCosts(
    matCost: real, procSum: real, reworkCost: real, transportCost: real, storageCost: real)

  /** Their sum, `direct_cost`. */
  function DirectCost(c: DirectCosts): real
  {
    c.matCost + c.procSum + c.reworkCost + c.transportCost + c.storageCost
  }

  /** The direct costs of the run: material with its waste and scrap, the selected
      processes, rework and storage in proportion to the process sum, and transport at the
      labour rate. */
  function Direct(inp: Inputs): (c: DirectCosts)
    ensures c.matCost == inp.gewicht * Info(inp.material).price
                         * (1.0 + Info(inp.material).waste + inp.scrapPct) * inp.q as real
    ensures c.procSum == ProcSum(inp.processen, inp.q)
    ensures c.reworkCost == inp.reworkPct * c.procSum
    ensures c.storageCost * 365.0 == inp.storageDays as real * StorageRate * c.procSum
    ensures c.transportCost * 60.0 == inp.transportMin * LaborRate * inp.q as real
  {
    var q := inp.q as real;
    var info := Info(inp.material);
    var procSum := ProcSum(inp.processen, inp.q);
    DirectCosts((inp.gewicht * info.price * (1.0 + info.waste + inp.scrapPct)) * q,
                procSum,
                inp.reworkPct * procSum,
                (inp.transportMin / 60.0) * LaborRate * q,
                (inp.storageDays as real / 365.0) * StorageRate * procSum)
  }

  /** The markups on the direct cost. */
  datatype Markups = Markups(
    overhead: real, contingency: real, costTotal: real, profit: real, salesTotal: real)

  /** Overhead and contingency on the direct cost give the cost price, profit on the cost
      price gives the sales total: 25% and then 12% on top. */
  function Markup(direct: real): (m: Markups)
    ensures m.costTotal == direct * (1.0 + OverheadPct + ContingencyPct)
    ensures m.salesTotal == m.costTotal * (1.0 + ProfitPct)
    ensures m.salesTotal == direct * 1.4
    ensures direct + m.overhead + m.contingency + m.profit == m.salesTotal
  {
    var overhead := direct * OverheadPct;
    var contingency := direct * ContingencyPct;
    var costTotal := direct + overhead + contingency;
    var profit := costTotal * ProfitPct;
    Markups(overhead, contingency, costTotal, profit, costTotal + profit)
  }

  /** The advice shown. */
  datatype Decision = Make | Buy

  /** Every figure the calculation produces. */
  datatype Result = Result(
    direct: DirectCosts, directCost: real, markups: Markups, salesPerPart: real,
    buyTotal: real, makeTotal: real, decision: Decision)

  /** The sales total of a run. */
  function SalesTotal(r: Result): real
  {
    r.markups.salesTotal
  }

  /** The calculation for inputs with at least one part. */
  function Calculate(inp: Inputs): (r: Result)
    requires inp.q >= 1
    ensures r.direct == Direct(inp) && r.directCost == DirectCost(r.direct)
    ensures r.markups == Markup(r.directCost)
    ensures r.salesPerPart * inp.q as real == SalesTotal(r)
    ensures r.makeTotal == SalesTotal(r)
    ensures r.buyTotal == (inp.buyPrice + inp.transportBuy) * MaxInt(inp.q, inp.moq) as real
    ensures r.decision == Make <==> SalesTotal(r) < r.buyTotal
  {
    var q := inp.q as real;
    var direct := Direct(inp);
    var directCost := DirectCost(direct);
    var markups := Markup(directCost);
    var salesTotal := markups.salesTotal;
    var salesPerPart := salesTotal / q;
    var buyTotal := (inp.buyPrice + inp.transportBuy) * MaxInt(inp.q, inp.moq) as real;
    var makeTotal := salesTotal;
    DivideBoth(makeTotal, buyTotal, q);
    var decision := if makeTotal / q < buyTotal / q then Make else Buy;
    Result(direct, directCost, markups, salesPerPart, buyTotal, makeTotal, decision)
  }

  /** Dividing both sides by the same positive number keeps their order. */
  lemma DivideBoth(a: real, b: real, q: real)
    requires q > 0.0
    ensures a / q < b / q <==> a < b
  {
    assert a == (a / q) * q && b == (b / q) * q;
  }

  /** The eight categories of the cost breakdown add up to the sales total. */
  lemma BreakdownAddsUp(inp: Inputs)
    requires inp.q >= 1
    ensures var r := Calculate(inp);
      r.direct.matCost + r.direct.procSum + r.direct.reworkCost + r.direct.transportCost
        + r.direct.storageCost + r.markups.overhead + r.markups.contingency + r.markups.profit
        == SalesTotal(r)
  {
  }

  /** At or above the MOQ the advice compares the sales price per part with the purchase
      price plus transport. */
  lemma DecisionAtMoq(inp: Inputs)
    requires inp.q >= 1 && inp.q >= inp.moq
    ensures var r := Calculate(inp);
      r.decision == Make <==> r.salesPerPart < inp.buyPrice + inp.transportBuy
  {
    var r := Calculate(inp);
    var q := inp.q as real;
    assert r.buyTotal == (inp.buyPrice + inp.transportBuy) * q;
    Scale(r.salesPerPart, inp.buyPrice + inp.transportBuy, q);
  }

  /** Multiplying both sides by the same positive number keeps their order. */
  lemma Scale(a: real, b: real, q: real)
    requires q > 0.0
    ensures a * q < b * q <==> a < b
  {
  }

  /** An order below the MOQ still pays for the whole MOQ. */
  lemma BelowMoqPaysMoq(inp: Inputs)
    requires inp.q >= 1 && inp.q < inp.moq
    ensures Calculate(inp).buyTotal == (inp.buyPrice + inp.transportBuy) * inp.moq as real
  {
  }

  /** With no process selected there is no process, rework or storage cost. */
  lemma NoProcessNoProcessCosts(inp: Inputs)
    requires inp.q >= 1 && inp.processen == []
    ensures var c := Direct(inp); c.procSum == 0.0 && c.reworkCost == 0.0 && c.storageCost == 0.0
  {
  }

  /** Selecting one process more, not selected before, adds exactly its cost to the
      process sum. */
  lemma AddingAProcess(ps: seq<Process>, p: Process, q: int)
    requires p !in ps
    ensures ProcSum(ps + [p], q) == ProcSum(ps, q) + ProcCost(p, q)
  {
    assert (ps + [p])[..|ps + [p]| - 1] == ps;
    assert Dedup(ps + [p]) == Dedup(ps) + [p];
    assert (Dedup(ps) + [p])[..|Dedup(ps) + [p]| - 1] == Dedup(ps);
  }

  /** Selecting a process again changes nothing. */
  lemma ReselectingAProcess(ps: seq<Process>, p: Process, q: int)
    requires p in ps
    ensures ProcSum(ps + [p], q) == ProcSum(ps, q)
  {
    assert (ps + [p])[..|ps + [p]| - 1] == ps;
  }

  /** With non-negative inputs every direct cost is non-negative, so the sales total is at
      least the material cost. */
  lemma SalesCoverMaterial(inp: Inputs)
    requires inp.q >= 1 && inp.gewicht >= 0.0 && inp.scrapPct >= 0.0 && inp.reworkPct >= 0.0
    requires inp.transportMin >= 0.0 && inp.storageDays >= 0
    ensures var r := Calculate(inp); SalesTotal(r) >= r.direct.matCost >= 0.0
  {
    var c := Direct(inp);
    SumCostsNonNegative(Dedup(inp.processen), inp.q);
    NonNegativeProduct(inp.gewicht * Info(inp.material).price,
                       1.0 + Info(inp.material).waste + inp.scrapPct, inp.q as real);
    NonNegativeProduct(inp.reworkPct, c.procSum, 1.0);
    NonNegativeProduct(inp.transportMin / 60.0, LaborRate, inp.q as real);
    NonNegativeProduct(inp.storageDays as real / 365.0, StorageRate, c.procSum);
  }

  /** A product of three non-negative numbers is non-negative. */
  lemma NonNegativeProduct(a: real, b: real, c: real)
    requires a >= 0.0 && b >= 0.0 && c >= 0.0
    ensures a * b * c >= 0.0 && a * b >= 0.0
  {
  }
}
