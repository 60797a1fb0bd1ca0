/** The cost rollup (`cost_once` with `lean_costs`): per-step machine, labour and energy
    cost over the propagated quantities, the per-step lean adders, the purchased parts,
    and the unit cost. app.py and utils/Shared.py carry the same engine; they differ only
    in the labour rate that prices rework inside `lean_costs`, which `Edition` selects. */
module CostRollup {
  import opened Common
  import opened Routing
  import opened ScrapChain

  /** Which copy of the engine: app.py or utils/Shared.py. */
  datatype Edition = AppPy | SharedPy

  /** Energy price (EUR/kWh), operator rate (EUR/h) and machine hourly rates by process. */
  datatype Rates = Rates(energyEurKwh: real, laborRate: real, machineRates: map<string, real>)

  /** The lean inputs: storage days and EUR/day per batch, transport km and EUR/km,
      rework probability per unit and rework minutes per unit. */
  datatype LeanParams = LeanParams(
    storageDays: real, storageCost: real, km: real, eurKm: real, rework: real, reworkMin: real)

  /** The timing of one step, as `cost_once`, `capacity_table` and `build_powerbi_facts`
      all compute it from a propagated row. */
  datatype StepTimes = StepTimes(
    qty: real, par: int, batchSize: int, batches: int,
    setupMin: real, cycleMin: real, qaMin: real, attend: real, kwh: real,
    machineMin: real, laborMin: real)

  /** The timing of a propagated row (see `StepTimesLaws`). */
  function TimesOf(p: Propagated): StepTimes
  {
    var r := p.row;
    var qty := p.effInputQty;
    var par := MaxInt(1, Trunc(r.parallelMachines));
    var bs := MaxInt(1, Trunc(r.batchSize));
    var batches := Ceil(qty / bs as real);
    var setup := r.setupMin * batches as real;
    var cycle := r.cycleMin * qty;
    var qa := r.qaMinPc * qty;
    var att := r.attendPct / 100.0;
    var kwh := r.kwhPc * qty;
    StepTimes(qty, par, bs, batches, setup, cycle, qa, att, kwh,
              (setup + cycle) / par as real, (setup + cycle + qa) * att)
  }

  /** Setup is charged per batch and cycle, QA and energy per unit entering the step; the
      batch count is the least integer covering the input; batch size and machine count are
      at least 1 (`int()` of the column otherwise); machine time is shared by the parallel
      machines; labour time covers setup, cycle and QA at the attendance fraction. */
  lemma StepTimesLaws(p: Propagated)
    ensures var t := TimesOf(p);
      && t.qty == p.effInputQty
      && t.par >= 1 && t.batchSize >= 1
      && (p.row.parallelMachines >= 1.0 ==> t.par == Trunc(p.row.parallelMachines))
      && (p.row.batchSize >= 1.0 ==> t.batchSize == Trunc(p.row.batchSize))
      && (t.batches - 1) as real < t.qty / t.batchSize as real <= t.batches as real
      && t.setupMin == p.row.setupMin * t.batches as real
      && t.cycleMin == p.row.cycleMin * t.qty
      && t.qaMin == p.row.qaMinPc * t.qty
      && t.kwh == p.row.kwhPc * t.qty
      && t.machineMin * t.par as real == t.setupMin + t.cycleMin
      && t.laborMin == (t.setupMin + t.cycleMin + t.qaMin) * (p.row.attendPct / 100.0)
  {
    var t := TimesOf(p);
    assert (t.setupMin + t.cycleMin) / t.par as real * t.par as real == t.setupMin + t.cycleMin;
  }

  /** `machine_rates.get(proc, labor_rate)`. */
  function MachineRate(rates: Rates, proc: string): real
  {
    if proc in rates.machineRates then rates.machineRates[proc] else rates.laborRate
  }

  /** Machine, labour and energy cost of one step. */
  datatype StepCost = StepCost(machine: real, labor: real, energy: real)

  /** The cost of a step: machine hours at the process rate, labour hours at the labour
      rate, energy at the energy price. */
  function CostOf(p: Propagated, rates: Rates): StepCost
  {
    var t := TimesOf(p);
    StepCost((t.machineMin / 60.0) * MachineRate(rates, p.row.proces),
             (t.laborMin / 60.0) * rates.laborRate,
             t.kwh * rates.energyEurKwh)
  }

  /** The conversion cost one step adds to `conv_total`. */
  function StepConv(p: Propagated, rates: Rates): real
  {
    var c := CostOf(p, rates);
    c.machine + c.labor + c.energy
  }

  /** The rate that prices rework minutes: app.py uses the module constant LABOR_RATE,
      utils/Shared.py the caller's labour rate. */
  function ReworkRate(ed: Edition, laborRate: real): real
  {
    match ed
    case AppPy => LaborRate
    case SharedPy => laborRate
  }

  /** `lean_costs`: storage per batch, transport, rework and extra energy. */
  function LeanCosts(ed: Edition, qtyIn: real, batchSize: int, energyKwhPc: real,
                     lp: LeanParams, energy: real, laborRate: real): real
  {
    var batches := Ceil(qtyIn / MaxInt(1, batchSize) as real);
    lp.storageDays * lp.storageCost * batches as real
      + lp.km * lp.eurKm
      + lp.rework * qtyIn * (lp.reworkMin / 60.0) * ReworkRate(ed, laborRate)
      + qtyIn * energyKwhPc * energy
  }

  /** The lean adder `cost_once` adds for one step (it always passes 0 extra kWh). */
  function StepLean(ed: Edition, p: Propagated, rates: Rates, lp: LeanParams): real
  {
    var t := TimesOf(p);
    LeanCosts(ed, t.qty, t.batchSize, 0.0, lp, rates.energyEurKwh, rates.laborRate)
  }

  /** `conv_total` after the rows `ps` have been visited. */
  function ConvSum(ps: seq<Propagated>, rates: Rates): real
  {
    if ps == [] then 0.0 else ConvSum(ps[..|ps| - 1], rates) + StepConv(ps[|ps| - 1], rates)
  }

  /** `lean_total` after the rows `ps` have been visited. */
  function LeanSum(ed: Edition, ps: seq<Propagated>, rates: Rates, lp: LeanParams): real
  {
    if ps == [] then 0.0
    else LeanSum(ed, ps[..|ps| - 1], rates, lp) + StepLean(ed, ps[|ps| - 1], rates, lp)
  }

  /** The `Line` value of one purchased part: `Qty * UnitPrice * (1 + Scrap_pct)`. */
  function BomLineCost(l: BomLine): real
  {
    l.qty * l.unitPrice * (1.0 + l.scrapPct)
  }

  /** The sum of the `Line` column. */
  function BomSum(bom: seq<BomLine>): real
  {
    if bom == [] then 0.0 else BomSum(bom[..|bom| - 1]) + BomLineCost(bom[|bom| - 1])
  }

  /** `conv_total` of a routing at order quantity `q`. */
  function RoutingConv(routing: seq<RoutingStep>, q: int, rates: Rates): real
  {
    if routing == [] then 0.0 else ConvSum(Propagation(routing, q), rates)
  }

  /** `lean_total` of a routing at order quantity `q`. */
  function RoutingLean(ed: Edition, routing: seq<RoutingStep>, q: int, rates: Rates,
                       lp: LeanParams): real
  {
    if routing == [] then 0.0 else LeanSum(ed, Propagation(routing, q), rates, lp)
  }

  /** `buy_total`: the line sum for one part times `Q`, zero without purchased parts. */
  function BuyTotal(bom: seq<BomLine>, q: int): real
  {
    if bom == [] then 0.0 else BomSum(bom) * q as real
  }

  /** The dictionary `cost_once` returns. */
  datatype CostResult = CostResult(
    matPc: real, convTotal: real, leanTotal: real, buyTotal: real, totalPc: real)

  /** What `cost_once` computes. */
  function CostSpec(ed: Edition, routing: seq<RoutingStep>, bom: seq<BomLine>, q: int,
                    netKg: real, matPrice: real, rates: Rates, lp: LeanParams): CostResult
    requires q >= 1
  {
    var matPc := netKg * matPrice;
    var conv := RoutingConv(routing, q, rates);
    var lean := RoutingLean(ed, routing, q, rates, lp);
    var buy := BuyTotal(bom, q);
    CostResult(matPc, conv, lean, buy, UnitCost(matPc, conv, lean, buy, q))
  }

  /** `total_pc`: material per part plus the run totals spread over the `Q` parts. */
  function UnitCost(matPc: real, conv: real, lean: real, buy: real, q: int): (u: real)
    requires q >= 1
    ensures u * q as real == matPc * q as real + conv + lean + buy
  {
    var total := matPc * q as real + conv + lean + buy;
    DivMulCancel(total, q as real);
    total / q as real
  }

  /** `cost_once`: propagates scrap, accumulates conversion and lean cost row by row, adds
      the purchased parts and divides the run total by `Q`. */
  method CostOnce(ed: Edition, routing: seq<RoutingStep>, bom: seq<BomLine>, q: int,
                  netKg: real, matPrice: real, rates: Rates, lp: LeanParams)
    returns (res: CostResult)
    requires q >= 1
    ensures res == CostSpec(ed, routing, bom, q, netKg, matPrice, rates, lp)
    ensures res.matPc == netKg * matPrice
    ensures res.totalPc * q as real == res.matPc * q as real + res.convTotal + res.leanTotal + res.buyTotal
    ensures routing == [] ==> res.convTotal == 0.0 && res.leanTotal == 0.0
    ensures bom == [] ==> res.buyTotal == 0.0
  {
    var matPc := netKg * matPrice;
    var conv, lean := RoutingTotals(ed, routing, q, rates, lp);
    var buy := 0.0;
    if bom != [] {
      buy := BomSum(bom) * q as real;
    }
    res := CostResult(matPc, conv, lean, buy, UnitCost(matPc, conv, lean, buy, q));
  }

  /** `conv_total` and `lean_total` of `cost_once`: zero for an empty routing, otherwise
      accumulated over the propagated rows. */
  method RoutingTotals(ed: Edition, routing: seq<RoutingStep>, q: int, rates: Rates,
                       lp: LeanParams)
    returns (conv: real, lean: real)
    ensures conv == RoutingConv(routing, q, rates)
    ensures lean == RoutingLean(ed, routing, q, rates, lp)
  {
    conv := 0.0;
    lean := 0.0;
    if routing != [] {
      var r := PropagateScrap(routing, q);
      conv, lean := AccumulateSteps(ed, r, rates, lp);
    }
  }

  /** The row loop of `cost_once`: adds each step's machine, labour and energy cost to
      `conv_total` and its lean adders to `lean_total`. */
  method AccumulateSteps(ed: Edition, r: seq<Propagated>, rates: Rates, lp: LeanParams)
    returns (conv: real, lean: real)
    ensures conv == ConvSum(r, rates)
    ensures lean == LeanSum(ed, r, rates, lp)
  {
    conv := 0.0;
    lean := 0.0;
    var i := 0;
    while i < |r|
      invariant 0 <= i <= |r|
      invariant conv == ConvSum(r[..i], rates)
      invariant lean == LeanSum(ed, r[..i], rates, lp)
    {
      assert r[..i + 1][..i] == r[..i];
      var c := CostOf(r[i], rates);
      conv := conv + c.machine + c.labor;
      conv := conv + c.energy;
      lean := lean + StepLean(ed, r[i], rates, lp);
      i := i + 1;
    }
    assert r[..|r|] == r;
  }

  /** Dividing by a positive number and multiplying back is the identity. */
  lemma DivMulCancel(x: real, d: real)
    requires d > 0.0
    ensures (x / d) * d == x
  {
  }

  /** A process without a machine rate has its machine time charged at the labour rate. */
  lemma UnknownProcessAtLaborRate(p: Propagated, rates: Rates)
    requires p.row.proces !in rates.machineRates
    ensures StepConv(p, rates)
         == (TimesOf(p).machineMin / 60.0 + TimesOf(p).laborMin / 60.0) * rates.laborRate
            + TimesOf(p).kwh * rates.energyEurKwh
  {
  }

  /** A step whose input equals its batch size runs in one batch. */
  lemma OneBatchAtBatchSize(p: Propagated)
    requires p.row.batchSize >= 1.0 && p.effInputQty == Trunc(p.row.batchSize) as real
    ensures TimesOf(p).batches == 1
  {
    StepTimesLaws(p);
    var t := TimesOf(p);
    assert t.qty / t.batchSize as real == 1.0;
  }

  /** One unit more than a whole number of batches opens exactly one more batch. */
  lemma ExtraUnitOpensBatch(k: nat, b: int)
    requires b >= 1
    ensures Ceil(((k * b + 1) as real) / b as real) == k + 1
  {
    var x := ((k * b + 1) as real) / b as real;
    assert x == k as real + 1.0 / b as real;
    assert 0.0 < 1.0 / b as real <= 1.0;
  }

  /** With no storage, transport or rework inputs the lean adders are zero. */
  lemma {:induction false} LeanZeroWithoutAdders(ed: Edition, ps: seq<Propagated>, rates: Rates,
                                                 lp: LeanParams)
    requires lp.storageDays == 0.0 && lp.km == 0.0 && lp.rework == 0.0
    ensures LeanSum(ed, ps, rates, lp) == 0.0
  {
    if ps != [] {
      LeanZeroWithoutAdders(ed, ps[..|ps| - 1], rates, lp);
    }
  }

  /** Without storage or rework a step's lean adder is the transport charge alone. */
  lemma TransportOnlyStep(ed: Edition, p: Propagated, rates: Rates, lp: LeanParams)
    requires lp.storageDays == 0.0 && lp.rework == 0.0
    ensures StepLean(ed, p, rates, lp) == lp.km * lp.eurKm
  {
  }

  /** `n` copies of `c` and one more make `n + 1` copies. */
  lemma OneMoreTimes(n: nat, c: real)
    ensures n as real * c + c == (n + 1) as real * c
  {
  }

  /** Transport `km * eur_km` is charged once per routing step, not once per order. */
  lemma {:induction false} TransportChargedPerStep(ed: Edition, ps: seq<Propagated>, rates: Rates,
                                                   lp: LeanParams)
    requires lp.storageDays == 0.0 && lp.rework == 0.0
    ensures LeanSum(ed, ps, rates, lp) == |ps| as real * (lp.km * lp.eurKm)
  {
    if ps != [] {
      TransportChargedPerStep(ed, ps[..|ps| - 1], rates, lp);
      TransportOnlyStep(ed, ps[|ps| - 1], rates, lp);
      OneMoreTimes(|ps| - 1, lp.km * lp.eurKm);
    }
  }

  /** The two editions' lean totals agree when the caller's labour rate is LABOR_RATE. */
  lemma {:induction false} EditionsAgreeAtStandardRate(ps: seq<Propagated>, rates: Rates,
                                                       lp: LeanParams)
    requires rates.laborRate == LaborRate
    ensures LeanSum(AppPy, ps, rates, lp) == LeanSum(SharedPy, ps, rates, lp)
  {
    if ps != [] {
      EditionsAgreeAtStandardRate(ps[..|ps| - 1], rates, lp);
    }
  }

  /** So the two editions' `cost_once` agree at that rate. */
  lemma CostOnceEditionsAgree(routing: seq<RoutingStep>, bom: seq<BomLine>, q: int,
                              netKg: real, matPrice: real, rates: Rates, lp: LeanParams)
    requires q >= 1 && rates.laborRate == LaborRate
    ensures CostSpec(AppPy, routing, bom, q, netKg, matPrice, rates, lp)
         == CostSpec(SharedPy, routing, bom, q, netKg, matPrice, rates, lp)
  {
    EditionsAgreeAtStandardRate(Propagation(routing, q), rates, lp);
  }
}
