/** The Monte-Carlo loop (`run_mc`): each iteration perturbs the material price and every
    step's cycle time and scrap with normal draws, clamps them, and records the unit cost
    `cost_once` gives for the perturbed inputs. The draws are inputs here: `rng.normal(loc,
    scale)` is `loc + scale * z` for a standard normal `z`. */
module MonteCarlo {
  import opened Common
  import opened Routing
  import opened CostRollup

  /** The lowest material price a draw may give. */
  const MinPrice: real := 0.01

  /** The least cycle factor (app.py) or cycle time (utils/Shared.py) a draw may give. */
  const MinCycle: real := 0.05

  /** The highest scrap fraction a draw may give. */
  const MaxScrap: real := 0.35

  /** The standard normal draws of one iteration, in the order the generator is asked for
      them: one for the price, one per step for cycle time, one per step for scrap. */
  datatype Draw = Draw(mat: real, cycle: seq<real>, scrap: seq<real>)

  /** `max(0.01, rng.normal(mat_mu, sd_mat * mat_mu))`. */
  function PerturbPrice(mu: real, sdMat: real, z: real): (p: real)
    ensures p >= MinPrice
    ensures mu + sdMat * mu * z >= MinPrice ==> p == mu + sdMat * mu * z
  {
    Max(MinPrice, mu + sdMat * mu * z)
  }

  /** The perturbed cycle time: app.py is meant to clip the factor `1 + sd * z` at 0.05
      (see `AppIterationAsWritten` for what its line does), utils/Shared.py clips the product
      at 0.05. */
  function PerturbCycle(ed: Edition, cycle: real, sdCycle: real, z: real): real
  {
    match ed
    case AppPy => cycle * Max(MinCycle, 1.0 + sdCycle * z)
    case SharedPy => Max(MinCycle, cycle * (1.0 + sdCycle * z))
  }

  /** The clamps on the cycle time: utils/Shared.py never goes below 0.05 minutes; the
      intended app.py factor clip never scales a non-negative cycle time by less than 0.05. */
  lemma CycleClamp(cycle: real, sdCycle: real, z: real)
    ensures PerturbCycle(SharedPy, cycle, sdCycle, z) >= MinCycle
    ensures cycle >= 0.0 ==> PerturbCycle(AppPy, cycle, sdCycle, z) >= MinCycle * cycle
  {
    if cycle >= 0.0 {
      var f := Max(MinCycle, 1.0 + sdCycle * z);
      assert f >= MinCycle;
      assert cycle * f >= cycle * MinCycle;
    }
  }

  /** The two clips differ: a 0.02-minute cycle with a zero draw stays 0.02 under the
      intended app.py factor clip but is raised to 0.05 in utils/Shared.py. */
  lemma CycleClipsDiffer()
    ensures PerturbCycle(AppPy, 0.02, 0.1, 0.0) == 0.02
    ensures PerturbCycle(SharedPy, 0.02, 0.1, 0.0) == MinCycle
  {
  }

  /** `(Scrap_pct + rng.normal(0, sd_scrap)).clip(0, 0.35)`. */
  function PerturbScrap(scrap: real, sdScrap: real, z: real): (s: real)
    ensures 0.0 <= s <= MaxScrap
    ensures 0.0 <= scrap + sdScrap * z <= MaxScrap ==> s == scrap + sdScrap * z
  {
    Clip(scrap + sdScrap * z, 0.0, MaxScrap)
  }

  /** The draws of an iteration fit a routing: one cycle and one scrap draw per step. */
  predicate Fits(d: Draw, routing: seq<RoutingStep>)
  {
    |d.cycle| == |routing| && |d.scrap| == |routing|
  }

  /** The routing of one iteration: each step's cycle time and scrap perturbed by its own
      draws, every other column unchanged. */
  function PerturbRouting(ed: Edition, routing: seq<RoutingStep>, sdCycle: real, sdScrap: real,
                          d: Draw): (r: seq<RoutingStep>)
    requires Fits(d, routing)
    ensures |r| == |routing|
    ensures forall i :: 0 <= i < |routing| ==>
      r[i] == routing[i].(cycleMin := PerturbCycle(ed, routing[i].cycleMin, sdCycle, d.cycle[i]),
                          scrapPct := PerturbScrap(routing[i].scrapPct, sdScrap, d.scrap[i]))
  {
    seq(|routing|, i requires 0 <= i < |routing| =>
      routing[i].(cycleMin := PerturbCycle(ed, routing[i].cycleMin, sdCycle, d.cycle[i]),
                  scrapPct := PerturbScrap(routing[i].scrapPct, sdScrap, d.scrap[i])))
  }

  /** The Monte-Carlo inputs besides the routing and the draws. */
  datatype McInputs = McInputs(
    bom: seq<BomLine>, q: int, netKg: real, matMu: real,
    sdMat: real, sdCycle: real, sdScrap: real, rates: Rates, lp: LeanParams)

  /** The unit cost one iteration records. */
  function Sample(ed: Edition, routing: seq<RoutingStep>, m: McInputs, d: Draw): real
    requires m.q >= 1 && Fits(d, routing)
  {
    CostSpec(ed, PerturbRouting(ed, routing, m.sdCycle, m.sdScrap, d), m.bom, m.q, m.netKg,
             PerturbPrice(m.matMu, m.sdMat, d.mat), m.rates, m.lp).totalPc
  }

  /** One iteration of `run_mc`: perturb the price and the routing with the draws, then
      record the unit cost `cost_once` gives. */
  method Iteration(ed: Edition, routing: seq<RoutingStep>, m: McInputs, d: Draw)
    returns (sample: real)
    requires m.q >= 1 && Fits(d, routing)
    ensures sample == Sample(ed, routing, m, d)
  {
    var matPrice := PerturbPrice(m.matMu, m.sdMat, d.mat);
    var r := PerturbRouting(ed, routing, m.sdCycle, m.sdScrap, d);
    var rr := CostOnce(ed, r, m.bom, m.q, m.netKg, matPrice, m.rates, m.lp);
    sample := rr.totalPc;
  }

  /** `run_mc`: one iteration per draw, each appending the unit cost of the perturbed
      inputs. */
  method RunMc(ed: Edition, routing: seq<RoutingStep>, m: McInputs, draws: seq<Draw>)
    returns (out: seq<real>)
    requires m.q >= 1
    requires forall k :: 0 <= k < |draws| ==> Fits(draws[k], routing)
    ensures |out| == |draws|
    ensures forall k :: 0 <= k < |draws| ==> out[k] == Sample(ed, routing, m, draws[k])
  {
    out := [];
    var k := 0;
    while k < |draws|
      invariant 0 <= k <= |draws|
      invariant |out| == k
      invariant forall j :: 0 <= j < k ==> out[j] == Sample(ed, routing, m, draws[j])
    {
      var sample := Iteration(ed, routing, m, draws[k]);
      out := out + [sample];
      k := k + 1;
    }
  }

  /** One app.py iteration as the code stands. `1.0 + rng.normal(0.0, sd_cycle, size=len(r))`
      is a NumPy array, and `ndarray.clip` has no `lower` keyword, so the cycle-time line
      raises for every non-empty routing (every routing carries `Cycle_min`). Only an empty
      routing, which skips that line, records a sample. */
  function AppIterationAsWritten(routing: seq<RoutingStep>, m: McInputs, d: Draw)
    : (r: Option<real>)
    requires m.q >= 1 && Fits(d, routing)
    ensures r.None? <==> routing != []
    ensures r.Some? ==> r.value == Sample(AppPy, routing, m, d)
  {
    if routing == [] then Some(Sample(AppPy, routing, m, d)) else None
  }

  /** app.py's `run_mc` as the code stands: the loop stops with the exception at the first
      iteration that fails, and otherwise returns one sample per draw. */
  method AppRunMcAsWritten(routing: seq<RoutingStep>, m: McInputs, draws: seq<Draw>)
    returns (out: Option<seq<real>>)
    requires m.q >= 1
    requires forall k :: 0 <= k < |draws| ==> Fits(draws[k], routing)
    ensures out.None? <==> routing != [] && |draws| > 0
    ensures out.Some? ==> |out.value| == |draws|
    ensures out.Some? ==>
      forall k :: 0 <= k < |draws| ==> out.value[k] == Sample(AppPy, routing, m, draws[k])
  {
    var samples: seq<real> := [];
    var k := 0;
    while k < |draws|
      invariant 0 <= k <= |draws|
      invariant |samples| == k
      invariant k > 0 ==> routing == []
      invariant forall j :: 0 <= j < k ==> samples[j] == Sample(AppPy, routing, m, draws[j])
    {
      var sample := AppIterationAsWritten(routing, m, draws[k]);
      if sample.None? {
        return None;
      }
      samples := samples + [sample.value];
      k := k + 1;
    }
    out := Some(samples);
  }

  /** A one-step routing and one iteration: app.py as it stands records no sample, while
      the intended factor clip gives the step's cycle time times `max(0.05, 1 + sd * z)`. */
  lemma OneStepRoutingGivesNoSample(s: RoutingStep, m: McInputs, d: Draw)
    requires m.q >= 1 && Fits(d, [s])
    ensures AppIterationAsWritten([s], m, d) == None
    ensures PerturbRouting(AppPy, [s], m.sdCycle, m.sdScrap, d)[0].cycleMin
         == s.cycleMin * Max(MinCycle, 1.0 + m.sdCycle * d.cycle[0])
  {
  }

  /** Every iteration prices material at 0.01 or more and runs every step with scrap in
      [0, 0.35]; utils/Shared.py also keeps every cycle time at 0.05 or more. */
  lemma IterationClamps(ed: Edition, routing: seq<RoutingStep>, m: McInputs, d: Draw)
    requires Fits(d, routing)
    ensures PerturbPrice(m.matMu, m.sdMat, d.mat) >= MinPrice
    ensures var r := PerturbRouting(ed, routing, m.sdCycle, m.sdScrap, d);
      forall i :: 0 <= i < |r| ==> 0.0 <= r[i].scrapPct <= MaxScrap
    ensures var r := PerturbRouting(SharedPy, routing, m.sdCycle, m.sdScrap, d);
      forall i :: 0 <= i < |r| ==> r[i].cycleMin >= MinCycle
  {
    var r := PerturbRouting(SharedPy, routing, m.sdCycle, m.sdScrap, d);
    forall i | 0 <= i < |r| ensures r[i].cycleMin >= MinCycle {
      CycleClamp(routing[i].cycleMin, m.sdCycle, d.cycle[i]);
    }
  }

  /** All draws zero. */
  predicate ZeroDraw(d: Draw)
  {
    d.mat == 0.0 && (forall i :: 0 <= i < |d.cycle| ==> d.cycle[i] == 0.0)
      && (forall i :: 0 <= i < |d.scrap| ==> d.scrap[i] == 0.0)
  }

  /** The nominal inputs already lie inside the clamps (utils/Shared.py also needs every
      cycle time at 0.05 or more; app.py's factor clip lets any cycle time through). */
  predicate InsideClamps(ed: Edition, routing: seq<RoutingStep>, matMu: real)
  {
    matMu >= MinPrice
      && (forall i :: 0 <= i < |routing| ==> 0.0 <= routing[i].scrapPct <= MaxScrap)
      && (ed == SharedPy ==> forall i :: 0 <= i < |routing| ==> routing[i].cycleMin >= MinCycle)
  }

  /** With zero draws and nominal inputs inside the clamps nothing is perturbed. */
  lemma ZeroDrawKeepsRouting(ed: Edition, routing: seq<RoutingStep>, m: McInputs, d: Draw)
    requires Fits(d, routing) && ZeroDraw(d) && InsideClamps(ed, routing, m.matMu)
    ensures PerturbRouting(ed, routing, m.sdCycle, m.sdScrap, d) == routing
    ensures PerturbPrice(m.matMu, m.sdMat, d.mat) == m.matMu
  {
    var r := PerturbRouting(ed, routing, m.sdCycle, m.sdScrap, d);
    forall i | 0 <= i < |routing| ensures r[i] == routing[i] {
      assert d.cycle[i] == 0.0 && d.scrap[i] == 0.0;
      assert m.sdCycle * d.cycle[i] == 0.0;
      assert m.sdScrap * d.scrap[i] == 0.0;
    }
    assert m.sdMat * m.matMu * d.mat == 0.0;
  }

  /** If every draw is zero and the nominal inputs lie inside the clamps, every sample is
      the unit cost of the nominal inputs. */
  lemma ZeroDrawsGiveNominalCost(ed: Edition, routing: seq<RoutingStep>, m: McInputs,
                                 draws: seq<Draw>, out: seq<real>)
    requires m.q >= 1 && InsideClamps(ed, routing, m.matMu)
    requires forall k :: 0 <= k < |draws| ==> Fits(draws[k], routing) && ZeroDraw(draws[k])
    requires |out| == |draws|
    requires forall k :: 0 <= k < |draws| ==> out[k] == Sample(ed, routing, m, draws[k])
    ensures forall k :: 0 <= k < |out| ==>
      out[k] == CostSpec(ed, routing, m.bom, m.q, m.netKg, m.matMu, m.rates, m.lp).totalPc
  {
    forall k | 0 <= k < |out|
      ensures out[k] == CostSpec(ed, routing, m.bom, m.q, m.netKg, m.matMu, m.rates, m.lp).totalPc
    {
      ZeroDrawKeepsRouting(ed, routing, m, draws[k]);
    }
  }
}
