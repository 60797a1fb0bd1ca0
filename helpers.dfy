/** The small rules around the engine in app.py: the EUR/ton to EUR/kg conversion, the
    12-month price projection, the column checks of an imported CSV, and the rule table that
    proposes a routing for a part type. */
module Helpers {
  import opened Common
  import opened Routing

  /** `eurton_to_eurkg` (app.py) and `eurton` (utils/Shared.py): a missing or zero price
      per ton is 0 per kg, otherwise a thousandth of it. */
  function EurtonToEurkg(v: Option<real>): (r: real)
    ensures v == None ==> r == 0.0
    ensures v != None ==> r * 1000.0 == v.value
  {
    (if v == None then 0.0 else v.value) / 1000.0
  }

  /** Converting to EUR/kg and back gives the price per ton, and the conversion keeps order. */
  lemma EurtonOrder(x: real, y: real)
    ensures x <= y ==> EurtonToEurkg(Some(x)) <= EurtonToEurkg(Some(y))
    ensures EurtonToEurkg(Some(x)) * 1000.0 == x
  {
  }

  /** One point of the projection. */
  datatype ProjPoint = ProjPoint(month: int, eurKg: real)

  /** The price after `k` months: each month multiplies the previous one by `1 + chg`. */
  function Projected(base: real, chg: real, k: nat): real
  {
    if k == 0 then base else Projected(base, chg, k - 1) * (1.0 + chg)
  }

  /** `project_12m`: months 0 to 12, starting at the base price and compounding the monthly
      change. */
  method Project12m(base: real, chg: real) returns (proj: seq<ProjPoint>)
    ensures |proj| == 13
    ensures forall k :: 0 <= k < 13 ==> proj[k] == ProjPoint(k, Projected(base, chg, k))
  {
    var vals := [base];
    var i := 0;
    while i < 12
      invariant 0 <= i <= 12
      invariant |vals| == i + 1
      invariant forall k :: 0 <= k <= i ==> vals[k] == Projected(base, chg, k)
    {
      var next := vals[i] * (1.0 + chg);
      assert next == Projected(base, chg, i + 1);
      vals := vals + [next];
      i := i + 1;
    }
    proj := seq(13, k requires 0 <= k < 13 => ProjPoint(k, vals[k]));
  }

  /** The projection is geometric: month `k` is `base * (1 + chg)^k`. */
  lemma {:induction false} ProjectedIsGeometric(base: real, chg: real, k: nat)
    ensures Projected(base, chg, k) == base * Pow(1.0 + chg, k)
  {
    if k > 0 {
      ProjectedIsGeometric(base, chg, k - 1);
      MulAssoc(base, Pow(1.0 + chg, k - 1), 1.0 + chg);
    }
  }

  /** `(a * b) * c == a * (b * c)`. */
  lemma MulAssoc(a: real, b: real, c: real)
    ensures (a * b) * c == a * (b * c)
  {
  }

  /** With no monthly change the price stays flat. */
  lemma {:induction false} FlatWithoutChange(base: real, k: nat)
    ensures Projected(base, 0.0, k) == base
  {
    if k > 0 {
      FlatWithoutChange(base, k - 1);
    }
  }

  /** A non-negative price with a non-negative change never falls from one month to a
      later one. */
  lemma {:induction false} RisingWithGrowth(base: real, chg: real, j: nat, k: nat)
    requires base >= 0.0 && chg >= 0.0 && j <= k
    ensures 0.0 <= Projected(base, chg, j) <= Projected(base, chg, k)
    decreases k
  {
    if k > j {
      RisingWithGrowth(base, chg, j, k - 1);
      var p := Projected(base, chg, k - 1);
      assert p * (1.0 + chg) == p + p * chg;
      assert p * chg >= 0.0;
    } else if j > 0 {
      RisingWithGrowth(base, chg, j - 1, j - 1);
      var p := Projected(base, chg, j - 1);
      assert p * (1.0 + chg) >= 0.0;
    }
  }

  /** The required columns missing from an imported table, in the required order
      (`[c for c in COLS if c not in df]`). */
  function MissingCols(required: seq<string>, present: set<string>): (m: seq<string>)
    ensures forall c :: c in m <==> c in required && c !in present
    ensures |m| <= |required|
  {
    if required == [] then []
    else (if required[0] in present then [] else [required[0]])
         + MissingCols(required[1..], present)
  }

  /** Nothing is missing exactly when every required column is present. */
  lemma NoneMissingIffAllPresent(required: seq<string>, present: set<string>)
    ensures MissingCols(required, present) == []
        <==> forall i :: 0 <= i < |required| ==> required[i] in present
  {
    var m := MissingCols(required, present);
    if m != [] {
      assert m[0] in m;
    } else {
      forall i | 0 <= i < |required| ensures required[i] in present {
        assert required[i] in required;
      }
    }
  }

  /** The outcome of importing a CSV: the accepted rows, or the message naming the missing
      columns. */
  datatype Imported<T> = Accepted(rows: T) | Rejected(message: string, missing: seq<string>)

  /** `validate_routing_csv`: a table lacking a routing column is rejected with the missing
      names; otherwise its rows are returned in ascending Step order. */
  function ValidateRoutingCsv(cols: set<string>, rows: seq<RoutingStep>)
    : (r: Imported<seq<RoutingStep>>)
    ensures r.Accepted? <==> forall i :: 0 <= i < |RoutingCols| ==> RoutingCols[i] in cols
    ensures r.Accepted? ==> StepSorted(r.rows) && multiset(r.rows) == multiset(rows)
    ensures r.Rejected? ==> r.message == "Routing CSV mist" && r.missing != []
                            && forall c :: c in r.missing <==> c in RoutingCols && c !in cols
  {
    NoneMissingIffAllPresent(RoutingCols, cols);
    var miss := MissingCols(RoutingCols, cols);
    if miss != [] then Rejected("Routing CSV mist", miss) else Accepted(SortByStep(rows))
  }

  /** `validate_bom_csv`: a table lacking a BOM column is rejected with the missing names;
      otherwise its rows are returned in their own order. */
  function ValidateBomCsv(cols: set<string>, rows: seq<BomLine>): (r: Imported<seq<BomLine>>)
    ensures r.Accepted? <==> forall i :: 0 <= i < |BomCols| ==> BomCols[i] in cols
    ensures r.Accepted? ==> r.rows == rows
    ensures r.Rejected? ==> r.message == "BOM CSV mist" && r.missing != []
                            && forall c :: c in r.missing <==> c in BomCols && c !in cols
  {
    NoneMissingIffAllPresent(BomCols, cols);
    var miss := MissingCols(BomCols, cols);
    if miss != [] then Rejected("BOM CSV mist", miss) else Accepted(rows)
  }

  /** The part types the auto-routing knows. */
  datatype PartType = TurnedShaft | MilledBracket | WeldedFrame | SheetMetal | CastHousing

  /** The label a part type has in the part-type choice. */
  function Label(t: PartType): string
  {
    match t
    case TurnedShaft => "Gedraaide as / gefreesd deel"
    case MilledBracket => "Gefreesde beugel (massief)"
    case WeldedFrame => "Lasframe / samenstel"
    case SheetMetal => "Plaatwerk kast / bracket"
    case CastHousing => "Gietstuk behuizing (CNC na-frees)"
  }

  /** The part type a label names, if any: the `pt == "..."` tests of the rule table. */
  function PartTypeOf(pt: string): (t: Option<PartType>)
    ensures t.Some? ==> Label(t.value) == pt
    ensures t.None? ==> forall k: PartType :: Label(k) != pt
  {
    if pt == Label(TurnedShaft) then Some(TurnedShaft)
    else if pt == Label(MilledBracket) then Some(MilledBracket)
    else if pt == Label(WeldedFrame) then Some(WeldedFrame)
    else if pt == Label(SheetMetal) then Some(SheetMetal)
    else if pt == Label(CastHousing) then Some(CastHousing)
    else None
  }

  /** The inner `row` helper: one generated step, with the cycle time raised to at least
      0.1, setup and energy to at least 0, one part per parent, one machine, batches of 50
      and half a day of queue. */
  function AutoRow(step: real, proces: string, cyc: real, setup: real, attend: real,
                   kwh: real, qa: real, scrap: real): (r: RoutingStep)
    ensures r.step == step && r.proces == proces && r.attendPct == attend
    ensures r.qaMinPc == qa && r.scrapPct == scrap
    ensures r.cycleMin >= 0.1 && (cyc >= 0.1 ==> r.cycleMin == cyc)
    ensures r.setupMin >= 0.0 && (setup >= 0.0 ==> r.setupMin == setup)
    ensures r.kwhPc >= 0.0 && (kwh >= 0.0 ==> r.kwhPc == kwh)
  {
    RoutingStep(step, proces, 1.0, Max(0.1, cyc), Max(0.0, setup), attend, Max(0.0, kwh), qa,
                scrap, 1.0, 50.0, 0.5)
  }

  /** What every generated step satisfies: a known process, the clamps of the row helper,
      and the fixed columns. */
  predicate GeneratedStep(r: RoutingStep)
  {
    r.proces in MachineRates && r.cycleMin >= 0.1 && r.setupMin >= 0.0 && r.kwhPc >= 0.0
      && r.qtyPerParent == 1.0 && r.parallelMachines == 1.0 && r.batchSize == 50.0
      && r.queueDays == 0.5 && 0.0 <= r.scrapPct < 1.0 && 0.0 < r.attendPct <= 100.0
  }

  /** Steps in strictly ascending order. */
  predicate StrictlyAscending(s: seq<RoutingStep>)
  {
    forall i :: 0 < i < |s| ==> s[i - 1].step < s[i].step
  }

  /** A routing as the rule table builds it: generated steps in strictly ascending order,
      starting at Step 10. */
  predicate Building(s: seq<RoutingStep>)
  {
    (forall i :: 0 <= i < |s| ==> GeneratedStep(s[i])) && StrictlyAscending(s)
      && (s != [] ==> s[0].step == 10.0)
  }

  /** The inner `row` helper as the rule table calls it: appends one step, always with a
      known process, a scrap fraction below 1, a positive attendance and a Step after the
      last one (Step 10 for the first), which keeps the rows as the rule table builds them. */
  method AppendRow(rows: seq<RoutingStep>, step: real, proces: string, cyc: real, setup: real,
                   attend: real, kwh: real, qa: real, scrap: real)
    returns (out: seq<RoutingStep>)
    requires Building(rows) && proces in MachineRates
    requires 0.0 <= scrap < 1.0 && 0.0 < attend <= 100.0
    requires if rows == [] then step == 10.0 else rows[|rows| - 1].step < step
    ensures out == rows + [AutoRow(step, proces, cyc, setup, attend, kwh, qa, scrap)]
    ensures Building(out)
  {
    out := rows + [AutoRow(step, proces, cyc, setup, attend, kwh, qa, scrap)];
  }

  /** What the rule table yields for every known part type: at least two steps built as
      above, assembly last. */
  predicate WellFormedRouting(s: seq<RoutingStep>)
  {
    |s| >= 2 && Building(s) && s[|s| - 1].proces == "Montage"
  }

  /** Strictly ascending steps are in ascending Step order. */
  lemma {:induction false} AscendingIsSorted(s: seq<RoutingStep>)
    requires StrictlyAscending(s)
    ensures StepSorted(s)
  {
    if |s| > 1 {
      var init := s[..|s| - 1];
      assert StrictlyAscending(init) by {
        forall i | 0 < i < |init| ensures init[i - 1].step < init[i].step {
          assert init[i - 1] == s[i - 1] && init[i] == s[i];
        }
      }
      AscendingIsSorted(init);
      forall i, j | 0 <= i < j < |s| ensures s[i].step <= s[j].step {
        if j < |s| - 1 {
          assert init[i] == s[i] && init[j] == s[j];
        } else if i < j - 1 {
          assert init[i] == s[i] && init[j - 1] == s[j - 1];
        }
      }
    }
  }

  /** `sort_values("Step")` leaves a generated routing as it is. */
  lemma SortKeepsGenerated(s: seq<RoutingStep>)
    requires WellFormedRouting(s)
    ensures SortByStep(s) == s && StepSorted(s)
  {
    AscendingIsSorted(s);
    SortSortedKeeps(s);
  }

  /** Every label names its own part type. */
  lemma LabelsRecognised(k: PartType)
    ensures PartTypeOf(Label(k)) == Some(k)
  {
  }

  /** How many steps a part type gets: the sheet-metal type has a bending step only when
      there are bends. */
  function StepCount(t: PartType, bends: int): nat
  {
    match t
    case TurnedShaft => 2
    case MilledBracket => 2
    case WeldedFrame => 4
    case SheetMetal => if bends > 0 then 4 else 3
    case CastHousing => 3
  }

  /** The turned-shaft rows: turning, then assembly. */
  method TurnedShaftRows(h: real) returns (rows: seq<RoutingStep>)
    ensures |rows| == 2 && WellFormedRouting(rows)
  {
    rows := AppendRow([], 10.0, "CNC", 8.0 + 0.4 * h, 25.0, 100.0, 0.20, 0.5, 0.02);
    rows := AppendRow(rows, 20.0, "Montage", 4.0 + 0.3 * h, 10.0, 100.0, 0.05, 0.8, 0.00);
  }

  /** The milled-bracket rows: milling, then assembly. */
  method MilledBracketRows(h: real) returns (rows: seq<RoutingStep>)
    ensures |rows| == 2 && WellFormedRouting(rows)
  {
    rows := AppendRow([], 10.0, "CNC", 10.0 + 0.5 * h, 30.0, 100.0, 0.25, 0.6, 0.025);
    rows := AppendRow(rows, 20.0, "Montage", 5.0 + 0.3 * h, 10.0, 100.0, 0.05, 1.0, 0.00);
  }

  /** The welded-frame rows: laser cutting, welding, machining, assembly. */
  method WeldedFrameRows(h: real, weldM: real, panels: int) returns (rows: seq<RoutingStep>)
    ensures |rows| == 4 && WellFormedRouting(rows)
  {
    rows := AppendRow([], 10.0, "Laser", 3.0 + 0.8 * panels as real, 20.0, 50.0, 0.50, 0.3, 0.01);
    rows := AppendRow(rows, 20.0, "Lassen", 6.0 + 6.0 * weldM, 20.0, 100.0, 0.35, 0.5, 0.015);
    rows := AppendRow(rows, 30.0, "CNC", 4.0 + 0.3 * h, 15.0, 100.0, 0.20, 0.5, 0.01);
    rows := AppendRow(rows, 40.0, "Montage", 6.0 + 0.3 * h, 10.0, 100.0, 0.05, 1.0, 0.00);
  }

  /** The sheet-metal rows: laser cutting, bending when there are bends, machining,
      assembly. */
  method SheetMetalRows(h: real, bends: int, panels: int) returns (rows: seq<RoutingStep>)
    ensures |rows| == (if bends > 0 then 4 else 3) && WellFormedRouting(rows)
  {
    rows := AppendRow([], 10.0, "Laser", 3.0 + 0.6 * panels as real, 20.0, 50.0, 0.50, 0.3, 0.012);
    if bends > 0 {
      rows := AppendRow(rows, 20.0, "Buigen", 1.6 * bends as real + 0.2 * panels as real, 15.0,
                        100.0, 0.10, 0.2, 0.008);
    }
    rows := AppendRow(rows, 30.0, "CNC", 2.5 + 0.25 * h, 10.0, 100.0, 0.15, 0.4, 0.01);
    rows := AppendRow(rows, 40.0, "Montage", 5.0 + 0.25 * h, 8.0, 100.0, 0.05, 0.8, 0.00);
  }

  /** The cast-housing rows: casting, machining, assembly. */
  method CastHousingRows(h: real) returns (rows: seq<RoutingStep>)
    ensures |rows| == 3 && WellFormedRouting(rows)
  {
    rows := AppendRow([], 10.0, "Casting", 1.2, 60.0, 50.0, 0.40, 0.2, 0.03);
    rows := AppendRow(rows, 20.0, "CNC", 6.0 + 0.4 * h, 25.0, 100.0, 0.25, 0.6, 0.015);
    rows := AppendRow(rows, 30.0, "Montage", 4.0 + 0.2 * h, 8.0, 100.0, 0.05, 0.8, 0.00);
  }

  /** The rule table of `generate_autorouting` for a known part type: the steps its inner
      `row` helper appends, in the order it appends them. */
  method RuleTable(t: PartType, holes: int, bends: int, weldM: real, panels: int)
    returns (rows: seq<RoutingStep>)
    ensures |rows| == StepCount(t, bends)
    ensures WellFormedRouting(rows) && StepSorted(rows)
  {
    var h := holes as real;
    match t {
      case TurnedShaft => rows := TurnedShaftRows(h);
      case MilledBracket => rows := MilledBracketRows(h);
      case WeldedFrame => rows := WeldedFrameRows(h, weldM, panels);
      case SheetMetal => rows := SheetMetalRows(h, bends, panels);
      case CastHousing => rows := CastHousingRows(h);
    }
    AscendingIsSorted(rows);
  }

  /** `generate_autorouting`: the rule table of a known part type; an unknown type yields no
      routing (the source then fails on sorting an empty table). The rows are built in
      ascending Step order, so the closing `sort_values("Step")` returns them as they are
      (SortKeepsGenerated). */
  method GenerateAutorouting(pt: string, holes: int, bends: int, weldM: real, panels: int)
    returns (r: Option<seq<RoutingStep>>)
    ensures r.None? <==> forall k: PartType :: Label(k) != pt
    ensures r.Some? ==> PartTypeOf(pt).Some? && |r.value| == StepCount(PartTypeOf(pt).value, bends)
    ensures r.Some? ==> WellFormedRouting(r.value) && StepSorted(r.value)
  {
    var t := PartTypeOf(pt);
    if t == None {
      return None;
    }
    var rows := RuleTable(t.value, holes, bends, weldM, panels);
    r := Some(rows);
  }
}
