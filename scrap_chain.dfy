/** Scrap propagation (`propagate_scrap`): walking the routing from the last step to the
    first, each step must take in what the next step needs divided by its own good
    fraction `max(1e-9, 1 - Scrap_pct)`. */
module ScrapChain {
  import opened Common
  import opened Routing

  /** The lower bound on a step's good fraction. */
  const Epsilon: real := 0.000000001

  /** The good fraction of a step, `max(1e-9, 1 - scrap)`. */
  function Good(scrap: real): (g: real)
    ensures g >= Epsilon
    ensures scrap <= 1.0 - Epsilon ==> g == 1.0 - scrap
    ensures 0.0 <= scrap ==> g <= 1.0
  {
    Max(Epsilon, 1.0 - scrap)
  }

  /** The quantity that must enter step `i` of the ordered routing `ss` so that `q`
      good parts leave its last step. */
  function InputQty(ss: seq<RoutingStep>, i: nat, q: real): real
    requires i <= |ss|
    decreases |ss| - i
  {
    if i == |ss| then q else InputQty(ss, i + 1, q) / Good(ss[i].scrapPct)
  }

  /** A routing row annotated with its `Eff_Input_Qty`. */
  datatype Propagated = Propagated(row: RoutingStep, effInputQty: real)

  /** The rows of an annotated routing. */
  function Rows(ps: seq<Propagated>): (r: seq<RoutingStep>)
    ensures |r| == |ps|
    ensures forall i :: 0 <= i < |ps| ==> r[i] == ps[i].row
  {
    seq(|ps|, i requires 0 <= i < |ps| => ps[i].row)
  }

  /** What `propagate_scrap(df, Q)` returns: the routing in Step order, each row annotated
      with the quantity it must take in. */
  function Propagation(rows: seq<RoutingStep>, q: int): seq<Propagated>
  {
    var ss := SortByStep(rows);
    seq(|ss|, i requires 0 <= i < |ss| => Propagated(ss[i], InputQty(ss, i, q as real)))
  }

  /** `propagate_scrap`: sorts by Step, walks the rows from last to first updating `need`
      and collecting the input quantities, then stores them reversed as `Eff_Input_Qty`. */
  method PropagateScrap(rows: seq<RoutingStep>, q: int) returns (out: seq<Propagated>)
    ensures out == Propagation(rows, q)
  {
    var ss := SortByStep(rows);
    var n := |ss|;
    var need := q as real;
    var eff: seq<real> := [];
    var k := n;
    while k > 0
      invariant 0 <= k <= n
      invariant |eff| == n - k
      invariant need == InputQty(ss, k, q as real)
      invariant forall j :: 0 <= j < |eff| ==> eff[j] == InputQty(ss, n - 1 - j, q as real)
    {
      k := k - 1;
      var good := Good(ss[k].scrapPct);
      var inputQty := need / good;
      eff := eff + [inputQty];
      need := inputQty;
    }
    out := seq(n, i requires 0 <= i < n => Propagated(ss[i], eff[n - 1 - i]));
  }

  /** Propagation keeps every row, once each, and puts them in ascending Step order. */
  lemma PropagationKeepsRows(rows: seq<RoutingStep>, q: int)
    ensures |Propagation(rows, q)| == |rows|
    ensures multiset(Rows(Propagation(rows, q))) == multiset(rows)
    ensures StepSorted(Rows(Propagation(rows, q)))
  {
    assert Rows(Propagation(rows, q)) == SortByStep(rows);
  }

  /** The last step takes in exactly enough for `Q` good parts to leave it. */
  lemma LastStepYieldsTarget(rows: seq<RoutingStep>, q: int)
    requires |rows| > 0
    ensures var p := Propagation(rows, q);
      p[|p| - 1].effInputQty * Good(p[|p| - 1].row.scrapPct) == q as real
  {
    var ss := SortByStep(rows);
    var n := |ss|;
    assert InputQty(ss, n, q as real) == q as real;
  }

  /** Each step takes in what the next step takes in, grossed up by its own scrap. */
  lemma EachStepFeedsTheNext(rows: seq<RoutingStep>, q: int, i: nat)
    requires i + 1 < |rows|
    ensures var p := Propagation(rows, q);
      p[i].effInputQty * Good(p[i].row.scrapPct) == p[i + 1].effInputQty
  {
  }

  /** With no scrap anywhere, every step takes in exactly the target quantity. */
  lemma {:induction false} InputQtyWithoutScrap(ss: seq<RoutingStep>, i: nat, q: real)
    requires i <= |ss|
    requires forall k :: 0 <= k < |ss| ==> ss[k].scrapPct == 0.0
    ensures InputQty(ss, i, q) == q
    decreases |ss| - i
  {
    if i < |ss| {
      InputQtyWithoutScrap(ss, i + 1, q);
    }
  }

  /** Zero scrap on every row: every `Eff_Input_Qty` equals `Q`. */
  lemma ZeroScrapKeepsTarget(rows: seq<RoutingStep>, q: int)
    requires forall k :: 0 <= k < |rows| ==> rows[k].scrapPct == 0.0
    ensures forall i :: 0 <= i < |rows| ==> Propagation(rows, q)[i].effInputQty == q as real
  {
    var ss := SortByStep(rows);
    forall k | 0 <= k < |ss| ensures ss[k].scrapPct == 0.0 {
      SortedRowsAreRows(rows, k);
    }
    var p := Propagation(rows, q);
    forall i | 0 <= i < |p| ensures p[i].effInputQty == q as real {
      InputQtyWithoutScrap(ss, i, q as real);
    }
  }

  /** Dividing a non-negative quantity by a fraction in (0, 1] never makes it smaller. */
  lemma GrossUpNotSmaller(x: real, g: real)
    requires 0.0 <= x && 0.0 < g <= 1.0
    ensures x / g >= x
  {
    var y := x / g;
    assert y * g == x;
  }

  /** Under scrap in [0, 1), input quantities are at least the target and do not grow
      along the routing. */
  lemma {:induction false} InputQtyAntitone(ss: seq<RoutingStep>, i: nat, j: nat, q: real)
    requires i <= j <= |ss|
    requires 0.0 <= q
    requires forall k :: 0 <= k < |ss| ==> 0.0 <= ss[k].scrapPct < 1.0
    ensures InputQty(ss, i, q) >= InputQty(ss, j, q) >= q
    decreases |ss| - i
  {
    if i == j {
      if j < |ss| {
        InputQtyAntitone(ss, j + 1, j + 1, q);
        GrossUpNotSmaller(InputQty(ss, j + 1, q), Good(ss[j].scrapPct));
      }
    } else {
      InputQtyAntitone(ss, i + 1, j, q);
      GrossUpNotSmaller(InputQty(ss, i + 1, q), Good(ss[i].scrapPct));
    }
  }

  /** With scrap in [0, 1) on every row and `Q >= 0`: every `Eff_Input_Qty` is at least `Q`,
      and the values do not increase along Step order. */
  lemma ScrapChainMonotone(rows: seq<RoutingStep>, q: int)
    requires 0 <= q
    requires forall k :: 0 <= k < |rows| ==> 0.0 <= rows[k].scrapPct < 1.0
    ensures var p := Propagation(rows, q);
      forall i :: 0 <= i < |p| ==> p[i].effInputQty >= q as real
    ensures var p := Propagation(rows, q);
      forall i, j :: 0 <= i < j < |p| ==> p[i].effInputQty >= p[j].effInputQty
  {
    var ss := SortByStep(rows);
    forall k | 0 <= k < |ss| ensures 0.0 <= ss[k].scrapPct < 1.0 {
      SortedRowsAreRows(rows, k);
    }
    var p := Propagation(rows, q);
    forall i, j | 0 <= i <= j < |p|
      ensures p[i].effInputQty >= p[j].effInputQty >= q as real
    {
      InputQtyAntitone(ss, i, j, q as real);
    }
  }
}
