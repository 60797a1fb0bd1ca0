/** The capacity table (`capacity_table`): hours needed per step against the hours available,
    summed per process, with utilisation recomputed on the sums and the table ordered from
    the most to the least loaded process; its first row is the bottleneck. */
module Capacity {
  import opened Common
  import opened Routing
  import opened ScrapChain
  import opened CostRollup

  /** The floor `max(cap_h, 1e-6)` puts under a positive capacity. */
  const MinCap: real := 0.000001

  /** One row of the table, one field per column (Proces, Hours_need, Hours_cap, Util_pct,
      Batches, Setup_min, Cycle_min, also the columns of the empty table); `util` is `None`
      where pandas holds NaN. */
  datatype CapRow = CapRow(
    proces: string, hoursNeed: real, hoursCap: real, util: Option<real>,
    batches: int, setupMin: real, cycleMin: real)

  /** `cap_per_process.get(proc, hours_per_day)`. */
  function CapFor(hoursPerDay: real, capPerProcess: map<string, real>, proc: string): real
  {
    if proc in capPerProcess then capPerProcess[proc] else hoursPerDay
  }

  /** A step's own utilisation, `need_h / max(cap_h, 1e-6)` if `cap_h > 0`, else NaN. */
  function StepUtil(need: real, cap: real): (u: Option<real>)
    ensures u == None <==> cap <= 0.0
    ensures cap >= MinCap ==> u == Some(need / cap)
  {
    if cap > 0.0 then Some(need / Max(cap, MinCap)) else None
  }

  /** The row `capacity_table` appends for one propagated step. */
  function StepLoad(p: Propagated, hoursPerDay: real, capPerProcess: map<string, real>): CapRow
  {
    var t := TimesOf(p);
    var need := t.machineMin / 60.0;
    var cap := CapFor(hoursPerDay, capPerProcess, p.row.proces);
    CapRow(p.row.proces, need, cap, StepUtil(need, cap), t.batches, t.setupMin, t.cycleMin)
  }

  /** A step needs its machine minutes in hours (setup per batch plus cycle per unit, shared
      by the parallel machines) and is offered its process capacity or `hours_per_day`. */
  lemma StepLoadLaws(p: Propagated, hoursPerDay: real, capPerProcess: map<string, real>)
    ensures var l := StepLoad(p, hoursPerDay, capPerProcess);
      var t := TimesOf(p);
      && l.proces == p.row.proces
      && l.hoursNeed * 60.0 * t.par as real == t.setupMin + t.cycleMin
      && l.setupMin == p.row.setupMin * l.batches as real
      && l.cycleMin == p.row.cycleMin * p.effInputQty
      && (p.row.proces in capPerProcess ==> l.hoursCap == capPerProcess[p.row.proces])
      && (p.row.proces !in capPerProcess ==> l.hoursCap == hoursPerDay)
  {
    StepTimesLaws(p);
    var t := TimesOf(p);
    assert (t.machineMin / 60.0) * 60.0 == t.machineMin;
  }

  /** The rows the loop collects, one per propagated step. */
  function Loads(ps: seq<Propagated>, hoursPerDay: real, capPerProcess: map<string, real>)
    : (ls: seq<CapRow>)
    ensures |ls| == |ps|
  {
    seq(|ps|, i requires 0 <= i < |ps| => StepLoad(ps[i], hoursPerDay, capPerProcess))
  }

  /** The numeric columns `groupby(...).sum()` adds up and keeps. */
  datatype Column = HoursNeed | HoursCap | Batches | SetupMin | CycleMin

  /** The value of a numeric column in a row. */
  function Get(r: CapRow, c: Column): real
  {
    match c
    case HoursNeed => r.hoursNeed
    case HoursCap => r.hoursCap
    case Batches => r.batches as real
    case SetupMin => r.setupMin
    case CycleMin => r.cycleMin
  }

  /** NaN counts as 0 in a pandas sum. */
  function NanAsZero(u: Option<real>): real
  {
    match u
    case None => 0.0
    case Some(v) => v
  }

  /** The group a process's first row opens. */
  function Open(x: CapRow): CapRow
  {
    x.(util := Some(NanAsZero(x.util)))
  }

  /** A group with one more row of its process added in. */
  function Merge(g: CapRow, x: CapRow): CapRow
  {
    CapRow(g.proces, g.hoursNeed + x.hoursNeed, g.hoursCap + x.hoursCap,
           Some(NanAsZero(g.util) + NanAsZero(x.util)), g.batches + x.batches,
           g.setupMin + x.setupMin, g.cycleMin + x.cycleMin)
  }

  /** Adds a row to its process's group, opening the group at the end if it is new. */
  function AddToGroup(g: seq<CapRow>, x: CapRow): seq<CapRow>
  {
    if g == [] then [Open(x)]
    else if g[0].proces == x.proces then [Merge(g[0], x)] + g[1..]
    else [g[0]] + AddToGroup(g[1..], x)
  }

  /** `groupby("Proces", as_index=False).sum(numeric_only=True)`, groups in order of
      first appearance. */
  function GroupByProcess(ls: seq<CapRow>): seq<CapRow>
  {
    if ls == [] then [] else AddToGroup(GroupByProcess(ls[..|ls| - 1]), ls[|ls| - 1])
  }

  /** The processes named in a table. */
  function Procs(s: seq<CapRow>): set<string>
  {
    set i | 0 <= i < |s| :: s[i].proces
  }

  /** No process appears twice. */
  predicate Distinct(s: seq<CapRow>)
  {
    forall i, j :: 0 <= i < j < |s| ==> s[i].proces != s[j].proces
  }

  /** The value of column `c` in the group of `p`, 0 if there is none. */
  function GroupVal(g: seq<CapRow>, p: string, c: Column): real
  {
    if g == [] then 0.0 else if g[0].proces == p then Get(g[0], c) else GroupVal(g[1..], p, c)
  }

  /** The sum of column `c` over the rows of process `p`. */
  function SumFor(ls: seq<CapRow>, p: string, c: Column): real
  {
    if ls == [] then 0.0
    else SumFor(ls[..|ls| - 1], p, c) + (if ls[|ls| - 1].proces == p then Get(ls[|ls| - 1], c) else 0.0)
  }

  /** How many rows name process `p`. */
  function CountFor(ls: seq<CapRow>, p: string): nat
  {
    if ls == [] then 0
    else CountFor(ls[..|ls| - 1], p) + (if ls[|ls| - 1].proces == p then 1 else 0)
  }

  /** In a table without repeated processes, a row holds its process's group values. */
  lemma {:induction false} GroupValAt(g: seq<CapRow>, i: nat, c: Column)
    requires Distinct(g) && i < |g|
    ensures GroupVal(g, g[i].proces, c) == Get(g[i], c)
  {
    if i > 0 {
      assert g[0].proces != g[i].proces;
      assert g[1..][i - 1] == g[i];
      GroupValAt(g[1..], i - 1, c);
    }
  }

  /** A row of a new process put in front of a table without repeats. */
  lemma ConsLaws(a: CapRow, r: seq<CapRow>)
    requires Distinct(r) && a.proces !in Procs(r)
    ensures Distinct([a] + r)
    ensures Procs([a] + r) == {a.proces} + Procs(r)
  {
    var h := [a] + r;
    forall i, j | 0 <= i < j < |h| ensures h[i].proces != h[j].proces {
      assert h[j] == r[j - 1];
      if i > 0 {
        assert h[i] == r[i - 1];
      } else {
        assert h[j].proces in Procs(r);
      }
    }
    forall p | p in Procs(h) ensures p in {a.proces} + Procs(r) {
      var i :| 0 <= i < |h| && h[i].proces == p;
      if i > 0 { assert h[i] == r[i - 1]; }
    }
    forall p | p in Procs(r) ensures p in Procs(h) {
      var i :| 0 <= i < |r| && r[i].proces == p;
      assert h[i + 1] == r[i];
    }
    assert h[0] == a;
  }

  /** The first row and the rest of a table without repeats. */
  lemma TailLaws(s: seq<CapRow>)
    requires Distinct(s) && s != []
    ensures Distinct(s[1..])
    ensures s[0].proces !in Procs(s[1..])
    ensures Procs(s) == {s[0].proces} + Procs(s[1..])
  {
    var t := s[1..];
    assert s == [s[0]] + t;
    forall m, n | 0 <= m < n < |t| ensures t[m].proces != t[n].proces {
      assert t[m] == s[m + 1] && t[n] == s[n + 1];
    }
    forall m | 0 <= m < |t| ensures t[m].proces != s[0].proces {
      assert t[m] == s[m + 1];
    }
    forall p | p in Procs(s) ensures p in {s[0].proces} + Procs(t) {
      var i :| 0 <= i < |s| && s[i].proces == p;
      if i > 0 { assert s[i] == t[i - 1]; }
    }
    forall p | p in Procs(t) ensures p in Procs(s) {
      var i :| 0 <= i < |t| && t[i].proces == p;
      assert s[i + 1] == t[i];
    }
  }

  /** Replacing the first row by one of the same process keeps the processes. */
  lemma SameHeadLaws(a: CapRow, s: seq<CapRow>)
    requires Distinct(s) && s != [] && a.proces == s[0].proces
    ensures Distinct([a] + s[1..])
    ensures Procs([a] + s[1..]) == Procs(s)
  {
    TailLaws(s);
    ConsLaws(a, s[1..]);
  }

  /** Adding a row keeps processes distinct, adds its process, and adds its values to that
      process's group only. */
  lemma {:induction false} AddToGroupLaws(g: seq<CapRow>, x: CapRow)
    requires Distinct(g)
    ensures Distinct(AddToGroup(g, x))
    ensures Procs(AddToGroup(g, x)) == Procs(g) + {x.proces}
    ensures forall p, c :: GroupVal(AddToGroup(g, x), p, c)
                        == GroupVal(g, p, c) + (if x.proces == p then Get(x, c) else 0.0)
  {
    if g == [] {
      ConsLaws(Open(x), []);
      assert AddToGroup(g, x) == [Open(x)] + [];
      forall p, c ensures GroupVal([Open(x)], p, c)
                       == GroupVal(g, p, c) + (if x.proces == p then Get(x, c) else 0.0)
      {
        assert [Open(x)][1..] == [];
        match c
        case HoursNeed =>
        case HoursCap =>
        case Batches =>
        case SetupMin =>
        case CycleMin =>
      }
    } else if g[0].proces == x.proces {
      var h := [Merge(g[0], x)] + g[1..];
      SameHeadLaws(Merge(g[0], x), g);
      forall p, c ensures GroupVal(h, p, c)
                       == GroupVal(g, p, c) + (if x.proces == p then Get(x, c) else 0.0)
      {
        assert h[1..] == g[1..];
        match c
        case HoursNeed =>
        case HoursCap =>
        case Batches =>
        case SetupMin =>
        case CycleMin =>
      }
    } else {
      var t := g[1..];
      TailLaws(g);
      AddToGroupLaws(t, x);
      var r := AddToGroup(t, x);
      ConsLaws(g[0], r);
      var h := [g[0]] + r;
      assert h[1..] == r;
    }
  }

  /** Grouping yields one row per process of the input, holding that process's sums. */
  lemma {:induction false} GroupByProcessLaws(ls: seq<CapRow>)
    ensures Distinct(GroupByProcess(ls))
    ensures Procs(GroupByProcess(ls)) == Procs(ls)
    ensures forall p, c :: GroupVal(GroupByProcess(ls), p, c) == SumFor(ls, p, c)
  {
    if ls != [] {
      var init := ls[..|ls| - 1];
      var x := ls[|ls| - 1];
      GroupByProcessLaws(init);
      AddToGroupLaws(GroupByProcess(init), x);
      assert Procs(ls) == Procs(init) + {x.proces} by {
        forall p | p in Procs(ls) ensures p in Procs(init) + {x.proces} {
          var i :| 0 <= i < |ls| && ls[i].proces == p;
          if i < |ls| - 1 { assert init[i] == ls[i]; }
        }
        forall p | p in Procs(init) ensures p in Procs(ls) {
          var i :| 0 <= i < |init| && init[i].proces == p;
          assert ls[i] == init[i];
        }
      }
    }
  }

  /** `(Hours_need / Hours_cap).replace([inf, -inf], NaN)`: a zero capacity gives NaN
      (an infinity, or 0/0), any other capacity the quotient. */
  function Ratio(need: real, cap: real): (u: Option<real>)
    ensures u == None <==> cap == 0.0
    ensures cap != 0.0 ==> u.value * cap == need
  {
    if cap == 0.0 then None
    else
      var v := need / cap;
      assert v * cap == need;
      Some(v)
  }

  /** The grouped table with `Util_pct` recomputed from the summed columns. */
  function RecomputeUtil(g: seq<CapRow>): (r: seq<CapRow>)
    ensures |r| == |g|
    ensures forall i :: 0 <= i < |g| ==> r[i] == g[i].(util := Ratio(g[i].hoursNeed, g[i].hoursCap))
  {
    seq(|g|, i requires 0 <= i < |g| => g[i].(util := Ratio(g[i].hoursNeed, g[i].hoursCap)))
  }

  /** `a` may come before `b` in descending order with NaN last. */
  predicate UtilFirst(a: Option<real>, b: Option<real>)
  {
    match b
    case None => true
    case Some(y) => a.Some? && a.value >= y
  }

  /** Descending `Util_pct`, NaN rows last. */
  predicate UtilSorted(s: seq<CapRow>)
  {
    forall i, j :: 0 <= i < j < |s| ==> UtilFirst(s[i].util, s[j].util)
  }

  /** Inserts `x` before the first row it may precede. */
  function InsertByUtil(x: CapRow, s: seq<CapRow>): (r: seq<CapRow>)
    ensures |r| == |s| + 1
    ensures multiset(r) == multiset(s) + multiset{x}
  {
    if s == [] || UtilFirst(x.util, s[0].util) then [x] + s
    else
      var rest := InsertByUtil(x, s[1..]);
      assert s == [s[0]] + s[1..];
      [s[0]] + rest
  }

  /** A row that may precede every row of a descending table goes in front. */
  lemma ConsUtilSorted(h: CapRow, s: seq<CapRow>)
    requires UtilSorted(s) && forall k :: 0 <= k < |s| ==> UtilFirst(h.util, s[k].util)
    ensures UtilSorted([h] + s)
  {
    var r := [h] + s;
    forall i, j | 0 <= i < j < |r| ensures UtilFirst(r[i].util, r[j].util) {
      assert r[j] == s[j - 1];
      if i > 0 {
        assert r[i] == s[i - 1];
      }
    }
  }

  /** The rest of a descending table is descending. */
  lemma TailUtilSorted(s: seq<CapRow>)
    requires UtilSorted(s) && s != []
    ensures UtilSorted(s[1..])
  {
    var tail := s[1..];
    forall i, j | 0 <= i < j < |tail| ensures UtilFirst(tail[i].util, tail[j].util) {
      assert tail[i] == s[i + 1] && tail[j] == s[j + 1];
    }
  }

  /** A row that may precede `x` and every row of `s` may precede every row of `s` with `x`
      inserted. */
  lemma InsertByUtilBounded(h: CapRow, x: CapRow, s: seq<CapRow>)
    requires UtilFirst(h.util, x.util) && forall k :: 0 <= k < |s| ==> UtilFirst(h.util, s[k].util)
    ensures forall k :: 0 <= k < |s| + 1 ==> UtilFirst(h.util, InsertByUtil(x, s)[k].util)
  {
    var r := InsertByUtil(x, s);
    forall k | 0 <= k < |r| ensures UtilFirst(h.util, r[k].util) {
      assert r[k] in multiset(s) + multiset{x};
      if r[k] != x {
        assert r[k] in s;
      }
    }
  }

  /** Inserting into a descending table keeps it descending. */
  lemma {:induction false} InsertByUtilSorted(x: CapRow, s: seq<CapRow>)
    requires UtilSorted(s)
    ensures UtilSorted(InsertByUtil(x, s))
  {
    if s != [] && !UtilFirst(x.util, s[0].util) {
      TailUtilSorted(s);
      InsertByUtilSorted(x, s[1..]);
      forall k | 0 <= k < |s[1..]| ensures UtilFirst(s[0].util, s[1..][k].util) {
        assert s[1..][k] == s[k + 1];
      }
      InsertByUtilBounded(s[0], x, s[1..]);
      ConsUtilSorted(s[0], InsertByUtil(x, s[1..]));
    } else {
      forall k | 0 <= k < |s| ensures UtilFirst(x.util, s[k].util) {
        if k > 0 {
          assert UtilFirst(s[0].util, s[k].util);
        }
      }
      ConsUtilSorted(x, s);
    }
  }

  /** Inserting a row of a new process adds that process and keeps processes distinct. */
  lemma {:induction false} InsertByUtilLaws(x: CapRow, s: seq<CapRow>)
    requires Distinct(s) && x.proces !in Procs(s)
    ensures Distinct(InsertByUtil(x, s))
    ensures Procs(InsertByUtil(x, s)) == Procs(s) + {x.proces}
  {
    if s == [] || UtilFirst(x.util, s[0].util) {
      ConsLaws(x, s);
    } else {
      TailLaws(s);
      InsertByUtilLaws(x, s[1..]);
      ConsLaws(s[0], InsertByUtil(x, s[1..]));
    }
  }

  /** `sort_values("Util_pct", ascending=False)` with NaN placed last. */
  function SortByUtil(s: seq<CapRow>): (r: seq<CapRow>)
    ensures |r| == |s|
    ensures multiset(r) == multiset(s)
    ensures UtilSorted(r)
  {
    if s == [] then []
    else
      assert s == [s[0]] + s[1..];
      var rest := SortByUtil(s[1..]);
      InsertByUtilSorted(s[0], rest);
      InsertByUtil(s[0], rest)
  }

  /** Sorting keeps the set of processes, and keeps them distinct. */
  lemma {:induction false} SortByUtilKeepsProcs(s: seq<CapRow>)
    requires Distinct(s)
    ensures Procs(SortByUtil(s)) == Procs(s)
    ensures Distinct(SortByUtil(s))
  {
    if s != [] {
      TailLaws(s);
      SortByUtilKeepsProcs(s[1..]);
      InsertByUtilLaws(s[0], SortByUtil(s[1..]));
    }
  }

  /** What `capacity_table(routing_df, Q, hours_per_day, cap_per_process)` returns. */
  function CapacitySpec(routing: seq<RoutingStep>, q: int, hoursPerDay: real,
                        capPerProcess: map<string, real>): seq<CapRow>
  {
    if routing == [] then [] else TableOf(Loads(Propagation(routing, q), hoursPerDay, capPerProcess))
  }

  /** The grouped, recomputed and sorted table of some step loads. */
  function TableOf(ls: seq<CapRow>): seq<CapRow>
  {
    SortByUtil(RecomputeUtil(GroupByProcess(ls)))
  }

  /** `capacity_table`: propagates scrap, appends one load row per step, groups by process,
      recomputes utilisation and sorts. */
  method CapacityTable(routing: seq<RoutingStep>, q: int, hoursPerDay: real,
                       capPerProcess: map<string, real>)
    returns (table: seq<CapRow>)
    ensures table == CapacitySpec(routing, q, hoursPerDay, capPerProcess)
  {
    if routing == [] {
      return [];
    }
    var r := PropagateScrap(routing, q);
    var rows: seq<CapRow> := [];
    var i := 0;
    while i < |r|
      invariant 0 <= i <= |r|
      invariant |rows| == i
      invariant forall k :: 0 <= k < i ==> rows[k] == StepLoad(r[k], hoursPerDay, capPerProcess)
    {
      rows := rows + [StepLoad(r[i], hoursPerDay, capPerProcess)];
      i := i + 1;
    }
    assert rows == Loads(r, hoursPerDay, capPerProcess);
    table := SortByUtil(RecomputeUtil(GroupByProcess(rows)));
    assert table == TableOf(rows);
  }

  /** The processes of a routing. */
  function RoutingProcs(routing: seq<RoutingStep>): set<string>
  {
    set i | 0 <= i < |routing| :: routing[i].proces
  }

  /** The step loads name the processes of the steps they were computed from. */
  lemma LoadsNameRows(ps: seq<Propagated>, hoursPerDay: real, capPerProcess: map<string, real>)
    ensures Procs(Loads(ps, hoursPerDay, capPerProcess)) == RoutingProcs(Rows(ps))
  {
    var ls := Loads(ps, hoursPerDay, capPerProcess);
    var rs := Rows(ps);
    forall p | p in RoutingProcs(rs) ensures p in Procs(ls) {
      var k :| 0 <= k < |rs| && rs[k].proces == p;
      assert ls[k].proces == p;
    }
    forall p | p in Procs(ls) ensures p in RoutingProcs(rs) {
      var k :| 0 <= k < |ls| && ls[k].proces == p;
      assert rs[k].proces == p;
    }
  }

  /** Two routings with the same rows name the same processes. */
  lemma SameRowsSameProcs(a: seq<RoutingStep>, b: seq<RoutingStep>)
    requires multiset(a) == multiset(b)
    ensures RoutingProcs(a) == RoutingProcs(b)
  {
    forall p | p in RoutingProcs(a) ensures p in RoutingProcs(b) {
      var j :| 0 <= j < |a| && a[j].proces == p;
      assert a[j] in multiset(b);
      var k :| 0 <= k < |b| && b[k] == a[j];
    }
    forall p | p in RoutingProcs(b) ensures p in RoutingProcs(a) {
      var k :| 0 <= k < |b| && b[k].proces == p;
      assert b[k] in multiset(a);
      var j :| 0 <= j < |a| && a[j] == b[k];
    }
  }

  /** The step loads name exactly the routing's processes. */
  lemma LoadsProcs(routing: seq<RoutingStep>, q: int, hoursPerDay: real,
                   capPerProcess: map<string, real>)
    ensures Procs(Loads(Propagation(routing, q), hoursPerDay, capPerProcess))
         == RoutingProcs(routing)
  {
    var ps := Propagation(routing, q);
    PropagationKeepsRows(routing, q);
    LoadsNameRows(ps, hoursPerDay, capPerProcess);
    SameRowsSameProcs(Rows(ps), routing);
  }

  /** Each step load is offered its process's capacity. */
  lemma LoadsCap(ps: seq<Propagated>, hoursPerDay: real, capPerProcess: map<string, real>)
    ensures var ls := Loads(ps, hoursPerDay, capPerProcess);
      forall k :: 0 <= k < |ls| ==> ls[k].hoursCap == CapFor(hoursPerDay, capPerProcess, ls[k].proces)
  {
  }

  /** Where every row of process `p` carries the capacity `cap`, the summed `Hours_cap` of
      `p` is its row count times `cap`. */
  lemma {:induction false} CapSumIsCountTimesCap(ls: seq<CapRow>, p: string, cap: real)
    requires forall k :: 0 <= k < |ls| && ls[k].proces == p ==> ls[k].hoursCap == cap
    ensures SumFor(ls, p, HoursCap) == CountFor(ls, p) as real * cap
  {
    if ls != [] {
      var init := ls[..|ls| - 1];
      assert forall k :: 0 <= k < |init| ==> init[k] == ls[k];
      CapSumIsCountTimesCap(init, p, cap);
      OneMoreTimes(CountFor(init, p), cap);
    }
  }

  /** Recomputing utilisation keeps every other column. */
  lemma RecomputeKeepsProcs(g: seq<CapRow>)
    requires Distinct(g)
    ensures Procs(RecomputeUtil(g)) == Procs(g)
    ensures Distinct(RecomputeUtil(g))
  {
    var u := RecomputeUtil(g);
    forall p | p in Procs(g) ensures p in Procs(u) {
      var i :| 0 <= i < |g| && g[i].proces == p;
      assert u[i].proces == p;
    }
    forall p | p in Procs(u) ensures p in Procs(g) {
      var i :| 0 <= i < |u| && u[i].proces == p;
      assert g[i].proces == p;
    }
    forall i, j | 0 <= i < j < |u| ensures u[i].proces != u[j].proces {
      assert u[i].proces == g[i].proces && u[j].proces == g[j].proces;
    }
  }

  /** Grouping, recomputing utilisation and sorting give one row per process of the step
      loads, in descending `Util_pct` with NaN last. */
  lemma TableOfShape(ls: seq<CapRow>)
    ensures var t := TableOf(ls);
      && Procs(t) == Procs(ls)
      && Distinct(t)
      && UtilSorted(t)
  {
    GroupByProcessLaws(ls);
    RecomputeKeepsProcs(GroupByProcess(ls));
    SortByUtilKeepsProcs(RecomputeUtil(GroupByProcess(ls)));
  }

  /** A row of the table of some step loads holds its process's sums, and utilisation the
      quotient of its summed hours. */
  lemma TableOfRow(ls: seq<CapRow>, i: nat)
    requires i < |TableOf(ls)|
    ensures var r := TableOf(ls)[i];
      && (forall c :: Get(r, c) == SumFor(ls, r.proces, c))
      && r.util == Ratio(r.hoursNeed, r.hoursCap)
  {
    TableOfRowSums(ls, i);
    var u := RecomputeUtil(GroupByProcess(ls));
    assert TableOf(ls)[i] in multiset(u);
  }

  /** A row of the table of some step loads holds its process's sums. */
  lemma TableOfRowSums(ls: seq<CapRow>, i: nat)
    requires i < |TableOf(ls)|
    ensures var r := TableOf(ls)[i];
      forall c :: Get(r, c) == SumFor(ls, r.proces, c)
  {
    var g := GroupByProcess(ls);
    GroupByProcessLaws(ls);
    var u := RecomputeUtil(g);
    var r := TableOf(ls)[i];
    assert r in multiset(u);
    var j :| 0 <= j < |u| && u[j] == r;
    forall c ensures Get(r, c) == SumFor(ls, r.proces, c) {
      GroupValAt(g, j, c);
      match c
      case HoursNeed =>
      case HoursCap =>
      case Batches =>
      case SetupMin =>
      case CycleMin =>
    }
  }

  /** Every row of the table of some step loads holds its process's sums, and utilisation
      the quotient of its summed hours. */
  lemma TableOfSums(ls: seq<CapRow>)
    ensures var t := TableOf(ls);
      && (forall i, c :: 0 <= i < |t| ==> Get(t[i], c) == SumFor(ls, t[i].proces, c))
      && (forall i :: 0 <= i < |t| ==> t[i].util == Ratio(t[i].hoursNeed, t[i].hoursCap))
  {
    var t := TableOf(ls);
    forall i | 0 <= i < |t|
      ensures forall c :: Get(t[i], c) == SumFor(ls, t[i].proces, c)
      ensures t[i].util == Ratio(t[i].hoursNeed, t[i].hoursCap)
    {
      TableOfRow(ls, i);
    }
  }

  /** The table of a routing is empty exactly for an empty routing, and otherwise has one
      row per process of the routing, in descending `Util_pct` with NaN last. */
  lemma CapacityTableShape(routing: seq<RoutingStep>, q: int, hoursPerDay: real,
                           capPerProcess: map<string, real>)
    ensures var t := CapacitySpec(routing, q, hoursPerDay, capPerProcess);
      && (routing == [] <==> t == [])
      && Procs(t) == RoutingProcs(routing)
      && Distinct(t)
      && UtilSorted(t)
  {
    if routing != [] {
      var ls := Loads(Propagation(routing, q), hoursPerDay, capPerProcess);
      TableOfShape(ls);
      LoadsProcs(routing, q, hoursPerDay, capPerProcess);
      assert routing[0].proces in RoutingProcs(routing);
    }
  }

  /** Each row of the table holds the sums of its process's step loads, and `Util_pct` the
      quotient of its summed hours: NaN exactly when the capacity sum is 0. */
  lemma CapacityTableSums(routing: seq<RoutingStep>, q: int, hoursPerDay: real,
                          capPerProcess: map<string, real>)
    ensures var t := CapacitySpec(routing, q, hoursPerDay, capPerProcess);
      var ls := Loads(Propagation(routing, q), hoursPerDay, capPerProcess);
      forall i, c :: 0 <= i < |t| ==> Get(t[i], c) == SumFor(ls, t[i].proces, c)
    ensures var t := CapacitySpec(routing, q, hoursPerDay, capPerProcess);
      forall i :: 0 <= i < |t| ==> (t[i].util == None <==> t[i].hoursCap == 0.0)
    ensures var t := CapacitySpec(routing, q, hoursPerDay, capPerProcess);
      forall i :: 0 <= i < |t| && t[i].hoursCap != 0.0 ==>
        t[i].util == Ratio(t[i].hoursNeed, t[i].hoursCap)
  {
    if routing != [] {
      var ls := Loads(Propagation(routing, q), hoursPerDay, capPerProcess);
      TableOfSums(ls);
      assert CapacitySpec(routing, q, hoursPerDay, capPerProcess) == TableOf(ls);
    }
  }

  /** The first row of a descending table is the bottleneck: no row has a higher
      utilisation, and if its utilisation is NaN so is every row's. */
  lemma BottleneckIsFirst(t: seq<CapRow>)
    requires UtilSorted(t) && |t| > 0
    ensures t[0].util == None ==> forall i :: 0 <= i < |t| ==> t[i].util == None
    ensures t[0].util != None ==>
      forall i :: 0 <= i < |t| && t[i].util != None ==> t[i].util.value <= t[0].util.value
  {
    forall i | 0 < i < |t| ensures UtilFirst(t[0].util, t[i].util) {
    }
  }
}
