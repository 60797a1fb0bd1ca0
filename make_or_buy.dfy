/** The bottleneck pick and the make-versus-buy rule of app.py: the purchase price per unit
    (raised when the order is below the minimum order quantity), the make price per unit
    (raised when the bottleneck is overloaded), and the advice. */
module MakeOrBuy {
  import opened Common
  import opened Capacity

  /** The highest utilisation in the table, NaN rows skipped (`Series.max()`); `None` when
      every row is NaN or the table is empty. */
  function MaxUtil(t: seq<CapRow>): (m: Option<real>)
    ensures m == None <==> forall i :: 0 <= i < |t| ==> t[i].util == None
    ensures m != None ==> exists i :: 0 <= i < |t| && t[i].util == m
    ensures m != None ==>
      forall i :: 0 <= i < |t| && t[i].util != None ==> t[i].util.value <= m.value
  {
    if t == [] then None
    else
      var rest := MaxUtil(t[1..]);
      assert forall i :: 1 <= i < |t| ==> t[i] == t[1..][i - 1];
      match t[0].util
      case None => rest
      case Some(v) =>
        if rest.Some? && rest.value > v then
          assert exists i :: 1 <= i < |t| && t[i].util == rest by {
            var j :| 0 <= j < |t[1..]| && t[1..][j].util == rest;
            assert t[j + 1].util == rest;
          }
          rest
        else Some(v)
  }

  /** In a table in descending `Util_pct` order the highest utilisation is the first row's. */
  lemma MaxUtilIsFirstRow(t: seq<CapRow>)
    requires UtilSorted(t) && |t| > 0
    ensures MaxUtil(t) == t[0].util
  {
    BottleneckIsFirst(t);
    var m := MaxUtil(t);
    if m != None {
      var i :| 0 <= i < |t| && t[i].util == m;
      assert t[0].util != None;
    }
  }

  /** `cap_df.sort_values("Util_pct", ascending=False).iloc[0]`: the bottleneck row. */
  function Bottleneck(t: seq<CapRow>): (b: CapRow)
    requires |t| > 0
    ensures b in t
    ensures forall i :: 0 <= i < |t| && t[i].util != None ==>
      b.util != None && t[i].util.value <= b.util.value
  {
    var s := SortByUtil(t);
    assert s[0] in multiset(t);
    BottleneckIsFirst(s);
    forall i | 0 <= i < |t| && t[i].util != None
      ensures s[0].util != None && t[i].util.value <= s[0].util.value
    {
      assert t[i] in multiset(s);
      var j :| 0 <= j < |s| && s[j] == t[i];
    }
    s[0]
  }

  /** Sorting a table that is already in descending `Util_pct` order changes nothing. */
  lemma {:induction false} SortSortedIsIdentity(t: seq<CapRow>)
    requires UtilSorted(t)
    ensures SortByUtil(t) == t
  {
    if t != [] {
      TailUtilSorted(t);
      SortSortedIsIdentity(t[1..]);
      if |t| > 1 {
        assert UtilFirst(t[0].util, t[1..][0].util);
      }
      assert [t[0]] + t[1..] == t;
    }
  }

  /** The bottleneck of a table `capacity_table` returned is its first row. */
  lemma BottleneckOfCapacityTable(t: seq<CapRow>)
    requires UtilSorted(t) && |t| > 0
    ensures Bottleneck(t) == t[0]
  {
    SortSortedIsIdentity(t);
  }

  /** The purchase price per unit: below the minimum order quantity the whole MOQ is paid
      for and spread over the `Q` parts. */
  function BuyUnit(buyPrice: real, transportBuy: real, q: int, moq: int): (u: real)
    requires q >= 1
    ensures q >= moq ==> u == buyPrice + transportBuy
    ensures q < moq ==> (u - transportBuy) * q as real == buyPrice * moq as real
  {
    if q >= moq then buyPrice + transportBuy
    else
      var perUnit := (buyPrice * moq as real) / q as real;
      assert perUnit * q as real == buyPrice * moq as real;
      perUnit + transportBuy
  }

  /** Ordering fewer than the MOQ never makes a part cheaper to buy. */
  lemma BelowMoqNotCheaper(buyPrice: real, transportBuy: real, q: int, moq: int)
    requires q >= 1 && buyPrice >= 0.0
    ensures BuyUnit(buyPrice, transportBuy, q, moq) >= buyPrice + transportBuy
  {
    if q < moq {
      var u := BuyUnit(buyPrice, transportBuy, q, moq);
      var x := u - transportBuy;
      assert x * q as real == buyPrice * moq as real;
      assert buyPrice * moq as real >= buyPrice * q as real;
      assert x * q as real >= buyPrice * q as real;
    }
  }

  /** The overload surcharge: 10% of the unit cost per unit of utilisation above 100%, only
      when the table is non-empty and its highest utilisation exceeds 1. */
  function CapacityPenalty(t: seq<CapRow>, totalPc: real): real
  {
    if t != [] && MaxUtil(t).Some? && MaxUtil(t).value > 1.0
    then (MaxUtil(t).value - 1.0) * 0.10 * totalPc
    else 0.0
  }

  /** The advice shown. */
  datatype Advice = Make | Buy

  /** The outcome of the make-versus-buy block. */
  datatype Decision = Decision(buyUnit: real, makeUnit: real, advice: Advice, delta: real)

  /** The make-versus-buy block: buy when buying per unit is strictly cheaper than making. */
  function MakeVsBuy(t: seq<CapRow>, totalPc: real, q: int, moq: int,
                     buyPrice: real, transportBuy: real): (d: Decision)
    requires q >= 1
    ensures d.buyUnit == BuyUnit(buyPrice, transportBuy, q, moq)
    ensures d.makeUnit == totalPc + CapacityPenalty(t, totalPc)
    ensures d.advice == Buy <==> d.buyUnit < d.makeUnit
    ensures d.delta >= 0.0 && (d.delta == d.makeUnit - d.buyUnit || d.delta == d.buyUnit - d.makeUnit)
  {
    var buyUnit := BuyUnit(buyPrice, transportBuy, q, moq);
    var makeUnit := totalPc + CapacityPenalty(t, totalPc);
    var advice := if buyUnit < makeUnit then Buy else Make;
    var delta := if makeUnit - buyUnit >= 0.0 then makeUnit - buyUnit else buyUnit - makeUnit;
    Decision(buyUnit, makeUnit, advice, delta)
  }

  /** Without an overloaded process the make price is the unit cost; with one, and a
      positive unit cost, it is strictly higher. */
  lemma PenaltyOnlyWhenOverloaded(t: seq<CapRow>, totalPc: real)
    ensures (forall i :: 0 <= i < |t| && t[i].util != None ==> t[i].util.value <= 1.0)
            ==> CapacityPenalty(t, totalPc) == 0.0
    ensures totalPc > 0.0 && (exists i :: 0 <= i < |t| && t[i].util != None && t[i].util.value > 1.0)
            ==> CapacityPenalty(t, totalPc) > 0.0
  {
    if totalPc > 0.0 && (exists i :: 0 <= i < |t| && t[i].util != None && t[i].util.value > 1.0) {
      var i :| 0 <= i < |t| && t[i].util != None && t[i].util.value > 1.0;
      var m := MaxUtil(t);
      assert m != None;
      assert m.value - 1.0 > 0.0;
      assert (m.value - 1.0) * 0.10 > 0.0;
    }
  }

  /** On a table `capacity_table` returned, the penalty is priced from the bottleneck. */
  lemma PenaltyFromBottleneck(t: seq<CapRow>, totalPc: real)
    requires UtilSorted(t) && |t| > 0
    ensures CapacityPenalty(t, totalPc)
         == if t[0].util.Some? && t[0].util.value > 1.0
            then (t[0].util.value - 1.0) * 0.10 * totalPc else 0.0
  {
    MaxUtilIsFirstRow(t);
  }
}
