/** Fitting segmented turns into an optional cost budget. Turns are kept or
    dropped whole: the result is the longest run of most recent turns whose
    total cost stays within the budget. The cost of a turn is an oracle
    supplied by the caller (in practice an approximate token count). */
module BudgetFit {
  import opened Wrappers
  import opened SampleChat

  /** The turns that fit, oldest first, and how many older turns were cut. */
  datatype FitResult = FitResult(additions: seq<Turn>, dropped: nat)

  datatype FitError = InvalidArgument

  /** The summed cost of a run of turns. */
  function TotalCost(ts: seq<Turn>, cost: Turn -> nat): nat {
    if ts == [] then 0 else cost(ts[0]) + TotalCost(ts[1..], cost)
  }

  lemma {:induction false} TotalCostAppend(a: seq<Turn>, b: seq<Turn>, cost: Turn -> nat)
    ensures TotalCost(a + b, cost) == TotalCost(a, cost) + TotalCost(b, cost)
    decreases |a|
  {
    if a == [] {
      assert a + b == b;
    } else {
      assert (a + b)[0] == a[0];
      assert (a + b)[1..] == a[1..] + b;
      TotalCostAppend(a[1..], b, cost);
    }
  }

  /** A longer run of trailing turns never costs less than a shorter one. */
  lemma SuffixCostGrows(ts: seq<Turn>, i: nat, j: nat, cost: Turn -> nat)
    requires i <= j <= |ts|
    ensures TotalCost(ts[i..], cost) >= TotalCost(ts[j..], cost)
  {
    assert ts[i..] == ts[i..j] + ts[j..];
    TotalCostAppend(ts[i..j], ts[j..], cost);
  }

  /** A turn inside a run costs no more than the whole run. */
  lemma TurnCostBounded(ts: seq<Turn>, i: nat, cost: Turn -> nat)
    requires i < |ts|
    ensures cost(ts[i]) <= TotalCost(ts, cost)
  {
    assert ts == ts[..i] + ts[i..];
    TotalCostAppend(ts[..i], ts[i..], cost);
  }

  /** The cost of the last j + 1 turns is the cost of the last j turns before
      the newest one plus the newest one's own cost. */
  lemma SuffixWithNewest(ts: seq<Turn>, j: nat, cost: Turn -> nat)
    requires j < |ts|
    ensures TotalCost(ts[|ts| - 1 - j..], cost)
         == TotalCost(ts[..|ts| - 1][|ts| - 1 - j..], cost) + cost(ts[|ts| - 1])
  {
    var n := |ts| - 1;
    assert ts[n - j..] == ts[..n][n - j..] + [ts[n]];
    TotalCostAppend(ts[..n][n - j..], [ts[n]], cost);
    assert [ts[n]][1..] == [];
  }

  /** How many of the most recent turns fit, walking backward from the newest
      turn and stopping at the first one that would overflow the budget. */
  function KeepCount(ts: seq<Turn>, budget: nat, cost: Turn -> nat): (k: nat)
    ensures k <= |ts|
    ensures TotalCost(ts[|ts| - k..], cost) <= budget
    ensures k < |ts| ==> TotalCost(ts[|ts| - k - 1..], cost) > budget
    decreases |ts|
  {
    if ts == [] then 0
    else
      var n := |ts| - 1;
      if cost(ts[n]) > budget then
        KeepNone(ts, budget, cost);
        0
      else
        var k := KeepCount(ts[..n], budget - cost(ts[n]), cost);
        KeepOneMore(ts, budget, cost, k);
        k + 1
  }

  /** When the newest turn alone overflows, no trailing turn fits. */
  lemma KeepNone(ts: seq<Turn>, budget: nat, cost: Turn -> nat)
    requires ts != [] && cost(ts[|ts| - 1]) > budget
    ensures TotalCost(ts[|ts|..], cost) <= budget
    ensures TotalCost(ts[|ts| - 1..], cost) > budget
  {
    SuffixWithNewest(ts, 0, cost);
    assert ts[|ts|..] == [];
  }

  /** When the newest turn fits and `k` older turns fit in what it leaves,
      the newest turn and those `k` fit the budget, and no more do. */
  lemma KeepOneMore(ts: seq<Turn>, budget: nat, cost: Turn -> nat, k: nat)
    requires ts != [] && cost(ts[|ts| - 1]) <= budget
    requires k <= |ts| - 1
    requires TotalCost(ts[..|ts| - 1][|ts| - 1 - k..], cost) <= budget - cost(ts[|ts| - 1])
    requires k < |ts| - 1 ==> TotalCost(ts[..|ts| - 1][|ts| - 1 - k - 1..], cost) > budget - cost(ts[|ts| - 1])
    ensures TotalCost(ts[|ts| - (k + 1)..], cost) <= budget
    ensures k + 1 < |ts| ==> TotalCost(ts[|ts| - (k + 1) - 1..], cost) > budget
  {
    SuffixWithNewest(ts, k, cost);
    if k + 1 < |ts| {
      SuffixWithNewest(ts, k + 1, cost);
    }
  }

  /** The kept turns are exactly the suffixes that fit: every trailing run
      starting at or after the cut fits, and every longer one overflows. */
  lemma KeepExactly(ts: seq<Turn>, b: nat, cost: Turn -> nat, d: nat)
    requires d <= |ts|
    ensures TotalCost(ts[d..], cost) <= b <==> d >= |ts| - KeepCount(ts, b, cost)
  {
    var cut := |ts| - KeepCount(ts, b, cost);
    if d >= cut {
      SuffixCostGrows(ts, cut, d, cost);
    } else {
      SuffixCostGrows(ts, d, cut - 1, cost);
    }
  }

  /** Fits the turns into the budget. With no budget every turn is kept; a
      negative budget is refused outright. */
  function Fit(ts: seq<Turn>, budget: Option<int>, cost: Turn -> nat): (r: Result<FitResult, FitError>)
    ensures budget.None? ==> r == Ok(FitResult(ts, 0))
    ensures budget.Some? ==> (r.Err? <==> budget.value < 0)
    ensures r.Err? ==> r.error == InvalidArgument
    ensures r.Ok? ==> r.value.dropped <= |ts| && r.value.additions == ts[r.value.dropped..]
    ensures r.Ok? && budget.Some? ==> TotalCost(r.value.additions, cost) <= budget.value
    ensures r.Ok? && budget.Some? && r.value.dropped > 0 ==>
              TotalCost(ts[r.value.dropped - 1..], cost) > budget.value
  {
    match budget
    case None => Ok(FitResult(ts, 0))
    case Some(b) =>
      if b < 0 then Err(InvalidArgument)
      else
        var d := |ts| - KeepCount(ts, b, cost);
        Ok(FitResult(ts[d..], d))
  }

  /** The kept suffix is exactly the set of suffixes that fit: every trailing
      run starting at or after the cut fits, and every longer one overflows.
      So no longer suffix fits, and the result is unique. */
  lemma FitExactly(ts: seq<Turn>, b: int, cost: Turn -> nat, d: nat)
    requires b >= 0 && d <= |ts|
    ensures TotalCost(ts[d..], cost) <= b <==> d >= Fit(ts, Some(b), cost).value.dropped
  {
    KeepExactly(ts, b, cost, d);
  }

  /** A turn that alone costs more than the budget is never kept, and neither
      is anything older than it: the turn is left out rather than cut. */
  lemma OverBudgetTurnDropped(ts: seq<Turn>, b: int, cost: Turn -> nat, i: nat)
    requires b >= 0 && i < |ts| && cost(ts[i]) > b
    ensures Fit(ts, Some(b), cost).value.dropped > i
  {
    var cut := Fit(ts, Some(b), cost).value.dropped;
    if cut <= i {
      TurnCostBounded(ts[cut..], i - cut, cost);
    }
  }

  /** Turns that already fit are all kept. */
  lemma FitsWhole(ts: seq<Turn>, b: int, cost: Turn -> nat)
    requires 0 <= b && TotalCost(ts, cost) <= b
    ensures Fit(ts, Some(b), cost) == Ok(FitResult(ts, 0))
  {
    assert ts[0..] == ts;
    FitExactly(ts, b, cost, 0);
  }

  /** Fitting the result again, with the same budget and costs, keeps it
      unchanged. */
  lemma FitIdempotent(ts: seq<Turn>, budget: Option<int>, cost: Turn -> nat)
    requires Fit(ts, budget, cost).Ok?
    ensures Fit(Fit(ts, budget, cost).value.additions, budget, cost)
         == Ok(FitResult(Fit(ts, budget, cost).value.additions, 0))
  {
    if budget.Some? {
      FitsWhole(Fit(ts, budget, cost).value.additions, budget.value, cost);
    }
  }

  /** A larger budget never keeps fewer turns. */
  lemma FitMonotone(ts: seq<Turn>, b1: int, b2: int, cost: Turn -> nat)
    requires 0 <= b1 <= b2
    ensures Fit(ts, Some(b2), cost).value.dropped <= Fit(ts, Some(b1), cost).value.dropped
  {
    var d1 := Fit(ts, Some(b1), cost).value.dropped;
    FitExactly(ts, b2, cost, d1);
  }
}
