/**
 The key figures of the dashboard tab, computed over the historical dataset:
 total customers, churned customers, churn rate in percent and the balance
 held by the churned customers.
 */
module AggregateView {

  /** One customer of the historical dataset, reduced to the columns the figures use. */
  datatype Row = Row(exited: int, balance: real, geography: string)

  type Dataset = seq<Row>

  /** The boolean filter `Exited == 1`. */
  predicate Churned(r: Row) {
    r.exited == 1
  }

  /** The rows selected by `df[df['Exited'] == 1]`, in dataset order. */
  function ChurnedRows(d: Dataset): (c: Dataset)
    ensures |c| <= |d|
    ensures forall r :: r in c ==> Churned(r) && r in d
    ensures forall r :: r in d && Churned(r) ==> r in c
  {
    if d == [] then []
    else if Churned(d[0]) then [d[0]] + ChurnedRows(d[1..])
    else ChurnedRows(d[1..])
  }

  /** The filter keeps every churned row as often as it occurs, and no other row. */
  lemma {:induction false} ChurnedRowsMultiplicity(d: Dataset)
    ensures forall r :: multiset(ChurnedRows(d))[r] == if Churned(r) then multiset(d)[r] else 0
  {
    if d != [] {
      ChurnedRowsMultiplicity(d[1..]);
      assert d == [d[0]] + d[1..];
      assert multiset(d) == multiset{d[0]} + multiset(d[1..]);
      if Churned(d[0]) {
        assert multiset(ChurnedRows(d)) == multiset{d[0]} + multiset(ChurnedRows(d[1..]));
      }
    }
  }

  /** Reference count: every row adds one if it is churned and nothing otherwise. */
  function CountChurned(d: Dataset): nat {
    if d == [] then 0 else (if Churned(d[0]) then 1 else 0) + CountChurned(d[1..])
  }

  /** Reference count of the rows that are not churned. */
  function CountRetained(d: Dataset): nat {
    if d == [] then 0 else (if Churned(d[0]) then 0 else 1) + CountRetained(d[1..])
  }

  /** The filter keeps exactly as many rows as there are churned rows. */
  lemma {:induction false} ChurnedRowsCount(d: Dataset)
    ensures |ChurnedRows(d)| == CountChurned(d)
  {
    if d != [] {
      ChurnedRowsCount(d[1..]);
    }
  }

  /** Every row is either churned or retained. */
  lemma {:induction false} CountsPartition(d: Dataset)
    ensures CountChurned(d) + CountRetained(d) == |d|
  {
    if d != [] {
      CountsPartition(d[1..]);
    }
  }

  /** `len(df)`: every customer is either churned or retained. */
  function TotalClients(d: Dataset): (n: nat)
    ensures n == CountChurned(d) + CountRetained(d)
  {
    CountsPartition(d);
    |d|
  }

  /** `len(df[df['Exited'] == 1])`. */
  function NumChurned(d: Dataset): (n: nat)
    ensures n == CountChurned(d)
    ensures n <= TotalClients(d)
    ensures n == 0 <==> forall r :: r in d ==> !Churned(r)
  {
    var c := ChurnedRows(d);
    ChurnedRowsCount(d);
    assert c != [] ==> c[0] in c;
    |c|
  }

  /** `(part / whole) * 100`: a part of a positive whole is between 0 and 100 percent of it. */
  function Percentage(part: real, whole: real): (pct: real)
    requires 0.0 <= part <= whole && whole > 0.0
    ensures pct * whole == part * 100.0
    ensures 0.0 <= pct <= 100.0
  {
    var q := part / whole;
    assert q * whole == part;
    assert 0.0 <= q <= 1.0;
    q * 100.0
  }

  /** `(num_fugas / total_clientes) * 100`; the division needs a non-empty dataset. */
  function ChurnRate(d: Dataset): (rate: real)
    requires |d| > 0
    ensures rate * (|d| as real) == (NumChurned(d) as real) * 100.0
    ensures 0.0 <= rate <= 100.0
  {
    var n: nat := NumChurned(d);
    assert n <= |d|;
    Percentage(n as real, |d| as real)
  }

  /** Sum of the `Balance` column of a table. */
  function SumBalance(d: Dataset): real {
    if d == [] then 0.0 else d[0].balance + SumBalance(d[1..])
  }

  /** `df[df['Exited'] == 1]['Balance'].sum()`; the sum of an empty selection is zero. */
  function LostBalance(d: Dataset): (l: real)
    ensures l == MaskedBalance(d)
    ensures (forall r :: r in d ==> r.balance >= 0.0) ==> l >= 0.0
  {
    LostBalanceIsMasked(d);
    LostBalanceNonNegative(d);
    SumBalance(ChurnedRows(d))
  }

  /** Reference definition: every row contributes its balance if churned and zero otherwise. */
  function MaskedBalance(d: Dataset): real {
    if d == [] then 0.0
    else (if Churned(d[0]) then d[0].balance else 0.0) + MaskedBalance(d[1..])
  }

  /** The lost balance is the sum over exactly the churned rows. */
  lemma {:induction false} LostBalanceIsMasked(d: Dataset)
    ensures SumBalance(ChurnedRows(d)) == MaskedBalance(d)
  {
    if d != [] {
      LostBalanceIsMasked(d[1..]);
      if Churned(d[0]) {
        var rest := ChurnedRows(d[1..]);
        assert ([d[0]] + rest)[1..] == rest;
      }
    }
  }

  /** With no negative balance in the dataset, the lost balance is not negative. */
  lemma {:induction false} LostBalanceNonNegative(d: Dataset)
    ensures (forall r :: r in d ==> r.balance >= 0.0) ==> SumBalance(ChurnedRows(d)) >= 0.0
  {
    if d != [] && forall r :: r in d ==> r.balance >= 0.0 {
      assert forall r :: r in d[1..] ==> r in d;
      LostBalanceNonNegative(d[1..]);
      if Churned(d[0]) {
        var rest := ChurnedRows(d[1..]);
        assert ([d[0]] + rest)[1..] == rest;
      }
    }
  }

  /** The churned count is additive over a split of the dataset. */
  lemma {:induction false} NumChurnedAppend(d1: Dataset, d2: Dataset)
    ensures NumChurned(d1 + d2) == NumChurned(d1) + NumChurned(d2)
  {
    if d1 != [] {
      assert (d1 + d2)[1..] == d1[1..] + d2;
      NumChurnedAppend(d1[1..], d2);
    } else {
      assert d1 + d2 == d2;
    }
  }

  /** The lost balance is additive over a split of the dataset. */
  lemma {:induction false} LostBalanceAppend(d1: Dataset, d2: Dataset)
    ensures LostBalance(d1 + d2) == LostBalance(d1) + LostBalance(d2)
  {
    LostBalanceIsMasked(d1 + d2);
    LostBalanceIsMasked(d1);
    LostBalanceIsMasked(d2);
    MaskedBalanceAppend(d1, d2);
  }

  lemma {:induction false} MaskedBalanceAppend(d1: Dataset, d2: Dataset)
    ensures MaskedBalance(d1 + d2) == MaskedBalance(d1) + MaskedBalance(d2)
  {
    if d1 != [] {
      assert (d1 + d2)[1..] == d1[1..] + d2;
      MaskedBalanceAppend(d1[1..], d2);
    } else {
      assert d1 + d2 == d2;
    }
  }

  /** A customer who did not leave changes neither the churned count nor the lost balance. */
  lemma RetainedRowContributesNothing(d1: Dataset, r: Row, d2: Dataset)
    requires !Churned(r)
    ensures NumChurned(d1 + [r] + d2) == NumChurned(d1 + d2)
    ensures LostBalance(d1 + [r] + d2) == LostBalance(d1 + d2)
  {
    NumChurnedAppend(d1 + [r], d2);
    NumChurnedAppend(d1, [r]);
    NumChurnedAppend(d1, d2);
    LostBalanceAppend(d1 + [r], d2);
    LostBalanceAppend(d1, [r]);
    LostBalanceAppend(d1, d2);
    assert ChurnedRows([r]) == [];
  }

  /** A dataset of 10000 customers of whom 2037 left has a churn rate of 20.37 percent. */
  lemma RateExample(d: Dataset)
    requires |d| == 10000 && NumChurned(d) == 2037
    ensures ChurnRate(d) == 20.37
  {
  }

  // ---------------------------------------------------------------------------
  // The three KPI figures together
  // ---------------------------------------------------------------------------

  datatype Kpis = Kpis(totalClients: nat, churned: nat, churnRate: real, lostBalance: real)

  /** What the script raises while computing the figures. */
  datatype Failure = ZeroDivision

  datatype Result = Ok(kpis: Kpis) | Err(failure: Failure)

  /**
   Lines 46-49 as one step. On an empty dataset Python's int division raises
   ZeroDivisionError, which nothing in the script catches.
   */
  function Summarize(d: Dataset): (res: Result)
    ensures res.Err? <==> |d| == 0
    ensures res.Ok? ==>
      && res.kpis.totalClients == |d|
      && res.kpis.churned == CountChurned(d) <= res.kpis.totalClients
      && res.kpis.churnRate == (res.kpis.churned as real) / (res.kpis.totalClients as real) * 100.0
      && 0.0 <= res.kpis.churnRate <= 100.0
      && res.kpis.lostBalance == MaskedBalance(d)
  {
    if |d| == 0 then Err(ZeroDivision)
    else
      var k := Kpis(TotalClients(d), NumChurned(d), ChurnRate(d), LostBalance(d));
      LostBalanceIsMasked(d);
      Ok(k)
  }
}
