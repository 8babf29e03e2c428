/**
 The feature-importance table of the simulator tab: the fixed list of
 human-readable labels zipped by position with the classifier's importance
 vector, both cut to the shorter length, then sorted by ascending weight.
 The importance vector belongs to the classifier and is a parameter here.
 */
module FeatureImportance {

  /** One row of the table: (Factor, Importancia). */
  type Entry = (string, real)

  /**
   The ten labels, in the key order of the one-row input frame. Nothing ties this
   order to the order of the importance vector, which the classifier step reports
   after the pipeline's own preprocessing; the pairing is purely by position.
   */
  const FeatureLabels: seq<string> := [
    "Score Crédito", "País", "Género", "Edad", "Tenencia",
    "Balance", "Num Productos", "Tarjeta Crédito", "Miembro Activo", "Salario"
  ]

  function Min(a: nat, b: nat): nat {
    if a <= b then a else b
  }

  /** The rows of the frame before sorting: label i beside weight i. */
  function Zip(names: seq<string>, weights: seq<real>): (z: seq<Entry>)
    requires |names| == |weights|
    ensures |z| == |names|
    ensures forall i :: 0 <= i < |z| ==> z[i] == (names[i], weights[i])
  {
    if names == [] then []
    else [(names[0], weights[0])] + Zip(names[1..], weights[1..])
  }

  /** Ascending by weight. */
  predicate SortedByWeight(s: seq<Entry>) {
    forall i, j :: 0 <= i < j < |s| ==> s[i].1 <= s[j].1
  }

  /** Puts an entry into a table, before the first entry at least as heavy. */
  function Insert(e: Entry, s: seq<Entry>): (r: seq<Entry>)
    ensures |r| == |s| + 1
    ensures multiset(r) == multiset(s) + multiset{e}
  {
    if s == [] then [e]
    else if e.1 <= s[0].1 then [e] + s
    else
      assert s == [s[0]] + s[1..];
      [s[0]] + Insert(e, s[1..])
  }

  /** Inserting into a sorted table keeps it sorted. */
  lemma {:induction false} InsertSorted(e: Entry, s: seq<Entry>)
    requires SortedByWeight(s)
    ensures SortedByWeight(Insert(e, s))
  {
    if s != [] && e.1 > s[0].1 {
      var tail := Insert(e, s[1..]);
      InsertSorted(e, s[1..]);
      forall k | 0 <= k < |tail|
        ensures s[0].1 <= tail[k].1
      {
        assert tail[k] in multiset(s[1..]) + multiset{e};
      }
    }
  }

  /** `sort_values(by='Importancia', ascending=True)`. */
  function SortByWeight(s: seq<Entry>): (r: seq<Entry>)
    ensures |r| == |s|
    ensures multiset(r) == multiset(s)
    ensures SortedByWeight(r)
  {
    if s == [] then []
    else
      assert s == [s[0]] + s[1..];
      InsertSorted(s[0], SortByWeight(s[1..]));
      Insert(s[0], SortByWeight(s[1..]))
  }

  /** Lines 175-178: truncate both sides to the shorter length, zip, sort. */
  function ImportanceTable(names: seq<string>, weights: seq<real>): (t: seq<Entry>)
    ensures |t| == Min(|names|, |weights|)
    ensures SortedByWeight(t)
    ensures multiset(t) == multiset(Zip(names[..|t|], weights[..|t|]))
  {
    var m := Min(|names|, |weights|);
    SortByWeight(Zip(names[..m], weights[..m]))
  }

  /** The table the dashboard draws for a given importance vector. */
  function ImportanceChart(importances: seq<real>): (t: seq<Entry>)
    ensures |t| == Min(10, |importances|)
    ensures SortedByWeight(t)
    ensures multiset(t) == multiset(Zip(FeatureLabels[..|t|], importances[..|t|]))
    ensures forall e :: e in t <==> exists i :: 0 <= i < |t| && e == (FeatureLabels[i], importances[i])
  {
    ImportanceTableRows(FeatureLabels, importances);
    ImportanceTable(FeatureLabels, importances)
  }

  /**
   Every row of the table is a label beside the weight at the same position,
   and every such pair below the shorter length appears in the table.
   */
  lemma ImportanceTableRows(names: seq<string>, weights: seq<real>)
    ensures forall e :: e in ImportanceTable(names, weights) <==>
      exists i :: 0 <= i < Min(|names|, |weights|) && e == (names[i], weights[i])
  {
    var t := ImportanceTable(names, weights);
    var m := Min(|names|, |weights|);
    var z := Zip(names[..m], weights[..m]);
    forall e
      ensures e in t <==> exists i :: 0 <= i < m && e == (names[i], weights[i])
    {
      assert e in t <==> e in multiset(z);
      if e in z {
        var i :| 0 <= i < m && z[i] == e;
        assert e == (names[i], weights[i]);
      }
      if exists i :: 0 <= i < m && e == (names[i], weights[i]) {
        var i :| 0 <= i < m && e == (names[i], weights[i]);
        assert z[i] == e;
      }
    }
  }

  /** With a seven-element importance vector, the chart has exactly seven rows. */
  lemma SevenImportances(importances: seq<real>)
    requires |importances| == 7
    ensures |ImportanceChart(importances)| == 7
  {
  }
}
