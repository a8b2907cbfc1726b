/** Choosing and ordering by value: numpy's `argmax`, Python's `max` with a key
    (both keep the first maximal position) and the descending sorts used to
    display a probability table. */
module Ranking {
  import opened Common

  /** The first index that holds the maximum of `xs`. */
  function ArgMax(xs: seq<real>): (k: nat)
    requires |xs| > 0
    ensures k < |xs|
    ensures forall j :: 0 <= j < |xs| ==> xs[j] <= xs[k]
    ensures forall j :: 0 <= j < k ==> xs[j] < xs[k]
  {
    if |xs| == 1 then 0
    else
      var k := ArgMax(xs[..|xs| - 1]);
      if xs[|xs| - 1] > xs[k] then |xs| - 1 else k
  }

  /** The values of a table, in table order. */
  function Values(s: seq<Entry>): (r: seq<real>)
    ensures |r| == |s|
    ensures forall i :: 0 <= i < |s| ==> r[i] == s[i].value
  {
    seq(|s|, i requires 0 <= i < |s| => s[i].value)
  }

  predicate SortedDesc(s: seq<Entry>)
  {
    forall i, j :: 0 <= i < j < |s| ==> s[i].value >= s[j].value
  }

  /** A larger-or-equal entry put in front of a sorted table keeps it sorted. */
  lemma ConsSorted(x: Entry, r: seq<Entry>)
    requires SortedDesc(r)
    requires r == [] || x.value >= r[0].value
    ensures SortedDesc([x] + r)
  {
    var xr := [x] + r;
    forall i, j | 0 <= i < j < |xr|
      ensures xr[i].value >= xr[j].value
    {
      if i == 0 && j > 1 {
        assert xr[j] == r[j - 1];
      }
    }
  }

  /** Inserts `e` in front of the first entry whose value does not exceed it. */
  function Insert(e: Entry, s: seq<Entry>): (r: seq<Entry>)
    requires SortedDesc(s)
    ensures SortedDesc(r)
    ensures multiset(r) == multiset(s) + multiset{e}
    ensures |r| == |s| + 1 && (r[0] == e || (|s| > 0 && r[0] == s[0]))
  {
    if s == [] || s[0].value <= e.value then
      ConsSorted(e, s);
      [e] + s
    else
      assert s == [s[0]] + s[1..];
      var rest := Insert(e, s[1..]);
      ConsSorted(s[0], rest);
      [s[0]] + rest
  }

  /** A table sorted by value, largest first. */
  function SortDesc(s: seq<Entry>): (r: seq<Entry>)
    ensures SortedDesc(r)
    ensures multiset(r) == multiset(s)
  {
    if s == [] then []
    else
      assert s == [s[0]] + s[1..];
      Insert(s[0], SortDesc(s[1..]))
  }
}
