/** Bucketing a list by label with a hash map, as the batch paths and the router do. */
module Grouping {

  /** The positions below `n` that carry label `c`, in order. */
  function Positions(labels: seq<nat>, c: nat, n: nat): (s: seq<nat>)
    requires n <= |labels|
    ensures forall k :: 0 <= k < |s| ==> s[k] < n
  {
    if n == 0 then []
    else if labels[n - 1] == c then Positions(labels, c, n - 1) + [n - 1]
    else Positions(labels, c, n - 1)
  }

  /** Exactly the positions with the label, each once, in rising order. */
  lemma {:induction false} PositionsExact(labels: seq<nat>, c: nat, n: nat)
    requires n <= |labels|
    ensures forall i :: i in Positions(labels, c, n) <==> 0 <= i < n && labels[i] == c
    ensures forall j, k :: 0 <= j < k < |Positions(labels, c, n)| ==>
              Positions(labels, c, n)[j] < Positions(labels, c, n)[k]
  {
    if n > 0 {
      PositionsExact(labels, c, n - 1);
    }
  }

  /** One bucket per label that occurs, each in list order. */
  method GroupBy(labels: seq<nat>) returns (groups: map<nat, seq<nat>>)
    ensures forall c :: c in groups <==> c in labels
    ensures forall c :: c in groups ==> groups[c] == Positions(labels, c, |labels|)
  {
    groups := map[];
    for i := 0 to |labels|
      invariant forall c :: c in groups <==> c in labels[..i]
      invariant forall c :: c in groups ==> groups[c] == Positions(labels, c, i)
      invariant forall c :: c !in groups ==> Positions(labels, c, i) == []
    {
      var c := labels[i];
      groups := groups[c := (if c in groups then groups[c] else []) + [i]];
      assert labels[..i + 1] == labels[..i] + [c];
    }
    assert labels[..|labels|] == labels;
  }
}
