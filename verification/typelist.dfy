/**
 Operations on type lists (`aux::type_list`). Joining is sequence
 concatenation; `Unique` stands for `aux::unique_t`, of which the model relies
 only on two facts: the result has no duplicates and holds the same elements.
 */
module TypeList {

  import opened Types

  /** No element occurs twice. */
  predicate NoDup(s: seq<Ty>) {
    forall i, j :: 0 <= i < j < |s| ==> s[i] != s[j]
  }

  /** Removes repeated elements, keeping the last occurrence of each. */
  function Unique(s: seq<Ty>): (r: seq<Ty>)
    ensures NoDup(r)
    ensures forall x :: x in r <==> x in s
    ensures NoDup(s) ==> r == s
    ensures |r| <= |s|
  {
    if s == [] then []
    else
      var rest := Unique(s[1..]);
      if s[0] in rest then rest else [s[0]] + rest
  }
}
