/**
 * Linear search over a sequence, as done by `std::find`: the index of the
 * first element equal to the one sought, or the length when there is none.
 */
module SeqSearch {

  /** Specification of the search: the first position holding `x`, else `|s|`. */
  function IndexOf<T(==)>(s: seq<T>, x: T): (k: nat)
    ensures k <= |s|
    ensures k < |s| ==> s[k] == x
    ensures forall j :: 0 <= j < k ==> s[j] != x
    ensures k == |s| <==> x !in s
  {
    if s == [] then 0
    else if s[0] == x then 0
    else 1 + IndexOf(s[1..], x)
  }

  /** The search loop itself. */
  method Find<T(==)>(s: seq<T>, x: T) returns (k: nat)
    ensures k == IndexOf(s, x)
  {
    k := 0;
    while k < |s| && s[k] != x
      invariant k <= |s|
      invariant forall j :: 0 <= j < k ==> s[j] != x
    {
      k := k + 1;
    }
  }

  /** Removing the element at `k` removes exactly one occurrence of it. */
  lemma RemoveAtMultiset<T>(s: seq<T>, k: nat)
    requires k < |s|
    ensures multiset(s[..k] + s[k + 1..]) == multiset(s) - multiset{s[k]}
  {
    assert s == s[..k] + [s[k]] + s[k + 1..];
  }
}
