/**
 * `URLSearchParams` as the API clients use it: a list of name/value pairs that they only
 * ever `set`, so no name appears twice. Serialising it (`toString`) is not modelled.
 */
module SearchParams {
  import opened Wrappers

  datatype Param = Param(key: string, value: string)

  /** No name appears twice. */
  predicate DistinctParams(pairs: seq<Param>) {
    forall i, j :: 0 <= i < j < |pairs| ==> pairs[i].key != pairs[j].key
  }

  /** `params.get(k)`: the value of the first pair named `k`, `None` for `null`. */
  function ValueOf(pairs: seq<Param>, k: string): (r: Option<string>)
    ensures r.None? <==> forall i :: 0 <= i < |pairs| ==> pairs[i].key != k
    ensures r.Some? ==> exists i :: 0 <= i < |pairs| && pairs[i] == Param(k, r.value)
  {
    if pairs == [] then None
    else if pairs[0].key == k then Some(pairs[0].value)
    else
      var r := ValueOf(pairs[1..], k);
      assert forall i :: 1 <= i < |pairs| ==> pairs[i] == pairs[1..][i - 1];
      r
  }

  class UrlSearchParams {
    var pairs: seq<Param>

    ghost predicate Valid()
      reads this
    {
      DistinctParams(pairs)
    }

    /** `new URLSearchParams()`. */
    constructor ()
      ensures Valid() && pairs == []
    {
      pairs := [];
    }

    /**
     * `params.set(k, v)`: the pair named `k` takes the value `v` where it stands, or is
     * appended; every other name keeps its value.
     */
    method Set(k: string, v: string)
      requires Valid()
      modifies this
      ensures Valid()
      ensures ValueOf(pairs, k) == Some(v)
      ensures forall k' :: k' != k ==> ValueOf(pairs, k') == ValueOf(old(pairs), k')
    {
      var i := 0;
      while i < |pairs| && pairs[i].key != k
        invariant 0 <= i <= |pairs|
        invariant forall m :: 0 <= m < i ==> pairs[m].key != k
      {
        i := i + 1;
      }
      var before := pairs;
      if i == |pairs| {
        pairs := pairs + [Param(k, v)];
        AppendValue(before, k, v);
      } else {
        pairs := pairs[i := Param(k, v)];
        ReplaceValue(before, i, v);
      }
    }
  }

  /** Appending a pair with a new name gives it its value and changes no other. */
  lemma {:induction false} AppendValue(pairs: seq<Param>, k: string, v: string)
    requires forall m :: 0 <= m < |pairs| ==> pairs[m].key != k
    ensures ValueOf(pairs + [Param(k, v)], k) == Some(v)
    ensures forall k' :: k' != k ==> ValueOf(pairs + [Param(k, v)], k') == ValueOf(pairs, k')
  {
    if pairs != [] {
      AppendValue(pairs[1..], k, v);
      assert (pairs + [Param(k, v)])[1..] == pairs[1..] + [Param(k, v)];
    }
  }

  /** Overwriting the value of the pair at `i`, in a list of distinct names, changes no other name. */
  lemma {:induction false} ReplaceValue(pairs: seq<Param>, i: nat, v: string)
    requires DistinctParams(pairs) && i < |pairs|
    ensures ValueOf(pairs[i := Param(pairs[i].key, v)], pairs[i].key) == Some(v)
    ensures forall k' :: k' != pairs[i].key ==> ValueOf(pairs[i := Param(pairs[i].key, v)], k') == ValueOf(pairs, k')
  {
    if i > 0 {
      ReplaceValue(pairs[1..], i - 1, v);
      assert pairs[i := Param(pairs[i].key, v)][1..] == pairs[1..][i - 1 := Param(pairs[i].key, v)];
    }
  }
}
