/** `Array.prototype.sort()` on strings with the default comparator. */
module Sorting {
  import opened Text

  /** No later element sorts before an earlier one. */
  predicate Sorted(s: seq<string>) {
    forall i, j :: 0 <= i < j < |s| ==> !StringLess(s[j], s[i])
  }

  /** `x` inserted before the first element that does not sort before it. */
  function Insert(x: string, s: seq<string>): (r: seq<string>)
    ensures multiset(r) == multiset(s) + multiset{x}
  {
    if s == [] || !StringLess(s[0], x) then [x] + s
    else
      assert s == [s[0]] + s[1..];
      [s[0]] + Insert(x, s[1..])
  }

  /** Inserting into a sorted list keeps it sorted. */
  lemma {:induction false} InsertSorted(x: string, s: seq<string>)
    requires Sorted(s)
    ensures Sorted(Insert(x, s))
  {
    var r := Insert(x, s);
    if s == [] {
    } else if !StringLess(s[0], x) {
      forall j | 0 < j < |r|
        ensures !StringLess(r[j], x)
      {
        var y := s[j - 1];
        StringLessTotal(s[0], y);
        if StringLess(y, x) {
          if StringLess(s[0], y) {
            StringLessTrans(s[0], y, x);
          }
        }
      }
    } else {
      InsertSorted(x, s[1..]);
      var t := Insert(x, s[1..]);
      forall j | 0 <= j < |t|
        ensures !StringLess(t[j], s[0])
      {
        assert t[j] in multiset(t);
        if t[j] == x {
          StringLessTotal(s[0], x);
        } else {
          assert t[j] in s[1..];
          var k :| 0 <= k < |s[1..]| && s[1..][k] == t[j];
          assert s[k + 1] == t[j];
        }
      }
    }
  }

  /** `sort()` with the default comparator: a sorted rearrangement of the input. */
  function Sort(s: seq<string>): (r: seq<string>)
    ensures multiset(r) == multiset(s)
    ensures Sorted(r)
  {
    if s == [] then []
    else
      assert s == [s[0]] + s[1..];
      InsertSorted(s[0], Sort(s[1..]));
      Insert(s[0], Sort(s[1..]))
  }
}
