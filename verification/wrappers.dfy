/** Small value wrappers shared by the questionnaire modules. */
module Wrappers {

  /** A value that may be absent (an `undefined` property or lookup in the page). */
  datatype Option<+T> = None | Some(value: T)

  function Min(a: int, b: int): int {
    if a <= b then a else b
  }

  /** No value occurs twice in `s`. */
  predicate Distinct<T(==)>(s: seq<T>) {
    forall i, j :: 0 <= i < j < |s| ==> s[i] != s[j]
  }

  /** The values occurring in `s`. */
  ghost function Elements<T>(s: seq<T>): set<T> {
    set x | x in s
  }

  /** A sequence without repeats has as many distinct values as positions. */
  lemma {:induction false} DistinctCard<T>(s: seq<T>)
    requires Distinct(s)
    ensures |Elements(s)| == |s|
  {
    if |s| > 0 {
      var front := s[..|s| - 1];
      DistinctCard(front);
      assert Elements(s) == Elements(front) + {s[|s| - 1]};
      assert s[|s| - 1] !in Elements(front);
    }
  }

  lemma ElementsAppend<T>(s: seq<T>, x: T)
    ensures Elements(s + [x]) == Elements(s) + {x}
  {
    assert forall y :: y in s + [x] <==> y in s || y == x;
  }

  lemma ElementsPrefix<T>(s: seq<T>, i: nat)
    requires i < |s|
    ensures Elements(s[..i + 1]) == Elements(s[..i]) + {s[i]}
  {
    assert s[..i + 1] == s[..i] + [s[i]];
    ElementsAppend(s[..i], s[i]);
  }

  lemma ElementsWhole<T>(s: seq<T>)
    ensures Elements(s[..|s|]) == Elements(s)
  {
    assert s[..|s|] == s;
  }
}
