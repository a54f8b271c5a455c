/** Joining strings with a separator, as Python's `sep.join(parts)` does. */
module Text {

  /** `sep.join(parts)`: the parts in order, with `sep` between each pair of neighbours. */
  function Join(sep: string, parts: seq<string>): string
    decreases |parts|
  {
    if |parts| == 0 then ""
    else if |parts| == 1 then parts[0]
    else Join(sep, parts[..|parts| - 1]) + sep + parts[|parts| - 1]
  }

  /** A join ends with its last part. */
  lemma JoinEndsWithLast(sep: string, parts: seq<string>)
    requires |parts| > 0
    ensures var last := parts[|parts| - 1];
      |last| <= |Join(sep, parts)| && Join(sep, parts)[|Join(sep, parts)| - |last|..] == last
  {
  }

  /** Read from the front: the first part, a separator, then the join of the rest. */
  lemma {:induction false} JoinFront(sep: string, first: string, rest: seq<string>)
    requires |rest| > 0
    ensures Join(sep, [first] + rest) == first + sep + Join(sep, rest)
    decreases |rest|
  {
    var all := [first] + rest;
    if |rest| == 1 {
      assert all[..|all| - 1] == [first];
    } else {
      var init := rest[..|rest| - 1];
      assert all[..|all| - 1] == [first] + init;
      JoinFront(sep, first, init);
    }
  }

  /**
   * Joining one more part appends a separator and that part: the recursive
   * case of `Join` itself, stated for a list written as `parts + [last]`.
   */
  lemma JoinSnoc(sep: string, parts: seq<string>, last: string)
    requires |parts| > 0
    ensures Join(sep, parts + [last]) == Join(sep, parts) + sep + last
  {
  }
}
