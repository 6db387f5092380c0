/** Duplicate-free lists, as the QLIST links of the block layer are. */
module Seqs {

  predicate NoDup<T(==)>(s: seq<T>) {
    forall i, j :: 0 <= i < j < |s| ==> s[i] != s[j]
  }

  function Elems<T>(s: seq<T>): set<T> {
    set x | x in s
  }

  /** QLIST_INSERT_HEAD. */
  function Prepend<T(!new)>(x: T, s: seq<T>): (r: seq<T>)
    ensures forall y :: y in r <==> y in s || y == x
    ensures NoDup(s) && x !in s ==> NoDup(r)
    ensures |r| == |s| + 1
  {
    var r := [x] + s;
    assert r[1..] == s;
    r
  }

  /** QLIST_REMOVE: the list without `x`, order kept. */
  function Remove<T(==,!new)>(s: seq<T>, x: T): (r: seq<T>)
    requires NoDup(s)
    ensures NoDup(r)
    ensures forall y :: y in r <==> y in s && y != x
    ensures |r| == if x in s then |s| - 1 else |s|
  {
    if s == [] then []
    else
      assert s == [s[0]] + s[1..];
      var tail := Remove(s[1..], x);
      if s[0] == x then assert x !in s[1..]; tail else Prepend(s[0], tail)
  }
}
