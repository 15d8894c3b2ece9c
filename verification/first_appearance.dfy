/** A reference definition of "numbering in order of first appearance",
    independent of any cache: the distinct elements of a sequence in the
    order they first occur, and an element's position among them. */
module FirstAppearance {

  /** The distinct elements of `s`, each placed where it first occurs. */
  function Distinct<T(==,!new)>(s: seq<T>): (d: seq<T>)
    ensures forall x :: x in d <==> x in s
    ensures forall i, j :: 0 <= i < j < |d| ==> d[i] != d[j]
    ensures |d| <= |s|
    decreases |s|
  {
    if |s| == 0 then []
    else
      var p := Distinct(s[..|s| - 1]);
      var last := s[|s| - 1];
      assert forall x :: x in s <==> x in s[..|s| - 1] || x == last by {
        assert s == s[..|s| - 1] + [last];
      }
      if last in p then p else p + [last]
  }

  /** The position of the first occurrence of `x`. */
  function IndexOf<T(==)>(s: seq<T>, x: T): (i: nat)
    requires x in s
    ensures i < |s| && s[i] == x
    ensures forall j :: 0 <= j < i ==> s[j] != x
    decreases |s|
  {
    if s[0] == x then 0 else 1 + IndexOf(s[1..], x)
  }

  /** Appending an element does not move those already present. */
  lemma IndexOfAppend<T>(s: seq<T>, t: T, x: T)
    requires x in s
    ensures IndexOf(s + [t], x) == IndexOf(s, x)
  {
    var i := IndexOf(s, x);
    var k := IndexOf(s + [t], x);
    assert (s + [t])[i] == x;
  }

  /** A new element is numbered after all earlier ones. */
  lemma IndexOfAppendNew<T>(s: seq<T>, x: T)
    requires x !in s
    ensures IndexOf(s + [x], x) == |s|
  {
    assert (s + [x])[|s|] == x;
  }

  /** Extending a sequence by one element extends its distinct elements by
      that element exactly when it is new. */
  lemma DistinctSnoc<T(!new)>(s: seq<T>, x: T)
    ensures Distinct(s + [x]) == if x in s then Distinct(s) else Distinct(s) + [x]
  {
    assert (s + [x])[..|s + [x]| - 1] == s;
  }

  /** Every element is numbered below the number of distinct elements. */
  lemma IndexOfBound<T(!new)>(s: seq<T>, x: T)
    requires x in s
    ensures IndexOf(Distinct(s), x) < |Distinct(s)|
  {
  }
}
