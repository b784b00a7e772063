/** Option values and the sequence facts that several state machines share. */
module Common {

  datatype Option<+T> = None | Some(value: T)

  /** No element occurs twice. */
  ghost predicate NoDuplicates<T>(s: seq<T>) {
    forall i, j :: 0 <= i < j < |s| ==> s[i] != s[j]
  }

  function Elements<T>(s: seq<T>): set<T> {
    set x | x in s
  }

  /** The newest n elements; everything when there are fewer. */
  function Newest<T>(s: seq<T>, n: nat): seq<T> {
    if |s| <= n then s else s[|s| - n..]
  }

  ghost predicate Suffix<T>(s: seq<T>, t: seq<T>) {
    |s| <= |t| && s == t[|t| - |s|..]
  }

  function Filter<T>(keep: T -> bool, s: seq<T>): seq<T> {
    if s == [] then []
    else (if keep(s[0]) then [s[0]] else []) + Filter(keep, s[1..])
  }

  function MapSeq<S, T>(f: S -> T, s: seq<S>): (r: seq<T>)
    ensures |r| == |s|
    ensures forall i :: 0 <= i < |s| ==> r[i] == f(s[i])
  {
    if s == [] then [] else [f(s[0])] + MapSeq(f, s[1..])
  }

  lemma {:induction false} FilterConcat<T>(keep: T -> bool, a: seq<T>, b: seq<T>)
    ensures Filter(keep, a + b) == Filter(keep, a) + Filter(keep, b)
  {
    if a == [] {
      assert a + b == b;
    } else {
      var first := if keep(a[0]) then [a[0]] else [];
      assert (a + b)[0] == a[0] && (a + b)[1..] == a[1..] + b;
      assert Filter(keep, a) == first + Filter(keep, a[1..]);
      assert Filter(keep, a + b) == first + Filter(keep, a[1..] + b);
      FilterConcat(keep, a[1..], b);
      assert first + (Filter(keep, a[1..]) + Filter(keep, b)) == first + Filter(keep, a[1..]) + Filter(keep, b);
    }
  }

  lemma {:induction false} FilterMembers<T>(keep: T -> bool, s: seq<T>)
    ensures forall x :: x in Filter(keep, s) <==> x in s && keep(x)
    ensures |Filter(keep, s)| <= |s|
  {
    if s != [] {
      assert s == [s[0]] + s[1..];
      FilterMembers(keep, s[1..]);
    }
  }

  lemma {:induction false} FilterKeepsNoDuplicates<T>(keep: T -> bool, s: seq<T>)
    requires NoDuplicates(s)
    ensures NoDuplicates(Filter(keep, s))
  {
    if s != [] {
      FilterKeepsNoDuplicates(keep, s[1..]);
      FilterMembers(keep, s[1..]);
      var rest := Filter(keep, s[1..]);
      assert forall i :: 0 <= i < |rest| ==> rest[i] in rest;
    }
  }

  lemma PrependDistinct<T>(x: T, s: seq<T>)
    ensures NoDuplicates([x] + s) <==> x !in s && NoDuplicates(s)
  {
    var all := [x] + s;
    assert all[1..] == s;
    if x in s {
      var j :| 0 <= j < |s| && s[j] == x;
      assert all[0] == all[j + 1];
    }
  }

  /** Python compares len(values) with len(set(values)); that is exactly distinctness. */
  lemma {:induction false} DistinctCount<T>(s: seq<T>)
    ensures |Elements(s)| <= |s|
    ensures |Elements(s)| == |s| <==> NoDuplicates(s)
  {
    if s != [] {
      var rest := s[1..];
      DistinctCount(rest);
      assert s == [s[0]] + rest;
      assert Elements(s) == {s[0]} + Elements(rest);
      PrependDistinct(s[0], rest);
      if s[0] in rest {
        assert Elements(s) == Elements(rest);
      } else {
        assert |Elements(s)| == 1 + |Elements(rest)|;
      }
    }
  }
}
