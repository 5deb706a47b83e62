/** Collections, shared by the modules that count and search in them. */
module Collections {

  datatype Option<+T> = None | Some(value: T)

  predicate Distinct<T(==)>(s: seq<T>) {
    forall i, j | 0 <= i < j < |s| :: s[i] != s[j]
  }

  ghost function Elements<T>(s: seq<T>): set<T> {
    set x | x in s
  }

  lemma {:induction false} DistinctSize<T>(s: seq<T>)
    requires Distinct(s)
    ensures |Elements(s)| == |s|
  {
    if s != [] {
      var n := |s| - 1;
      DistinctSize(s[..n]);
      assert Elements(s) == Elements(s[..n]) + {s[n]};
    }
  }

  lemma {:induction false} SubsetSize<T>(a: set<T>, b: set<T>)
    requires a <= b
    ensures |a| <= |b|
  {
    if a != {} {
      var x :| x in a;
      SubsetSize(a - {x}, b - {x});
    }
  }

  /** The number of elements with a property. */
  function Number<T>(s: seq<T>, has: T -> bool): nat {
    if s == [] then 0 else Number(s[..|s| - 1], has) + if has(s[|s| - 1]) then 1 else 0
  }

  lemma {:induction false} NumberSnoc<T>(s: seq<T>, x: T, has: T -> bool)
    ensures Number(s + [x], has) == Number(s, has) + if has(x) then 1 else 0
  {
    assert (s + [x])[..|s|] == s;
  }

  lemma {:induction false} NumberPositive<T>(s: seq<T>, has: T -> bool)
    ensures Number(s, has) > 0 <==> exists i :: 0 <= i < |s| && has(s[i])
  {
    if s != [] {
      var n := |s| - 1;
      NumberPositive(s[..n], has);
      if i :| 0 <= i < n && has(s[..n][i]) { assert has(s[i]); }
      if i :| 0 <= i < |s| && has(s[i]) && i < n { assert has(s[..n][i]); }
    }
  }
}
