/** The local particle store: partitioning in place, moving rejected particles out of the way, and sorting
    back into file order. */
module ParticleStore {
  import opened Collections

  datatype Particle = Particle(x: real, y: real, z: real, iOrder: nat, uRung: nat)

  function Pos(p: Particle, d: nat): real {
    if d == 0 then p.x else if d == 1 then p.y else p.z
  }

  // ----- permutations of a range -----

  ghost predicate Permuted(s: seq<Particle>, t: seq<Particle>, lo: nat, hi: nat) {
    && lo <= hi <= |s| && |t| == |s|
    && t[..lo] == s[..lo] && t[hi..] == s[hi..] && multiset(t[lo..hi]) == multiset(s[lo..hi])
  }

  function Swapped(s: seq<Particle>, i: nat, j: nat): seq<Particle>
    requires i < |s| && j < |s|
  {
    s[i := s[j]][j := s[i]]
  }

  lemma SwapMultiset(s: seq<Particle>, i: nat, j: nat)
    requires i < j < |s|
    ensures multiset(Swapped(s, i, j)) == multiset(s)
  {
    var t := s[i := s[j]];
    assert multiset(t) == multiset(s) - multiset{s[i]} + multiset{s[j]};
    assert multiset(t[j := s[i]]) == multiset(t) - multiset{t[j]} + multiset{s[i]};
  }

  lemma SamePermuted(s: seq<Particle>, lo: nat, hi: nat)
    requires lo <= hi <= |s|
    ensures Permuted(s, s, lo, hi)
  {
  }

  lemma SwapPermutes(s: seq<Particle>, t: seq<Particle>, lo: nat, hi: nat, i: nat, j: nat)
    requires Permuted(s, t, lo, hi) && lo <= i < j < hi
    ensures Permuted(s, Swapped(t, i, j), lo, hi)
  {
    var u := Swapped(t, i, j);
    SwapMultiset(t[lo..hi], i - lo, j - lo);
    assert u[lo..hi] == Swapped(t[lo..hi], i - lo, j - lo);
    assert u[..lo] == t[..lo] && u[hi..] == t[hi..];
  }

  lemma {:induction false} NumberConcat(s: seq<Particle>, t: seq<Particle>, has: Particle -> bool)
    ensures Number(s + t, has) == Number(s, has) + Number(t, has)
  {
    if t == [] {
      assert s + t == s;
    } else {
      assert (s + t)[..|s + t| - 1] == s + t[..|t| - 1];
      NumberConcat(s, t[..|t| - 1], has);
    }
  }

  lemma {:induction false} NumberAll(s: seq<Particle>, has: Particle -> bool, b: bool)
    requires forall k | 0 <= k < |s| :: has(s[k]) == b
    ensures Number(s, has) == if b then |s| else 0
  {
    if s != [] { NumberAll(s[..|s| - 1], has, b); }
  }

  lemma NumberRange(s: seq<Particle>, lo: nat, hi: nat, has: Particle -> bool, b: bool)
    requires lo <= hi <= |s| && forall k | lo <= k < hi :: has(s[k]) == b
    ensures Number(s[lo..hi], has) == if b then hi - lo else 0
  {
    var t := s[lo..hi];
    forall k | 0 <= k < |t| ensures has(t[k]) == b { assert t[k] == s[lo + k]; }
    NumberAll(t, has, b);
  }

  lemma RemoveAt(s: seq<Particle>, k: nat)
    requires k < |s|
    ensures multiset(s[..k] + s[k + 1..]) == multiset(s) - multiset{s[k]}
  {
    assert s == s[..k] + [s[k]] + s[k + 1..];
  }

  lemma WithoutOne(s: seq<Particle>, t: seq<Particle>, n: nat, k: nat)
    requires |s| == n + 1 && k < |t| && s[n] == t[k] && multiset(s) == multiset(t)
    ensures multiset(s[..n]) == multiset(t[..k] + t[k + 1..])
  {
    RemoveAt(s, n);
    RemoveAt(t, k);
    assert s[..n] + s[n + 1..] == s[..n];
  }

  lemma {:induction false} NumberOfPermutation(s: seq<Particle>, t: seq<Particle>, has: Particle -> bool)
    requires multiset(s) == multiset(t)
    ensures Number(s, has) == Number(t, has)
  {
    if s == [] {
      assert |multiset(t)| == |t|;
    } else {
      var n := |s| - 1;
      assert s == s[..n] + [s[n]];
      assert s[n] in multiset(t);
      var k :| 0 <= k < |t| && t[k] == s[n];
      assert t == t[..k] + [t[k]] + t[k + 1..];
      WithoutOne(s, t, n, k);
      NumberOfPermutation(s[..n], t[..k] + t[k + 1..], has);
      NumberConcat(t[..k], t[k + 1..], has);
      NumberConcat(t[..k], [t[k]], has);
      NumberConcat(t[..k] + [t[k]], t[k + 1..], has);
      NumberAll([t[k]], has, has(t[k]));
    }
  }

  /** Of the particles lo..hi those with the property have come first, and there are m - lo of them. */
  ghost predicate Parted(s: seq<Particle>, t: seq<Particle>, lo: nat, m: nat, hi: nat, has: Particle -> bool) {
    && Permuted(s, t, lo, hi) && lo <= m <= hi && m == lo + Number(s[lo..hi], has)
    && (forall k | lo <= k < m :: has(t[k])) && (forall k | m <= k < hi :: !has(t[k]))
  }

  lemma PartedSizes(s: seq<Particle>, t: seq<Particle>, lo: nat, m: nat, hi: nat, has: Particle -> bool)
    requires Parted(s, t, lo, m, hi, has)
    ensures lo <= m <= hi <= |s| == |t| && Permuted(s, t, lo, hi)
  {
  }

  /** Each particle lies on its side of the boundary. */
  lemma EachSide(s: seq<Particle>, t: seq<Particle>, lo: nat, m: nat, hi: nat, has: Particle -> bool)
    requires Parted(s, t, lo, m, hi, has)
    ensures hi <= |t| && forall k | lo <= k < hi :: has(t[k]) <==> k < m
  {
  }

  /** After partitioning lo..hi at m, the boundary is determined by how many particles have the property. */
  lemma BoundaryIsCount(s: seq<Particle>, t: seq<Particle>, lo: nat, m: nat, hi: nat, has: Particle -> bool)
    requires Permuted(s, t, lo, hi) && lo <= m <= hi
    requires (forall k | lo <= k < m :: has(t[k])) && (forall k | m <= k < hi :: !has(t[k]))
    ensures Parted(s, t, lo, m, hi, has)
  {
    NumberOfPermutation(s[lo..hi], t[lo..hi], has);
    assert t[lo..hi] == t[lo..m] + t[m..hi];
    NumberConcat(t[lo..m], t[m..hi], has);
    NumberRange(t, lo, m, has, true);
    NumberRange(t, m, hi, has, false);
  }

  /** Between two swaps: what lies before i and behind j is on its side, what lies at i and j is not. */
  ghost predicate Between(t: seq<Particle>, iFrom: nat, i: nat, j: int, iTo: int, lower: Particle -> bool,
                          upper: Particle -> bool) {
    && iFrom <= i <= j + 1 <= iTo + 1 <= |t| && (i < j ==> lower(t[j])) && (i <= j ==> upper(t[i]))
    && (forall k | iFrom <= k < i :: lower(t[k])) && (forall k | j < k <= iTo :: upper(t[k]))
  }

  /** The do-while loops have gone from i0 and j0 to i and j. */
  ghost predicate Advanced(t: seq<Particle>, i0: nat, j0: nat, i: nat, j: nat, lower: Particle -> bool,
                           upper: Particle -> bool) {
    && i0 < i <= j + 1 <= j0 < |t| && i0 <= j && upper(t[i]) && lower(t[j])
    && (forall k | i0 <= k < i :: lower(t[k])) && (forall k | j < k <= j0 :: upper(t[k]))
  }

  lemma BetweenRange(t: seq<Particle>, iFrom: nat, i: nat, j: int, iTo: int, lower: Particle -> bool,
                     upper: Particle -> bool)
    requires Between(t, iFrom, i, j, iTo, lower, upper)
    ensures iFrom <= i <= j + 1 <= iTo + 1 <= |t|
  {
  }

  lemma SwapReady(t: seq<Particle>, iFrom: nat, i: nat, j: nat, iTo: int, lower: Particle -> bool,
                  upper: Particle -> bool)
    requires Between(t, iFrom, i, j, iTo, lower, upper) && i < j
    ensures j < |t| && lower(Swapped(t, i, j)[i]) && upper(Swapped(t, i, j)[j])
  {
  }

  lemma SwapBetween(t: seq<Particle>, iFrom: nat, i0: nat, j0: nat, iTo: int, i: nat, j: nat,
                    lower: Particle -> bool, upper: Particle -> bool)
    requires Between(t, iFrom, i0, j0, iTo, lower, upper) && i0 < j0
    requires Advanced(Swapped(t, i0, j0), i0, j0, i, j, lower, upper)
    ensures i0 < i <= j + 1 <= j0 && Between(Swapped(t, i0, j0), iFrom, i, j, iTo, lower, upper)
  {
    var u := Swapped(t, i0, j0);
    forall k | iFrom <= k < i ensures lower(u[k]) { if k < i0 { assert u[k] == t[k]; } }
    forall k | j < k <= iTo ensures upper(u[k]) { if k > j0 { assert u[k] == t[k]; } }
  }

  lemma BetweenEnd(s: seq<Particle>, t: seq<Particle>, iFrom: nat, i: nat, j: int, iTo: int,
                   lower: Particle -> bool, upper: Particle -> bool)
    requires Between(t, iFrom, i, j, iTo, lower, upper) && i >= j && Permuted(s, t, iFrom, iTo + 1)
    requires forall q :: upper(q) == !lower(q)
    ensures Parted(s, t, iFrom, i, iTo + 1, lower)
  {
    BoundaryIsCount(s, t, iFrom, i, iTo + 1, lower);
  }

  /** If the particles outside lo..hi were already on their sides, the boundary counts all of them. */
  lemma BoundaryCountsAll(s: seq<Particle>, lo: nat, hi: nat, n: nat, has: Particle -> bool)
    requires lo <= hi <= n <= |s|
    requires (forall k | 0 <= k < lo :: has(s[k])) && (forall k | hi <= k < n :: !has(s[k]))
    ensures Number(s[..n], has) == lo + Number(s[lo..hi], has)
  {
    NumberRange(s, 0, lo, has, true);
    NumberRange(s, hi, n, has, false);
    assert s[..n] == s[0..lo] + s[lo..hi] + s[hi..n];
    NumberConcat(s[0..lo] + s[lo..hi], s[hi..n], has);
    NumberConcat(s[0..lo], s[lo..hi], has);
  }

  lemma {:induction false} NumberOpposite(s: seq<Particle>, has: Particle -> bool, hasNot: Particle -> bool)
    requires forall p :: hasNot(p) == !has(p)
    ensures Number(s, has) + Number(s, hasNot) == |s|
  {
    if s != [] { NumberOpposite(s[..|s| - 1], has, hasNot); }
  }

  /** Only the particles lo..hi can still be on the wrong side. */
  ghost predicate Sides(s: seq<Particle>, lo: nat, hi: nat, first: Particle -> bool) {
    lo <= hi <= |s| && (forall k | 0 <= k < lo :: first(s[k])) && (forall k | hi <= k < |s| :: !first(s[k]))
  }

  /** What one more partition of lo..hi achieves for the n local particles. */
  lemma AfterSplit(s: seq<Particle>, t: seq<Particle>, lo: nat, i: nat, hi: nat, n: nat,
                   first: Particle -> bool, second: Particle -> bool)
    requires Parted(s, t, lo, i, hi, first) && n <= |s| && Sides(s[..n], lo, hi, first)
    requires forall p :: second(p) == !first(p)
    ensures |t| == |s| && Permuted(s, t, lo, hi) && i <= n && i == Number(s[..n], first)
    ensures n - i == Number(s[..n], second) && Sides(t[..n], i, i, first)
  {
    NumberOpposite(s[..n], first, second);
    forall k | 0 <= k < lo || hi <= k < n ensures first(s[k]) <==> k < lo { assert s[..n][k] == s[k]; }
    BoundaryCountsAll(s, lo, hi, n, first);
    OutsideSame(s, t, lo, hi);
  }

  // ----- the sides of the splits -----

  function Below(d: nat, fSplit: real): Particle -> bool {
    (p: Particle) => Pos(p, d) < fSplit
  }

  function NotBelow(d: nat, fSplit: real): Particle -> bool {
    (p: Particle) => Pos(p, d) >= fSplit
  }

  function OrdBelow(nOrdSplit: nat): Particle -> bool {
    (p: Particle) => p.iOrder < nOrdSplit
  }

  function OrdNotBelow(nOrdSplit: nat): Particle -> bool {
    (p: Particle) => p.iOrder >= nOrdSplit
  }

  /** The low side of a split of a periodic coordinate at two places. */
  function WrapLow(d: nat, fSplit1: real, fSplit2: real): Particle -> bool {
    if fSplit1 > fSplit2 then ((p: Particle) => Pos(p, d) < fSplit2 || Pos(p, d) >= fSplit1)
    else ((p: Particle) => Pos(p, d) < fSplit2 && Pos(p, d) >= fSplit1)
  }

  function WrapHigh(d: nat, fSplit1: real, fSplit2: real): Particle -> bool {
    if fSplit1 > fSplit2 then ((p: Particle) => Pos(p, d) >= fSplit2 && Pos(p, d) < fSplit1)
    else ((p: Particle) => Pos(p, d) >= fSplit2 || Pos(p, d) < fSplit1)
  }

  /** Positions that do not hold the particle of that place in file order. */
  ghost function Misplaced(s: seq<Particle>, iMinOrder: nat): set<nat> {
    set k | 0 <= k < |s| && s[k].iOrder != iMinOrder + k
  }

  ghost predicate Orders(s: seq<Particle>, iMinOrder: nat) {
    && (forall k | 0 <= k < |s| :: iMinOrder <= s[k].iOrder < iMinOrder + |s|)
    && (forall j, k | 0 <= j < k < |s| :: s[j].iOrder != s[k].iOrder)
  }

  lemma SmallerSet(a: set<nat>, b: set<nat>, x: nat)
    requires a <= b && x in b && x !in a
    ensures |a| < |b|
  {
    assert a <= b - {x};
    SubsetSize(a, b - {x});
  }

  /** Sending the particle at place i home puts it where no particle was at home, for good. */
  lemma SendHome(s: seq<Particle>, iMinOrder: nat, i: nat)
    requires Orders(s, iMinOrder) && i < |s| && s[i].iOrder != iMinOrder + i
    ensures var q := s[i].iOrder - iMinOrder;
            && q < |s| && q != i && Orders(Swapped(s, i, q), iMinOrder)
            && Misplaced(Swapped(s, i, q), iMinOrder) < Misplaced(s, iMinOrder)
            && |Misplaced(Swapped(s, i, q), iMinOrder)| < |Misplaced(s, iMinOrder)|
            && s[q].iOrder != iMinOrder + q && Swapped(s, i, q)[q].iOrder == iMinOrder + q
  {
    var q := s[i].iOrder - iMinOrder;
    var t := Swapped(s, i, q);
    assert s[q].iOrder != s[i].iOrder;
    assert t[q] == s[i] && t[i] == s[q];
    assert forall k | 0 <= k < |s| && k != i && k != q :: t[k] == s[k];
    SmallerSet(Misplaced(t, iMinOrder), Misplaced(s, iMinOrder), q);
  }

  class Store {
    const p: array<Particle>
    var nLocal: nat
    var nActive: nat
    var nRejects: nat
    var uMinRungActive: nat
    var uMaxRungActive: nat

    constructor (nStore: nat, fill: Particle)
      ensures fresh(p) && p.Length == nStore && nLocal == 0 && nRejects == 0
    {
      p := new Particle[nStore](_ => fill);
      nLocal, nActive, nRejects, uMinRungActive, uMaxRungActive := 0, 0, 0, 0, 0;
    }

    ghost predicate Valid()
      reads this
    {
      nLocal <= p.Length
    }

    /** pkdSwapParticle: through the save area. */
    method SwapParticle(i: nat, j: nat)
      requires i < p.Length && j < p.Length
      modifies p
      ensures p[..] == Swapped(old(p[..]), i, j)
    {
      var saved := p[i];
      p[i] := p[j];
      p[j] := saved;
    }

    /** The two do-while loops of PARTITION after a swap: nothing but the swapped particles stops them. */
    method Advance(i0: nat, j0: nat, lower: Particle -> bool, upper: Particle -> bool) returns (i: nat, j: nat)
      requires i0 < j0 < p.Length && lower(p[i0]) && upper(p[j0])
      requires forall q :: upper(q) == !lower(q)
      ensures Advanced(p[..], i0, j0, i, j, lower, upper)
    {
      j := j0 - 1;
      while upper(p[j])
        invariant i0 <= j < j0 && forall k | j < k <= j0 :: upper(p[k])
        decreases j
      {
        j := j - 1;
      }
      i := i0 + 1;
      while lower(p[i])
        invariant i0 < i <= j0 && i <= j + 1 && forall k | i0 <= k < i :: lower(p[k])
        decreases j0 - i
      {
        i := i + 1;
      }
    }

    /** The loops of PARTITION before the first swap. */
    method Ends(iFrom: nat, iTo: int, lower: Particle -> bool, upper: Particle -> bool) returns (i: nat, j: int)
      requires iFrom <= iTo + 1 <= p.Length
      requires forall q :: upper(q) == !lower(q)
      ensures Between(p[..], iFrom, i, j, iTo, lower, upper)
    {
      i, j := iFrom, iTo;
      while i < j && lower(p[i])
        invariant iFrom <= i && (i <= j || i == iFrom)
        invariant forall k | iFrom <= k < i :: lower(p[k])
      {
        i := i + 1;
      }
      if i <= j && lower(p[i]) {
        i := i + 1;
      } else {
        while i < j && upper(p[j])
          invariant i <= j <= iTo || (i == iFrom && j == iTo)
          invariant forall k | j < k <= iTo :: upper(p[k])
        {
          j := j - 1;
        }
      }
    }

    /** PARTITION: particles iFrom..iTo with `lower` first, then those with `upper`; the do-while loops do
        not compare indices. */
    method Partition(iFrom: nat, iTo: int, lower: Particle -> bool, upper: Particle -> bool) returns (i: nat)
      requires iFrom <= iTo + 1 <= p.Length
      requires forall q :: upper(q) == !lower(q)
      modifies p
      ensures Parted(old(p[..]), p[..], iFrom, i, iTo + 1, lower)
    {
      hide Permuted, Parted, Between, Advanced;
      ghost var s := p[..];
      SamePermuted(s, iFrom, iTo + 1);
      var j;
      i, j := Ends(iFrom, iTo, lower, upper);
      BetweenRange(s, iFrom, i, j, iTo, lower, upper);
      while i < j
        invariant iFrom <= i <= j + 1 <= iTo + 1
        invariant Permuted(s, p[..], iFrom, iTo + 1) && Between(p[..], iFrom, i, j, iTo, lower, upper)
        decreases j - i
      {
        ghost var t, i0, j0 := p[..], i, j;
        SwapPermutes(s, t, iFrom, iTo + 1, i, j);
        SwapReady(t, iFrom, i, j, iTo, lower, upper);
        SwapParticle(i, j);
        assert p[i] == p[..][i] && p[j] == p[..][j];
        i, j := Advance(i, j, lower, upper);
        SwapBetween(t, iFrom, i0, j0, iTo, i, j, lower, upper);
      }
      BetweenEnd(s, p[..], iFrom, i, j, iTo, lower, upper);
    }

    /** pkdLowerPart: the particles at or above the split come first. */
    method LowerPart(d: nat, fSplit: real, iFrom: nat, iTo: int) returns (i: nat)
      requires iFrom <= iTo + 1 <= p.Length
      modifies p
      ensures Parted(old(p[..]), p[..], iFrom, i, iTo + 1, NotBelow(d, fSplit))
      ensures forall k | iFrom <= k <= iTo ::
                Pos(p[k], d) >= fSplit <==> k < i
    {
      hide Parted;
      ghost var s := p[..];
      i := Partition(iFrom, iTo, NotBelow(d, fSplit), Below(d, fSplit));
      EachSide(s, p[..], iFrom, i, iTo + 1, NotBelow(d, fSplit));
    }

    /** pkdUpperPart: the particles below the split come first. */
    method UpperPart(d: nat, fSplit: real, iFrom: nat, iTo: int) returns (i: nat)
      requires iFrom <= iTo + 1 <= p.Length
      modifies p
      ensures Parted(old(p[..]), p[..], iFrom, i, iTo + 1, Below(d, fSplit))
      ensures forall k | iFrom <= k <= iTo ::
                Pos(p[k], d) < fSplit <==> k < i
    {
      hide Parted;
      ghost var s := p[..];
      i := Partition(iFrom, iTo, Below(d, fSplit), NotBelow(d, fSplit));
      EachSide(s, p[..], iFrom, i, iTo + 1, Below(d, fSplit));
    }

    /** pkdLowerPartWrap, in both orders of the two splits. */
    method LowerPartWrap(d: nat, fSplit1: real, fSplit2: real, iFrom: nat, iTo: int) returns (i: nat)
      requires iFrom <= iTo + 1 <= p.Length
      modifies p
      ensures Parted(old(p[..]), p[..], iFrom, i, iTo + 1, WrapLow(d, fSplit1, fSplit2))
      ensures forall k | iFrom <= k <= iTo ::
                (if fSplit1 > fSplit2 then Pos(p[k], d) < fSplit2 || fSplit1 <= Pos(p[k], d)
                 else fSplit1 <= Pos(p[k], d) < fSplit2) <==> k < i
    {
      hide Parted;
      ghost var s := p[..];
      i := Partition(iFrom, iTo, WrapLow(d, fSplit1, fSplit2), WrapHigh(d, fSplit1, fSplit2));
      EachSide(s, p[..], iFrom, i, iTo + 1, WrapLow(d, fSplit1, fSplit2));
    }

    /** pkdUpperPartWrap, in both orders of the two splits. */
    method UpperPartWrap(d: nat, fSplit1: real, fSplit2: real, iFrom: nat, iTo: int) returns (i: nat)
      requires iFrom <= iTo + 1 <= p.Length
      modifies p
      ensures Parted(old(p[..]), p[..], iFrom, i, iTo + 1, WrapHigh(d, fSplit1, fSplit2))
      ensures forall k | iFrom <= k <= iTo ::
                (if fSplit1 > fSplit2 then fSplit2 <= Pos(p[k], d) < fSplit1
                 else Pos(p[k], d) < fSplit1 || fSplit2 <= Pos(p[k], d)) <==> k < i
    {
      hide Parted;
      ghost var s := p[..];
      i := Partition(iFrom, iTo, WrapHigh(d, fSplit1, fSplit2), WrapLow(d, fSplit1, fSplit2));
      EachSide(s, p[..], iFrom, i, iTo + 1, WrapHigh(d, fSplit1, fSplit2));
    }

    method LowerOrdPart(nOrdSplit: nat, iFrom: nat, iTo: int) returns (i: nat)
      requires iFrom <= iTo + 1 <= p.Length
      modifies p
      ensures Parted(old(p[..]), p[..], iFrom, i, iTo + 1, OrdNotBelow(nOrdSplit))
      ensures forall k | iFrom <= k <= iTo ::
                p[k].iOrder >= nOrdSplit <==> k < i
    {
      hide Parted;
      ghost var s := p[..];
      i := Partition(iFrom, iTo, OrdNotBelow(nOrdSplit), OrdBelow(nOrdSplit));
      EachSide(s, p[..], iFrom, i, iTo + 1, OrdNotBelow(nOrdSplit));
    }

    method UpperOrdPart(nOrdSplit: nat, iFrom: nat, iTo: int) returns (i: nat)
      requires iFrom <= iTo + 1 <= p.Length
      modifies p
      ensures Parted(old(p[..]), p[..], iFrom, i, iTo + 1, OrdBelow(nOrdSplit))
      ensures forall k | iFrom <= k <= iTo ::
                p[k].iOrder < nOrdSplit <==> k < i
    {
      hide Parted;
      ghost var s := p[..];
      i := Partition(iFrom, iTo, OrdBelow(nOrdSplit), OrdNotBelow(nOrdSplit));
      EachSide(s, p[..], iFrom, i, iTo + 1, OrdBelow(nOrdSplit));
    }

    /** pkdWeightWrap: on whichever side the low particles are collected, nLow counts all local particles
        on the low side of the split. */
    method WeightWrap(d: nat, fSplit: real, fSplit2: real, iSplitSide: bool, iFrom: nat, iTo: int)
      returns (iPart: nat, nLow: int, nHigh: int)
      requires Valid() && iFrom <= iTo + 1 <= nLocal
      requires Sides(p[..nLocal], iFrom, iTo + 1, if iSplitSide then WrapHigh(d, fSplit, fSplit2)
                     else WrapLow(d, fSplit, fSplit2))
      modifies p
      ensures Permuted(old(p[..]), p[..], iFrom, iTo + 1) && nLow + nHigh == nLocal && iPart <= nLocal
      ensures nLow == Number(old(p[..nLocal]), WrapLow(d, fSplit, fSplit2))
      ensures Sides(p[..nLocal], iPart, iPart, if iSplitSide then WrapHigh(d, fSplit, fSplit2)
                    else WrapLow(d, fSplit, fSplit2))
    {
      hide Permuted, Number, Sides, Parted;
      ghost var s := p[..];
      ghost var low, high := WrapLow(d, fSplit, fSplit2), WrapHigh(d, fSplit, fSplit2);
      assert s[..nLocal] == p[..nLocal];
      if !iSplitSide {
        iPart := LowerPartWrap(d, fSplit, fSplit2, iFrom, iTo);
        nLow, nHigh := iPart, nLocal - iPart;
        AfterSplit(s, p[..], iFrom, iPart, iTo + 1, nLocal, low, high);
      } else {
        iPart := UpperPartWrap(d, fSplit, fSplit2, iFrom, iTo);
        nHigh, nLow := iPart, nLocal - iPart;
        AfterSplit(s, p[..], iFrom, iPart, iTo + 1, nLocal, high, low);
      }
      assert p[..][..nLocal] == p[..nLocal];
    }

    /** pkdOrdWeight: likewise for a split in file order. */
    method OrdWeight(iOrdSplit: nat, iSplitSide: bool, iFrom: nat, iTo: int)
      returns (iPart: nat, nLow: int, nHigh: int)
      requires Valid() && iFrom <= iTo + 1 <= nLocal
      requires Sides(p[..nLocal], iFrom, iTo + 1, if iSplitSide then OrdNotBelow(iOrdSplit) else OrdBelow(iOrdSplit))
      modifies p
      ensures Permuted(old(p[..]), p[..], iFrom, iTo + 1) && nLow + nHigh == nLocal && iPart <= nLocal
      ensures nLow == Number(old(p[..nLocal]), OrdBelow(iOrdSplit))
      ensures Sides(p[..nLocal], iPart, iPart, if iSplitSide then OrdNotBelow(iOrdSplit) else OrdBelow(iOrdSplit))
    {
      hide Permuted, Number, Sides, Parted;
      ghost var s := p[..];
      ghost var low, high := OrdBelow(iOrdSplit), OrdNotBelow(iOrdSplit);
      assert s[..nLocal] == p[..nLocal];
      if iSplitSide {
        iPart := LowerOrdPart(iOrdSplit, iFrom, iTo);
        nLow, nHigh := nLocal - iPart, iPart;
        AfterSplit(s, p[..], iFrom, iPart, iTo + 1, nLocal, high, low);
      } else {
        iPart := UpperOrdPart(iOrdSplit, iFrom, iTo);
        nLow, nHigh := iPart, nLocal - iPart;
        AfterSplit(s, p[..], iFrom, iPart, iTo + 1, nLocal, low, high);
      }
      assert p[..][..nLocal] == p[..nLocal];
    }

    function IsActive(): Particle -> bool
      reads this
    {
      var lo, hi := uMinRungActive, uMaxRungActive;
      (q: Particle) => q.uRung >= lo && q.uRung <= hi
    }

    /** pkdActiveOrder: the active particles come first, and are counted. */
    method ActiveOrder() returns (n: nat)
      requires Valid()
      modifies this`nActive, p
      ensures Permuted(old(p[..]), p[..], 0, nLocal)
      ensures n == nActive == Number(old(p[..nLocal]), IsActive()) && n <= nLocal
      ensures forall k | 0 <= k < nLocal :: uMinRungActive <= p[k].uRung <= uMaxRungActive <==> k < nActive
    {
      hide Permuted, Number;
      var active := IsActive();
      n := Partition(0, nLocal - 1, active, q => !active(q));
      nActive := n;
    }

    /** pkdColRejects: the particles from nSplit on move to the end of the store, in order. */
    method ColRejects(nSplit: nat) returns (n: nat)
      requires Valid() && nSplit <= nLocal && nRejects == 0
      modifies this`nLocal, this`nRejects, p
      ensures n == nRejects == old(nLocal) - nSplit && nLocal == nSplit
      ensures p[..nLocal] == old(p[..nSplit])
      ensures p[p.Length - nRejects..] == old(p[nSplit..nLocal])
    {
      ghost var s, moved := p[..], p[nSplit..nLocal];
      nRejects := nLocal - nSplit;
      var iRejects := p.Length - nRejects;
      if nLocal != p.Length {
        var i := nRejects - 1;
        while i >= 0
          invariant -1 <= i < nRejects == old(nLocal) - nSplit
          invariant forall k | 0 <= k <= nSplit + i :: p[k] == s[k]
          invariant forall k | i < k < nRejects :: p[iRejects + k] == moved[k]
        {
          p[iRejects + i] := p[nSplit + i];
          i := i - 1;
        }
      }
      assert p[..nSplit] == s[..nSplit] && p[iRejects..] == moved;
      nLocal := nSplit;
      n := nRejects;
    }

    /** The partition at the start of pkdColOrdRejects. */
    method OrdSide(nOrdSplit: nat, iSplitSide: bool) returns (nSplit: nat)
      requires Valid()
      modifies p
      ensures nSplit <= nLocal && Permuted(old(p[..]), p[..], 0, nLocal)
      ensures forall k | 0 <= k < nSplit :: p[k].iOrder >= nOrdSplit <==> iSplitSide
      ensures forall k | nSplit <= k < nLocal :: p[k].iOrder < nOrdSplit <==> iSplitSide
    {
      hide Permuted, Number;
      if iSplitSide {
        nSplit := LowerOrdPart(nOrdSplit, 0, nLocal - 1);
      } else {
        nSplit := UpperOrdPart(nOrdSplit, 0, nLocal - 1);
      }
    }

    /** pkdColOrdRejects: exactly the particles on the other side of the split in file order are rejected. */
    method ColOrdRejects(nOrdSplit: nat, iSplitSide: bool) returns (n: nat)
      requires Valid() && nRejects == 0
      modifies this`nLocal, this`nRejects, p
      ensures Valid() && n == nRejects && nLocal + nRejects == old(nLocal)
      ensures forall k | 0 <= k < nLocal :: p[k].iOrder >= nOrdSplit <==> iSplitSide
      ensures forall k | p.Length - nRejects <= k < p.Length :: p[k].iOrder < nOrdSplit <==> iSplitSide
      ensures DividedInto(old(p[..nLocal]), p[..nLocal], p[p.Length - nRejects..])
    {
      hide Permuted, Number, DividedInto;
      ghost var s, all := p[..], p[..nLocal];
      var nSplit := OrdSide(nOrdSplit, iSplitSide);
      ghost var low, high := p[..nSplit], p[nSplit..nLocal];
      assert DividedInto(all, low, high) by {
        SplitMultiset(s, p[..], nSplit, nLocal);
        assert p[..][..nSplit] == low && p[..][nSplit..nLocal] == high && s[..nLocal] == all;
      }
      assert forall k | 0 <= k < |low| :: low[k].iOrder >= nOrdSplit <==> iSplitSide;
      assert forall k | 0 <= k < |high| :: high[k].iOrder < nOrdSplit <==> iSplitSide;
      n := ColRejects(nSplit);
      assert p[..][..nLocal] == p[..nLocal] == low && p[..][p.Length - nRejects..] == p[p.Length - nRejects..] == high;
      Slices(p[..], nLocal, p.Length - nRejects, low, high);
    }

    /** pkdLocalOrder: cycles are followed until every particle is at its place in file order; no more swaps
        than particles that were out of place. */
    method LocalOrder(iMinOrder: nat, iMaxOrder: nat) returns (ghost nSwaps: nat)
      requires Valid() && nLocal == iMaxOrder - iMinOrder + 1
      requires Orders(p[..nLocal], iMinOrder)
      modifies p
      ensures forall k | 0 <= k < nLocal :: p[k].iOrder == iMinOrder + k
      ensures Permuted(old(p[..]), p[..], 0, nLocal)
      ensures nSwaps <= |Misplaced(old(p[..nLocal]), iMinOrder)|
    {
      hide Orders, Misplaced, Permuted;
      nSwaps := 0;
      SamePermuted(p[..], 0, nLocal);
      for i := 0 to nLocal
        invariant Orders(p[..nLocal], iMinOrder) && Permuted(old(p[..]), p[..], 0, nLocal)
        invariant forall k | 0 <= k < i :: p[k].iOrder == iMinOrder + k
        invariant nSwaps + |Misplaced(p[..nLocal], iMinOrder)| <= |Misplaced(old(p[..nLocal]), iMinOrder)|
      {
        InOrder(p[..], nLocal, iMinOrder, i);
        while p[i].iOrder - iMinOrder != i
          invariant Orders(p[..nLocal], iMinOrder) && Permuted(old(p[..]), p[..], 0, nLocal)
          invariant p[i].iOrder >= iMinOrder
          invariant forall k | 0 <= k < i :: p[k].iOrder == iMinOrder + k
          invariant nSwaps + |Misplaced(p[..nLocal], iMinOrder)| <= |Misplaced(old(p[..nLocal]), iMinOrder)|
          decreases |Misplaced(p[..nLocal], iMinOrder)|
        {
          ghost var s := p[..];
          assert s[..nLocal] == p[..nLocal];
          SendHomeInStore(old(p[..]), s, nLocal, iMinOrder, i);
          SwapParticle(i, p[i].iOrder - iMinOrder);
          assert p[..][..nLocal] == p[..nLocal];
          InOrder(p[..], nLocal, iMinOrder, i);
          assert forall k | 0 <= k < i :: p[k] == p[..][k];
          nSwaps := nSwaps + 1;
        }
      }
    }
  }

  ghost predicate DividedInto(s: seq<Particle>, low: seq<Particle>, high: seq<Particle>) {
    multiset(low) + multiset(high) == multiset(s)
  }

  lemma Slices(s: seq<Particle>, m: nat, n: nat, low: seq<Particle>, high: seq<Particle>)
    requires m <= |s| && n <= |s| && s[..m] == low && s[n..] == high
    ensures forall k | 0 <= k < m :: s[k] == low[k]
    ensures forall k | n <= k < |s| :: s[k] == high[k - n]
  {
  }

  lemma SplitMultiset(s: seq<Particle>, t: seq<Particle>, m: nat, n: nat)
    requires Permuted(s, t, 0, n) && m <= n
    ensures DividedInto(s[..n], t[..m], t[m..n])
  {
    assert t[0..n] == t[..m] + t[m..n] && s[0..n] == s[..n];
  }

  lemma SwappedPrefix(s: seq<Particle>, n: nat, i: nat, j: nat)
    requires i < n && j < n && n <= |s|
    ensures Swapped(s, i, j)[..n] == Swapped(s[..n], i, j) && Swapped(s, j, i) == Swapped(s, i, j)
    ensures forall k | 0 <= k < |s| && k != i && k != j :: Swapped(s, i, j)[k] == s[k]
  {
  }

  lemma SwapPermutesEither(s: seq<Particle>, t: seq<Particle>, n: nat, i: nat, j: nat)
    requires Permuted(s, t, 0, n) && i < n && j < n && i != j
    ensures Permuted(s, Swapped(t, i, j), 0, n)
  {
    SwappedPrefix(t, n, i, j);
    hide Permuted, Swapped;
    if i < j { SwapPermutes(s, t, 0, n, i, j); } else { SwapPermutes(s, t, 0, n, j, i); }
  }

  /** SendHome in a store whose first n particles are to be sorted. */
  lemma SendHomeInStore(s0: seq<Particle>, s: seq<Particle>, n: nat, iMinOrder: nat, i: nat)
    requires Permuted(s0, s, 0, n) && i < n <= |s| && Orders(s[..n], iMinOrder) && s[i].iOrder != iMinOrder + i
    ensures iMinOrder <= s[i].iOrder < iMinOrder + n
    ensures var t := Swapped(s, i, s[i].iOrder - iMinOrder);
            && Permuted(s0, t, 0, n) && Orders(t[..n], iMinOrder)
            && |Misplaced(t[..n], iMinOrder)| < |Misplaced(s[..n], iMinOrder)|
            && forall k | 0 <= k < i && s[k].iOrder == iMinOrder + k :: t[k] == s[k]
  {
    hide Orders, Misplaced, Permuted, Swapped;
    InOrder(s, n, iMinOrder, i);
    var q := s[i].iOrder - iMinOrder;
    SendHome(s[..n], iMinOrder, i);
    SwappedPrefix(s, n, i, q);
    SwapPermutesEither(s0, s, n, i, q);
  }

  lemma InOrder(s: seq<Particle>, n: nat, iMinOrder: nat, i: nat)
    requires i < n <= |s| && Orders(s[..n], iMinOrder)
    ensures iMinOrder <= s[i].iOrder < iMinOrder + n
  {
    assert s[..n][i] == s[i];
  }

  lemma OutsideSame(s: seq<Particle>, t: seq<Particle>, lo: nat, hi: nat)
    requires Permuted(s, t, lo, hi)
    ensures forall k | 0 <= k < lo || hi <= k < |s| :: t[k] == s[k]
  {
    forall k | 0 <= k < lo ensures t[k] == s[k] { assert t[..lo][k] == s[..lo][k]; }
    forall k | hi <= k < |s| ensures t[k] == s[k] { assert t[hi..][k - hi] == s[hi..][k - hi]; }
  }
}
