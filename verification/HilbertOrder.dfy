/** In which order the curves of the Hilbert keys visit the grid, at two levels and by coordinates, and their mirror
    symmetry. */
module HilbertOrder {
  import opened Hilbert

  // ----- three dimensions -----

  /** Cell j, along the curve, of octant d of the grid of depth 2. */
  function Visited3(d: nat, j: nat): Cell3
    requires d < 8 && j < 8
  {
    match d
    case 0 =>
      if j == 0 then Cell3(0, 0, 0) else if j == 1 then Cell3(1, 0, 0) else if j == 2 then Cell3(1, 0, 1)
      else if j == 3 then Cell3(0, 0, 1) else if j == 4 then Cell3(0, 1, 1) else if j == 5 then Cell3(1, 1, 1)
      else if j == 6 then Cell3(1, 1, 0) else Cell3(0, 1, 0)
    case 1 =>
      if j == 0 then Cell3(0, 2, 0) else if j == 1 then Cell3(0, 2, 1) else if j == 2 then Cell3(0, 3, 1)
      else if j == 3 then Cell3(0, 3, 0) else if j == 4 then Cell3(1, 3, 0) else if j == 5 then Cell3(1, 3, 1)
      else if j == 6 then Cell3(1, 2, 1) else Cell3(1, 2, 0)
    case 2 =>
      if j == 0 then Cell3(2, 2, 0) else if j == 1 then Cell3(2, 2, 1) else if j == 2 then Cell3(2, 3, 1)
      else if j == 3 then Cell3(2, 3, 0) else if j == 4 then Cell3(3, 3, 0) else if j == 5 then Cell3(3, 3, 1)
      else if j == 6 then Cell3(3, 2, 1) else Cell3(3, 2, 0)
    case 3 =>
      if j == 0 then Cell3(3, 1, 0) else if j == 1 then Cell3(3, 0, 0) else if j == 2 then Cell3(2, 0, 0)
      else if j == 3 then Cell3(2, 1, 0) else if j == 4 then Cell3(2, 1, 1) else if j == 5 then Cell3(2, 0, 1)
      else if j == 6 then Cell3(3, 0, 1) else Cell3(3, 1, 1)
    case 4 =>
      if j == 0 then Cell3(3, 1, 2) else if j == 1 then Cell3(3, 0, 2) else if j == 2 then Cell3(2, 0, 2)
      else if j == 3 then Cell3(2, 1, 2) else if j == 4 then Cell3(2, 1, 3) else if j == 5 then Cell3(2, 0, 3)
      else if j == 6 then Cell3(3, 0, 3) else Cell3(3, 1, 3)
    case 5 =>
      if j == 0 then Cell3(3, 2, 3) else if j == 1 then Cell3(3, 2, 2) else if j == 2 then Cell3(3, 3, 2)
      else if j == 3 then Cell3(3, 3, 3) else if j == 4 then Cell3(2, 3, 3) else if j == 5 then Cell3(2, 3, 2)
      else if j == 6 then Cell3(2, 2, 2) else Cell3(2, 2, 3)
    case 6 =>
      if j == 0 then Cell3(1, 2, 3) else if j == 1 then Cell3(1, 2, 2) else if j == 2 then Cell3(1, 3, 2)
      else if j == 3 then Cell3(1, 3, 3) else if j == 4 then Cell3(0, 3, 3) else if j == 5 then Cell3(0, 3, 2)
      else if j == 6 then Cell3(0, 2, 2) else Cell3(0, 2, 3)
    case _ =>
      if j == 0 then Cell3(0, 1, 3) else if j == 1 then Cell3(1, 1, 3) else if j == 2 then Cell3(1, 1, 2)
      else if j == 3 then Cell3(0, 1, 2) else if j == 4 then Cell3(0, 0, 2) else if j == 5 then Cell3(1, 0, 2)
      else if j == 6 then Cell3(1, 0, 3) else Cell3(0, 0, 3)
  }

  lemma SecondLevel3(d: nat, j: nat)
    requires d < 8 && j < 8
    ensures 8 * d + j < Pow8(2) && CellOf3(2, 8 * d + j) == Visited3(d, j)
  {
    hide Place3, CellOf3, Visited3;
    SmallPowers();
    CellOfDigit3(2, d, j);
    CellOfDigit3(1, j, 0);
    CellOfNone3();
    TimesSmall(d, j);
    hide Times;
    PlacedTwice3(d, j);
  }

  lemma SmallPowers()
    ensures Pow8(0) == 1 && Pow8(1) == 8 && Pow8(2) == 64 && Side(0) == 1 && Side(1) == 2
    ensures Pow4(0) == 1 && Pow4(1) == 4 && Pow4(2) == 16
  {
  }

  lemma CellOfNone3()
    ensures CellOf3(0, 0) == Cell3(0, 0, 0)
  {
  }

  lemma TimesSmall(d: nat, j: nat)
    requires d < 8 && j < 8
    ensures Times(d, 8) == 8 * d && Times(d, 4) == 4 * d && Times(j, 1) == j
  {
  }

  lemma PlacedTwice3(d: nat, j: nat)
    requires d < 8 && j < 8
    ensures Place3(d, Place3(j, Cell3(0, 0, 0), 1), 2) == Visited3(d, j)
  {
    PlacedOnce3(j, Cell3(0, 0, 0), 1);
    PlacedAt3(d, j, Place3(j, Cell3(0, 0, 0), 1), 2);
  }

  function Corner3(j: nat): Cell3 {
    if j == 0 then Cell3(0, 0, 0) else if j == 1 then Cell3(0, 1, 0) else if j == 2 then Cell3(1, 1, 0)
    else if j == 3 then Cell3(1, 0, 0) else if j == 4 then Cell3(1, 0, 1) else if j == 5 then Cell3(1, 1, 1)
    else if j == 6 then Cell3(0, 1, 1) else Cell3(0, 0, 1)
  }

  lemma PlacedOnce3(j: nat, t: Cell3, m: nat)
    requires j < 8 && t == Cell3(0, 0, 0) && m == 1
    ensures Place3(j, t, m) == Corner3(j)
  {
    hide Place3;
    var c := Placed3(j, t, m);
  }

  lemma PlacedAt3(d: nat, j: nat, t: Cell3, m: nat)
    requires d < 8 && j < 8 && t == Corner3(j) && m == 2
    ensures Place3(d, t, m) == Visited3(d, j)
  {
    hide Place3;
    var c := Placed3(d, t, m);
  }

  /** The placement, octant by octant. */
  lemma Placed3(d: nat, t: Cell3, m: nat) returns (c: Cell3)
    requires d < 8 && In3(t, m)
    ensures c == Place3(d, t, m)
    ensures d == 0 ==> c == Cell3(t.y, t.z, t.x)
    ensures d == 1 ==> c == Cell3(t.z, m + t.x, t.y)
    ensures d == 2 ==> c == Cell3(m + t.z, m + t.x, t.y)
    ensures d == 3 ==> c == Cell3(2 * m - 1 - t.x, m - 1 - t.y, t.z)
    ensures d == 4 ==> c == Cell3(2 * m - 1 - t.x, m - 1 - t.y, m + t.z)
    ensures d == 5 ==> c == Cell3(2 * m - 1 - t.z, m + t.x, 2 * m - 1 - t.y)
    ensures d == 6 ==> c == Cell3(m - 1 - t.z, m + t.x, 2 * m - 1 - t.y)
    ensures d == 7 ==> c == Cell3(t.y, m - 1 - t.z, 2 * m - 1 - t.x)
  {
    c := Place3(d, t, m);
  }

  /** At every depth k >= 2 the curve visits the 64 cells of side 2^(k-2) in this order: cell h of the curve lies in
      the one with the number that the two leading octal digits of h give. */
  lemma VisitOrder3(k: nat, h: nat)
    requires k >= 2 && h < Pow8(k)
    ensures var q := Chop8(h, k - 2); q < 64 && HalfN3(CellOf3(k, h), k - 2) == Visited3(q / 8, q % 8)
  {
    hide CellOf3, Key3, HalfN3, Chop8, Visited3;
    SmallPowers();
    hide Pow8, Side;
    var c := CellOf3(k, h);
    KeyOfCell3(k, h);
    assert 2 + (k - 2) == k;
    Prefix3(2, k - 2, c);
    var q := Chop8(h, k - 2);
    CellOfKey3(2, HalfN3(c, k - 2));
    SecondLevel3(q / 8, q % 8);
  }

  lemma {:induction false} ChopMultiple8(m: nat, k: nat)
    ensures Chop8(m * Pow8(k), k) == m
  {
    if k > 0 {
      var p := Pow8(k - 1);
      assert m * (8 * p) == 8 * (m * p);
      ChopMultiple8(m, k - 1);
    }
  }

  /** In particular, the first cells of the sub-octants. */
  lemma SubOctants3(k: nat, d: nat, j: nat)
    requires k >= 2 && d < 8 && j < 8
    ensures var h := (8 * d + j) * Pow8(k - 2); h < Pow8(k) && HalfN3(CellOf3(k, h), k - 2) == Visited3(d, j)
  {
    assert Pow8(k) == 8 * Pow8(k - 1) == 64 * Pow8(k - 2);
    hide Pow8, CellOf3, HalfN3, Visited3, Chop8;
    var q := 8 * d + j;
    Below64(q, Pow8(k - 2));
    ChopMultiple8(q, k - 2);
    VisitOrder3(k, q * Pow8(k - 2));
    assert q / 8 == d && q % 8 == j;
  }

  lemma Below64(m: nat, e: nat)
    requires m < 64 && e > 0
    ensures m * e < 64 * e
  {
  }

  /** Going along the curve backwards is going along its mirror image in z. */
  lemma {:induction false} Mirror3(k: nat, h: nat)
    requires h < Pow8(k)
    ensures CellOf3(k, Pow8(k) - 1 - h) == Mirrored3(CellOf3(k, h), Side(k))
  {
    hide CellOf3, Times, Mirrored3, Side, Pow8;
    if k == 0 {
      MirrorNone3(h);
    } else {
      var d, r := Digit3(k, h);
      Mirror3(k - 1, r);
      MirrorDigit3(k, d, r);
    }
  }

  lemma MirrorNone3(h: nat)
    requires h < Pow8(0)
    ensures CellOf3(0, Pow8(0) - 1 - h) == Mirrored3(CellOf3(0, h), Side(0))
  {
    CellOfNone3();
  }

  lemma Digit3(k: nat, h: nat) returns (d: nat, r: nat)
    requires k > 0 && h < Pow8(k)
    ensures d < 8 && r < Pow8(k - 1) && h == Times(d, Pow8(k - 1)) + r
    ensures Pow8(k) - 1 - h == Times(7 - d, Pow8(k - 1)) + (Pow8(k - 1) - 1 - r)
  {
    hide Times, Lead;
    var e := Pow8(k - 1);
    d := Lead(h, e);
    r := h - Times(d, e);
    TimesMirrored(d, e);
  }

  lemma MirrorDigit3(k: nat, d: nat, r: nat)
    requires k > 0 && d < 8 && r < Pow8(k - 1)
    requires CellOf3(k - 1, Pow8(k - 1) - 1 - r) == Mirrored3(CellOf3(k - 1, r), Side(k - 1))
    ensures Times(d, Pow8(k - 1)) + r < Pow8(k)
    ensures Times(7 - d, Pow8(k - 1)) + (Pow8(k - 1) - 1 - r) < Pow8(k)
    ensures CellOf3(k, Times(7 - d, Pow8(k - 1)) + (Pow8(k - 1) - 1 - r))
         == Mirrored3(CellOf3(k, Times(d, Pow8(k - 1)) + r), Side(k))
  {
    hide CellOf3, Place3, Times, Mirrored3, Pow8;
    CellOfDigit3(k, d, r);
    CellOfDigit3(k, 7 - d, Pow8(k - 1) - 1 - r);
    PlaceMirrored3(d, CellOf3(k - 1, r), Side(k - 1));
  }

  function Mirrored3(c: Cell3, m: nat): Cell3
    requires In3(c, m)
  {
    c.(z := m - 1 - c.z)
  }

  lemma TimesMirrored(d: nat, e: nat)
    requires d < 8
    ensures Times(7 - d, e) + Times(d, e) == 7 * e
    ensures d < 4 ==> Times(3 - d, e) + Times(d, e) == 3 * e
  {
  }

  lemma PlaceMirrored3(d: nat, t: Cell3, m: nat)
    requires d < 8 && In3(t, m)
    ensures Place3(7 - d, Mirrored3(t, m), m) == Mirrored3(Place3(d, t, m), 2 * m)
  {
  }

  // ----- two dimensions -----

  /** Cell j, along the curve, of quadrant d of the grid of depth 2. */
  function Visited2(d: nat, j: nat): Cell2
    requires d < 4 && j < 4
  {
    match d
    case 0 =>
      if j == 0 then Cell2(0, 0) else if j == 1 then Cell2(1, 0) else if j == 2 then Cell2(1, 1)
      else Cell2(0, 1)
    case 1 =>
      if j == 0 then Cell2(0, 2) else if j == 1 then Cell2(0, 3) else if j == 2 then Cell2(1, 3)
      else Cell2(1, 2)
    case 2 =>
      if j == 0 then Cell2(2, 2) else if j == 1 then Cell2(2, 3) else if j == 2 then Cell2(3, 3)
      else Cell2(3, 2)
    case _ =>
      if j == 0 then Cell2(3, 1) else if j == 1 then Cell2(2, 1) else if j == 2 then Cell2(2, 0)
      else Cell2(3, 0)
  }

  lemma SecondLevel2(d: nat, j: nat)
    requires d < 4 && j < 4
    ensures 4 * d + j < Pow4(2) && CellOf2(2, 4 * d + j) == Visited2(d, j)
  {
    hide Place2, CellOf2, Visited2;
    SmallPowers();
    CellOfDigit2(2, d, j);
    CellOfDigit2(1, j, 0);
    CellOfNone2();
    TimesSmall(d, j);
    hide Times;
    PlacedTwice2(d, j);
  }

  lemma CellOfNone2()
    ensures CellOf2(0, 0) == Cell2(0, 0)
  {
  }

  lemma PlacedTwice2(d: nat, j: nat)
    requires d < 4 && j < 4
    ensures Place2(d, Place2(j, Cell2(0, 0), 1), 2) == Visited2(d, j)
  {
    PlacedOnce2(j, Cell2(0, 0), 1);
    PlacedAt2(d, j, Place2(j, Cell2(0, 0), 1), 2);
  }

  lemma PlacedOnce2(j: nat, t: Cell2, m: nat)
    requires j < 4 && t == Cell2(0, 0) && m == 1
    ensures Place2(j, t, m) == Cell2(if j >= 2 then 1 else 0, if j == 1 || j == 2 then 1 else 0)
  {
  }

  lemma PlacedAt2(d: nat, j: nat, t: Cell2, m: nat)
    requires d < 4 && j < 4 && t == Cell2(if j >= 2 then 1 else 0, if j == 1 || j == 2 then 1 else 0) && m == 2
    ensures Place2(d, t, m) == Visited2(d, j)
  {
  }

  /** At every depth k >= 2 the curve visits the 16 cells of side 2^(k-2) in this order. */
  lemma VisitOrder2(k: nat, h: nat)
    requires k >= 2 && h < Pow4(k)
    ensures var q := Chop4(h, k - 2); q < 16 && HalfN2(CellOf2(k, h), k - 2) == Visited2(q / 4, q % 4)
  {
    hide CellOf2, Key2, HalfN2, Chop4, Visited2;
    SmallPowers();
    hide Pow4, Side;
    var c := CellOf2(k, h);
    KeyOfCell2(k, h);
    assert 2 + (k - 2) == k;
    Prefix2(2, k - 2, c);
    var q := Chop4(h, k - 2);
    CellOfKey2(2, HalfN2(c, k - 2));
    SecondLevel2(q / 4, q % 4);
  }

  /** Going along the curve backwards is going along its mirror image in x. */
  lemma {:induction false} Mirror2(k: nat, h: nat)
    requires h < Pow4(k)
    ensures CellOf2(k, Pow4(k) - 1 - h) == Mirrored2(CellOf2(k, h), Side(k))
  {
    hide CellOf2, Times, Mirrored2, Side, Pow4;
    if k == 0 {
      MirrorNone2(h);
    } else {
      var d, r := Digit2(k, h);
      Mirror2(k - 1, r);
      MirrorDigit2(k, d, r);
    }
  }

  lemma MirrorNone2(h: nat)
    requires h < Pow4(0)
    ensures CellOf2(0, Pow4(0) - 1 - h) == Mirrored2(CellOf2(0, h), Side(0))
  {
    CellOfNone2();
  }

  lemma Digit2(k: nat, h: nat) returns (d: nat, r: nat)
    requires k > 0 && h < Pow4(k)
    ensures d < 4 && r < Pow4(k - 1) && h == Times(d, Pow4(k - 1)) + r
    ensures Pow4(k) - 1 - h == Times(3 - d, Pow4(k - 1)) + (Pow4(k - 1) - 1 - r)
  {
    hide Times, Lead2;
    var e := Pow4(k - 1);
    d := Lead2(h, e);
    r := h - Times(d, e);
    TimesMirrored(d, e);
  }

  lemma MirrorDigit2(k: nat, d: nat, r: nat)
    requires k > 0 && d < 4 && r < Pow4(k - 1)
    requires CellOf2(k - 1, Pow4(k - 1) - 1 - r) == Mirrored2(CellOf2(k - 1, r), Side(k - 1))
    ensures Times(d, Pow4(k - 1)) + r < Pow4(k)
    ensures Times(3 - d, Pow4(k - 1)) + (Pow4(k - 1) - 1 - r) < Pow4(k)
    ensures CellOf2(k, Times(3 - d, Pow4(k - 1)) + (Pow4(k - 1) - 1 - r))
         == Mirrored2(CellOf2(k, Times(d, Pow4(k - 1)) + r), Side(k))
  {
    hide CellOf2, Place2, Times, Mirrored2, Pow4;
    CellOfDigit2(k, d, r);
    CellOfDigit2(k, 3 - d, Pow4(k - 1) - 1 - r);
    PlaceMirrored2(d, CellOf2(k - 1, r), Side(k - 1));
  }

  function Mirrored2(c: Cell2, m: nat): Cell2
    requires In2(c, m)
  {
    c.(x := m - 1 - c.x)
  }

  lemma PlaceMirrored2(d: nat, t: Cell2, m: nat)
    requires d < 4 && In2(t, m)
    ensures Place2(3 - d, Mirrored2(t, m), m) == Mirrored2(Place2(d, t, m), 2 * m)
  {
  }
}
