/** Hilbert curve keys of integer coordinates, at any depth k (the program uses k = 21). */
module Hilbert {

  /** Side length of the grid of depth k. */
  function Side(k: nat): (p: nat)
    ensures p > 0
  {
    if k == 0 then 1 else 2 * Side(k - 1)
  }

  function Pow8(k: nat): (p: nat)
    ensures p > 0
  {
    if k == 0 then 1 else 8 * Pow8(k - 1)
  }

  /** d * e for an octal digit d, written so that it stays linear. */
  function Times(d: nat, e: nat): nat
    requires d <= 8
  {
    if d == 0 then 0 else if d == 1 then e else if d == 2 then 2 * e else if d == 3 then 3 * e
    else if d == 4 then 4 * e else if d == 5 then 5 * e else if d == 6 then 6 * e else if d == 7 then 7 * e else 8 * e
  }

  lemma TimesEnds(e: nat)
    ensures Times(0, e) == 0 && Times(7, e) == 7 * e
  {
  }

  /** Dropping the last octal digit of a number keeps the leading one. */
  lemma TimesChop(d: nat, e: nat, r: nat)
    requires d < 8
    ensures (Times(d, 8 * e) + r) / 8 == Times(d, e) + r / 8
  {
  }

  lemma TimesIsProduct(d: nat, e: nat)
    requires d <= 8
    ensures Times(d, e) == d * e
  {
  }

  /** The leading octal digit of h < 8 * e, where e is a power of 8. */
  function Lead(h: nat, e: nat): (d: nat)
    requires h < 8 * e
    ensures d < 8 && Times(d, e) <= h < Times(d, e) + e
  {
    if h < e then 0 else if h < 2 * e then 1 else if h < 3 * e then 2 else if h < 4 * e then 3
    else if h < 5 * e then 4 else if h < 6 * e then 5 else if h < 7 * e then 6 else 7
  }

  lemma LeadOf(d: nat, r: nat, e: nat)
    requires d < 8 && r < e
    ensures Times(d, e) + r < 8 * e && Lead(Times(d, e) + r, e) == d
  {
  }

  lemma LeadNext(h: nat, e: nat)
    requires h + 1 < 8 * e
    ensures var d := Lead(h, e);
            if h + 1 < Times(d, e) + e then Lead(h + 1, e) == d
            else d < 7 && Lead(h + 1, e) == d + 1 && h + 1 == Times(d + 1, e)
  {
  }

  function Dist(a: nat, b: nat): nat {
    if a < b then b - a else a - b
  }

  lemma DistMoved(a: nat, b: nat, m: nat)
    ensures Dist(m + a, m + b) == Dist(a, b) && Dist(b, a) == Dist(a, b)
    ensures a < m && b < m ==> Dist(m - 1 - a, m - 1 - b) == Dist(a, b)
    ensures a < m && b < m ==> Dist(2 * m - 1 - a, 2 * m - 1 - b) == Dist(a, b)
  {
  }

  // ----- three dimensions -----

  datatype Cell3 = Cell3(x: nat, y: nat, z: nat)

  predicate In3(c: Cell3, m: nat) {
    c.x < m && c.y < m && c.z < m
  }

  function Manhattan3(a: Cell3, b: Cell3): nat {
    Dist(a.x, b.x) + Dist(a.y, b.y) + Dist(a.z, b.z)
  }

  /** The digit of an octant, from the top bit of each coordinate. */
  function Digit3(tx: bool, ty: bool, tz: bool): (d: nat)
    ensures d < 8
  {
    if tx then (if ty then (if tz then 5 else 2) else (if tz then 4 else 3))
    else (if ty then (if tz then 6 else 1) else (if tz then 7 else 0))
  }

  /** The frame change of octant d.  The coordinates are below m, the side of the octant, and
      m - 1 - c complements the bits of c. */
  function Turn3(d: nat, c: Cell3, m: nat): (t: Cell3)
    requires d < 8 && In3(c, m)
    ensures In3(t, m)
  {
    if d == 5 || d == 6 then Cell3(c.y, m - 1 - c.z, m - 1 - c.x)
    else if d == 1 || d == 2 then Cell3(c.y, c.z, c.x)
    else if d == 3 || d == 4 then Cell3(m - 1 - c.x, m - 1 - c.y, c.z)
    else if d == 7 then Cell3(m - 1 - c.z, c.x, m - 1 - c.y)
    else Cell3(c.z, c.x, c.y)
  }

  function Top3(c: Cell3, m: nat): (d: nat)
    ensures d < 8
  {
    Digit3(c.x >= m, c.y >= m, c.z >= m)
  }

  function Rest(v: nat, m: nat): nat {
    if v >= m then v - m else v
  }

  function Rest3(c: Cell3, m: nat): Cell3 {
    Cell3(Rest(c.x, m), Rest(c.y, m), Rest(c.z, m))
  }

  /** The coordinates of a cell in the sub-curve of its octant. */
  function Sub3(c: Cell3, m: nat): (t: Cell3)
    requires In3(c, 2 * m)
    ensures In3(t, m)
  {
    Turn3(Top3(c, m), Rest3(c, m), m)
  }

  /** The key of a cell of the grid of depth k: octant digits from the top bit down. */
  function Key3(k: nat, c: Cell3): nat
    requires In3(c, Side(k))
  {
    if k == 0 then 0
    else
      var m := Side(k - 1);
      Times(Top3(c, m), Pow8(k - 1)) + Key3(k - 1, Sub3(c, m))
  }

  /** The cell of octant d whose sub-curve coordinates are t. */
  function Place3(d: nat, t: Cell3, m: nat): (c: Cell3)
    requires d < 8 && In3(t, m)
    ensures In3(c, 2 * m)
  {
    if d == 0 then Cell3(t.y, t.z, t.x)
    else if d == 1 then Cell3(t.z, m + t.x, t.y)
    else if d == 2 then Cell3(m + t.z, m + t.x, t.y)
    else if d == 3 then Cell3(2 * m - 1 - t.x, m - 1 - t.y, t.z)
    else if d == 4 then Cell3(2 * m - 1 - t.x, m - 1 - t.y, m + t.z)
    else if d == 5 then Cell3(2 * m - 1 - t.z, m + t.x, 2 * m - 1 - t.y)
    else if d == 6 then Cell3(m - 1 - t.z, m + t.x, 2 * m - 1 - t.y)
    else Cell3(t.y, m - 1 - t.z, 2 * m - 1 - t.x)
  }

  /** The cell with key h: the inverse of Key3. */
  function CellOf3(k: nat, h: nat): (c: Cell3)
    requires h < Pow8(k)
    ensures In3(c, Side(k))
  {
    if k == 0 then Cell3(0, 0, 0)
    else
      var e := Pow8(k - 1);
      var d := Lead(h, e);
      Place3(d, CellOf3(k - 1, h - Times(d, e)), Side(k - 1))
  }

  /** Placing a cell in an octant and taking the octant and its frame back are inverse. */
  lemma PlaceTurn3(d: nat, t: Cell3, m: nat)
    requires d < 8 && In3(t, m)
    ensures Top3(Place3(d, t, m), m) == d
    ensures Sub3(Place3(d, t, m), m) == t
  {
  }

  lemma TurnPlace3(c: Cell3, m: nat)
    requires In3(c, 2 * m)
    ensures Place3(Top3(c, m), Sub3(c, m), m) == c
  {
  }

  lemma CellOfDigit3(k: nat, d: nat, r: nat)
    requires k > 0 && d < 8 && r < Pow8(k - 1)
    ensures Times(d, Pow8(k - 1)) + r < Pow8(k)
    ensures CellOf3(k, Times(d, Pow8(k - 1)) + r) == Place3(d, CellOf3(k - 1, r), Side(k - 1))
  {
    hide Times, Lead, Place3;
    LeadOf(d, r, Pow8(k - 1));
  }

  lemma {:induction false} CellOfKey3(k: nat, c: Cell3)
    requires In3(c, Side(k))
    ensures Key3(k, c) < Pow8(k) && CellOf3(k, Key3(k, c)) == c
  {
    hide Times, Lead, Sub3, Place3, Top3, CellOf3;
    if k > 0 {
      var m := Side(k - 1);
      var d, t := Top3(c, m), Sub3(c, m);
      CellOfKey3(k - 1, t);
      CellOfDigit3(k, d, Key3(k - 1, t));
      TurnPlace3(c, m);
    } else {
      assert CellOf3(0, 0) == Cell3(0, 0, 0) by { CurveEnds3(0); }
    }
  }

  lemma {:induction false} KeyOfCell3(k: nat, h: nat)
    requires h < Pow8(k)
    ensures Key3(k, CellOf3(k, h)) == h
  {
    hide Times, Lead, Sub3, Turn3, Place3, Top3, Rest3, Manhattan3;
    if k > 0 {
      var e := Pow8(k - 1);
      var d := Lead(h, e);
      assert In3(CellOf3(k, h), Side(k));
      KeyOfCell3(k - 1, h - Times(d, e));
      PlaceTurn3(d, CellOf3(k - 1, h - Times(d, e)), Side(k - 1));
    }
  }

  lemma PlacedEnds3(m: nat)
    requires m > 0
    ensures Place3(0, Cell3(0, 0, 0), m) == Cell3(0, 0, 0)
    ensures Place3(7, Cell3(0, 0, m - 1), m) == Cell3(0, 0, 2 * m - 1)
  {
  }

  /** The curve starts in one corner and ends in a neighbouring corner. */
  lemma {:induction false} CurveEnds3(k: nat)
    ensures CellOf3(k, 0) == Cell3(0, 0, 0)
    ensures CellOf3(k, Pow8(k) - 1) == Cell3(0, 0, Side(k) - 1)
  {
    if k > 0 {
      hide Times, Lead, CellOf3, Place3;
      var e := Pow8(k - 1);
      CurveEnds3(k - 1);
      PlacedEnds3(Side(k - 1));
      CellOfDigit3(k, 0, 0);
      CellOfDigit3(k, 7, e - 1);
      TimesEnds(e);
    }
  }

  lemma PlaceKeepsDistance3(d: nat, s: Cell3, t: Cell3, m: nat)
    requires d < 8 && In3(s, m) && In3(t, m)
    ensures Manhattan3(Place3(d, s, m), Place3(d, t, m)) == Manhattan3(s, t)
  {
    DistMoved(s.x, t.x, m);
    DistMoved(s.y, t.y, m);
    DistMoved(s.z, t.z, m);
    hide Dist;
  }

  /** The end of one octant touches the start of the next. */
  lemma OctantsConnect3(d: nat, m: nat)
    requires d < 7 && m > 0
    ensures Manhattan3(Place3(d, Cell3(0, 0, m - 1), m), Place3(d + 1, Cell3(0, 0, 0), m)) == 1
  {
  }

  /** Consecutive keys belong to cells that share a face. */
  lemma {:induction false} Adjacent3(k: nat, h: nat)
    requires h + 1 < Pow8(k)
    ensures Manhattan3(CellOf3(k, h), CellOf3(k, h + 1)) == 1
  {
    hide Times, Lead, Sub3, Turn3, Place3, Top3, Rest3, Manhattan3;
    if k > 0 {
      var e, m := Pow8(k - 1), Side(k - 1);
      var d := Lead(h, e);
      var r := h - Times(d, e);
      LeadNext(h, e);
      if r + 1 < e {
        Adjacent3(k - 1, r);
        PlaceKeepsDistance3(d, CellOf3(k - 1, r), CellOf3(k - 1, r + 1), m);
      } else {
        CurveEnds3(k - 1);
        OctantsConnect3(d, m);
      }
    }
  }

  function Half3(c: Cell3): Cell3 {
    Cell3(c.x / 2, c.y / 2, c.z / 2)
  }

  lemma TurnHalves3(d: nat, c: Cell3, m: nat)
    requires d < 8 && In3(c, 2 * m)
    ensures In3(Half3(c), m)
    ensures Half3(Turn3(d, c, 2 * m)) == Turn3(d, Half3(c), m)
  {
  }

  lemma SubHalves3(c: Cell3, m: nat)
    requires In3(c, 4 * m)
    ensures In3(Half3(c), 2 * m) && Top3(c, 2 * m) == Top3(Half3(c), m)
    ensures Half3(Sub3(c, 2 * m)) == Sub3(Half3(c), m)
  {
    assert Half3(Rest3(c, 2 * m)) == Rest3(Half3(c), m);
    TurnHalves3(Top3(c, 2 * m), Rest3(c, 2 * m), m);
    hide Turn3;
  }

  /** Dropping the last bit of every coordinate drops the last octal digit of the key. */
  lemma {:induction false} PrefixStep3(k: nat, c: Cell3)
    requires In3(c, Side(k + 1))
    ensures Key3(k + 1, c) / 8 == Key3(k, Half3(c))
  {
    hide Top3, Sub3, Half3, Times;
    if k > 0 {
      var m := Side(k - 1);
      SubHalves3(c, m);
      PrefixStep3(k - 1, Sub3(c, 2 * m));
      TimesChop(Top3(c, 2 * m), Pow8(k - 1), Key3(k, Sub3(c, 2 * m)));
    } else {
      TimesOne(Top3(c, 1));
    }
  }

  lemma TimesOne(d: nat)
    requires d < 8
    ensures Times(d, 1) == d
  {
  }

  function HalfN3(c: Cell3, j: nat): Cell3
    decreases j
  {
    if j == 0 then c else HalfN3(Half3(c), j - 1)
  }

  /** The leading digits of a number in base 8: all but the last j. */
  function Chop8(h: nat, j: nat): nat {
    if j == 0 then h else Chop8(h / 8, j - 1)
  }

  lemma HalfInside3(c: Cell3, m: nat)
    requires In3(c, 2 * m)
    ensures In3(Half3(c), m)
  {
  }

  /** The leading k digits of a key depend only on the leading k bits of the coordinates. */
  lemma {:induction false} Prefix3(k: nat, j: nat, c: Cell3)
    requires In3(c, Side(k + j))
    ensures In3(HalfN3(c, j), Side(k))
    ensures Chop8(Key3(k + j, c), j) == Key3(k, HalfN3(c, j))
  {
    if j > 0 {
      hide Key3, Half3;
      assert k + j == (k + j - 1) + 1;
      HalfInside3(c, Side(k + j - 1));
      PrefixStep3(k + j - 1, c);
      Prefix3(k, j - 1, Half3(c));
    }
  }

  // ----- the loop over the bits -----

  /** A machine word; bit i has weight 2^i. */
  type Word = seq<bool>

  function Not(u: Word): (v: Word)
    ensures |v| == |u| && forall i | 0 <= i < |u| :: v[i] == !u[i]
  {
    seq(|u|, i requires 0 <= i < |u| => !u[i])
  }

  /** The value of the lowest j bits. */
  function Low(u: Word, j: nat): (v: nat)
    requires j <= |u|
    ensures v < Side(j)
  {
    if j == 0 then 0 else Low(u, j - 1) + (if u[j - 1] then Side(j - 1) else 0)
  }

  lemma {:induction false} LowOfNot(u: Word, j: nat)
    requires j <= |u|
    ensures Low(Not(u), j) == Side(j) - 1 - Low(u, j)
  {
    if j > 0 { LowOfNot(u, j - 1); }
  }

  lemma LowSplit(u: Word, m: nat)
    requires m < |u|
    ensures u[m] <==> Low(u, m + 1) >= Side(m)
    ensures Rest(Low(u, m + 1), Side(m)) == Low(u, m)
  {
  }

  function LowCell3(x: Word, y: Word, z: Word, j: nat): (c: Cell3)
    requires j <= |x| && j <= |y| && j <= |z|
    ensures In3(c, Side(j))
  {
    Cell3(Low(x, j), Low(y, j), Low(z, j))
  }

  /** The key computed with the digits found so far in s. */
  function KeyFrom3(s: nat, j: nat, c: Cell3): nat
    requires In3(c, Side(j))
    decreases j
  {
    if j == 0 then s else KeyFrom3(8 * s + Top3(c, Side(j - 1)), j - 1, Sub3(c, Side(j - 1)))
  }

  lemma Distribute(s: nat, d: nat, p: nat, b: nat)
    ensures (b * s + d) * p == s * (b * p) + d * p
  {
    assert (b * s) * p == s * (b * p);
  }

  lemma {:induction false} KeyFromIsKey3(s: nat, j: nat, c: Cell3)
    requires In3(c, Side(j))
    ensures KeyFrom3(s, j, c) == s * Pow8(j) + Key3(j, c)
    decreases j
  {
    if j > 0 {
      hide Times, Top3, Sub3;
      var d, m, p := Top3(c, Side(j - 1)), Side(j - 1), Pow8(j - 1);
      KeyFromIsKey3(8 * s + d, j - 1, Sub3(c, m));
      Distribute(s, d, p, 8);
      TimesIsProduct(d, p);
    }
  }

  /** One level of hilbert3d: the digit of bit m, and whole words swapped and complemented, of which
      only the bits below m still matter. */
  method Level3d(m: nat, x: Word, y: Word, z: Word) returns (ux: Word, uy: Word, uz: Word, digit: nat)
    requires m < |x| && m < |y| && m < |z|
    ensures |ux| > m && |uy| > m && |uz| > m
    ensures digit == Top3(LowCell3(x, y, z, m + 1), Side(m))
    ensures LowCell3(ux, uy, uz, m) == Sub3(LowCell3(x, y, z, m + 1), Side(m))
  {
    hide Low, Side, Rest, Not;
    LowSplit(x, m);
    LowSplit(y, m);
    LowSplit(z, m);
    LowOfNot(x, m);
    LowOfNot(y, m);
    LowOfNot(z, m);
    ux, uy, uz, digit := x, y, z, 0;
    if ux[m] {
      if uy[m] {
        if uz[m] {
          ux, uy, uz := uy, Not(uz), Not(ux);
          digit := 5;
        } else {
          ux, uy, uz := uy, uz, ux;
          digit := 2;
        }
      } else {
        digit := if uz[m] then 4 else 3;
        ux, uy := Not(ux), Not(uy);
      }
    } else {
      if uy[m] {
        if uz[m] {
          ux, uy, uz := uy, Not(uz), Not(ux);
          digit := 6;
        } else {
          ux, uy, uz := uy, uz, ux;
          digit := 1;
        }
      } else {
        if uz[m] {
          ux, uy, uz := Not(uz), ux, Not(uy);
          digit := 7;
        } else {
          ux, uy, uz := uz, ux, uy;
        }
      }
    }
  }

  /** hilbert3d: the key of the lowest k bits of the coordinates. */
  method Hilbert3d(k: nat, x: Word, y: Word, z: Word) returns (s: nat)
    requires k <= |x| && k <= |y| && k <= |z|
    ensures s == Key3(k, LowCell3(x, y, z, k))
  {
    hide Top3, Sub3, LowCell3;
    s := 0;
    var ux, uy, uz := x, y, z;
    var m: nat := k;
    while m > 0
      invariant m <= k && m <= |ux| && m <= |uy| && m <= |uz|
      invariant KeyFrom3(s, m, LowCell3(ux, uy, uz, m)) == KeyFrom3(0, k, LowCell3(x, y, z, k))
    {
      m := m - 1;
      var digit;
      ux, uy, uz, digit := Level3d(m, ux, uy, uz);
      s := 8 * s + digit;
    }
    KeyFromIsKey3(0, k, LowCell3(x, y, z, k));
  }

  // ----- two dimensions -----

  datatype Cell2 = Cell2(x: nat, y: nat)

  predicate In2(c: Cell2, m: nat) {
    c.x < m && c.y < m
  }

  function Manhattan2(a: Cell2, b: Cell2): nat {
    Dist(a.x, b.x) + Dist(a.y, b.y)
  }

  function Pow4(k: nat): (p: nat)
    ensures p > 0
  {
    if k == 0 then 1 else 4 * Pow4(k - 1)
  }

  /** The leading base-4 digit of h < 4 * e. */
  function Lead2(h: nat, e: nat): (d: nat)
    requires h < 4 * e
    ensures d < 4 && Times(d, e) <= h < Times(d, e) + e
  {
    if h < e then 0 else if h < 2 * e then 1 else if h < 3 * e then 2 else 3
  }

  function Top2(c: Cell2, m: nat): (d: nat)
    ensures d < 4
  {
    if c.x >= m then (if c.y >= m then 2 else 3) else (if c.y >= m then 1 else 0)
  }

  /** The coordinates of a cell in the sub-curve of its quadrant. */
  function Sub2(c: Cell2, m: nat): (t: Cell2)
    requires In2(c, 2 * m)
    ensures In2(t, m)
  {
    var x, y := Rest(c.x, m), Rest(c.y, m);
    if Top2(c, m) == 3 then Cell2(m - 1 - y, m - 1 - x) else if Top2(c, m) == 0 then Cell2(y, x) else Cell2(x, y)
  }

  function Key2(k: nat, c: Cell2): nat
    requires In2(c, Side(k))
  {
    if k == 0 then 0
    else
      var m := Side(k - 1);
      Times(Top2(c, m), Pow4(k - 1)) + Key2(k - 1, Sub2(c, m))
  }

  function Place2(d: nat, t: Cell2, m: nat): (c: Cell2)
    requires d < 4 && In2(t, m)
    ensures In2(c, 2 * m)
  {
    if d == 0 then Cell2(t.y, t.x)
    else if d == 1 then Cell2(t.x, m + t.y)
    else if d == 2 then Cell2(m + t.x, m + t.y)
    else Cell2(2 * m - 1 - t.y, m - 1 - t.x)
  }

  function CellOf2(k: nat, h: nat): (c: Cell2)
    requires h < Pow4(k)
    ensures In2(c, Side(k))
  {
    if k == 0 then Cell2(0, 0)
    else
      var e := Pow4(k - 1);
      var d := Lead2(h, e);
      Place2(d, CellOf2(k - 1, h - Times(d, e)), Side(k - 1))
  }

  lemma PlaceTurn2(d: nat, t: Cell2, m: nat)
    requires d < 4 && In2(t, m)
    ensures Top2(Place2(d, t, m), m) == d && Sub2(Place2(d, t, m), m) == t
  {
  }

  lemma TurnPlace2(c: Cell2, m: nat)
    requires In2(c, 2 * m)
    ensures Place2(Top2(c, m), Sub2(c, m), m) == c
  {
  }

  lemma CellOfDigit2(k: nat, d: nat, r: nat)
    requires k > 0 && d < 4 && r < Pow4(k - 1)
    ensures Times(d, Pow4(k - 1)) + r < Pow4(k)
    ensures CellOf2(k, Times(d, Pow4(k - 1)) + r) == Place2(d, CellOf2(k - 1, r), Side(k - 1))
  {
    hide Place2;
    assert Lead2(Times(d, Pow4(k - 1)) + r, Pow4(k - 1)) == d;
  }

  lemma {:induction false} CellOfKey2(k: nat, c: Cell2)
    requires In2(c, Side(k))
    ensures Key2(k, c) < Pow4(k) && CellOf2(k, Key2(k, c)) == c
  {
    hide Times, Lead2, Sub2, Place2, Top2, CellOf2;
    if k > 0 {
      var m := Side(k - 1);
      var d, t := Top2(c, m), Sub2(c, m);
      CellOfKey2(k - 1, t);
      CellOfDigit2(k, d, Key2(k - 1, t));
      TurnPlace2(c, m);
    } else {
      assert CellOf2(0, 0) == Cell2(0, 0) by { CurveEnds2(0); }
    }
  }

  lemma {:induction false} KeyOfCell2(k: nat, h: nat)
    requires h < Pow4(k)
    ensures Key2(k, CellOf2(k, h)) == h
  {
    hide Times, Lead2, Sub2, Place2, Top2;
    if k > 0 {
      var m, e := Side(k - 1), Pow4(k - 1);
      var d := Lead2(h, e);
      assert In2(CellOf2(k, h), Side(k));
      KeyOfCell2(k - 1, h - Times(d, e));
      PlaceTurn2(d, CellOf2(k - 1, h - Times(d, e)), m);
    }
  }

  lemma {:induction false} CurveEnds2(k: nat)
    ensures CellOf2(k, 0) == Cell2(0, 0)
    ensures CellOf2(k, Pow4(k) - 1) == Cell2(Side(k) - 1, 0)
  {
    if k > 0 { CurveEnds2(k - 1); }
  }

  lemma PlaceKeepsDistance2(d: nat, s: Cell2, t: Cell2, m: nat)
    requires d < 4 && In2(s, m) && In2(t, m)
    ensures Manhattan2(Place2(d, s, m), Place2(d, t, m)) == Manhattan2(s, t)
  {
    DistMoved(s.x, t.x, m);
    DistMoved(s.y, t.y, m);
    hide Dist;
  }

  lemma LeadNext2(h: nat, e: nat)
    requires h + 1 < 4 * e
    ensures var d := Lead2(h, e);
            if h + 1 < Times(d, e) + e then Lead2(h + 1, e) == d
            else d < 3 && Lead2(h + 1, e) == d + 1 && h + 1 == Times(d + 1, e)
  {
  }

  lemma {:induction false} Adjacent2(k: nat, h: nat)
    requires h + 1 < Pow4(k)
    ensures Manhattan2(CellOf2(k, h), CellOf2(k, h + 1)) == 1
  {
    hide Times, Lead2, Manhattan2, Place2;
    if k > 0 {
      var e, m := Pow4(k - 1), Side(k - 1);
      var d := Lead2(h, e);
      var r := h - Times(d, e);
      LeadNext2(h, e);
      if r + 1 < e {
        Adjacent2(k - 1, r);
        PlaceKeepsDistance2(d, CellOf2(k - 1, r), CellOf2(k - 1, r + 1), m);
      } else {
        CurveEnds2(k - 1);
        QuadrantsConnect2(d, m);
      }
    }
  }

  lemma QuadrantsConnect2(d: nat, m: nat)
    requires d < 3 && m > 0
    ensures Manhattan2(Place2(d, Cell2(m - 1, 0), m), Place2(d + 1, Cell2(0, 0), m)) == 1
  {
  }

  function Half2(c: Cell2): Cell2 {
    Cell2(c.x / 2, c.y / 2)
  }

  lemma SubHalves2(c: Cell2, m: nat)
    requires In2(c, 4 * m)
    ensures In2(Half2(c), 2 * m) && Top2(c, 2 * m) == Top2(Half2(c), m)
    ensures Half2(Sub2(c, 2 * m)) == Sub2(Half2(c), m)
  {
  }

  /** Dropping the last base-4 digit of a number keeps the leading one. */
  lemma TimesChop4(d: nat, e: nat, r: nat)
    requires d < 4
    ensures (Times(d, 4 * e) + r) / 4 == Times(d, e) + r / 4
  {
  }

  /** Dropping the last bit of both coordinates drops the last base-4 digit of the key. */
  lemma {:induction false} PrefixStep2(k: nat, c: Cell2)
    requires In2(c, Side(k + 1))
    ensures Key2(k + 1, c) / 4 == Key2(k, Half2(c))
  {
    hide Top2, Sub2, Half2, Times;
    if k > 0 {
      var m := Side(k - 1);
      SubHalves2(c, m);
      PrefixStep2(k - 1, Sub2(c, 2 * m));
      TimesChop4(Top2(c, 2 * m), Pow4(k - 1), Key2(k, Sub2(c, 2 * m)));
    } else {
      TimesOne(Top2(c, 1));
    }
  }

  function HalfN2(c: Cell2, j: nat): Cell2
    decreases j
  {
    if j == 0 then c else HalfN2(Half2(c), j - 1)
  }

  /** All digits of a number in base 4 but the last j. */
  function Chop4(h: nat, j: nat): nat {
    if j == 0 then h else Chop4(h / 4, j - 1)
  }

  /** The leading k digits of a key depend only on the leading k bits of the coordinates. */
  lemma {:induction false} Prefix2(k: nat, j: nat, c: Cell2)
    requires In2(c, Side(k + j))
    ensures In2(HalfN2(c, j), Side(k))
    ensures Chop4(Key2(k + j, c), j) == Key2(k, HalfN2(c, j))
  {
    if j > 0 {
      assert k + j == (k + j - 1) + 1;
      PrefixStep2(k + j - 1, c);
      Prefix2(k, j - 1, Half2(c));
    }
  }

  function LowCell2(x: Word, y: Word, j: nat): (c: Cell2)
    requires j <= |x| && j <= |y|
    ensures In2(c, Side(j))
  {
    Cell2(Low(x, j), Low(y, j))
  }

  function KeyFrom2(s: nat, j: nat, c: Cell2): nat
    requires In2(c, Side(j))
    decreases j
  {
    if j == 0 then s else KeyFrom2(4 * s + Top2(c, Side(j - 1)), j - 1, Sub2(c, Side(j - 1)))
  }

  lemma {:induction false} KeyFromIsKey2(s: nat, j: nat, c: Cell2)
    requires In2(c, Side(j))
    ensures KeyFrom2(s, j, c) == s * Pow4(j) + Key2(j, c)
    decreases j
  {
    if j > 0 {
      var d, m, p := Top2(c, Side(j - 1)), Side(j - 1), Pow4(j - 1);
      KeyFromIsKey2(4 * s + d, j - 1, Sub2(c, m));
      Distribute(s, d, p, 4);
      TimesIsProduct(d, p);
    }
  }

  method Level2d(m: nat, x: Word, y: Word) returns (ux: Word, uy: Word, digit: nat)
    requires m < |x| && m < |y|
    ensures |ux| > m && |uy| > m
    ensures digit == Top2(LowCell2(x, y, m + 1), Side(m))
    ensures LowCell2(ux, uy, m) == Sub2(LowCell2(x, y, m + 1), Side(m))
  {
    hide Low, Side, Rest, Not;
    LowSplit(x, m);
    LowSplit(y, m);
    LowOfNot(x, m);
    LowOfNot(y, m);
    ux, uy, digit := x, y, 0;
    if ux[m] {
      if uy[m] {
        digit := 2;
      } else {
        ux, uy := Not(uy), Not(ux);
        digit := 3;
      }
    } else {
      if uy[m] {
        digit := 1;
      } else {
        ux, uy := uy, ux;
      }
    }
  }

  /** hilbert2d: the key of the lowest k bits of the coordinates. */
  method Hilbert2d(k: nat, x: Word, y: Word) returns (s: nat)
    requires k <= |x| && k <= |y|
    ensures s == Key2(k, LowCell2(x, y, k))
  {
    hide Top2, Sub2, LowCell2;
    s := 0;
    var ux, uy := x, y;
    var m: nat := k;
    while m > 0
      invariant m <= k && m <= |ux| && m <= |uy|
      invariant KeyFrom2(s, m, LowCell2(ux, uy, m)) == KeyFrom2(0, k, LowCell2(x, y, k))
    {
      m := m - 1;
      var digit;
      ux, uy, digit := Level2d(m, ux, uy);
      s := 4 * s + digit;
    }
    KeyFromIsKey2(0, k, LowCell2(x, y, k));
  }
}
