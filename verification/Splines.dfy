/** What the assignment weights mean: they are the centred cardinal splines, and a cell of the periodic grid gets
    from each particle its mass times the splines at its images. */
module Splines {
  import opened AssignMass

  /** The centred cardinal spline of order n, by the recurrence of Cox and de Boor. */
  function Spline(n: nat, s: real): real
    requires n >= 1
  {
    if n == 1 then (if -0.5 < s <= 0.5 then 1.0 else 0.0)
    else
      var half := n as real / 2.0;
      (Mul(half + s, Spline(n - 1, s + 0.5)) + Mul(half - s, Spline(n - 1, s - 0.5))) / (n - 1) as real
  }

  lemma Recurrence(n: nat, s: real)
    requires n >= 2
    ensures var half := n as real / 2.0;
            Spline(n, s) == (Mul(half + s, Spline(n - 1, s + 0.5))
                             + Mul(half - s, Spline(n - 1, s - 0.5))) / (n - 1) as real
  {
  }

  lemma Spline2(s: real)
    ensures Spline(2, s) == if -1.0 < s <= 0.0 then 1.0 + s else if 0.0 < s <= 1.0 then 1.0 - s else 0.0
  {
    Recurrence(2, s);
    var u, v := Spline(1, s + 0.5), Spline(1, s - 0.5);
    hide Spline;
    assert u == 0.0 ==> (1.0 + s) * u == 0.0;
    assert v == 0.0 ==> (1.0 - s) * v == 0.0;
  }

  lemma Spline3(s: real)
    ensures Spline(3, s) == if -0.5 < s <= 0.5 then TscK0(s)
                            else if -1.5 < s <= -0.5 then TscK1(1.5 + s)
                            else if 0.5 < s <= 1.5 then TscK1(1.5 - s)
                            else 0.0
  {
    hide Spline;
    Recurrence(3, s);
    Spline2(s + 0.5);
    Spline2(s - 0.5);
    Combined3(s, Spline(2, s + 0.5), Spline(2, s - 0.5));
  }

  lemma Combined3(s: real, u: real, v: real)
    requires u == if -1.5 < s <= -0.5 then 1.5 + s else if -0.5 < s <= 0.5 then 0.5 - s else 0.0
    requires v == if -0.5 < s <= 0.5 then 0.5 + s else if 0.5 < s <= 1.5 then 1.5 - s else 0.0
    ensures ((1.5 + s) * u + (1.5 - s) * v) / 2.0
         == if -0.5 < s <= 0.5 then TscK0(s)
            else if -1.5 < s <= -0.5 then TscK1(1.5 + s)
            else if 0.5 < s <= 1.5 then TscK1(1.5 - s)
            else 0.0
  {
    if -0.5 < s <= 0.5 {
      assert (1.5 + s) * (0.5 - s) == 0.75 - s - s * s && (1.5 - s) * (0.5 + s) == 0.75 + s - s * s;
    } else {
      HalfSquare(1.5 + s);
      HalfSquare(1.5 - s);
      hide TscK1;
      assert u == 0.0 ==> (1.5 + s) * u == 0.0;
      assert v == 0.0 ==> (1.5 - s) * v == 0.0;
    }
  }

  lemma Spline4(s: real)
    ensures Spline(4, s) == if -2.0 < s <= -1.0 then PcsK1(-s)
                            else if -1.0 < s <= 0.0 then PcsK0(-s)
                            else if 0.0 < s <= 1.0 then PcsK0(s)
                            else if 1.0 < s <= 2.0 then PcsK1(s)
                            else 0.0
  {
    hide Spline, TscK0, TscK1, PcsK0, PcsK1;
    Recurrence(4, s);
    Spline3(s + 0.5);
    Spline3(s - 0.5);
    assert 1.5 + (s + 0.5) == 2.0 + s && 1.5 - (s + 0.5) == 1.0 - s && 1.5 + (s - 0.5) == 1.0 + s;
    assert 1.5 - (s - 0.5) == 2.0 - s;
    Combined4(s, Spline(3, s + 0.5), Spline(3, s - 0.5));
  }

  lemma Combined4(s: real, u: real, v: real)
    requires u == if -1.0 < s <= 0.0 then TscK0(s + 0.5)
                  else if -2.0 < s <= -1.0 then TscK1(2.0 + s)
                  else if 0.0 < s <= 1.0 then TscK1(1.0 - s)
                  else 0.0
    requires v == if 0.0 < s <= 1.0 then TscK0(s - 0.5)
                  else if -1.0 < s <= 0.0 then TscK1(1.0 + s)
                  else if 1.0 < s <= 2.0 then TscK1(2.0 - s)
                  else 0.0
    ensures ((2.0 + s) * u + (2.0 - s) * v) / 3.0
         == if -2.0 < s <= -1.0 then PcsK1(-s)
            else if -1.0 < s <= 0.0 then PcsK0(-s)
            else if 0.0 < s <= 1.0 then PcsK0(s)
            else if 1.0 < s <= 2.0 then PcsK1(s)
            else 0.0
  {
    Parts4(s, u, v);
    Mirrored(s);
    hide TscK0, TscK1, PcsK0, PcsK1;
    if 0.0 < s {
      Cubes(s);
      assert 1.5 - (s + 0.5) == 1.0 - s && 1.5 - (s - 0.5) == 2.0 - s;
    } else {
      var x := -s;
      Cubes(x);
      assert 1.5 - (x + 0.5) == 1.0 + s && 1.5 - (x - 0.5) == 2.0 + s && x - 0.5 == -s - 0.5;
    }
  }

  lemma Parts4(s: real, u: real, v: real)
    ensures u == 0.0 ==> ((2.0 + s) * u + (2.0 - s) * v) / 3.0 == ((2.0 - s) * v) / 3.0
    ensures v == 0.0 ==> ((2.0 + s) * u + (2.0 - s) * v) / 3.0 == ((2.0 + s) * u) / 3.0
    ensures u == 0.0 && v == 0.0 ==> ((2.0 + s) * u + (2.0 - s) * v) / 3.0 == 0.0
  {
  }

  lemma Mirrored(s: real)
    ensures TscK0(-s - 0.5) == TscK0(s + 0.5)
  {
  }

  /** The polynomials behind the order 4 weights, for a distance s at or above 0. */
  lemma Cubes(s: real)
    ensures ((2.0 - s) * TscK1(1.5 - (s - 0.5))) / 3.0 == PcsK1(s)
    ensures ((2.0 + s) * TscK1(1.5 - (s + 0.5)) + (2.0 - s) * TscK0(s - 0.5)) / 3.0 == PcsK0(s)
  {
    var a, b := s * s, s * s * s;
    var y, z := 2.0 - s, 1.0 - s;
    assert y * y == 4.0 - 4.0 * s + a && z * z == 1.0 - 2.0 * s + a;
    CubeOf(y, 4.0 - 4.0 * s + a);
    assert y * (4.0 - 4.0 * s + a) == 8.0 - 12.0 * s + 6.0 * a - b;
    HalfSquare(y);
    HalfSquare(z);
    assert (s - 0.5) * (s - 0.5) == a - s + 0.25;
    assert (2.0 + s) * (1.0 - 2.0 * s + a) == 2.0 - 3.0 * s + b;
    assert y * (0.5 + s - a) == 1.0 + 1.5 * s - 3.0 * a + b;
    assert 6.0 * s * s == 6.0 * a && 3.0 * s * s * s == 3.0 * b;
    CombineCubes(s, y, z, a, b);
  }

  lemma CombineCubes(s: real, y: real, z: real, a: real, b: real)
    requires y == 2.0 - s && z == 1.0 - s
    requires TscK1(y) == 0.5 * (4.0 - 4.0 * s + a) && TscK1(z) == 0.5 * (1.0 - 2.0 * s + a)
    requires TscK0(s - 0.5) == 0.5 + s - a
    requires y * (4.0 - 4.0 * s + a) == 8.0 - 12.0 * s + 6.0 * a - b && Pow3(y) == 8.0 - 12.0 * s + 6.0 * a - b
    requires (2.0 + s) * (1.0 - 2.0 * s + a) == 2.0 - 3.0 * s + b && y * (0.5 + s - a) == 1.0 + 1.5 * s - 3.0 * a + b
    requires PcsK0(s) == 1.0 / 6.0 * (4.0 - 6.0 * a + 3.0 * b)
    ensures ((2.0 - s) * TscK1(1.5 - (s - 0.5))) / 3.0 == PcsK1(s)
    ensures ((2.0 + s) * TscK1(1.5 - (s + 0.5)) + (2.0 - s) * TscK0(s - 0.5)) / 3.0 == PcsK0(s)
  {
    hide TscK0, TscK1, PcsK0;
    assert 1.5 - (s - 0.5) == y && 1.5 - (s + 0.5) == z;
    HalfOut(y, 4.0 - 4.0 * s + a);
    HalfOut(2.0 + s, 1.0 - 2.0 * s + a);
  }

  lemma HalfOut(x: real, y: real)
    ensures x * (0.5 * y) == 0.5 * (x * y)
  {
  }

  lemma CubeOf(y: real, square: real)
    requires y * y == square
    ensures Pow3(y) == y * square
  {
  }

  /** The weight of cell c, if it is one of the cells used. */
  function WeightAt(w: Weights, c: int): real {
    if 0 <= c - w.i < |w.H| then w.H[c - w.i] else 0.0
  }

  /** Every cell, whether used or not, has the value of the spline at the distance of its centre. */
  lemma WeightsAreSplines(order: nat, r: real, c: int)
    requires 1 <= order <= 4
    ensures WeightAt(WeightsOf(order, r), c) == Spline(order, c as real + 0.5 - r)
  {
    var w := WeightsOf(order, r);
    var s, k := c as real + 0.5 - r, c - w.i;
    if order == 2 {
      Spline2(s);
    } else if order == 3 {
      Spline3(s);
      Offsets3(r - w.i as real - 1.5, s, k);
    } else if order == 4 {
      Spline4(s);
      Offsets4(r - (w.i as real + 0.5), s, k);
    }
  }

  lemma Offsets3(h: real, s: real, k: int)
    requires -0.5 <= h < 0.5 && s == (k - 1) as real - h
    ensures k == 0 ==> -1.5 < s <= -0.5 && TscK1(1.5 + s) == TscK1(0.5 - h)
    ensures k == 1 ==> -0.5 < s <= 0.5 && TscK0(s) == TscK0(h)
    ensures k == 2 ==> 0.5 < s <= 1.5 && TscK1(1.5 - s) == TscK1(0.5 + h)
    ensures k < 0 || k > 2 ==> s <= -1.5 || s > 1.5
  {
    assert k == 1 ==> s * s == h * h;
  }

  lemma Offsets4(h: real, s: real, k: int)
    requires 1.0 <= h < 2.0 && s == k as real - h
    ensures k == 0 ==> -2.0 < s <= -1.0 && PcsK1(-s) == PcsK1(h)
    ensures k == 1 ==> -1.0 < s <= 0.0 && PcsK0(-s) == PcsK0(h - 1.0)
    ensures k == 2 ==> 0.0 < s <= 1.0 && PcsK0(s) == PcsK0(2.0 - h)
    ensures k == 3 ==> 1.0 < s <= 2.0 && PcsK1(s) == PcsK1(3.0 - h)
    ensures k < 0 || k > 3 ==> s <= -2.0 || s > 2.0
  {
    hide PcsK0, PcsK1;
    assert k == 0 ==> -s == h;
    assert k == 1 ==> -s == h - 1.0;
    assert k == 2 ==> s == 2.0 - h;
    assert k == 3 ==> s == 3.0 - h;
  }

  // ----- central moments -----

  /** The weighted mean of the j-th powers of the distances of the cell centres from r. */
  function MomentTo(w: Weights, r: real, j: nat, n: nat): real
    requires n <= |w.H|
  {
    if n == 0 then 0.0 else MomentTo(w, r, j, n - 1) + Mul(w.H[n - 1], Power((w.i + n - 1) as real + 0.5 - r, j))
  }

  function Power(x: real, j: nat): real {
    if j == 0 then 1.0 else x * Power(x, j - 1)
  }

  /** The moments, written out. */
  lemma {:induction false} MomentIs(w: Weights, r: real, j: nat)
    requires 3 <= |w.H| <= 4
    ensures var s := w.i as real + 0.5 - r;
            var m := Mul(w.H[0], Power(s, j)) + Mul(w.H[1], Power(s + 1.0, j)) + Mul(w.H[2], Power(s + 2.0, j));
            MomentTo(w, r, j, |w.H|) == if |w.H| == 3 then m else m + Mul(w.H[3], Power(s + 3.0, j))
  {
    hide Power, Mul;
    var s := w.i as real + 0.5 - r;
    assert MomentTo(w, r, j, 1) == MomentTo(w, r, j, 0) + Mul(w.H[0], Power(s, j));
    assert MomentTo(w, r, j, 2) == MomentTo(w, r, j, 1) + Mul(w.H[1], Power(s + 1.0, j));
    assert MomentTo(w, r, j, 3) == MomentTo(w, r, j, 2) + Mul(w.H[2], Power(s + 2.0, j));
    if |w.H| == 4 { assert MomentTo(w, r, j, 4) == MomentTo(w, r, j, 3) + Mul(w.H[3], Power(s + 3.0, j)); }
  }

  lemma PowersAre(x: real)
    ensures Power(x, 2) == x * x && Power(x, 3) == x * x * x
  {
    assert Power(x, 1) == x * Power(x, 0);
    assert Power(x, 2) == x * Power(x, 1);
    assert Power(x, 3) == x * Power(x, 2);
  }

  /** The spread of the order 3 weights about the position is 1/4, wherever the position is in its cell. */
  lemma {:induction false} SecondMoment3(r: real)
    ensures MomentTo(WeightsOf(3, r), r, 2, 3) == 1.0 / 4.0
  {
    var w := WeightsOf(3, r);
    var h := r - w.i as real - 1.5;
    MomentIs(w, r, 2);
    Squares3(h);
    hide MomentTo, Power, Mul;
    assert w.i as real + 0.5 - r == -1.0 - h && -1.0 - h + 1.0 == -h && -1.0 - h + 2.0 == 1.0 - h;
  }

  lemma Squares3(h: real)
    ensures Mul(TscK1(0.5 - h), Power(-1.0 - h, 2)) + Mul(TscK0(h), Power(-h, 2))
            + Mul(TscK1(0.5 + h), Power(1.0 - h, 2))
         == 1.0 / 4.0
  {
    PowersAre(-1.0 - h);
    PowersAre(-h);
    PowersAre(1.0 - h);
    hide Power;
    var a := h * h;
    var p, q := 0.25 - h + a, 0.25 + h + a;
    HalfSquare(0.5 - h);
    HalfSquare(0.5 + h);
    assert (0.5 - h) * (0.5 - h) == p && (0.5 + h) * (0.5 + h) == q;
    assert (-1.0 - h) * (-1.0 - h) == 1.0 + 2.0 * h + a && (1.0 - h) * (1.0 - h) == 1.0 - 2.0 * h + a;
    assert p * (1.0 + 2.0 * h + a) == 0.25 - 0.5 * h - 0.75 * a + h * a + a * a;
    assert q * (1.0 - 2.0 * h + a) == 0.25 + 0.5 * h - 0.75 * a - h * a + a * a;
    assert (0.75 - a) * a == 0.75 * a - a * a;
    HalfIn(p, 1.0 + 2.0 * h + a);
    HalfIn(q, 1.0 - 2.0 * h + a);
  }

  lemma HalfIn(x: real, y: real)
    ensures (0.5 * x) * y == 0.5 * (x * y)
  {
  }

  /** For order 4 it is 1/3, and the weights are not skewed. */
  lemma {:induction false} Moments4(r: real)
    ensures MomentTo(WeightsOf(4, r), r, 2, 4) == 1.0 / 3.0
    ensures MomentTo(WeightsOf(4, r), r, 3, 4) == 0.0
  {
    var w := WeightsOf(4, r);
    var t := r - (w.i as real + 0.5) - 1.0;
    MomentIs(w, r, 2);
    MomentIs(w, r, 3);
    SecondMoments(t);
    ThirdMoments(t);
    hide MomentTo, Power, Mul, PcsK0, PcsK1;
    var s := w.i as real + 0.5 - r;
    assert s == -1.0 - t && s + 1.0 == -t && s + 2.0 == 1.0 - t && s + 3.0 == 2.0 - t;
    assert r - (w.i as real + 0.5) == 1.0 + t && 1.0 + t - 1.0 == t && 2.0 - (1.0 + t) == 1.0 - t
           && 3.0 - (1.0 + t) == 2.0 - t;
    assert w.H == [PcsK1(1.0 + t), PcsK0(t), PcsK0(1.0 - t), PcsK1(2.0 - t)];
  }

  /** The order 4 weights as polynomials. */
  lemma Polynomials4(t: real)
    ensures var a, b := Power(t, 2), Power(t, 3);
            && 6.0 * PcsK1(1.0 + t) == 1.0 - 3.0 * t + 3.0 * a - b && 6.0 * PcsK0(t) == 4.0 - 6.0 * a + 3.0 * b
            && 6.0 * PcsK0(1.0 - t) == 1.0 + 3.0 * t + 3.0 * a - 3.0 * b && 6.0 * PcsK1(2.0 - t) == b
  {
    PowersAre(t);
    hide Power;
    var a, b, u := t * t, t * t * t, 1.0 - t;
    assert u * u == 1.0 - 2.0 * t + a;
    CubeOf(u, 1.0 - 2.0 * t + a);
    CubeOf(t, a);
    assert u * (1.0 - 2.0 * t + a) == 1.0 - 3.0 * t + 3.0 * a - b;
    assert u * u * u == Pow3(u);
    assert 6.0 * u * u == 6.0 * (u * u) && 3.0 * u * u * u == 3.0 * (u * u * u);
    assert 6.0 * t * t == 6.0 * a && 3.0 * t * t * t == 3.0 * b;
    assert 2.0 - (1.0 + t) == u && 2.0 - (2.0 - t) == t;
  }

  lemma MorePowers(t: real)
    ensures Power(t, 2) == t * t && Power(t, 3) == t * t * t && Power(t, 4) == t * t * t * t
    ensures Power(t, 5) == t * t * t * t * t && Power(t, 6) == t * t * t * t * t * t
  {
    PowersAre(t);
    assert Power(t, 4) == t * Power(t, 3);
    assert Power(t, 5) == t * Power(t, 4);
    assert Power(t, 6) == t * Power(t, 5);
  }

  /** A cubic polynomial times the square and the cube of x - t. */
  lemma Expand(p: real, x: real, y0: real, y1: real, y2: real, y3: real, t: real)
    requires p == y0 + y1 * t + y2 * (t * t) + y3 * (t * t * t)
    ensures p * ((x - t) * (x - t))
         == x * x * y0 + (x * x * y1 - 2.0 * x * y0) * t + (x * x * y2 - 2.0 * x * y1 + y0) * (t * t)
            + (x * x * y3 - 2.0 * x * y2 + y1) * (t * t * t) + (y2 - 2.0 * x * y3) * (t * t * t * t)
            + y3 * (t * t * t * t * t)
  {
  }

  lemma ExpandOnce(p: real, x: real, z0: real, z1: real, z2: real, z3: real, z4: real, z5: real, t: real)
    requires p == z0 + z1 * t + z2 * Power(t, 2) + z3 * Power(t, 3) + z4 * Power(t, 4) + z5 * Power(t, 5)
    ensures p * (x - t)
         == x * z0 + (x * z1 - z0) * t + (x * z2 - z1) * Power(t, 2) + (x * z3 - z2) * Power(t, 3)
            + (x * z4 - z3) * Power(t, 4) + (x * z5 - z4) * Power(t, 5) - z5 * Power(t, 6)
  {
    PowerSteps(t);
    hide Power;
    TimesLinear(p, x, z0, z1, z2, z3, z4, z5, t, Power(t, 2), Power(t, 3), Power(t, 4), Power(t, 5), Power(t, 6));
  }

  lemma PowerSteps(t: real)
    ensures Power(t, 2) == t * t && Power(t, 3) == t * Power(t, 2) && Power(t, 4) == t * Power(t, 3)
    ensures Power(t, 5) == t * Power(t, 4) && Power(t, 6) == t * Power(t, 5)
  {
    assert Power(t, 1) == t * Power(t, 0);
  }

  lemma TimesLinear(p: real, x: real, z0: real, z1: real, z2: real, z3: real, z4: real, z5: real, t: real,
                    a: real, b: real, c: real, d: real, e: real)
    requires p == z0 + z1 * t + z2 * a + z3 * b + z4 * c + z5 * d
    requires a == t * t && b == t * a && c == t * b && d == t * c && e == t * d
    ensures p * (x - t)
         == x * z0 + (x * z1 - z0) * t + (x * z2 - z1) * a + (x * z3 - z2) * b + (x * z4 - z3) * c
             + (x * z5 - z4) * d - z5 * e
  {
  }

  /** A weight times the square and the cube of its distance. */
  lemma SquareTerm(k: real, x: real, y0: real, y1: real, y2: real, y3: real, t: real)
    requires 6.0 * k == y0 + y1 * t + y2 * Power(t, 2) + y3 * Power(t, 3)
    ensures 6.0 * Mul(k, Power(x - t, 2))
         == x * x * y0 + (x * x * y1 - 2.0 * x * y0) * t + (x * x * y2 - 2.0 * x * y1 + y0) * Power(t, 2)
            + (x * x * y3 - 2.0 * x * y2 + y1) * Power(t, 3) + (y2 - 2.0 * x * y3) * Power(t, 4) + y3 * Power(t, 5)
  {
    MorePowers(t);
    PowersAre(x - t);
    hide Power;
    Expand(6.0 * k, x, y0, y1, y2, y3, t);
    SixOut(k, (x - t) * (x - t));
  }

  lemma CubeTerm(k: real, x: real, z0: real, z1: real, z2: real, z3: real, z4: real, z5: real, t: real)
    requires 6.0 * Mul(k, Power(x - t, 2))
          == z0 + z1 * t + z2 * Power(t, 2) + z3 * Power(t, 3) + z4 * Power(t, 4) + z5 * Power(t, 5)
    ensures 6.0 * Mul(k, Power(x - t, 3))
         == x * z0 + (x * z1 - z0) * t + (x * z2 - z1) * Power(t, 2) + (x * z3 - z2) * Power(t, 3)
            + (x * z4 - z3) * Power(t, 4) + (x * z5 - z4) * Power(t, 5) - z5 * Power(t, 6)
  {
    hide Power, Mul;
    OneMore(k, x - t);
    var p := 6.0 * Mul(k, Power(x - t, 2));
    ExpandOnce(p, x, z0, z1, z2, z3, z4, z5, t);
  }

  lemma OneMore(k: real, s: real)
    ensures 6.0 * Mul(k, Power(s, 3)) == (6.0 * Mul(k, Power(s, 2))) * s
  {
    PowersAre(s);
    hide Power;
    var q := s * s;
    assert k * (q * s) == (k * q) * s;
    assert 6.0 * ((k * q) * s) == (6.0 * (k * q)) * s;
  }

  lemma SixOut(x: real, y: real)
    ensures (6.0 * x) * y == 6.0 * Mul(x, y)
  {
  }

  lemma SquareTerms(t: real)
    ensures var a, b, c, d := Power(t, 2), Power(t, 3), Power(t, 4), Power(t, 5);
            && 6.0 * Mul(PcsK1(1.0 + t), Power(-1.0 - t, 2)) == 1.0 - t - 2.0 * a + 2.0 * b + c - d
            && 6.0 * Mul(PcsK0(t), Power(-t, 2)) == 4.0 * a - 6.0 * c + 3.0 * d
            && 6.0 * Mul(PcsK0(1.0 - t), Power(1.0 - t, 2)) == 1.0 + t - 2.0 * a - 6.0 * b + 9.0 * c - 3.0 * d
            && 6.0 * Mul(PcsK1(2.0 - t), Power(2.0 - t, 2)) == 4.0 * b - 4.0 * c + d
  {
    hide PcsK0, PcsK1, Power, Mul;
    Polynomials4(t);
    SquareTerm(PcsK1(1.0 + t), -1.0, 1.0, -3.0, 3.0, -1.0, t);
    SquareTerm(PcsK0(t), 0.0, 4.0, 0.0, -6.0, 3.0, t);
    SquareTerm(PcsK0(1.0 - t), 1.0, 1.0, 3.0, 3.0, -3.0, t);
    SquareTerm(PcsK1(2.0 - t), 2.0, 0.0, 0.0, 0.0, 1.0, t);
    assert 0.0 - t == -t;
  }

  lemma SecondMoments(t: real)
    ensures Mul(PcsK1(1.0 + t), Power(-1.0 - t, 2)) + Mul(PcsK0(t), Power(-t, 2))
            + Mul(PcsK0(1.0 - t), Power(1.0 - t, 2)) + Mul(PcsK1(2.0 - t), Power(2.0 - t, 2)) == 1.0 / 3.0
  {
    hide PcsK0, PcsK1, Power, Mul;
    SquareTerms(t);
  }

  lemma ThirdMoments(t: real)
    ensures Mul(PcsK1(1.0 + t), Power(-1.0 - t, 3)) + Mul(PcsK0(t), Power(-t, 3))
            + Mul(PcsK0(1.0 - t), Power(1.0 - t, 3)) + Mul(PcsK1(2.0 - t), Power(2.0 - t, 3)) == 0.0
  {
    hide PcsK0, PcsK1, Power, Mul;
    SquareTerms(t);
    assert 0.0 - t == -t;
    CubeTerm(PcsK1(1.0 + t), -1.0, 1.0, -1.0, -2.0, 2.0, 1.0, -1.0, t);
    CubeTerm(PcsK0(t), 0.0, 0.0, 0.0, 4.0, 0.0, -6.0, 3.0, t);
    CubeTerm(PcsK0(1.0 - t), 1.0, 1.0, 1.0, -2.0, -6.0, 9.0, -3.0, t);
    CubeTerm(PcsK1(2.0 - t), 2.0, 0.0, 0.0, 0.0, 4.0, -4.0, 1.0, t);
  }

  // ----- what a cell of the periodic grid gets -----

  /** The sum of the first n weights that are selected. */
  function Selected(H: seq<real>, sel: nat -> bool, n: nat): real
    requires n <= |H|
  {
    if n == 0 then 0.0 else Selected(H, sel, n - 1) + if sel(n - 1) then H[n - 1] else 0.0
  }

  /** On the cells of the particle the form is 1 where all three coordinates are selected, and 0 elsewhere. */
  ghost predicate Selects(s: Spread, f: Form, inX: nat -> bool, inY: nat -> bool, inZ: nat -> bool) {
    forall i: nat, j: nat, k: nat | i < |s.x.H| && j < |s.y.H| && k < |s.z.H| ::
      At(s, f, i, j, k) == if inX(i) && inY(j) && inZ(k) then 1.0 else 0.0
  }

  lemma {:induction false} RowSelected(s: Spread, f: Form, inX: nat -> bool, inY: nat -> bool, inZ: nat -> bool,
                                       i: nat, j: nat, n: nat)
    requires Selects(s, f, inX, inY, inZ) && i < |s.x.H| && j < |s.y.H| && n <= |s.z.H|
    ensures Row(s, f, i, j, n)
         == if inX(i) && inY(j) then Mul(Mul(Mul(s.x.H[i], s.y.H[j]), s.mass), Selected(s.z.H, inZ, n)) else 0.0
  {
    if n > 0 {
      RowSelected(s, f, inX, inY, inZ, i, j, n - 1);
      assert At(s, f, i, j, n - 1) == if inX(i) && inY(j) && inZ(n - 1) then 1.0 else 0.0;
      CellTerm(s.x.H[i], s.y.H[j], s.z.H[n - 1], s.mass, Selected(s.z.H, inZ, n - 1));
      hide Mul;
    } else {
      TimesZero(Mul(Mul(s.x.H[i], s.y.H[j]), s.mass));
    }
  }

  lemma CellTerm(a: real, b: real, c: real, m: real, before: real)
    ensures Mul(a * b * c * m, 0.0) == 0.0
    ensures Mul(Mul(Mul(a, b), m), before + c) == Mul(Mul(Mul(a, b), m), before) + Mul(a * b * c * m, 1.0)
  {
    var x := a * b * m;
    assert x * (before + c) == x * before + x * c;
    assert x * c == a * b * c * m;
  }

  lemma TimesZero(x: real)
    ensures Mul(x, 0.0) == 0.0
  {
  }

  lemma {:induction false} PlaneSelected(s: Spread, f: Form, inX: nat -> bool, inY: nat -> bool, inZ: nat -> bool,
                                         i: nat, n: nat)
    requires Selects(s, f, inX, inY, inZ) && i < |s.x.H| && n <= |s.y.H|
    ensures Plane(s, f, i, n)
         == if inX(i) then Mul(Mul(s.x.H[i], s.mass), Mul(Selected(s.y.H, inY, n), Selected(s.z.H, inZ, |s.z.H|)))
            else 0.0
  {
    hide Mul, Selects;
    var c := Selected(s.z.H, inZ, |s.z.H|);
    if n > 0 {
      PlaneSelected(s, f, inX, inY, inZ, i, n - 1);
      RowSelected(s, f, inX, inY, inZ, i, n - 1, |s.z.H|);
      MoreRows(s.x.H[i], s.mass, Selected(s.y.H, inY, n - 1), s.y.H[n - 1], c);
    } else {
      NoRows(Mul(s.x.H[i], s.mass), c);
    }
  }

  lemma MoreRows(a: real, m: real, before: real, b: real, c: real)
    ensures Mul(Mul(a, m), Mul(before + b, c)) == Mul(Mul(a, m), Mul(before, c)) + Mul(Mul(Mul(a, b), m), c)
  {
    assert (before + b) * c == before * c + b * c;
    assert (a * m) * (before * c + b * c) == (a * m) * (before * c) + (a * m) * (b * c);
    assert (a * m) * (b * c) == ((a * b) * m) * c;
  }

  lemma NoRows(x: real, c: real)
    ensures Mul(x, Mul(0.0, c)) == 0.0
  {
  }

  lemma {:induction false} ShareSelected(s: Spread, f: Form, inX: nat -> bool, inY: nat -> bool, inZ: nat -> bool,
                                         n: nat)
    requires Selects(s, f, inX, inY, inZ) && n <= |s.x.H|
    ensures Share(s, f, n)
         == Mul(s.mass, Mul(Selected(s.x.H, inX, n),
                            Mul(Selected(s.y.H, inY, |s.y.H|), Selected(s.z.H, inZ, |s.z.H|))))
  {
    hide Mul, Selects;
    var b, c := Selected(s.y.H, inY, |s.y.H|), Selected(s.z.H, inZ, |s.z.H|);
    if n > 0 {
      ShareSelected(s, f, inX, inY, inZ, n - 1);
      PlaneSelected(s, f, inX, inY, inZ, n - 1, |s.y.H|);
      MorePlanes(s.mass, Selected(s.x.H, inX, n - 1), s.x.H[n - 1], Mul(b, c));
    } else {
      NoRows(s.mass, Mul(b, c));
    }
  }

  lemma MorePlanes(m: real, before: real, a: real, c: real)
    ensures Mul(m, Mul(before + a, c)) == Mul(m, Mul(before, c)) + Mul(Mul(a, m), c)
  {
    assert (before + a) * c == before * c + a * c;
    assert m * (before * c + a * c) == m * (before * c) + m * (a * c);
    assert m * (a * c) == (a * m) * c;
  }

  // ----- along one axis -----

  /** The cells from i on that wrap to cell a. */
  function WrapsTo(i: int, nGrid: nat, a: nat): nat -> bool {
    (k: nat) => Wrap(i + k, nGrid) == a
  }

  function WeightOf(H: seq<real>, k: int, n: nat): real
    requires n <= |H|
  {
    if 0 <= k < n then H[k] else 0.0
  }

  lemma {:induction false} SelectedWraps(H: seq<real>, i: int, nGrid: nat, a: nat, n: nat)
    requires n <= |H| && a < nGrid && 0 <= i + nGrid && i + n <= 2 * nGrid
    ensures Selected(H, WrapsTo(i, nGrid, a), n)
         == WeightOf(H, a - nGrid - i, n) + WeightOf(H, a - i, n) + WeightOf(H, a + nGrid - i, n)
  {
    if n > 0 {
      SelectedWraps(H, i, nGrid, a, n - 1);
      var x := i + n - 1;
      assert x == a - nGrid ==> Wrap(x, nGrid) == a;
      assert x == a + nGrid ==> Wrap(x, nGrid) == a;
      assert x == a ==> Wrap(x, nGrid) == a;
      assert Wrap(x, nGrid) == a ==> x == a - nGrid || x == a || x == a + nGrid;
      assert WrapsTo(i, nGrid, a)(n - 1) <==> Wrap(i + (n - 1), nGrid) == a;
    }
  }

  /** The spline at cell a and at its two images. */
  function AtImages(order: nat, nGrid: nat, a: nat, r: real): real
    requires order >= 1
  {
    Spline(order, (a - nGrid) as real + 0.5 - r) + Spline(order, a as real + 0.5 - r)
      + Spline(order, (a + nGrid) as real + 0.5 - r)
  }

  lemma OneAxis(order: nat, nGrid: nat, a: nat, r: real)
    requires 1 <= order <= 4 && nGrid > order / 2 && a < nGrid && 0 <= r.Floor <= nGrid
    ensures var w := WeightsOf(order, r);
            Selected(w.H, WrapsTo(w.i, nGrid, a), order) == AtImages(order, nGrid, a, r)
  {
    hide Spline, WeightsOf;
    var w := WeightsOf(order, r);
    WeightsNearby(order, r);
    SelectedWraps(w.H, w.i, nGrid, a, order);
    WeightsAreSplines(order, r, a - nGrid);
    WeightsAreSplines(order, r, a);
    WeightsAreSplines(order, r, a + nGrid);
  }

  // ----- the grid -----

  /** A coordinate in units of cells. */
  function InCells(x: real, period: real, nGrid: nat, fDelta: real): real
    requires period > 0.0
  {
    (x / period + 0.5) * nGrid as real + fDelta
  }

  /** What a particle brings to cell (a, b, c). */
  function SplineMass(box: Box, order: nat, p: Particle, a: nat, b: nat, c: nat): real
    requires BoxOk(box) && order >= 1
  {
    Mul(p.mass, Mul(AtImages(order, box.nGrid, a, InCells(p.pos.x, box.period.x, box.nGrid, box.fDelta)),
                Mul(AtImages(order, box.nGrid, b, InCells(p.pos.y, box.period.y, box.nGrid, box.fDelta)),
                    AtImages(order, box.nGrid, c, InCells(p.pos.z, box.period.z, box.nGrid, box.fDelta)))))
  }

  function SplineMasses(box: Box, order: nat, ps: seq<Particle>, from: nat, upto: nat, a: nat, b: nat, c: nat): real
    requires BoxOk(box) && order >= 1 && from <= upto <= |ps|
  {
    if from == upto then 0.0
    else SplineMasses(box, order, ps, from, upto - 1, a, b, c) + SplineMass(box, order, ps[upto - 1], a, b, c)
  }

  lemma ScaleIs(x: real, period: real, nGrid: nat, fDelta: real)
    requires period > 0.0
    ensures Scale1(x, period, nGrid, fDelta) == InCells(x, period, nGrid, fDelta)
  {
    assert x * (1.0 / period) == x / period;
  }

  lemma OnlyThisCell(nGrid: nat, x: int, y: int, z: int, a: nat, b: nat, c: nat)
    requires InGrid(x, nGrid) && InGrid(y, nGrid) && InGrid(z, nGrid) && a < nGrid && b < nGrid && c < nGrid
    ensures GridCell(nGrid, x, y, z) == GridCell(nGrid, a, b, c)
       <==> Wrap(x, nGrid) == a && Wrap(y, nGrid) == b && Wrap(z, nGrid) == c
  {
    var shape := Vec(nGrid, nGrid, nGrid);
    hide Index, Position;
    IndexOk(shape, Wrap(x, nGrid), Wrap(y, nGrid), Wrap(z, nGrid));
    IndexOk(shape, a, b, c);
  }

  /** The form of a single cell selects, along each axis, the cells that wrap to it. */
  lemma CellSelects(box: Box, order: nat, p: Particle, a: nat, b: nat, c: nat)
    requires BoxOk(box) && 1 <= order <= 4 && box.nGrid > order / 2 && InBox(box, p.pos)
    requires a < box.nGrid && b < box.nGrid && c < box.nGrid
    ensures var n, s := box.nGrid, SpreadOf(box, order, p);
            Selects(s, Periodic(n, OneCell(GridCell(n, a, b, c))),
                    WrapsTo(s.x.i, n, a), WrapsTo(s.y.i, n, b), WrapsTo(s.z.i, n, c))
  {
    hide WeightsOf, Scale1, GridCell;
    var n, s := box.nGrid, SpreadOf(box, order, p);
    var f := Periodic(n, OneCell(GridCell(n, a, b, c)));
    hide Wrap;
    forall i: nat, j: nat, k: nat | i < order && j < order && k < order
      ensures At(s, f, i, j, k)
           == if WrapsTo(s.x.i, n, a)(i) && WrapsTo(s.y.i, n, b)(j) && WrapsTo(s.z.i, n, c)(k) then 1.0 else 0.0
    {
      ReachesGrid(p.pos.x, box.period.x, n, box.fDelta, order, i);
      ReachesGrid(p.pos.y, box.period.y, n, box.fDelta, order, j);
      ReachesGrid(p.pos.z, box.period.z, n, box.fDelta, order, k);
      OnlyThisCell(n, s.x.i + i, s.y.i + j, s.z.i + k, a, b, c);
    }
  }

  /** The position in units of cells. */
  lemma InUnits(x: real, period: real, nGrid: nat, fDelta: real)
    requires period > 0.0 && -period <= 2.0 * x <= period && 0.0 <= fDelta < 1.0
    ensures Scale1(x, period, nGrid, fDelta) == InCells(x, period, nGrid, fDelta)
    ensures 0 <= InCells(x, period, nGrid, fDelta).Floor <= nGrid
  {
    ScaleInGrid(x, period, nGrid, fDelta);
    ScaleIs(x, period, nGrid, fDelta);
  }

  /** One particle gives a cell its mass times the product of the splines at the images of the cell. */
  lemma ContributionAt(box: Box, order: nat, p: Particle, a: nat, b: nat, c: nat)
    requires BoxOk(box) && 1 <= order <= 4 && box.nGrid > order / 2 && InBox(box, p.pos)
    requires a < box.nGrid && b < box.nGrid && c < box.nGrid
    ensures Contribution(box, order, p, Periodic(box.nGrid, OneCell(GridCell(box.nGrid, a, b, c))))
         == SplineMass(box, order, p, a, b, c)
  {
    hide WeightsOf, Scale1, GridCell, AtImages, Selected, InCells, Mul, Selects, Periodic;
    var n, s := box.nGrid, SpreadOf(box, order, p);
    InUnits(p.pos.x, box.period.x, n, box.fDelta);
    InUnits(p.pos.y, box.period.y, n, box.fDelta);
    InUnits(p.pos.z, box.period.z, n, box.fDelta);
    CellSelects(box, order, p, a, b, c);
    ShareSelected(s, Periodic(n, OneCell(GridCell(n, a, b, c))),
                  WrapsTo(s.x.i, n, a), WrapsTo(s.y.i, n, b), WrapsTo(s.z.i, n, c), order);
    OneAxis(order, n, a, InCells(p.pos.x, box.period.x, n, box.fDelta));
    OneAxis(order, n, b, InCells(p.pos.y, box.period.y, n, box.fDelta));
    OneAxis(order, n, c, InCells(p.pos.z, box.period.z, n, box.fDelta));
  }

  lemma {:induction false} ShareAllAt(box: Box, order: nat, ps: seq<Particle>, from: nat, upto: nat, a: nat, b: nat,
                                      c: nat)
    requires BoxOk(box) && 1 <= order <= 4 && box.nGrid > order / 2 && from <= upto <= |ps|
    requires forall i | from <= i < upto :: InBox(box, ps[i].pos)
    requires a < box.nGrid && b < box.nGrid && c < box.nGrid
    ensures ShareAll(box, order, ps, from, upto, Periodic(box.nGrid, OneCell(GridCell(box.nGrid, a, b, c))))
         == SplineMasses(box, order, ps, from, upto, a, b, c)
  {
    if from < upto {
      ShareAllAt(box, order, ps, from, upto - 1, a, b, c);
      ContributionAt(box, order, ps[upto - 1], a, b, c);
      hide Contribution, SplineMass;
    }
  }

  /** Each cell of the grid has gained the mass of every particle times the product of the three splines at the cell
      and its images. */
  lemma CellGains(g0: seq<real>, g: seq<real>, box: Box, order: nat, ps: seq<Particle>, from: nat, upto: nat,
                  a: nat, b: nat, c: nat)
    requires Received(g0, g, box, order, ps, from, upto) && box.nGrid > order / 2
    requires forall i | from <= i < upto :: InBox(box, ps[i].pos)
    requires a < box.nGrid && b < box.nGrid && c < box.nGrid && GridCell(box.nGrid, a, b, c) < |g|
    ensures g[GridCell(box.nGrid, a, b, c)]
         == g0[GridCell(box.nGrid, a, b, c)] + SplineMasses(box, order, ps, from, upto, a, b, c)
  {
    CellsReceived(g0, g, box, order, ps, from, upto, GridCell(box.nGrid, a, b, c));
    ShareAllAt(box, order, ps, from, upto, a, b, c);
  }
}
