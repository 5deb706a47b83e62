/** Mass assignment: particles are spread over the cells of a periodic grid with spline weights of order 1 to 4,
    tree cell by tree cell through a local subcube. */
module AssignMass {

  // ----- the weights in one dimension -----

  /** The first cell and the weights of it and the following ones. */
  datatype Weights = Weights(i: int, H: seq<real>)

  function Pow3(x: real): real {
    x * x * x
  }

  function TscK0(h: real): real {
    0.75 - h * h
  }

  function TscK1(h: real): real {
    0.5 * h * h
  }

  function PcsK0(h: real): real {
    1.0 / 6.0 * (4.0 - 6.0 * h * h + 3.0 * h * h * h)
  }

  function PcsK1(h: real): real {
    1.0 / 6.0 * Pow3(2.0 - h)
  }

  /** AssignmentWeights of order 1 to 4. */
  function WeightsOf(order: nat, r: real): (w: Weights)
    requires 1 <= order <= 4
    ensures |w.H| == order
  {
    if order == 1 then
      Weights(r.Floor, [1.0])
    else if order == 2 then
      var rr := r - 0.5;
      var i := rr.Floor;
      var h := rr - i as real;
      Weights(i, [1.0 - h, h])
    else if order == 3 then
      var i := r.Floor - 1;
      var h := r - i as real - 1.5;
      Weights(i, [TscK1(0.5 - h), TscK0(h), TscK1(0.5 + h)])
    else
      var i := (r - 1.5).Floor;
      var h := r - (i as real + 0.5);
      Weights(i, [PcsK1(h), PcsK0(h - 1.0), PcsK0(2.0 - h), PcsK1(3.0 - h)])
  }

  function SumTo(s: seq<real>, n: nat): real
    requires n <= |s|
  {
    if n == 0 then 0.0 else SumTo(s, n - 1) + s[n - 1]
  }

  /** The mean of the cell centres, weighted. */
  function CentreTo(w: Weights, n: nat): real
    requires n <= |w.H|
  {
    if n == 0 then 0.0 else CentreTo(w, n - 1) + w.H[n - 1] * ((w.i + n - 1) as real + 0.5)
  }

  lemma {:induction false} SumIs(s: seq<real>)
    ensures |s| == 1 ==> SumTo(s, 1) == s[0]
    ensures |s| == 2 ==> SumTo(s, 2) == s[0] + s[1]
    ensures |s| == 3 ==> SumTo(s, 3) == s[0] + s[1] + s[2]
    ensures |s| == 4 ==> SumTo(s, 4) == s[0] + s[1] + s[2] + s[3]
  {
    if |s| >= 1 { assert SumTo(s, 1) == SumTo(s, 0) + s[0]; }
    if |s| >= 2 { assert SumTo(s, 2) == SumTo(s, 1) + s[1]; }
    if |s| >= 3 { assert SumTo(s, 3) == SumTo(s, 2) + s[2]; }
    if |s| >= 4 { assert SumTo(s, 4) == SumTo(s, 3) + s[3]; }
  }

  /** The quadratic kernels for a distance h from the nearest cell centre. */
  lemma TscKernels(h: real)
    requires -0.5 <= h <= 0.5
    ensures TscK1(0.5 - h) >= 0.0 && TscK0(h) >= 0.0 && TscK1(0.5 + h) >= 0.0
    ensures TscK1(0.5 - h) + TscK0(h) + TscK1(0.5 + h) == 1.0
    ensures TscK0(h) + 2.0 * TscK1(0.5 + h) == 1.0 + h
  {
    var a, b := 0.5 - h, 0.5 + h;
    assert a * a == 0.25 - h + h * h && b * b == 0.25 + h + h * h && a * b == 0.25 - h * h;
    ProductPositive(a, b);
    assert a * a >= 0.0 && b * b >= 0.0;
    HalfSquare(a);
    HalfSquare(b);
  }

  lemma ProductPositive(x: real, y: real)
    requires x >= 0.0 && y >= 0.0
    ensures x * y >= 0.0
  {
  }

  lemma HalfSquare(x: real)
    ensures TscK1(x) == 0.5 * (x * x)
  {
  }

  /** The two cubic kernels for a distance t from the cell on the left. */
  lemma PcsKernels(t: real)
    requires 0.0 <= t < 1.0
    ensures PcsK1(1.0 + t) >= 0.0 && PcsK0(t) >= 0.0 && PcsK0(1.0 - t) >= 0.0 && PcsK1(2.0 - t) >= 0.0
    ensures PcsK1(1.0 + t) + PcsK0(t) + PcsK0(1.0 - t) + PcsK1(2.0 - t) == 1.0
    ensures PcsK0(t) + 2.0 * PcsK0(1.0 - t) + 3.0 * PcsK1(2.0 - t) == 1.0 + t
  {
    var u := 1.0 - t;
    assert u * u == 1.0 - 2.0 * t + t * t;
    assert u * u * u == 1.0 - 3.0 * t + 3.0 * (t * t) - t * t * t;
    PcsK0Positive(t);
    PcsK0Positive(u);
    Pow3Positive(u);
    Pow3Positive(t);
  }

  lemma Pow3Positive(x: real)
    requires x >= 0.0
    ensures Pow3(x) >= 0.0
  {
    assert x * x >= 0.0;
  }

  lemma PcsK0Positive(t: real)
    requires 0.0 <= t <= 1.0
    ensures PcsK0(t) >= 0.0
  {
    var v, a := 1.0 - t, t * t;
    assert t * v == t - a && t * v >= 0.0;
    assert v * (1.0 + t * v) == 1.0 - 2.0 * a + t * a;
    assert v * (1.0 + t * v) >= 0.0;
    assert 6.0 * t * t == 6.0 * a && 3.0 * t * t * t == 3.0 * (t * a);
  }

  /** The weights are not negative and sum to one. */
  lemma {:induction false} WeightsSumToOne(order: nat, r: real)
    requires 1 <= order <= 4
    ensures var w := WeightsOf(order, r); (forall k | 0 <= k < order :: w.H[k] >= 0.0) && SumTo(w.H, order) == 1.0
  {
    var w := WeightsOf(order, r);
    SumIs(w.H);
    if order == 3 {
      var h := r - w.i as real - 1.5;
      TscKernels(h);
    } else if order == 4 {
      var h := r - (w.i as real + 0.5);
      PcsKernels(h - 1.0);
      assert PcsK1(h) == PcsK1(1.0 + (h - 1.0)) && PcsK0(2.0 - h) == PcsK0(1.0 - (h - 1.0))
             && PcsK1(3.0 - h) == PcsK1(2.0 - (h - 1.0));
    }
  }

  lemma {:induction false} CentreIs(w: Weights)
    requires |w.H| <= 4 && SumTo(w.H, |w.H|) == 1.0
    ensures var c := w.i as real + 0.5;
            && (|w.H| == 2 ==> CentreTo(w, 2) == c + w.H[1])
            && (|w.H| == 3 ==> CentreTo(w, 3) == c + w.H[1] + 2.0 * w.H[2])
            && (|w.H| == 4 ==> CentreTo(w, 4) == c + w.H[1] + 2.0 * w.H[2] + 3.0 * w.H[3])
  {
    var c := w.i as real + 0.5;
    SumIs(w.H);
    if |w.H| > 0 { TimesOne(SumTo(w.H, |w.H|), c); }
    hide SumTo;
    if |w.H| >= 2 {
      assert CentreTo(w, 1) == CentreTo(w, 0) + w.H[0] * c;
      assert CentreTo(w, 2) == CentreTo(w, 1) + w.H[1] * (c + 1.0);
    }
    if |w.H| >= 3 { assert CentreTo(w, 3) == CentreTo(w, 2) + w.H[2] * (c + 2.0); }
    if |w.H| >= 4 { assert CentreTo(w, 4) == CentreTo(w, 3) + w.H[3] * (c + 3.0); }
    hide CentreTo;
    if |w.H| == 2 {
      assert w.H[0] * c + w.H[1] * (c + 1.0) == (w.H[0] + w.H[1]) * c + w.H[1];
    } else if |w.H| == 3 {
      assert w.H[0] * c + w.H[1] * (c + 1.0) + w.H[2] * (c + 2.0) == (w.H[0] + w.H[1] + w.H[2]) * c + w.H[1]
             + 2.0 * w.H[2];
    } else if |w.H| == 4 {
      assert w.H[0] * c + w.H[1] * (c + 1.0) + w.H[2] * (c + 2.0) + w.H[3] * (c + 3.0)
          == (w.H[0] + w.H[1] + w.H[2] + w.H[3]) * c + w.H[1] + 2.0 * w.H[2] + 3.0 * w.H[3];
    }
  }

  lemma TimesOne(x: real, c: real)
    ensures x == 1.0 ==> x * c == c
  {
  }

  /** From order 2 on, the weighted mean of the cell centres is the position itself. */
  lemma {:induction false} WeightsKeepPosition(order: nat, r: real)
    requires 2 <= order <= 4
    ensures CentreTo(WeightsOf(order, r), order) == r
  {
    var w := WeightsOf(order, r);
    WeightsSumToOne(order, r);
    CentreIs(w);
    hide CentreTo, SumTo, TscK0, TscK1, PcsK0, PcsK1;
    if order == 3 {
      TscKernels(r - w.i as real - 1.5);
    } else if order == 4 {
      var t := r - (w.i as real + 0.5) - 1.0;
      PcsKernels(t);
      assert r - (w.i as real + 0.5) - 1.0 == t && 2.0 - (r - (w.i as real + 0.5)) == 1.0 - t
             && 3.0 - (r - (w.i as real + 0.5)) == 2.0 - t;
    }
  }

  /** The cells used lie within order/2 cells of the one that holds the position. */
  lemma WeightsNearby(order: nat, r: real)
    requires 1 <= order <= 4
    ensures r.Floor - order / 2 <= WeightsOf(order, r).i
    ensures WeightsOf(order, r).i + order - 1 <= r.Floor + order / 2
  {
  }

  /** Moving the origin by whole cells moves the cells and keeps the weights. */
  lemma WeightsShift(order: nat, r: real, k: int)
    requires 1 <= order <= 4
    ensures WeightsOf(order, r - k as real) == WeightsOf(order, r).(i := WeightsOf(order, r).i - k)
  {
  }

  // ----- grids as linear forms -----

  /** Products of reals are kept behind a name. */
  function Mul(x: real, y: real): real {
    x * y
  }

  /** The first n cells, each weighted with phi. */
  function Dot(s: seq<real>, n: nat, phi: nat -> real): real
    requires n <= |s|
  {
    if n == 0 then 0.0 else Dot(s, n - 1, phi) + Mul(s[n - 1], phi(n - 1))
  }

  lemma MulAdd(x: real, y: real, c: real)
    ensures Mul(x + y, c) == Mul(x, c) + Mul(y, c)
  {
  }

  lemma {:induction false} DotSame(s: seq<real>, t: seq<real>, n: nat, phi: nat -> real)
    requires n <= |s| && n <= |t| && forall q | 0 <= q < n :: s[q] == t[q]
    ensures Dot(s, n, phi) == Dot(t, n, phi)
  {
    if n > 0 { DotSame(s, t, n - 1, phi); }
  }

  lemma {:induction false} DotUpdate(s: seq<real>, n: nat, phi: nat -> real, q: nat, v: real)
    requires q < n <= |s|
    ensures Dot(s[q := s[q] + v], n, phi) == Dot(s, n, phi) + Mul(v, phi(q))
  {
    if q == n - 1 {
      MulAdd(s[q], v, phi(q));
      DotSame(s[q := s[q] + v], s, n - 1, phi);
    } else {
      DotUpdate(s, n - 1, phi, q, v);
    }
  }

  lemma {:induction false} DotZero(s: seq<real>, n: nat, phi: nat -> real)
    requires n <= |s| && forall q | 0 <= q < n :: s[q] == 0.0
    ensures Dot(s, n, phi) == 0.0
  {
    if n > 0 { DotZero(s, n - 1, phi); }
  }

  /** A single cell, and the total over all cells, are such forms. */
  function OneCell(cell: nat): nat -> real {
    q => if q == cell then 1.0 else 0.0
  }

  function AllCells(): nat -> real {
    q => 1.0
  }

  lemma {:induction false} DotOneCell(s: seq<real>, n: nat, cell: nat)
    requires n <= |s|
    ensures Dot(s, n, OneCell(cell)) == if cell < n then s[cell] else 0.0
  {
    if n > 0 {
      DotOneCell(s, n - 1, cell);
      assert Mul(s[n - 1], 0.0) == 0.0 && Mul(s[n - 1], 1.0) == s[n - 1];
    }
  }

  lemma {:induction false} DotAllCells(s: seq<real>, n: nat)
    requires n <= |s|
    ensures Dot(s, n, AllCells()) == SumTo(s, n)
  {
    if n > 0 {
      DotAllCells(s, n - 1);
      assert Mul(s[n - 1], 1.0) == s[n - 1];
    }
  }

  // ----- what one particle contributes -----

  datatype Vec<+T> = Vec(x: T, y: T, z: T)

  datatype Spread = Spread(order: nat, x: Weights, y: Weights, z: Weights, mass: real)

  ghost predicate SpreadOk(s: Spread) {
    && |s.x.H| == |s.y.H| == |s.z.H| == s.order
    && s.mass >= 0.0
    && (forall k | 0 <= k < s.order :: s.x.H[k] >= 0.0 && s.y.H[k] >= 0.0 && s.z.H[k] >= 0.0)
  }

  function Coefficient(s: Spread, i: nat, j: nat, k: nat): real
    requires i < |s.x.H| && j < |s.y.H| && k < |s.z.H|
  {
    s.x.H[i] * s.y.H[j] * s.z.H[k] * s.mass
  }

  lemma CoefficientPositive(s: Spread, i: nat, j: nat, k: nat)
    requires SpreadOk(s) && i < s.order && j < s.order && k < s.order
    ensures Coefficient(s, i, j, k) >= 0.0
  {
    ProductPositive(s.x.H[i], s.y.H[j]);
    ProductPositive(s.x.H[i] * s.y.H[j], s.z.H[k]);
    ProductPositive(s.x.H[i] * s.y.H[j] * s.z.H[k], s.mass);
  }

  /** A form on the cells of the infinite grid. */
  type Form = (int, int, int) -> real

  function At(s: Spread, f: Form, i: nat, j: nat, k: nat): real {
    f(s.x.i + i, s.y.i + j, s.z.i + k)
  }

  function Row(s: Spread, f: Form, i: nat, j: nat, n: nat): real
    requires i < |s.x.H| && j < |s.y.H| && n <= |s.z.H|
  {
    if n == 0 then 0.0
    else Row(s, f, i, j, n - 1) + Mul(Coefficient(s, i, j, n - 1), At(s, f, i, j, n - 1))
  }

  function Plane(s: Spread, f: Form, i: nat, n: nat): real
    requires i < |s.x.H| && n <= |s.y.H|
  {
    if n == 0 then 0.0 else Plane(s, f, i, n - 1) + Row(s, f, i, n - 1, |s.z.H|)
  }

  /** The contribution of the first n layers of cells. */
  function Share(s: Spread, f: Form, n: nat): real
    requires n <= |s.x.H|
  {
    if n == 0 then 0.0 else Share(s, f, n - 1) + Plane(s, f, n - 1, |s.y.H|)
  }

  /** Two spreads with the same weights contribute the same where the forms agree on their cells. */
  ghost predicate SameCells(s: Spread, f: Form, t: Spread, g: Form) {
    && s.x.H == t.x.H && s.y.H == t.y.H && s.z.H == t.z.H && s.mass == t.mass
    && forall i: nat, j: nat, k: nat | i < |s.x.H| && j < |s.y.H| && k < |s.z.H| ::
         At(s, f, i, j, k) == At(t, g, i, j, k)
  }

  lemma {:induction false} SameRow(s: Spread, f: Form, t: Spread, g: Form, i: nat, j: nat, n: nat)
    requires SameCells(s, f, t, g) && i < |s.x.H| && j < |s.y.H| && n <= |s.z.H|
    ensures Row(s, f, i, j, n) == Row(t, g, i, j, n)
  {
    if n > 0 { SameRow(s, f, t, g, i, j, n - 1); }
  }

  lemma {:induction false} SamePlane(s: Spread, f: Form, t: Spread, g: Form, i: nat, n: nat)
    requires SameCells(s, f, t, g) && i < |s.x.H| && n <= |s.y.H|
    ensures Plane(s, f, i, n) == Plane(t, g, i, n)
  {
    if n > 0 {
      SamePlane(s, f, t, g, i, n - 1);
      SameRow(s, f, t, g, i, n - 1, |s.z.H|);
    }
  }

  lemma {:induction false} SameShare(s: Spread, f: Form, t: Spread, g: Form, n: nat)
    requires SameCells(s, f, t, g) && n <= |s.x.H|
    ensures Share(s, f, n) == Share(t, g, n)
  {
    if n > 0 {
      SameShare(s, f, t, g, n - 1);
      SamePlane(s, f, t, g, n - 1, |s.y.H|);
    }
  }

  // ----- the mass of one particle -----

  function Everywhere(): Form {
    (x, y, z) => 1.0
  }

  lemma {:induction false} RowTotal(s: Spread, i: nat, j: nat, n: nat)
    requires i < |s.x.H| && j < |s.y.H| && n <= |s.z.H|
    ensures Row(s, Everywhere(), i, j, n) == Mul(s.x.H[i] * s.y.H[j] * s.mass, SumTo(s.z.H, n))
  {
    if n > 0 {
      RowTotal(s, i, j, n - 1);
      var a, b, c, m := s.x.H[i], s.y.H[j], s.z.H[n - 1], s.mass;
      var before := SumTo(s.z.H, n - 1);
      Rearrange(a * b, c, m);
      assert (a * b * m) * (before + c) == (a * b * m) * before + (a * b * m) * c;
    }
  }

  lemma Rearrange(x: real, c: real, m: real)
    ensures Mul(x * c * m, 1.0) == (x * m) * c
  {
  }

  lemma {:induction false} PlaneTotal(s: Spread, i: nat, n: nat)
    requires i < |s.x.H| && n <= |s.y.H| && SumTo(s.z.H, |s.z.H|) == 1.0
    ensures Plane(s, Everywhere(), i, n) == Mul(s.x.H[i] * s.mass, SumTo(s.y.H, n))
  {
    if n > 0 {
      PlaneTotal(s, i, n - 1);
      RowTotal(s, i, n - 1, |s.z.H|);
      var a, b, m := s.x.H[i], s.y.H[n - 1], s.mass;
      var before := SumTo(s.y.H, n - 1);
      Rearrange(a, b, m);
      assert (a * m) * (before + b) == (a * m) * before + (a * m) * b;
    }
  }

  /** With weights that sum to one in each direction, all of the mass is handed out. */
  lemma {:induction false} ShareTotal(s: Spread, n: nat)
    requires n <= |s.x.H| && SumTo(s.z.H, |s.z.H|) == 1.0 && SumTo(s.y.H, |s.y.H|) == 1.0
    ensures Share(s, Everywhere(), n) == Mul(s.mass, SumTo(s.x.H, n))
  {
    if n > 0 {
      ShareTotal(s, n - 1);
      PlaneTotal(s, n - 1, |s.y.H|);
      var a, m := s.x.H[n - 1], s.mass;
      var before := SumTo(s.x.H, n - 1);
      assert m * (before + a) == m * before + m * a;
      assert Mul(a * m, 1.0) == m * a;
    }
  }

  // ----- cells in memory -----

  function Cells(a: nat, c: nat): nat {
    a * c
  }

  function Quotient(q: nat, c: nat): nat
    requires c > 0
  {
    q / c
  }

  function Remainder(q: nat, c: nat): nat
    requires c > 0
  {
    q % c
  }

  /** The place of a cell in a block of the given shape. */
  function Index(shape: Vec<nat>, x: nat, y: nat, z: nat): nat {
    Cells(Cells(x, shape.y) + y, shape.z) + z
  }

  function Size(shape: Vec<nat>): nat {
    Cells(Cells(shape.x, shape.y), shape.z)
  }

  /** The cell at a place in a block. */
  function Position(shape: Vec<nat>, q: nat): (v: Vec<nat>)
    requires q < Size(shape)
    ensures v.x < shape.x && v.y < shape.y && v.z < shape.z && Index(shape, v.x, v.y, v.z) == q
  {
    NoneEmpty(shape);
    hide Size, Quotient, Remainder;
    PositionOk(shape, q);
    hide Index;
    Vec(Quotient(Quotient(q, shape.z), shape.y), Remainder(Quotient(q, shape.z), shape.y), Remainder(q, shape.z))
  }

  lemma PositionOk(shape: Vec<nat>, q: nat)
    requires shape.y > 0 && shape.z > 0 && q < Size(shape)
    ensures var row := Quotient(q, shape.z);
            && Quotient(row, shape.y) < shape.x && Remainder(row, shape.y) < shape.y && Remainder(q, shape.z) < shape.z
            && Index(shape, Quotient(row, shape.y), Remainder(row, shape.y), Remainder(q, shape.z)) == q
  {
    hide Cells, Index, Size, Quotient, Remainder;
    var row := Quotient(q, shape.z);
    DivMod(q, shape.z);
    DivMod(row, shape.y);
    PositionOf(shape, q, row, Vec(Quotient(row, shape.y), Remainder(row, shape.y), Remainder(q, shape.z)));
  }

  lemma PositionOf(shape: Vec<nat>, q: nat, row: nat, v: Vec<nat>)
    requires q < Size(shape) && q == Cells(row, shape.z) + v.z && v.z < shape.z
    requires row == Cells(v.x, shape.y) + v.y && v.y < shape.y
    ensures v.x < shape.x && Index(shape, v.x, v.y, v.z) == q
  {
    hide Cells;
    Below(row, v.z, shape.z, Cells(shape.x, shape.y));
    Below(v.x, v.y, shape.y, shape.x);
  }

  lemma DivMod(q: nat, c: nat)
    requires c > 0
    ensures q == Cells(Quotient(q, c), c) + Remainder(q, c) && Remainder(q, c) < c
  {
  }

  lemma NoneEmpty(shape: Vec<nat>)
    requires Size(shape) > 0
    ensures shape.x > 0 && shape.y > 0 && shape.z > 0
  {
    assert shape.z == 0 ==> Cells(Cells(shape.x, shape.y), shape.z) == 0;
    assert shape.y == 0 || shape.x == 0 ==> Cells(shape.x, shape.y) == 0;
  }

  /** a*c + r below b*c means a below b. */
  lemma Below(a: nat, r: nat, c: nat, b: nat)
    requires Cells(a, c) + r < Cells(b, c)
    ensures a < b
  {
    assert a >= b ==> a * c >= b * c;
  }

  lemma Within(a: nat, r: nat, c: nat, b: nat)
    requires a < b && r < c
    ensures Cells(a, c) + r < Cells(b, c)
  {
    assert (a + 1) * c == a * c + c;
    assert (a + 1) * c <= b * c;
  }

  lemma QuotientOf(a: nat, r: nat, c: nat)
    requires r < c
    ensures Quotient(Cells(a, c) + r, c) == a && Remainder(Cells(a, c) + r, c) == r
  {
    var x := Cells(a, c) + r;
    DivMod(x, c);
    hide Cells, Quotient, Remainder;
    var y := Quotient(x, c);
    if y < a {
      Within(y, Remainder(x, c), c, a);
    } else if y > a {
      Within(a, r, c, y);
    }
  }

  lemma IndexOk(shape: Vec<nat>, x: nat, y: nat, z: nat)
    requires x < shape.x && y < shape.y && z < shape.z
    ensures Index(shape, x, y, z) < Size(shape)
    ensures Position(shape, Index(shape, x, y, z)) == Vec(x, y, z)
  {
    hide Cells, Quotient, Remainder;
    Within(x, y, shape.y, shape.x);
    Within(Cells(x, shape.y) + y, z, shape.z, Cells(shape.x, shape.y));
    QuotientOf(Cells(x, shape.y) + y, z, shape.z);
    QuotientOf(x, y, shape.y);
  }

  // ----- the periodic grid -----

  /** wrap in flush_masses: one period at most. */
  function Wrap(i: int, nGrid: nat): int {
    if i >= nGrid then i - nGrid else if i < 0 then i + nGrid else i
  }

  predicate InGrid(i: int, nGrid: nat) {
    0 <= Wrap(i, nGrid) < nGrid
  }

  function GridCell(nGrid: nat, x: int, y: int, z: int): nat
    requires InGrid(x, nGrid) && InGrid(y, nGrid) && InGrid(z, nGrid)
  {
    Index(Vec(nGrid, nGrid, nGrid), Wrap(x, nGrid), Wrap(y, nGrid), Wrap(z, nGrid))
  }

  /** A form on the periodic grid, seen from the infinite one. */
  function Periodic(nGrid: nat, phi: nat -> real): Form {
    (x, y, z) => if InGrid(x, nGrid) && InGrid(y, nGrid) && InGrid(z, nGrid) then phi(GridCell(nGrid, x, y, z)) else 0.0
  }

  /** A form on the infinite grid, seen from a block of cells. */
  function Local(shape: Vec<nat>, lower: Vec<int>, f: Form): nat -> real {
    (q: nat) => if q < Size(shape) then var v := Position(shape, q); f(v.x + lower.x, v.y + lower.y, v.z + lower.z)
        else 0.0
  }

  function Shifted(lower: Vec<int>, f: Form): Form {
    (x, y, z) => f(x + lower.x, y + lower.y, z + lower.z)
  }

  // ----- positions -----

  datatype Particle = Particle(pos: Vec<real>, mass: real)

  /** Positions are centred on 0 with the given periods. */
  datatype Box = Box(period: Vec<real>, nGrid: nat, fDelta: real)

  ghost predicate BoxOk(box: Box) {
    && box.period.x > 0.0 && box.period.y > 0.0 && box.period.z > 0.0
    && 0.0 <= box.fDelta < 1.0
  }

  predicate InBox(box: Box, v: Vec<real>) {
    && -box.period.x <= 2.0 * v.x <= box.period.x
    && -box.period.y <= 2.0 * v.y <= box.period.y
    && -box.period.z <= 2.0 * v.z <= box.period.z
  }

  function Scale1(x: real, period: real, nGrid: nat, fDelta: real): real
    requires period > 0.0
  {
    (x * (1.0 / period) + 0.5) * nGrid as real + fDelta
  }

  /** A position in units of cells. */
  function Scale(box: Box, v: Vec<real>): Vec<real>
    requires box.period.x > 0.0 && box.period.y > 0.0 && box.period.z > 0.0
  {
    Vec(Scale1(v.x, box.period.x, box.nGrid, box.fDelta), Scale1(v.y, box.period.y, box.nGrid, box.fDelta),
        Scale1(v.z, box.period.z, box.nGrid, box.fDelta))
  }

  function Floor(v: Vec<real>): Vec<int> {
    Vec(v.x.Floor, v.y.Floor, v.z.Floor)
  }

  lemma ScaleMonotone(x: real, y: real, period: real, nGrid: nat, fDelta: real)
    requires period > 0.0 && x <= y
    ensures Scale1(x, period, nGrid, fDelta) <= Scale1(y, period, nGrid, fDelta)
  {
    var inv := 1.0 / period;
    ProductPositive(y - x, inv);
    assert (y - x) * inv == y * inv - x * inv;
    ProductPositive(y * inv - x * inv, nGrid as real);
    assert (y * inv + 0.5) * nGrid as real - (x * inv + 0.5) * nGrid as real == (y * inv - x * inv) * nGrid as real;
  }

  lemma ScaleInGrid(x: real, period: real, nGrid: nat, fDelta: real)
    requires period > 0.0 && -period <= 2.0 * x <= period && 0.0 <= fDelta < 1.0
    ensures 0.0 <= Scale1(x, period, nGrid, fDelta) < nGrid as real + 1.0
    ensures 0 <= Scale1(x, period, nGrid, fDelta).Floor <= nGrid
  {
    var half := period / 2.0;
    assert half * (1.0 / period) == 0.5 && (-half) * (1.0 / period) == -0.5;
    ScaleMonotone(x, half, period, nGrid, fDelta);
    ScaleMonotone(-half, x, period, nGrid, fDelta);
    assert Scale1(half, period, nGrid, fDelta) == nGrid as real + fDelta;
    assert Scale1(-half, period, nGrid, fDelta) == fDelta;
  }

  /** The weights of a particle on the infinite grid. */
  function SpreadOf(box: Box, order: nat, p: Particle): (s: Spread)
    requires box.period.x > 0.0 && box.period.y > 0.0 && box.period.z > 0.0 && 1 <= order <= 4
    ensures |s.x.H| == |s.y.H| == |s.z.H| == s.order == order
  {
    var r := Scale(box, p.pos);
    Spread(order, WeightsOf(order, r.x), WeightsOf(order, r.y), WeightsOf(order, r.z), p.mass)
  }

  /** The weights in a subcube that starts at `lower`. */
  function LocalSpread(box: Box, order: nat, p: Particle, lower: Vec<int>): (s: Spread)
    requires box.period.x > 0.0 && box.period.y > 0.0 && box.period.z > 0.0 && 1 <= order <= 4
    ensures |s.x.H| == |s.y.H| == |s.z.H| == s.order == order
  {
    var r := Scale(box, p.pos);
    Spread(order, WeightsOf(order, r.x - lower.x as real), WeightsOf(order, r.y - lower.y as real),
           WeightsOf(order, r.z - lower.z as real), p.mass)
  }

  lemma SpreadIsOk(box: Box, order: nat, p: Particle, lower: Vec<int>)
    requires BoxOk(box) && 1 <= order <= 4 && p.mass >= 0.0
    ensures SpreadOk(LocalSpread(box, order, p, lower))
  {
    var r := Scale(box, p.pos);
    WeightsSumToOne(order, r.x - lower.x as real);
    WeightsSumToOne(order, r.y - lower.y as real);
    WeightsSumToOne(order, r.z - lower.z as real);
    hide WeightsOf;
  }

  lemma ShiftedSpread(box: Box, order: nat, p: Particle, lower: Vec<int>)
    requires BoxOk(box) && 1 <= order <= 4
    ensures var s, t := LocalSpread(box, order, p, lower), SpreadOf(box, order, p);
            && s.x == t.x.(i := t.x.i - lower.x) && s.y == t.y.(i := t.y.i - lower.y)
               && s.z == t.z.(i := t.z.i - lower.z)
            && s.mass == t.mass
  {
    var r := Scale(box, p.pos);
    WeightsShift(order, r.x, lower.x);
    WeightsShift(order, r.y, lower.y);
    WeightsShift(order, r.z, lower.z);
    hide WeightsOf;
  }

  /** Working in a subcube does not change what a particle contributes. */
  lemma {:induction false} LocalIsGlobal(box: Box, order: nat, p: Particle, lower: Vec<int>, f: Form)
    requires BoxOk(box) && 1 <= order <= 4
    ensures Share(LocalSpread(box, order, p, lower), Shifted(lower, f), order)
            == Share(SpreadOf(box, order, p), f, order)
  {
    ShiftedSpread(box, order, p, lower);
    hide Scale, LocalSpread, SpreadOf, Share;
    SameShare(LocalSpread(box, order, p, lower), Shifted(lower, f), SpreadOf(box, order, p), f, order);
  }

  // ----- subcubes -----

  predicate NotNegative(s: seq<real>, n: nat)
    requires n <= |s|
  {
    forall q | 0 <= q < n :: s[q] >= 0.0
  }

  /** The cells of a spread lie inside a block. */
  predicate Inside(s: Spread, shape: Vec<nat>) {
    && 0 <= s.x.i && s.x.i + s.order <= shape.x
    && 0 <= s.y.i && s.y.i + s.order <= shape.y
    && 0 <= s.z.i && s.z.i + s.order <= shape.z
  }

  /** A form on the memory of a block, seen as a form on cells. */
  function OnBlock(shape: Vec<nat>, psi: nat -> real): Form {
    (x, y, z) => if 0 <= x && 0 <= y && 0 <= z then psi(Index(shape, x, y, z)) else 0.0
  }

  lemma {:induction false} BlockIsShifted(s: Spread, shape: Vec<nat>, lower: Vec<int>, f: Form)
    requires SpreadOk(s) && Inside(s, shape)
    ensures Share(s, OnBlock(shape, Local(shape, lower, f)), s.order) == Share(s, Shifted(lower, f), s.order)
  {
    var g := OnBlock(shape, Local(shape, lower, f));
    forall i: nat, j: nat, k: nat | i < s.order && j < s.order && k < s.order
      ensures At(s, g, i, j, k) == At(s, Shifted(lower, f), i, j, k)
    {
      IndexOk(shape, s.x.i + i, s.y.i + j, s.z.i + k);
    }
    SameShare(s, g, s, Shifted(lower, f), s.order);
  }

  /** A subcube around the positions between two corners, with a margin for the weights. */
  function SubcubeLower(order: nat, lower: Vec<real>): Vec<int> {
    var v := Floor(lower);
    Vec(v.x - order / 2, v.y - order / 2, v.z - order / 2)
  }

  function SubcubeUpper(order: nat, upper: Vec<real>): Vec<int> {
    var v := Floor(upper);
    Vec(v.x + order / 2, v.y + order / 2, v.z + order / 2)
  }

  predicate Below3(a: Vec<real>, b: Vec<real>) {
    a.x <= b.x && a.y <= b.y && a.z <= b.z
  }

  /** One wrap is enough for every cell of the block. */
  predicate Wrappable(shape: Vec<nat>, lower: Vec<int>, nGrid: nat) {
    && 0 <= lower.x + nGrid && lower.x + shape.x <= 2 * nGrid
    && 0 <= lower.y + nGrid && lower.y + shape.y <= 2 * nGrid
    && 0 <= lower.z + nGrid && lower.z + shape.z <= 2 * nGrid
  }

  /** All indices written for a particle between the corners lie inside the subcube. */
  lemma WeightsInSubcube(box: Box, order: nat, p: Particle, lower: Vec<real>, upper: Vec<real>)
    requires BoxOk(box) && 1 <= order <= 4
    requires Below3(lower, Scale(box, p.pos)) && Below3(Scale(box, p.pos), upper)
    ensures var lo, hi := SubcubeLower(order, lower), SubcubeUpper(order, upper);
            && lo.x <= hi.x && lo.y <= hi.y && lo.z <= hi.z
            && Inside(LocalSpread(box, order, p, lo), Vec(hi.x - lo.x + 1, hi.y - lo.y + 1, hi.z - lo.z + 1))
  {
    var lo := SubcubeLower(order, lower);
    var r := Scale(box, p.pos);
    WeightsShift(order, r.x, lo.x);
    WeightsShift(order, r.y, lo.y);
    WeightsShift(order, r.z, lo.z);
    WeightsNearby(order, r.x);
    WeightsNearby(order, r.y);
    WeightsNearby(order, r.z);
    hide WeightsOf;
  }

  /** One wrap is enough for every cell of the subcube of the tree cell from a to b. */
  ghost predicate WrapsOnce(box: Box, order: nat, a: Vec<real>, b: Vec<real>)
    requires BoxOk(box)
  {
    var lo, hi := SubcubeLower(order, Scale(box, a)), SubcubeUpper(order, Scale(box, b));
    && lo.x <= hi.x && lo.y <= hi.y && lo.z <= hi.z
    && Wrappable(Vec(hi.x - lo.x + 1, hi.y - lo.y + 1, hi.z - lo.z + 1), lo, box.nGrid)
  }

  /** The subcube of a tree cell in the box can be wrapped. */
  lemma SubcubeWrappable(box: Box, order: nat, a: Vec<real>, b: Vec<real>)
    requires BoxOk(box) && box.nGrid > order / 2 && InBox(box, a) && InBox(box, b) && Below3(a, b)
    ensures Below3(Scale(box, a), Scale(box, b)) && WrapsOnce(box, order, a, b)
  {
    ScaleInGrid(a.x, box.period.x, box.nGrid, box.fDelta);
    ScaleInGrid(a.y, box.period.y, box.nGrid, box.fDelta);
    ScaleInGrid(a.z, box.period.z, box.nGrid, box.fDelta);
    ScaleInGrid(b.x, box.period.x, box.nGrid, box.fDelta);
    ScaleInGrid(b.y, box.period.y, box.nGrid, box.fDelta);
    ScaleInGrid(b.z, box.period.z, box.nGrid, box.fDelta);
    ScaleMonotone3(box, a, b);
  }

  /** One wrap is enough for all tree cells in the box exactly if the grid has more than order/2 cells per side. */
  lemma WrapsOnceIff(box: Box, order: nat)
    requires BoxOk(box)
    ensures (forall a, b | InBox(box, a) && InBox(box, b) && Below3(a, b) :: WrapsOnce(box, order, a, b))
       <==> box.nGrid > order / 2
  {
    if box.nGrid > order / 2 {
      forall a, b | InBox(box, a) && InBox(box, b) && Below3(a, b) ensures WrapsOnce(box, order, a, b) {
        SubcubeWrappable(box, order, a, b);
      }
    } else {
      CornerNeedsMore(box, order);
    }
  }

  /** On a smaller grid, the upper corner of the box reaches a cell two periods up. */
  lemma CornerNeedsMore(box: Box, order: nat)
    requires BoxOk(box) && box.nGrid <= order / 2
    ensures var a := Vec(box.period.x / 2.0, box.period.y / 2.0, box.period.z / 2.0);
            InBox(box, a) && !WrapsOnce(box, order, a, a)
  {
    var half := box.period.x / 2.0;
    assert half * (1.0 / box.period.x) == 0.5;
    assert Scale1(half, box.period.x, box.nGrid, box.fDelta) == box.nGrid as real + box.fDelta;
  }

  lemma ScaleMonotone3(box: Box, a: Vec<real>, b: Vec<real>)
    requires BoxOk(box) && Below3(a, b)
    ensures Below3(Scale(box, a), Scale(box, b))
  {
    ScaleMonotone(a.x, b.x, box.period.x, box.nGrid, box.fDelta);
    ScaleMonotone(a.y, b.y, box.period.y, box.nGrid, box.fDelta);
    ScaleMonotone(a.z, b.z, box.period.z, box.nGrid, box.fDelta);
  }

  function Contribution(box: Box, order: nat, p: Particle, f: Form): real
    requires box.period.x > 0.0 && box.period.y > 0.0 && box.period.z > 0.0 && 1 <= order <= 4
  {
    Share(SpreadOf(box, order, p), f, order)
  }

  /** The contributions of the particles from..upto. */
  function ShareAll(box: Box, order: nat, ps: seq<Particle>, from: nat, upto: nat, f: Form): real
    requires box.period.x > 0.0 && box.period.y > 0.0 && box.period.z > 0.0 && 1 <= order <= 4
    requires from <= upto <= |ps|
  {
    if from == upto then 0.0
        else ShareAll(box, order, ps, from, upto - 1, f) + Contribution(box, order, ps[upto - 1], f)
  }

  lemma {:induction false} ShareAllSplit(box: Box, order: nat, ps: seq<Particle>, from: nat, mid: nat, upto: nat,
                                         f: Form)
    requires box.period.x > 0.0 && box.period.y > 0.0 && box.period.z > 0.0 && 1 <= order <= 4
    requires from <= mid <= upto <= |ps|
    ensures ShareAll(box, order, ps, from, upto, f) == ShareAll(box, order, ps, from, mid, f)
            + ShareAll(box, order, ps, mid, upto, f)
  {
    hide Contribution;
    if mid < upto { ShareAllSplit(box, order, ps, from, mid, upto - 1, f); }
  }

  // ----- assign: what its loops have done to a block, for every form -----

  ghost predicate SameBlock(d0: seq<real>, d: seq<real>, shape: Vec<nat>) {
    |d| == |d0| >= Size(shape) && NotNegative(d, Size(shape))
  }

  ghost predicate RowTo(d0: seq<real>, d: seq<real>, s: Spread, shape: Vec<nat>, i: nat, j: nat, k: nat) {
    && i < |s.x.H| && j < |s.y.H| && k <= |s.z.H| && SameBlock(d0, d, shape)
    && forall psi: nat -> real ::
       Dot(d, Size(shape), psi) == Dot(d0, Size(shape), psi) + Row(s, OnBlock(shape, psi), i, j, k)
  }

  ghost predicate PlaneTo(d0: seq<real>, d: seq<real>, s: Spread, shape: Vec<nat>, i: nat, j: nat) {
    && i < |s.x.H| && j <= |s.y.H| && SameBlock(d0, d, shape)
    && forall psi: nat -> real ::
       Dot(d, Size(shape), psi) == Dot(d0, Size(shape), psi) + Plane(s, OnBlock(shape, psi), i, j)
  }

  ghost predicate ShareTo(d0: seq<real>, d: seq<real>, s: Spread, shape: Vec<nat>, i: nat) {
    && i <= |s.x.H| && SameBlock(d0, d, shape)
    && forall psi: nat -> real ::
       Dot(d, Size(shape), psi) == Dot(d0, Size(shape), psi) + Share(s, OnBlock(shape, psi), i)
  }

  lemma NothingYet(d: seq<real>, s: Spread, shape: Vec<nat>)
    requires SameBlock(d, d, shape)
    ensures ShareTo(d, d, s, shape, 0)
    ensures forall i: nat | i < |s.x.H| :: PlaneTo(d, d, s, shape, i, 0)
    ensures forall i: nat, j: nat | i < |s.x.H| && j < |s.y.H| :: RowTo(d, d, s, shape, i, j, 0)
  {
  }

  lemma RowMore(d0: seq<real>, d: seq<real>, s: Spread, shape: Vec<nat>, i: nat, j: nat, k: nat)
    requires SpreadOk(s) && Inside(s, shape) && RowTo(d0, d, s, shape, i, j, k) && k < s.order
    ensures var q := Index(shape, s.x.i + i, s.y.i + j, s.z.i + k);
            q < Size(shape) <= |d| && RowTo(d0, d[q := d[q] + Coefficient(s, i, j, k)], s, shape, i, j, k + 1)
  {
    IndexOk(shape, s.x.i + i, s.y.i + j, s.z.i + k);
    CoefficientPositive(s, i, j, k);
    var q := Index(shape, s.x.i + i, s.y.i + j, s.z.i + k);
    hide Size, Index, Coefficient;
    var d' := d[q := d[q] + Coefficient(s, i, j, k)];
    forall psi: nat -> real
      ensures Dot(d', Size(shape), psi) == Dot(d0, Size(shape), psi) + Row(s, OnBlock(shape, psi), i, j, k + 1)
    {
      DotUpdate(d, Size(shape), psi, q, Coefficient(s, i, j, k));
    }
  }

  lemma PlaneMore(d0: seq<real>, d: seq<real>, d': seq<real>, s: Spread, shape: Vec<nat>, i: nat, j: nat)
    requires PlaneTo(d0, d, s, shape, i, j) && RowTo(d, d', s, shape, i, j, |s.z.H|)
    ensures PlaneTo(d0, d', s, shape, i, j + 1)
  {
  }

  lemma ShareMore(d0: seq<real>, d: seq<real>, d': seq<real>, s: Spread, shape: Vec<nat>, i: nat)
    requires ShareTo(d0, d, s, shape, i) && PlaneTo(d, d', s, shape, i, |s.y.H|)
    ensures ShareTo(d0, d', s, shape, i + 1)
  {
  }

  /** assign: the mass of one particle into the subcube; every index is inside it. */
  method Assign(data: array<real>, shape: Vec<nat>, s: Spread)
    requires SpreadOk(s) && Inside(s, shape) && Size(shape) <= data.Length && NotNegative(data[..], Size(shape))
    modifies data
    ensures ShareTo(old(data[..]), data[..], s, shape, s.order)
  {
    hide ShareTo, PlaneTo, RowTo, NotNegative, Coefficient, Index, Size, SameBlock;
    ghost var d0 := data[..];
    assert SameBlock(d0, d0, shape) by { assert data.Length == |d0|; BlockStart(d0, shape); }
    NothingYet(d0, s, shape);
    for i := 0 to s.order
      invariant ShareTo(d0, data[..], s, shape, i)
    {
      ghost var d1 := data[..];
      StillBlock(d0, d1, s, shape, i);
      NothingYet(d1, s, shape);
      for j := 0 to s.order
        invariant PlaneTo(d1, data[..], s, shape, i, j)
      {
        ghost var d2 := data[..];
        StillBlockPlane(d1, d2, s, shape, i, j);
        NothingYet(d2, s, shape);
        for k := 0 to s.order
          invariant RowTo(d2, data[..], s, shape, i, j, k)
        {
          ghost var d := data[..];
          RowMore(d2, d, s, shape, i, j, k);
          var q := Index(shape, s.x.i + i, s.y.i + j, s.z.i + k);
          data[q] := data[q] + Coefficient(s, i, j, k);
          assert data[..] == d[q := d[q] + Coefficient(s, i, j, k)];
        }
        PlaneMore(d1, d2, data[..], s, shape, i, j);
      }
      ShareMore(d0, d1, data[..], s, shape, i);
    }
  }

  lemma BlockStart(d: seq<real>, shape: Vec<nat>)
    requires |d| >= Size(shape) && NotNegative(d, Size(shape))
    ensures SameBlock(d, d, shape)
  {
  }

  lemma StillBlock(d0: seq<real>, d: seq<real>, s: Spread, shape: Vec<nat>, i: nat)
    requires ShareTo(d0, d, s, shape, i)
    ensures SameBlock(d, d, shape)
  {
  }

  lemma StillBlockPlane(d0: seq<real>, d: seq<real>, s: Spread, shape: Vec<nat>, i: nat, j: nat)
    requires PlaneTo(d0, d, s, shape, i, j)
    ensures SameBlock(d, d, shape)
  {
  }

  // ----- the buffer of a subcube and its way to the grid -----

  /** The block holds what the particles from..i contribute to it. */
  ghost predicate Buffered(d: seq<real>, shape: Vec<nat>, lower: Vec<int>, box: Box, order: nat, ps: seq<Particle>,
                           from: nat, i: nat) {
    && BoxOk(box) && 1 <= order <= 4 && from <= i <= |ps| && |d| >= Size(shape) && NotNegative(d, Size(shape))
    && forall f: Form :: Dot(d, Size(shape), Local(shape, lower, f)) == ShareAll(box, order, ps, from, i, f)
  }

  lemma BufferEmpty(d: seq<real>, shape: Vec<nat>, lower: Vec<int>, box: Box, order: nat, ps: seq<Particle>, from: nat)
    requires BoxOk(box) && 1 <= order <= 4 && from <= |ps| && |d| >= Size(shape)
    requires forall q | 0 <= q < Size(shape) :: d[q] == 0.0
    ensures Buffered(d, shape, lower, box, order, ps, from, from)
  {
    forall f: Form ensures Dot(d, Size(shape), Local(shape, lower, f)) == ShareAll(box, order, ps, from, from, f) {
      DotZero(d, Size(shape), Local(shape, lower, f));
    }
  }

  lemma BufferMore(d: seq<real>, d': seq<real>, shape: Vec<nat>, lower: Vec<int>, box: Box, order: nat,
                   ps: seq<Particle>, from: nat, i: nat)
    requires Buffered(d, shape, lower, box, order, ps, from, i) && i < |ps| && ps[i].mass >= 0.0
    requires var s := LocalSpread(box, order, ps[i], lower); Inside(s, shape) && ShareTo(d, d', s, shape, order)
    ensures Buffered(d', shape, lower, box, order, ps, from, i + 1)
  {
    var s := LocalSpread(box, order, ps[i], lower);
    SpreadIsOk(box, order, ps[i], lower);
    hide Size, NotNegative, Inside, Local, OnBlock, Shifted;
    forall f: Form ensures Dot(d', Size(shape), Local(shape, lower, f)) == ShareAll(box, order, ps, from, i + 1, f) {
      BlockIsShifted(s, shape, lower, f);
      LocalIsGlobal(box, order, ps[i], lower, f);
    }
  }

  /** The first q cells of a block have been added to the grid. */
  ghost predicate FlushedTo(g0: seq<real>, g: seq<real>, d: seq<real>, shape: Vec<nat>, lower: Vec<int>, nGrid: nat,
                            q: nat) {
    && |g| == |g0| == Size(Vec(nGrid, nGrid, nGrid)) && q <= |d|
    && forall phi: nat -> real ::
         Dot(g, |g|, phi) == Dot(g0, |g0|, phi) + Dot(d, q, Local(shape, lower, Periodic(nGrid, phi)))
  }

  lemma FlushMore(g0: seq<real>, g: seq<real>, d: seq<real>, shape: Vec<nat>, lower: Vec<int>, nGrid: nat, q: nat)
    requires FlushedTo(g0, g, d, shape, lower, nGrid, q) && q < Size(shape) <= |d| && NotNegative(d, Size(shape))
    requires Wrappable(shape, lower, nGrid)
    ensures d[q] <= 0.0 ==> FlushedTo(g0, g, d, shape, lower, nGrid, q + 1)
    ensures var cell := Target(nGrid, shape, lower, q);
            cell < |g| && FlushedTo(g0, g[cell := g[cell] + d[q]], d, shape, lower, nGrid, q + 1)
  {
    var cell := Target(nGrid, shape, lower, q);
    FlushTo(nGrid, shape, lower, q, _ => 0.0);
    var g' := g[cell := g[cell] + d[q]];
    hide Target, Local, Periodic, Size, Wrappable;
    forall phi: nat -> real
      ensures Dot(g', |g'|, phi) == Dot(g0, |g0|, phi) + Dot(d, q + 1, Local(shape, lower, Periodic(nGrid, phi)))
      ensures d[q] <= 0.0 ==>
                Dot(g, |g|, phi) == Dot(g0, |g0|, phi) + Dot(d, q + 1, Local(shape, lower, Periodic(nGrid, phi)))
    {
      FlushTo(nGrid, shape, lower, q, phi);
      DotUpdate(g, |g|, phi, cell, d[q]);
      MulZero(d[q], phi(cell));
    }
  }

  lemma MulZero(x: real, y: real)
    ensures x == 0.0 ==> Mul(x, y) == 0.0
  {
  }

  /** The grid has received the contributions of the particles from..upto, and nothing else. */
  ghost predicate Received(g0: seq<real>, g: seq<real>, box: Box, order: nat, ps: seq<Particle>, from: nat, upto: nat) {
    && BoxOk(box) && 1 <= order <= 4 && from <= upto <= |ps| && |g| == |g0|
    && forall phi: nat -> real ::
         Dot(g, |g|, phi) == Dot(g0, |g0|, phi) + ShareAll(box, order, ps, from, upto, Periodic(box.nGrid, phi))
  }

  lemma ReceivedNone(g: seq<real>, box: Box, order: nat, ps: seq<Particle>, from: nat)
    requires BoxOk(box) && 1 <= order <= 4 && from <= |ps|
    ensures Received(g, g, box, order, ps, from, from)
  {
  }

  lemma ReceivedBuffer(g0: seq<real>, g: seq<real>, d: seq<real>, shape: Vec<nat>, lower: Vec<int>, box: Box,
                       order: nat, ps: seq<Particle>, from: nat, upto: nat)
    requires Buffered(d, shape, lower, box, order, ps, from, upto)
    requires FlushedTo(g0, g, d, shape, lower, box.nGrid, Size(shape))
    ensures Received(g0, g, box, order, ps, from, upto)
  {
    hide Size, Local, Periodic, NotNegative;
  }

  lemma ReceivedTrans(g0: seq<real>, g1: seq<real>, g2: seq<real>, box: Box, order: nat, ps: seq<Particle>,
                      from: nat, mid: nat, upto: nat)
    requires Received(g0, g1, box, order, ps, from, mid) && Received(g1, g2, box, order, ps, mid, upto)
    ensures Received(g0, g2, box, order, ps, from, upto)
  {
    hide Periodic;
    forall phi: nat -> real
      ensures Dot(g2, |g2|, phi) == Dot(g0, |g0|, phi) + ShareAll(box, order, ps, from, upto, Periodic(box.nGrid, phi))
    {
      ShareAllSplit(box, order, ps, from, mid, upto, Periodic(box.nGrid, phi));
    }
  }

  /** The cell of the periodic grid that cell q of a subcube is added to. */
  function Target(nGrid: nat, shape: Vec<nat>, lower: Vec<int>, q: nat): nat
    requires q < Size(shape) && Wrappable(shape, lower, nGrid)
  {
    var v := Position(shape, q);
    Index(Vec(nGrid, nGrid, nGrid), Wrap(v.x + lower.x, nGrid), Wrap(v.y + lower.y, nGrid), Wrap(v.z + lower.z, nGrid))
  }

  lemma PeriodicAt(nGrid: nat, phi: nat -> real, x: int, y: int, z: int)
    requires InGrid(x, nGrid) && InGrid(y, nGrid) && InGrid(z, nGrid)
    ensures Periodic(nGrid, phi)(x, y, z) == phi(GridCell(nGrid, x, y, z))
    ensures GridCell(nGrid, x, y, z) < Size(Vec(nGrid, nGrid, nGrid))
  {
    IndexOk(Vec(nGrid, nGrid, nGrid), Wrap(x, nGrid), Wrap(y, nGrid), Wrap(z, nGrid));
  }

  lemma LocalAt(shape: Vec<nat>, lower: Vec<int>, f: Form, q: nat)
    requires q < Size(shape)
    ensures var v := Position(shape, q); Local(shape, lower, f)(q) == f(v.x + lower.x, v.y + lower.y, v.z + lower.z)
  {
  }

  lemma InOneWrap(nGrid: nat, shape: Vec<nat>, lower: Vec<int>, v: Vec<nat>)
    requires Wrappable(shape, lower, nGrid) && v.x < shape.x && v.y < shape.y && v.z < shape.z
    ensures InGrid(v.x + lower.x, nGrid) && InGrid(v.y + lower.y, nGrid) && InGrid(v.z + lower.z, nGrid)
  {
  }

  lemma FlushTo(nGrid: nat, shape: Vec<nat>, lower: Vec<int>, q: nat, phi: nat -> real)
    requires q < Size(shape) && Wrappable(shape, lower, nGrid)
    ensures Target(nGrid, shape, lower, q) < Size(Vec(nGrid, nGrid, nGrid))
    ensures Local(shape, lower, Periodic(nGrid, phi))(q) == phi(Target(nGrid, shape, lower, q))
  {
    hide Local, Periodic, Size, Index, Wrap, InGrid, Wrappable;
    var v := Position(shape, q);
    InOneWrap(nGrid, shape, lower, v);
    LocalAt(shape, lower, Periodic(nGrid, phi), q);
    PeriodicAt(nGrid, phi, v.x + lower.x, v.y + lower.y, v.z + lower.z);
  }

  /** A node of the tree: a cell with children iLower and iLower + 1, or a bucket; its particles and bounds. */
  datatype TreeNode = TreeNode(lower: Vec<real>, upper: Vec<real>, iLower: nat, pLower: nat, pUpper: int)

  datatype Tree = Bucket | Cell(left: Tree, right: Tree)

  /** Well-formed nested bounds: node iNode is the root of a tree whose nodes hold consecutive particles, all of
      them inside the bounds of the node, and the bounds inside the box. */
  ghost predicate IsTree(nodes: seq<TreeNode>, ps: seq<Particle>, box: Box, iNode: nat, t: Tree)
    decreases t
  {
    && iNode < |nodes| && NodeOk(nodes[iNode], ps, box)
    && match t
       case Bucket => nodes[iNode].iLower == 0
       case Cell(left, right) =>
         && nodes[iNode].iLower > 0
         && IsTree(nodes, ps, box, nodes[iNode].iLower, left) && IsTree(nodes, ps, box, nodes[iNode].iLower + 1, right)
         && nodes[nodes[iNode].iLower].pLower == nodes[iNode].pLower
         && nodes[nodes[iNode].iLower].pUpper + 1 == nodes[nodes[iNode].iLower + 1].pLower
         && nodes[nodes[iNode].iLower + 1].pUpper == nodes[iNode].pUpper
  }

  ghost predicate NodeOk(nd: TreeNode, ps: seq<Particle>, box: Box) {
    && nd.pLower <= nd.pUpper + 1 <= |ps|
    && InBox(box, nd.lower) && InBox(box, nd.upper) && Below3(nd.lower, nd.upper)
    && forall i | nd.pLower <= i <= nd.pUpper ::
         Below3(nd.lower, ps[i].pos) && Below3(ps[i].pos, nd.upper) && ps[i].mass >= 0.0
  }

  lemma InBoundsInBox(box: Box, nd: TreeNode, ps: seq<Particle>, i: nat)
    requires NodeOk(nd, ps, box) && nd.pLower <= i <= nd.pUpper
    ensures i < |ps| && InBox(box, ps[i].pos) && ps[i].mass >= 0.0
    ensures Below3(nd.lower, ps[i].pos) && Below3(ps[i].pos, nd.upper)
  {
  }

  /** The conversion of a float to an int drops the fraction. */
  function Truncated(x: real): int {
    if x >= 0.0 then x.Floor else -((-x).Floor)
  }

  // ----- the worklist -----

  ghost function TreeSize(t: Tree): nat {
    match t
    case Bucket => 1
    case Cell(left, right) => 1 + TreeSize(left) + TreeSize(right)
  }

  ghost function TotalSize(trees: seq<Tree>): nat {
    if trees == [] then 0 else TotalSize(trees[..|trees| - 1]) + TreeSize(trees[|trees| - 1])
  }

  /** The nodes on the stack hold the particles next..end, the top of the stack first. */
  ghost predicate Work(nodes: seq<TreeNode>, ps: seq<Particle>, box: Box, stack: seq<nat>, trees: seq<Tree>, next: nat,
                       end: int) {
    && |trees| == |stack|
    && (forall i | 0 <= i < |stack| :: IsTree(nodes, ps, box, stack[i], trees[i]))
    && (stack == [] ==> next == end)
    && (stack != [] ==> nodes[stack[|stack| - 1]].pLower == next && nodes[stack[0]].pUpper + 1 == end)
    && forall i | 0 <= i < |stack| - 1 :: nodes[stack[i + 1]].pUpper + 1 == nodes[stack[i]].pLower
  }

  lemma {:induction false} PopNode(nodes: seq<TreeNode>, ps: seq<Particle>, box: Box, stack: seq<nat>,
                                   trees: seq<Tree>, next: nat,
                end: int)
    requires Work(nodes, ps, box, stack, trees, next, end) && stack != []
    ensures var n := |stack| - 1;
            && stack[n] < |nodes| && NodeOk(nodes[stack[n]], ps, box)
               && nodes[stack[n]].pLower == next <= nodes[stack[n]].pUpper + 1
            && InBox(box, nodes[stack[n]].lower) && InBox(box, nodes[stack[n]].upper)
            && Below3(nodes[stack[n]].lower, nodes[stack[n]].upper)
            && Work(nodes, ps, box, stack[..n], trees[..n], nodes[stack[n]].pUpper + 1, end)
            && TotalSize(trees[..n]) < TotalSize(trees)
  {
    assert IsTree(nodes, ps, box, stack[|stack| - 1], trees[|stack| - 1]);
  }

  lemma {:induction false} SplitCell(nodes: seq<TreeNode>, ps: seq<Particle>, box: Box, stack: seq<nat>,
                                     trees: seq<Tree>, next: nat,
                  end: int)
    requires Work(nodes, ps, box, stack, trees, next, end) && stack != []
    requires stack[|stack| - 1] < |nodes| && nodes[stack[|stack| - 1]].iLower != 0
    ensures var n := |stack| - 1; var iLower := nodes[stack[n]].iLower;
            && trees[n].Cell?
            && Work(nodes, ps, box, stack[..n] + [iLower + 1] + [iLower],
                    trees[..n] + [trees[n].right] + [trees[n].left], next, end)
            && TotalSize(trees[..n] + [trees[n].right] + [trees[n].left]) < TotalSize(trees)
  {
    var n := |stack| - 1;
    assert IsTree(nodes, ps, box, stack[n], trees[n]);
    var a, b := trees[..n] + [trees[n].right], trees[..n] + [trees[n].right] + [trees[n].left];
    assert b[..|b| - 1] == a && a[..|a| - 1] == trees[..n];
    hide NodeOk;
  }

  const MAX_SIZE := 100000

  class Pkd {
    const box: Box
    const particles: seq<Particle>
    const nodes: seq<TreeNode>
    var grid: array<real>

    ghost predicate Valid()
      reads this
    {
      BoxOk(box) && grid.Length == Size(Vec(box.nGrid, box.nGrid, box.nGrid))
    }

    /** flush_masses: every cell of the buffer that is not empty goes to its cell on the periodic grid. */
    method FlushMasses(data: array<real>, shape: Vec<nat>, lower: Vec<int>)
      requires Valid() && data != grid && Size(shape) <= data.Length && NotNegative(data[..], Size(shape))
      requires Wrappable(shape, lower, box.nGrid)
      modifies grid
      ensures FlushedTo(old(grid[..]), grid[..], data[..], shape, lower, box.nGrid, Size(shape))
    {
      ghost var g0, d := grid[..], data[..];
      assert FlushedTo(g0, g0, d, shape, lower, box.nGrid, 0);
      hide NotNegative, Wrappable, Size, FlushedTo, Target;
      for q := 0 to Size(shape)
        invariant data[..] == d && FlushedTo(g0, grid[..], d, shape, lower, box.nGrid, q)
      {
        ghost var g := grid[..];
        FlushMore(g0, g, d, shape, lower, box.nGrid, q);
        if data[q] > 0.0 {
          var cell := Target(box.nGrid, shape, lower, q);
          grid[cell] := grid[cell] + data[q];
          assert grid[..] == g[cell := g[cell] + d[q]];
        }
      }
    }

    /** The buffer, cleared. */
    method Clear(data: array<real>, n: nat)
      requires n <= data.Length
      modifies data
      ensures forall q | 0 <= q < n :: data[q] == 0.0
    {
      for q := 0 to n
        invariant forall k | 0 <= k < q :: data[k] == 0.0
      {
        data[q] := 0.0;
      }
    }

    /** All particles of a node through one subcube. */
    method AssignNode(data: array<real>, nd: TreeNode, order: nat, shape: Vec<nat>, lower: Vec<int>)
      requires Valid() && data != grid && 1 <= order <= 4 && NodeOk(nd, particles, box) && Size(shape) <= data.Length
      requires Wrappable(shape, lower, box.nGrid)
      requires var lo, hi := SubcubeLower(order, Scale(box, nd.lower)), SubcubeUpper(order, Scale(box, nd.upper));
               && lower == lo && lo.x <= hi.x && lo.y <= hi.y && lo.z <= hi.z
               && shape == Vec(hi.x - lo.x + 1, hi.y - lo.y + 1, hi.z - lo.z + 1)
      modifies data, grid
      ensures Received(old(grid[..]), grid[..], box, order, particles, nd.pLower, nd.pUpper + 1)
    {
      hide NotNegative, Inside, Size, Wrappable, Scale, SubcubeLower, SubcubeUpper, Buffered, FlushedTo, Received,
          ShareTo;
      ghost var g0 := grid[..];
      NodeRange(box, nd, particles);
      Clear(data, Size(shape));
      BufferEmpty(data[..], shape, lower, box, order, particles, nd.pLower);
      for i := nd.pLower to nd.pUpper + 1
        invariant Buffered(data[..], shape, lower, box, order, particles, nd.pLower, i) && grid[..] == g0
      {
        ghost var d := data[..];
        var p := particles[i];
        InSubcube(box, order, particles, i, nd);
        BufferBlock(d, shape, lower, box, order, particles, nd.pLower, i);
        Assign(data, shape, LocalSpread(box, order, p, lower));
        BufferMore(d, data[..], shape, lower, box, order, particles, nd.pLower, i);
      }
      BufferBlock(data[..], shape, lower, box, order, particles, nd.pLower, nd.pUpper + 1);
      FlushMasses(data, shape, lower);
      ReceivedBuffer(g0, grid[..], data[..], shape, lower, box, order, particles, nd.pLower, nd.pUpper + 1);
    }

    /** A bucket that is too large for one subcube: one particle at a time. */
    method AssignHuge(data: array<real>, nd: TreeNode, order: nat)
      requires Valid() && data != grid && 1 <= order <= 4 && NodeOk(nd, particles, box) && data.Length >= 125
      requires box.nGrid > order / 2
      modifies data, grid
      ensures Received(old(grid[..]), grid[..], box, order, particles, nd.pLower, nd.pUpper + 1)
    {
      hide NotNegative, Inside, Wrappable, Scale, Size, Buffered, FlushedTo, Received, ShareTo;
      ghost var g0 := grid[..];
      NodeRange(box, nd, particles);
      ReceivedNone(g0, box, order, particles, nd.pLower);
      for i := nd.pLower to nd.pUpper + 1
        invariant Received(g0, grid[..], box, order, particles, nd.pLower, i)
      {
        ghost var g := grid[..];
        InBoundsInBox(box, nd, particles, i);
        var p := particles[i];
        var r := Scale(box, p.pos);
        var lower := Vec(Truncated(r.x) - order / 2, Truncated(r.y) - order / 2, Truncated(r.z) - order / 2);
        var n := 2 * (order / 2) + 1;
        var shape := Vec(n, n, n);
        OwnSubcube(box, order, p);
        Clear(data, Size(shape));
        ghost var d := data[..];
        BufferEmpty(d, shape, lower, box, order, particles, i);
        BufferBlock(d, shape, lower, box, order, particles, i, i);
        SpreadIsOk(box, order, p, lower);
        Assign(data, shape, LocalSpread(box, order, p, lower));
        BufferMore(d, data[..], shape, lower, box, order, particles, i, i);
        BufferBlock(data[..], shape, lower, box, order, particles, i, i + 1);
        FlushMasses(data, shape, lower);
        ReceivedBuffer(g, grid[..], data[..], shape, lower, box, order, particles, i, i + 1);
        ReceivedTrans(g0, g, grid[..], box, order, particles, nd.pLower, i, i + 1);
      }
    }

    /** pkdAssignMass: whatever the tree, the grid receives from each particle below the root what that particle
        alone contributes on the periodic grid, once. */
    method AssignMass(iLocalRoot: nat, order: nat, ghost t: Tree)
      requires Valid() && 1 <= order <= 4 && box.nGrid > order / 2 && IsTree(nodes, particles, box, iLocalRoot, t)
      modifies grid
      ensures Valid() && grid == old(grid)
      ensures Received(old(grid[..]), grid[..], box, order, particles, nodes[iLocalRoot].pLower,
                       nodes[iLocalRoot].pUpper + 1)
    {
      hide Scale, SubcubeLower, SubcubeUpper, Size, IsTree, TotalSize, Wrappable, Received, NodeOk, Work;
      OneTree(nodes, particles, box, iLocalRoot, t);
      ghost var g0, first, end := grid[..], nodes[iLocalRoot].pLower, nodes[iLocalRoot].pUpper + 1;
      var data := new real[MAX_SIZE](_ => 0.0);
      var stack: seq<nat> := [iLocalRoot];
      ghost var trees, next := [t], first;
      ReceivedNone(g0, box, order, particles, first);
      while stack != []
        invariant Valid() && grid == old(grid) && first <= next
        invariant |trees| == |stack| && Work(nodes, particles, box, stack, trees, next, end)
        invariant Received(g0, grid[..], box, order, particles, first, next)
        decreases TotalSize(trees)
      {
        ghost var g := grid[..];
        var n := |stack| - 1;
        PopNode(nodes, particles, box, stack, trees, next, end);
        var kdn := nodes[stack[n]];
        SubcubeWrappable(box, order, kdn.lower, kdn.upper);
        var ilower, iupper := SubcubeLower(order, Scale(box, kdn.lower)), SubcubeUpper(order, Scale(box, kdn.upper));
        var ishape := Vec(iupper.x - ilower.x + 1, iupper.y - ilower.y + 1, iupper.z - ilower.z + 1);
        if Size(ishape) > MAX_SIZE && kdn.iLower != 0 {
          SplitCell(nodes, particles, box, stack, trees, next, end);
          stack := stack[..n] + [kdn.iLower + 1] + [kdn.iLower];
          trees := trees[..n] + [trees[n].right] + [trees[n].left];
        } else {
          if Size(ishape) > MAX_SIZE {
            AssignHuge(data, kdn, order);
          } else {
            AssignNode(data, kdn, order, ishape, ilower);
          }
          ReceivedTrans(g0, g, grid[..], box, order, particles, first, next, kdn.pUpper + 1);
          stack := stack[..n];
          trees := trees[..n];
          next := kdn.pUpper + 1;
        }
      }
      NoWork(nodes, particles, box, trees, next, end);
    }
  }

  lemma NoWork(nodes: seq<TreeNode>, ps: seq<Particle>, box: Box, trees: seq<Tree>, next: nat, end: int)
    requires Work(nodes, ps, box, [], trees, next, end)
    ensures next == end
  {
  }

  lemma NodeRange(box: Box, nd: TreeNode, ps: seq<Particle>)
    requires NodeOk(nd, ps, box)
    ensures nd.pLower <= nd.pUpper + 1 <= |ps|
  {
  }

  lemma BufferBlock(d: seq<real>, shape: Vec<nat>, lower: Vec<int>, box: Box, order: nat, ps: seq<Particle>, from: nat,
                    i: nat)
    requires Buffered(d, shape, lower, box, order, ps, from, i)
    ensures |d| >= Size(shape) && NotNegative(d, Size(shape))
  {
  }

  lemma {:induction false} OneTree(nodes: seq<TreeNode>, ps: seq<Particle>, box: Box, iNode: nat, t: Tree)
    requires IsTree(nodes, ps, box, iNode, t)
    ensures iNode < |nodes| && nodes[iNode].pLower <= nodes[iNode].pUpper + 1 <= |ps|
    ensures Work(nodes, ps, box, [iNode], [t], nodes[iNode].pLower, nodes[iNode].pUpper + 1)
  {
  }

  lemma InSubcube(box: Box, order: nat, ps: seq<Particle>, i: nat, nd: TreeNode)
    requires BoxOk(box) && 1 <= order <= 4 && NodeOk(nd, ps, box) && nd.pLower <= i <= nd.pUpper
    ensures i < |ps| && ps[i].mass >= 0.0
    ensures var lo, hi := SubcubeLower(order, Scale(box, nd.lower)), SubcubeUpper(order, Scale(box, nd.upper));
            && lo.x <= hi.x && lo.y <= hi.y && lo.z <= hi.z
            && Inside(LocalSpread(box, order, ps[i], lo), Vec(hi.x - lo.x + 1, hi.y - lo.y + 1, hi.z - lo.z + 1))
            && SpreadOk(LocalSpread(box, order, ps[i], lo))
  {
    InBoundsInBox(box, nd, ps, i);
    ScaleMonotone3(box, nd.lower, ps[i].pos);
    ScaleMonotone3(box, ps[i].pos, nd.upper);
    SpreadIsOk(box, order, ps[i], SubcubeLower(order, Scale(box, nd.lower)));
    hide Scale, Inside, SubcubeLower, SubcubeUpper, SpreadOk;
    WeightsInSubcube(box, order, ps[i], Scale(box, nd.lower), Scale(box, nd.upper));
  }

  /** The subcube of a single particle; in the box the truncation is the floor. */
  lemma OwnSubcube(box: Box, order: nat, p: Particle)
    requires BoxOk(box) && 1 <= order <= 4 && box.nGrid > order / 2 && InBox(box, p.pos)
    ensures var r := Scale(box, p.pos);
            var lower := Vec(Truncated(r.x) - order / 2, Truncated(r.y) - order / 2, Truncated(r.z) - order / 2);
            var n := 2 * (order / 2) + 1;
            && Inside(LocalSpread(box, order, p, lower), Vec(n, n, n)) && Wrappable(Vec(n, n, n), lower, box.nGrid)
            && Size(Vec(n, n, n)) <= 125
  {
    OwnFloor(box, p);
    SubcubeWrappable(box, order, p.pos, p.pos);
    hide Scale, Inside, Wrappable, Size, LocalSpread, Truncated;
    var r := Scale(box, p.pos);
    WeightsInSubcube(box, order, p, r, r);
    SmallBlock(2 * (order / 2) + 1);
  }

  lemma SmallBlock(n: nat)
    requires n == 1 || n == 3 || n == 5
    ensures Size(Vec(n, n, n)) <= 125
  {
  }

  lemma OwnFloor(box: Box, p: Particle)
    requires BoxOk(box) && InBox(box, p.pos)
    ensures var r := Scale(box, p.pos);
            Truncated(r.x) == r.x.Floor && Truncated(r.y) == r.y.Floor && Truncated(r.z) == r.z.Floor
  {
    ScaleInGrid(p.pos.x, box.period.x, box.nGrid, box.fDelta);
    ScaleInGrid(p.pos.y, box.period.y, box.nGrid, box.fDelta);
    ScaleInGrid(p.pos.z, box.period.z, box.nGrid, box.fDelta);
  }

  // ----- conservation of mass -----

  function MassOf(ps: seq<Particle>, from: nat, upto: nat): real
    requires from <= upto <= |ps|
  {
    if from == upto then 0.0 else MassOf(ps, from, upto - 1) + ps[upto - 1].mass
  }

  /** Every cell that a particle in the box reaches is on the grid after one wrap. */
  lemma ReachesGrid(x: real, period: real, nGrid: nat, fDelta: real, order: nat, i: nat)
    requires period > 0.0 && -period <= 2.0 * x <= period && 0.0 <= fDelta < 1.0
    requires 1 <= order <= 4 && nGrid > order / 2 && i < order
    ensures InGrid(WeightsOf(order, Scale1(x, period, nGrid, fDelta)).i + i, nGrid)
  {
    ScaleInGrid(x, period, nGrid, fDelta);
    WeightsNearby(order, Scale1(x, period, nGrid, fDelta));
    hide WeightsOf, Scale1;
  }

  lemma ContributionTotal(box: Box, order: nat, p: Particle)
    requires BoxOk(box) && 1 <= order <= 4 && box.nGrid > order / 2 && InBox(box, p.pos)
    ensures Contribution(box, order, p, Periodic(box.nGrid, AllCells())) == p.mass
  {
    var r, s, f := Scale(box, p.pos), SpreadOf(box, order, p), Periodic(box.nGrid, AllCells());
    WeightsSumToOne(order, r.x);
    WeightsSumToOne(order, r.y);
    WeightsSumToOne(order, r.z);
    hide WeightsOf, Scale1;
    forall i: nat, j: nat, k: nat | i < order && j < order && k < order
      ensures At(s, f, i, j, k) == At(s, Everywhere(), i, j, k)
    {
      ReachesGrid(p.pos.x, box.period.x, box.nGrid, box.fDelta, order, i);
      ReachesGrid(p.pos.y, box.period.y, box.nGrid, box.fDelta, order, j);
      ReachesGrid(p.pos.z, box.period.z, box.nGrid, box.fDelta, order, k);
    }
    SameShare(s, f, s, Everywhere(), order);
    ShareTotal(s, order);
    assert Mul(s.mass, 1.0) == p.mass;
  }

  /** The total on the grid grows by the mass of the particles. */
  lemma {:induction false} ShareAllTotal(box: Box, order: nat, ps: seq<Particle>, from: nat, upto: nat)
    requires BoxOk(box) && 1 <= order <= 4 && box.nGrid > order / 2 && from <= upto <= |ps|
    requires forall i | from <= i < upto :: InBox(box, ps[i].pos)
    ensures ShareAll(box, order, ps, from, upto, Periodic(box.nGrid, AllCells())) == MassOf(ps, from, upto)
  {
    if from < upto {
      ShareAllTotal(box, order, ps, from, upto - 1);
      ContributionTotal(box, order, ps[upto - 1]);
      hide Contribution;
    }
  }

  /** The total on the grid grows by the mass of the particles. */
  lemma {:induction false} MassConserved(g0: seq<real>, g: seq<real>, box: Box, order: nat, ps: seq<Particle>,
                                         from: nat, upto: nat)
    requires Received(g0, g, box, order, ps, from, upto) && box.nGrid > order / 2
    requires forall i | from <= i < upto :: InBox(box, ps[i].pos)
    ensures SumTo(g, |g|) == SumTo(g0, |g0|) + MassOf(ps, from, upto)
  {
    DotAllCells(g, |g|);
    DotAllCells(g0, |g0|);
    ShareAllTotal(box, order, ps, from, upto);
  }

  /** Cell by cell: the grid is the one that assigning each particle on its own would have given. */
  lemma {:induction false} CellsReceived(g0: seq<real>, g: seq<real>, box: Box, order: nat, ps: seq<Particle>,
                                         from: nat, upto: nat,
                      cell: nat)
    requires Received(g0, g, box, order, ps, from, upto) && cell < |g|
    ensures g[cell] == g0[cell] + ShareAll(box, order, ps, from, upto, Periodic(box.nGrid, OneCell(cell)))
  {
    DotOneCell(g, |g|, cell);
    DotOneCell(g0, |g0|, cell);
  }
}
