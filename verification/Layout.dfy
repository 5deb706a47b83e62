/** The memory layout of a particle, field by field, and the size of the particle store in whole pages. */
module Layout {
  import opened Arithmetic

  /** A request for n values of a kind; a structure asks for n bytes. */
  datatype Request = Struct(n: nat) | Doubles(n: nat) | Int64s(n: nat) | Floats(n: nat) | Int32s(n: nat)

  datatype Field = Field(offset: nat, size: nat, align: nat)

  predicate Disjoint(a: Field, b: Field) {
    a.offset + a.size <= b.offset || b.offset + b.size <= a.offset
  }

  /** Inside a particle of the given size, behind the base particle, at a multiple of its alignment. */
  predicate Placed(f: Field, base: nat, size: nat, nAlign: nat) {
    base <= f.offset && f.offset + f.size <= size && 0 < f.align <= nAlign && f.offset % f.align == 0
  }

  /** Fields do not overlap each other or the hole; alignments are 4 or 8. */
  ghost predicate LayoutOk(fields: seq<Field>, base: nat, size: nat, hole: nat, nAlign: nat) {
    && 0 < base <= size && (nAlign == 4 || nAlign == 8)
    && (forall i | 0 <= i < |fields| ::
          Placed(fields[i], base, size, nAlign) && (fields[i].align == 4 || fields[i].align == 8))
    && (forall i, j | 0 <= i < j < |fields| :: Disjoint(fields[i], fields[j]))
    && (hole != 0 ==> Placed(Field(hole, 4, 4), base, size, nAlign))
    && (hole != 0 ==> forall i | 0 <= i < |fields| :: Disjoint(fields[i], Field(hole, 4, 4)))
  }

  /** The size in bytes and the alignment a request needs. */
  function Bytes(r: Request): nat {
    match r
    case Struct(n) => n
    case Doubles(n) => 8 * n
    case Int64s(n) => 8 * n
    case Floats(n) => 4 * n
    case Int32s(n) => 4 * n
  }

  function AlignOf(r: Request): nat {
    match r
    case Floats(_) => 4
    case Int32s(_) => 4
    case _ => 8
  }

  /** When the asserts of the source let a request pass. */
  predicate Passes(r: Request, size: nat, hole: nat) {
    match r
    case Struct(_) => size % 8 == 0
    case Doubles(_) => size % 8 == 0 || (hole == 0 && size % 8 == 4)
    case Int64s(_) => size % 8 == 0 || (hole == 0 && size % 8 == 4)
    case Floats(n) => (n == 1 && hole != 0) || size % 4 == 0
    case Int32s(n) => (n == 1 && hole != 0) || size % 4 == 0
  }

  /** Whether a request can use the hole, and the hole that an aligned request leaves. */
  predicate FillsHole(r: Request, hole: nat) {
    hole != 0 && (r == Floats(1) || r == Int32s(1))
  }

  function HoleAfter(r: Request, size: nat, hole: nat): nat {
    if FillsHole(r, hole) then 0
    else if (r.Doubles? || r.Int64s?) && size % 8 != 0 then size
    else hole
  }

  /** The size only grows by the bytes asked for, and the four bytes of a hole when it is made. */
  function SizeAfter(r: Request, size: nat, hole: nat): nat {
    if FillsHole(r, hole) then size
    else if (r.Doubles? || r.Int64s?) && size % 8 != 0 then size + 4 + Bytes(r)
    else size + Bytes(r)
  }

  /** The bytes that all requests ask for together. */
  function Total(rs: seq<Request>): nat {
    if rs == [] then 0 else Total(rs[..|rs| - 1]) + Bytes(rs[|rs| - 1])
  }

  /** No byte is wasted but those of a hole that is still there. */
  ghost predicate NothingWasted(size: nat, hole: nat, base: nat, total: nat) {
    size == base + total + if hole != 0 then 4 else 0
  }

  lemma WastesNothing(rs: seq<Request>, i: nat, size: nat, hole: nat, base: nat)
    requires i < |rs| && NothingWasted(size, hole, base, Total(rs[..i])) && Passes(rs[i], size, hole)
    ensures NothingWasted(SizeAfter(rs[i], size, hole), HoleAfter(rs[i], size, hole), base, Total(rs[..i + 1]))
  {
    assert rs[..i + 1][..i] == rs[..i];
  }

  /** A sequence of requests passes all asserts. */
  predicate AllPass(rs: seq<Request>, size: nat, hole: nat) {
    rs == [] || (Passes(rs[0], size, hole)
                 && AllPass(rs[1..], SizeAfter(rs[0], size, hole), HoleAfter(rs[0], size, hole)))
  }

  /** A new field behind all others. */
  lemma FieldAppended(fields: seq<Field>, base: nat, size: nat, hole: nat, nAlign: nat, n: nat, align: nat)
    requires LayoutOk(fields, base, size, hole, nAlign) && (align == 4 || align == 8) && size % align == 0
    ensures LayoutOk(fields + [Field(size, n, align)], base, size + n, hole, if nAlign < align then align else nAlign)
  {
  }

  /** Four bytes skipped to reach an aligned offset are the hole. */
  lemma HoleMade(fields: seq<Field>, base: nat, size: nat, nAlign: nat)
    requires LayoutOk(fields, base, size, 0, nAlign) && size % 8 == 4
    ensures LayoutOk(fields, base, size + 4, size, nAlign) && (size + 4) % 8 == 0
  {
    HalfWay(size);
    var hole := Field(size, 4, 4);
    assert Placed(hole, base, size + 4, nAlign);
    forall i | 0 <= i < |fields| ensures Placed(fields[i], base, size + 4, nAlign) && Disjoint(fields[i], hole) {
      assert Placed(fields[i], base, size, nAlign);
      hide *;
      FieldBefore(fields[i], base, size, nAlign, hole);
    }
  }

  lemma FieldBefore(f: Field, base: nat, size: nat, nAlign: nat, hole: Field)
    requires Placed(f, base, size, nAlign) && hole.offset == size
    ensures Placed(f, base, size + 4, nAlign) && Disjoint(f, hole)
  {
  }

  lemma HalfWay(size: nat)
    requires size % 8 == 4
    ensures size % 4 == 0 && (size + 4) % 8 == 0
  {
  }

  /** The hole is filled and gone. */
  lemma HoleFilled(fields: seq<Field>, base: nat, size: nat, hole: nat, nAlign: nat)
    requires LayoutOk(fields, base, size, hole, nAlign) && hole != 0
    ensures LayoutOk(fields + [Field(hole, 4, 4)], base, size, 0, nAlign)
  {
  }

  /** (x + a - 1) & ~(a - 1) for a power of two a: the next multiple of a. */
  function RoundUp(x: nat, a: nat): (r: nat)
    requires a > 0
    ensures r % a == 0 && x <= r < x + a
  {
    RoundDownMultiple(x + a - 1, a);
    x + a - 1 - (x + a - 1) % a
  }

  lemma RoundDownMultiple(x: nat, a: nat)
    requires a > 0
    ensures (x - x % a) % a == 0
  {
    MultipleMod(x / a, 0, a);
    assert x - x % a == x / a * a;
  }

  /** In an array of particles every field of every particle is aligned, and inside its particle. */
  lemma AlignedInEveryParticle(fields: seq<Field>, base: nat, size: nat, hole: nat, nAlign: nat, i: nat, k: nat)
    requires LayoutOk(fields, base, size, hole, nAlign) && i < |fields|
    ensures var stride, f := RoundUp(size, nAlign), fields[i];
            var address := k * stride + f.offset;
            f.align > 0 && address % f.align == 0 && k * stride <= address && address + f.size <= (k + 1) * stride
  {
    var stride, f := RoundUp(size, nAlign), fields[i];
    assert Placed(f, base, size, nAlign) && (f.align == 4 || f.align == 8);
    hide RoundUp, LayoutOk;
    AlignedAt(k, stride, f.offset, f.align, nAlign);
    InStride(k, stride);
  }

  lemma InStride(k: nat, stride: nat)
    ensures (k + 1) * stride == k * stride + stride
  {
  }

  lemma AlignedAt(k: nat, stride: nat, offset: nat, align: nat, nAlign: nat)
    requires (align == 4 || align == 8) && (nAlign == 4 || nAlign == 8) && align <= nAlign
    requires stride % nAlign == 0 && offset % align == 0
    ensures (k * stride + offset) % align == 0
  {
    if align == 4 {
      assert stride % 4 == 0;
      MultiplesOfFour(k, stride, offset);
    } else {
      MultiplesOfEight(k, stride, offset);
    }
  }

  lemma MultiplesOfFour(k: nat, stride: nat, offset: nat)
    requires stride % 4 == 0 && offset % 4 == 0
    ensures (k * stride + offset) % 4 == 0
  {
    var m := stride / 4;
    assert k * stride == (k * m) * 4;
    MultipleMod(k * m, offset, 4);
  }

  lemma MultiplesOfEight(k: nat, stride: nat, offset: nat)
    requires stride % 8 == 0 && offset % 8 == 0
    ensures (k * stride + offset) % 8 == 0
  {
    var m := stride / 8;
    assert k * stride == (k * m) * 8;
    MultipleMod(k * m, offset, 8);
  }

  // ----- pages -----

  predicate Divides(d: nat, x: nat) {
    d > 0 && x % d == 0
  }

  lemma DividesProduct(d: nat, x: nat, q: nat)
    requires Divides(d, x)
    ensures Divides(d, x * q)
  {
    assert x == x / d * d;
    assert x * q == (x / d * q) * d;
    MultipleMod(x / d * q, 0, d);
  }

  lemma DividesSum(d: nat, x: nat, y: nat)
    requires Divides(d, x)
    ensures Divides(d, x + y) <==> Divides(d, y)
  {
    assert x == x / d * d;
    MultipleMod(x / d, y, d);
  }

  /** One step of the algorithm keeps the common divisors. */
  lemma SameDivisors(d: nat, a: nat, b: nat)
    requires a > 0
    ensures Divides(d, a) && Divides(d, b) <==> Divides(d, b % a) && Divides(d, a)
  {
    if Divides(d, a) {
      DividesProduct(d, a, b / a);
      DividesSum(d, a * (b / a), b % a);
      assert a * (b / a) + b % a == b;
    }
  }

  /** gcd: the common divisors of a and b are the divisors of the result. */
  method Gcd(a0: nat, b0: nat) returns (b: nat)
    requires b0 > 0
    ensures b > 0 && forall d: nat :: Divides(d, a0) && Divides(d, b0) <==> Divides(d, b)
  {
    var a: nat := a0;
    b := b0;
    while a != 0
      invariant b > 0 && forall d: nat :: Divides(d, a0) && Divides(d, b0) <==> Divides(d, a) && Divides(d, b)
      decreases a
    {
      forall d: nat ensures Divides(d, a) && Divides(d, b) <==> Divides(d, b % a) && Divides(d, a) {
        SameDivisors(d, a, b);
      }
      var c: nat := a;
      a := b % a;
      b := c;
    }
  }

  /** As many particles as fill whole pages: the pages are the particle size times n, for a common divisor g. */
  lemma PagesFilled(nPageSize: nat, size: nat, g: nat, m: nat)
    requires Divides(g, nPageSize) && Divides(g, size) && nPageSize > 0
    ensures nPageSize / g > 0 && Divides(nPageSize, m * (nPageSize / g) * size)
  {
    var n, k := nPageSize / g, size / g;
    assert nPageSize == n * g && size == k * g;
    assert m * n * size == (m * k) * nPageSize;
    MultipleMod(m * k, 0, nPageSize);
  }

  /** The fewest particles that fill whole pages. */
  ghost predicate LeastFilling(d: nat, nPageSize: nat, size: nat) {
    d > 0 && Divides(nPageSize, d * size) && forall x | 0 < x < d :: !Divides(nPageSize, x * size)
  }

  lemma {:induction false} FindLeast(nPageSize: nat, size: nat, n: nat, from: nat) returns (d: nat)
    requires 0 < from <= n && Divides(nPageSize, n * size) && forall x | 0 < x < from :: !Divides(nPageSize, x * size)
    ensures d <= n && LeastFilling(d, nPageSize, size)
    decreases n - from
  {
    if Divides(nPageSize, from * size) {
      d := from;
    } else {
      d := FindLeast(nPageSize, size, n, from + 1);
    }
  }

  /** Whatever fills whole pages is a multiple of the fewest particles that do. */
  lemma FillingIsMultiple(d: nat, nPageSize: nat, size: nat, m: nat)
    requires LeastFilling(d, nPageSize, size) && Divides(nPageSize, m * size)
    ensures Divides(d, m)
  {
    var q, x := m / d, m % d;
    assert m == q * d + x;
    assert m * size == (d * size) * q + x * size;
    DividesProduct(nPageSize, d * size, q);
    DividesSum(nPageSize, (d * size) * q, x * size);
  }

  lemma ProductDivides(nPageSize: nat, d: nat, k: nat, size: nat)
    requires d > 0 && k > 0 && nPageSize == d * k && Divides(nPageSize, d * size)
    ensures Divides(k, nPageSize) && Divides(k, size)
  {
    var q := d * size / nPageSize;
    assert d * size == q * nPageSize;
    assert q * (d * k) == d * (q * k);
    CancelFactor(d, size, q * k);
    MultipleMod(q, 0, k);
    MultipleMod(d, 0, k);
  }

  lemma CancelFactor(d: nat, x: nat, y: nat)
    requires d > 0 && d * x == d * y
    ensures x == y
  {
    if x < y { Monotone(x + 1, y, d); } else if y < x { Monotone(y + 1, x, d); }
  }

  lemma DividesAtMost(k: nat, g: nat)
    requires Divides(k, g) && g > 0
    ensures k <= g
  {
  }

  lemma EqualFactor(e: nat, g: nat)
    requires 0 < e && 0 < g && e * g <= g
    ensures e == 1
  {
  }

  /** Dividing the page size by the greatest common divisor gives the fewest particles that fill whole pages. */
  lemma GcdGivesLeast(nPageSize: nat, size: nat, g: nat)
    requires nPageSize > 0 && g > 0 && Divides(g, nPageSize) && Divides(g, size)
    requires forall k: nat :: Divides(k, nPageSize) && Divides(k, size) ==> Divides(k, g)
    ensures LeastFilling(nPageSize / g, nPageSize, size)
  {
    var n := nPageSize / g;
    PagesFilled(nPageSize, size, g, 1);
    assert 1 * n * size == n * size;
    var d := FindLeast(nPageSize, size, n, 1);
    FillingIsMultiple(d, nPageSize, size, n);
    var e := n / d;
    assert n == e * d;
    assert nPageSize == n * g == d * (e * g);
    assert e > 0 && e * g > 0;
    ProductDivides(nPageSize, d, e * g, size);
    DividesAtMost(e * g, g);
    EqualFactor(e, g);
  }

  /** nStore -= nStore % n */
  function DownTo(x: nat, n: nat): nat
    requires n > 0
  {
    x - x % n
  }

  lemma DownToIs(x: nat, n: nat)
    requires n > 0
    ensures DownTo(x, n) == x / n * n > x - n
  {
  }

  lemma NextMultiple(n: nat, x: nat, m: nat)
    requires Divides(n, m) && m > x
    ensures DownTo(x + n, n) <= m
  {
    var k := m / n;
    var y := (x + n) / n;
    assert m == k * n && x + n == y * n + (x + n) % n;
    assert (k + 1) * n == k * n + n;
    if k < y { Monotone(k + 1, y, n); } else { Monotone(y, k, n); }
  }

  class Particles {
    const base: nat
    var iParticleSize: nat
    var iParticle32: nat
    var nParticleAlign: nat
    var nStore: nat
    ghost var fields: seq<Field>

    /** The base particle, with or without order. */
    constructor (base: nat)
      requires base > 0
      ensures Valid() && iParticleSize == base && fields == [] && iParticle32 == 0
    {
      this.base := base;
      iParticleSize, iParticle32, nParticleAlign, nStore, fields := base, 0, 4, 0, [];
    }

    ghost predicate Valid()
      reads this
    {
      LayoutOk(fields, base, iParticleSize, iParticle32, nParticleAlign)
    }

    /** What adding a field promises: the new field is where the result says, all others stay. */
    twostate predicate Added(r: Request, iOffset: nat)
      reads this
    {
      && Valid() && fields == old(fields) + [Field(iOffset, Bytes(r), AlignOf(r))]
      && iParticleSize == SizeAfter(r, old(iParticleSize), old(iParticle32))
      && iParticle32 == HoleAfter(r, old(iParticleSize), old(iParticle32))
    }

    /** pkdParticleAddStruct */
    method AddStruct(n: nat) returns (iOffset: nat, ok: bool)
      requires Valid()
      modifies this
      ensures ok <==> Passes(Struct(n), old(iParticleSize), old(iParticle32))
      ensures ok ==> Added(Struct(n), iOffset)
      ensures ok <==> old(iParticleSize) % 8 == 0
      ensures ok ==> iOffset == old(iParticleSize) && iParticleSize == iOffset + n && iParticle32 == old(iParticle32)
      ensures ok ==> nParticleAlign == 8
    {
      iOffset := iParticleSize;
      ok := iOffset % 8 == 0;
      if ok {
        FieldAppended(fields, base, iParticleSize, iParticle32, nParticleAlign, n, 8);
        if nParticleAlign < 8 { nParticleAlign := 8; }
        iParticleSize := iParticleSize + n;
        fields := fields + [Field(iOffset, n, 8)];
      }
    }

    /** pkdParticleAddDouble */
    method AddDouble(n: nat) returns (iOffset: nat, ok: bool)
      requires Valid()
      modifies this
      ensures ok <==> Passes(Doubles(n), old(iParticleSize), old(iParticle32))
      ensures ok ==> Added(Doubles(n), iOffset)
      ensures ok <==> old(iParticleSize) % 8 == 0 || (old(iParticleSize) % 8 == 4 && old(iParticle32) == 0)
      ensures ok && old(iParticleSize) % 8 == 0 ==> iOffset == old(iParticleSize) && iParticle32 == old(iParticle32)
      ensures ok && old(iParticleSize) % 8 == 4 ==>
                iOffset == old(iParticleSize) + 4 && iParticle32 == old(iParticleSize)
      ensures ok ==> iParticleSize == iOffset + 8 * n && nParticleAlign == 8
    {
      iOffset := iParticleSize;
      if iOffset % 8 != 0 {
        if iParticle32 != 0 { return iOffset, false; }
        iParticle32 := iParticleSize;
        iParticleSize := iParticleSize + 4;
        iOffset := iParticleSize;
      }
      ok := iOffset % 8 == 0;
      if ok {
        if iParticleSize != old(iParticleSize) { HoleMade(fields, base, old(iParticleSize), nParticleAlign); }
        FieldAppended(fields, base, iParticleSize, iParticle32, nParticleAlign, 8 * n, 8);
        if nParticleAlign < 8 { nParticleAlign := 8; }
        iParticleSize := iParticleSize + 8 * n;
        fields := fields + [Field(iOffset, 8 * n, 8)];
      }
    }

    /** pkdParticleAddFloat: a single float goes into the hole if there is one. */
    method AddFloat(n: nat) returns (iOffset: nat, ok: bool)
      requires Valid()
      modifies this
      ensures ok <==> Passes(Floats(n), old(iParticleSize), old(iParticle32))
      ensures ok ==> Added(Floats(n), iOffset)
      ensures ok <==> (n == 1 && old(iParticle32) != 0) || old(iParticleSize) % 4 == 0
      ensures if n == 1 && old(iParticle32) != 0
              then iOffset == old(iParticle32) && iParticle32 == 0 && iParticleSize == old(iParticleSize)
              else ok ==> iOffset == old(iParticleSize) && iParticleSize == iOffset + 4 * n
                          && iParticle32 == old(iParticle32)
      ensures nParticleAlign == old(nParticleAlign)
    {
      iOffset := iParticleSize;
      ok := true;
      if n == 1 && iParticle32 != 0 {
        HoleFilled(fields, base, iParticleSize, iParticle32, nParticleAlign);
        iOffset := iParticle32;
        iParticle32 := 0;
        fields := fields + [Field(iOffset, 4, 4)];
      } else {
        ok := iOffset % 4 == 0;
        if ok {
          FieldAppended(fields, base, iParticleSize, iParticle32, nParticleAlign, 4 * n, 4);
          iParticleSize := iParticleSize + 4 * n;
          fields := fields + [Field(iOffset, 4 * n, 4)];
        }
      }
    }

    /** pkdParticleAddInt64 */
    method AddInt64(n: nat) returns (iOffset: nat, ok: bool)
      requires Valid()
      modifies this
      ensures ok <==> Passes(Int64s(n), old(iParticleSize), old(iParticle32))
      ensures ok ==> Added(Int64s(n), iOffset)
      ensures ok <==> old(iParticleSize) % 8 == 0 || (old(iParticleSize) % 8 == 4 && old(iParticle32) == 0)
      ensures ok && old(iParticleSize) % 8 == 0 ==> iOffset == old(iParticleSize) && iParticle32 == old(iParticle32)
      ensures ok && old(iParticleSize) % 8 == 4 ==>
                iOffset == old(iParticleSize) + 4 && iParticle32 == old(iParticleSize)
      ensures ok ==> iParticleSize == iOffset + 8 * n && nParticleAlign == 8
    {
      iOffset := iParticleSize;
      if iOffset % 8 != 0 {
        if iParticle32 != 0 { return iOffset, false; }
        iParticle32 := iParticleSize;
        iParticleSize := iParticleSize + 4;
        iOffset := iParticleSize;
      }
      ok := iOffset % 8 == 0;
      if ok {
        if iParticleSize != old(iParticleSize) { HoleMade(fields, base, old(iParticleSize), nParticleAlign); }
        FieldAppended(fields, base, iParticleSize, iParticle32, nParticleAlign, 8 * n, 8);
        if nParticleAlign < 8 { nParticleAlign := 8; }
        iParticleSize := iParticleSize + 8 * n;
        fields := fields + [Field(iOffset, 8 * n, 8)];
      }
    }

    /** pkdParticleAddInt32 */
    method AddInt32(n: nat) returns (iOffset: nat, ok: bool)
      requires Valid()
      modifies this
      ensures ok <==> Passes(Int32s(n), old(iParticleSize), old(iParticle32))
      ensures ok ==> Added(Int32s(n), iOffset)
      ensures ok <==> (n == 1 && old(iParticle32) != 0) || old(iParticleSize) % 4 == 0
      ensures if n == 1 && old(iParticle32) != 0
              then iOffset == old(iParticle32) && iParticle32 == 0 && iParticleSize == old(iParticleSize)
              else ok ==> iOffset == old(iParticleSize) && iParticleSize == iOffset + 4 * n
                          && iParticle32 == old(iParticle32)
      ensures nParticleAlign == old(nParticleAlign)
    {
      iOffset := iParticleSize;
      ok := true;
      if n == 1 && iParticle32 != 0 {
        HoleFilled(fields, base, iParticleSize, iParticle32, nParticleAlign);
        iOffset := iParticle32;
        iParticle32 := 0;
        fields := fields + [Field(iOffset, 4, 4)];
      } else {
        ok := iOffset % 4 == 0;
        if ok {
          FieldAppended(fields, base, iParticleSize, iParticle32, nParticleAlign, 4 * n, 4);
          iParticleSize := iParticleSize + 4 * n;
          fields := fields + [Field(iOffset, 4 * n, 4)];
        }
      }
    }

    /** Any sequence of requests: if and only if the asserts let it pass, every request gets its own aligned place. */
    method LayOut(rs: seq<Request>) returns (offsets: seq<nat>, ok: bool)
      requires Valid() && fields == [] && iParticleSize == base && iParticle32 == 0
      modifies this
      ensures ok <==> AllPass(rs, old(iParticleSize), old(iParticle32))
      ensures ok ==> Valid() && |offsets| == |rs| == |fields|
      ensures ok ==> forall i | 0 <= i < |rs| :: fields[i] == Field(offsets[i], Bytes(rs[i]), AlignOf(rs[i]))
      ensures ok ==> iParticleSize == base + Total(rs) + if iParticle32 != 0 then 4 else 0
    {
      hide Passes, SizeAfter, HoleAfter, LayoutOk, Bytes, AlignOf;
      offsets, ok := [], true;
      for i := 0 to |rs|
        invariant Valid() && |offsets| == |fields| == i
        invariant AllPass(rs[i..], iParticleSize, iParticle32) <==> AllPass(rs, old(iParticleSize), old(iParticle32))
        invariant forall j | 0 <= j < i :: fields[j] == Field(offsets[j], Bytes(rs[j]), AlignOf(rs[j]))
        invariant NothingWasted(iParticleSize, iParticle32, base, Total(rs[..i]))
      {
        var iOffset;
        ghost var size, hole := iParticleSize, iParticle32;
        assert rs[i..][0] == rs[i] && rs[i..][1..] == rs[i + 1..];
        match rs[i] {
          case Struct(n) => iOffset, ok := AddStruct(n);
          case Doubles(n) => iOffset, ok := AddDouble(n);
          case Int64s(n) => iOffset, ok := AddInt64(n);
          case Floats(n) => iOffset, ok := AddFloat(n);
          case Int32s(n) => iOffset, ok := AddInt32(n);
        }
        if !ok { return; }
        WastesNothing(rs, i, size, hole, base);
        offsets := offsets + [iOffset];
      }
      assert rs[..|rs|] == rs;
    }

    /** The end of pkdInitialize: the particle size is aligned, and the store becomes a whole number of pages that
        holds one particle more than nStore, which is at least what was asked for. */
    method RoundToPages(nPageSize: nat, nRequested: nat)
      requires Valid() && nPageSize > 0
      modifies this`iParticleSize, this`nStore
      ensures iParticleSize == RoundUp(old(iParticleSize), nParticleAlign)
      ensures nStore >= nRequested && Divides(nPageSize, (nStore + 1) * iParticleSize)
      ensures forall m: nat | nRequested < m <= nStore :: !Divides(nPageSize, m * iParticleSize)
      ensures Valid()
    {
      iParticleSize := RoundUp(iParticleSize, nParticleAlign);
      var g := Gcd(nPageSize, iParticleSize);
      var n := nPageSize / g;
      WholePages(nPageSize, iParticleSize, g, nRequested);
      hide RoundUp, Divides, DownTo;
      nStore := nRequested + n;
      nStore := DownTo(nStore, n);
      nStore := nStore - 1;
    }
  }

  lemma NoneBetween(nPageSize: nat, size: nat, n: nat, x: nat)
    requires LeastFilling(n, nPageSize, size)
    ensures forall m: nat | x < m < DownTo(x + n, n) :: !Divides(nPageSize, m * size)
  {
    assert n > 0;
    hide Divides, DownTo, LeastFilling;
    forall m: nat | x < m < DownTo(x + n, n) ensures !Divides(nPageSize, m * size) {
      if Divides(nPageSize, m * size) {
        FillingIsMultiple(n, nPageSize, size, m);
        NextMultiple(n, x, m);
      }
    }
  }

  lemma WholePages(nPageSize: nat, size: nat, g: nat, x: nat)
    requires nPageSize > 0 && g > 0 && Divides(g, nPageSize) && Divides(g, size)
    requires forall k: nat :: Divides(k, nPageSize) && Divides(k, size) ==> Divides(k, g)
    ensures nPageSize / g > 0
    ensures var n := nPageSize / g; var s := DownTo(x + n, n);
            x < s && Divides(nPageSize, s * size) && forall m: nat | x < m < s :: !Divides(nPageSize, m * size)
  {
    var n := nPageSize / g;
    PagesFilled(nPageSize, size, g, 1);
    PagesFilled(nPageSize, size, g, (x + n) / n);
    GcdGivesLeast(nPageSize, size, g);
    hide Divides, DownTo, LeastFilling;
    DownToIs(x + n, n);
    NoneBetween(nPageSize, size, n, x);
  }
}
