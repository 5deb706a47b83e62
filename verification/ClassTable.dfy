/** The table of particle classes: every processor numbers its own classes; the tables are gathered over the
    processor tree, merged, sorted and broadcast, and every particle is renumbered. */
module ClassTable {
  import opened Collections

  const MAX_CLASSES := 256

  datatype Class = Class(fMass: real, fSoft: real, eSpecies: nat)

  /** The class number of a particle and the mass and softening fields of its own, if the memory model has them. */
  datatype Particle = Particle(iClass: nat, fMass: real, fSoft: real)

  datatype Model = Model(bMass: bool, bSoft: bool, bNoParticleOrder: bool)

  /** One processor as a value: its memory model, class table and local particles. */
  datatype Processor = Processor(model: Model, table: seq<Class>, parts: seq<Particle>)

  /** pkdMass, pkdSoft0 and pkdSpecies of a particle. */
  function Meaning(m: Model, table: seq<Class>, p: Particle): Class
    requires table != [] && (!m.bNoParticleOrder ==> p.iClass < |table|)
  {
    var c := table[if m.bNoParticleOrder then 0 else p.iClass];
    Class(if m.bMass then p.fMass else c.fMass, if m.bSoft then p.fSoft else c.fSoft, c.eSpecies)
  }

  /** The part of a class that the memory model does not keep with each particle. */
  function Seen(m: Model, c: Class): Class {
    Class(if m.bMass then 0.0 else c.fMass, if m.bSoft then 0.0 else c.fSoft, c.eSpecies)
  }

  predicate Masked(m: Model, s: seq<Class>) {
    forall i | 0 <= i < |s| :: Seen(m, s[i]) == s[i]
  }

  ghost predicate Ok(v: Processor) {
    && Distinct(v.table) && Masked(v.model, v.table)
    && (!v.model.bNoParticleOrder ==> forall k | 0 <= k < |v.parts| :: v.parts[k].iClass < |v.table|)
  }

  // ----- the order of classes -----

  predicate Less(a: Class, b: Class) {
    if a.fMass < b.fMass then true
    else if a.fMass > b.fMass then false
    else if a.fSoft < b.fSoft then true
    else if a.fSoft > b.fSoft then false
    else a.eSpecies < b.eSpecies
  }

  predicate Ascending(s: seq<Class>) {
    forall i, j | 0 <= i < j < |s| :: Less(s[i], s[j])
  }

  /** By mass, classes of equal mass by softening, and those equal in both by species. */
  lemma AscendingMeans(s: seq<Class>)
    requires Ascending(s)
    ensures forall i, j | 0 <= i < j < |s| ::
              || s[i].fMass < s[j].fMass
              || (s[i].fMass == s[j].fMass && s[i].fSoft < s[j].fSoft)
              || (s[i].fMass == s[j].fMass && s[i].fSoft == s[j].fSoft && s[i].eSpecies < s[j].eSpecies)
  {
  }

  function Insert(c: Class, s: seq<Class>): seq<Class> {
    if s == [] || !Less(s[0], c) then [c] + s else [s[0]] + Insert(c, s[1..])
  }

  /** std::sort with the order of classes. */
  function Sort(s: seq<Class>): seq<Class> {
    if s == [] then [] else Insert(s[0], Sort(s[1..]))
  }

  lemma {:induction false} InsertKeeps(c: Class, s: seq<Class>)
    requires Ascending(s) && c !in s
    ensures Ascending(Insert(c, s)) && Elements(Insert(c, s)) == Elements(s) + {c} && |Insert(c, s)| == |s| + 1
  {
    if s == [] || !Less(s[0], c) {
    } else {
      InsertKeeps(c, s[1..]);
      var r := Insert(c, s[1..]);
      assert s == [s[0]] + s[1..];
      forall j | 0 <= j < |r| ensures Less(s[0], r[j]) {
        assert r[j] in Elements(r);
      }
    }
  }

  lemma {:induction false} SortSorts(s: seq<Class>)
    requires Distinct(s)
    ensures Ascending(Sort(s)) && Elements(Sort(s)) == Elements(s) && |Sort(s)| == |s|
  {
    if s != [] {
      SortSorts(s[1..]);
      assert s[0] !in Elements(Sort(s[1..]));
      InsertKeeps(s[0], Sort(s[1..]));
      assert s == [s[0]] + s[1..];
    }
  }

  lemma HasElement(s: seq<Class>)
    ensures s != [] ==> Elements(s) != {}
  {
    if s != [] { assert s[0] in Elements(s); }
  }

  /** Sorted tables with the same classes are the same table. */
  lemma {:induction false} AscendingUnique(s: seq<Class>, t: seq<Class>)
    requires Ascending(s) && Ascending(t) && Elements(s) == Elements(t)
    ensures s == t
  {
    if s == [] {
      HasElement(t);
    } else {
      assert s[0] in Elements(t) && t != [];
      assert t[0] in Elements(s);
      assert s[0] == t[0];
      assert s == [s[0]] + s[1..] && t == [t[0]] + t[1..];
      forall c ensures c in Elements(s[1..]) <==> c in Elements(t[1..]) {
        assert c in Elements(s) <==> c == s[0] || c in Elements(s[1..]);
        assert c in Elements(t) <==> c == t[0] || c in Elements(t[1..]);
      }
      AscendingUnique(s[1..], t[1..]);
    }
  }

  // ----- renumbering -----

  function IndexOf(c: Class, s: seq<Class>): (i: nat)
    ensures i <= |s| && (i < |s| ==> s[i] == c) && (c in s ==> i < |s|)
  {
    if s == [] || s[0] == c then 0 else 1 + IndexOf(c, s[1..])
  }

  lemma {:induction false} FirstIndex(s: seq<Class>, c: Class, j: nat)
    requires j < |s| && s[j] == c && c !in s[..j]
    ensures IndexOf(c, s) == j
  {
    if j > 0 {
      assert s[0] == s[..j][0] && s[1..][..j - 1] == s[..j][1..];
      FirstIndex(s[1..], c, j - 1);
    }
  }

  /** pkdSetClasses with bUpdate, on a processor as a value. */
  ghost function Renumbered(v: Processor, classes: seq<Class>): Processor {
    v.(table := classes,
       parts := if v.model.bNoParticleOrder then v.parts
                else seq(|v.parts|, k requires 0 <= k < |v.parts| => NewNumber(v.parts[k], v.table, classes)))
  }

  function NewNumber(p: Particle, table: seq<Class>, classes: seq<Class>): Particle {
    if p.iClass < |table| then p.(iClass := IndexOf(table[p.iClass], classes)) else p
  }

  ghost predicate SameMeaning(v: Processor, v': Processor) {
    && Ok(v) && Ok(v') && v'.model == v.model && |v'.parts| == |v.parts|
    && forall k | 0 <= k < |v.parts| && v.table != [] && v'.table != [] ::
         Meaning(v'.model, v'.table, v'.parts[k]) == Meaning(v.model, v.table, v.parts[k])
  }

  /** Renumbering keeps mass, softening and species of every particle. */
  lemma RenumberingKeepsMeaning(v: Processor, classes: seq<Class>)
    requires Ok(v) && !v.model.bNoParticleOrder && Distinct(classes) && Masked(v.model, classes)
    requires Elements(v.table) <= Elements(classes)
    ensures Ok(Renumbered(v, classes)) && SameMeaning(v, Renumbered(v, classes))
  {
    forall k | 0 <= k < |v.parts|
      ensures IndexOf(v.table[v.parts[k].iClass], classes) < |classes|
    {
      assert v.table[v.parts[k].iClass] in Elements(v.table);
    }
  }

  /** Without class numbers, meaning is kept exactly when the first class of the new table reads like the
      first class of the old one. */
  lemma UnorderedKeepsMeaningIff(v: Processor, classes: seq<Class>)
    requires Ok(v) && v.model.bNoParticleOrder && Distinct(classes) && Masked(v.model, classes)
    requires v.table != [] && classes != [] && v.parts != []
    ensures Ok(Renumbered(v, classes))
    ensures SameMeaning(v, Renumbered(v, classes)) <==> classes[0] == v.table[0]
  {
    assert Seen(v.model, classes[0]) == classes[0] && Seen(v.model, v.table[0]) == v.table[0];
    var v' := Renumbered(v, classes);
    assert v'.parts == v.parts;
    var p := v.parts[0];
    assert SameMeaning(v, v') ==> Meaning(v.model, classes, v'.parts[0]) == Meaning(v.model, v.table, p);
  }

  /** Two processors with one class each and no class numbers: the second one's dark matter turns into gas. */
  lemma UnorderedCanChangeMeaning()
    ensures var m := Model(false, false, true);
            var dark, gas := Class(2.0, 0.0, 1), Class(1.0, 0.0, 2);
            var v := Processor(m, [dark], [Particle(0, 0.0, 0.0)]);
            && Ok(v) && Sort([dark, gas]) == [gas, dark] && Ok(Renumbered(v, [gas, dark]))
            && !SameMeaning(v, Renumbered(v, [gas, dark]))
  {
    var m := Model(false, false, true);
    var dark, gas := Class(2.0, 0.0, 1), Class(1.0, 0.0, 2);
    var v := Processor(m, [dark], [Particle(0, 0.0, 0.0)]);
    assert [dark, gas][1..] == [gas] && [gas][1..] == [];
    assert Sort([gas]) == Insert(gas, []) == [gas];
    assert Insert(dark, [gas]) == [gas] + Insert(dark, []) && Insert(dark, []) == [dark];
    assert Sort([dark, gas]) == Insert(dark, [gas]);
    UnorderedKeepsMeaningIff(v, [gas, dark]);
  }

  // ----- the local table -----

  class Pkd {
    const model: Model
    const pClass: array<Class>
    var nClasses: nat
    const store: array<Particle>
    var nLocal: nat

    constructor (model: Model, nStore: nat)
      ensures Valid() && this.model == model && store.Length == nStore && nLocal == 0 && nClasses == 0
      ensures fresh(pClass) && fresh(store)
    {
      this.model := model;
      pClass := new Class[MAX_CLASSES](_ => Class(-1.0, -1.0, 0));
      nClasses := 0;
      store := new Particle[nStore](_ => Particle(0, 0.0, 0.0));
      nLocal := 0;
    }

    ghost function View(): Processor
      reads this, pClass, store
      requires nClasses <= pClass.Length && nLocal <= store.Length
    {
      Processor(model, pClass[..nClasses], store[..nLocal])
    }

    ghost predicate Valid()
      reads this, pClass, store
    {
      pClass.Length == MAX_CLASSES && nClasses <= MAX_CLASSES && nLocal <= store.Length && Ok(View())
    }

    /** The linear search of pkdSetClass and pkdSetClasses. */
    method Find(c: Class) returns (i: nat)
      requires Valid()
      ensures i <= nClasses && (i < nClasses ==> pClass[i] == c)
      ensures i == nClasses <==> c !in pClass[..nClasses]
    {
      i := 0;
      while i < nClasses
        invariant i <= nClasses && forall j | 0 <= j < i :: pClass[j] != c
      {
        if pClass[i] == c { return; }
        i := i + 1;
      }
    }

    /** The search of pkdSetClass, with a new entry when it fails and there is room. */
    method FindOrAdd(c: Class) returns (i: nat, ok: bool)
      requires Valid() && Seen(model, c) == c
      modifies this`nClasses, pClass
      ensures ok <==> c in old(pClass[..nClasses]) || old(nClasses) < MAX_CLASSES
      ensures Valid() && (!ok ==> View() == old(View()))
      ensures ok ==> i < nClasses && pClass[i] == c && old(View()).table <= View().table
      ensures ok ==> (i == 0 <==> old(nClasses) == 0 || old(pClass[..nClasses])[0] == c)
    {
      ghost var v := View();
      i := Find(c);
      ok := true;
      if i == nClasses {
        if nClasses >= MAX_CLASSES { return i, false; }
        pClass[i] := c;
        nClasses := nClasses + 1;
        assert pClass[..nClasses] == v.table + [c];
      }
    }

    /** pkdSetClass for a particle behind the local ones, which becomes local with exactly this mass, softening
        and species.  The result says whether the asserts of the source hold. */
    method SetClass(fMass: real, fSoft: real, eSpecies: nat) returns (ok: bool)
      requires Valid() && nLocal < store.Length
      modifies this`nClasses, this`nLocal, pClass, store
      ensures var c := Seen(model, Class(fMass, fSoft, eSpecies));
              ok <==> old((c in pClass[..nClasses] || nClasses < MAX_CLASSES)
                          && (model.bNoParticleOrder ==> nClasses == 0 || pClass[0] == c))
      ensures ok ==>
                && Valid() && nLocal == old(nLocal) + 1 && View().table != []
                && Meaning(model, View().table, View().parts[nLocal - 1]) == Class(fMass, fSoft, eSpecies)
                && old(View()).table <= View().table && old(View()).parts == View().parts[..nLocal - 1]
      ensures ok && model.bMass ==> store[nLocal - 1].fMass == fMass
      ensures ok && model.bSoft ==> store[nLocal - 1].fSoft == fSoft
      ensures ok ==> Class(if model.bMass then 0.0 else fMass, if model.bSoft then 0.0 else fSoft, eSpecies)
                     == pClass[if model.bNoParticleOrder then 0 else store[nLocal - 1].iClass]
    {
      ghost var v := View();
      var p := store[nLocal];
      var mass, soft := fMass, fSoft;
      if model.bMass { p := p.(fMass := mass); mass := 0.0; }
      if model.bSoft { p := p.(fSoft := soft); soft := 0.0; }
      var c := Class(mass, soft, eSpecies);
      assert c == Seen(model, Class(fMass, fSoft, eSpecies));
      var i;
      i, ok := FindOrAdd(c);
      if !ok { return false; }
      if model.bNoParticleOrder {
        if i != 0 { return false; }
      } else {
        p := p.(iClass := i);
      }
      store[nLocal] := p;
      nLocal := nLocal + 1;
      assert store[..nLocal] == v.parts + [p];
      return true;
    }

    /** pkdGetClasses */
    method GetClasses(out: array<Class>) returns (n: nat)
      requires Valid() && out.Length == MAX_CLASSES && out != pClass
      modifies out
      ensures n == nClasses && out[..n] == pClass[..nClasses]
    {
      for i := 0 to nClasses
        invariant out[..i] == pClass[..i]
      {
        out[i] := pClass[i];
      }
      n := nClasses;
    }

    /** pkdSetClasses with bUpdate. */
    method SetClasses(n: nat, classes: array<Class>)
      requires Valid() && classes != pClass && n <= classes.Length && n <= MAX_CLASSES
      requires Distinct(classes[..n]) && Masked(model, classes[..n]) && Elements(View().table) <= Elements(classes[..n])
      modifies this`nClasses, pClass, store
      ensures pClass.Length == MAX_CLASSES && nClasses <= MAX_CLASSES
      ensures View() == Renumbered(old(View()), classes[..n])
    {
      hide Meaning, Seen, Masked;
      ghost var v := View();
      ghost var s := classes[..n];
      if nClasses > 0 && !model.bNoParticleOrder {
        var renumber := BuildMap(n, classes);
        RenumberStore(renumber, s);
      }
      assert store[..nLocal] == Renumbered(v, s).parts;
      for i := 0 to n
        invariant pClass[..i] == classes[..i] && store[..nLocal] == Renumbered(v, s).parts && classes[..n] == s
        invariant nLocal == |v.parts|
      {
        pClass[i] := classes[i];
      }
      nClasses := n;
    }

    /** Every local particle gets its new class number. */
    method RenumberStore(renumber: array<nat>, ghost s: seq<Class>)
      requires Valid() && !model.bNoParticleOrder && renumber.Length == MAX_CLASSES
      requires forall i | 0 <= i < nClasses :: renumber[i] == IndexOf(pClass[i], s)
      modifies store
      ensures store[..nLocal] == Renumbered(old(View()), s).parts
    {
      ghost var v := View();
      ghost var target := Renumbered(v, s).parts;
      for i := 0 to nLocal
        invariant forall k | 0 <= k < i :: store[k] == target[k]
        invariant forall k | i <= k < nLocal :: store[k] == v.parts[k]
      {
        assert v.parts[i].iClass < |v.table| && v.table[v.parts[i].iClass] == pClass[v.parts[i].iClass];
        store[i] := store[i].(iClass := renumber[store[i].iClass]);
      }
    }

    /** The map from old to new class numbers; the asserts of the source hold. */
    method BuildMap(n: nat, classes: array<Class>) returns (renumber: array<nat>)
      requires Valid() && classes != pClass && n <= classes.Length && n <= MAX_CLASSES
      requires Distinct(classes[..n]) && Elements(View().table) <= Elements(classes[..n])
      ensures fresh(renumber) && renumber.Length == MAX_CLASSES
      ensures forall i | 0 <= i < nClasses :: renumber[i] == IndexOf(pClass[i], classes[..n]) < n
    {
      hide Masked, Meaning, Seen, IndexOf;
      renumber := new nat[MAX_CLASSES](_ => 0);
      TableFits(View().table, classes[..n]);
      hide Elements, Distinct;
      for i := 0 to nClasses
        invariant forall k | 0 <= k < i :: renumber[k] == IndexOf(pClass[k], classes[..n]) < n
      {
        assert View().table[i] in classes[..n];
        var j := 0;
        while j < n && classes[j] != pClass[i]
          invariant j <= n && pClass[i] !in classes[..j]
        {
          j := j + 1;
        }
        assert j < n;
        FirstIndex(classes[..n], pClass[i], j);
        renumber[i] := j;
      }
    }
  }

  // ----- all processors -----

  /** The processor tree over processors lo..hi; the upper half starts at idUpper. */
  datatype Pst = Core(id: nat) | Node(lower: Pst, idUpper: nat, upper: Pst)

  predicate Spans(t: Pst, lo: nat, hi: nat) {
    match t
    case Core(id) => id == lo && hi == lo + 1
    case Node(lower, idUpper, upper) => lo < idUpper < hi && Spans(lower, lo, idUpper) && Spans(upper, idUpper, hi)
  }

  /** The classes of the processors lo..hi. */
  ghost function Classes(vs: seq<Processor>, lo: nat, hi: nat): set<Class>
    requires lo <= hi <= |vs|
  {
    if lo == hi then {} else Classes(vs, lo, hi - 1) + Elements(vs[hi - 1].table)
  }

  lemma {:induction false} ClassesSplit(vs: seq<Processor>, lo: nat, mid: nat, hi: nat)
    requires lo <= mid <= hi <= |vs|
    ensures Classes(vs, lo, hi) == Classes(vs, lo, mid) + Classes(vs, mid, hi)
  {
    if mid < hi { ClassesSplit(vs, lo, mid, hi - 1); }
  }

  lemma {:induction false} ClassesOfOne(vs: seq<Processor>, lo: nat, i: nat, hi: nat)
    requires lo <= i < hi <= |vs|
    ensures Elements(vs[i].table) <= Classes(vs, lo, hi)
  {
    if i < hi - 1 { ClassesOfOne(vs, lo, i, hi - 1); }
  }

  /** The memory of the processors lo..hi. */
  ghost function Footprint(pkds: seq<Pkd>, lo: nat, hi: nat): set<object>
    requires lo <= hi <= |pkds|
  {
    (set i | lo <= i < hi :: pkds[i]) + (set i | lo <= i < hi :: pkds[i].pClass)
        + (set i | lo <= i < hi :: pkds[i].store)
  }

  /** Each processor has memory of its own. */
  ghost predicate Apart(pkds: seq<Pkd>) {
    && (forall i, j | 0 <= i < j < |pkds| ::
          pkds[i] != pkds[j] && pkds[i].pClass != pkds[j].pClass && pkds[i].store != pkds[j].store)
  }

  /** The processors lo..hi are in the state vs. */
  ghost predicate InState(pkds: seq<Pkd>, vs: seq<Processor>, lo: nat, hi: nat)
    requires lo <= hi <= |pkds|
    reads Footprint(pkds, lo, hi)
  {
    |vs| == |pkds| && forall i | lo <= i < hi :: pkds[i].Valid() && pkds[i].View() == vs[i]
  }

  /** The processors lo..hi were in the state vs and have been given the table s. */
  ghost predicate Updated(pkds: seq<Pkd>, vs: seq<Processor>, s: seq<Class>, lo: nat, hi: nat)
    requires lo <= hi <= |pkds|
    reads Footprint(pkds, lo, hi)
  {
    && |vs| == |pkds|
    && forall i | lo <= i < hi ::
         && pkds[i].pClass.Length == MAX_CLASSES && pkds[i].nClasses <= MAX_CLASSES
         && pkds[i].nLocal <= pkds[i].store.Length && Ok(vs[i]) && pkds[i].View() == Renumbered(vs[i], s)
  }

  /** A table for the processors lo..hi: no class twice, and none of theirs is missing. */
  ghost predicate Covers(s: seq<Class>, vs: seq<Processor>, lo: nat, hi: nat)
    requires lo <= hi <= |vs|
  {
    Distinct(s) && forall i | lo <= i < hi :: Masked(vs[i].model, s) && Elements(vs[i].table) <= Elements(s)
  }

  lemma TableFits(table: seq<Class>, s: seq<Class>)
    requires Distinct(table) && Distinct(s) && Elements(table) <= Elements(s)
    ensures |table| <= |s| && forall i | 0 <= i < |table| :: table[i] in s
  {
    DistinctSize(table);
    DistinctSize(s);
    SubsetSize(Elements(table), Elements(s));
    forall i | 0 <= i < |table| ensures table[i] in s { assert table[i] in Elements(table); }
  }

  /** The search for a class in the first n entries. */
  method Search(out: array<Class>, n: nat, c: Class) returns (j: nat)
    requires n <= out.Length
    ensures j <= n && (j == n <==> c !in out[..n])
  {
    j := 0;
    while j < n && c != out[j]
      invariant j <= n && c !in out[..j]
    {
      j := j + 1;
    }
  }

  /** The merging loops of pstGetClasses.  They do not test for room; ok tells whether they stay inside the buffer. */
  method Merge(out: array<Class>, n: nat, outUp: array<Class>, nUp: nat) returns (ok: bool, n': nat)
    requires out != outUp && n <= out.Length && nUp <= outUp.Length
    requires Distinct(out[..n])
    modifies out
    ensures ok <==> |old(Elements(out[..n])) + Elements(outUp[..nUp])| <= out.Length
    ensures ok ==> n' <= out.Length && Distinct(out[..n'])
    ensures ok ==> Elements(out[..n']) == old(Elements(out[..n])) + Elements(outUp[..nUp])
  {
    hide Distinct, Elements;
    ghost var mine, up := Elements(out[..n]), outUp[..nUp];
    ok, n' := true, n;
    NoneOf(up);
    for i := 0 to nUp
      invariant n' <= out.Length && Distinct(out[..n']) && outUp[..nUp] == up
      invariant Elements(out[..n']) == mine + Elements(up[..i])
    {
      ghost var s := out[..n'];
      var j := Search(out, n', outUp[i]);
      MergeOne(s, up, i, mine);
      if j == n' {
        if n' == out.Length { return false, n'; }
        out[n'] := outUp[i];
        n' := n' + 1;
        assert out[..n'] == s + [up[i]];
      }
    }
    assert up[..nUp] == up;
    DistinctSize(out[..n']);
  }

  lemma NoneOf(up: seq<Class>)
    ensures Elements(up[..0]) == {}
  {
  }

  /** A class not yet in the table makes one more. */
  lemma MergeOne(s: seq<Class>, up: seq<Class>, i: nat, mine: set<Class>)
    requires Distinct(s) && i < |up| && Elements(s) == mine + Elements(up[..i])
    ensures up[i] in s ==> Elements(s) == mine + Elements(up[..i + 1])
    ensures up[i] !in s ==> |s| < |mine + Elements(up)|
                            && Distinct(s + [up[i]]) && Elements(s + [up[i]]) == mine + Elements(up[..i + 1])
  {
    ElementsNext(up, i);
    if up[i] !in s {
      DistinctSize(s);
      assert Distinct(s + [up[i]]);
      ElementsSnoc(s, up[i]);
      hide Elements, Distinct;
      SubsetSize(Elements(s) + {up[i]}, mine + Elements(up));
    }
  }

  lemma ElementsSnoc(s: seq<Class>, c: Class)
    ensures Elements(s + [c]) == Elements(s) + {c} && (c in Elements(s) <==> c in s)
  {
  }

  lemma ElementsNext(up: seq<Class>, i: nat)
    requires i < |up|
    ensures Elements(up[..i + 1]) == Elements(up[..i]) + {up[i]} && Elements(up[..i]) + {up[i]} <= Elements(up)
  {
    assert up[..i + 1] == up[..i] + [up[i]];
  }

  /** pstGetClasses: the distinct classes of the processors below t; all merges below stay inside their buffers
      exactly if there are not more of them than a buffer holds. */
  method GetClasses(pkds: seq<Pkd>, t: Pst, ghost vs: seq<Processor>, ghost lo: nat, ghost hi: nat, out: array<Class>)
    returns (ok: bool, n: nat)
    requires lo < hi <= |pkds| && InState(pkds, vs, lo, hi) && Spans(t, lo, hi) && out.Length == MAX_CLASSES
    requires |vs| == |pkds| && out !in Footprint(pkds, lo, hi)
    modifies out
    ensures ok <==> |Classes(vs, lo, hi)| <= MAX_CLASSES
    ensures ok ==> n <= MAX_CLASSES && Distinct(out[..n]) && Elements(out[..n]) == Classes(vs, lo, hi)
    decreases t, 0
  {
    hide Elements, Distinct, Ok, Classes;
    match t
    case Core(id) =>
      ok := true;
      n := GetAtCore(pkds, id, vs, out);
    case Node(lower, idUpper, upper) =>
      HalvesFit(vs, lo, idUpper, hi);
      var outUp, okUp, nUp := RequestClasses(pkds, upper, vs, idUpper, hi);
      ok, n := GetClasses(pkds, lower, vs, lo, idUpper, out);
      if !ok || !okUp { return false, n; }
      ok, n := Merge(out, n, outUp, nUp);
  }

  /** The request to the upper half, which answers in a buffer of its own. */
  method RequestClasses(pkds: seq<Pkd>, t: Pst, ghost vs: seq<Processor>, ghost lo: nat, ghost hi: nat)
    returns (outUp: array<Class>, ok: bool, nUp: nat)
    requires lo < hi <= |pkds| && InState(pkds, vs, lo, hi) && Spans(t, lo, hi) && |vs| == |pkds|
    ensures fresh(outUp) && outUp.Length == MAX_CLASSES && (ok <==> |Classes(vs, lo, hi)| <= MAX_CLASSES)
    ensures ok ==> nUp <= MAX_CLASSES && Distinct(outUp[..nUp]) && Elements(outUp[..nUp]) == Classes(vs, lo, hi)
    decreases t, 1
  {
    hide Elements, Distinct, Ok, Classes;
    outUp := new Class[MAX_CLASSES](_ => Class(0.0, 0.0, 0));
    ok, nUp := GetClasses(pkds, t, vs, lo, hi, outUp);
  }

  method GetAtCore(pkds: seq<Pkd>, id: nat, ghost vs: seq<Processor>, out: array<Class>) returns (n: nat)
    requires id < |pkds| && InState(pkds, vs, id, id + 1) && out.Length == MAX_CLASSES && out != pkds[id].pClass
    modifies out
    ensures n <= MAX_CLASSES && Distinct(out[..n]) && Elements(out[..n]) == Classes(vs, id, id + 1)
    ensures |Classes(vs, id, id + 1)| <= MAX_CLASSES
  {
    n := pkds[id].GetClasses(out);
    OneProcessor(vs, id);
    DistinctSize(out[..n]);
  }

  lemma {:induction false} OneProcessor(vs: seq<Processor>, id: nat)
    requires id < |vs|
    ensures Classes(vs, id, id + 1) == Elements(vs[id].table)
  {
    assert Classes(vs, id, id) == {};
  }

  lemma {:induction false} HalvesFit(vs: seq<Processor>, lo: nat, mid: nat, hi: nat)
    requires lo <= mid <= hi <= |vs|
    ensures |Classes(vs, lo, mid)| <= |Classes(vs, lo, hi)| && |Classes(vs, mid, hi)| <= |Classes(vs, lo, hi)|
    ensures Classes(vs, lo, hi) == Classes(vs, lo, mid) + Classes(vs, mid, hi)
  {
    ClassesSplit(vs, lo, mid, hi);
    SubsetSize(Classes(vs, lo, mid), Classes(vs, lo, hi));
    SubsetSize(Classes(vs, mid, hi), Classes(vs, lo, hi));
  }

  /** The leaf case of pstSetClasses. */
  method SetAtCore(pkds: seq<Pkd>, ghost vs: seq<Processor>, id: nat, n: nat, classes: array<Class>)
    requires id < |pkds| && InState(pkds, vs, id, id + 1)
    requires n <= classes.Length && n <= MAX_CLASSES && Covers(classes[..n], vs, id, id + 1)
    requires classes !in Footprint(pkds, id, id + 1)
    modifies Footprint(pkds, id, id + 1)
    ensures classes[..n] == old(classes[..n]) && Updated(pkds, vs, classes[..n], id, id + 1)
  {
    hide Elements, Distinct, Masked, Renumbered;
    pkds[id].SetClasses(n, classes);
  }

  /** pstSetClasses: every processor below t gets the new table. */
  method SetClasses(pkds: seq<Pkd>, t: Pst, ghost vs: seq<Processor>, ghost lo: nat, ghost hi: nat,
                    n: nat, classes: array<Class>)
    requires lo < hi <= |pkds| && InState(pkds, vs, lo, hi) && Spans(t, lo, hi) && Apart(pkds) && |vs| == |pkds|
    requires n <= classes.Length && n <= MAX_CLASSES && Covers(classes[..n], vs, lo, hi)
    requires classes !in Footprint(pkds, lo, hi)
    modifies Footprint(pkds, lo, hi)
    ensures classes[..n] == old(classes[..n]) && Updated(pkds, vs, classes[..n], lo, hi)
    decreases t
  {
    hide Apart, InState, Updated, Covers;
    match t
    case Core(id) =>
      SetAtCore(pkds, vs, id, n, classes);
    case Node(lower, idUpper, upper) =>
      HalvesApart(pkds, lo, idUpper, hi);
      ghost var s := classes[..n];
      HalvesReady(pkds, vs, s, lo, idUpper, hi);
      SetClasses(pkds, upper, vs, idUpper, hi, n, classes);
      assert classes[..n] == s && InState(pkds, vs, lo, idUpper);
      SetClasses(pkds, lower, vs, lo, idUpper, n, classes);
      assert classes[..n] == s && Updated(pkds, vs, s, idUpper, hi);
      HalvesUpdated(pkds, vs, s, lo, idUpper, hi);
  }

  lemma HalvesInState(pkds: seq<Pkd>, vs: seq<Processor>, lo: nat, mid: nat, hi: nat)
    requires lo <= mid <= hi <= |pkds| && InState(pkds, vs, lo, hi)
    ensures InState(pkds, vs, lo, mid) && InState(pkds, vs, mid, hi)
  {
  }

  lemma HalvesCovered(s: seq<Class>, vs: seq<Processor>, lo: nat, mid: nat, hi: nat)
    requires lo <= mid <= hi <= |vs| && Covers(s, vs, lo, hi)
    ensures Covers(s, vs, lo, mid) && Covers(s, vs, mid, hi)
  {
  }

  lemma HalvesReady(pkds: seq<Pkd>, vs: seq<Processor>, s: seq<Class>, lo: nat, mid: nat, hi: nat)
    requires lo <= mid <= hi <= |pkds| == |vs| && InState(pkds, vs, lo, hi) && Covers(s, vs, lo, hi)
    ensures InState(pkds, vs, lo, mid) && InState(pkds, vs, mid, hi) && Covers(s, vs, lo, mid) && Covers(s, vs, mid, hi)
  {
    HalvesInState(pkds, vs, lo, mid, hi);
    HalvesCovered(s, vs, lo, mid, hi);
  }

  lemma HalvesApart(pkds: seq<Pkd>, lo: nat, mid: nat, hi: nat)
    requires lo <= mid <= hi <= |pkds| && Apart(pkds)
    ensures Footprint(pkds, lo, mid) !! Footprint(pkds, mid, hi)
    ensures Footprint(pkds, lo, mid) + Footprint(pkds, mid, hi) == Footprint(pkds, lo, hi)
  {
  }

  lemma HalvesUpdated(pkds: seq<Pkd>, vs: seq<Processor>, s: seq<Class>, lo: nat, mid: nat, hi: nat)
    requires lo <= mid <= hi <= |pkds| && Updated(pkds, vs, s, lo, mid) && Updated(pkds, vs, s, mid, hi)
    ensures Updated(pkds, vs, s, lo, hi)
  {
  }

  lemma {:induction false} ClassesMasked(vs: seq<Processor>, m: Model, hi: nat)
    requires hi <= |vs| && forall i | 0 <= i < hi :: Masked(m, vs[i].table)
    ensures forall c | c in Classes(vs, 0, hi) :: Seen(m, c) == c
  {
    if hi > 0 { ClassesMasked(vs, m, hi - 1); }
  }

  /** All processors are in order with the new table, and with class numbers no particle changed its meaning. */
  ghost predicate Served(vs: seq<Processor>, table: seq<Class>) {
    forall i | 0 <= i < |vs| ::
      Ok(Renumbered(vs[i], table)) && (!vs[i].model.bNoParticleOrder ==> SameMeaning(vs[i], Renumbered(vs[i], table)))
  }

  /** The sorted table serves all processors. */
  lemma {:induction false} TableCovers(vs: seq<Processor>, m: Model, s: seq<Class>)
    requires Distinct(s) && Elements(s) == Classes(vs, 0, |vs|)
    requires forall i | 0 <= i < |vs| :: vs[i].model == m && Ok(vs[i])
    ensures Ascending(Sort(s)) && Elements(Sort(s)) == Classes(vs, 0, |vs|) && |Sort(s)| == |s|
    ensures Covers(Sort(s), vs, 0, |vs|) && Served(vs, Sort(s))
  {
    SortSorts(s);
    ClassesMasked(vs, m, |vs|);
    assert Masked(m, Sort(s)) by { assert forall i | 0 <= i < |Sort(s)| :: Sort(s)[i] in Elements(Sort(s)); }
    hide Masked;
    forall i | 0 <= i < |vs|
      ensures Elements(vs[i].table) <= Elements(Sort(s)) && Ok(Renumbered(vs[i], Sort(s)))
      ensures !m.bNoParticleOrder ==> SameMeaning(vs[i], Renumbered(vs[i], Sort(s)))
    {
      ClassesOfOne(vs, 0, i, |vs|);
      if !m.bNoParticleOrder { RenumberingKeepsMeaning(vs[i], Sort(s)); }
    }
  }

  /** MSR::SetClasses: the merges stay inside their buffers exactly if the machine has not more distinct classes than
      a buffer holds.  Then all processors end with the same table, which is sorted, holds no class twice and all of
      theirs, and depends on nothing but the set of classes; with class numbers in the particles, every particle
      keeps its mass, softening and species. */
  method SetAllClasses(pkds: seq<Pkd>, t: Pst, ghost vs: seq<Processor>) returns (ok: bool, ghost table: seq<Class>)
    requires pkds != [] && Apart(pkds) && InState(pkds, vs, 0, |pkds|) && Spans(t, 0, |pkds|)
    requires forall i | 0 <= i < |pkds| :: vs[i].model == vs[0].model
    modifies Footprint(pkds, 0, |pkds|)
    ensures ok <==> |Classes(vs, 0, |vs|)| <= MAX_CLASSES
    ensures ok ==> Ascending(table) && Elements(table) == Classes(vs, 0, |vs|)
    ensures ok ==> forall s | Ascending(s) && Elements(s) == Classes(vs, 0, |vs|) :: s == table
    ensures ok ==> forall i, j | 0 <= i < j < |table| ::
                     || table[i].fMass < table[j].fMass
                     || (table[i].fMass == table[j].fMass && table[i].fSoft < table[j].fSoft)
                     || (table[i].fMass == table[j].fMass && table[i].fSoft == table[j].fSoft
                         && table[i].eSpecies < table[j].eSpecies)
    ensures ok ==> Updated(pkds, vs, table, 0, |pkds|) && Served(vs, table)
    ensures !ok ==> InState(pkds, vs, 0, |pkds|)
  {
    hide Apart, InState, Updated, Covers, Served, Ascending, Elements, Classes;
    var classes, n;
    ok, classes, n := GatherClasses(pkds, t, vs);
    table := [];
    if ok {
      table := classes[..n];
      AscendingMeans(table);
      SetClasses(pkds, t, vs, 0, |pkds|, n, classes);
      forall s | Ascending(s) && Elements(s) == Classes(vs, 0, |vs|) ensures s == table {
        AscendingUnique(s, table);
      }
    }
  }

  /** The gathering and sorting half. */
  method GatherClasses(pkds: seq<Pkd>, t: Pst, ghost vs: seq<Processor>)
      returns (ok: bool, classes: array<Class>, n: nat)
    requires pkds != [] && InState(pkds, vs, 0, |pkds|) && Spans(t, 0, |pkds|)
    requires forall i | 0 <= i < |pkds| :: vs[i].model == vs[0].model
    ensures |vs| == |pkds| && fresh(classes) && (ok <==> |Classes(vs, 0, |vs|)| <= MAX_CLASSES)
    ensures ok ==> n <= MAX_CLASSES && n <= classes.Length
    ensures ok ==> Ascending(classes[..n]) && Elements(classes[..n]) == Classes(vs, 0, |vs|)
    ensures ok ==> Covers(classes[..n], vs, 0, |vs|) && Served(vs, classes[..n])
  {
    hide Covers, Served, Ok, Ascending, Elements, Classes, Distinct;
    ClassesApart(pkds, vs);
    classes := new Class[MAX_CLASSES](_ => Class(0.0, 0.0, 0));
    ok, n := GetClasses(pkds, t, vs, 0, |pkds|, classes);
    if ok {
      TableCovers(vs, vs[0].model, classes[..n]);
      CopyTo(classes, Sort(classes[..n]));
    }
  }

  method CopyTo(classes: array<Class>, s: seq<Class>)
    requires |s| <= classes.Length
    modifies classes
    ensures classes[..|s|] == s
  {
    for i := 0 to |s|
      invariant classes[..i] == s[..i]
    {
      classes[i] := s[i];
    }
  }

  lemma ClassesApart(pkds: seq<Pkd>, vs: seq<Processor>)
    requires InState(pkds, vs, 0, |pkds|)
    ensures |vs| == |pkds| && forall i | 0 <= i < |vs| :: Ok(vs[i])
  {
  }

  lemma {:induction false} ClassFrom(vs: seq<Processor>, c: Class, hi: nat) returns (i: nat)
    requires hi <= |vs| && c in Classes(vs, 0, hi)
    ensures i < hi && c in vs[i].table
  {
    if c in vs[hi - 1].table { i := hi - 1; } else { i := ClassFrom(vs, c, hi - 1); }
  }

  /** No class of the machine sorts before the first class of any processor that holds particles. */
  ghost predicate HoldersAreFirst(vs: seq<Processor>) {
    forall i, j | 0 <= i < |vs| && 0 <= j < |vs| && vs[i].parts != [] && vs[i].table != [] ::
      forall c | c in vs[j].table :: !Less(c, vs[i].table[0])
  }

  /** Where no processor keeps class numbers, all particles of the machine keep their meaning exactly when every
      processor that holds particles reads them through the first class of the machine. */
  lemma {:induction false} AllUnorderedKeepMeaningIff(vs: seq<Processor>, table: seq<Class>)
    requires vs != [] && Ascending(table) && Elements(table) == Classes(vs, 0, |vs|)
    requires forall i | 0 <= i < |vs| ::
               Ok(vs[i]) && vs[i].model == vs[0].model && vs[i].model.bNoParticleOrder
                   && (vs[i].parts != [] ==> vs[i].table != [])
    ensures (forall i | 0 <= i < |vs| :: SameMeaning(vs[i], Renumbered(vs[i], table))) <==> HoldersAreFirst(vs)
  {
    ClassesMasked(vs, vs[0].model, |vs|);
    assert forall k | 0 <= k < |table| :: table[k] in Elements(table);
    assert Masked(vs[0].model, table);
    hide Masked;
    forall i | 0 <= i < |vs|
      ensures SameMeaning(vs[i], Renumbered(vs[i], table)) <==> (vs[i].parts != [] ==> FirstOf(vs, vs[i].table[0]))
    {
      OneUnordered(vs, table, i);
    }
    HoldersFirst(vs);
  }

  ghost predicate FirstOf(vs: seq<Processor>, c: Class) {
    forall j, d | 0 <= j < |vs| && d in vs[j].table :: !Less(d, c)
  }

  lemma HoldersFirst(vs: seq<Processor>)
    requires forall i | 0 <= i < |vs| :: vs[i].parts != [] ==> vs[i].table != []
    ensures HoldersAreFirst(vs) <==> forall i | 0 <= i < |vs| :: vs[i].parts != [] ==> FirstOf(vs, vs[i].table[0])
  {
  }

  lemma {:induction false} OneUnordered(vs: seq<Processor>, table: seq<Class>, i: nat)
    requires i < |vs| && Ascending(table) && Elements(table) == Classes(vs, 0, |vs|) && Masked(vs[i].model, table)
    requires Ok(vs[i]) && vs[i].model.bNoParticleOrder && (vs[i].parts != [] ==> vs[i].table != [])
    ensures SameMeaning(vs[i], Renumbered(vs[i], table)) <==> (vs[i].parts != [] ==> FirstOf(vs, vs[i].table[0]))
  {
    if vs[i].parts != [] {
      ClassesOfOne(vs, 0, i, |vs|);
      assert vs[i].table[0] in Elements(vs[i].table);
      HasElement(table);
      assert table != [];
      UnorderedKeepsMeaningIff(vs[i], table);
      FirstIsLeast(vs, table, vs[i].table[0]);
    }
  }

  /** The first entry of the merged table is the class that nothing sorts before. */
  lemma {:induction false} FirstIsLeast(vs: seq<Processor>, table: seq<Class>, c: Class)
    requires Ascending(table) && Elements(table) == Classes(vs, 0, |vs|) && table != [] && c in Elements(table)
    ensures table[0] == c <==> FirstOf(vs, c)
  {
    if table[0] == c {
      forall j, d | 0 <= j < |vs| && d in vs[j].table ensures !Less(d, c) {
        ClassesOfOne(vs, 0, j, |vs|);
        assert d in Elements(vs[j].table);
      }
    } else {
      assert table[0] in Elements(table);
      var j := ClassFrom(vs, table[0], |vs|);
      assert Less(table[0], c);
    }
  }

  /** If every processor with a class holds particles, and has just that class, that is when all have the same one. */
  lemma SameClassIff(vs: seq<Processor>)
    requires forall i | 0 <= i < |vs| :: vs[i].table != [] ==> vs[i].parts != [] && |vs[i].table| == 1
    ensures HoldersAreFirst(vs) <==> forall i, j | 0 <= i < |vs| && 0 <= j < |vs| && vs[i].table != []
            && vs[j].table != [] ::
                                       vs[i].table == vs[j].table
  {
    if HoldersAreFirst(vs) {
      forall i, j | 0 <= i < |vs| && 0 <= j < |vs| && vs[i].table != [] && vs[j].table != []
        ensures vs[i].table == vs[j].table
      {
        assert vs[i].table[0] in vs[i].table && vs[j].table[0] in vs[j].table;
        assert !Less(vs[j].table[0], vs[i].table[0]) && !Less(vs[i].table[0], vs[j].table[0]);
      }
    }
  }
}
