/** Star formation, which appends to the particle array it is scanning, and the pass that removes deleted
    particles and numbers new ones. */
module StarForm {
  import opened Collections

  const IORDERMAX := 0x7ff_ffff_ffff
  const INT_MAX := 0x7fff_ffff

  datatype Species = Gas | Dark | Star | Last

  /** Species `Last` marks a deleted particle and the order IORDERMAX a new one. */
  datatype Particle = Particle(iOrder: nat, eSpecies: Species, mass: real, density: real, divv: real, uPred: real,
                               uRung: nat)

  predicate IsDeleted(p: Particle) {
    p.eSpecies == Last
  }

  predicate IsNew(p: Particle) {
    p.iOrder == IORDERMAX
  }

  function Mass(s: seq<Particle>): real {
    if s == [] then 0.0 else Mass(s[..|s| - 1]) + s[|s| - 1].mass
  }

  lemma {:induction false} MassSnoc(s: seq<Particle>, p: Particle)
    ensures Mass(s + [p]) == Mass(s) + p.mass
  {
    assert (s + [p])[..|s|] == s;
  }

  lemma {:induction false} MassConcat(s: seq<Particle>, t: seq<Particle>)
    ensures Mass(s + t) == Mass(s) + Mass(t)
  {
    if t == [] {
      assert s + t == s;
    } else {
      assert (s + t)[..|s + t| - 1] == s + t[..|t| - 1];
      MassConcat(s, t[..|t| - 1]);
    }
  }

  // ----- star formation -----

  /** The parameters of the star formation recipe. */
  datatype Recipe = Recipe(dInitStarMass: real, dMinGasMass: real, dDenMin: real, dTMax: real, dTuFac: real,
                           bdivv: bool, uMinRungActive: nat, uMaxRungActive: nat)

  predicate IsActive(r: Recipe, p: Particle) {
    p.uRung >= r.uMinRungActive && p.uRung <= r.uMaxRungActive
  }

  function Temperature(r: Recipe, p: Particle): real
    requires r.dTuFac > 0.0
  {
    p.uPred / r.dTuFac
  }

  /** Active gas that is dense, not expanding and cool; `event` says how the dice fell for the particle. */
  predicate Forms(r: Recipe, p: Particle, event: bool)
    requires r.dTuFac > 0.0
  {
    && IsActive(r, p) && p.eSpecies == Gas
    && !(p.density < r.dDenMin || (r.bdivv && p.divv >= 0.0)) && !(Temperature(r, p) > r.dTMax) && event
  }

  /** What is left of the gas particle. */
  function Consumed(r: Recipe, p: Particle): Particle {
    var mass := if p.mass - r.dInitStarMass < 0.0 then 0.0 else p.mass - r.dInitStarMass;
    p.(mass := mass, eSpecies := if mass < r.dMinGasMass then Last else p.eSpecies)
  }

  /** The star, as it is appended. */
  function NewStar(r: Recipe, p: Particle): Particle {
    var mass := if p.mass - r.dInitStarMass < 0.0 then r.dInitStarMass + (p.mass - r.dInitStarMass)
        else r.dInitStarMass;
    p.(mass := mass, eSpecies := Star, iOrder := IORDERMAX)
  }

  /** The first n particles after star formation. */
  function GasAfter(r: Recipe, s: seq<Particle>, event: nat -> bool, n: nat): (t: seq<Particle>)
    requires n <= |s| && r.dTuFac > 0.0
    ensures |t| == n
  {
    if n == 0 then []
    else GasAfter(r, s, event, n - 1) + [if Forms(r, s[n - 1], event(n - 1)) then Consumed(r, s[n - 1]) else s[n - 1]]
  }

  /** The stars that the first n particles form. */
  function Stars(r: Recipe, s: seq<Particle>, event: nat -> bool, n: nat): seq<Particle>
    requires n <= |s| && r.dTuFac > 0.0
  {
    if n == 0 then []
    else if Forms(r, s[n - 1], event(n - 1)) then Stars(r, s, event, n - 1) + [NewStar(r, s[n - 1])]
    else Stars(r, s, event, n - 1)
  }

  /** The mass of one particle is shared between what is left of it and its star. */
  lemma {:induction false} MassShared(r: Recipe, gas: seq<Particle>, stars: seq<Particle>, p: Particle)
    ensures Mass(gas + [Consumed(r, p)]) + Mass(stars + [NewStar(r, p)]) == Mass(gas) + Mass(stars) + p.mass
    ensures Mass(gas + [p]) == Mass(gas) + p.mass
  {
    MassSnoc(stars, NewStar(r, p));
    MassSnoc(gas, Consumed(r, p));
    MassSnoc(gas, p);
    assert Consumed(r, p).mass + NewStar(r, p).mass == p.mass;
  }

  lemma MassPrefix(s: seq<Particle>, n: nat)
    requires n < |s|
    ensures Mass(s[..n + 1]) == Mass(s[..n]) + s[n].mass
  {
    assert s[..n + 1] == s[..n] + [s[n]];
    MassSnoc(s[..n], s[n]);
  }

  /** Mass only moves from gas to stars. */
  lemma {:induction false} MassMoves(r: Recipe, s: seq<Particle>, event: nat -> bool, n: nat)
    requires n <= |s| && r.dTuFac > 0.0
    ensures Mass(GasAfter(r, s, event, n)) + Mass(Stars(r, s, event, n)) == Mass(s[..n])
  {
    hide Forms, Consumed, NewStar;
    if n == 0 {
      assert s[..0] == [];
    } else {
      MassMoves(r, s, event, n - 1);
      MassShared(r, GasAfter(r, s, event, n - 1), Stars(r, s, event, n - 1), s[n - 1]);
      MassPrefix(s, n - 1);
    }
  }

  /** No mass becomes negative. */
  lemma {:induction false} MassesStayPositive(r: Recipe, s: seq<Particle>, event: nat -> bool, n: nat)
    requires n <= |s| && r.dTuFac > 0.0 && r.dInitStarMass >= 0.0 && forall i | 0 <= i < n :: s[i].mass >= 0.0
    ensures forall i | 0 <= i < n :: GasAfter(r, s, event, n)[i].mass >= 0.0
    ensures forall i | 0 <= i < |Stars(r, s, event, n)| :: Stars(r, s, event, n)[i].mass >= 0.0
  {
    hide Forms;
    if n > 0 { MassesStayPositive(r, s, event, n - 1); }
  }

  lemma {:induction false} StarsAreNew(r: Recipe, s: seq<Particle>, event: nat -> bool, n: nat)
    requires n <= |s| && r.dTuFac > 0.0
    ensures forall i | 0 <= i < |Stars(r, s, event, n)| ::
              Stars(r, s, event, n)[i].eSpecies == Star && Stars(r, s, event, n)[i].iOrder == IORDERMAX
    ensures |Stars(r, s, event, n)| <= n
  {
    hide Forms;
    if n > 0 { StarsAreNew(r, s, event, n - 1); }
  }

  lemma {:induction false} StarsGrow(r: Recipe, s: seq<Particle>, event: nat -> bool, m: nat, n: nat)
    requires m <= n <= |s| && r.dTuFac > 0.0
    ensures Stars(r, s, event, m) <= Stars(r, s, event, n)
  {
    hide Forms;
    if m < n { StarsGrow(r, s, event, m, n - 1); }
  }

  /** Active gas within the cuts in density, divergence and temperature, for which the dice fell. */
  predicate WithinCuts(r: Recipe, p: Particle, event: bool) {
    && p.eSpecies == Gas && r.uMinRungActive <= p.uRung <= r.uMaxRungActive
    && p.density >= r.dDenMin && (r.bdivv ==> p.divv < 0.0) && p.uPred <= r.dTMax * r.dTuFac && event
  }

  lemma QuotientAbove(u: real, f: real, t: real)
    requires f > 0.0
    ensures u / f > t <==> u > t * f
  {
    var q := u / f;
    assert q * f == u;
    if q > t { MulLess(t, q, f); } else { MulAtMost(q, t, f); }
  }

  lemma MulLess(a: real, b: real, f: real)
    requires a < b && f > 0.0
    ensures a * f < b * f
  {
    assert (b - a) * f > 0.0;
  }

  lemma MulAtMost(a: real, b: real, f: real)
    requires a <= b && f > 0.0
    ensures a * f <= b * f
  {
    assert (b - a) * f >= 0.0;
  }

  lemma FormsIff(r: Recipe, p: Particle, event: bool)
    requires r.dTuFac > 0.0
    ensures Forms(r, p, event) <==> WithinCuts(r, p, event)
  {
    QuotientAbove(p.uPred, r.dTuFac, r.dTMax);
  }

  /** A star takes the smaller of the mass of the gas and dInitStarMass; the gas keeps the rest, and is deleted
      exactly if that is less than dMinGasMass. */
  ghost predicate FormedOf(r: Recipe, p: Particle, gas: Particle, star: Particle) {
    && star.mass == (if p.mass < r.dInitStarMass then p.mass else r.dInitStarMass)
    && star.eSpecies == Star && star.iOrder == IORDERMAX
    && gas.mass == p.mass - star.mass && gas.iOrder == p.iOrder
    && gas.eSpecies == (if p.mass - star.mass < r.dMinGasMass then Last else Gas)
  }

  lemma SharedOut(r: Recipe, p: Particle, event: bool)
    requires WithinCuts(r, p, event)
    ensures FormedOf(r, p, Consumed(r, p), NewStar(r, p))
  {
  }

  /** Particle i forms a star if and only if it is within the cuts, and the star comes after those of the particles
      before it.  All other particles stay as they were. */
  lemma {:induction false} FormsWithinCuts(r: Recipe, s: seq<Particle>, event: nat -> bool, n: nat, i: nat)
    requires i < n <= |s| && r.dTuFac > 0.0
    ensures var gas, stars, k := GasAfter(r, s, event, n), Stars(r, s, event, n), |Stars(r, s, event, i)|;
            if WithinCuts(r, s[i], event(i))
            then k < |stars| && FormedOf(r, s[i], gas[i], stars[k]) && |Stars(r, s, event, i + 1)| == k + 1
            else gas[i] == s[i] && |Stars(r, s, event, i + 1)| == k
  {
    hide Forms, WithinCuts, FormedOf, Consumed, NewStar;
    FormsIff(r, s[i], event(i));
    if WithinCuts(r, s[i], event(i)) { SharedOut(r, s[i], event(i)); }
    if i < n - 1 {
      FormsWithinCuts(r, s, event, n - 1, i);
      StarsGrow(r, s, event, n - 1, n);
    }
  }

  /** Every star comes from one particle within the cuts. */
  lemma {:induction false} EveryStarHasItsGas(r: Recipe, s: seq<Particle>, event: nat -> bool, n: nat, k: nat)
    returns (i: nat)
    requires n <= |s| && r.dTuFac > 0.0 && k < |Stars(r, s, event, n)|
    ensures i < n && WithinCuts(r, s[i], event(i)) && |Stars(r, s, event, i)| == k
    ensures FormedOf(r, s[i], GasAfter(r, s, event, n)[i], Stars(r, s, event, n)[k])
  {
    hide Forms, WithinCuts, FormedOf;
    if k < |Stars(r, s, event, n - 1)| {
      i := EveryStarHasItsGas(r, s, event, n - 1, k);
    } else {
      i := n - 1;
    }
    FormsWithinCuts(r, s, event, n, i);
  }

  // ----- removing and counting -----

  /** pkdColNParts keeps new particles and those that are not deleted. */
  predicate Keeps(p: Particle) {
    IsNew(p) || !IsDeleted(p)
  }

  function Survivors(s: seq<Particle>): seq<Particle> {
    if s == [] then []
    else if Keeps(s[|s| - 1]) then Survivors(s[..|s| - 1]) + [s[|s| - 1]]
    else Survivors(s[..|s| - 1])
  }

  /** A particle that is new or not deleted survives, behind the survivors among the particles before it; no other
      does. */
  lemma {:induction false} SurvivorAt(s: seq<Particle>, i: nat)
    requires i < |s|
    ensures var j, n := |Survivors(s[..i])|, |Survivors(s[..i + 1])|;
            if s[i].iOrder == IORDERMAX || s[i].eSpecies != Last
            then n == j + 1 <= |Survivors(s)| && Survivors(s)[j] == s[i]
            else n == j
  {
    assert s[..i + 1][..i] == s[..i];
    SurvivorsGrow(s, i + 1);
  }

  lemma {:induction false} SurvivorsGrow(s: seq<Particle>, i: nat)
    requires i <= |s|
    ensures Survivors(s[..i]) <= Survivors(s)
  {
    if i == |s| {
      assert s[..i] == s;
    } else {
      assert s[..|s| - 1][..i] == s[..i];
      SurvivorsGrow(s[..|s| - 1], i);
    }
  }

  function Goes(): Particle -> bool {
    (p: Particle) => !Keeps(p)
  }

  function NewOf(species: Species): Particle -> bool {
    (p: Particle) => IsNew(p) && p.eSpecies == species
  }

  function New(): Particle -> bool {
    (p: Particle) => IsNew(p)
  }

  /** Particles the master had already counted as gas: deleted particles have lost their species. */
  function OldGas(): Particle -> bool {
    (p: Particle) => !IsNew(p) && (p.eSpecies == Gas || p.eSpecies == Last)
  }

  function OldOf(species: Species): Particle -> bool {
    (p: Particle) => !IsNew(p) && p.eSpecies == species
  }

  function Of(species: Species): Particle -> bool {
    (p: Particle) => p.eSpecies == species
  }

  /** pkdColNParts expects new particles to be gas, dark matter or stars. */
  ghost predicate NewAreLive(s: seq<Particle>) {
    forall i | 0 <= i < |s| && IsNew(s[i]) :: s[i].eSpecies != Last
  }

  lemma {:induction false} GasBalances(s: seq<Particle>)
    requires NewAreLive(s)
    ensures |Survivors(s)| == |s| - Number(s, Goes())
    ensures Number(Survivors(s), Of(Gas)) == Number(s, OldGas()) + Number(s, NewOf(Gas)) - Number(s, Goes())
    ensures Number(Survivors(s), New()) == Number(s, New())
  {
    if s != [] {
      var n := |s| - 1;
      GasBalances(s[..n]);
      var t := Survivors(s[..n]);
      NumberSnoc(t, s[n], Of(Gas));
      NumberSnoc(t, s[n], New());
      assert IsNew(s[n]) ==> s[n].eSpecies != Last;
    }
  }

  lemma {:induction false} DarkBalances(s: seq<Particle>)
    ensures Number(Survivors(s), Of(Dark)) == Number(s, OldOf(Dark)) + Number(s, NewOf(Dark))
  {
    if s != [] {
      var n := |s| - 1;
      DarkBalances(s[..n]);
      var t := Survivors(s[..n]);
      NumberSnoc(t, s[n], Of(Dark));
    }
  }

  lemma {:induction false} StarBalances(s: seq<Particle>)
    ensures Number(Survivors(s), Of(Star)) == Number(s, OldOf(Star)) + Number(s, NewOf(Star))
  {
    if s != [] {
      var n := |s| - 1;
      StarBalances(s[..n]);
      var t := Survivors(s[..n]);
      NumberSnoc(t, s[n], Of(Star));
    }
  }

  lemma {:induction false} SurvivorsAreLive(s: seq<Particle>)
    requires NewAreLive(s)
    ensures |Survivors(s)| == Number(Survivors(s), Of(Gas)) + Number(Survivors(s), Of(Dark))
            + Number(Survivors(s), Of(Star))
    ensures Number(s, New()) == Number(s, NewOf(Gas)) + Number(s, NewOf(Dark)) + Number(s, NewOf(Star))
  {
    if s != [] {
      var n := |s| - 1;
      SurvivorsAreLive(s[..n]);
      var t := Survivors(s[..n]);
      NumberSnoc(t, s[n], Of(Gas));
      NumberSnoc(t, s[n], Of(Dark));
      NumberSnoc(t, s[n], Of(Star));
      assert IsNew(s[n]) ==> s[n].eSpecies != Last;
    }
  }

  /** The changes that pkdColNParts reports turn the old numbers of each species into the new ones, provided only
      gas was deleted. */
  lemma {:induction false} CountsBalance(s: seq<Particle>)
    requires NewAreLive(s)
    ensures |Survivors(s)| == |s| - Number(s, Goes())
    ensures Number(Survivors(s), Of(Gas)) == Number(s, OldGas()) + ChangesOf(s).nDeltaGas
    ensures Number(Survivors(s), Of(Dark)) == Number(s, OldOf(Dark)) + ChangesOf(s).nDeltaDark
    ensures Number(Survivors(s), Of(Star)) == Number(s, OldOf(Star)) + ChangesOf(s).nDeltaStar
    ensures |Survivors(s)| == Number(Survivors(s), Of(Gas)) + Number(Survivors(s), Of(Dark))
            + Number(Survivors(s), Of(Star))
    ensures Number(s, New()) == Number(s, NewOf(Gas)) + Number(s, NewOf(Dark)) + Number(s, NewOf(Star))
    ensures Number(Survivors(s), New()) == Number(s, New()) == ChangesOf(s).nNew
  {
    GasBalances(s);
    DarkBalances(s);
    StarBalances(s);
    SurvivorsAreLive(s);
  }

  /** Particles on the active rungs, and those of them that were not new. */
  function OnActive(r: Recipe): Particle -> bool {
    (p: Particle) => r.uMinRungActive <= p.uRung <= r.uMaxRungActive
  }

  function OldOnActive(r: Recipe): Particle -> bool {
    (p: Particle) => r.uMinRungActive <= p.uRung <= r.uMaxRungActive && !IsNew(p)
  }

  /** The change of the number of active particles turns that of the old ones into that of the survivors. */
  lemma {:induction false} ActiveBalances(s: seq<Particle>, r: Recipe)
    ensures Number(Survivors(s), OnActive(r))
         == Number(s, OldOnActive(r)) + Number(s, NewActive(r)) - Number(s, GoneActive(r))
  {
    if s != [] {
      var n := |s| - 1;
      ActiveBalances(s[..n], r);
      NumberSnoc(Survivors(s[..n]), s[n], OnActive(r));
    }
  }

  /** The mass that disappears is that of the deleted particles. */
  lemma {:induction false} MassOfSurvivors(s: seq<Particle>)
    ensures Mass(s) == Mass(Survivors(s)) + Mass(Removed(s))
  {
    if s != [] {
      var n := |s| - 1;
      MassOfSurvivors(s[..n]);
      MassSnoc(Survivors(s[..n]), s[n]);
      MassSnoc(Removed(s[..n]), s[n]);
    }
  }

  function Removed(s: seq<Particle>): seq<Particle> {
    if s == [] then []
    else if Keeps(s[|s| - 1]) then Removed(s[..|s| - 1])
    else Removed(s[..|s| - 1]) + [s[|s| - 1]]
  }

  // ----- numbering -----

  /** A 64-bit number passed as a 32-bit int. */
  function ToInt(n: nat): int {
    var m := n % 0x1_0000_0000;
    if m <= INT_MAX then m else m - 0x1_0000_0000
  }

  /** An int stored in the 43-bit field of a particle. */
  function ToOrder(n: int): nat {
    n % 0x800_0000_0000
  }

  /** The order a new particle gets when the master meant n. */
  function OrderFor(n: nat): nat {
    ToOrder(ToInt(n))
  }

  /** pkdNewOrder: the new particles are numbered consecutively from nStart on. */
  function Numbered(s: seq<Particle>, nStart: nat): (t: seq<Particle>)
    ensures |t| == |s|
  {
    if s == [] then [] else
    var n := |s| - 1;
    Numbered(s[..n], nStart)
      + [if IsNew(s[n]) then s[n].(iOrder := OrderFor(nStart + Number(s[..n], New()))) else s[n]]
  }

  lemma {:induction false} NumberedAt(s: seq<Particle>, nStart: nat, k: nat)
    requires k < |s|
    ensures Numbered(s, nStart)[k]
         == if IsNew(s[k]) then s[k].(iOrder := OrderFor(nStart + Number(s[..k], New()))) else s[k]
  {
    hide OrderFor;
    var n := |s| - 1;
    if k < n {
      NumberedAt(s[..n], nStart, k);
      assert s[..n][..k] == s[..k];
    }
  }

  lemma Wraps(n: nat)
    requires n <= IORDERMAX
    ensures var q, m := n / 0x1_0000_0000, n % 0x1_0000_0000;
            && n == 0x1_0000_0000 * q + m && q < 0x800
            && OrderFor(n) == if m <= INT_MAX then m else 0x7ff_0000_0000 + m
  {
    var m := n % 0x1_0000_0000;
    if m <= INT_MAX {
      assert m % 0x800_0000_0000 == m;
    } else {
      assert ToInt(n) + 0x800_0000_0000 == 0x7ff_0000_0000 + m;
      assert ToInt(n) == -1 * 0x800_0000_0000 + (0x7ff_0000_0000 + m);
    }
  }

  /** The number the master meant arrives exactly when it fits an int, or is so close to the largest order that
      the sign extension of a negative int restores it. */
  lemma FitsIff(n: nat)
    requires n <= IORDERMAX
    ensures OrderFor(n) == n <==> n <= INT_MAX || n >= 0x800_0000_0000 - 0x8000_0000
  {
    Wraps(n);
    hide OrderFor;
  }

  lemma ArrivesAsFive()
    ensures OrderFor(0x1_0000_0005) == 5
  {
  }

  lemma NumberNone(has: Particle -> bool)
    ensures Number([], has) == 0
  {
  }

  /** Beyond, a new particle can get the number of an old one. */
  lemma LargeNumbersCollide()
    ensures var s := [Particle(5, Dark, 1.0, 0.0, 0.0, 0.0, 0), Particle(0x1_0000_0004, Dark, 1.0, 0.0, 0.0, 0.0, 0),
                      Particle(IORDERMAX, Star, 1.0, 0.0, 0.0, 0.0, 0)];
            && Numbered(s, 0x1_0000_0005)[2].iOrder == 5 == Numbered(s, 0x1_0000_0005)[0].iOrder
  {
    hide Numbered, OrderFor;
    ArrivesAsFive();
    LastIsNew(Particle(5, Dark, 1.0, 0.0, 0.0, 0.0, 0), Particle(0x1_0000_0004, Dark, 1.0, 0.0, 0.0, 0.0, 0),
              Particle(IORDERMAX, Star, 1.0, 0.0, 0.0, 0.0, 0), 0x1_0000_0005);
  }

  lemma {:induction false} LastIsNew(p: Particle, q: Particle, r: Particle, nStart: nat)
    requires !IsNew(p) && !IsNew(q) && IsNew(r)
    ensures Numbered([p, q, r], nStart)[0] == p && Numbered([p, q, r], nStart)[2].iOrder == OrderFor(nStart)
  {
    hide OrderFor, Numbered, Number, IsNew;
    var s := [p, q, r];
    NumberedAt(s, nStart, 0);
    NumberedAt(s, nStart, 2);
    NumberNone(New());
    NumberSnoc([], p, New());
    NumberSnoc([p], q, New());
    assert [] + [p] == [p] && s[..2] == [p] + [q];
  }

  // ----- the local store -----

  /** The store while star formation has looked at its first i particles. */
  function Scanned(r: Recipe, s: seq<Particle>, event: nat -> bool, i: nat): seq<Particle>
    requires r.dTuFac > 0.0
  {
    var n := if i < |s| then i else |s|;
    GasAfter(r, s, event, n) + s[n..] + Stars(r, s, event, n)
  }

  lemma {:induction false} ScannedAll(r: Recipe, s: seq<Particle>, event: nat -> bool)
    requires r.dTuFac > 0.0
    ensures Scanned(r, s, event, |s|) == GasAfter(r, s, event, |s|) + Stars(r, s, event, |s|)
    ensures Mass(Scanned(r, s, event, |s|)) == Mass(s)
  {
    hide Forms;
    assert s[|s|..] == [] && s[..|s|] == s;
    assert GasAfter(r, s, event, |s|) + [] == GasAfter(r, s, event, |s|);
    MassMoves(r, s, event, |s|);
    MassConcat(GasAfter(r, s, event, |s|), Stars(r, s, event, |s|));
  }

  /** One more particle. */
  lemma ScanOne(r: Recipe, s: seq<Particle>, event: nat -> bool, i: nat)
    requires r.dTuFac > 0.0 && i < |s|
    ensures var t := Scanned(r, s, event, i);
            && |t| == |s| + |Stars(r, s, event, i)| && t[i] == s[i]
            && Scanned(r, s, event, i + 1)
               == (if Forms(r, s[i], event(i)) then t[i := Consumed(r, s[i])] + [NewStar(r, s[i])] else t)
            && |Stars(r, s, event, i + 1)| == |Stars(r, s, event, i)| + (if Forms(r, s[i], event(i)) then 1 else 0)
            && |Stars(r, s, event, i)| <= |Stars(r, s, event, |s|)|
               && |Stars(r, s, event, i + 1)| <= |Stars(r, s, event, |s|)|
  {
    hide Forms;
    var stars := Stars(r, s, event, i);
    StarsGrow(r, s, event, i, |s|);
    StarsGrow(r, s, event, i + 1, |s|);
    assert s[i..] == [s[i]] + s[i + 1..];
  }

  /** The appended stars are looked at, too, but they are not gas. */
  lemma {:induction false} ScanStar(r: Recipe, s: seq<Particle>, event: nat -> bool, i: nat)
    requires r.dTuFac > 0.0 && |s| <= i < |s| + |Stars(r, s, event, |s|)|
    ensures var t := Scanned(r, s, event, i);
            i < |t| && t[i].eSpecies == Star && Scanned(r, s, event, i + 1) == t && t == Scanned(r, s, event, |s|)
  {
    hide Forms;
    StarsAreNew(r, s, event, |s|);
    assert s[|s|..] == [];
  }

  class Pkd {
    const store: array<Particle>
    var nLocal: nat
    var nActive: int
    const r: Recipe

    ghost predicate Valid()
      reads this
    {
      nLocal <= store.Length && r.dTuFac > 0.0
    }

    ghost function View(): seq<Particle>
      requires nLocal <= store.Length
      reads this, store
    {
      store[..nLocal]
    }

    /** pkdNewParticle */
    method NewParticle(p: Particle) returns (ok: bool)
      requires Valid()
      modifies this`nLocal, store
      ensures Valid() && (ok <==> old(nLocal) < store.Length)
      ensures View() == if ok then old(View()) + [p.(iOrder := IORDERMAX)] else old(View())
    {
      ok := nLocal < store.Length;
      if ok {
        store[nLocal] := p.(iOrder := IORDERMAX);
        nLocal := nLocal + 1;
      }
    }

    /** One particle of the scan. */
    method ScanParticle(ghost view: seq<Particle>, i: nat, event: bool, tally: Tally) returns (ok: bool, tally': Tally)
      requires Valid() && i < nLocal && View() == view
      modifies this`nLocal, store
      ensures Valid() && (ok <==> |ViewAfter(r, view, i, event)| <= store.Length)
      ensures ok ==> View() == ViewAfter(r, view, i, event) && tally' == TallyAfter(r, tally, view[i], event)
    {
      ok, tally' := true, tally;
      assert view[i] == store[i];
      if Forms(r, store[i], event) {
        var p := store[i];
        var starp := NewStar(r, p);
        store[i] := Consumed(r, p);
        tally' := Tally(tally.nFormed + 1, tally.nDeleted + (if IsDeleted(store[i]) then 1 else 0),
                        tally.dMassFormed + starp.mass);
        assert View() == view[i := Consumed(r, p)];
        ok := NewParticle(starp);
      }
    }

    /** One pass of the loop of pkdStarForm, from one state of the scan to the next. */
    method ScanOn(ghost s: seq<Particle>, event: nat -> bool, i: nat, ghost view: seq<Particle>, tally: Tally)
      returns (ok: bool, tally': Tally, ghost view': seq<Particle>)
      requires Valid() && View() == view && Scan(r, s, event, i, view, tally) && i < nLocal
      modifies this`nLocal, store
      ensures Valid() && (ok ==> View() == view' && Scan(r, s, event, i + 1, view', tally') && i < |view'|)
      ensures i < Needed(r, s, event) && (!ok ==> Needed(r, s, event) > store.Length)
    {
      hide Scan, ViewAfter, TallyAfter, Needed;
      ScanNext(r, s, event, i, view, tally);
      view' := ViewAfter(r, view, i, event(i));
      ok, tally' := ScanParticle(view, i, event(i), tally);
    }

    /** pkdStarForm: it scans the stars it appends and still ends; it fails exactly if the store is too small. */
    method StarForm(event: nat -> bool) returns (ok: bool, tally: Tally)
      requires Valid()
      modifies this`nLocal, store
      ensures Valid()
      ensures ok <==> Needed(r, old(View()), event) <= store.Length
      ensures ok ==> FormedFrom(r, old(View()), event, View(), tally)
    {
      hide Scan, Needed, FormedFrom;
      ghost var s, view := View(), View();
      ok, tally := true, Tally(0, 0, 0.0);
      ScanStart(r, s, event);
      var i := 0;
      while i < nLocal
        invariant Valid() && i <= nLocal && View() == view && Scan(r, s, event, i, view, tally)
        decreases Needed(r, s, event) - i
      {
        ok, tally, view := ScanOn(s, event, i, view, tally);
        if !ok { return; }
        i := i + 1;
      }
      ScanEnd(r, s, event, i, view, tally);
    }

    /** The particle at place pi moves down to place pj. */
    method MoveDown(pi: nat, pj: nat)
      requires pj <= pi < nLocal <= store.Length
      modifies store
      ensures var t := old(store[..nLocal]); store[..nLocal] == if pj < pi then t[pj := t[pi]] else t
    {
      if pj < pi { store[pj] := store[pi]; }
    }

    /** One pass of the loop of pkdColNParts. */
    method CompactOn(ghost s: seq<Particle>, ghost t: seq<Particle>, pi: nat, pj: nat, newnLocal: int, out: Changes,
                     ghost active: int)
      returns (pj': nat, newnLocal': int, out': Changes, ghost t': seq<Particle>)
      requires pi < nLocal == |s| == |t| && nLocal <= store.Length && store[..nLocal] == t && NewAreLive(s)
      requires Compacted(s, r, t, pi, pj, newnLocal, out, active)
      modifies this`nActive, store
      ensures store[..nLocal] == t'
      ensures Compacted(s, r, t', pi + 1, pj', newnLocal', out', active + nActive - old(nActive))
    {
      CompactOne(s, r, t, pi, pj, newnLocal, out, active);
      hide Compacted, AfterNew, IsActive;
      var p := store[pi];
      assert p == t[pi] == s[pi];
      MoveDown(pi, pj);
      t' := if pj < pi then t[pj := p] else t;
      pj', newnLocal', out' := pj, newnLocal, out;
      if IsNew(p) {
        pj' := pj + 1;
        assert p.eSpecies != Last;
        out' := AfterNew(out, p);
        if IsActive(r, p) { nActive := nActive + 1; }
      } else if IsDeleted(p) {
        newnLocal' := newnLocal - 1;
        out' := out.(nDeltaGas := out.nDeltaGas - 1);
        if IsActive(r, p) { nActive := nActive - 1; }
      } else {
        pj' := pj + 1;
      }
    }

    /** pkdColNParts: the surviving particles move down, in order; the result is what changed. */
    method ColNParts() returns (out: Changes)
      requires Valid() && NewAreLive(View())
      modifies this`nLocal, this`nActive, store
      ensures Valid() && CompactedFrom(r, old(View()), View(), out, nActive - old(nActive))
    {
      hide Compacted, CompactedFrom, NewAreLive;
      ghost var s, t := View(), View();
      out := Changes(0, 0, 0, 0);
      var newnLocal: int := nLocal;
      var pj := 0;
      CompactStart(s, nActive);
      for pi := 0 to nLocal
        invariant nLocal == |s| == |t| && store[..nLocal] == t
        invariant Compacted(s, r, t, pi, pj, newnLocal, out, nActive - old(nActive))
      {
        pj, newnLocal, out, t := CompactOn(s, t, pi, pj, newnLocal, out, nActive - old(nActive));
      }
      CompactEnd(s, r, t, pj, newnLocal, out, nActive - old(nActive));
      assert store[..newnLocal] == t[..newnLocal];
      nLocal := newnLocal;
    }

    /** pkdNewOrder */
    method NewOrder(nStart: nat)
      requires Valid()
      modifies store
      ensures Valid() && View() == Numbered(old(View()), nStart)
    {
      hide OrderFor, NumberedTo, Numbered;
      ghost var s := View();
      var next := nStart;
      NumberedStart(s, nStart);
      ghost var t := s;
      for pi := 0 to nLocal
        invariant nLocal == |s| == |t| && store[..nLocal] == t && NumberedTo(s, t, nStart, pi, next)
      {
        NumberedMore(s, t, nStart, pi, next);
        assert store[pi] == t[pi];
        if store[pi].iOrder == IORDERMAX {
          var order := OrderFor(next);
          store[pi] := store[pi].(iOrder := order);
          t := t[pi := t[pi].(iOrder := order)];
          assert store[..nLocal] == t;
          next := next + 1;
        }
      }
      NumberedEnd(s, t, nStart, next);
    }
  }

  /** The first pi particles have been numbered. */
  ghost predicate NumberedTo(s: seq<Particle>, t: seq<Particle>, nStart: nat, pi: nat, next: nat) {
    && |t| == |s| && pi <= |s| && next == nStart + Number(s[..pi], New())
    && t == Numbered(s, nStart)[..pi] + s[pi..]
  }

  lemma NumberedStart(s: seq<Particle>, nStart: nat)
    ensures NumberedTo(s, s, nStart, 0, nStart)
  {
    assert s[..0] == [];
  }

  lemma NumberedMore(s: seq<Particle>, t: seq<Particle>, nStart: nat, pi: nat, next: nat)
    requires NumberedTo(s, t, nStart, pi, next) && pi < |s|
    ensures |t| == |s| && t[pi] == s[pi]
    ensures if IsNew(s[pi]) then NumberedTo(s, t[pi := s[pi].(iOrder := OrderFor(next))], nStart, pi + 1, next + 1)
            else NumberedTo(s, t, nStart, pi + 1, next)
  {
    hide OrderFor;
    NumberedAt(s, nStart, pi);
    assert s[..pi + 1] == s[..pi] + [s[pi]];
    NumberSnoc(s[..pi], s[pi], New());
    var u := Numbered(s, nStart);
    assert u[..pi + 1] == u[..pi] + [u[pi]] && s[pi..] == [s[pi]] + s[pi + 1..];
  }

  lemma {:induction false} NumberedEnd(s: seq<Particle>, t: seq<Particle>, nStart: nat, next: nat)
    requires NumberedTo(s, t, nStart, |s|, next)
    ensures t == Numbered(s, nStart)
  {
    hide OrderFor;
  }

  // ----- compaction -----

  /** What pkdColNParts reports. */
  datatype Changes = Changes(nNew: nat, nDeltaGas: int, nDeltaDark: int, nDeltaStar: int)

  function ChangesOf(s: seq<Particle>): Changes {
    Changes(Number(s, New()), Number(s, NewOf(Gas)) - Number(s, Goes()), Number(s, NewOf(Dark)), Number(s, NewOf(Star)))
  }

  function NewActive(r: Recipe): Particle -> bool {
    (p: Particle) => IsNew(p) && IsActive(r, p)
  }

  function GoneActive(r: Recipe): Particle -> bool {
    (p: Particle) => !Keeps(p) && IsActive(r, p)
  }

  /** The first pi particles have been looked at and the survivors among them moved to the first pj places. */
  ghost predicate Compacted(s: seq<Particle>, r: Recipe, t: seq<Particle>, pi: nat, pj: nat, newnLocal: int,
                            out: Changes, active: int) {
    && pj <= pi <= |s| == |t| && pj == |Survivors(s[..pi])| && t[..pj] == Survivors(s[..pi]) && t[pi..] == s[pi..]
    && newnLocal == |s| - Number(s[..pi], Goes()) && out == ChangesOf(s[..pi])
    && active == Number(s[..pi], NewActive(r)) - Number(s[..pi], GoneActive(r))
  }

  /** The survivors of s are left, and the changes and that of the number of active particles have been reported. */
  ghost predicate CompactedFrom(r: Recipe, s: seq<Particle>, t: seq<Particle>, out: Changes, active: int) {
    && t == Survivors(s) && out == ChangesOf(s)
    && active == Number(s, NewActive(r)) - Number(s, GoneActive(r))
  }

  lemma CompactStart(s: seq<Particle>, n: int)
    ensures forall r :: Compacted(s, r, s, 0, 0, |s|, Changes(0, 0, 0, 0), 0)
  {
    assert s[..0] == [];
  }

  lemma CompactOne(s: seq<Particle>, r: Recipe, t: seq<Particle>, pi: nat, pj: nat, newnLocal: int, out: Changes,
                   active: int)
    requires Compacted(s, r, t, pi, pj, newnLocal, out, active) && pi < |s|
    ensures t[pi] == s[pi]
    ensures var p := s[pi];
            var t' := if pj < pi then t[pj := p] else t;
            var act := if IsActive(r, p) then 1 else 0;
            if IsNew(p) then Compacted(s, r, t', pi + 1, pj + 1, newnLocal, AfterNew(out, p), active + act)
            else if IsDeleted(p) then
              Compacted(s, r, t', pi + 1, pj, newnLocal - 1, out.(nDeltaGas := out.nDeltaGas - 1), active - act)
            else Compacted(s, r, t', pi + 1, pj + 1, newnLocal, out, active)
  {
    hide Number, ChangesOf, AfterNew, Survivors, NewActive, GoneActive, IsActive;
    assert s[..pi + 1] == s[..pi] + [s[pi]];
    CountsNext(s[..pi], s[pi], r);
    CompactedData(s, t, pi, pj);
  }

  /** What is counted for one more particle. */
  lemma CountsNext(u: seq<Particle>, p: Particle, r: Recipe)
    ensures var v, act := u + [p], if IsActive(r, p) then 1 else 0;
            var more := Number(v, NewActive(r)) - Number(u, NewActive(r));
            var less := Number(v, GoneActive(r)) - Number(u, GoneActive(r));
            && Number(v, Goes()) == Number(u, Goes()) + (if Keeps(p) then 0 else 1)
            && more == (if IsNew(p) then act else 0) && less == (if Keeps(p) then 0 else act)
            && ChangesOf(v) == if IsNew(p) then AfterNew(ChangesOf(u), p)
                               else if IsDeleted(p) then ChangesOf(u).(nDeltaGas := ChangesOf(u).nDeltaGas - 1)
                               else ChangesOf(u)
  {
    hide Number, IsActive;
    NumberSnoc(u, p, Goes());
    NumberSnoc(u, p, New());
    NumberSnoc(u, p, NewOf(Gas));
    NumberSnoc(u, p, NewOf(Dark));
    NumberSnoc(u, p, NewOf(Star));
    NumberSnoc(u, p, NewActive(r));
    NumberSnoc(u, p, GoneActive(r));
  }

  lemma CompactedData(s: seq<Particle>, t: seq<Particle>, pi: nat, pj: nat)
    requires pj <= pi < |s| == |t| && pj == |Survivors(s[..pi])| && t[..pj] == Survivors(s[..pi]) && t[pi..] == s[pi..]
    ensures t[pi] == s[pi]
    ensures var t' := if pj < pi then t[pj := s[pi]] else t;
            && Survivors(s[..pi + 1]) == Survivors(s[..pi]) + (if Keeps(s[pi]) then [s[pi]] else [])
            && t'[pi + 1..] == s[pi + 1..] && t'[..pj] == Survivors(s[..pi])
            && (Keeps(s[pi]) ==> t'[..pj + 1] == Survivors(s[..pi + 1]))
  {
    assert s[..pi + 1][..pi] == s[..pi];
    assert t[pi] == t[pi..][0] == s[pi..][0];
    assert t[pi + 1..] == t[pi..][1..] && s[pi + 1..] == s[pi..][1..];
    var t' := if pj < pi then t[pj := s[pi]] else t;
    assert t'[..pj + 1] == t[..pj] + [s[pi]];
  }

  function AfterNew(out: Changes, p: Particle): Changes {
    match p.eSpecies
    case Gas => out.(nNew := out.nNew + 1, nDeltaGas := out.nDeltaGas + 1)
    case Dark => out.(nNew := out.nNew + 1, nDeltaDark := out.nDeltaDark + 1)
    case Star => out.(nNew := out.nNew + 1, nDeltaStar := out.nDeltaStar + 1)
    case Last => out.(nNew := out.nNew + 1)
  }

  lemma {:induction false} CompactEnd(s: seq<Particle>, r: Recipe, t: seq<Particle>, pj: nat, newnLocal: int,
                                      out: Changes, active: int)
    requires Compacted(s, r, t, |s|, pj, newnLocal, out, active) && NewAreLive(s)
    ensures 0 <= newnLocal == pj <= |t| && CompactedFrom(r, s, t[..newnLocal], out, active)
  {
    assert s[..|s|] == s;
    CountsBalance(s);
  }

  /** What pkdStarForm reports: the stars formed, the gas particles deleted, and the mass of the stars. */
  datatype Tally = Tally(nFormed: nat, nDeleted: nat, dMassFormed: real)

  function ViewAfter(r: Recipe, view: seq<Particle>, i: nat, event: bool): seq<Particle>
    requires r.dTuFac > 0.0 && i < |view|
  {
    if Forms(r, view[i], event) then view[i := Consumed(r, view[i])] + [NewStar(r, view[i])] else view
  }

  function TallyAfter(r: Recipe, t: Tally, p: Particle, event: bool): Tally
    requires r.dTuFac > 0.0
  {
    if Forms(r, p, event)
    then Tally(t.nFormed + 1, t.nDeleted + (if IsDeleted(Consumed(r, p)) then 1 else 0),
               t.dMassFormed + NewStar(r, p).mass)
    else t
  }

  /** The number of places in the store that star formation needs. */
  function Needed(r: Recipe, s: seq<Particle>, event: nat -> bool): nat
    requires r.dTuFac > 0.0
  {
    |s| + |Stars(r, s, event, |s|)|
  }

  /** From s star formation has made t, with the same mass, and reported it. */
  ghost predicate FormedFrom(r: Recipe, s: seq<Particle>, event: nat -> bool, t: seq<Particle>, tally: Tally) {
    && r.dTuFac > 0.0 && t == GasAfter(r, s, event, |s|) + Stars(r, s, event, |s|)
    && Mass(t) == Mass(s) && Report(r, s, event, |s|, tally)
  }

  /** The state of the scan before particle i. */
  ghost predicate Scan(r: Recipe, s: seq<Particle>, event: nat -> bool, i: nat, view: seq<Particle>, tally: Tally) {
    && r.dTuFac > 0.0 && view == Scanned(r, s, event, i) && i <= |s| + |Stars(r, s, event, |s|)|
    && var n := if i < |s| then i else |s|;
       |view| == |s| + |Stars(r, s, event, n)| && Report(r, s, event, n, tally)
  }

  lemma ScanStart(r: Recipe, s: seq<Particle>, event: nat -> bool)
    requires r.dTuFac > 0.0
    ensures Scan(r, s, event, 0, s, Tally(0, 0, 0.0))
  {
    hide Forms;
    ScannedNone(r, s, event);
  }

  lemma {:induction false} ScanNext(r: Recipe, s: seq<Particle>, event: nat -> bool, i: nat, view: seq<Particle>,
                                    tally: Tally)
    requires Scan(r, s, event, i, view, tally) && i < |view|
    ensures i < Needed(r, s, event) && |view| <= |ViewAfter(r, view, i, event(i))| <= Needed(r, s, event)
    ensures Scan(r, s, event, i + 1, ViewAfter(r, view, i, event(i)), TallyAfter(r, tally, view[i], event(i)))
  {
    hide Forms, Consumed, NewStar, Scanned, Report, GasAfter, Stars, Mass;
    if i < |s| {
      ScanOne(r, s, event, i);
      ReportOne(r, s, event, i, tally);
    } else {
      ScanStar(r, s, event, i);
      NotGas(r, view[i], event(i));
    }
  }

  lemma {:induction false} ScanEnd(r: Recipe, s: seq<Particle>, event: nat -> bool, i: nat, view: seq<Particle>,
                                   tally: Tally)
    requires Scan(r, s, event, i, view, tally) && i >= |view|
    ensures FormedFrom(r, s, event, view, tally) && |view| == Needed(r, s, event)
  {
    hide Forms;
    ScannedEnd(r, s, event, i);
    ScannedAll(r, s, event);
  }

  /** How many gas particles star formation used up. */
  function Deletions(r: Recipe, s: seq<Particle>, event: nat -> bool, n: nat): nat
    requires n <= |s| && r.dTuFac > 0.0
  {
    if n == 0 then 0
    else Deletions(r, s, event, n - 1) + if Forms(r, s[n - 1], event(n - 1))
        && IsDeleted(Consumed(r, s[n - 1])) then 1 else 0
  }

  lemma OneMoreDeleted(r: Recipe, p: Particle, event: bool)
    requires r.dTuFac > 0.0
    ensures var q := if Forms(r, p, event) then Consumed(r, p) else p;
            Of(Last)(q) <==> Of(Last)(p) || (Forms(r, p, event) && IsDeleted(Consumed(r, p)))
    ensures Of(Last)(p) ==> !Forms(r, p, event)
  {
  }

  /** What is reported as deleted is what has become a deleted particle. */
  lemma {:induction false} DeletionsAreCounted(r: Recipe, s: seq<Particle>, event: nat -> bool, n: nat)
    requires n <= |s| && r.dTuFac > 0.0
    ensures Number(GasAfter(r, s, event, n), Of(Last)) == Number(s[..n], Of(Last)) + Deletions(r, s, event, n)
  {
    hide Forms, Consumed, Number, IsDeleted, Of;
    if n == 0 {
      assert s[..0] == [];
    } else {
      DeletionsAreCounted(r, s, event, n - 1);
      var p := s[n - 1];
      OneMoreDeleted(r, p, event(n - 1));
      assert s[..n] == s[..n - 1] + [p];
      NumberSnoc(s[..n - 1], p, Of(Last));
      NumberSnoc(GasAfter(r, s, event, n - 1), if Forms(r, p, event(n - 1)) then Consumed(r, p) else p, Of(Last));
    }
  }

  ghost predicate Report(r: Recipe, s: seq<Particle>, event: nat -> bool, n: nat, t: Tally) {
    && n <= |s| && r.dTuFac > 0.0 && t.nFormed == |Stars(r, s, event, n)|
       && t.dMassFormed == Mass(Stars(r, s, event, n))
    && t.nDeleted == Deletions(r, s, event, n)
  }

  lemma ReportOne(r: Recipe, s: seq<Particle>, event: nat -> bool, n: nat, t: Tally)
    requires Report(r, s, event, n, t) && n < |s|
    ensures Report(r, s, event, n + 1, TallyAfter(r, t, s[n], event(n)))
  {
    hide Forms;
    var stars := Stars(r, s, event, n);
    MassSnoc(stars, NewStar(r, s[n]));
  }

  lemma {:induction false} ScannedNone(r: Recipe, s: seq<Particle>, event: nat -> bool)
    requires r.dTuFac > 0.0
    ensures Scanned(r, s, event, 0) == s && Stars(r, s, event, 0) == [] && Report(r, s, event, 0, Tally(0, 0, 0.0))
  {
    hide Forms;
  }

  lemma ScannedEnd(r: Recipe, s: seq<Particle>, event: nat -> bool, i: nat)
    requires r.dTuFac > 0.0 && i >= |s|
    ensures Scanned(r, s, event, i) == Scanned(r, s, event, |s|)
  {
    hide Forms;
  }

  lemma NotGas(r: Recipe, p: Particle, event: bool)
    requires r.dTuFac > 0.0 && p.eSpecies != Gas
    ensures !Forms(r, p, event)
  {
  }

  // ----- all processors and the master -----

  ghost predicate Apart(pkds: seq<Pkd>) {
    forall i, j | 0 <= i < j < |pkds| :: pkds[i] != pkds[j] && pkds[i].store != pkds[j].store
  }

  ghost function Footprint(pkds: seq<Pkd>): set<object> {
    (set i | 0 <= i < |pkds| :: pkds[i]) + (set i | 0 <= i < |pkds| :: pkds[i].store)
  }

  /** The processors hold the particles vs. */
  ghost predicate Hold(pkds: seq<Pkd>, vs: seq<seq<Particle>>)
    reads Footprint(pkds)
  {
    |vs| == |pkds| && forall i | 0 <= i < |pkds| :: pkds[i].Valid() && pkds[i].View() == vs[i]
  }

  /** Sums over the first n processors. */
  function TotalOf(vs: seq<seq<Particle>>, has: Particle -> bool, n: nat): nat
    requires n <= |vs|
  {
    if n == 0 then 0 else TotalOf(vs, has, n - 1) + Number(vs[n - 1], has)
  }

  function TotalLength(vs: seq<seq<Particle>>, n: nat): nat
    requires n <= |vs|
  {
    if n == 0 then 0 else TotalLength(vs, n - 1) + |vs[n - 1]|
  }

  function AllSurvivors(vs: seq<seq<Particle>>): (ws: seq<seq<Particle>>)
    ensures |ws| == |vs| && forall i | 0 <= i < |vs| :: ws[i] == Survivors(vs[i])
  {
    seq(|vs|, (i: nat) requires i < |vs| => Survivors(vs[i]))
  }

  /** Each processor numbers its new particles from where the processors before it stop. */
  function AllNumbered(ws: seq<seq<Particle>>, nMaxOrder: nat): (us: seq<seq<Particle>>)
    ensures |us| == |ws| && forall i | 0 <= i < |ws| :: us[i] == NumberedAfter(ws, nMaxOrder, i)
  {
    seq(|ws|, (i: nat) requires i < |ws| => NumberedAfter(ws, nMaxOrder, i))
  }

  function NumberedAfter(ws: seq<seq<Particle>>, nMaxOrder: nat, i: nat): seq<Particle>
    requires i < |ws|
  {
    Numbered(ws[i], nMaxOrder + 1 + TotalOf(ws, New(), i))
  }

  /** No two particles anywhere have the same order. */
  ghost predicate AllDistinct(us: seq<seq<Particle>>) {
    forall i, k, j, l | 0 <= i < |us| && 0 <= k < |us[i]| && 0 <= j < |us| && 0 <= l < |us[j]| && (i, k) != (j, l) ::
      us[i][k].iOrder != us[j][l].iOrder
  }

  /** The old particles have different orders, none above nMaxOrder. */
  ghost predicate OldDistinct(ws: seq<seq<Particle>>, nMaxOrder: nat) {
    && (forall i, k | 0 <= i < |ws| && 0 <= k < |ws[i]| && !IsNew(ws[i][k]) :: ws[i][k].iOrder <= nMaxOrder)
    && forall i, k, j, l | 0 <= i < |ws| && 0 <= k < |ws[i]| && 0 <= j < |ws| && 0 <= l < |ws[j]| && (i, k) != (j, l)
                           && !IsNew(ws[i][k]) && !IsNew(ws[j][l]) :: ws[i][k].iOrder != ws[j][l].iOrder
  }

  lemma {:induction false} NumberPrefix(s: seq<Particle>, k: nat, has: Particle -> bool)
    requires k <= |s|
    ensures Number(s[..k], has) <= Number(s, has)
    ensures k < |s| && has(s[k]) ==> Number(s[..k], has) < Number(s, has)
  {
    if k == |s| {
      assert s[..k] == s;
    } else {
      var n := |s| - 1;
      assert k < n ==> s[..n][..k] == s[..k];
      NumberPrefix(s[..n], if k < n then k else n, has);
      assert s[..n][..n] == s[..n];
    }
  }

  lemma {:induction false} TotalGrows(ws: seq<seq<Particle>>, has: Particle -> bool, i: nat, j: nat)
    requires i < j <= |ws|
    ensures TotalOf(ws, has, i) + Number(ws[i], has) <= TotalOf(ws, has, j)
  {
    if i < j - 1 { TotalGrows(ws, has, i, j - 1); }
  }

  /** The number of new particles before place k of processor i. */
  function Rank(ws: seq<seq<Particle>>, i: nat, k: nat): nat
    requires i < |ws| && k < |ws[i]|
  {
    TotalOf(ws, New(), i) + Number(ws[i][..k], New())
  }

  lemma {:induction false} RankBelow(ws: seq<seq<Particle>>, i: nat, k: nat)
    requires i < |ws| && k < |ws[i]| && IsNew(ws[i][k])
    ensures Rank(ws, i, k) < TotalOf(ws, New(), i) + Number(ws[i], New()) <= TotalOf(ws, New(), |ws|)
  {
    NumberPrefix(ws[i], k, New());
    TotalGrows(ws, New(), i, |ws|);
  }

  /** Different new particles have different ranks. */
  lemma RanksDiffer(ws: seq<seq<Particle>>, i: nat, k: nat, j: nat, l: nat)
    requires i < |ws| && k < |ws[i]| && j < |ws| && l < |ws[j]| && IsNew(ws[i][k]) && IsNew(ws[j][l])
    requires i < j || (i == j && k < l)
    ensures Rank(ws, i, k) < Rank(ws, j, l)
  {
    if i < j {
      RankBelow(ws, i, k);
      TotalGrows(ws, New(), i, j);
    } else {
      assert ws[i][..l][..k] == ws[i][..k];
      NumberPrefix(ws[i][..l], k, New());
    }
  }

  /** The order that the new particle of rank r gets. */
  function OrderAt(nMaxOrder: nat, r: nat): nat {
    OrderFor(nMaxOrder + 1 + r)
  }

  /** The order a particle ends up with. */
  lemma {:induction false} OrderOf(ws: seq<seq<Particle>>, nMaxOrder: nat, i: nat, k: nat)
    requires i < |ws| && k < |ws[i]|
    ensures AllNumbered(ws, nMaxOrder)[i][k]
         == if IsNew(ws[i][k]) then ws[i][k].(iOrder := OrderAt(nMaxOrder, Rank(ws, i, k))) else ws[i][k]
    ensures IsNew(ws[i][k]) ==> Rank(ws, i, k) < TotalOf(ws, New(), |ws|)
  {
    hide OrderFor, Numbered, Number, TotalOf;
    var nStart := nMaxOrder + 1 + TotalOf(ws, New(), i);
    NumberedAt(ws[i], nStart, k);
    assert nStart + Number(ws[i][..k], New()) == nMaxOrder + 1 + Rank(ws, i, k);
    if IsNew(ws[i][k]) { RankBelow(ws, i, k); }
  }

  lemma {:induction false} NthNew(s: seq<Particle>, r: nat) returns (k: nat)
    requires r < Number(s, New())
    ensures k < |s| && IsNew(s[k]) && Number(s[..k], New()) == r
  {
    var n := |s| - 1;
    if r < Number(s[..n], New()) {
      k := NthNew(s[..n], r);
      assert s[..n][..k] == s[..k];
    } else {
      k := n;
    }
  }

  /** Each rank below the total is that of some new particle. */
  lemma {:induction false} RankTaken(ws: seq<seq<Particle>>, n: nat, r: nat) returns (i: nat, k: nat)
    requires n <= |ws| && r < TotalOf(ws, New(), n)
    ensures i < n && k < |ws[i]| && IsNew(ws[i][k]) && Rank(ws, i, k) == r
  {
    var before := TotalOf(ws, New(), n - 1);
    if r < before {
      i, k := RankTaken(ws, n - 1, r);
    } else {
      i := n - 1;
      k := NthNew(ws[i], r - before);
    }
  }

  /** Two numbers arrive as the same order exactly when they agree in their lower 32 bits. */
  lemma SameOrderIff(a: nat, b: nat)
    requires a <= IORDERMAX && b <= IORDERMAX
    ensures OrderFor(a) == OrderFor(b) <==> a % 0x1_0000_0000 == b % 0x1_0000_0000
  {
    Wraps(a);
    Wraps(b);
    hide OrderFor;
  }

  lemma AgreeIff(a: nat, b: nat)
    requires a < b
    ensures b - a < 0x1_0000_0000 ==> a % 0x1_0000_0000 != b % 0x1_0000_0000
    ensures b - a == 0x1_0000_0000 ==> a % 0x1_0000_0000 == b % 0x1_0000_0000
  {
  }

  /** No old particle has an order that one of the total new ones gets. */
  ghost predicate NoneTaken(ws: seq<seq<Particle>>, nMaxOrder: nat, total: nat) {
    forall i, k, r | 0 <= i < |ws| && 0 <= k < |ws[i]| && !IsNew(ws[i][k]) && 0 <= r < total ::
      ws[i][k].iOrder != OrderAt(nMaxOrder, r)
  }

  /** After the pass all particles of the machine have different orders exactly if there are at most 2^32 new ones
      and none of them gets the order of an old particle. */
  lemma {:induction false} OrdersDistinctIff(ws: seq<seq<Particle>>, nMaxOrder: nat, total: nat)
    requires OldDistinct(ws, nMaxOrder) && total == TotalOf(ws, New(), |ws|) && nMaxOrder + total < IORDERMAX
    ensures AllDistinct(AllNumbered(ws, nMaxOrder)) <==> total <= 0x1_0000_0000 && NoneTaken(ws, nMaxOrder, total)
  {
    if AllDistinct(AllNumbered(ws, nMaxOrder)) { DistinctNeeds(ws, nMaxOrder, total); }
    if total <= 0x1_0000_0000 && NoneTaken(ws, nMaxOrder, total) { DistinctIf(ws, nMaxOrder, total); }
  }

  lemma {:induction false} DistinctNeeds(ws: seq<seq<Particle>>, nMaxOrder: nat, total: nat)
    requires total == TotalOf(ws, New(), |ws|) && nMaxOrder + total < IORDERMAX
    requires AllDistinct(AllNumbered(ws, nMaxOrder))
    ensures total <= 0x1_0000_0000 && NoneTaken(ws, nMaxOrder, total)
  {
    hide OrderAt, AllNumbered, TotalOf, Rank, OrderFor;
    if total > 0x1_0000_0000 {
      var i, k := RankTaken(ws, |ws|, 0);
      var j, l := RankTaken(ws, |ws|, 0x1_0000_0000);
      OrderOf(ws, nMaxOrder, i, k);
      OrderOf(ws, nMaxOrder, j, l);
      RanksRepeat(nMaxOrder, 0);
      assert false;
    }
    forall i, k, r | 0 <= i < |ws| && 0 <= k < |ws[i]| && !IsNew(ws[i][k]) && 0 <= r < total
      ensures ws[i][k].iOrder != OrderAt(nMaxOrder, r)
    {
      var j, l := RankTaken(ws, |ws|, r);
      OrderOf(ws, nMaxOrder, i, k);
      OrderOf(ws, nMaxOrder, j, l);
    }
  }

  lemma RanksRepeat(nMaxOrder: nat, r: nat)
    requires nMaxOrder + 1 + r + 0x1_0000_0000 < IORDERMAX
    ensures OrderAt(nMaxOrder, r) == OrderAt(nMaxOrder, r + 0x1_0000_0000)
  {
    hide OrderFor;
    var a := nMaxOrder + 1 + r;
    AgreeIff(a, a + 0x1_0000_0000);
    SameOrderIff(a, a + 0x1_0000_0000);
  }

  lemma OrdersApart(nMaxOrder: nat, r: nat, t: nat)
    requires r < t < 0x1_0000_0000 && nMaxOrder + 1 + t < IORDERMAX
    ensures OrderAt(nMaxOrder, r) != OrderAt(nMaxOrder, t)
  {
    hide OrderFor;
    AgreeIff(nMaxOrder + 1 + r, nMaxOrder + 1 + t);
    SameOrderIff(nMaxOrder + 1 + r, nMaxOrder + 1 + t);
  }

  lemma {:induction false} DistinctIf(ws: seq<seq<Particle>>, nMaxOrder: nat, total: nat)
    requires OldDistinct(ws, nMaxOrder) && total == TotalOf(ws, New(), |ws|) && nMaxOrder + total < IORDERMAX
    requires total <= 0x1_0000_0000 && NoneTaken(ws, nMaxOrder, total)
    ensures AllDistinct(AllNumbered(ws, nMaxOrder))
  {
    var us: seq<seq<Particle>> := AllNumbered(ws, nMaxOrder);
    hide OrderAt, AllNumbered, TotalOf, Rank, OrderFor;
    forall i, k, j, l | 0 <= i < |us| && 0 <= k < |us[i]| && 0 <= j < |us| && 0 <= l < |us[j]| && (i, k) != (j, l)
      ensures us[i][k].iOrder != us[j][l].iOrder
    {
      OrderOf(ws, nMaxOrder, i, k);
      OrderOf(ws, nMaxOrder, j, l);
      if IsNew(ws[i][k]) && IsNew(ws[j][l]) {
        if i < j || (i == j && k < l) {
          RanksDiffer(ws, i, k, j, l);
          OrdersApart(nMaxOrder, Rank(ws, i, k), Rank(ws, j, l));
        } else {
          RanksDiffer(ws, j, l, i, k);
          OrdersApart(nMaxOrder, Rank(ws, j, l), Rank(ws, i, k));
        }
      }
    }
  }

  /** Which orders the new particles get, from the order, the largest old one and the number of new particles. */
  lemma TakenIff(nMaxOrder: nat, total: nat, order: nat)
    requires nMaxOrder + total < IORDERMAX && order <= IORDERMAX
    ensures (exists r: nat :: r < total && order == OrderAt(nMaxOrder, r))
       <==> && (order <= INT_MAX || order >= 0x800_0000_0000 - 0x8000_0000)
            && (order - nMaxOrder - 1) % 0x1_0000_0000 < total
  {
    hide OrderFor;
    FitsIff(order);
    var least := (order - nMaxOrder - 1) % 0x1_0000_0000;
    if r: nat :| r < total && order == OrderAt(nMaxOrder, r) {
      ArrivesFitting(nMaxOrder + 1 + r);
      SameOrderIff(order, nMaxOrder + 1 + r);
      LeastRank(order, nMaxOrder + 1, r);
    }
    if OrderFor(order) == order && least < total {
      LeastRank(order, nMaxOrder + 1, least);
      SameOrderIff(order, nMaxOrder + 1 + least);
      assert order == OrderAt(nMaxOrder, least);
    }
  }

  lemma ArrivesFitting(n: nat)
    requires n <= IORDERMAX
    ensures OrderFor(n) <= INT_MAX || OrderFor(n) >= 0x800_0000_0000 - 0x8000_0000
  {
    Wraps(n);
    hide OrderFor;
  }

  lemma LeastRank(order: int, start: int, r: nat)
    ensures order % 0x1_0000_0000 == (start + r) % 0x1_0000_0000 ==> (order - start) % 0x1_0000_0000 <= r
    ensures r == (order - start) % 0x1_0000_0000 ==> order % 0x1_0000_0000 == (start + r) % 0x1_0000_0000
  {
  }

  /** No particle is left with the mark of a new one exactly if the numbering stops before the next number whose lower
      32 bits are all ones: that number arrives as the mark. */
  lemma {:induction false} NoneLeftNewIff(ws: seq<seq<Particle>>, nMaxOrder: nat, total: nat)
    requires total == TotalOf(ws, New(), |ws|) && nMaxOrder + total < IORDERMAX
    ensures (forall i, k | 0 <= i < |ws| && 0 <= k < |ws[i]| :: !IsNew(AllNumbered(ws, nMaxOrder)[i][k]))
       <==> total <= (IORDERMAX - nMaxOrder - 1) % 0x1_0000_0000
  {
    var us: seq<seq<Particle>> := AllNumbered(ws, nMaxOrder);
    TakenIff(nMaxOrder, total, IORDERMAX);
    hide OrderAt, AllNumbered, TotalOf, Rank, OrderFor;
    if r: nat :| r < total && IORDERMAX == OrderAt(nMaxOrder, r) {
      var j, l := RankTaken(ws, |ws|, r);
      OrderOf(ws, nMaxOrder, j, l);
      assert IsNew(us[j][l]);
    } else {
      forall i, k | 0 <= i < |ws| && 0 <= k < |ws[i]| ensures !IsNew(us[i][k]) { OrderOf(ws, nMaxOrder, i, k); }
    }
  }

  /** As long as the numbers fit an int, all particles of the machine have different orders, and none is left with
      the mark of a new one. */
  lemma {:induction false} OrdersDistinct(ws: seq<seq<Particle>>, nMaxOrder: nat)
    requires OldDistinct(ws, nMaxOrder) && nMaxOrder + TotalOf(ws, New(), |ws|) <= INT_MAX
    ensures AllDistinct(AllNumbered(ws, nMaxOrder))
            && OldDistinct(AllNumbered(ws, nMaxOrder), nMaxOrder + TotalOf(ws, New(), |ws|))
    ensures forall i, k | 0 <= i < |ws| && 0 <= k < |ws[i]| :: !IsNew(AllNumbered(ws, nMaxOrder)[i][k])
  {
    var us: seq<seq<Particle>> := AllNumbered(ws, nMaxOrder);
    var total := TotalOf(ws, New(), |ws|);
    hide AllNumbered, TotalOf, Rank, OrderFor;
    forall r | 0 <= r < total ensures OrderAt(nMaxOrder, r) == nMaxOrder + 1 + r {
      FitsIff(nMaxOrder + 1 + r);
    }
    hide OrderAt;
    forall i, k | 0 <= i < |ws| && 0 <= k < |ws[i]| ensures us[i][k].iOrder <= nMaxOrder + total {
      OrderOf(ws, nMaxOrder, i, k);
    }
    OrdersDistinctIff(ws, nMaxOrder, total);
  }

  /** The new particles are numbered in the order of the processors and of their places on each. */
  lemma {:induction false} OrdersAscend(ws: seq<seq<Particle>>, nMaxOrder: nat, i: nat, k: nat, j: nat, l: nat)
    requires i < |ws| && k < |ws[i]| && j < |ws| && l < |ws[j]| && (i < j || (i == j && k < l))
    requires ws[i][k].iOrder == ws[j][l].iOrder == IORDERMAX && nMaxOrder + TotalOf(ws, New(), |ws|) <= INT_MAX
    ensures nMaxOrder < AllNumbered(ws, nMaxOrder)[i][k].iOrder < AllNumbered(ws, nMaxOrder)[j][l].iOrder
    ensures AllNumbered(ws, nMaxOrder)[j][l].iOrder <= nMaxOrder + TotalOf(ws, New(), |ws|)
  {
    hide AllNumbered, TotalOf, Rank, OrderFor;
    OrderOf(ws, nMaxOrder, i, k);
    OrderOf(ws, nMaxOrder, j, l);
    RanksDiffer(ws, i, k, j, l);
    FitsIff(nMaxOrder + 1 + Rank(ws, i, k));
    FitsIff(nMaxOrder + 1 + Rank(ws, j, l));
  }

  /** The changes of all processors. */
  function AllChanges(vs: seq<seq<Particle>>): (cs: seq<Changes>)
    ensures |cs| == |vs| && forall i | 0 <= i < |vs| :: cs[i] == ChangesOf(vs[i])
  {
    seq(|vs|, (i: nat) requires i < |vs| => ChangesOf(vs[i]))
  }

  /** The master's numbers before the pass: each particle that is not new, deleted ones as gas. */
  ghost predicate Counted(vs: seq<seq<Particle>>, nGas: int, nDark: int, nStar: int, n: nat)
    requires n <= |vs|
  {
    nGas == TotalOf(vs, OldGas(), n) && nDark == TotalOf(vs, OldOf(Dark), n) && nStar == TotalOf(vs, OldOf(Star), n)
  }

  function SumChanges(cs: seq<Changes>, n: nat): Changes
    requires n <= |cs|
  {
    if n == 0 then Changes(0, 0, 0, 0)
    else
      var c := SumChanges(cs, n - 1);
      Changes(c.nNew + cs[n - 1].nNew, c.nDeltaGas + cs[n - 1].nDeltaGas, c.nDeltaDark + cs[n - 1].nDeltaDark,
              c.nDeltaStar + cs[n - 1].nDeltaStar)
  }

  /** Afterwards the master's numbers are those of the surviving particles. */
  lemma {:induction false} TotalsBalance(vs: seq<seq<Particle>>, n: nat)
    requires n <= |vs| && forall i | 0 <= i < |vs| :: NewAreLive(vs[i])
    ensures var c, ws := SumChanges(AllChanges(vs), n), AllSurvivors(vs);
            && TotalOf(ws, Of(Gas), n) == TotalOf(vs, OldGas(), n) + c.nDeltaGas
            && TotalOf(ws, Of(Dark), n) == TotalOf(vs, OldOf(Dark), n) + c.nDeltaDark
            && TotalOf(ws, Of(Star), n) == TotalOf(vs, OldOf(Star), n) + c.nDeltaStar
            && TotalLength(ws, n) == TotalOf(ws, Of(Gas), n) + TotalOf(ws, Of(Dark), n) + TotalOf(ws, Of(Star), n)
            && TotalOf(ws, New(), n) == c.nNew
  {
    if n > 0 {
      TotalsBalance(vs, n - 1);
      CountsBalance(vs[n - 1]);
    }
  }

  datatype Master = Master(nMaxOrder: nat, nGas: int, nDark: int, nStar: int)

  /** The master's numbers after the changes of the first n processors. */
  function MasterAfter(m: Master, cs: seq<Changes>, n: nat): Master
    requires n <= |cs|
  {
    var c := SumChanges(cs, n);
    Master(m.nMaxOrder + c.nNew, m.nGas + c.nDeltaGas, m.nDark + c.nDeltaDark, m.nStar + c.nDeltaStar)
  }

  ghost predicate StartsAre(starts: seq<nat>, m: Master, cs: seq<Changes>, n: nat) {
    n <= |cs| == |starts| && forall j | 0 <= j < n && cs[j].nNew > 0 ::
        starts[j] == m.nMaxOrder + 1 + SumChanges(cs, j).nNew
  }

  lemma MasterNone(m: Master, cs: seq<Changes>, starts: seq<nat>)
    requires |starts| == |cs|
    ensures MasterAfter(m, cs, 0) == m && StartsAre(starts, m, cs, 0)
  {
  }

  lemma MasterOne(m: Master, cs: seq<Changes>, i: nat, starts: seq<nat>)
    requires i < |cs| && StartsAre(starts, m, cs, i)
    ensures var a := MasterAfter(m, cs, i);
            MasterAfter(m, cs, i + 1)
                == Master(a.nMaxOrder + cs[i].nNew, a.nGas + cs[i].nDeltaGas, a.nDark + cs[i].nDeltaDark,
                                                a.nStar + cs[i].nDeltaStar)
    ensures StartsAre(starts[i := MasterAfter(m, cs, i).nMaxOrder + 1], m, cs, i + 1)
    ensures cs[i].nNew == 0 ==> StartsAre(starts, m, cs, i + 1)
  {
  }

  lemma {:induction false} MasterBalance(vs: seq<seq<Particle>>, m: Master)
    requires Counted(vs, m.nGas, m.nDark, m.nStar, |vs|) && forall i | 0 <= i < |vs| :: NewAreLive(vs[i])
    ensures var a, ws := MasterAfter(m, AllChanges(vs), |vs|), AllSurvivors(vs);
            && a.nGas == TotalOf(ws, Of(Gas), |vs|) && a.nDark == TotalOf(ws, Of(Dark), |vs|)
            && a.nStar == TotalOf(ws, Of(Star), |vs|) && a.nMaxOrder == m.nMaxOrder + TotalOf(ws, New(), |vs|)
            && a.nGas + a.nDark + a.nStar == TotalLength(ws, |vs|)
  {
    TotalsBalance(vs, |vs|);
  }

  /** Where a processor has new particles, its start is right. */
  ghost predicate StartsRight(ws: seq<seq<Particle>>, starts: seq<nat>, nMaxOrder: nat) {
    && |starts| == |ws|
    && forall i | 0 <= i < |ws| && Number(ws[i], New()) > 0 :: starts[i] == nMaxOrder + 1 + TotalOf(ws, New(), i)
  }

  lemma StartsFit(vs: seq<seq<Particle>>, starts: seq<nat>, m: Master)
    requires StartsAre(starts, m, AllChanges(vs), |vs|) && forall i | 0 <= i < |vs| :: NewAreLive(vs[i])
    ensures StartsRight(AllSurvivors(vs), starts, m.nMaxOrder)
  {
    var ws := AllSurvivors(vs);
    hide NewAreLive, ChangesOf;
    forall i | 0 <= i < |ws| && Number(ws[i], New()) > 0 ensures starts[i] == m.nMaxOrder + 1 + TotalOf(ws, New(), i) {
      TotalsBalance(vs, i);
      CountsBalance(vs[i]);
    }
  }

  class Msr {
    var nMaxOrder: nat
    var N: int
    var nGas: int
    var nDark: int
    var nStar: int

    /** MSR::AddDelParticles: every processor keeps its surviving particles in order, the numbers of particles are
        those of the survivors, and new particles are numbered on from nMaxOrder over all processors. */
    method AddDelParticles(pkds: seq<Pkd>, ghost vs: seq<seq<Particle>>)
      requires Apart(pkds) && this !in Footprint(pkds) && Hold(pkds, vs) && Counted(vs, nGas, nDark, nStar, |vs|)
      requires forall i | 0 <= i < |vs| :: NewAreLive(vs[i])
      modifies this, Footprint(pkds)
      ensures Hold(pkds, AllNumbered(AllSurvivors(vs), old(nMaxOrder)))
      ensures nMaxOrder == old(nMaxOrder) + TotalOf(AllSurvivors(vs), New(), |vs|)
      ensures N == TotalLength(AllSurvivors(vs), |vs|)
      ensures nGas == TotalOf(AllSurvivors(vs), Of(Gas), |vs|) && nDark == TotalOf(AllSurvivors(vs), Of(Dark), |vs|)
      ensures nStar == TotalOf(AllSurvivors(vs), Of(Star), |vs|)
    {
      hide Apart, Hold, AllNumbered, AllSurvivors, AllChanges, ChangesOf, Counted, StartsRight, MasterAfter, StartsAre;
      var pColNParts := ColNParts(pkds, vs);
      var pNewOrder := Starts(pColNParts);
      MasterBalance(vs, old(Totals()));
      StartsFit(vs, pNewOrder, old(Totals()));
      N := nGas + nDark + nStar;
      NewOrder(pkds, AllSurvivors(vs), pNewOrder, old(nMaxOrder));
    }

    ghost function Totals(): Master
      reads this
    {
      Master(nMaxOrder, nGas, nDark, nStar)
    }

    /** The loop over the processors: starting numbers and new totals.  Where nothing changed the start is not set,
        and not used. */
    method Starts(cs: seq<Changes>) returns (starts: seq<nat>)
      modifies this
      ensures Totals() == MasterAfter(old(Totals()), cs, |cs|) && StartsAre(starts, old(Totals()), cs, |cs|)
    {
      ghost var m := Totals();
      starts := seq(|cs|, _ => 0);
      MasterNone(m, cs, starts);
      hide MasterAfter, StartsAre;
      for i := 0 to |cs|
        invariant |starts| == |cs| && Totals() == MasterAfter(m, cs, i) && StartsAre(starts, m, cs, i)
      {
        MasterOne(m, cs, i, starts);
        if cs[i].nNew != 0 || cs[i].nDeltaGas != 0 || cs[i].nDeltaDark != 0 || cs[i].nDeltaStar != 0 {
          starts := starts[i := nMaxOrder + 1];
          nMaxOrder := nMaxOrder + cs[i].nNew;
          nGas := nGas + cs[i].nDeltaGas;
          nDark := nDark + cs[i].nDeltaDark;
          nStar := nStar + cs[i].nDeltaStar;
        }
      }
    }

    /** pstColNParts */
    method ColNParts(pkds: seq<Pkd>, ghost vs: seq<seq<Particle>>) returns (cs: seq<Changes>)
      requires Apart(pkds) && this !in Footprint(pkds) && Hold(pkds, vs)
               && forall i | 0 <= i < |vs| :: NewAreLive(vs[i])
      modifies Footprint(pkds)
      ensures Hold(pkds, AllSurvivors(vs)) && cs == AllChanges(vs)
    {
      cs := [];
      ghost var ws := vs;
      assert |vs| == |pkds|;
      hide Hold, Apart, ChangesOf, NewAreLive;
      for i := 0 to |pkds|
        invariant |cs| == i && forall j | 0 <= j < i :: cs[j] == ChangesOf(vs[j])
        invariant |ws| == |vs| && Hold(pkds, ws)
        invariant forall j | 0 <= j < i :: ws[j] == Survivors(vs[j])
        invariant forall j | i <= j < |vs| :: ws[j] == vs[j]
      {
        var c := ColNPartsAt(pkds, ws, i);
        cs := cs + [c];
        ws := ws[i := Survivors(ws[i])];
      }
      assert ws == AllSurvivors(vs);
    }

    method ColNPartsAt(pkds: seq<Pkd>, ghost ws: seq<seq<Particle>>, i: nat) returns (c: Changes)
      requires Apart(pkds) && i < |pkds| == |ws| && Hold(pkds, ws) && NewAreLive(ws[i])
      modifies Footprint(pkds)
      ensures Hold(pkds, ws[i := Survivors(ws[i])]) && c == ChangesOf(ws[i])
    {
      hide ChangesOf, NewAreLive, Survivors;
      c := pkds[i].ColNParts();
    }

    /** pstNewOrder */
    method NewOrder(pkds: seq<Pkd>, ghost ws: seq<seq<Particle>>, starts: seq<nat>, ghost nMaxOrder: nat)
      requires Apart(pkds) && this !in Footprint(pkds) && Hold(pkds, ws) && StartsRight(ws, starts, nMaxOrder)
      modifies Footprint(pkds)
      ensures Hold(pkds, AllNumbered(ws, nMaxOrder))
    {
      ghost var us := ws;
      assert |ws| == |pkds| == |starts|;
      hide Hold, Apart, StartsRight, NumberedAfter;
      for i := 0 to |pkds|
        invariant |us| == |ws| && Hold(pkds, us)
        invariant forall j | 0 <= j < i :: us[j] == NumberedAfter(ws, nMaxOrder, j)
        invariant forall j | i <= j < |ws| :: us[j] == ws[j]
      {
        RightStart(ws, starts, nMaxOrder, i);
        NewOrderAt(pkds, us, i, starts[i]);
        us := us[i := Numbered(us[i], starts[i])];
      }
      assert us == AllNumbered(ws, nMaxOrder);
    }

    method NewOrderAt(pkds: seq<Pkd>, ghost us: seq<seq<Particle>>, i: nat, nStart: nat)
      requires Apart(pkds) && i < |pkds| == |us| && Hold(pkds, us)
      modifies Footprint(pkds)
      ensures Hold(pkds, us[i := Numbered(us[i], nStart)])
    {
      hide Numbered;
      pkds[i].NewOrder(nStart);
    }
  }

  lemma RightStart(ws: seq<seq<Particle>>, starts: seq<nat>, nMaxOrder: nat, i: nat)
    requires StartsRight(ws, starts, nMaxOrder) && i < |ws|
    ensures Numbered(ws[i], starts[i]) == NumberedAfter(ws, nMaxOrder, i)
  {
    NumberedNone(ws[i], starts[i], nMaxOrder + 1 + TotalOf(ws, New(), i));
  }

  /** Without new particles the start does not matter. */
  lemma {:induction false} NumberedNone(s: seq<Particle>, a: nat, b: nat)
    requires Number(s, New()) > 0 ==> a == b
    ensures Numbered(s, a) == Numbered(s, b)
  {
    hide OrderFor;
    if Number(s, New()) == 0 && s != [] {
      NumberedNone(s[..|s| - 1], a, b);
    }
  }
}
