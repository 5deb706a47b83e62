/** The block-timestep scheduler NewTopStepKDK, the gravity call that closes and opens kicks,
    and the Simulate loop that drives them with a single tree. */
module NewKdk {
  import opened Kicks
  import opened Collections

  /** Rungs are six-bit fields of a particle. */
  const IRUNGMAX: nat := 63

  datatype Particle = Particle(rung: nat, kicks: seq<Kick>)
  /** A force calculation for rungs uRung and deeper; index counts the steps of rung uRung from the
      start of the base step to it. */
  datatype GravityCall = GravityCall(uRung: nat, time: real, index: nat, uRungHi: nat, open: bool)
  /** A checkpoint, or an output. */
  datatype Snapshot = Snapshot(checkpoint: bool, iStep: int, time: real, positionTime: real, particles: seq<Particle>)

  /** What the outside world answers when output is considered at the end of a step. */
  datatype Request = Request(iStop: bool, iCheck: bool, outTime: bool, signal: bool)

  // ----- sets of particles -----

  /** Every particle on rung u or deeper has just opened its step at time t. */
  ghost predicate OpenedAt(ps: seq<Particle>, u: nat, t0: real, d: real, t: real) {
    forall i | 0 <= i < |ps| && ps[i].rung >= u :: Due(ps[i].kicks, t0, d, ps[i].rung, t + Step(d, ps[i].rung))
  }

  /** Every particle on rung u or deeper has an open step that ends at time e. */
  ghost predicate DueAt(ps: seq<Particle>, u: nat, t0: real, d: real, e: real) {
    forall i | 0 <= i < |ps| && ps[i].rung >= u :: Due(ps[i].kicks, t0, d, ps[i].rung, e)
  }

  ghost predicate ClosedAt(ps: seq<Particle>, u: nat, t0: real, t: real) {
    forall i | 0 <= i < |ps| && ps[i].rung >= u :: Closed(ps[i].kicks, t0, t)
  }

  ghost predicate Within(ps: seq<Particle>, m: nat) {
    forall i | 0 <= i < |ps| :: ps[i].rung <= m
  }

  ghost predicate Occupied(ps: seq<Particle>, m: nat) {
    exists i | 0 <= i < |ps| :: ps[i].rung == m
  }

  ghost predicate MaxRungIs(ps: seq<Particle>, m: nat) {
    Within(ps, m) && Occupied(ps, m)
  }

  /** From ps to qs only particles on rung u or deeper changed; they kept their history and
      none of them left the set. */
  ghost predicate Evolved(ps: seq<Particle>, qs: seq<Particle>, u: nat) {
    && |qs| == |ps|
    && forall i | 0 <= i < |ps| :: if ps[i].rung < u then qs[i] == ps[i]
                                   else qs[i].rung >= u && ps[i].kicks <= qs[i].kicks
  }

  ghost predicate AllForward(ps: seq<Particle>) {
    forall i | 0 <= i < |ps| :: Forward(ps[i].kicks)
  }

  /** With a positive base step, kicks that ran forward in time still do. */
  ghost predicate StayForward(ps: seq<Particle>, qs: seq<Particle>, d: real) {
    d > 0.0 && AllForward(ps) ==> AllForward(qs)
  }

  function AtRung(r: nat): Particle -> bool {
    (p: Particle) => p.rung == r
  }

  function CountRung(ps: seq<Particle>, r: nat): nat {
    Number(ps, AtRung(r))
  }

  ghost predicate CountsMatch(ps: seq<Particle>, nRung: seq<nat>) {
    |nRung| == IRUNGMAX + 1 && forall r | 0 <= r <= IRUNGMAX :: nRung[r] == CountRung(ps, r)
  }

  lemma {:induction false} CountUnchanged(ps: seq<Particle>, qs: seq<Particle>, r: nat)
    requires |ps| == |qs|
    requires forall i | 0 <= i < |ps| :: ps[i].rung == r <==> qs[i].rung == r
    ensures CountRung(ps, r) == CountRung(qs, r)
  {
    if ps != [] { CountUnchanged(ps[..|ps| - 1], qs[..|qs| - 1], r); }
  }

  lemma CountPositive(ps: seq<Particle>, r: nat)
    ensures CountRung(ps, r) > 0 <==> Occupied(ps, r)
  {
    NumberPositive(ps, AtRung(r));
  }

  /** The rung the force kernel gives an active particle that would like rung `wanted`: of the rungs from lo to hi
      and below iMaxRung the one closest to it, and lo if there are none. */
  function NewRung(wanted: nat, lo: nat, hi: nat, iMaxRung: nat): (r: nat)
    ensures lo <= hi ==> lo <= r <= hi && (lo <= iMaxRung ==> r <= iMaxRung)
    ensures wanted < lo || iMaxRung <= lo || hi == lo ==> r == lo
    ensures lo <= wanted < iMaxRung && wanted <= hi ==> r == wanted
    ensures lo < hi && lo < iMaxRung && (wanted >= iMaxRung || wanted > hi)
            ==> r == (if hi < iMaxRung then hi else iMaxRung - 1)
  {
    var capped: int := if wanted > iMaxRung - 1 then iMaxRung - 1 else wanted;
    if capped < lo then lo else if capped > hi then hi else capped
  }

  /** What one gravity call does to one active particle: a closing kick on the old rung, then
      the new rung, then an opening kick on the new rung. */
  function Kicked(p: Particle, newRung: nat, dtClose: seq<real>, dtOpen: seq<real>, close: bool, open: bool,
                  t: real, at: real): Particle
    requires p.rung < |dtClose| && newRung < |dtOpen|
  {
    var p1 := if close then p.(kicks := p.kicks + [Kick(t - dtClose[p.rung], t, at, false)]) else p;
    if open then Particle(newRung, p1.kicks + [Kick(t, t + dtOpen[newRung], at, true)]) else p1
  }

  ghost predicate IsKickTable(table: seq<real>, d: real, lo: nat, on: bool, iMaxRung: nat) {
    |table| == iMaxRung + 1
    && forall i | 0 <= i <= iMaxRung :: table[i] == if on && i >= lo then Step(d, i + 1) else 0.0
  }

  /** A due particle is closed exactly at the end of its own step, and reopened on its new rung. */
  lemma {:induction false} KickedClosesAndOpens(p: Particle, newRung: nat, dtClose: seq<real>, dtOpen: seq<real>,
                                                close: bool, open: bool,
                             d: real, lo: nat, iMaxRung: nat, t0: real, t: real)
    requires IsKickTable(dtClose, d, lo, close, iMaxRung) && IsKickTable(dtOpen, d, lo, open, iMaxRung)
    requires lo <= p.rung <= iMaxRung && lo <= newRung <= iMaxRung
    requires if close then Due(p.kicks, t0, d, p.rung, t) else Closed(p.kicks, t0, t)
    ensures var q := Kicked(p, newRung, dtClose, dtOpen, close, open, t, t);
            && p.kicks <= q.kicks
            && q.rung == (if open then newRung else p.rung)
            && |q.kicks| == |p.kicks| + (if close then 1 else 0) + (if open then 1 else 0)
            && (if open then Due(q.kicks, t0, d, newRung, t + Step(d, newRung)) else Closed(q.kicks, t0, t))
            && (d > 0.0 && Forward(p.kicks) ==> Forward(q.kicks))
  {
    assert close ==> dtClose[p.rung] == Step(d, p.rung + 1);
    assert open ==> dtOpen[newRung] == Step(d, newRung + 1);
    hide IsKickTable, Closed, Due, Step, Forward;
    if close { CloseDue(p.kicks, t0, d, p.rung, t); }
    var p1 := if close then p.(kicks := p.kicks + [Kick(t - dtClose[p.rung], t, t, false)]) else p;
    assert Closed(p1.kicks, t0, t);
    if open { OpenClosed(p1.kicks, t0, d, newRung, t); }
    if d > 0.0 && Forward(p.kicks) {
      StepPositive(d, p.rung + 1);
      StepPositive(d, newRung + 1);
      if close { ForwardMore(p.kicks, Kick(t - Step(d, p.rung + 1), t, t, false)); }
      if open { ForwardMore(p1.kicks, Kick(t, t + Step(d, newRung + 1), t, true)); }
    }
  }

  lemma ForwardMore(ks: seq<Kick>, k: Kick)
    requires Forward(ks) && k.lo < k.hi
    ensures Forward(ks + [k])
  {
  }

  /** The effect of a gravity call on the whole set of particles. */
  lemma AllKicked(ps: seq<Particle>, qs: seq<Particle>, newRung: seq<nat>, dtClose: seq<real>, dtOpen: seq<real>,
                  close: bool, open: bool, d: real, lo: nat, iMaxRung: nat, t0: real, t: real)
    requires IsKickTable(dtClose, d, lo, close, iMaxRung) && IsKickTable(dtOpen, d, lo, open, iMaxRung)
    requires |ps| == |qs| == |newRung| && Within(ps, iMaxRung)
    requires forall i | 0 <= i < |ps| :: lo <= newRung[i] <= iMaxRung
    requires if close then DueAt(ps, lo, t0, d, t) else ClosedAt(ps, lo, t0, t)
    requires forall i | 0 <= i < |ps| ::
               qs[i] == if ps[i].rung < lo then ps[i] else Kicked(ps[i], newRung[i], dtClose, dtOpen, close, open, t, t)
    ensures Evolved(ps, qs, lo) && Within(qs, iMaxRung) && StayForward(ps, qs, d)
    ensures if open then OpenedAt(qs, lo, t0, d, t) else ClosedAt(qs, lo, t0, t)
    ensures forall i | 0 <= i < |ps| && ps[i].rung >= lo ::
              && |qs[i].kicks| == |ps[i].kicks| + (if close then 1 else 0) + (if open then 1 else 0)
              && qs[i].rung == if open then newRung[i] else ps[i].rung
  {
    forall i | 0 <= i < |ps| && ps[i].rung >= lo
      ensures ps[i].kicks <= qs[i].kicks && lo <= qs[i].rung <= iMaxRung
      ensures |qs[i].kicks| == |ps[i].kicks| + (if close then 1 else 0) + (if open then 1 else 0)
      ensures qs[i].rung == if open then newRung[i] else ps[i].rung
      ensures if open then Due(qs[i].kicks, t0, d, qs[i].rung, t + Step(d, qs[i].rung)) else Closed(qs[i].kicks, t0, t)
      ensures d > 0.0 && Forward(ps[i].kicks) ==> Forward(qs[i].kicks)
    {
      KickedClosesAndOpens(ps[i], newRung[i], dtClose, dtOpen, close, open, d, lo, iMaxRung, t0, t);
    }
  }

  /** Replacing only the counts of the active rungs keeps all counts right. */
  lemma {:induction false} NewCountsMatch(ps: seq<Particle>, qs: seq<Particle>, nRung: seq<nat>, counts: seq<nat>,
                                          lo: nat)
    requires |nRung| == |counts| == IRUNGMAX + 1 && lo <= IRUNGMAX
    requires Evolved(ps, qs, lo)
    requires lo > 0 ==> CountsMatch(ps, nRung)
    requires forall r | lo <= r <= IRUNGMAX :: counts[r] == CountRung(qs, r)
    ensures CountsMatch(qs, nRung[..lo] + counts[lo..])
  {
    forall r | 0 <= r < lo ensures nRung[r] == CountRung(qs, r) {
      CountUnchanged(ps, qs, r);
    }
  }

  /** The particles left on rung u, together with those the sub-recursion brought to e, are all due at e. */
  lemma {:induction false} DueAfterSubStep(ps: seq<Particle>, qs: seq<Particle>, u: nat, t0: real, d: real, t: real)
    requires Evolved(ps, qs, u + 1)
    requires OpenedAt(ps, u, t0, d, t)
    requires DueAt(qs, u + 1, t0, d, t + Step(d, u))
    ensures DueAt(qs, u, t0, d, t + Step(d, u))
  {
  }

  lemma EvolvedTrans(ps: seq<Particle>, qs: seq<Particle>, rs: seq<Particle>, u: nat, v: nat)
    requires Evolved(ps, qs, u) && Evolved(qs, rs, v) && u <= v
    ensures Evolved(ps, rs, u)
  {
  }

  /** The call was made at an odd multiple of the step of its own rung after base. */
  ghost predicate OddMultiple(d: real, base: real, call: GravityCall) {
    call.index % 2 == 1 && call.time == SyncTime(d, base, call.uRung, call.index)
  }

  /** The calls made since `from` were all at odd multiples of their own step. */
  ghost predicate OddSince(calls: seq<GravityCall>, from: nat, d: real, base: real) {
    forall i | from <= i < |calls| :: OddMultiple(d, base, calls[i])
  }

  lemma {:induction false} NextIsOdd(d: real, base: real, u: nat, n: nat, hi: nat, open: bool)
    ensures SyncTime(d, base, u, 2 * n + 1) == SyncTime(d, base, u, 2 * n) + Step(d, u)
    ensures OddMultiple(d, base, GravityCall(u, SyncTime(d, base, u, 2 * n + 1), 2 * n + 1, hi, open))
  {
  }

  lemma OddSinceTrans(calls: seq<GravityCall>, more: seq<GravityCall>, from: nat, d: real, base: real)
    requires calls <= more && from <= |calls|
    requires OddSince(calls, from, d, base) && OddSince(more, |calls|, d, base)
    ensures OddSince(more, from, d, base)
  {
    forall i | from <= i < |more| ensures OddMultiple(d, base, more[i]) {
      if i < |calls| { assert more[i] == calls[i]; }
    }
  }

  // ----- the rungs of a particle through the force calculations -----

  /** The rung of particle i after the force calculations, the first of which has number n0: each that opens kicks on
      its
      rung gives it the rung it would like then, as far as it is allowed. */
  function RungAfter(wanted: (nat, nat) -> nat, iMaxRung: nat, i: nat, rung: nat, calls: seq<GravityCall>,
                     n0: nat): nat {
    if calls == [] then rung
    else
      var n := |calls| - 1;
      var before := RungAfter(wanted, iMaxRung, i, rung, calls[..n], n0);
      if calls[n].open && before >= calls[n].uRung
      then NewRung(wanted(n0 + n, i), calls[n].uRung, calls[n].uRungHi, iMaxRung) else before
  }

  lemma {:induction false} RungAfterConcat(wanted: (nat, nat) -> nat, iMaxRung: nat, i: nat, rung: nat,
                                           c: seq<GravityCall>, c': seq<GravityCall>, n0: nat)
    ensures RungAfter(wanted, iMaxRung, i, rung, c + c', n0)
         == RungAfter(wanted, iMaxRung, i, RungAfter(wanted, iMaxRung, i, rung, c, n0), c', n0 + |c|)
  {
    if c' == [] {
      assert c + c' == c;
    } else {
      var n := |c'| - 1;
      assert (c + c')[..|c| + n] == c + c'[..n];
      RungAfterConcat(wanted, iMaxRung, i, rung, c, c'[..n], n0);
    }
  }

  /** All particles have the rungs that they chose in the calls. */
  ghost predicate Followed(wanted: (nat, nat) -> nat, iMaxRung: nat, ps: seq<Particle>, qs: seq<Particle>,
                           calls: seq<GravityCall>, n0: nat) {
    |qs| == |ps| && forall i | 0 <= i < |ps| :: qs[i].rung == RungAfter(wanted, iMaxRung, i, ps[i].rung, calls, n0)
  }

  lemma FollowedTrans(wanted: (nat, nat) -> nat, iMaxRung: nat, ps: seq<Particle>, qs: seq<Particle>, rs: seq<Particle>,
                      c0: seq<GravityCall>, c1: seq<GravityCall>, c2: seq<GravityCall>, n0: nat)
    requires c0 <= c1 <= c2
    requires Followed(wanted, iMaxRung, ps, qs, c1[|c0|..], n0)
    requires Followed(wanted, iMaxRung, qs, rs, c2[|c1|..], n0 + |c1| - |c0|)
    ensures c0 <= c2 && Followed(wanted, iMaxRung, ps, rs, c2[|c0|..], n0)
  {
    assert c2[|c0|..] == c1[|c0|..] + c2[|c1|..];
    forall i | 0 <= i < |ps| ensures rs[i].rung == RungAfter(wanted, iMaxRung, i, ps[i].rung, c2[|c0|..], n0) {
      RungAfterConcat(wanted, iMaxRung, i, ps[i].rung, c1[|c0|..], c2[|c1|..], n0);
    }
  }

  lemma NoCalls(wanted: (nat, nat) -> nat, iMaxRung: nat, ps: seq<Particle>, n0: nat)
    ensures Followed(wanted, iMaxRung, ps, ps, [], n0)
  {
  }

  lemma OneCall(wanted: (nat, nat) -> nat, iMaxRung: nat, ps: seq<Particle>, qs: seq<Particle>, call: GravityCall,
                n0: nat)
    requires |qs| == |ps|
    requires forall i | 0 <= i < |ps| ::
               qs[i].rung == if call.open && ps[i].rung >= call.uRung
                             then NewRung(wanted(n0, i), call.uRung, call.uRungHi, iMaxRung) else ps[i].rung
    ensures Followed(wanted, iMaxRung, ps, qs, [call], n0)
  {
    assert [call][..0] == [];
  }

  // ----- the base step -----

  /** Parameters that let the base step change once, at z = 10. */
  datatype Schedule = Schedule(dDelta0: real, bSwitch: bool, nSteps: int, nSteps10: int, tTo10: real, tTo: real)

  function SwitchDelta(s: Schedule, dTime: real, dDelta: real, iStep: int): real
    requires s.bSwitch ==> iStep < s.nSteps10 || iStep < s.nSteps
  {
    if !s.bSwitch then dDelta
    else if iStep < s.nSteps10 then (s.tTo10 - dTime) / (s.nSteps10 - iStep) as real
    else (s.tTo - dTime) / (s.nSteps - iStep) as real
  }

  lemma EqualSplitsAreEqual(rest: real, n: int)
    requires n >= 1
    ensures n > 1 ==> (rest - rest / n as real) / (n - 1) as real == rest / n as real
  {
    var x := rest / n as real;
    assert rest == x * n as real;
    if n > 1 {
      assert rest - x == x * (n - 1) as real;
    }
  }

  /** The base step stays what it was after a step, except when step number nSteps10 was taken. */
  lemma SwitchDeltaSteady(s: Schedule, dTime: real, dDelta: real, iStep: int)
    requires iStep + 1 < s.nSteps
    requires dDelta == SwitchDelta(s, dTime, dDelta, iStep)
    requires iStep + 1 != s.nSteps10
    ensures SwitchDelta(s, dTime + dDelta, dDelta, iStep + 1) == dDelta
  {
    if s.bSwitch {
      if iStep < s.nSteps10 {
        EqualSplitsAreEqual(s.tTo10 - dTime, s.nSteps10 - iStep);
      } else {
        EqualSplitsAreEqual(s.tTo - dTime, s.nSteps - iStep);
      }
    }
  }

  /** The base steps of a run from step iStartStep on are positive. */
  predicate Advancing(s: Schedule, t0: real, iStartStep: int) {
    if !s.bSwitch then s.dDelta0 > 0.0
    else if iStartStep < s.nSteps10 then t0 < s.tTo10 && (s.nSteps10 < s.nSteps ==> s.tTo10 < s.tTo)
    else t0 < s.tTo
  }

  /** Between steps, the next step is positive. */
  predicate OnTrack(s: Schedule, dTime: real, dDelta: real, iStep: int) {
    if !s.bSwitch then dDelta > 0.0
    else if iStep < s.nSteps10 then dTime < s.tTo10 && (s.nSteps10 < s.nSteps ==> s.tTo10 < s.tTo)
    else iStep < s.nSteps ==> dTime < s.tTo
  }

  lemma FractionShort(rest: real, n: int)
    requires rest > 0.0 && n >= 1
    ensures 0.0 < rest / n as real <= rest && (n > 1 ==> rest / n as real < rest)
  {
    var x := rest / n as real;
    assert rest == x * n as real;
    Positive(x, n);
    assert x * n as real - x == x * (n - 1) as real;
    assert n > 1 ==> x * (n - 1) as real > 0.0;
  }

  lemma Positive(x: real, n: int)
    requires n >= 1 && x * n as real > 0.0
    ensures x > 0.0
  {
    assert x <= 0.0 ==> x * n as real <= 0.0;
  }

  lemma SwitchDeltaAgain(s: Schedule, dTime: real, dDelta: real, iStep: int)
    requires s.bSwitch ==> iStep < s.nSteps10 || iStep < s.nSteps
    ensures SwitchDelta(s, dTime, SwitchDelta(s, dTime, dDelta, iStep), iStep) == SwitchDelta(s, dTime, dDelta, iStep)
  {
  }

  lemma StartsOnTrack(s: Schedule, t0: real, iStartStep: int)
    requires Advancing(s, t0, iStartStep) && (s.bSwitch ==> iStartStep < s.nSteps10 || iStartStep < s.nSteps)
    ensures var d := SwitchDelta(s, t0, s.dDelta0, iStartStep); d > 0.0 && OnTrack(s, t0, d, iStartStep)
  {
    StaysOnTrack(s, t0, s.dDelta0, iStartStep);
  }

  /** The last step of a switched run arrives at its target time. */
  lemma Arrives(s: Schedule, dTime: real, dDelta: real)
    requires s.bSwitch && s.nSteps10 < s.nSteps
    ensures dTime + SwitchDelta(s, dTime, dDelta, s.nSteps - 1) == s.tTo
  {
  }

  lemma StaysOnTrack(s: Schedule, dTime: real, dDelta: real, iStep: int)
    requires s.bSwitch ==> iStep < s.nSteps10 || iStep < s.nSteps
    requires OnTrack(s, dTime, dDelta, iStep)
    ensures var d := SwitchDelta(s, dTime, dDelta, iStep); d > 0.0 && OnTrack(s, dTime + d, d, iStep + 1)
  {
    if s.bSwitch {
      if iStep < s.nSteps10 {
        FractionShort(s.tTo10 - dTime, s.nSteps10 - iStep);
      } else {
        FractionShort(s.tTo - dTime, s.nSteps - iStep);
      }
    }
  }

  /** The time after step k on the way from time a after step m to time b after step n, in equal steps. */
  function Spaced(a: real, b: real, m: int, n: int, k: int): real
    requires m < n
  {
    a + (b - a) * ((k - m) as real / (n - m) as real)
  }

  /** The time after step k of a run that starts after step iStartStep: steps of equal length, with a switched schedule
      first to its time of step nSteps10, then to its time of step nSteps. */
  function TimeAfter(s: Schedule, t0: real, iStartStep: int, k: int): real
    requires s.bSwitch ==> iStartStep < s.nSteps10 || iStartStep < s.nSteps
  {
    if !s.bSwitch then t0 + (k - iStartStep) as real * s.dDelta0
    else if iStartStep >= s.nSteps10 then Spaced(t0, s.tTo, iStartStep, s.nSteps, k)
    else if k <= s.nSteps10 || s.nSteps <= s.nSteps10 then Spaced(t0, s.tTo10, iStartStep, s.nSteps10, k)
    else Spaced(s.tTo10, s.tTo, s.nSteps10, s.nSteps, k)
  }

  lemma SpacedEnds(a: real, b: real, m: int, n: int)
    requires m < n
    ensures Spaced(a, b, m, n, m) == a && Spaced(a, b, m, n, n) == b
  {
    assert (n - m) as real / (n - m) as real == 1.0;
  }

  /** The rest divided by the number of steps left is one step. */
  lemma SpacedNext(a: real, b: real, m: int, n: int, k: int)
    requires m <= k < n
    ensures Spaced(a, b, m, n, k) + (b - Spaced(a, b, m, n, k)) / (n - k) as real == Spaced(a, b, m, n, k + 1)
  {
    var x, l, j := b - a, (n - m) as real, (k - m) as real;
    var u := x / l;
    assert x == u * l;
    Fraction(x, l, j);
    Fraction(x, l, j + 1.0);
    assert (k + 1 - m) as real == j + 1.0 && (n - k) as real == l - j;
    assert b - Spaced(a, b, m, n, k) == u * l - u * j == u * (l - j);
  }

  lemma Fraction(x: real, l: real, j: real)
    requires l > 0.0
    ensures x * (j / l) == (x / l) * j
  {
  }

  lemma OneMoreStep(n: int, d: real)
    ensures (n + 1) as real * d == n as real * d + d
  {
  }

  lemma StartsInTime(s: Schedule, t0: real, iStartStep: int)
    requires s.bSwitch ==> iStartStep < s.nSteps10 || iStartStep < s.nSteps
    ensures TimeAfter(s, t0, iStartStep, iStartStep) == t0
    ensures !s.bSwitch ==> SwitchDelta(s, t0, s.dDelta0, iStartStep) == s.dDelta0
  {
    if s.bSwitch {
      if iStartStep >= s.nSteps10 {
        SpacedEnds(t0, s.tTo, iStartStep, s.nSteps);
      } else {
        SpacedEnds(t0, s.tTo10, iStartStep, s.nSteps10);
      }
    }
  }

  /** Each step ends where the next one of the spaced times is. */
  lemma StepEnds(s: Schedule, t0: real, iStartStep: int, k: int, dDelta: real)
    requires s.bSwitch ==> iStartStep < s.nSteps10 || iStartStep < s.nSteps
    requires iStartStep <= k < s.nSteps && (!s.bSwitch ==> dDelta == s.dDelta0)
    ensures var t := TimeAfter(s, t0, iStartStep, k);
            t + SwitchDelta(s, t, dDelta, k) == TimeAfter(s, t0, iStartStep, k + 1)
    ensures !s.bSwitch ==> SwitchDelta(s, TimeAfter(s, t0, iStartStep, k), dDelta, k) == s.dDelta0
  {
    hide Spaced;
    if !s.bSwitch {
      OneMoreStep(k - iStartStep, dDelta);
    } else if iStartStep >= s.nSteps10 {
      SpacedNext(t0, s.tTo, iStartStep, s.nSteps, k);
    } else if k < s.nSteps10 {
      SpacedNext(t0, s.tTo10, iStartStep, s.nSteps10, k);
    } else {
      SpacedEnds(t0, s.tTo10, iStartStep, s.nSteps10);
      SpacedEnds(s.tTo10, s.tTo, s.nSteps10, s.nSteps);
      SpacedNext(s.tTo10, s.tTo, s.nSteps10, s.nSteps, k);
    }
  }

  // ----- output at the end of a step -----

  predicate CheckpointDue(q: Request, iCheckInterval: nat, iStep: int, pending: bool) {
    q.iCheck || (iCheckInterval > 0 && (pending || q.iStop || iStep % iCheckInterval == 0))
  }

  /** A pending user request that already caused a checkpoint does not cause an output as well. */
  predicate OutputDue(q: Request, iCheckInterval: nat, iOutInterval: nat, nSteps: int, iStep: int, pending: bool) {
    var left := pending && !CheckpointDue(q, iCheckInterval, iStep, pending);
    q.outTime || (iOutInterval > 0 && (left || q.iStop || iStep == nSteps || iStep % iOutInterval == 0))
  }

  predicate Multiple(k: int, n: nat) {
    n > 0 && k % n == 0
  }

  lemma DueMeans(q: Request, iCheckInterval: nat, iOutInterval: nat, nSteps: int, iStep: int, signal: bool)
    ensures var checkpoint := q.iCheck
            || (iCheckInterval > 0 && (Multiple(iStep, iCheckInterval) || q.iStop || signal));
            && (CheckpointDue(q, iCheckInterval, iStep, signal) <==> checkpoint)
            && (OutputDue(q, iCheckInterval, iOutInterval, nSteps, iStep, signal)
                <==> || q.outTime
                     || (iOutInterval > 0 && (Multiple(iStep, iOutInterval) || iStep == nSteps || q.iStop
                                              || (signal && !checkpoint))))
  {
  }

  /** A pending request makes the step write an output that would not be written anyway exactly if outputs are
      configured, checkpoints are not, and none was asked for. */
  lemma RequestMattersIff(q: Request, iCheckInterval: nat, iOutInterval: nat, nSteps: int, iStep: int)
    ensures OutputDue(q, iCheckInterval, iOutInterval, nSteps, iStep, true)
       <==> || OutputDue(q, iCheckInterval, iOutInterval, nSteps, iStep, false)
            || (iOutInterval > 0 && iCheckInterval == 0 && !q.iCheck)
    ensures iOutInterval > 0 ==>
              (OutputDue(q, iCheckInterval, iOutInterval, nSteps, iStep, true)
               <==> || !CheckpointDue(q, iCheckInterval, iStep, true)
                    || q.outTime || q.iStop || iStep == nSteps || iStep % iOutInterval == 0)
  {
  }

  /** A signal in step 50, with checkpoints every 20 and outputs every 100 steps, gives a checkpoint only. */
  lemma RequestGivesCheckpointOnly()
    ensures var q := Request(false, false, false, true);
            && CheckpointDue(q, 20, 50, true) && !CheckpointDue(q, 20, 50, false)
            && !OutputDue(q, 20, 100, 1000, 50, true) && OutputDue(q, 0, 100, 1000, 50, true)
  {
  }

  /** A stop request causes a write, and so a stop, exactly if outputs or checkpoints are configured, or one is asked
      for or is at its time. */
  lemma StopObeyedIff(q: Request, iCheckInterval: nat, iOutInterval: nat, nSteps: int, iStep: int, signal: bool)
    requires q.iStop
    ensures CheckpointDue(q, iCheckInterval, iStep, signal)
            || OutputDue(q, iCheckInterval, iOutInterval, nSteps, iStep, signal)
       <==> iCheckInterval > 0 || iOutInterval > 0 || q.iCheck || q.outTime
  {
    DueMeans(q, iCheckInterval, iOutInterval, nSteps, iStep, signal);
  }

  /** A stop request without configured outputs and checkpoints causes no write, and so no stop. */
  lemma StopCanBeMissed(nSteps: int, iStep: int)
    ensures var q := Request(true, false, false, false);
            !CheckpointDue(q, 0, iStep, true) && !OutputDue(q, 0, 0, nSteps, iStep, true)
  {
  }

  /** A checkpoint, or an output, of step k. */
  ghost predicate Has(ws: seq<Snapshot>, checkpoint: bool, k: int) {
    exists j | 0 <= j < |ws| :: ws[j].checkpoint == checkpoint && ws[j].iStep == k
  }

  /** The snapshots of the steps from first on, in order: a checkpoint of each step in which one was asked for, or
      that is a
      multiple of the interval, is stopped, or has a request; an output of each step that is at an output time,
          is a multiple
      of the interval, the last step, is stopped, or has a request that caused no checkpoint;
          and no others.  A request that
      was pending before the first step counts for that step. */
  ghost predicate AsAsked(ws: seq<Snapshot>, request: int -> Request, iCheckInterval: nat, iOutInterval: nat,
                          nSteps: int, first: int, upto: int, pending: bool) {
    && (forall j | 0 <= j < |ws| :: first <= ws[j].iStep < upto)
    && (forall i, j | 0 <= i < j < |ws| ::
          || ws[i].iStep < ws[j].iStep
          || (ws[i].iStep == ws[j].iStep && ws[i].checkpoint && !ws[j].checkpoint))
    && forall k | first <= k < upto ::
         && (Has(ws, true, k)
             <==> || request(k).iCheck
                  || (iCheckInterval > 0 && (Multiple(k, iCheckInterval) || request(k).iStop || request(k).signal
                                             || (pending && k == first))))
         && (Has(ws, false, k)
             <==> || request(k).outTime
                  || (iOutInterval > 0 && (|| Multiple(k, iOutInterval) || k == nSteps || request(k).iStop
                                           || ((request(k).signal || (pending && k == first))
                                               && iCheckInterval == 0 && !request(k).iCheck))))
  }

  lemma AsAskedMore(ws: seq<Snapshot>, ws': seq<Snapshot>, request: int -> Request, iCheckInterval: nat,
                    iOutInterval: nat,
                    nSteps: int, first: int, k: int, pending: bool, signal: bool, checkpoint: bool, output: bool,
                    c: Snapshot, o: Snapshot)
    requires AsAsked(ws, request, iCheckInterval, iOutInterval, nSteps, first, k, pending) && first <= k
    requires c.checkpoint && !o.checkpoint && c.iStep == o.iStep == k
    requires ws' == ws + (if checkpoint then [c] else []) + (if output then [o] else [])
    requires iCheckInterval > 0 || iOutInterval > 0 ==> (signal <==> request(k).signal || (pending && k == first))
    requires checkpoint <==> request(k).iCheck
                             || (iCheckInterval > 0 && (Multiple(k, iCheckInterval) || request(k).iStop || signal))
    requires output <==> || request(k).outTime
                         || (iOutInterval > 0 && (Multiple(k, iOutInterval) || k == nSteps || request(k).iStop
                                                  || (signal && !checkpoint)))
    ensures AsAsked(ws', request, iCheckInterval, iOutInterval, nSteps, first, k + 1, pending)
    ensures Has(ws', true, k) <==> checkpoint
    ensures Has(ws', false, k) <==> output
    ensures forall kind, m | m < k :: Has(ws', kind, m) <==> Has(ws, kind, m)
  {
    hide Multiple, Has;
    HasMore(ws, ws', k, checkpoint, output, c, o);
  }

  lemma HasMore(ws: seq<Snapshot>, ws': seq<Snapshot>, k: int, checkpoint: bool, output: bool, c: Snapshot, o: Snapshot)
    requires forall j | 0 <= j < |ws| :: ws[j].iStep < k
    requires c.checkpoint && !o.checkpoint && c.iStep == o.iStep == k
    requires ws' == ws + (if checkpoint then [c] else []) + (if output then [o] else [])
    ensures Has(ws', true, k) <==> checkpoint
    ensures Has(ws', false, k) <==> output
    ensures forall kind, m | m < k :: Has(ws', kind, m) <==> Has(ws, kind, m)
  {
    var n := |ws|;
    if checkpoint { assert ws'[n] == c; }
    if output { assert ws'[|ws'| - 1] == o; }
    forall kind, m | m < k ensures Has(ws', kind, m) <==> Has(ws, kind, m) {
      if Has(ws, kind, m) {
        var j :| 0 <= j < n && ws[j].checkpoint == kind && ws[j].iStep == m;
        assert ws'[j] == ws[j];
      }
      if Has(ws', kind, m) {
        var j :| 0 <= j < |ws'| && ws'[j].checkpoint == kind && ws'[j].iStep == m;
        assert j < n && ws[j] == ws'[j];
      }
    }
  }

  lemma NothingAsked(request: int -> Request, iCheckInterval: nat, iOutInterval: nat, nSteps: int, first: int,
                     pending: bool)
    ensures AsAsked([], request, iCheckInterval, iOutInterval, nSteps, first, first, pending)
  {
  }

  /** A write of step k carried a stop. */
  ghost predicate StopWritten(ws: seq<Snapshot>, request: int -> Request, k: int) {
    request(k).iStop && (Has(ws, true, k) || Has(ws, false, k))
  }

  class Msr {
    // parameters
    const iMaxRung: nat
    const iCheckInterval: nat
    const iOutInterval: nat
    const schedule: Schedule
    const t0: real
    /** The rung particle i would choose in the n-th force calculation. */
    const wanted: (nat, nat) -> nat
    /** The outside world at the end of a step. */
    const request: int -> Request

    // master and particle state
    var particles: seq<Particle>
    var nRung: seq<nat>
    var iCurrMaxRung: nat
    var drifts: seq<Drifted>
    var nGravity: nat
    ghost var gravities: seq<GravityCall>
    var bGlobalOutput: bool
    var written: seq<Snapshot>

    // variables of the step loop that the scheduler updates
    var ddTime: real
    var diStep: real
    var uRungMax: nat
    var bDoCheckpoint: int
    var bDoOutput: int
    var bNeedKickOpen: bool

    constructor (iMaxRung: nat, iCheckInterval: nat, iOutInterval: nat, schedule: Schedule,
                 wanted: (nat, nat) -> nat, request: int -> Request, t0: real, rungs: seq<nat>)
      requires 1 <= iMaxRung <= IRUNGMAX
      requires forall i | 0 <= i < |rungs| :: rungs[i] <= iMaxRung
      ensures Valid() && this.t0 == t0 && this.schedule == schedule
      ensures ClosedAt(particles, 0, t0, t0) && AllForward(particles) && PositionTime(drifts, t0) == t0
      ensures |particles| == |rungs| && written == []
    {
      this.iMaxRung := iMaxRung;
      this.iCheckInterval := iCheckInterval;
      this.iOutInterval := iOutInterval;
      this.schedule := schedule;
      this.wanted := wanted;
      this.request := request;
      this.t0 := t0;
      particles := seq(|rungs|, i requires 0 <= i < |rungs| => Particle(rungs[i], []));
      nRung := seq(IRUNGMAX + 1, _ => 0);
      iCurrMaxRung := 0;
      drifts := [];
      nGravity := 0;
      gravities := [];
      bGlobalOutput := false;
      written := [];
      ddTime := t0;
      diStep := 0.0;
      uRungMax := 0;
      bDoCheckpoint := 0;
      bDoOutput := 0;
      bNeedKickOpen := false;
    }

    ghost predicate Valid()
      reads this
    {
      && 1 <= iMaxRung <= IRUNGMAX
      && |nRung| == IRUNGMAX + 1
      && Contiguous(drifts, t0)
      && Within(particles, iMaxRung)
    }

    /** The kick factors of all rungs: half a step each, zero for rungs that are not active. */
    method KickTable(d: real, uRungLo: nat, on: bool) returns (table: seq<real>)
      ensures IsKickTable(table, d, uRungLo, on, iMaxRung)
    {
      table := [];
      var dt := 0.5 * d;
      for i := 0 to iMaxRung + 1
        invariant |table| == i && dt == Step(d, i + 1)
        invariant forall k | 0 <= k < i :: table[k] == if on && k >= uRungLo then Step(d, k + 1) else 0.0
      {
        table := table + [if i >= uRungLo && on then dt else 0.0];
        dt := dt * 0.5;
      }
    }

    /** The rungs the particles get in the next force calculation. */
    ghost function NewRungs(uRungLo: nat, uRungHi: nat): (r: seq<nat>)
      requires Valid() && uRungLo <= iMaxRung <= uRungHi
      reads this
      ensures |r| == |particles|
      ensures forall i | 0 <= i < |r| :: r[i] == NewRung(wanted(nGravity, i), uRungLo, uRungHi, iMaxRung)
    {
      var call, maxRung := nGravity, iMaxRung;
      seq<nat>(|particles|, (i: nat) => NewRung(wanted(call, i), uRungLo, uRungHi, maxRung))
    }

    /** Close and open the kicks of all particles on rung uRungLo or deeper, and count the new
        rungs of those particles. */
    method GravityOnAll(uRungLo: nat, uRungHi: nat, dtClose: seq<real>, dtOpen: seq<real>, close: bool, open: bool)
      returns (counts: seq<nat>)
      requires Valid() && uRungLo <= iMaxRung <= uRungHi
      requires |dtClose| == |dtOpen| == iMaxRung + 1
      modifies `particles, `nGravity
      ensures |particles| == |old(particles)| && nGravity == old(nGravity) + 1
      ensures forall k | 0 <= k < |particles| :: particles[k] ==
                if old(particles)[k].rung < uRungLo then old(particles)[k]
                else Kicked(old(particles)[k], old(NewRungs(uRungLo, uRungHi))[k],
                            dtClose, dtOpen, close, open, ddTime, PositionTime(drifts, t0))
      ensures |counts| == IRUNGMAX + 1
      ensures open ==> forall r | uRungLo <= r <= IRUNGMAX :: counts[r] == CountRung(particles, r)
    {
      var at := PositionTime(drifts, t0);
      counts := seq(IRUNGMAX + 1, _ => 0);
      ghost var before, rungs := particles, NewRungs(uRungLo, uRungHi);
      for i := 0 to |particles|
        invariant |particles| == |before| && nGravity == old(nGravity)
        invariant forall k | i <= k < |before| :: particles[k] == before[k]
        invariant forall k | 0 <= k < i :: particles[k] ==
                    if before[k].rung < uRungLo then before[k]
                    else Kicked(before[k], rungs[k], dtClose, dtOpen, close, open, ddTime, at)
        invariant |counts| == IRUNGMAX + 1
        invariant open ==> forall r | uRungLo <= r <= IRUNGMAX :: counts[r] == CountRung(particles[..i], r)
      {
        var p := particles[i];
        if p.rung >= uRungLo {
          var uNewRung := NewRung(wanted(nGravity, i), uRungLo, uRungHi, iMaxRung);
          particles := particles[i := Kicked(p, uNewRung, dtClose, dtOpen, close, open, ddTime, at)];
          if open { counts := counts[uNewRung := counts[uNewRung] + 1]; }
        }
        assert particles[..i + 1][..i] == particles[..i];
      }
      assert particles[..|particles|] == particles;
      nGravity := nGravity + 1;
    }

    /** One force calculation at time ddTime for all particles on rung uRungLo or deeper.
        Returns the new maximum rung if it opened kicks, and 0 otherwise. */
    method Gravity(uRungLo: nat, uRungHi: nat, d: real, bKickClose: bool, bKickOpen: bool,
                   ghost index: nat) returns (m: nat)
      requires Valid() && uRungLo <= iMaxRung <= uRungHi
      requires PositionTime(drifts, t0) == ddTime
      requires if bKickClose then DueAt(particles, uRungLo, t0, d, ddTime) else ClosedAt(particles, uRungLo, t0, ddTime)
      requires uRungLo > 0 ==> CountsMatch(particles, nRung)
      requires bKickOpen ==> exists i | 0 <= i < |particles| :: particles[i].rung >= uRungLo
      modifies `particles, `nGravity, `gravities, `nRung, `iCurrMaxRung
      ensures Valid()
      ensures Evolved(old(particles), particles, uRungLo) && StayForward(old(particles), particles, d)
      ensures gravities == old(gravities) + [GravityCall(uRungLo, ddTime, index, uRungHi, bKickOpen)]
      ensures RungsFollow()
      ensures forall i | 0 <= i < |particles| && old(particles)[i].rung >= uRungLo ::
                |particles[i].kicks| == |old(particles)[i].kicks| + (if bKickClose then 1 else 0)
                    + (if bKickOpen then 1 else 0)
      ensures bKickOpen ==>
                && uRungLo <= m <= iMaxRung && iCurrMaxRung == m
                && MaxRungIs(particles, m) && CountsMatch(particles, nRung)
                && OpenedAt(particles, uRungLo, t0, d, ddTime)
      ensures !bKickOpen ==>
                && m == 0 && nRung == old(nRung)
                && (forall i | 0 <= i < |particles| :: particles[i].rung == old(particles)[i].rung)
                && ClosedAt(particles, uRungLo, t0, ddTime)
    {
      ghost var before := particles;
      var dtClose := KickTable(d, uRungLo, bKickClose);
      var dtOpen := KickTable(d, uRungLo, bKickOpen);
      ghost var rungs := NewRungs(uRungLo, uRungHi);
      var counts := GravityOnAll(uRungLo, uRungHi, dtClose, dtOpen, bKickClose, bKickOpen);
      AllKicked(before, particles, rungs, dtClose, dtOpen, bKickClose, bKickOpen, d, uRungLo, iMaxRung, t0, ddTime);
      OneCall(wanted, iMaxRung, before, particles, GravityCall(uRungLo, ddTime, index, uRungHi, bKickOpen),
              old(nGravity));
      gravities := gravities + [GravityCall(uRungLo, ddTime, index, uRungHi, bKickOpen)];
      m := 0;
      if bKickOpen {
        NewCountsMatch(before, particles, nRung, counts, uRungLo);
        m := DeepestCount(counts, uRungLo);
        iCurrMaxRung := m;
        nRung := nRung[..uRungLo] + counts[uRungLo..];
      }
    }

    /** The scan of the rung counts from the deepest rung up; its assertion cannot fail. */
    method DeepestCount(counts: seq<nat>, uRungLo: nat) returns (m: nat)
      requires |counts| == IRUNGMAX + 1 && uRungLo <= IRUNGMAX
      requires exists i | 0 <= i < |particles| :: particles[i].rung >= uRungLo
      requires Within(particles, IRUNGMAX)
      requires forall r | uRungLo <= r <= IRUNGMAX :: counts[r] == CountRung(particles, r)
      ensures uRungLo <= m <= IRUNGMAX && MaxRungIs(particles, m)
    {
      var i: int := IRUNGMAX;
      ghost var j :| 0 <= j < |particles| && particles[j].rung >= uRungLo;
      CountPositive(particles, particles[j].rung);
      while i >= uRungLo && counts[i] == 0
        invariant uRungLo - 1 <= i <= IRUNGMAX
        invariant forall r | i < r <= IRUNGMAX :: r >= uRungLo ==> counts[r] == 0
      {
        i := i - 1;
      }
      assert i >= uRungLo;
      m := i;
      CountPositive(particles, m);
      forall k | 0 <= k < |particles| ensures particles[k].rung <= m {
        CountPositive(particles, particles[k].rung);
      }
    }

    /** Drift the positions of all particles over [t, t + dt]. */
    method Drift(t: real, dt: real)
      modifies `drifts
      ensures drifts == old(drifts) + [Drifted(t, t + dt)]
    {
      drifts := drifts + [Drifted(t, t + dt)];
    }

    /** What CheckForOutput decides for step iStep. */
    twostate predicate Decided(iStep: int)
      reads this
    {
      && bDoCheckpoint == (if CheckpointAt(iStep, old(bGlobalOutput)) then Flag(iStep) else old(bDoCheckpoint))
      && bDoOutput == (if OutputAt(iStep, old(bGlobalOutput)) then Flag(iStep) else old(bDoOutput))
      && (bGlobalOutput <==> Pending(iStep, old(bGlobalOutput)) && iCheckInterval == 0 == iOutInterval
                             && !CheckpointAt(iStep, old(bGlobalOutput)) && !OutputAt(iStep, old(bGlobalOutput)))
    }

    twostate predicate Undecided()
      reads this
    {
      bDoCheckpoint == old(bDoCheckpoint) && bDoOutput == old(bDoOutput) && bGlobalOutput == old(bGlobalOutput)
    }

    /** All particles have the rungs they chose in the force calculations since the old state. */
    twostate predicate RungsFollow()
      reads this
    {
      && old(gravities) <= gravities && nGravity == old(nGravity) + |gravities| - |old(gravities)|
      && Followed(wanted, iMaxRung, old(particles), particles, gravities[|old(gravities)|..], old(nGravity))
    }

    /** True if the opening kick must be withheld because this step ends with a checkpoint or an
        output, or because the base step changes after it. */
    method CheckForOutput(iStep: int) returns (withhold: bool)
      modifies `bDoCheckpoint, `bDoOutput, `bGlobalOutput
      ensures withhold <==> iStep == schedule.nSteps10 || bDoOutput != 0 || bDoCheckpoint != 0
      ensures Decided(iStep)
    {
      bGlobalOutput := bGlobalOutput || request(iStep).signal;
      if request(iStep).iCheck
         || (iCheckInterval > 0 && (bGlobalOutput || request(iStep).iStop || iStep % iCheckInterval == 0)) {
        bGlobalOutput := false;
        bDoCheckpoint := Flag(iStep);
      }
      if request(iStep).outTime || (iOutInterval > 0 &&
           (bGlobalOutput || request(iStep).iStop || iStep == schedule.nSteps || iStep % iOutInterval == 0)) {
        bGlobalOutput := false;
        bDoOutput := Flag(iStep);
      }
      withhold := iStep == schedule.nSteps10 || bDoOutput != 0 || bDoCheckpoint != 0;
    }

    /** Bit 0 asks for the write, bit 1 tells the step loop to stop after it. */
    function Flag(iStep: int): int {
      if request(iStep).iStop then 3 else 1
    }

    /** The pending request after the flag for a signal has been looked at. */
    predicate Pending(iStep: int, bGlobal: bool) {
      bGlobal || request(iStep).signal
    }

    predicate CheckpointAt(iStep: int, bGlobal: bool) {
      CheckpointDue(request(iStep), iCheckInterval, iStep, Pending(iStep, bGlobal))
    }

    predicate OutputAt(iStep: int, bGlobal: bool) {
      OutputDue(request(iStep), iCheckInterval, iOutInterval, schedule.nSteps, iStep, Pending(iStep, bGlobal))
    }

    /** What NewTopStepKDK(uRung), uRung >= 1, leaves behind: from a sync point of rung uRung-1 the
        time has come to one smallest step before the next one, and all particles concerned are due
        exactly there, whatever rungs the force calculations chose. */
    twostate predicate SubStepped(d: real, uRung: nat)
      requires uRung >= 1
      reads this
    {
      && uRung <= uRungMax && MaxRungIs(particles, uRungMax) && CountsMatch(particles, nRung)
      && ddTime == old(ddTime) + Step(d, uRung - 1) - Step(d, uRungMax)
      && diStep == old(diStep) + Step(1.0, uRung - 1) - Step(1.0, uRungMax)
      && DueAt(particles, uRung, t0, d, old(ddTime) + Step(d, uRung - 1))
      && !bNeedKickOpen
      && Undecided()
    }

    /** What NewTopStepKDK(0) leaves behind: exactly one base step later all particles are closed,
        and they are reopened unless the opening kick had to be withheld. */
    twostate predicate FullyStepped(d: real)
      reads this
    {
      && ddTime == old(ddTime) + d
      && diStep == old(diStep) + 1.0
      && Decided(old(diStep).Floor + 1)
      && (bNeedKickOpen <==> old(diStep).Floor + 1 == schedule.nSteps10 || bDoOutput != 0 || bDoCheckpoint != 0)
      && (bNeedKickOpen ==> ClosedAt(particles, 0, t0, ddTime))
      && (!bNeedKickOpen ==> OpenedAt(particles, 0, t0, d, ddTime)
                             && MaxRungIs(particles, uRungMax) && CountsMatch(particles, nRung))
    }

    method NewTopStepKDK(d: real, uRung: nat, ghost base: real, ghost n: nat)
      requires Valid()
      requires uRung <= uRungMax && MaxRungIs(particles, uRungMax) && CountsMatch(particles, nRung)
      requires PositionTime(drifts, t0) == ddTime
      requires OpenedAt(particles, uRung, t0, d, ddTime)
      requires ddTime == SyncTime(d, base, if uRung == 0 then 0 else uRung - 1, n)
      requires uRung == 0 ==> n == 0
      modifies `particles, `nGravity, `gravities, `nRung, `iCurrMaxRung, `drifts, `bDoCheckpoint, `bDoOutput,
               `bGlobalOutput, `ddTime, `diStep, `uRungMax, `bNeedKickOpen
      ensures Valid() && PositionTime(drifts, t0) == ddTime
      ensures Evolved(old(particles), particles, uRung) && StayForward(old(particles), particles, d)
      ensures uRung == 0 ==> FullyStepped(d)
      ensures uRung > 0 ==> SubStepped(d, uRung)
      ensures old(drifts) <= drifts
      ensures RungsFollow() && OddSince(gravities, |old(gravities)|, d, base)
      decreases iMaxRung - uRung, 3
    {
      hide Followed, OddSince, Evolved, OpenedAt, ClosedAt, DueAt, CountsMatch, MaxRungIs, AllForward;
      var iStep := diStep.Floor + 1;
      if uRung > 0 { SyncPointIsEven(d, base, uRung - 1, n); }
      StepToSync(d, uRung, iStep, base, n);
      if uRung == 0 {
        assert FullyStepped(d);
      } else {
        ghost var ps, calls := particles, gravities;
        Descend(d, uRung, base, 2 * n + 1);
        OddSinceTrans(calls, gravities, |old(gravities)|, d, base);
        FollowedTrans(wanted, iMaxRung, old(particles), ps, particles, old(gravities), calls, gravities, old(nGravity));
        EvolvedTrans(old(particles), ps, particles, uRung, uRung);
      }
    }

    /** NewTopStepKDK up to and including the force calculation. */
    method StepToSync(d: real, uRung: nat, iStep: int, ghost base: real, ghost n: nat)
      requires Valid()
      requires uRung <= uRungMax && MaxRungIs(particles, uRungMax) && CountsMatch(particles, nRung)
      requires PositionTime(drifts, t0) == ddTime
      requires OpenedAt(particles, uRung, t0, d, ddTime)
      requires ddTime == SyncTime(d, base, uRung, 2 * n)
      modifies `particles, `nGravity, `gravities, `nRung, `iCurrMaxRung, `drifts, `bDoCheckpoint, `bDoOutput,
               `bGlobalOutput, `ddTime, `diStep, `uRungMax, `bNeedKickOpen
      ensures Valid() && PositionTime(drifts, t0) == ddTime
      ensures Evolved(old(particles), particles, uRung) && StayForward(old(particles), particles, d)
      ensures ddTime == old(ddTime) + Step(d, uRung) == SyncTime(d, base, uRung, 2 * n + 1)
      ensures diStep == old(diStep) + Step(1.0, uRung)
      ensures bNeedKickOpen ==> ClosedAt(particles, uRung, t0, ddTime)
      ensures !bNeedKickOpen ==> OpenedAt(particles, uRung, t0, d, ddTime) && uRung <= uRungMax
                                 && MaxRungIs(particles, uRungMax) && CountsMatch(particles, nRung)
      ensures bNeedKickOpen <==> uRung == 0 && (iStep == schedule.nSteps10 || bDoOutput != 0 || bDoCheckpoint != 0)
      ensures if uRung == 0 then Decided(iStep) else Undecided()
      ensures old(drifts) <= drifts
      ensures RungsFollow() && OddSince(gravities, |old(gravities)|, d, base)
      decreases iMaxRung - uRung, 2
    {
      hide Followed, OddSince, Evolved, OpenedAt, ClosedAt, DueAt, CountsMatch, MaxRungIs, AllForward;
      DescendAndDrift(d, uRung, base, 2 * n);
      ghost var ps, calls := particles, gravities;
      ForcesAndKicks(d, uRung, iStep, 2 * n + 1);
      NextIsOdd(d, base, uRung, n, iMaxRung, !bNeedKickOpen);
      OddSinceTrans(calls, gravities, |old(gravities)|, d, base);
      FollowedTrans(wanted, iMaxRung, old(particles), ps, particles, old(gravities), calls, gravities, old(nGravity));
      EvolvedTrans(old(particles), ps, particles, uRung, uRung);
    }

    /** The part of NewTopStepKDK at the sync point itself. */
    method ForcesAndKicks(d: real, uRung: nat, iStep: int, ghost index: nat)
      requires Valid()
      requires uRung <= uRungMax && MaxRungIs(particles, uRungMax) && CountsMatch(particles, nRung)
      requires PositionTime(drifts, t0) == ddTime
      requires DueAt(particles, uRung, t0, d, ddTime)
      modifies `particles, `nGravity, `gravities, `nRung, `iCurrMaxRung, `bDoCheckpoint, `bDoOutput,
               `bGlobalOutput, `uRungMax, `bNeedKickOpen
      ensures Valid()
      ensures Evolved(old(particles), particles, uRung) && StayForward(old(particles), particles, d)
      ensures gravities == old(gravities) + [GravityCall(uRung, ddTime, index, iMaxRung, !bNeedKickOpen)]
      ensures RungsFollow()
      ensures bNeedKickOpen ==> ClosedAt(particles, uRung, t0, ddTime)
      ensures !bNeedKickOpen ==> OpenedAt(particles, uRung, t0, d, ddTime) && uRung <= uRungMax
                                 && MaxRungIs(particles, uRungMax) && CountsMatch(particles, nRung)
      ensures bNeedKickOpen <==> uRung == 0 && (iStep == schedule.nSteps10 || bDoOutput != 0 || bDoCheckpoint != 0)
      ensures if uRung == 0 then Decided(iStep) else Undecided()
    {
      hide OpenedAt, ClosedAt, DueAt, CountsMatch, Followed, Evolved, AllForward, CheckpointDue, OutputDue;
      var bKickOpen := true;
      if uRung == 0 {
        var withhold := CheckForOutput(iStep);
        bKickOpen := !withhold;
      }
      bNeedKickOpen := !bKickOpen;
      uRungMax := Gravity(uRung, iMaxRung, d, true, bKickOpen, index);
    }

    /** Either recursion of NewTopStepKDK, if deeper rungs are occupied: one smallest step is left to the next sync
        point. */
    method Descend(d: real, uRung: nat, ghost base: real, ghost n: nat)
      requires Valid()
      requires uRung <= uRungMax && MaxRungIs(particles, uRungMax) && CountsMatch(particles, nRung)
      requires PositionTime(drifts, t0) == ddTime
      requires OpenedAt(particles, uRung, t0, d, ddTime)
      requires ddTime == SyncTime(d, base, uRung, n)
      modifies `particles, `nGravity, `gravities, `nRung, `iCurrMaxRung, `drifts, `bDoCheckpoint, `bDoOutput,
               `bGlobalOutput, `ddTime, `diStep, `uRungMax, `bNeedKickOpen
      ensures Valid() && PositionTime(drifts, t0) == ddTime && (!old(bNeedKickOpen) ==> !bNeedKickOpen)
      ensures Evolved(old(particles), particles, uRung) && StayForward(old(particles), particles, d)
      ensures uRung <= uRungMax && MaxRungIs(particles, uRungMax) && CountsMatch(particles, nRung)
      ensures ddTime == old(ddTime) + Step(d, uRung) - Step(d, uRungMax)
      ensures diStep == old(diStep) + Step(1.0, uRung) - Step(1.0, uRungMax)
      ensures DueAt(particles, uRung, t0, d, old(ddTime) + Step(d, uRung))
      ensures Undecided()
      ensures old(drifts) <= drifts
      ensures RungsFollow() && OddSince(gravities, |old(gravities)|, d, base)
      decreases iMaxRung - uRung, 0
    {
      ghost var ps0 := particles;
      NoCalls(wanted, iMaxRung, ps0, nGravity);
      assert gravities[|gravities|..] == [] && OddSince(gravities, |gravities|, d, base) && Evolved(ps0, ps0, uRung);
      hide Followed, OddSince, CountsMatch, AllForward, Evolved, OpenedAt, DueAt, MaxRungIs;
      if uRung < uRungMax {
        NewTopStepKDK(d, uRung + 1, base, n);
      }
      DueAfterSubStep(ps0, particles, uRung, t0, d, old(ddTime));
    }

    /** The part of NewTopStepKDK before the force calculation: recurse if deeper rungs are occupied,
        then drift everything by the smallest step.  This ends at the next sync point of rung uRung. */
    method DescendAndDrift(d: real, uRung: nat, ghost base: real, ghost n: nat)
      requires Valid()
      requires uRung <= uRungMax && MaxRungIs(particles, uRungMax) && CountsMatch(particles, nRung)
      requires PositionTime(drifts, t0) == ddTime
      requires OpenedAt(particles, uRung, t0, d, ddTime)
      requires ddTime == SyncTime(d, base, uRung, n)
      modifies `particles, `nGravity, `gravities, `nRung, `iCurrMaxRung, `drifts, `bDoCheckpoint, `bDoOutput,
               `bGlobalOutput, `ddTime, `diStep, `uRungMax, `bNeedKickOpen
      ensures Valid() && PositionTime(drifts, t0) == ddTime
      ensures Evolved(old(particles), particles, uRung) && StayForward(old(particles), particles, d)
      ensures uRung <= uRungMax && MaxRungIs(particles, uRungMax) && CountsMatch(particles, nRung)
      ensures ddTime == old(ddTime) + Step(d, uRung) && diStep == old(diStep) + Step(1.0, uRung)
      ensures DueAt(particles, uRung, t0, d, ddTime)
      ensures Undecided()
      ensures old(drifts) <= drifts
      ensures RungsFollow() && OddSince(gravities, |old(gravities)|, d, base)
      decreases iMaxRung - uRung, 1
    {
      hide Followed, OddSince, CountsMatch, AllForward, Evolved, OpenedAt, DueAt, MaxRungIs;
      Descend(d, uRung, base, n);
      var dDeltaRung := Step(d, uRungMax);
      DriftContinues(drifts, t0, dDeltaRung);
      Drift(ddTime, dDeltaRung);
      ddTime := ddTime + dDeltaRung;
      diStep := diStep + Step(1.0, uRungMax);
    }

    // ----- the step loop -----

    /** The state between two base steps. */
    ghost predicate BetweenSteps(dTime: real, dDelta: real, bKickOpen: bool)
      reads this
    {
      && Valid()
      && particles != []
      && PositionTime(drifts, t0) == dTime
      && (if bKickOpen then ClosedAt(particles, 0, t0, dTime)
          else
            && OpenedAt(particles, 0, t0, dDelta, dTime)
            && MaxRungIs(particles, uRungMax) && CountsMatch(particles, nRung))
    }

    /** Everything written so far was written with positions and velocities at the same time. */
    ghost predicate WritesSynchronised()
      reads this
    {
      forall k | 0 <= k < |written| ::
        written[k].positionTime == written[k].time && ClosedAt(written[k].particles, 0, t0, written[k].time)
    }

    /** Record a checkpoint or an output. */
    method Write(checkpoint: bool, iStep: int, dTime: real)
      modifies `written
      ensures written == old(written) + [Snapshot(checkpoint, iStep, dTime, PositionTime(drifts, t0), particles)]
    {
      written := written + [Snapshot(checkpoint, iStep, dTime, PositionTime(drifts, t0), particles)];
    }

    /** One pass of the step loop; returns the new time and the base step that was used. */
    method OneStep(iStep: int, dTimeIn: real, dDeltaIn: real, bKickOpenIn: bool)
      returns (dTime: real, dDelta: real, bKickOpen: bool, iStop: bool)
      requires 1 <= iStep <= schedule.nSteps && bDoCheckpoint == 0 && bDoOutput == 0
      requires BetweenSteps(dTimeIn, dDeltaIn, bKickOpenIn)
      requires !bKickOpenIn ==> dDeltaIn == SwitchDelta(schedule, dTimeIn, dDeltaIn, iStep - 1)
      requires WritesSynchronised()
      modifies this
      ensures dDelta == SwitchDelta(schedule, dTimeIn, dDeltaIn, iStep - 1) && dTime == dTimeIn + dDelta
      ensures bDoCheckpoint == 0 && bDoOutput == 0
      ensures BetweenSteps(dTime, dDelta, bKickOpen)
      ensures Evolved(old(particles), particles, 0) && StayForward(old(particles), particles, dDelta)
      ensures old(drifts) <= drifts
      ensures !bKickOpen && iStep < schedule.nSteps ==> dDelta == SwitchDelta(schedule, dTime, dDelta, iStep)
      ensures OnTrack(schedule, dTimeIn, dDeltaIn, iStep - 1) && AllForward(old(particles)) ==>
                AllForward(particles) && OnTrack(schedule, dTime, dDelta, iStep)
      ensures schedule.bSwitch && schedule.nSteps10 < schedule.nSteps == iStep ==> dTime == schedule.tTo
      ensures RungsFollow()
      ensures WritesSynchronised() && (written != old(written) ==> bKickOpen)
      ensures var q, signal := request(iStep), old(bGlobalOutput) || request(iStep).signal;
              var checkpoint := q.iCheck
                                || (iCheckInterval > 0 && (Multiple(iStep, iCheckInterval) || q.iStop || signal));
              var output := || q.outTime
                            || (iOutInterval > 0 && (Multiple(iStep, iOutInterval) || iStep == schedule.nSteps
                                                     || q.iStop
                                                     || (signal && !checkpoint)));
              && written == old(written) + (if checkpoint then [Snapshot(true, iStep, dTime, dTime, particles)] else [])
                            + (if output then [Snapshot(false, iStep, dTime, dTime, particles)] else [])
              && (iStop <==> q.iStop && (checkpoint || output))
              && (bGlobalOutput <==> signal && iCheckInterval == 0 == iOutInterval && !checkpoint && !output)
    {
      hide AllForward, OnTrack, SwitchDelta, Evolved, OpenedAt, CountsMatch, MaxRungIs, ClosedAt, Followed, Multiple;
      dDelta := SwitchDelta(schedule, dTimeIn, dDeltaIn, iStep - 1);
      SwitchDeltaAgain(schedule, dTimeIn, dDeltaIn, iStep - 1);
      if OnTrack(schedule, dTimeIn, dDeltaIn, iStep - 1) { StaysOnTrack(schedule, dTimeIn, dDeltaIn, iStep - 1); }
      if schedule.bSwitch && schedule.nSteps10 < schedule.nSteps == iStep { Arrives(schedule, dTimeIn, dDeltaIn); }
      dTime, iStop := AdvanceAndWrite(iStep, dTimeIn, dDelta, bKickOpenIn);
      bKickOpen := bNeedKickOpen;
      if !bKickOpen && iStep < schedule.nSteps { SwitchDeltaSteady(schedule, dTimeIn, dDelta, iStep - 1); }
    }

    /** The base step, and then everything that is to be written. */
    method AdvanceAndWrite(iStep: int, dTimeIn: real, dDelta: real, bKickOpenIn: bool)
        returns (dTime: real, iStop: bool)
      requires 1 <= iStep && bDoCheckpoint == 0 && bDoOutput == 0
      requires BetweenSteps(dTimeIn, dDelta, bKickOpenIn) && WritesSynchronised()
      modifies this
      ensures bDoCheckpoint == 0 && bDoOutput == 0 && dTime == dTimeIn + dDelta
      ensures BetweenSteps(dTime, dDelta, bNeedKickOpen)
      ensures bNeedKickOpen <==> iStep == schedule.nSteps10 || written != old(written)
      ensures Evolved(old(particles), particles, 0) && StayForward(old(particles), particles, dDelta)
      ensures old(drifts) <= drifts
      ensures RungsFollow() && WritesSynchronised()
      ensures var q, signal := request(iStep), old(bGlobalOutput) || request(iStep).signal;
              var checkpoint := q.iCheck
                                || (iCheckInterval > 0 && (Multiple(iStep, iCheckInterval) || q.iStop || signal));
              var output := || q.outTime
                            || (iOutInterval > 0 && (Multiple(iStep, iOutInterval) || iStep == schedule.nSteps
                                                     || q.iStop
                                                     || (signal && !checkpoint)));
              && written == old(written) + (if checkpoint then [Snapshot(true, iStep, dTime, dTime, particles)] else [])
                            + (if output then [Snapshot(false, iStep, dTime, dTime, particles)] else [])
              && (iStop <==> q.iStop && (checkpoint || output))
              && (bGlobalOutput <==> signal && iCheckInterval == 0 == iOutInterval && !checkpoint && !output)
    {
      hide OpenedAt, CountsMatch, MaxRungIs, ClosedAt, Evolved, AllForward, Followed, CheckpointDue, OutputDue,
          Multiple;
      DueMeans(request(iStep), iCheckInterval, iOutInterval, schedule.nSteps, iStep, Pending(iStep, bGlobalOutput));
      AdvanceStep(iStep, dTimeIn, dDelta, bKickOpenIn);
      dTime := dTimeIn + dDelta;
      iStop := WriteAll(iStep, dTime);
    }

    /** The opening kick if it is pending, then the base step. */
    method AdvanceStep(iStep: int, dTime: real, dDelta: real, bKickOpen: bool)
      requires 1 <= iStep && bDoCheckpoint == 0 && bDoOutput == 0
      requires BetweenSteps(dTime, dDelta, bKickOpen)
      modifies `particles, `nGravity, `gravities, `nRung, `iCurrMaxRung, `drifts, `bDoCheckpoint, `bDoOutput,
               `bGlobalOutput, `ddTime, `diStep, `uRungMax, `bNeedKickOpen
      ensures BetweenSteps(dTime + dDelta, dDelta, bNeedKickOpen) && ddTime == dTime + dDelta
      ensures Evolved(old(particles), particles, 0) && StayForward(old(particles), particles, dDelta)
      ensures old(drifts) <= drifts
      ensures bNeedKickOpen <==> iStep == schedule.nSteps10 || bDoOutput != 0 || bDoCheckpoint != 0
      ensures Decided(iStep) && RungsFollow()
    {
      hide OpenedAt, ClosedAt, DueAt, CountsMatch, MaxRungIs, AllForward, OddSince, Followed, Evolved, CheckpointDue,
          OutputDue;
      ddTime := dTime;
      diStep := (iStep - 1) as real;
      OpenIfPending(dTime, dDelta, bKickOpen);
      ghost var ps, calls := particles, gravities;
      NewTopStepKDK(dDelta, 0, dTime, 0);
      FollowedTrans(wanted, iMaxRung, old(particles), ps, particles, old(gravities), calls, gravities, old(nGravity));
      EvolvedTrans(old(particles), ps, particles, 0, 0);
    }

    /** The opening kick, if it is pending. */
    method OpenIfPending(dTime: real, dDelta: real, bKickOpen: bool)
      requires BetweenSteps(dTime, dDelta, bKickOpen) && ddTime == dTime
      modifies `particles, `nGravity, `gravities, `nRung, `iCurrMaxRung, `uRungMax
      ensures Valid() && OpenedAt(particles, 0, t0, dDelta, dTime)
      ensures MaxRungIs(particles, uRungMax) && CountsMatch(particles, nRung)
      ensures Evolved(old(particles), particles, 0) && StayForward(old(particles), particles, dDelta)
      ensures RungsFollow()
    {
      hide OpenedAt, ClosedAt, CountsMatch, MaxRungIs, AllForward, Followed;
      NoCalls(wanted, iMaxRung, particles, nGravity);
      if bKickOpen {
        hide Evolved;
        assert particles[0].rung >= 0;
        uRungMax := Gravity(0, IRUNGMAX, dDelta, false, true, 0);
      } else {
        assert gravities[|gravities|..] == [];
      }
    }

    method WriteAll(iStep: int, dTime: real) returns (iStop: bool)
      requires bDoCheckpoint != 0 || bDoOutput != 0 ==> ClosedAt(particles, 0, t0, dTime)
      requires PositionTime(drifts, t0) == dTime && WritesSynchronised()
      modifies `written, `bDoCheckpoint, `bDoOutput
      ensures bDoCheckpoint == 0 && bDoOutput == 0 && WritesSynchronised()
      ensures written == old(written)
              + (if old(bDoCheckpoint) != 0 then [Snapshot(true, iStep, dTime, dTime, particles)] else [])
              + (if old(bDoOutput) != 0 then [Snapshot(false, iStep, dTime, dTime, particles)] else [])
      ensures iStop <==> old(bDoCheckpoint) / 2 % 2 == 1 || old(bDoOutput) / 2 % 2 == 1
    {
      iStop := bDoCheckpoint / 2 % 2 == 1 || bDoOutput / 2 % 2 == 1;
      if bDoCheckpoint != 0 {
        Write(true, iStep, dTime);
        bDoCheckpoint := 0;
      }
      if bDoOutput != 0 {
        Write(false, iStep, dTime);
        bDoOutput := 0;
      }
    }

    /** Every snapshot was taken at the time its step ends. */
    ghost predicate WrittenOnTime(iStartStep: int)
      requires schedule.bSwitch ==> iStartStep < schedule.nSteps10 || iStartStep < schedule.nSteps
      reads this
    {
      forall k | 0 <= k < |written| :: written[k].time == TimeAfter(schedule, t0, iStartStep, written[k].iStep)
    }

    /** One pass of the step loop, as part of a run that started after step iStartStep. */
    method StepOn(ghost iStartStep: nat, iStep: int, dTimeIn: real, dDeltaIn: real, bKickOpenIn: bool,
                  ghost pending: bool)
      returns (dTime: real, dDelta: real, bKickOpen: bool, iStop: bool)
      requires schedule.bSwitch ==> iStartStep < schedule.nSteps10 || iStartStep < schedule.nSteps
      requires iStartStep < iStep <= schedule.nSteps && bDoCheckpoint == 0 && bDoOutput == 0
      requires BetweenSteps(dTimeIn, dDeltaIn, bKickOpenIn)
      requires !bKickOpenIn ==> dDeltaIn == SwitchDelta(schedule, dTimeIn, dDeltaIn, iStep - 1)
      requires dTimeIn == TimeAfter(schedule, t0, iStartStep, iStep - 1)
      requires !schedule.bSwitch ==> dDeltaIn == schedule.dDelta0
      requires WritesSynchronised() && WrittenOnTime(iStartStep)
      requires AsAsked(written, request, iCheckInterval, iOutInterval, schedule.nSteps, iStartStep + 1, iStep, pending)
      requires iCheckInterval > 0 || iOutInterval > 0 ==> (bGlobalOutput <==> pending && iStep == iStartStep + 1)
      requires forall k | iStartStep < k < iStep :: !StopWritten(written, request, k)
      modifies this
      ensures bDoCheckpoint == 0 && bDoOutput == 0
      ensures BetweenSteps(dTime, dDelta, bKickOpen) && dTime == TimeAfter(schedule, t0, iStartStep, iStep)
      ensures !schedule.bSwitch ==> dDelta == schedule.dDelta0
      ensures !bKickOpen && iStep < schedule.nSteps ==> dDelta == SwitchDelta(schedule, dTime, dDelta, iStep)
      ensures OnTrack(schedule, dTimeIn, dDeltaIn, iStep - 1) && AllForward(old(particles)) ==>
                AllForward(particles) && OnTrack(schedule, dTime, dDelta, iStep)
      ensures schedule.bSwitch && schedule.nSteps10 < schedule.nSteps == iStep ==> dTime == schedule.tTo
      ensures RungsFollow()
      ensures WritesSynchronised() && WrittenOnTime(iStartStep)
      ensures AsAsked(written, request, iCheckInterval, iOutInterval, schedule.nSteps, iStartStep + 1, iStep + 1,
                      pending)
      ensures iCheckInterval > 0 || iOutInterval > 0 ==> !bGlobalOutput
      ensures forall k | iStartStep < k < iStep :: !StopWritten(written, request, k)
      ensures iStop <==> StopWritten(written, request, iStep)
    {
      hide AllForward, OnTrack, SwitchDelta, OpenedAt, ClosedAt, CountsMatch, MaxRungIs, Evolved;
      hide TimeAfter, AsAsked, Has, Followed, Multiple;
      ghost var signal, before := bGlobalOutput || request(iStep).signal, written;
      StepEnds(schedule, t0, iStartStep, iStep - 1, dDeltaIn);
      dTime, dDelta, bKickOpen, iStop := OneStep(iStep, dTimeIn, dDeltaIn, bKickOpenIn);
      ghost var q := request(iStep);
      ghost var checkpoint := q.iCheck
          || (iCheckInterval > 0 && (Multiple(iStep, iCheckInterval) || q.iStop || signal));
      ghost var output := || q.outTime
                          || (iOutInterval > 0 && (Multiple(iStep, iOutInterval) || iStep == schedule.nSteps || q.iStop
                                                   || (signal && !checkpoint)));
      AsAskedMore(before, written, request, iCheckInterval, iOutInterval, schedule.nSteps, iStartStep + 1, iStep,
                  pending, signal, checkpoint, output, Snapshot(true, iStep, dTime, dTime, particles),
                  Snapshot(false, iStep, dTime, dTime, particles));
      forall k | iStartStep < k < iStep ensures !StopWritten(written, request, k) {
        assert !StopWritten(before, request, k);
      }
    }

    /** The whole run: whatever rungs the forces ask for and whenever output is requested, the kicks of every particle
        and
        the drifts tile time, everything written is synchronised,
            what is asked for is written at the end of its step and
        nothing else is, and the run ends with the first write that carries a stop. */
    method Simulate(iStartStep: nat) returns (iStep: int, dTime: real, dDelta: real, bKickOpen: bool)
      requires schedule.bSwitch ==> iStartStep < schedule.nSteps10 || iStartStep < schedule.nSteps
      requires Valid() && particles != [] && written == [] && bDoCheckpoint == 0 && bDoOutput == 0
      requires ClosedAt(particles, 0, t0, t0) && PositionTime(drifts, t0) == t0
      modifies this
      ensures iStartStep < iStep && (iStep <= schedule.nSteps + 1 || iStep == iStartStep + 1)
      ensures BetweenSteps(dTime, dDelta, bKickOpen) && dTime == TimeAfter(schedule, t0, iStartStep, iStep - 1)
      ensures forall i | 0 <= i < |particles| :: Tiles(particles[i].kicks, t0)
      ensures Advancing(schedule, t0, iStartStep) && AllForward(old(particles)) ==>
                AllForward(particles) && forall i | 0 <= i < |particles| :: EachInstantOnce(particles[i].kicks, t0)
      ensures RungsFollow()
      ensures WritesSynchronised() && WrittenOnTime(iStartStep)
      ensures AsAsked(written, request, iCheckInterval, iOutInterval, schedule.nSteps, iStartStep + 1, iStep,
                      old(bGlobalOutput))
      ensures forall k | iStartStep < k < iStep - 1 :: !StopWritten(written, request, k)
      ensures iStep <= schedule.nSteps ==> iStartStep < iStep - 1 && StopWritten(written, request, iStep - 1)
      ensures schedule.bSwitch && schedule.nSteps10 < schedule.nSteps < iStep ==> dTime == schedule.tTo
    {
      hide AllForward, OnTrack, Advancing, SwitchDelta, EachInstantOnce, OpenedAt, ClosedAt, CountsMatch, MaxRungIs;
      hide TimeAfter, AsAsked, Has, Followed, StopWritten, Evolved;
      ghost var forward := Advancing(schedule, t0, iStartStep) && AllForward(particles);
      dTime := t0;
      ddTime := t0;
      dDelta := SwitchDelta(schedule, dTime, schedule.dDelta0, iStartStep);
      SwitchDeltaAgain(schedule, t0, schedule.dDelta0, iStartStep);
      StartsInTime(schedule, t0, iStartStep);
      if forward { StartsOnTrack(schedule, t0, iStartStep); }
      assert particles[0].rung >= 0;
      uRungMax := Gravity(0, IRUNGMAX, dDelta, false, true, 0);
      bKickOpen := false;
      var iStop := false;
      iStep := iStartStep + 1;
      NothingAsked(request, iCheckInterval, iOutInterval, schedule.nSteps, iStep, bGlobalOutput);
      while iStep <= schedule.nSteps && !iStop
        invariant iStartStep < iStep && (iStep <= schedule.nSteps + 1 || iStep == iStartStep + 1)
        invariant bDoCheckpoint == 0 && bDoOutput == 0
        invariant BetweenSteps(dTime, dDelta, bKickOpen)
        invariant forward ==> AllForward(particles) && OnTrack(schedule, dTime, dDelta, iStep - 1)
        invariant !bKickOpen && iStep <= schedule.nSteps ==> dDelta == SwitchDelta(schedule, dTime, dDelta, iStep - 1)
        invariant !schedule.bSwitch ==> dDelta == schedule.dDelta0
        invariant dTime == TimeAfter(schedule, t0, iStartStep, iStep - 1)
        invariant RungsFollow()
        invariant WritesSynchronised() && WrittenOnTime(iStartStep)
        invariant AsAsked(written, request, iCheckInterval, iOutInterval, schedule.nSteps, iStartStep + 1, iStep,
                          old(bGlobalOutput))
        invariant iCheckInterval > 0 || iOutInterval > 0 ==>
                    (bGlobalOutput <==> old(bGlobalOutput) && iStep == iStartStep + 1)
        invariant forall k | iStartStep < k < iStep - 1 :: !StopWritten(written, request, k)
        invariant iStop <==> iStartStep < iStep - 1 && StopWritten(written, request, iStep - 1)
        invariant schedule.bSwitch && schedule.nSteps10 < schedule.nSteps < iStep ==> dTime == schedule.tTo
      {
        ghost var ps, calls := particles, gravities;
        dTime, dDelta, bKickOpen, iStop := StepOn(iStartStep, iStep, dTime, dDelta, bKickOpen, old(bGlobalOutput));
        FollowedTrans(wanted, iMaxRung, old(particles), ps, particles, old(gravities), calls, gravities, old(nGravity));
        iStep := iStep + 1;
      }
      AllTile(dTime, dDelta, bKickOpen);
      if forward { AllOnce(particles, t0); }
    }

    lemma AllTile(dTime: real, dDelta: real, bKickOpen: bool)
      requires BetweenSteps(dTime, dDelta, bKickOpen)
      ensures forall i | 0 <= i < |particles| :: Tiles(particles[i].kicks, t0)
    {
      forall i | 0 <= i < |particles| ensures Tiles(particles[i].kicks, t0) { assert particles[i].rung >= 0; }
    }
  }

  lemma AllOnce(ps: seq<Particle>, t0: real)
    requires AllForward(ps) && forall i | 0 <= i < |ps| :: Tiles(ps[i].kicks, t0)
    ensures forall i | 0 <= i < |ps| :: EachInstantOnce(ps[i].kicks, t0)
  {
    forall i | 0 <= i < |ps| ensures EachInstantOnce(ps[i].kicks, t0) {
      TiledOnce(ps[i].kicks, t0);
    }
  }
}
