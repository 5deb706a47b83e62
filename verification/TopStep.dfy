/** The older scheduler TopStepKDK, which separates kicks, drifts, force evaluations and rung
    changes, together with UpdateRung. */
module TopStep {
  import opened Kicks
  import opened Collections

  /** forceTime is the time at which the stored acceleration was evaluated; uNewRung is what the
      time step criteria ask for. */
  datatype Particle = Particle(rung: nat, uNewRung: nat, forceTime: real, kicks: seq<Kick>)

  // ----- changing rungs -----

  /** One active particle of pkdUpdateRung: cap is the deepest rung allowed, u the rung being adjusted. */
  function Updated(p: Particle, u: nat, cap: nat): Particle {
    var p1 := if p.uNewRung > cap then p.(uNewRung := cap) else p;
    if p1.uNewRung >= u then p1.(rung := p1.uNewRung)
    else if p1.rung > u then p1.(rung := u)
    else p1
  }

  function UpdatedAll(ps: seq<Particle>, u: nat, cap: nat): (qs: seq<Particle>)
    ensures |qs| == |ps|
    ensures forall i | 0 <= i < |ps| :: qs[i] == if ps[i].rung >= u then Updated(ps[i], u, cap) else ps[i]
  {
    seq(|ps|, i requires 0 <= i < |ps| => if ps[i].rung >= u then Updated(ps[i], u, cap) else ps[i])
  }

  function AtRung(r: nat): Particle -> bool {
    (p: Particle) => p.rung == r
  }

  function CountRung(ps: seq<Particle>, r: nat): nat {
    Number(ps, AtRung(r))
  }

  ghost predicate Within(ps: seq<Particle>, m: nat) {
    forall i | 0 <= i < |ps| :: ps[i].rung <= m
  }

  ghost predicate SomeAtLeast(ps: seq<Particle>, u: nat) {
    exists i | 0 <= i < |ps| :: ps[i].rung >= u
  }

  ghost predicate MaxRungIs(ps: seq<Particle>, m: nat) {
    Within(ps, m) && SomeAtLeast(ps, m)
  }

  lemma CountPositive(ps: seq<Particle>, r: nat)
    ensures CountRung(ps, r) > 0 <==> exists i :: 0 <= i < |ps| && ps[i].rung == r
  {
    NumberPositive(ps, AtRung(r));
  }

  /** The deepest occupied rung among 0..top, or 0 if there is none: the scan of the rung counts. */
  function Deepest(ps: seq<Particle>, top: nat): nat {
    if top == 0 || CountRung(ps, top) > 0 then top else Deepest(ps, top - 1)
  }

  lemma {:induction false} DeepestScans(ps: seq<Particle>, top: nat)
    ensures Deepest(ps, top) <= top
    ensures forall i | 0 <= i < |ps| && ps[i].rung <= top :: ps[i].rung <= Deepest(ps, top)
    ensures Deepest(ps, top) > 0 ==> CountRung(ps, Deepest(ps, top)) > 0
  {
    if top > 0 && CountRung(ps, top) == 0 {
      DeepestScans(ps, top - 1);
      forall i | 0 <= i < |ps| && ps[i].rung <= top ensures ps[i].rung <= top - 1 {
        CountPositive(ps, top);
      }
    }
  }

  lemma {:induction false} DeepestIsMaximum(ps: seq<Particle>, top: nat)
    requires ps != [] && Within(ps, top)
    ensures MaxRungIs(ps, Deepest(ps, top))
  {
    var m := Deepest(ps, top);
    DeepestScans(ps, top);
    hide Deepest;
    CountPositive(ps, m);
    if m == 0 { assert ps[0].rung >= m; }
  }

  /** After an adjustment the scan of rungs 0..maxRung-1 finds the true maximum rung exactly when no
      active particle asked for rung maxRung or deeper. */
  lemma {:induction false} ScanFindsMaximumIff(ps: seq<Particle>, u: nat, maxRung: nat)
    requires u < maxRung && Within(ps, maxRung - 1) && SomeAtLeast(ps, u)
    ensures var qs := UpdatedAll(ps, u, maxRung);
            MaxRungIs(qs, Deepest(qs, maxRung - 1))
            <==> forall i | 0 <= i < |ps| && ps[i].rung >= u :: ps[i].uNewRung < maxRung
  {
    var qs := UpdatedAll(ps, u, maxRung);
    DeepestScans(qs, maxRung - 1);
    RequestsWithin(ps, u, maxRung);
    hide Deepest, UpdatedAll;
    if Within(qs, maxRung - 1) { DeepestIsMaximum(qs, maxRung - 1); }
  }

  lemma RequestsWithin(ps: seq<Particle>, u: nat, maxRung: nat)
    requires u < maxRung && Within(ps, maxRung - 1)
    ensures Within(UpdatedAll(ps, u, maxRung), maxRung - 1)
            <==> forall i | 0 <= i < |ps| && ps[i].rung >= u :: ps[i].uNewRung < maxRung
  {
    var qs := UpdatedAll(ps, u, maxRung);
    if i :| 0 <= i < |ps| && ps[i].rung >= u && ps[i].uNewRung >= maxRung {
      assert qs[i].rung == maxRung;
    } else {
      forall i | 0 <= i < |ps| ensures qs[i].rung <= maxRung - 1 { assert ps[i].rung <= maxRung - 1; }
    }
  }

  /** The maximum never falls below the rung being adjusted, so the recursion never meets a current
      maximum rung smaller than the rung it is stepping. */
  lemma {:induction false} AdjustKeepsRung(ps: seq<Particle>, u: nat, maxRung: nat)
    requires u < maxRung && Within(ps, maxRung - 1) && SomeAtLeast(ps, u)
    requires forall i | 0 <= i < |ps| && ps[i].rung >= u :: ps[i].uNewRung < maxRung
    ensures var qs := UpdatedAll(ps, u, maxRung);
            && (forall i | 0 <= i < |ps| :: ps[i].rung >= u <==> qs[i].rung >= u)
            && u <= Deepest(qs, maxRung - 1) < maxRung
            && MaxRungIs(qs, Deepest(qs, maxRung - 1))
  {
    ScanFindsMaximumIff(ps, u, maxRung);
    var j :| 0 <= j < |ps| && ps[j].rung >= u;
    assert UpdatedAll(ps, u, maxRung)[j].rung >= u;
  }

  /** After the adjustment at rung u the scanned maximum lies below u, which is the state in which the step of rung u
      aborts, exactly when every active particle asked for rung maxRung or deeper. */
  lemma {:induction false} AdjustAbortsIff(ps: seq<Particle>, u: nat, maxRung: nat)
    requires u < maxRung && Within(ps, maxRung - 1) && SomeAtLeast(ps, u)
    ensures Deepest(UpdatedAll(ps, u, maxRung), maxRung - 1) < u
            <==> u > 0 && forall i | 0 <= i < |ps| && ps[i].rung >= u :: ps[i].uNewRung >= maxRung
  {
    var qs := UpdatedAll(ps, u, maxRung);
    var m := Deepest(qs, maxRung - 1);
    DeepestScans(qs, maxRung - 1);
    hide Deepest, CountRung;
    if i :| 0 <= i < |ps| && ps[i].rung >= u && ps[i].uNewRung < maxRung {
      assert u <= qs[i].rung <= maxRung - 1;
    } else if m > 0 {
      CountPositive(qs, m);
      var i :| 0 <= i < |qs| && qs[i].rung == m;
      assert ps[i].rung < u;
    }
  }

  /** One active particle that asks for rung maxRung while no other particle is active. */
  lemma RequestForMaxRungCanAbort()
    ensures var ps := [Particle(0, 0, 0.0, []), Particle(1, 3, 0.0, [])];
            var qs := UpdatedAll(ps, 1, 3);
            Within(ps, 2) && SomeAtLeast(ps, 1) && qs[1].rung == 3 && Deepest(qs, 2) < 1
  {
    var ps := [Particle(0, 0, 0.0, []), Particle(1, 3, 0.0, [])];
    assert ps[1].rung >= 1;
    AdjustAbortsIff(ps, 1, 3);
  }

  // ----- the truncation loop -----

  /** The loop that promotes a sparsely filled deepest rung m > u calls UpdateRung again with m as the
      cap; with the deepest occupied rung as the cap such a pass moves no particle. */
  lemma {:induction false} TruncationPassChangesNothing(ps: seq<Particle>, u: nat, maxRung: nat)
    requires u < maxRung && Within(ps, maxRung - 1)
    requires forall i | 0 <= i < |ps| && ps[i].rung >= u :: ps[i].uNewRung < maxRung
    ensures var qs := UpdatedAll(ps, u, maxRung);
            var m := Deepest(qs, maxRung - 1);
            m > u ==> UpdatedAll(qs, u, m) == qs
  {
    var qs := UpdatedAll(ps, u, maxRung);
    var m := Deepest(qs, maxRung - 1);
    DeepestScans(qs, maxRung - 1);
    if m > u {
      forall i | 0 <= i < |ps| ensures UpdatedAll(qs, u, m)[i] == qs[i] {
        if ps[i].rung >= u { assert qs[i].rung <= maxRung - 1; }
      }
    }
  }

  /** The particles of all threads; those of the first thread are counted in place. */
  type Threads = seq<seq<Particle>>

  /** The particles of the first n threads on rung r. */
  function CountAll(ts: Threads, r: nat, n: nat): nat
    requires n <= |ts|
  {
    if n == 0 then 0 else CountAll(ts, r, n - 1) + CountRung(ts[n - 1], r)
  }

  function OnRung(ts: Threads, r: nat): nat {
    CountAll(ts, r, |ts|)
  }

  function UpdatedThreads(ts: Threads, u: nat, cap: nat): (us: Threads)
    ensures |us| == |ts| && forall t | 0 <= t < |ts| :: us[t] == UpdatedAll(ts[t], u, cap)
  {
    seq(|ts|, t requires 0 <= t < |ts| => UpdatedAll(ts[t], u, cap))
  }

  /** The counts after a pass with the given cap: the tree adds the threads' counts below the cap only; at the cap the
      first thread's count is left, and above it what was there before and what the first thread adds. */
  function CountsAfter(us: Threads, cap: nat, before: seq<nat>): (c: seq<nat>)
    requires us != []
    ensures |c| == |before|
    ensures forall r | 0 <= r < |c| ::
              c[r] == if r < cap then OnRung(us, r) else if r == cap then CountRung(us[0], r)
                  else before[r] + CountRung(us[0], r)
  {
    seq(|before|, r requires 0 <= r < |before| =>
      if r < cap then OnRung(us, r) else if r == cap then CountRung(us[0], r) else before[r] + CountRung(us[0], r))
  }

  /** The scan of the counts from rung top up. */
  function Scan(counts: seq<nat>, top: nat): (m: nat)
    requires top < |counts|
    ensures m <= top && (m > 0 ==> counts[m] > 0) && forall r | m < r <= top :: counts[r] == 0
  {
    if top == 0 || counts[top] > 0 then top else Scan(counts, top - 1)
  }

  datatype Loop = Loop(ts: Threads, counts: seq<nat>, m: nat)

  function Pass(l: Loop, u: nat, cap: nat, maxRung: nat): Loop
    requires l.ts != [] && 0 < maxRung <= |l.counts|
  {
    var us := UpdatedThreads(l.ts, u, cap);
    var counts := CountsAfter(us, cap, l.counts);
    Loop(us, counts, Scan(counts, maxRung - 1))
  }

  /** Whether the loop goes on: the deepest rung counted has at most nTruncateRung particles. */
  predicate Goes(l: Loop, u: nat, nTruncateRung: nat)
    requires l.m < |l.counts|
  {
    l.counts[l.m] <= nTruncateRung && l.m > u
  }

  predicate LoopOk(l: Loop, maxRung: nat) {
    l.ts != [] && 0 < maxRung && |l.counts| == maxRung + 1 && l.m < maxRung
  }

  /** The state after k passes of the loop. */
  function Iterate(l: Loop, u: nat, maxRung: nat, k: nat): (l': Loop)
    requires LoopOk(l, maxRung)
    ensures LoopOk(l', maxRung)
    decreases k
  {
    if k == 0 then l else Iterate(Pass(l, u, l.m, maxRung), u, maxRung, k - 1)
  }

  ghost predicate Ends(l: Loop, u: nat, maxRung: nat, nTruncateRung: nat)
    requires LoopOk(l, maxRung)
  {
    exists k: nat :: !Goes(Iterate(l, u, maxRung, k), u, nTruncateRung)
  }

  /** The state in which UpdateRung reaches the loop. */
  function Entry(ts: Threads, u: nat, maxRung: nat): (l: Loop)
    requires ts != [] && 0 < maxRung
    ensures LoopOk(l, maxRung)
  {
    Pass(Loop(ts, seq(maxRung + 1, _ => 0), 0), u, maxRung, maxRung)
  }

  /** After an adjustment at rung u every active particle is where its request puts it. */
  predicate Settled(p: Particle, u: nat) {
    p.rung >= u ==> p.rung == if p.uNewRung >= u then p.uNewRung else u
  }

  ghost predicate AllSettled(ts: Threads, u: nat) {
    forall t, i | 0 <= t < |ts| && 0 <= i < |ts[t]| :: Settled(ts[t][i], u)
  }

  /** A pass on settled particles moves those deeper than the cap to the cap, and no others. */
  lemma CapMoves(p: Particle, u: nat, cap: nat)
    requires Settled(p, u) && p.rung >= u && u < cap
    ensures Settled(Updated(p, u, cap), u) && Updated(p, u, cap).rung == if p.rung > cap then cap else p.rung
  {
  }

  lemma {:induction false} CappedCount(ps: seq<Particle>, u: nat, cap: nat, r: nat)
    requires u < cap && forall i | 0 <= i < |ps| :: Settled(ps[i], u)
    ensures r < cap ==> CountRung(UpdatedAll(ps, u, cap), r) == CountRung(ps, r)
    ensures r > cap ==> CountRung(UpdatedAll(ps, u, cap), r) == 0
    ensures (forall i | 0 <= i < |ps| :: ps[i].rung <= cap)
            ==> CountRung(UpdatedAll(ps, u, cap), cap) == CountRung(ps, cap)
  {
    if ps != [] {
      var n := |ps| - 1;
      CappedCount(ps[..n], u, cap, r);
      assert UpdatedAll(ps, u, cap)[..n] == UpdatedAll(ps[..n], u, cap);
      if ps[n].rung >= u { CapMoves(ps[n], u, cap); }
    }
  }

  lemma {:induction false} CappedThreads(ts: Threads, u: nat, cap: nat, r: nat, n: nat)
    requires u < cap && AllSettled(ts, u) && n <= |ts| && r < cap
    ensures CountAll(UpdatedThreads(ts, u, cap), r, n) == CountAll(ts, r, n)
  {
    if n > 0 {
      CappedThreads(ts, u, cap, r, n - 1);
      CappedCount(ts[n - 1], u, cap, r);
    }
  }

  lemma CappedSettled(ts: Threads, u: nat, cap: nat)
    requires u < cap && AllSettled(ts, u)
    ensures AllSettled(UpdatedThreads(ts, u, cap), u)
  {
  }

  lemma {:induction false} FirstCounted(ts: Threads, r: nat, n: nat)
    requires 0 < n <= |ts|
    ensures CountRung(ts[0], r) <= CountAll(ts, r, n)
  {
    if n > 1 { FirstCounted(ts, r, n - 1); }
  }

  lemma {:induction false} SomeoneOn(ts: Threads, r: nat, n: nat) returns (t: nat, i: nat)
    requires n <= |ts| && CountAll(ts, r, n) > 0
    ensures t < n && i < |ts[t]| && ts[t][i].rung == r
  {
    if CountRung(ts[n - 1], r) > 0 {
      CountPositive(ts[n - 1], r);
      t := n - 1;
      i :| 0 <= i < |ts[t]| && ts[t][i].rung == r;
    } else {
      t, i := SomeoneOn(ts, r, n - 1);
    }
  }

  /** No particle of the first thread is deeper than rung m. */
  ghost predicate FirstWithin(ts: Threads, m: nat)
    requires ts != []
  {
    Within(ts[0], m)
  }

  /** The loop has gone down from its entry state l0 to rung l.m past sparse rungs that the first thread does not use:
      the counts up to l.m are those of the entry, and those above are zero. */
  ghost predicate Descending(l0: Loop, l: Loop, u: nat, maxRung: nat, nTruncateRung: nat) {
    && LoopOk(l0, maxRung) && LoopOk(l, maxRung) && AllSettled(l.ts, u) && l.m == Scan(l.counts, maxRung - 1)
    && (forall r | 0 <= r <= l.m :: l.counts[r] == OnRung(l0.ts, r) == OnRung(l.ts, r))
    && (forall r | 0 <= r <= l.m :: CountRung(l.ts[0], r) == CountRung(l0.ts[0], r))
    && (forall r | l.m < r < maxRung :: OnRung(l0.ts, r) <= nTruncateRung && CountRung(l0.ts[0], r) == 0)
    && FirstWithin(l.ts, l.m)
  }

  /** The deepest rung counted is sparse and used by the first thread. */
  ghost predicate Stuck(l: Loop, u: nat, maxRung: nat, nTruncateRung: nat) {
    && LoopOk(l, maxRung) && AllSettled(l.ts, u) && u < l.m && l.counts[l.m] <= nTruncateRung
    && 0 < CountRung(l.ts[0], l.m) <= nTruncateRung && FirstWithin(l.ts, l.m)
    && forall r | l.m < r < maxRung :: l.counts[r] == 0
  }

  lemma {:induction false} ScanIs(counts: seq<nat>, top: nat, m: nat)
    requires m <= top < |counts| && (m == 0 || counts[m] > 0) && forall r | m < r <= top :: counts[r] == 0
    ensures Scan(counts, top) == m
  {
  }

  /** The counts after a pass with the deepest counted rung as the cap. */
  lemma {:induction false} PassCounts(l: Loop, u: nat, maxRung: nat)
    requires LoopOk(l, maxRung) && AllSettled(l.ts, u) && u < l.m && FirstWithin(l.ts, l.m)
    ensures var l' := Pass(l, u, l.m, maxRung);
            && LoopOk(l', maxRung) && AllSettled(l'.ts, u) && FirstWithin(l'.ts, l.m)
               && l'.m == Scan(l'.counts, maxRung - 1)
            && (forall r | 0 <= r < l.m :: l'.counts[r] == OnRung(l'.ts, r) == OnRung(l.ts, r))
            && (forall r | 0 <= r <= l.m :: CountRung(l'.ts[0], r) == CountRung(l.ts[0], r))
            && l'.counts[l.m] == CountRung(l.ts[0], l.m)
            && forall r | l.m < r < maxRung :: l'.counts[r] == l.counts[r]
  {
    var m, l' := l.m, Pass(l, u, l.m, maxRung);
    CappedSettled(l.ts, u, m);
    FirstStays(l.ts, u, m);
    forall r | 0 <= r < m ensures l'.counts[r] == OnRung(l'.ts, r) == OnRung(l.ts, r) {
      CappedThreads(l.ts, u, m, r, |l.ts|);
    }
    forall r | 0 <= r < maxRung
      ensures r <= m ==> CountRung(l'.ts[0], r) == CountRung(l.ts[0], r)
      ensures r > m ==> CountRung(l'.ts[0], r) == 0
    {
      CappedCount(l.ts[0], u, m, r);
    }
  }

  /** A pass in that state changes nothing that the loop looks at. */
  lemma StillStuck(l: Loop, u: nat, maxRung: nat, nTruncateRung: nat)
    requires Stuck(l, u, maxRung, nTruncateRung)
    ensures Stuck(Pass(l, u, l.m, maxRung), u, maxRung, nTruncateRung) && Pass(l, u, l.m, maxRung).m == l.m
  {
    PassCounts(l, u, maxRung);
    hide Pass, CountRung, AllSettled, FirstWithin;
    ScanIs(Pass(l, u, l.m, maxRung).counts, maxRung - 1, l.m);
  }

  lemma FirstStays(ts: Threads, u: nat, m: nat)
    requires ts != [] && u < m && AllSettled(ts, u) && FirstWithin(ts, m)
    ensures FirstWithin(UpdatedThreads(ts, u, m), m)
  {
  }

  lemma {:induction false} StuckGoesOn(l: Loop, u: nat, maxRung: nat, nTruncateRung: nat, k: nat)
    requires Stuck(l, u, maxRung, nTruncateRung)
    ensures Goes(Iterate(l, u, maxRung, k), u, nTruncateRung)
    decreases k
  {
    if k > 0 {
      StillStuck(l, u, maxRung, nTruncateRung);
      StuckGoesOn(Pass(l, u, l.m, maxRung), u, maxRung, nTruncateRung, k - 1);
    }
  }

  lemma BecomesStuck(l0: Loop, l: Loop, u: nat, maxRung: nat, nTruncateRung: nat)
    requires Descending(l0, l, u, maxRung, nTruncateRung) && Goes(l, u, nTruncateRung) && CountRung(l0.ts[0], l.m) > 0
    ensures Stuck(l, u, maxRung, nTruncateRung)
  {
    FirstCounted(l.ts, l.m, |l.ts|);
  }

  /** A pass over a sparse rung that the first thread does not use: its count reads zero, the scan falls to the next
      occupied rung below, and the particles on the sparse rung stay there. */
  lemma DescendOne(l0: Loop, l: Loop, u: nat, maxRung: nat, nTruncateRung: nat)
    requires Descending(l0, l, u, maxRung, nTruncateRung) && Goes(l, u, nTruncateRung) && CountRung(l0.ts[0], l.m) == 0
    ensures var l' := Pass(l, u, l.m, maxRung);
            && Descending(l0, l', u, maxRung, nTruncateRung) && l'.m < l.m
            && forall r | l'.m < r < l.m :: OnRung(l0.ts, r) == 0
  {
    var m, l' := l.m, Pass(l, u, l.m, maxRung);
    PassCounts(l, u, maxRung);
    hide Pass, CountRung, OnRung, AllSettled;
    assert l'.m < m;
    forall r | l'.m < r < m ensures OnRung(l0.ts, r) == 0 && CountRung(l0.ts[0], r) == 0 {
      FirstOnRungs(l0.ts, r);
    }
    ScanWithin(l', maxRung, m);
  }

  lemma FirstOnRungs(ts: Threads, r: nat)
    requires ts != []
    ensures CountRung(ts[0], r) <= OnRung(ts, r)
  {
    FirstCounted(ts, r, |ts|);
  }

  /** If the scan covers the first thread's rungs up to m, no particle of the first thread is deeper than what it
      finds. */
  lemma {:induction false} ScanWithin(l: Loop, maxRung: nat, m: nat)
    requires LoopOk(l, maxRung) && l.m <= m < maxRung && l.m == Scan(l.counts, maxRung - 1) && FirstWithin(l.ts, m)
    requires forall r | l.m < r <= m :: CountRung(l.ts[0], r) == 0
    ensures FirstWithin(l.ts, l.m)
  {
    hide CountRung;
    forall i | 0 <= i < |l.ts[0]| ensures l.ts[0][i].rung <= l.m {
      CountPositive(l.ts[0], l.ts[0][i].rung);
    }
  }

  lemma SomeLeftBehind(l0: Loop, l: Loop, u: nat, maxRung: nat, nTruncateRung: nat) returns (t: nat, i: nat)
    requires Descending(l0, l, u, maxRung, nTruncateRung) && Goes(l, u, nTruncateRung) && CountRung(l0.ts[0], l.m) == 0
    ensures var l' := Pass(l, u, l.m, maxRung); t < |l'.ts| && i < |l'.ts[t]| && l'.ts[t][i].rung > l'.m
  {
    DescendOne(l0, l, u, maxRung, nTruncateRung);
    t, i := SomeoneOn(l.ts, l.m, |l.ts|);
    CapMoves(l.ts[t][i], u, l.m);
  }

  // ----- when it ends -----

  /** Some rung from r on has more than nTruncateRung particles. */
  ghost predicate DenseFrom(ts: Threads, r: nat, maxRung: nat, nTruncateRung: nat) {
    exists q | r <= q < maxRung :: OnRung(ts, q) > nTruncateRung
  }

  /** Whatever rung deeper than u the first thread uses, that rung or a deeper one is dense. */
  ghost predicate FirstSheltered(ts: Threads, u: nat, maxRung: nat, nTruncateRung: nat)
    requires ts != []
  {
    forall i | 0 <= i < |ts[0]| && ts[0][i].rung > u :: DenseFrom(ts, ts[0][i].rung, maxRung, nTruncateRung)
  }

  lemma UsedIsDense(ts: Threads, r: nat, u: nat, maxRung: nat, nTruncateRung: nat)
    requires ts != [] && r > u && FirstSheltered(ts, u, maxRung, nTruncateRung)
    ensures CountRung(ts[0], r) > 0 ==> DenseFrom(ts, r, maxRung, nTruncateRung)
  {
    CountPositive(ts[0], r);
  }

  lemma {:induction false} EndsBelow(l0: Loop, l: Loop, u: nat, maxRung: nat, nTruncateRung: nat) returns (k: nat)
    requires Descending(l0, l, u, maxRung, nTruncateRung) && FirstSheltered(l0.ts, u, maxRung, nTruncateRung)
    ensures !Goes(Iterate(l, u, maxRung, k), u, nTruncateRung)
    decreases l.m
  {
    if !Goes(l, u, nTruncateRung) {
      k := 0;
    } else {
      UsedIsDense(l0.ts, l.m, u, maxRung, nTruncateRung);
      assert !DenseFrom(l0.ts, l.m, maxRung, nTruncateRung);
      DescendOne(l0, l, u, maxRung, nTruncateRung);
      k := EndsBelow(l0, Pass(l, u, l.m, maxRung), u, maxRung, nTruncateRung);
      k := k + 1;
    }
  }

  /** The first thread uses rung r, no rung from r on is dense, and the loop has not gone below r. */
  ghost predicate AtOrAbove(l0: Loop, l: Loop, u: nat, maxRung: nat, nTruncateRung: nat, r: nat) {
    && Descending(l0, l, u, maxRung, nTruncateRung) && u < r <= l.m
    && CountRung(l0.ts[0], r) > 0 && !DenseFrom(l0.ts, r, maxRung, nTruncateRung)
  }

  lemma GoesThere(l0: Loop, l: Loop, u: nat, maxRung: nat, nTruncateRung: nat, r: nat)
    requires AtOrAbove(l0, l, u, maxRung, nTruncateRung, r)
    ensures LoopOk(l, maxRung) && Goes(l, u, nTruncateRung)
  {
    assert OnRung(l0.ts, l.m) <= nTruncateRung;
  }

  /** The loop gets stuck, or goes on without going below r. */
  lemma StaysAbove(l0: Loop, l: Loop, u: nat, maxRung: nat, nTruncateRung: nat, r: nat)
    requires AtOrAbove(l0, l, u, maxRung, nTruncateRung, r) && LoopOk(l, maxRung)
    ensures || Stuck(l, u, maxRung, nTruncateRung)
            || AtOrAbove(l0, Pass(l, u, l.m, maxRung), u, maxRung, nTruncateRung, r)
  {
    GoesThere(l0, l, u, maxRung, nTruncateRung, r);
    hide Goes, DenseFrom;
    if CountRung(l0.ts[0], l.m) > 0 {
      BecomesStuck(l0, l, u, maxRung, nTruncateRung);
    } else {
      DescendOne(l0, l, u, maxRung, nTruncateRung);
      hide Pass, CountRung, OnRung, Scan;
      FirstOnRungs(l0.ts, r);
    }
  }

  lemma {:induction false} GoesOn(l0: Loop, l: Loop, u: nat, maxRung: nat, nTruncateRung: nat, r: nat, k: nat)
    requires AtOrAbove(l0, l, u, maxRung, nTruncateRung, r) && LoopOk(l, maxRung)
    ensures Goes(Iterate(l, u, maxRung, k), u, nTruncateRung)
    decreases k
  {
    hide AtOrAbove, Stuck, Goes;
    GoesThere(l0, l, u, maxRung, nTruncateRung, r);
    if k > 0 {
      StaysAbove(l0, l, u, maxRung, nTruncateRung, r);
      if Stuck(l, u, maxRung, nTruncateRung) {
        StuckGoesOn(l, u, maxRung, nTruncateRung, k);
      } else {
        GoesOn(l0, Pass(l, u, l.m, maxRung), u, maxRung, nTruncateRung, r, k - 1);
      }
    }
  }

  /** Requests and rungs below maxRung, as the criteria give them. */
  ghost predicate Ordinary(ts: Threads, u: nat, maxRung: nat) {
    ts != [] && u < maxRung && forall t, i | 0 <= t < |ts| && 0 <= i < |ts[t]| ::
      ts[t][i].rung < maxRung && (ts[t][i].rung >= u ==> ts[t][i].uNewRung < maxRung)
  }

  lemma EntryDescends(ts: Threads, u: nat, maxRung: nat, nTruncateRung: nat)
    requires Ordinary(ts, u, maxRung)
    ensures Descending(Entry(ts, u, maxRung), Entry(ts, u, maxRung), u, maxRung, nTruncateRung)
  {
    var l := Entry(ts, u, maxRung);
    forall r | l.m < r < maxRung ensures OnRung(l.ts, r) == 0 && CountRung(l.ts[0], r) == 0 {
      FirstCounted(l.ts, r, |l.ts|);
    }
    forall i | 0 <= i < |l.ts[0]| ensures l.ts[0][i].rung <= l.m {
      CountPositive(l.ts[0], l.ts[0][i].rung);
    }
  }

  /** The loop ends exactly when every rung deeper than u that the first thread uses after the adjustment is dense or
      has a deeper dense rung. */
  lemma TruncationEndsIff(ts: Threads, u: nat, maxRung: nat, nTruncateRung: nat)
    requires Ordinary(ts, u, maxRung)
    ensures Ends(Entry(ts, u, maxRung), u, maxRung, nTruncateRung)
            <==> FirstSheltered(UpdatedThreads(ts, u, maxRung), u, maxRung, nTruncateRung)
  {
    var l := Entry(ts, u, maxRung);
    EntryDescends(ts, u, maxRung, nTruncateRung);
    hide Descending, Pass, UpdatedThreads, OnRung, Goes, Entry;
    EntryThreads(ts, u, maxRung);
    if FirstSheltered(l.ts, u, maxRung, nTruncateRung) {
      var k := EndsBelow(l, l, u, maxRung, nTruncateRung);
    } else {
      var i :| 0 <= i < |l.ts[0]| && l.ts[0][i].rung > u && !DenseFrom(l.ts, l.ts[0][i].rung, maxRung, nTruncateRung);
      FirstOnRung(l, u, maxRung, nTruncateRung, i);
      forall k: nat ensures Goes(Iterate(l, u, maxRung, k), u, nTruncateRung) {
        GoesOn(l, l, u, maxRung, nTruncateRung, l.ts[0][i].rung, k);
      }
    }
  }

  lemma EntryThreads(ts: Threads, u: nat, maxRung: nat)
    requires ts != [] && 0 < maxRung
    ensures Entry(ts, u, maxRung).ts == UpdatedThreads(ts, u, maxRung)
  {
  }

  lemma FirstOnRung(l: Loop, u: nat, maxRung: nat, nTruncateRung: nat, i: nat)
    requires Descending(l, l, u, maxRung, nTruncateRung) && i < |l.ts[0]|
    ensures l.ts[0][i].rung <= l.m && CountRung(l.ts[0], l.ts[0][i].rung) > 0
  {
    CountPositive(l.ts[0], l.ts[0][i].rung);
  }

  lemma {:induction false} LeftBehind(l0: Loop, l: Loop, u: nat, maxRung: nat, nTruncateRung: nat, k: nat)
      returns (t: nat, i: nat)
    requires Descending(l0, l, u, maxRung, nTruncateRung) && k > 0
    requires !Goes(Iterate(l, u, maxRung, k), u, nTruncateRung)
    requires forall j: nat | j < k :: Goes(Iterate(l, u, maxRung, j), u, nTruncateRung)
    ensures var l' := Iterate(l, u, maxRung, k); t < |l'.ts| && i < |l'.ts[t]| && l'.ts[t][i].rung > l'.m
    decreases k
  {
    assert Iterate(l, u, maxRung, 0) == l;
    if CountRung(l0.ts[0], l.m) > 0 {
      BecomesStuck(l0, l, u, maxRung, nTruncateRung);
      StuckGoesOn(l, u, maxRung, nTruncateRung, k);
    }
    var l1 := Pass(l, u, l.m, maxRung);
    if k == 1 {
      t, i := SomeLeftBehind(l0, l, u, maxRung, nTruncateRung);
    } else {
      DescendOne(l0, l, u, maxRung, nTruncateRung);
      forall j: nat | j < k - 1 ensures Goes(Iterate(l1, u, maxRung, j), u, nTruncateRung) {
        assert Iterate(l, u, maxRung, j + 1) == Iterate(l1, u, maxRung, j);
      }
      t, i := LeftBehind(l0, l1, u, maxRung, nTruncateRung, k - 1);
    }
  }

  /** When the loop ends, its rung is the deepest occupied one exactly if it made no pass: it never vacates a rung. */
  lemma {:induction false} TruncatedMaximumIff(ts: Threads, u: nat, maxRung: nat, nTruncateRung: nat, k: nat)
    requires Ordinary(ts, u, maxRung) && !Goes(Iterate(Entry(ts, u, maxRung), u, maxRung, k), u, nTruncateRung)
    requires forall j: nat | j < k :: Goes(Iterate(Entry(ts, u, maxRung), u, maxRung, j), u, nTruncateRung)
    ensures var l := Iterate(Entry(ts, u, maxRung), u, maxRung, k);
            (forall t, i | 0 <= t < |l.ts| && 0 <= i < |l.ts[t]| :: l.ts[t][i].rung <= l.m) <==> k == 0
  {
    var l := Entry(ts, u, maxRung);
    if k > 0 {
      EntryDescends(ts, u, maxRung, nTruncateRung);
      hide Entry, Descending, Goes, Ordinary;
      var t, i := LeftBehind(l, l, u, maxRung, nTruncateRung, k);
    } else {
      forall t, i | 0 <= t < |l.ts| && 0 <= i < |l.ts[t]| ensures l.ts[t][i].rung <= l.m {
        EntryScanned(ts, u, maxRung, t, i);
      }
    }
  }

  lemma EntryScanned(ts: Threads, u: nat, maxRung: nat, t: nat, i: nat)
    requires Ordinary(ts, u, maxRung) && t < |ts| && i < |ts[t]|
    ensures |Entry(ts, u, maxRung).ts| == |ts| && |Entry(ts, u, maxRung).ts[t]| == |ts[t]|
    ensures Entry(ts, u, maxRung).ts[t][i].rung <= Entry(ts, u, maxRung).m
  {
    var l := Entry(ts, u, maxRung);
    var r := l.ts[t][i].rung;
    assert r < maxRung;
    ThreadCounted(l.ts, r, t, |l.ts|);
    CountPositive(l.ts[t], r);
    assert l.counts[r] == OnRung(l.ts, r) > 0;
  }

  lemma {:induction false} ThreadCounted(ts: Threads, r: nat, t: nat, n: nat)
    requires t < n <= |ts|
    ensures CountRung(ts[t], r) <= CountAll(ts, r, n)
  {
    if t < n - 1 { ThreadCounted(ts, r, t, n - 1); }
  }

  /** Two threads, the only particle on the deepest rung on the second one: with a threshold of one particle the loop
      makes one pass and ends at rung 0, while that particle stays on rung 2. */
  lemma TruncationCanEndTooLow()
    ensures var ts := [[Particle(0, 0, 0.0, [])], [Particle(2, 2, 0.0, [])]];
            var l := Entry(ts, 0, 4);
            var l' := Iterate(l, 0, 4, 1);
            && Goes(l, 0, 1) && !Goes(l', 0, 1) && l'.m == 0 && l'.ts[1][0].rung == 2
  {
    var p, q := Particle(0, 0, 0.0, []), Particle(2, 2, 0.0, []);
    var ts := [[p], [q]];
    var l := Entry(ts, 0, 4);
    OneThreadEach(l.ts, p, q);
    ScanIs(l.counts, 3, 2);
    var l' := Pass(l, 0, 2, 4);
    OneThreadEach(l'.ts, p, q);
    ScanIs(l'.counts, 3, 0);
    assert Iterate(l, 0, 4, 1) == Iterate(l', 0, 4, 0) == l';
  }

  lemma OneThreadEach(ts: Threads, p: Particle, q: Particle)
    requires |ts| == 2 && ts[0] == [p] && ts[1] == [q]
    ensures forall r: nat :: OnRung(ts, r) == (if p.rung == r then 1 else 0) + (if q.rung == r then 1 else 0)
    ensures forall r: nat :: CountRung(ts[0], r) == if p.rung == r then 1 else 0
  {
    forall r: nat
      ensures OnRung(ts, r) == (if p.rung == r then 1 else 0) + (if q.rung == r then 1 else 0)
      ensures CountRung(ts[0], r) == if p.rung == r then 1 else 0
    {
      NumberSnoc([], p, AtRung(r));
      NumberSnoc([], q, AtRung(r));
      assert [] + [p] == [p] && [] + [q] == [q];
      assert CountAll(ts, r, 1) == CountAll(ts, r, 0) + CountRung(ts[0], r);
      assert CountAll(ts, r, 2) == CountAll(ts, r, 1) + CountRung(ts[1], r);
    }
  }

  // ----- synchronisation -----

  /** Every particle on rung u or deeper has velocity and stored acceleration at time t. */
  ghost predicate Sync(ps: seq<Particle>, u: nat, t0: real, t: real) {
    forall i | 0 <= i < |ps| && ps[i].rung >= u :: Closed(ps[i].kicks, t0, t) && ps[i].forceTime == t
  }

  /** Every particle exactly on rung r has opened a step that ends at e. */
  ghost predicate OpenUntil(ps: seq<Particle>, r: nat, t0: real, d: real, e: real) {
    forall i | 0 <= i < |ps| && ps[i].rung == r :: Due(ps[i].kicks, t0, d, r, e)
  }

  /** From ps to qs, particles above rung u kept rung and velocity; of those, the ones from rung
      iKickRung on got new forces at time e.  The others stayed on rung u or deeper. */
  ghost predicate Evolved(ps: seq<Particle>, qs: seq<Particle>, u: nat, iKickRung: nat, e: real) {
    && |qs| == |ps|
    && forall i | 0 <= i < |ps| ::
         if ps[i].rung < u then
           qs[i].rung == ps[i].rung && qs[i].kicks == ps[i].kicks
           && qs[i].forceTime == if ps[i].rung >= iKickRung then e else ps[i].forceTime
         else qs[i].rung >= u && ps[i].kicks <= qs[i].kicks
  }

  // ----- first kicks and adjustments -----

  /** The first kick of q after those of p opens a step of rung r at time t, with forces of that time. */
  ghost predicate FirstKick(p: Particle, q: Particle, t: real, d: real, r: nat) {
    |p.kicks| < |q.kicks| && q.kicks[|p.kicks|] == Kick(t, t + Step(d, r + 1), t, true)
  }

  /** So it is for all particles on rung u or deeper, each on its own rung. */
  ghost predicate OpensOwn(ps: seq<Particle>, qs: seq<Particle>, u: nat, t: real, d: real) {
    |qs| == |ps| && forall i | 0 <= i < |ps| && ps[i].rung >= u :: FirstKick(ps[i], qs[i], t, d, ps[i].rung)
  }

  /** A change of the rungs of all particles on the given rung or deeper. */
  datatype Adjustment = Adjustment(rung: nat, time: real)

  /** What an adjustment of rung u makes of the wanted rung. */
  function Chosen(wanted: nat, u: nat): nat {
    if wanted < u then u else wanted
  }

  /** The rung of particle i after the adjustments, the first of which has number n0. */
  function RungAfter(wanted: (nat, nat) -> nat, i: nat, rung: nat, adjusted: seq<Adjustment>, n0: nat): nat {
    if adjusted == [] then rung
    else
      var n := |adjusted| - 1;
      var before := RungAfter(wanted, i, rung, adjusted[..n], n0);
      if before >= adjusted[n].rung then Chosen(wanted(n0 + n, i), adjusted[n].rung) else before
  }

  lemma {:induction false} RungAfterConcat(wanted: (nat, nat) -> nat, i: nat, rung: nat, c: seq<Adjustment>,
                                           c': seq<Adjustment>, n0: nat)
    ensures RungAfter(wanted, i, rung, c + c', n0)
            == RungAfter(wanted, i, RungAfter(wanted, i, rung, c, n0), c', n0 + |c|)
  {
    if c' == [] {
      assert c + c' == c;
    } else {
      var n := |c'| - 1;
      assert (c + c')[..|c| + n] == c + c'[..n];
      RungAfterConcat(wanted, i, rung, c, c'[..n], n0);
    }
  }

  /** From ps to qs all rungs changed as the adjustments after the first n0 say. */
  ghost predicate Followed(wanted: (nat, nat) -> nat, ps: seq<Particle>, qs: seq<Particle>, c: seq<Adjustment>,
                           c': seq<Adjustment>) {
    && c <= c' && |qs| == |ps|
    && forall i | 0 <= i < |ps| :: qs[i].rung == RungAfter(wanted, i, ps[i].rung, c'[|c|..], |c|)
  }

  lemma FollowedTrans(wanted: (nat, nat) -> nat, ps: seq<Particle>, qs: seq<Particle>, rs: seq<Particle>,
                      c0: seq<Adjustment>, c1: seq<Adjustment>, c2: seq<Adjustment>)
    requires Followed(wanted, ps, qs, c0, c1) && Followed(wanted, qs, rs, c1, c2)
    ensures Followed(wanted, ps, rs, c0, c2)
  {
    assert c2[|c0|..] == c1[|c0|..] + c2[|c1|..];
    forall i | 0 <= i < |ps| ensures rs[i].rung == RungAfter(wanted, i, ps[i].rung, c2[|c0|..], |c0|) {
      RungAfterConcat(wanted, i, ps[i].rung, c1[|c0|..], c2[|c1|..], |c0|);
    }
  }

  lemma NoneAdjusted(wanted: (nat, nat) -> nat, ps: seq<Particle>, qs: seq<Particle>, c: seq<Adjustment>)
    requires |qs| == |ps| && forall i | 0 <= i < |ps| :: qs[i].rung == ps[i].rung
    ensures Followed(wanted, ps, qs, c, c)
  {
    assert c[|c|..] == [];
  }

  lemma OneAdjusted(wanted: (nat, nat) -> nat, ps: seq<Particle>, qs: seq<Particle>, c: seq<Adjustment>, a: Adjustment)
    requires |qs| == |ps|
    requires forall i | 0 <= i < |ps| ::
               qs[i].rung == if ps[i].rung >= a.rung then Chosen(wanted(|c|, i), a.rung) else ps[i].rung
    ensures Followed(wanted, ps, qs, c, c + [a])
  {
    assert (c + [a])[|c|..] == [a] && [a][..0] == [];
  }

  /** The particles on rung r have opened a step at time t, and no others changed their kicks. */
  ghost predicate OpenedOn(ps: seq<Particle>, qs: seq<Particle>, r: nat, t: real, d: real) {
    && |qs| == |ps|
    && forall i | 0 <= i < |ps| ::
         && qs[i].rung == ps[i].rung
         && qs[i].kicks == if ps[i].rung == r then ps[i].kicks + [Kick(t, t + Step(d, r + 1), t, true)] else ps[i].kicks
  }

  lemma OpenedAll(ps: seq<Particle>, r: nat, t0: real, t: real, d: real)
    requires Sync(ps, r, t0, t)
    ensures OpenedOn(ps, KickedAll(ps, r, t, Step(d, r + 1), true), r, t, d)
  {
    hide Closed;
  }

  lemma OpeningFollows(wanted: (nat, nat) -> nat, ps: seq<Particle>, qs: seq<Particle>, c: seq<Adjustment>, r: nat,
                       t: real, d: real)
    requires OpenedOn(ps, qs, r, t, d)
    ensures Followed(wanted, ps, qs, c, c)
  {
    NoneAdjusted(wanted, ps, qs, c);
  }

  ghost predicate KicksGrow(ps: seq<Particle>, qs: seq<Particle>) {
    |qs| == |ps| && forall i | 0 <= i < |ps| :: qs[i].rung == ps[i].rung && ps[i].kicks <= qs[i].kicks
  }

  /** First the particles on rung u open their steps, then the deeper ones theirs. */
  lemma OpensBoth(ps: seq<Particle>, qs: seq<Particle>, rs: seq<Particle>, u: nat, iKickRung: nat, t: real, d: real,
                  e: real)
    requires OpenedOn(ps, qs, u, t, d) && Evolved(qs, rs, u + 1, iKickRung, e) && OpensOwn(qs, rs, u + 1, t, d)
    ensures OpensOwn(ps, rs, u, t, d)
  {
    forall i | 0 <= i < |ps| && ps[i].rung >= u ensures FirstKick(ps[i], rs[i], t, d, ps[i].rung) {
      if ps[i].rung > u { assert FirstKick(qs[i], rs[i], t, d, qs[i].rung); }
    }
  }

  lemma FirstKept(ps: seq<Particle>, qs: seq<Particle>, rs: seq<Particle>, u: nat, t: real, d: real)
    requires OpensOwn(ps, qs, u, t, d) && KicksGrow(qs, rs)
    ensures OpensOwn(ps, rs, u, t, d)
  {
    forall i | 0 <= i < |ps| && ps[i].rung >= u ensures FirstKick(ps[i], rs[i], t, d, ps[i].rung) {
      assert FirstKick(ps[i], qs[i], t, d, ps[i].rung);
    }
  }

  /** Later kicks do not change the first ones. */
  lemma OpensTrans(ps: seq<Particle>, qs: seq<Particle>, rs: seq<Particle>, u: nat, t: real, d: real, iKickRung: nat,
                   e: real)
    requires |qs| == |ps| && Evolved(qs, rs, u, iKickRung, e)
    requires forall i | 0 <= i < |ps| && ps[i].rung >= u :: qs[i].rung >= u && FirstKick(ps[i], qs[i], t, d, ps[i].rung)
    ensures OpensOwn(ps, rs, u, t, d)
  {
  }

  lemma FirstSame(p: Particle, p': Particle, q: Particle, t: real, d: real, r: nat)
    requires p'.kicks == p.kicks && FirstKick(p', q, t, d, r)
    ensures FirstKick(p, q, t, d, r)
  {
  }

  lemma SameEvolved(ps: seq<Particle>, u: nat, t: real)
    ensures Evolved(ps, ps, u, u, t)
  {
  }

  lemma NoneDeeper(c: seq<Adjustment>, u: nat, maxRung: nat, t: real, d: real)
    ensures DeeperAndOdd(c, |c|, u, maxRung, t, d)
  {
  }

  /** The adjustment is at an odd multiple of the step of its own rung after t. */
  ghost predicate OddAfter(a: Adjustment, t: real, d: real) {
    exists n: nat :: OddAt(a, t, d, n)
  }

  ghost predicate OddAt(a: Adjustment, t: real, d: real, n: nat) {
    n % 2 == 1 && a.time == SyncTime(d, t, a.rung, n)
  }

  /** All adjustments after the first n are of rungs deeper than u, at odd multiples of their own steps after t. */
  ghost predicate DeeperAndOdd(adjusted: seq<Adjustment>, n: nat, u: nat, maxRung: nat, t: real, d: real) {
    forall k | n <= k < |adjusted| :: u < adjusted[k].rung < maxRung - 1 && OddAfter(adjusted[k], t, d)
  }

  /** A sync point of rung u is an even sync point of each deeper rung. */
  lemma {:induction false} SyncDeeper(d: real, t: real, u: nat, v: nat, n: nat) returns (m: nat)
    requires u < v
    ensures m % 2 == 0 && SyncTime(d, t, u, n) == SyncTime(d, t, v, m)
    decreases v - u
  {
    SyncPointIsEven(d, t, u, n);
    m := 2 * n;
    if u + 1 < v { m := SyncDeeper(d, t, u + 1, v, 2 * n); }
  }

  lemma {:induction false} SyncAdd(d: real, t: real, u: nat, m: nat, n: nat)
    ensures SyncTime(d, SyncTime(d, t, u, m), u, n) == SyncTime(d, t, u, m + n)
  {
    if n > 0 { SyncAdd(d, t, u, m, n - 1); }
  }

  /** Seen from one step of a rung above earlier, it is still an odd multiple. */
  lemma OddEarlier(a: Adjustment, t: real, d: real, u: nat)
    requires u < a.rung && OddAfter(a, t + Step(d, u), d)
    ensures OddAfter(a, t, d)
  {
    var n: nat :| OddAt(a, t + Step(d, u), d, n);
    assert SyncTime(d, t, u, 1) == SyncTime(d, t, u, 0) + Step(d, u);
    var m := SyncDeeper(d, t, u, a.rung, 1);
    SyncAdd(d, t, a.rung, m, n);
    assert OddAt(a, t, d, m + n);
  }

  /** The adjustments of two deeper steps, the second of which starts with one. */
  lemma OddInBoth(c0: seq<Adjustment>, c1: seq<Adjustment>, c2: seq<Adjustment>, u: nat, maxRung: nat, t: real, d: real)
    requires c0 <= c1 <= c2 && DeeperAndOdd(c1, |c0|, u + 1, maxRung, t, d)
    requires if u + 1 < maxRung - 1
             then |c1| < |c2| && c2[|c1|] == Adjustment(u + 1, t + Step(d, u + 1))
                  && DeeperAndOdd(c2, |c1| + 1, u + 1, maxRung, t + Step(d, u + 1), d)
             else DeeperAndOdd(c2, |c1|, u + 1, maxRung, t + Step(d, u + 1), d)
    ensures DeeperAndOdd(c2, |c0|, u, maxRung, t, d)
  {
    forall k | |c0| <= k < |c2| ensures u < c2[k].rung < maxRung - 1 && OddAfter(c2[k], t, d) {
      if k < |c1| {
        assert c2[k] == c1[k];
      } else if k == |c1| && u + 1 < maxRung - 1 {
        assert SyncTime(d, t, u + 1, 1) == SyncTime(d, t, u + 1, 0) + Step(d, u + 1);
        assert OddAt(c2[k], t, d, 1);
      } else {
        OddEarlier(c2[k], t, d, u + 1);
      }
    }
  }

  /** Open or close a half step of length dt at time t for the particles on rung r. */
  function KickedAll(ps: seq<Particle>, r: nat, t: real, dt: real, open: bool): (qs: seq<Particle>)
    ensures |qs| == |ps|
    ensures forall i | 0 <= i < |ps| ::
              qs[i] == if ps[i].rung == r then ps[i].(kicks := ps[i].kicks + [Kick(t, t + dt, ps[i].forceTime, open)])
                  else ps[i]
  {
    seq(|ps|, i requires 0 <= i < |ps| =>
      if ps[i].rung == r then ps[i].(kicks := ps[i].kicks + [Kick(t, t + dt, ps[i].forceTime, open)]) else ps[i])
  }

  lemma OpenRung(ps: seq<Particle>, r: nat, t0: real, d: real, t: real)
    requires Sync(ps, r, t0, t)
    ensures var qs := KickedAll(ps, r, t, Step(d, r + 1), true);
            OpenUntil(qs, r, t0, d, t + Step(d, r)) && Sync(qs, r + 1, t0, t)
  {
    var qs := KickedAll(ps, r, t, Step(d, r + 1), true);
    forall i | 0 <= i < |ps| && ps[i].rung == r ensures Due(qs[i].kicks, t0, d, r, t + Step(d, r)) {
      OpenClosed(ps[i].kicks, t0, d, r, t);
    }
  }

  lemma {:induction false} CloseRung(ps: seq<Particle>, r: nat, t0: real, d: real, e: real)
    requires OpenUntil(ps, r, t0, d, e) && Sync(ps, r + 1, t0, e)
    requires forall i | 0 <= i < |ps| && ps[i].rung == r :: ps[i].forceTime == e
    ensures Sync(KickedAll(ps, r, e - Step(d, r + 1), Step(d, r + 1), false), r, t0, e)
  {
    var qs := KickedAll(ps, r, e - Step(d, r + 1), Step(d, r + 1), false);
    forall i | 0 <= i < |ps| && ps[i].rung == r ensures Closed(qs[i].kicks, t0, e) {
      CloseDue(ps[i].kicks, t0, d, r, e);
    }
  }

  /** Criteria followed by an adjustment: rungs change among the synchronous particles only. */
  lemma {:induction false} AdjustEffect(ps: seq<Particle>, cs: seq<Particle>, w: seq<nat>, u: nat, maxRung: nat,
                                        t0: real, t: real)
    requires |cs| == |w| == |ps| && u < maxRung
    requires Within(ps, maxRung - 1) && SomeAtLeast(ps, u) && Sync(ps, u, t0, t)
    requires forall i | 0 <= i < |ps| :: w[i] < maxRung
    requires forall i | 0 <= i < |ps| :: cs[i] == if ps[i].rung >= u then ps[i].(uNewRung := w[i]) else ps[i]
    ensures var qs := UpdatedAll(cs, u, maxRung);
            && MaxRungIs(qs, Deepest(qs, maxRung - 1)) && u <= Deepest(qs, maxRung - 1) < maxRung
            && SomeAtLeast(qs, u) && Sync(qs, u, t0, t) && Evolved(ps, qs, u, u, t)
            && forall i | 0 <= i < |ps| && ps[i].rung >= u :: qs[i].rung == if w[i] < u then u else w[i]
  {
    hide Closed, Deepest, CountRung;
    var j :| 0 <= j < |ps| && ps[j].rung >= u;
    assert cs[j].rung >= u;
    assert UpdatedAll(cs, u, maxRung)[j].rung >= u;
    AdjustKeepsRung(cs, u, maxRung);
  }

  /** A kick changes nothing but the velocities on its rung. */
  lemma KickedEvolves(ps: seq<Particle>, r: nat, t: real, dt: real, open: bool, m: nat, e: real)
    requires MaxRungIs(ps, m) && SomeAtLeast(ps, r)
    ensures var qs := KickedAll(ps, r, t, dt, open); MaxRungIs(qs, m) && SomeAtLeast(qs, r) && Evolved(ps, qs, r, r, e)
  {
    KickedKeepsRungs(ps, r, t, dt, open, m);
    KickedKeepsRungs(ps, r, t, dt, open, r);
  }

  lemma KickedKeepsRungs(ps: seq<Particle>, r: nat, t: real, dt: real, open: bool, m: nat)
    requires SomeAtLeast(ps, m)
    ensures SomeAtLeast(KickedAll(ps, r, t, dt, open), m)
  {
    var j :| 0 <= j < |ps| && ps[j].rung >= m;
    assert KickedAll(ps, r, t, dt, open)[j].rung >= m;
  }

  /** A deeper step leaves the opened steps of rung u open, and gives that rung its new forces. */
  lemma OpenKept(ps: seq<Particle>, qs: seq<Particle>, u: nat, iKickRung: nat, t0: real, d: real, e: real)
    requires iKickRung <= u
    requires OpenUntil(ps, u, t0, d, e) && Evolved(ps, qs, u + 1, iKickRung, e)
    ensures OpenUntil(qs, u, t0, d, e)
    ensures forall i | 0 <= i < |qs| && qs[i].rung == u :: qs[i].forceTime == e
  {
    forall i | 0 <= i < |qs| && qs[i].rung == u ensures qs[i].kicks == ps[i].kicks && ps[i].rung == u
        && qs[i].forceTime == e {
      assert ps[i].rung < u + 1;
    }
  }

  /** Two changes after one another, of which at most one brings new forces to the rungs above u. */
  lemma EvolvedTrans(ps: seq<Particle>, qs: seq<Particle>, rs: seq<Particle>, u: nat, v: nat, k: nat, k': nat, t: real,
                     e: real)
    requires u <= v
    requires Evolved(ps, qs, u, k, t) && Evolved(qs, rs, v, k', e)
    requires k >= u || (k' >= v && t == e)
    ensures Evolved(ps, rs, u, if k >= u then k' else k, e)
  {
    forall i | 0 <= i < |ps| && ps[i].rung >= u ensures ps[i].kicks <= rs[i].kicks && rs[i].rung >= u {
      assert ps[i].kicks <= qs[i].kicks <= rs[i].kicks;
    }
  }

  class Msr {
    const maxRung: nat
    const t0: real
    /** What the criteria ask of particle i in the n-th adjustment. */
    const wanted: (nat, nat) -> nat

    var particles: seq<Particle>
    var nRung: seq<nat>
    var iCurrMaxRung: nat
    var drifts: seq<Drifted>
    var nAdjust: nat
    ghost var adjusted: seq<Adjustment>

    constructor (maxRung: nat, wanted: (nat, nat) -> nat, t0: real, rungs: seq<nat>)
      requires maxRung >= 1 && rungs != [] && forall i | 0 <= i < |rungs| :: rungs[i] < maxRung
      ensures this.maxRung == maxRung && this.t0 == t0 && this.wanted == wanted && |particles| == |rungs|
      ensures Contiguous(drifts, t0) && PositionTime(drifts, t0) == t0 && Sync(particles, 0, t0, t0)
      ensures MaxRungIs(particles, iCurrMaxRung) && iCurrMaxRung < maxRung && |adjusted| == nAdjust
    {
      this.maxRung := maxRung;
      this.wanted := wanted;
      this.t0 := t0;
      var ps := seq(|rungs|, i requires 0 <= i < |rungs| => Particle(rungs[i], 0, t0, []));
      particles := ps;
      iCurrMaxRung := Deepest(ps, maxRung - 1);
      nRung := seq(maxRung, r requires 0 <= r => CountRung(ps, r));
      drifts := [];
      nAdjust := 0;
      adjusted := [];
      new;
      DeepestScans(ps, maxRung - 1);
      DeepestIsMaximum(ps, maxRung - 1);
    }

    ghost predicate Valid()
      reads this
    {
      Contiguous(drifts, t0) && MaxRungIs(particles, iCurrMaxRung) && iCurrMaxRung < maxRung && |adjusted| == nAdjust
    }

    /** The time step criteria never ask for rung maxRung or deeper. */
    ghost predicate Reasonable() {
      forall n, i :: wanted(n, i) < maxRung
    }

    /** The criteria: every active particle gets a requested rung. */
    method Criteria(u: nat)
      modifies `particles, `nAdjust
      ensures nAdjust == old(nAdjust) + 1 && |particles| == |old(particles)|
      ensures forall i | 0 <= i < |particles| :: particles[i] ==
                if old(particles)[i].rung >= u then old(particles)[i].(uNewRung := wanted(old(nAdjust), i))
                else old(particles)[i]
    {
      ghost var before := particles;
      for i := 0 to |particles|
        invariant |particles| == |before| && nAdjust == old(nAdjust)
        invariant forall k | 0 <= k < |before| :: particles[k] ==
                    if k < i && before[k].rung >= u then before[k].(uNewRung := wanted(nAdjust, k)) else before[k]
      {
        if particles[i].rung >= u { particles := particles[i := particles[i].(uNewRung := wanted(nAdjust, i))]; }
      }
      nAdjust := nAdjust + 1;
    }

    /** One pass over the particles with the given cap, counting the rungs of all of them. */
    method UpdatePass(u: nat, cap: nat) returns (counts: seq<nat>)
      requires Within(particles, maxRung) && cap <= maxRung
      modifies `particles
      ensures particles == UpdatedAll(old(particles), u, cap)
      ensures |counts| == maxRung + 1 && forall r | 0 <= r <= maxRung :: counts[r] == CountRung(particles, r)
    {
      counts := seq(maxRung + 1, _ => 0);
      ghost var before := particles;
      for i := 0 to |particles|
        invariant |particles| == |before|
        invariant forall k | i <= k < |before| :: particles[k] == before[k]
        invariant forall k | 0 <= k < i :: particles[k] == UpdatedAll(before, u, cap)[k]
        invariant |counts| == maxRung + 1 && forall r | 0 <= r <= maxRung :: counts[r] == CountRung(particles[..i], r)
      {
        if particles[i].rung >= u { particles := particles[i := Updated(particles[i], u, cap)]; }
        assert particles[..i + 1][..i] == particles[..i];
        counts := counts[particles[i].rung := counts[particles[i].rung] + 1];
      }
      assert particles[..|particles|] == particles;
    }

    method ScanCounts(counts: seq<nat>) returns (m: nat)
      requires maxRung >= 1 && |counts| == maxRung + 1
      requires forall r | 0 <= r <= maxRung :: counts[r] == CountRung(particles, r)
      ensures m == Deepest(particles, maxRung - 1)
    {
      m := maxRung - 1;
      while counts[m] == 0 && m > 0
        invariant m < maxRung && Deepest(particles, m) == Deepest(particles, maxRung - 1)
      {
        m := m - 1;
      }
    }

    /** UpdateRung with truncation threshold 0, for which the truncation loop is never entered. */
    method UpdateRung(u: nat)
      requires u < maxRung && Within(particles, maxRung)
      modifies `particles, `nRung, `iCurrMaxRung
      ensures particles == UpdatedAll(old(particles), u, maxRung)
      ensures iCurrMaxRung == Deepest(particles, maxRung - 1)
      ensures |nRung| == maxRung && forall r | 0 <= r < maxRung :: nRung[r] == CountRung(particles, r)
    {
      var counts := UpdatePass(u, maxRung);
      var iOutMaxRung := ScanCounts(counts);
      DeepestScans(particles, maxRung - 1);
      assert !(counts[iOutMaxRung] <= 0 && iOutMaxRung > u);
      nRung := counts[..maxRung];
      iCurrMaxRung := iOutMaxRung;
    }

    /** The kick of the particles on rung r over [t, t + dt] with their stored accelerations. */
    method KickRung(t: real, dt: real, r: nat, open: bool)
      modifies `particles
      ensures particles == KickedAll(old(particles), r, t, dt, open)
    {
      ghost var before := particles;
      for i := 0 to |particles|
        invariant |particles| == |before|
        invariant forall k | 0 <= k < |before| ::
                    particles[k] == if k < i then KickedAll(before, r, t, dt, open)[k] else before[k]
      {
        var p := particles[i];
        if p.rung == r {
          particles := particles[i := p.(kicks := p.kicks + [Kick(t, t + dt, p.forceTime, open)])];
        }
      }
    }

    /** Forces for all particles on rung iKickRung or deeper; no kicks.  The requested rungs are
        cleared here and set again by the criteria of the next adjustment. */
    method Gravity(iKickRung: nat)
      modifies `particles
      ensures |particles| == |old(particles)|
      ensures forall i | 0 <= i < |particles| :: particles[i] ==
                if old(particles)[i].rung >= iKickRung
                then old(particles)[i].(forceTime := PositionTime(drifts, t0), uNewRung := 0)
                else old(particles)[i]
    {
      ghost var before := particles;
      for i := 0 to |particles|
        invariant |particles| == |before|
        invariant forall k | 0 <= k < |before| :: particles[k] ==
                    if k < i && before[k].rung >= iKickRung
                    then before[k].(forceTime := PositionTime(drifts, t0), uNewRung := 0) else before[k]
      {
        if particles[i].rung >= iKickRung {
          particles := particles[i := particles[i].(forceTime := PositionTime(drifts, t0), uNewRung := 0)];
        }
      }
    }

    method Adjust(iRung: nat, ghost t: real)
      requires Valid() && Reasonable() && SomeAtLeast(particles, iRung) && iRung < maxRung
      requires Sync(particles, iRung, t0, t)
      modifies `particles, `nRung, `iCurrMaxRung, `nAdjust, `adjusted
      ensures Valid() && SomeAtLeast(particles, iRung)
      ensures Sync(particles, iRung, t0, t)
      ensures Evolved(old(particles), particles, iRung, iRung, t)
      ensures adjusted == old(adjusted) + [Adjustment(iRung, t)]
      ensures Followed(wanted, old(particles), particles, old(adjusted), adjusted)
      ensures forall i | 0 <= i < |particles| && old(particles)[i].rung >= iRung ::
                && particles[i].kicks == old(particles)[i].kicks
                && particles[i].rung == Chosen(wanted(old(nAdjust), i), iRung)
    {
      hide Deepest, Closed, Contiguous;
      ghost var call := nAdjust;
      ghost var w := seq<nat>(|particles|, (i: nat) => wanted(call, i));
      ghost var ps := particles;
      Criteria(iRung);
      AdjustEffect(ps, particles, w, iRung, maxRung, t0, t);
      UpdateRung(iRung);
      adjusted := adjusted + [Adjustment(iRung, t)];
      OneAdjusted(wanted, ps, particles, old(adjusted), Adjustment(iRung, t));
    }

    /** One step of length dDeltaRung for all particles on rung iRung or deeper.  Its first kicks open steps of the
        rungs the
        particles chose in the adjustment at its start, or of their own if there is none;
            all later adjustments are of deeper
        rungs, in the middles of steps, and when some particle is deeper the next rung is adjusted in the middle of
        the step. */
    method TopStepKDK(dTime: real, dDeltaRung: real, iRung: nat, iKickRung: nat, iAdjust: bool, ghost d: real)
      requires Valid() && Reasonable() && SomeAtLeast(particles, iRung) && iKickRung <= iRung < maxRung
      requires dDeltaRung == Step(d, iRung)
      requires Sync(particles, iRung, t0, dTime) && PositionTime(drifts, t0) == dTime
      modifies this
      ensures Valid() && SomeAtLeast(particles, iRung)
      ensures Sync(particles, iRung, t0, dTime + dDeltaRung) && PositionTime(drifts, t0) == dTime + dDeltaRung
      ensures Evolved(old(particles), particles, iRung, iKickRung, dTime + dDeltaRung)
      ensures forall i | 0 <= i < |particles| && old(particles)[i].rung >= iRung ::
                FirstKick(old(particles)[i], particles[i], dTime, d,
                          if iAdjust && iRung < maxRung - 1 then Chosen(wanted(old(nAdjust), i), iRung)
                          else old(particles)[i].rung)
      ensures old(adjusted) <= adjusted && Followed(wanted, old(particles), particles, old(adjusted), adjusted)
      ensures if iAdjust && iRung < maxRung - 1
              then |old(adjusted)| < |adjusted| && adjusted[|old(adjusted)|] == Adjustment(iRung, dTime)
                   && DeeperAndOdd(adjusted, |old(adjusted)| + 1, iRung, maxRung, dTime, d)
              else DeeperAndOdd(adjusted, |old(adjusted)|, iRung, maxRung, dTime, d)
      ensures (exists i | 0 <= i < |particles| && old(particles)[i].rung >= iRung ::
                 (if iAdjust && iRung < maxRung - 1 then Chosen(wanted(old(nAdjust), i), iRung)
                  else old(particles)[i].rung) > iRung) && iRung + 1 < maxRung - 1 ==>
                Adjustment(iRung + 1, dTime + Step(d, iRung + 1)) in adjusted[|old(adjusted)|..]
      ensures old(drifts) <= drifts
      decreases maxRung - iRung, 3
    {
      hide Closed, Due, Contiguous, Followed, DeeperAndOdd, FirstKick, Sync, Evolved;
      ghost var ps0, c0 := particles, adjusted;
      NoneAdjusted(wanted, ps0, ps0, c0);
      SameEvolved(ps0, iRung, dTime);
      if iAdjust && iRung < maxRung - 1 {
        Adjust(iRung, dTime);
      }
      ghost var ps1, c1 := particles, adjusted;
      OpenStepClose(dTime, dDeltaRung, iRung, iKickRung, d);
      FollowedTrans(wanted, ps0, ps1, particles, c0, c1, adjusted);
      EvolvedTrans(ps0, ps1, particles, iRung, iRung, iRung, iKickRung, dTime, dTime + dDeltaRung);
      forall i | 0 <= i < |ps0| && ps0[i].rung >= iRung
        ensures ps1[i].rung >= iRung && FirstKick(ps0[i], particles[i], dTime, d, ps1[i].rung)
      {
        FirstSame(ps0[i], ps1[i], particles[i], dTime, d, ps1[i].rung);
      }
    }

    /** TopStepKDK without the adjustment. */
    method OpenStepClose(dTime: real, dDeltaRung: real, iRung: nat, iKickRung: nat, ghost d: real)
      requires Valid() && Reasonable() && SomeAtLeast(particles, iRung) && iKickRung <= iRung < maxRung
      requires dDeltaRung == Step(d, iRung)
      requires Sync(particles, iRung, t0, dTime) && PositionTime(drifts, t0) == dTime
      modifies this
      ensures Valid() && SomeAtLeast(particles, iRung)
      ensures Sync(particles, iRung, t0, dTime + dDeltaRung) && PositionTime(drifts, t0) == dTime + dDeltaRung
      ensures Evolved(old(particles), particles, iRung, iKickRung, dTime + dDeltaRung)
      ensures OpensOwn(old(particles), particles, iRung, dTime, d)
      ensures old(adjusted) <= adjusted && Followed(wanted, old(particles), particles, old(adjusted), adjusted)
      ensures DeeperAndOdd(adjusted, |old(adjusted)|, iRung, maxRung, dTime, d)
      ensures old(iCurrMaxRung) > iRung && iRung + 1 < maxRung - 1 ==>
                Adjustment(iRung + 1, dTime + Step(d, iRung + 1)) in adjusted[|old(adjusted)|..]
      ensures old(drifts) <= drifts
      decreases maxRung - iRung, 2
    {
      hide Closed, Due, Contiguous, Followed, DeeperAndOdd, FirstKick, Evolved, Sync, OpenUntil;
      ghost var ps1, c1 := particles, adjusted;
      OpenAndStep(dTime, dDeltaRung, iRung, iKickRung, d);
      ghost var ps2, c2 := particles, adjusted;
      KickKDKClose(dTime + 0.5 * dDeltaRung, 0.5 * dDeltaRung, iRung, d);
      EvolvedTrans(ps1, ps2, particles, iRung, iRung, iKickRung, iRung, dTime + dDeltaRung, dTime + dDeltaRung);
      NoneAdjusted(wanted, ps2, particles, c2);
      FollowedTrans(wanted, ps1, ps2, particles, c1, c2, c2);
      FirstKept(ps1, ps2, particles, iRung, dTime, d);
    }

    /** TopStepKDK without the adjustment and the closing kick. */
    method OpenAndStep(dTime: real, dDeltaRung: real, iRung: nat, iKickRung: nat, ghost d: real)
      requires Valid() && Reasonable() && SomeAtLeast(particles, iRung) && iKickRung <= iRung < maxRung
      requires dDeltaRung == Step(d, iRung)
      requires Sync(particles, iRung, t0, dTime) && PositionTime(drifts, t0) == dTime
      modifies this
      ensures Valid() && SomeAtLeast(particles, iRung)
      ensures PositionTime(drifts, t0) == dTime + dDeltaRung && old(drifts) <= drifts
      ensures OpenUntil(particles, iRung, t0, d, dTime + dDeltaRung)
      ensures forall i | 0 <= i < |particles| && particles[i].rung == iRung ::
                particles[i].forceTime == dTime + dDeltaRung
      ensures Sync(particles, iRung + 1, t0, dTime + dDeltaRung)
      ensures Evolved(old(particles), particles, iRung, iKickRung, dTime + dDeltaRung)
      ensures OpensOwn(old(particles), particles, iRung, dTime, d)
      ensures old(adjusted) <= adjusted && Followed(wanted, old(particles), particles, old(adjusted), adjusted)
      ensures DeeperAndOdd(adjusted, |old(adjusted)|, iRung, maxRung, dTime, d)
      ensures old(iCurrMaxRung) > iRung && iRung + 1 < maxRung - 1 ==>
                Adjustment(iRung + 1, dTime + Step(d, iRung + 1)) in adjusted[|old(adjusted)|..]
      decreases maxRung - iRung, 1
    {
      hide Closed, Due, Contiguous, Followed, DeeperAndOdd, FirstKick, Sync, OpenUntil, Evolved, OpenedOn, OpensOwn;
      ghost var ps0, c0 := particles, adjusted;
      KickKDKOpen(dTime, 0.5 * dDeltaRung, iRung, d);
      ghost var ps1 := particles;
      StepDeeper(dTime, dDeltaRung, iRung, iKickRung, d);
      OpenKept(ps1, particles, iRung, iKickRung, t0, d, dTime + dDeltaRung);
      EvolvedTrans(ps0, ps1, particles, iRung, iRung + 1, iRung, iKickRung, dTime, dTime + dDeltaRung);
      OpeningFollows(wanted, ps0, ps1, c0, iRung, dTime, d);
      FollowedTrans(wanted, ps0, ps1, particles, c0, c0, adjusted);
      OpensBoth(ps0, ps1, particles, iRung, iKickRung, dTime, d, dTime + dDeltaRung);
    }

    method KickKDKOpen(t: real, dt: real, r: nat, ghost d: real)
      requires Valid() && SomeAtLeast(particles, r) && Sync(particles, r, t0, t) && dt == Step(d, r + 1)
      modifies `particles
      ensures Valid() && SomeAtLeast(particles, r)
      ensures Evolved(old(particles), particles, r, r, t)
      ensures OpenUntil(particles, r, t0, d, t + Step(d, r)) && Sync(particles, r + 1, t0, t)
      ensures OpenedOn(old(particles), particles, r, t, d)
    {
      OpenedAll(particles, r, t0, t, d);
      hide OpenedOn;
      hide Sync, OpenUntil, Evolved, KickedAll, MaxRungIs, SomeAtLeast, Contiguous;
      OpenRung(particles, r, t0, d, t);
      KickedEvolves(particles, r, t, dt, true, iCurrMaxRung, t);
      KickRung(t, dt, r, true);
    }

    method KickKDKClose(t: real, dt: real, r: nat, ghost d: real)
      requires Valid() && SomeAtLeast(particles, r) && dt == Step(d, r + 1)
      requires OpenUntil(particles, r, t0, d, t + dt) && Sync(particles, r + 1, t0, t + dt)
      requires forall i | 0 <= i < |particles| && particles[i].rung == r :: particles[i].forceTime == t + dt
      modifies `particles
      ensures Valid() && SomeAtLeast(particles, r)
      ensures Evolved(old(particles), particles, r, r, t + dt)
      ensures Sync(particles, r, t0, t + dt)
      ensures KicksGrow(old(particles), particles)
    {
      hide Sync, OpenUntil, Evolved, KickedAll, MaxRungIs, SomeAtLeast, Contiguous;
      CloseRung(particles, r, t0, d, t + dt);
      assert t + dt - Step(d, r + 1) == t;
      KickedEvolves(particles, r, t, dt, false, iCurrMaxRung, t + dt);
      KickRung(t, dt, r, false);
    }

    /** The part of TopStepKDK between the opening and the closing kick. */
    method StepDeeper(dTime: real, dDeltaRung: real, iRung: nat, iKickRung: nat, ghost d: real)
      requires Valid() && Reasonable() && SomeAtLeast(particles, iRung) && iKickRung <= iRung < maxRung
      requires dDeltaRung == Step(d, iRung)
      requires Sync(particles, iRung + 1, t0, dTime) && PositionTime(drifts, t0) == dTime
      modifies this
      ensures Valid() && SomeAtLeast(particles, iRung)
      ensures Sync(particles, iRung + 1, t0, dTime + dDeltaRung) && PositionTime(drifts, t0) == dTime + dDeltaRung
      ensures Evolved(old(particles), particles, iRung + 1, iKickRung, dTime + dDeltaRung)
      ensures OpensOwn(old(particles), particles, iRung + 1, dTime, d)
      ensures old(adjusted) <= adjusted && Followed(wanted, old(particles), particles, old(adjusted), adjusted)
      ensures DeeperAndOdd(adjusted, |old(adjusted)|, iRung, maxRung, dTime, d)
      ensures old(iCurrMaxRung) > iRung && iRung + 1 < maxRung - 1 ==>
                Adjustment(iRung + 1, dTime + Step(d, iRung + 1)) in adjusted[|old(adjusted)|..]
      ensures old(drifts) <= drifts
      decreases maxRung - iRung, 0
    {
      hide Followed, DeeperAndOdd, Closed, Due, Contiguous, FirstKick;
      ghost var ps0, c0 := particles, adjusted;
      if iCurrMaxRung > iRung {
        TopStepKDK(dTime, 0.5 * dDeltaRung, iRung + 1, iRung + 1, false, d);
        ghost var ps1, c1 := particles, adjusted;
        TopStepKDK(dTime + 0.5 * dDeltaRung, 0.5 * dDeltaRung, iRung + 1, iKickRung, true, d);
        FollowedTrans(wanted, ps0, ps1, particles, c0, c1, adjusted);
        OddInBoth(c0, c1, adjusted, iRung, maxRung, dTime, d);
        OpensTrans(ps0, ps1, particles, iRung + 1, dTime, d, iKickRung, dTime + dDeltaRung);
      } else if iCurrMaxRung == iRung {
        DriftContinues(drifts, t0, dDeltaRung);
        drifts := drifts + [Drifted(dTime, dTime + dDeltaRung)];
        Gravity(iKickRung);
        NoneAdjusted(wanted, ps0, particles, c0);
        NoneDeeper(c0, iRung, maxRung, dTime, d);
      } else {
        assert false;
      }
    }
  }
}
