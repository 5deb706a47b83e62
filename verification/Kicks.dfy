/** Time intervals over which a particle's velocity has been advanced, and the block
    timestep hierarchy: a particle on rung r takes steps of length D/2^r. */
module Kicks {

  /** One velocity update.  The kick factor is an integral over [lo, hi]; the acceleration
      it multiplies was evaluated with all positions drifted to time `at`. */
  datatype Kick = Kick(lo: real, hi: real, at: real, open: bool)

  /** Length of the step of rung r when the base step is d. */
  function Step(d: real, r: nat): real {
    if r == 0 then d else Step(d, r - 1) / 2.0
  }

  /** Kick i continues where kick i-1 ended; opening and closing kicks alternate and have
      equal length; every kick uses forces evaluated at the synchronised end of its interval. */
  ghost predicate GoodKick(ks: seq<Kick>, i: nat, t0: real)
    requires i < |ks|
  {
    && ks[i].open == (i % 2 == 0)
    && ks[i].lo == (if i == 0 then t0 else ks[i - 1].hi)
    && ks[i].at == (if ks[i].open then ks[i].lo else ks[i].hi)
    && (!ks[i].open ==> i > 0 && ks[i].hi - ks[i].lo == ks[i - 1].hi - ks[i - 1].lo)
  }

  /** The kicks cover the time from t0 on with neither gap nor overlap. */
  ghost predicate Tiles(ks: seq<Kick>, t0: real) {
    forall i | 0 <= i < |ks| :: GoodKick(ks, i, t0)
  }

  /** The time up to which the velocity has been advanced. */
  function KickTime(ks: seq<Kick>, t0: real): real {
    if ks == [] then t0 else ks[|ks| - 1].hi
  }

  /** Every opened step has been closed, and the velocity stands at time t. */
  ghost predicate Closed(ks: seq<Kick>, t0: real, t: real) {
    Tiles(ks, t0) && |ks| % 2 == 0 && KickTime(ks, t0) == t
  }

  /** The last kick opened a step of rung r that has to be closed at time e. */
  ghost predicate Due(ks: seq<Kick>, t0: real, d: real, r: nat, e: real) {
    && Tiles(ks, t0)
    && |ks| % 2 == 1
    && ks[|ks| - 1].lo == e - Step(d, r)
    && ks[|ks| - 1].hi == e - Step(d, r + 1)
  }

  /** Closing a due step at exactly its end keeps the tiling and leaves nothing open. */
  lemma {:induction false} CloseDue(ks: seq<Kick>, t0: real, d: real, r: nat, e: real)
    requires Due(ks, t0, d, r, e)
    ensures Closed(ks + [Kick(e - Step(d, r + 1), e, e, false)], t0, e)
  {
    var ks' := ks + [Kick(e - Step(d, r + 1), e, e, false)];
    forall i | 0 <= i < |ks'| ensures GoodKick(ks', i, t0) {
      if i < |ks| { assert GoodKick(ks, i, t0); }
    }
  }

  /** Opening a step of rung r on a closed particle makes that step due one step later. */
  lemma OpenClosed(ks: seq<Kick>, t0: real, d: real, r: nat, t: real)
    requires Closed(ks, t0, t)
    ensures Due(ks + [Kick(t, t + Step(d, r + 1), t, true)], t0, d, r, t + Step(d, r))
  {
    var ks' := ks + [Kick(t, t + Step(d, r + 1), t, true)];
    forall i | 0 <= i < |ks'| ensures GoodKick(ks', i, t0) {
      if i < |ks| { assert GoodKick(ks, i, t0); }
    }
  }

  lemma FrontTiles(ks: seq<Kick>, t0: real)
    requires Tiles(ks, t0) && ks != [] && forall j | 0 <= j < |ks| :: ks[j].lo < ks[j].hi
    ensures Tiles(ks[..|ks| - 1], t0) && KickTime(ks[..|ks| - 1], t0) == ks[|ks| - 1].lo
    ensures forall j | 0 <= j < |ks| - 1 :: ks[j].hi <= ks[|ks| - 1].lo
  {
    var n := |ks| - 1;
    var front := ks[..n];
    assert GoodKick(ks, n, t0);
    forall j | 0 <= j < n ensures GoodKick(front, j, t0) && ks[j].hi <= ks[n].lo {
      assert GoodKick(ks, j, t0);
      FrontEndsBefore(ks, t0, j, n);
    }
  }

  /** What tiling buys: at every instant between the first and the last kick exactly one kick
      covers the velocity (half open intervals), provided kicks run forward in time. */
  lemma {:induction false} ExactlyOneKickCovers(ks: seq<Kick>, t0: real, t: real) returns (i: nat)
    requires Tiles(ks, t0)
    requires forall j | 0 <= j < |ks| :: ks[j].lo < ks[j].hi
    requires t0 <= t < KickTime(ks, t0)
    ensures i < |ks| && ks[i].lo <= t < ks[i].hi
    ensures forall j | 0 <= j < |ks| && ks[j].lo <= t < ks[j].hi :: j == i
    decreases |ks|
  {
    var n := |ks| - 1;
    var front := ks[..n];
    FrontTiles(ks, t0);
    hide Tiles;
    if ks[n].lo <= t {
      i := n;
    } else {
      i := ExactlyOneKickCovers(front, t0, t);
      assert ks[i] == front[i];
      forall j | 0 <= j < |ks| && ks[j].lo <= t < ks[j].hi ensures j == i {
        if j < n { assert ks[j] == front[j]; }
      }
    }
  }

  /** Every kick runs forward in time. */
  ghost predicate Forward(ks: seq<Kick>) {
    forall j | 0 <= j < |ks| :: ks[j].lo < ks[j].hi
  }

  ghost predicate CoversAt(k: Kick, t: real) {
    k.lo <= t < k.hi
  }

  /** Exactly one kick covers the instant. */
  ghost predicate OneKickAt(ks: seq<Kick>, t: real) {
    exists i | 0 <= i < |ks| :: CoversAt(ks[i], t) && forall j | 0 <= j < |ks| && j != i :: !CoversAt(ks[j], t)
  }

  /** The velocity has been advanced over every instant up to its time exactly once. */
  ghost predicate EachInstantOnce(ks: seq<Kick>, t0: real) {
    forall t: real | t0 <= t < KickTime(ks, t0) :: OneKickAt(ks, t)
  }

  lemma TiledOnce(ks: seq<Kick>, t0: real)
    requires Tiles(ks, t0) && Forward(ks)
    ensures EachInstantOnce(ks, t0)
  {
    forall t: real | t0 <= t < KickTime(ks, t0) ensures OneKickAt(ks, t) {
      var i := ExactlyOneKickCovers(ks, t0, t);
      assert CoversAt(ks[i], t);
    }
  }

  lemma {:induction false} FrontEndsBefore(ks: seq<Kick>, t0: real, j: nat, n: nat)
    requires Tiles(ks, t0)
    requires forall j | 0 <= j < |ks| :: ks[j].lo < ks[j].hi
    requires j < n < |ks|
    ensures ks[j].hi <= ks[n].lo
    decreases n - j
  {
    assert GoodKick(ks, j + 1, t0);
    if j + 1 < n { FrontEndsBefore(ks, t0, j + 1, n); }
  }

  lemma {:induction false} StepPositive(d: real, r: nat)
    requires d > 0.0
    ensures Step(d, r) > 0.0
  {
    if r > 0 { StepPositive(d, r - 1); }
  }

  /** Sync point n of rung u in a base step of length d that starts at base. */
  function SyncTime(d: real, base: real, u: nat, n: nat): real {
    if n == 0 then base else SyncTime(d, base, u, n - 1) + Step(d, u)
  }

  lemma {:induction false} SyncTimeIsMultiple(d: real, base: real, u: nat, n: nat)
    ensures SyncTime(d, base, u, n) == base + n as real * Step(d, u)
  {
    if n > 0 {
      SyncTimeIsMultiple(d, base, u, n - 1);
      assert n as real * Step(d, u) == (n - 1) as real * Step(d, u) + Step(d, u);
    }
  }

  /** Sync point n of rung u is the even sync point 2n of rung u+1. */
  lemma {:induction false} SyncPointIsEven(d: real, base: real, u: nat, n: nat)
    ensures SyncTime(d, base, u, n) == SyncTime(d, base, u + 1, 2 * n)
  {
    if n > 0 {
      SyncPointIsEven(d, base, u, n - 1);
      assert SyncTime(d, base, u + 1, 2 * n - 1) == SyncTime(d, base, u + 1, 2 * n - 2) + Step(d, u + 1);
    }
  }

  /** One drift of all positions. */
  datatype Drifted = Drifted(lo: real, hi: real)

  /** The time up to which all positions have been advanced. */
  function PositionTime(drifts: seq<Drifted>, t0: real): real {
    if drifts == [] then t0 else drifts[|drifts| - 1].hi
  }

  ghost predicate Contiguous(drifts: seq<Drifted>, t0: real) {
    (drifts != [] ==> drifts[0].lo == t0) && forall i | 0 < i < |drifts| :: drifts[i].lo == drifts[i - 1].hi
  }

  lemma DriftContinues(drifts: seq<Drifted>, t0: real, dt: real)
    requires Contiguous(drifts, t0)
    ensures var drifts' := drifts + [Drifted(PositionTime(drifts, t0), PositionTime(drifts, t0) + dt)];
            Contiguous(drifts', t0) && PositionTime(drifts', t0) == PositionTime(drifts, t0) + dt
  {
  }
}
