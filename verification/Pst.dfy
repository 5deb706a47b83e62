/** The processor set tree: how it is built over all threads, how services run over it, and the offsets and
    file ranges it hands out. */
module Pst {
  import opened Arithmetic
  import opened Collections

  /** The shape of a tree; the ids of its leaves are the threads below it. */
  datatype Tree = Core(id: nat) | Node(lower: Tree, upper: Tree)

  function Lo(t: Tree): nat {
    match t
    case Core(id) => id
    case Node(lower, _) => Lo(lower)
  }

  function Size(t: Tree): (n: nat)
    ensures n >= 1
  {
    match t
    case Core(_) => 1
    case Node(lower, upper) => Size(lower) + Size(upper)
  }

  function Height(t: Tree): nat {
    match t
    case Core(_) => 0
    case Node(lower, upper) => 1 + (if Height(lower) > Height(upper) then Height(lower) else Height(upper))
  }

  /** Every subtree owns the consecutive threads from its own id on. */
  predicate Contiguous(t: Tree) {
    match t
    case Core(_) => true
    case Node(lower, upper) => Contiguous(lower) && Contiguous(upper) && Lo(upper) == Lo(lower) + Size(lower)
  }

  // ----- where a range of threads is split -----

  function ThreadToProc(id: nat, cores: nat): nat
    requires cores > 0
  {
    id / cores
  }

  function ProcToThread(proc: nat, cores: nat): nat {
    proc * cores
  }

  function Middle(lo: nat, hi: nat, cores: nat): nat
    requires lo < hi && cores > 0
  {
    var mid := (hi + lo) / 2;
    if ThreadToProc(lo, cores) != ThreadToProc(hi - 1, cores) then ProcToThread(ThreadToProc(mid, cores), cores)
        else mid
  }

  /** A range inside one node, or of whole nodes. */
  predicate Aligned(lo: nat, hi: nat, cores: nat)
    requires cores > 0
  {
    lo < hi && (lo / cores == (hi - 1) / cores || (lo % cores == 0 && hi % cores == 0))
  }

  lemma RoundDown(x: nat, c: nat)
    requires c > 0
    ensures var y := x / c * c; y <= x < y + c && y % c == 0 && y / c == x / c && (x % c == 0 <==> x == y)
  {
    var y := x / c * c;
    assert x == y + x % c;
    QuotientIs(y, x / c, c);
  }

  lemma SameNode(lo: nat, x: nat, hi: nat, c: nat)
    requires c > 0 && lo <= x <= hi && lo / c == hi / c
    ensures x / c == lo / c
  {
    RoundDown(lo, c);
    RoundDown(hi, c);
    QuotientIs(x, lo / c, c);
  }

  /** Whole nodes: more than one means at least two nodes' worth of threads. */
  lemma TwoNodes(lo: nat, hi: nat, c: nat)
    requires c > 0 && lo < hi && lo % c == 0 && hi % c == 0 && lo / c != (hi - 1) / c
    ensures hi - lo >= 2 * c
  {
    RoundDown(lo, c);
    RoundDown(hi, c);
    var a, b := lo / c, hi / c;
    if b == a + 1 {
      assert (a + 1) * c == a * c + c;
      QuotientIs(hi - 1, a, c);
    } else if b > a + 1 {
      Monotone(a + 2, b, c);
      assert (a + 2) * c == a * c + 2 * c;
    } else {
      Monotone(b, a, c);
    }
  }

  /** Both sides of a split get at least one thread, the upper side at least half, and both are aligned again. */
  lemma SplitIsProper(lo: nat, hi: nat, cores: nat)
    requires cores > 0 && Aligned(lo, hi, cores) && hi - lo > 1
    ensures lo < Middle(lo, hi, cores) < hi
    ensures 2 * (hi - Middle(lo, hi, cores)) >= hi - lo
    ensures Aligned(lo, Middle(lo, hi, cores), cores) && Aligned(Middle(lo, hi, cores), hi, cores)
  {
    var mid := (hi + lo) / 2;
    if lo / cores != (hi - 1) / cores {
      TwoNodes(lo, hi, cores);
      RoundDown(mid, cores);
      RoundDown(lo, cores);
    } else {
      SameNode(lo, mid, hi - 1, cores);
      SameNode(lo, mid - 1, hi - 1, cores);
    }
  }

  /** From the start of a node, a range that leaves the node is split properly exactly if it holds two nodes'
      worth of threads. */
  lemma ProperSplitIff(lo: nat, hi: nat, cores: nat)
    requires cores > 0 && lo % cores == 0 && hi - lo > cores
    ensures lo < Middle(lo, hi, cores) <==> hi - lo >= 2 * cores
  {
    var mid := (hi + lo) / 2;
    RoundDown(mid, cores);
    RoundDown(lo, cores);
    RoundDown(hi - 1, cores);
    assert lo / cores != (hi - 1) / cores;
    if hi - lo < 2 * cores { QuotientIs(mid, lo / cores, cores); }
  }

  /** Every split that the construction over lo..hi reaches has threads on both sides. */
  ghost predicate AllProper(lo: nat, hi: nat, cores: nat)
    requires cores > 0
    decreases hi - lo
  {
    lo < hi && (hi - lo == 1 ||
      (lo < Middle(lo, hi, cores) < hi && AllProper(lo, Middle(lo, hi, cores), cores)
       && AllProper(Middle(lo, hi, cores), hi, cores)))
  }

  lemma {:induction false} AlignedIsProper(lo: nat, hi: nat, cores: nat)
    requires cores > 0 && Aligned(lo, hi, cores)
    ensures AllProper(lo, hi, cores)
    decreases hi - lo
  {
    if hi - lo > 1 {
      SplitIsProper(lo, hi, cores);
      hide Aligned, Middle;
      AlignedIsProper(lo, Middle(lo, hi, cores), cores);
      AlignedIsProper(Middle(lo, hi, cores), hi, cores);
    }
  }

  /** A split outside a node lands on the start of a node and leaves at least half of the threads above it. */
  lemma SplitAtNode(lo: nat, hi: nat, cores: nat)
    requires cores > 0 && hi - lo > 1 && lo / cores != (hi - 1) / cores
    ensures Middle(lo, hi, cores) % cores == 0 && Middle(lo, hi, cores) < hi
    ensures 2 * (hi - Middle(lo, hi, cores)) >= hi - lo
  {
    RoundDown((hi + lo) / 2, cores);
  }

  /** From the start of a node on, all splits are proper if and only if the threads are whole nodes, or fit into one:
      one smaller node at the end makes some split improper.  There the request for the upper side goes to the
      thread that is splitting, which is no longer the leaf that SetAdd asserts it to be. */
  lemma {:induction false} AllProperIff(lo: nat, hi: nat, cores: nat)
    requires cores > 0 && lo % cores == 0
    ensures AllProper(lo, hi, cores) <==> Aligned(lo, hi, cores)
    decreases hi - lo
  {
    if Aligned(lo, hi, cores) {
      AlignedIsProper(lo, hi, cores);
    } else if lo < hi && AllProper(lo, hi, cores) {
      MoreThanOneNode(lo, hi, cores);
      ProperSplitIff(lo, hi, cores);
      SplitAtNode(lo, hi, cores);
      var mid := Middle(lo, hi, cores);
      AllProperIff(mid, hi, cores);
      WholeUpper(mid, hi, cores);
    }
  }

  /** Ten threads on nodes of four: 0..10 is split at 4, but 4..10 at 4, again. */
  lemma SmallerNodeIsImproper()
    ensures Middle(0, 10, 4) == 4 && Middle(4, 10, 4) == 4 && !AllProper(0, 10, 4)
  {
    assert !AllProper(4, 10, 4);
  }

  lemma MoreThanOneNode(lo: nat, hi: nat, cores: nat)
    requires cores > 0 && lo % cores == 0 && lo < hi && lo / cores != (hi - 1) / cores
    ensures hi - lo > cores
  {
    RoundDown(lo, cores);
    if hi - 1 < lo + cores { QuotientIs(hi - 1, lo / cores, cores); }
  }

  /** At least a node's worth of threads from the start of a node, if aligned, are whole nodes. */
  lemma WholeUpper(mid: nat, hi: nat, cores: nat)
    requires cores > 0 && mid % cores == 0 && hi - mid >= cores && Aligned(mid, hi, cores)
    ensures hi % cores == 0
  {
    if mid / cores == (hi - 1) / cores {
      RoundDown(mid, cores);
      RoundDown(hi - 1, cores);
      assert hi == mid + cores;
      MultipleMod(1, mid, cores);
    }
  }

  /** The tree that SetAdd builds over the threads lo..hi. */
  function Build(lo: nat, hi: nat, cores: nat): (t: Tree)
    requires cores > 0 && Aligned(lo, hi, cores)
    ensures Lo(t) == lo && Size(t) == hi - lo && Contiguous(t)
    decreases hi - lo
  {
    if hi - lo == 1 then Core(lo) else
    SplitIsProper(lo, hi, cores);
    var mid := Middle(lo, hi, cores);
    Node(Build(lo, mid, cores), Build(mid, hi, cores))
  }

  lemma {:induction false} BuildSplit(lo: nat, hi: nat, cores: nat)
    requires cores > 0 && Aligned(lo, hi, cores) && hi - lo > 1
    ensures var mid := Middle(lo, hi, cores);
            && lo < mid < hi && Aligned(lo, mid, cores) && Aligned(mid, hi, cores)
            && Build(lo, hi, cores) == Node(Build(lo, mid, cores), Build(mid, hi, cores))
            && Lo(Build(lo, mid, cores)) == lo && Lo(Build(mid, hi, cores)) == mid && Contiguous(Build(lo, hi, cores))
            && Size(Build(lo, mid, cores)) == mid - lo && Size(Build(mid, hi, cores)) == hi - mid
            && Lo(Build(lo, hi, cores)) == lo && Size(Build(lo, hi, cores)) == hi - lo
  {
    SplitIsProper(lo, hi, cores);
  }

  /** In every subtree the upper half is at least as large as the lower one. */
  predicate UpperHeavy(t: Tree) {
    match t
    case Core(_) => true
    case Node(lower, upper) => Size(lower) <= Size(upper) && UpperHeavy(lower) && UpperHeavy(upper)
  }

  lemma {:induction false} BuildIsUpperHeavy(lo: nat, hi: nat, cores: nat)
    requires cores > 0 && Aligned(lo, hi, cores)
    ensures UpperHeavy(Build(lo, hi, cores))
    decreases hi - lo
  {
    if hi - lo > 1 {
      SplitIsProper(lo, hi, cores);
      BuildIsUpperHeavy(lo, Middle(lo, hi, cores), cores);
      BuildIsUpperHeavy(Middle(lo, hi, cores), hi, cores);
    }
  }

  // ----- the height of the tree -----

  function Power2(k: nat): nat {
    if k == 0 then 1 else 2 * Power2(k - 1)
  }

  /** The logarithm to base 2, rounded up. */
  function CeilLog2(n: nat): (k: nat)
    ensures n <= Power2(k) && (k > 0 ==> Power2(k - 1) < n)
  {
    if n <= 1 then 0 else 1 + CeilLog2((n + 1) / 2)
  }

  lemma {:induction false} LogMonotone(m: nat, n: nat)
    requires m <= n
    ensures CeilLog2(m) <= CeilLog2(n)
  {
    if m > 1 { LogMonotone((m + 1) / 2, (n + 1) / 2); }
  }

  predicate InNode(lo: nat, hi: nat, cores: nat)
    requires cores > 0 && lo < hi
  {
    ThreadToProc(lo, cores) == ThreadToProc(hi - 1, cores)
  }

  predicate Whole(n: int, cores: nat)
    requires cores > 0
  {
    n % cores == 0
  }

  /** Inside a node the larger half has at most one thread more; over whole nodes the halves are whole nodes, and
      the larger one has at most one node more. */
  lemma SplitIsBalanced(lo: nat, hi: nat, cores: nat)
    requires cores > 0 && Aligned(lo, hi, cores) && hi - lo > 1
    ensures lo < Middle(lo, hi, cores) < hi
    ensures var nLower, nUpper := Middle(lo, hi, cores) - lo, hi - Middle(lo, hi, cores);
            if InNode(lo, hi, cores) then nUpper == nLower || nUpper == nLower + 1
            else Whole(nLower, cores) && Whole(nUpper, cores) && (nUpper == nLower || nUpper == nLower + cores)
  {
    hide Aligned, ThreadToProc, ProcToThread, Whole;
    SplitIsProper(lo, hi, cores);
    if !InNode(lo, hi, cores) {
      NodeBounds(lo, hi, cores);
      NodesSplit(ThreadToProc(lo, cores), ThreadToProc(hi, cores), cores);
    }
  }

  /** A range of several whole nodes. */
  lemma NodeBounds(lo: nat, hi: nat, cores: nat)
    requires cores > 0 && Aligned(lo, hi, cores) && !InNode(lo, hi, cores)
    ensures ThreadToProc(lo, cores) + 2 <= ThreadToProc(hi, cores)
    ensures lo == ProcToThread(ThreadToProc(lo, cores), cores) && hi == ProcToThread(ThreadToProc(hi, cores), cores)
  {
    TwoNodes(lo, hi, cores);
    RoundDown(lo, cores);
    RoundDown(hi, cores);
    hide Aligned, InNode;
    AtLeastTwo(lo / cores, hi / cores, cores);
  }

  lemma AtLeastTwo(a: nat, b: nat, cores: nat)
    requires b * cores - a * cores >= 2 * cores > 0
    ensures a + 2 <= b
  {
    Distributes(a, 1, cores);
    Distributes(a, 2, cores);
    OrderKept(b, a + 1, cores);
  }

  lemma OrderKept(a: nat, b: nat, c: nat)
    ensures a <= b ==> a * c <= b * c
  {
    if a <= b { Monotone(a, b, c); }
  }

  /** Whole nodes a..b are split at node (a + b) / 2. */
  lemma NodesSplit(a: nat, b: nat, cores: nat)
    requires cores > 0 && a + 2 <= b
    ensures var lo, hi, mid := ProcToThread(a, cores), ProcToThread(b, cores), ProcToThread((a + b) / 2, cores);
            && lo < hi && !InNode(lo, hi, cores) && Middle(lo, hi, cores) == mid
            && Whole(mid - lo, cores) && Whole(hi - mid, cores)
               && (hi - mid == mid - lo || hi - mid == mid - lo + cores)
  {
    NodeEnds(a, b, cores);
    NodeMiddle(a, b, cores);
    var q := (a + b) / 2;
    NodeDifference(a, q, cores);
    NodeDifference(q, b, cores);
    NodeDifference(q - a, b - q, cores);
    hide ThreadToProc, ProcToThread, Whole;
  }

  lemma NodeEnds(a: nat, b: nat, cores: nat)
    requires cores > 0 && a + 2 <= b
    ensures ProcToThread(a, cores) < ProcToThread(b, cores)
    ensures !InNode(ProcToThread(a, cores), ProcToThread(b, cores), cores)
  {
    Monotone(a + 2, b, cores);
    Distributes(a, 2, cores);
    Distributes(b - 1, 1, cores);
    QuotientIs(a * cores, a, cores);
    QuotientIs(b * cores - 1, b - 1, cores);
  }

  lemma NodeMiddle(a: nat, b: nat, cores: nat)
    requires cores > 0 && a <= b
    ensures ThreadToProc((ProcToThread(b, cores) + ProcToThread(a, cores)) / 2, cores) == (a + b) / 2
  {
    var q, r := (a + b) / 2, (a + b) % 2;
    Distributes(a, b, cores);
    Distributes(2 * q, r, cores);
    assert a + b == 2 * q + r;
    HalfWayUp(a * cores, b * cores, q, r, cores);
    QuotientIs((b * cores + a * cores) / 2, q, cores);
  }

  lemma HalfWayUp(lo: nat, hi: nat, q: nat, r: nat, cores: nat)
    requires cores > 0 && r < 2 && lo + hi == (2 * q) * cores + r * cores
    ensures q * cores <= (hi + lo) / 2 < q * cores + cores
  {
    var x, y := q * cores, r * cores;
    assert (2 * q) * cores == 2 * x;
    assert r == 0 ==> y == 0;
    assert r == 1 ==> y == cores;
    assert lo + hi == 2 * x + y;
  }

  lemma NodeDifference(a: nat, b: nat, cores: nat)
    requires cores > 0 && a <= b
    ensures ProcToThread(b, cores) - ProcToThread(a, cores) == ProcToThread(b - a, cores)
    ensures Whole(ProcToThread(b, cores) - ProcToThread(a, cores), cores)
    ensures b == a ==> ProcToThread(b - a, cores) == 0
    ensures b == a + 1 ==> ProcToThread(b - a, cores) == cores
  {
    Distributes(a, b - a, cores);
    MultipleMod(b - a, 0, cores);
  }

  lemma Distributes(a: nat, b: nat, c: nat)
    ensures (a + b) * c == a * c + b * c
  {
  }

  /** The levels of the tree over a range of threads: those over nodes and those inside a node. */
  function Levels(lo: nat, hi: nat, cores: nat): nat
    requires cores > 0 && lo < hi
  {
    if InNode(lo, hi, cores) then CeilLog2(hi - lo) else CeilLog2((hi - lo) / cores) + CeilLog2(cores)
  }

  lemma LevelsOver(lo: nat, hi: nat, cores: nat)
    requires cores > 0 && Aligned(lo, hi, cores) && !InNode(lo, hi, cores)
    ensures Levels(lo, hi, cores) == CeilLog2(ThreadToProc(hi, cores) - ThreadToProc(lo, cores)) + CeilLog2(cores)
  {
    NodeBounds(lo, hi, cores);
    hide CeilLog2, Aligned, InNode;
    var a, b := ThreadToProc(lo, cores), ThreadToProc(hi, cores);
    Distributes(a, b - a, cores);
    QuotientIs(hi - lo, b - a, cores);
  }

  /** The tree is as flat as it can be. */
  lemma {:induction false} HeightIs(lo: nat, hi: nat, cores: nat)
    requires cores > 0 && Aligned(lo, hi, cores)
    ensures Height(Build(lo, hi, cores)) == Levels(lo, hi, cores)
    decreases hi - lo
  {
    hide Build, Aligned, InNode, CeilLog2, ThreadToProc, ProcToThread;
    AlignedRange(lo, hi, cores);
    if InNode(lo, hi, cores) {
      HeightInNode(lo, hi, cores);
    } else {
      NodeBounds(lo, hi, cores);
      LevelsOver(lo, hi, cores);
      hide Levels;
      HeightOverNodes(ThreadToProc(lo, cores), ThreadToProc(hi, cores), cores);
    }
  }

  lemma {:induction false} HeightInNode(lo: nat, hi: nat, cores: nat)
    requires cores > 0 && lo < hi && InNode(lo, hi, cores)
    ensures Aligned(lo, hi, cores) && Height(Build(lo, hi, cores)) == CeilLog2(hi - lo)
    decreases hi - lo
  {
    hide Aligned, InNode, Middle, Whole, CeilLog2, Power2, Build, Contiguous, Lo, Size;
    InNodeIsAligned(lo, hi, cores);
    LogStep(hi - lo);
    if hi - lo == 1 {
      OneCore(lo, hi, cores);
    } else {
      var mid := Middle(lo, hi, cores);
      SplitIsBalanced(lo, hi, cores);
      HalvesInNode(lo, mid, hi, cores);
      BuildSplit(lo, hi, cores);
      HeightInNode(lo, mid, cores);
      HeightInNode(mid, hi, cores);
      LogMonotone(mid - lo, hi - mid);
      assert hi - mid == (hi - lo + 1) / 2;
    }
  }

  lemma AlignedRange(lo: nat, hi: nat, cores: nat)
    requires cores > 0 && Aligned(lo, hi, cores)
    ensures lo < hi
  {
  }

  lemma OneCore(lo: nat, hi: nat, cores: nat)
    requires cores > 0 && Aligned(lo, hi, cores) && hi == lo + 1
    ensures Build(lo, hi, cores) == Core(lo)
  {
    hide Aligned, Middle;
  }

  lemma LogStep(n: nat)
    ensures CeilLog2(n) == if n <= 1 then 0 else 1 + CeilLog2((n + 1) / 2)
  {
  }

  lemma InNodeIsAligned(lo: nat, hi: nat, cores: nat)
    requires cores > 0 && lo < hi && InNode(lo, hi, cores)
    ensures Aligned(lo, hi, cores)
  {
  }

  lemma HalvesInNode(lo: nat, mid: nat, hi: nat, cores: nat)
    requires cores > 0 && lo < mid < hi && InNode(lo, hi, cores)
    ensures InNode(lo, mid, cores) && InNode(mid, hi, cores)
  {
    SameNode(lo, mid, hi - 1, cores);
    SameNode(lo, mid - 1, hi - 1, cores);
  }

  lemma {:induction false} HeightOverNodes(a: nat, b: nat, cores: nat)
    requires cores > 0 && a < b
    ensures var lo, hi := ProcToThread(a, cores), ProcToThread(b, cores);
            lo < hi && Aligned(lo, hi, cores) && Height(Build(lo, hi, cores)) == CeilLog2(b - a) + CeilLog2(cores)
    decreases b - a
  {
    hide Aligned, InNode, Middle, ProcToThread, Whole, CeilLog2, Power2, Build, Contiguous, Lo, Size;
    WholeNodes(a, b, cores);
    LogStep(b - a);
    LogStep(1);
    var lo, hi := ProcToThread(a, cores), ProcToThread(b, cores);
    if b - a == 1 {
      HeightInNode(lo, hi, cores);
    } else {
      var q := (a + b) / 2;
      NodesSplit(a, b, cores);
      HeightOverNodes(a, q, cores);
      HeightOverNodes(q, b, cores);
      BuildSplit(lo, hi, cores);
      LogMonotone(q - a, b - q);
      assert b - q == (b - a + 1) / 2;
    }
  }

  lemma WholeNodes(a: nat, b: nat, cores: nat)
    requires cores > 0 && a < b
    ensures var lo, hi := ProcToThread(a, cores), ProcToThread(b, cores);
            && lo + cores <= hi && Aligned(lo, hi, cores)
            && (b - a == 1 ==> InNode(lo, hi, cores) && hi - lo == cores) && (b - a > 1 ==> hi - lo > 1)
  {
    Monotone(a + 1, b, cores);
    Distributes(a, 1, cores);
    MultipleMod(a, 0, cores);
    MultipleMod(b, 0, cores);
    QuotientIs(a * cores, a, cores);
    if b - a == 1 {
      QuotientIs(b * cores - 1, a, cores);
    } else {
      Monotone(a + 2, b, cores);
      Distributes(a, 2, cores);
    }
  }

  // ----- sums over ranges of threads -----

  function Sum(s: seq<nat>, lo: nat, hi: nat): nat
    requires lo <= hi <= |s|
  {
    if lo == hi then 0 else Sum(s, lo, hi - 1) + s[hi - 1]
  }

  lemma {:induction false} SumSplit(s: seq<nat>, lo: nat, mid: nat, hi: nat)
    requires lo <= mid <= hi <= |s|
    ensures Sum(s, lo, hi) == Sum(s, lo, mid) + Sum(s, mid, hi)
  {
    if mid < hi { SumSplit(s, lo, mid, hi - 1); }
  }

  /** Regions of the given sizes, each starting where those before it end: every offset below the total is in
      exactly one of them. */
  lemma {:induction false} ExactlyOneRegion(sizes: seq<nat>, lo: nat, hi: nat, x: nat) returns (i: nat)
    requires lo <= hi <= |sizes| && x < Sum(sizes, lo, hi)
    ensures lo <= i < hi && Sum(sizes, lo, i) <= x < Sum(sizes, lo, i) + sizes[i]
    ensures forall j | lo <= j < hi && j != i :: !(Sum(sizes, lo, j) <= x < Sum(sizes, lo, j) + sizes[j])
  {
    if x >= Sum(sizes, lo, hi - 1) {
      i := hi - 1;
    } else {
      i := ExactlyOneRegion(sizes, lo, hi - 1, x);
    }
    forall j | lo <= j < hi && j != i ensures !(Sum(sizes, lo, j) <= x < Sum(sizes, lo, j) + sizes[j]) {
      if j < i { SumSplit(sizes, lo, j + 1, i); } else { SumSplit(sizes, lo, i + 1, j); }
    }
  }

  // ----- folds -----

  function Fold<T>(t: Tree, results: seq<T>, combine: (T, T) -> T): T
    requires Lo(t) + Size(t) <= |results| && Contiguous(t)
  {
    match t
    case Core(id) => results[id]
    case Node(lower, upper) => combine(Fold(lower, results, combine), Fold(upper, results, combine))
  }

  /** Combining the results of the threads lo..hi one after the other. */
  function InOrder<T>(results: seq<T>, lo: nat, hi: nat, combine: (T, T) -> T): T
    requires lo < hi <= |results|
    decreases hi - lo
  {
    if hi == lo + 1 then results[lo] else combine(InOrder(results, lo, hi - 1, combine), results[hi - 1])
  }

  ghost predicate Associative<T(!new)>(combine: (T, T) -> T) {
    forall x, y, z :: combine(combine(x, y), z) == combine(x, combine(y, z))
  }

  lemma {:induction false} InOrderSplit<T(!new)>(results: seq<T>, lo: nat, mid: nat, hi: nat, combine: (T, T) -> T)
    requires lo < mid < hi <= |results|
    requires Associative(combine)
    ensures InOrder(results, lo, hi, combine)
            == combine(InOrder(results, lo, mid, combine), InOrder(results, mid, hi, combine))
    decreases hi
  {
    if mid < hi - 1 { InOrderSplit(results, lo, mid, hi - 1, combine); }
  }

  /** For an associative operation the shape of the tree does not matter. */
  lemma {:induction false} FoldIsInOrder<T(!new)>(t: Tree, results: seq<T>, combine: (T, T) -> T)
    requires Lo(t) + Size(t) <= |results| && Contiguous(t)
    requires Associative(combine)
    ensures Fold(t, results, combine) == InOrder(results, Lo(t), Lo(t) + Size(t), combine)
  {
    hide Associative;
    match t
    case Core(_) =>
    case Node(lower, upper) =>
      FoldIsInOrder(lower, results, combine);
      FoldIsInOrder(upper, results, combine);
      InOrderSplit(results, Lo(t), Lo(upper), Lo(t) + Size(t), combine);
  }

  /** What is folded over the threads lo..hi comes from the two halves, or the only thread; the order does not
      matter for an associative operation. */
  lemma {:induction false} FoldOfHalves<T(!new)>(lo: nat, hi: nat, cores: nat, results: seq<T>, combine: (T, T) -> T)
    requires cores > 0 && Aligned(lo, hi, cores) && hi <= |results|
    ensures hi == lo + 1 ==> Fold(Build(lo, hi, cores), results, combine) == results[lo]
    ensures hi > lo + 1 ==>
              var mid := Middle(lo, hi, cores);
              && lo < mid < hi && Aligned(lo, mid, cores) && Aligned(mid, hi, cores)
              && Fold(Build(lo, hi, cores), results, combine)
                 == combine(Fold(Build(lo, mid, cores), results, combine),
                            Fold(Build(mid, hi, cores), results, combine))
    ensures Associative(combine) ==> Fold(Build(lo, hi, cores), results, combine) == InOrder(results, lo, hi, combine)
  {
    if hi > lo + 1 { SplitIsProper(lo, hi, cores); }
    hide Aligned, Middle, Associative, InOrder;
    if Associative(combine) { FoldIsInOrder(Build(lo, hi, cores), results, combine); }
  }

  function Plus(x: nat, y: nat): nat {
    x + y
  }

  lemma {:induction false} CountIsSum(results: seq<nat>, lo: nat, hi: nat)
    requires lo < hi <= |results|
    ensures InOrder(results, lo, hi, Plus) == Sum(results, lo, hi)
    decreases hi
  {
    if hi > lo + 1 { CountIsSum(results, lo, hi - 1); } else { assert Sum(results, lo, lo) == 0; }
  }

  // ----- file ranges -----

  /** The share of the lower side: the floor of the mean for each of its nLower threads. */
  function LowerShare(nLower: nat, nUpper: nat, n: nat): (share: nat)
    requires nLower > 0
    ensures share <= n
  {
    LowerShareFits(nLower, nUpper, n);
    Times(nLower, n / (nLower + nUpper))
  }

  function Times(a: nat, b: nat): nat {
    a * b
  }

  lemma LowerShareFits(nLower: nat, nUpper: nat, n: nat)
    requires nLower > 0
    ensures 0 <= nLower * (n / (nLower + nUpper)) <= n
  {
    Monotone(nLower, nLower + nUpper, n / (nLower + nUpper));
  }

  /** The number of particles each thread below t is to read out of n. */
  function Parts(t: Tree, n: nat): (parts: seq<nat>)
    ensures |parts| == Size(t)
  {
    match t
    case Core(_) => [n]
    case Node(lower, upper) =>
      var nLow := LowerShare(Size(lower), Size(upper), n);
      Parts(lower, nLow) + Parts(upper, n - nLow)
  }

  lemma SumConcat(s: seq<nat>, t: seq<nat>, k: nat)
    requires k <= |t|
    ensures Sum(s + t, 0, |s| + k) == Sum(s, 0, |s|) + Sum(t, 0, k)
  {
    if k > 0 {
      SumConcat(s, t, k - 1);
    } else {
      SumPrefix(s + t, s, |s|);
    }
  }

  lemma {:induction false} SumPrefix(s: seq<nat>, t: seq<nat>, k: nat)
    requires k <= |s| && k <= |t| && s[..k] == t[..k]
    ensures Sum(s, 0, k) == Sum(t, 0, k)
  {
    if k > 0 {
      assert s[k - 1] == s[..k][k - 1] == t[..k][k - 1] == t[k - 1];
      assert s[..k][..k - 1] == s[..k - 1] && t[..k][..k - 1] == t[..k - 1];
      SumPrefix(s, t, k - 1);
    }
  }

  /** Nothing is read twice or left out. */
  lemma {:induction false} PartsCover(t: Tree, n: nat)
    ensures Sum(Parts(t, n), 0, Size(t)) == n
  {
    match t
    case Core(_) => assert Sum([n], 0, 0) == 0;
    case Node(lower, upper) =>
      var nLow := LowerShare(Size(lower), Size(upper), n);
      PartsCover(lower, nLow);
      PartsCover(upper, n - nLow);
      SumConcat(Parts(lower, nLow), Parts(upper, n - nLow), Size(upper));
  }

  lemma ShareTimes(a: nat, b: nat, k: nat)
    ensures Times(k, a + b) == Times(k, a) + Times(k, b) && Times(k + 1, a + b) == Times(k, a) + Times(k, b) + a + b
    ensures Times(a, k) == Times(k, a) && Times(b, k) == Times(k, b)
    ensures Times(k + 1, a) == Times(k, a) + a && Times(k + 2, b) == Times(k, b) + 2 * b
  {
  }

  lemma TimesMonotone(a: nat, b: nat, c: nat)
    requires a <= b
    ensures Times(a, c) <= Times(b, c)
  {
    Monotone(a, b, c);
  }

  lemma QuotientTimes(n: nat, l: nat)
    requires l > 0
    ensures Times(n / l, l) <= n < Times(n / l, l) + l
  {
  }

  /** n is at least k, or at most k, for each of m threads. */
  predicate Over(n: nat, k: nat, m: nat) {
    Times(k, m) <= n
  }

  predicate Under(n: nat, k: nat, m: nat) {
    n < Times(k + 1, m)
  }

  lemma Shares(a: nat, b: nat, n: nat, k: nat)
    requires a > 0 && b > 0
    ensures Over(n, k, a + b) ==> Over(LowerShare(a, b, n), k, a) && Over(n - LowerShare(a, b, n), k, b)
    ensures Under(n, k, a + b) && a <= b ==>
              Under(LowerShare(a, b, n), k, a) && Under(n - LowerShare(a, b, n), k + 1, b)
  {
    hide Times;
    var q := n / (a + b);
    QuotientTimes(n, a + b);
    ShareTimes(a, b, k);
    ShareTimes(a, b, q);
    if k <= q {
      TimesMonotone(k, q, a);
      TimesMonotone(k, q, b);
      if k < q { TimesMonotone(k + 1, q, a + b); }
    } else {
      TimesMonotone(q, k, a);
      TimesMonotone(q, k, b);
      TimesMonotone(q + 1, k, a + b);
    }
  }

  lemma OneThread(n: nat, k: nat)
    ensures Over(n, k, 1) <==> k <= n
    ensures Under(n, k, 1) <==> n <= k
  {
  }

  /** Each thread gets at least k particles if there are k for each. */
  lemma {:induction false} PartsAtLeast(t: Tree, n: nat, k: nat)
    requires Over(n, k, Size(t))
    ensures forall i | 0 <= i < Size(t) :: Parts(t, n)[i] >= k
  {
    hide Over, LowerShare;
    match t
    case Core(_) => OneThread(n, k);
    case Node(lower, upper) =>
      Shares(Size(lower), Size(upper), n, k);
      var nLow := LowerShare(Size(lower), Size(upper), n);
      PartsAtLeast(lower, nLow, k);
      PartsAtLeast(upper, n - nLow, k);
  }

  /** Each thread gets at most one particle more for each level of the tree. */
  lemma {:induction false} PartsAtMost(t: Tree, n: nat, k: nat)
    requires Under(n, k, Size(t)) && UpperHeavy(t)
    ensures forall i | 0 <= i < Size(t) :: Parts(t, n)[i] <= k + Height(t)
  {
    hide Under, LowerShare;
    match t
    case Core(_) => OneThread(n, k);
    case Node(lower, upper) =>
      Shares(Size(lower), Size(upper), n, k);
      var nLow := LowerShare(Size(lower), Size(upper), n);
      PartsAtMost(lower, nLow, k);
      PartsAtMost(upper, n - nLow, k + 1);
  }

  lemma ShareIs(a: nat, b: nat, n: nat)
    requires a > 0
    ensures LowerShare(a, b, n) == a * (n / (a + b))
  {
  }

  /** The lower half together gets exactly the floor of the mean for each of its threads, the upper half the rest. */
  lemma {:induction false} LowerHalfGetsFloor(lower: Tree, upper: Tree, n: nat)
    ensures var parts := Parts(Node(lower, upper), n);
            && Sum(parts, 0, Size(lower)) == Size(lower) * (n / (Size(lower) + Size(upper)))
            && Sum(parts, 0, Size(lower) + Size(upper)) == n
  {
    ShareIs(Size(lower), Size(upper), n);
    hide LowerShare;
    var nLow := LowerShare(Size(lower), Size(upper), n);
    PartsCover(lower, nLow);
    PartsCover(Node(lower, upper), n);
    SumPrefix(Parts(lower, nLow) + Parts(upper, n - nLow), Parts(lower, nLow), Size(lower));
  }

  lemma {:induction false} FirstPart(t: Tree, n: nat)
    requires n < Size(t)
    ensures Parts(t, n)[0] == 0
  {
    match t
    case Core(_) =>
    case Node(lower, upper) =>
      NoShare(Size(lower), Size(upper), n);
      hide LowerShare;
      FirstPart(lower, 0);
  }

  lemma NoShare(a: nat, b: nat, n: nat)
    requires a > 0 && n < a + b
    ensures LowerShare(a, b, n) == 0
  {
    QuotientIs(n, 0, a + b);
    assert a * 0 == 0;
  }

  /** What OneNodeRead asserts about the parts holds exactly when there are as many particles as threads. */
  lemma {:induction false} PartsPositiveIff(t: Tree, n: nat)
    ensures (forall i | 0 <= i < Size(t) :: Parts(t, n)[i] > 0) <==> n >= Size(t)
  {
    if n >= Size(t) {
      assert Over(n, 1, Size(t));
      PartsAtLeast(t, n, 1);
    } else {
      FirstPart(t, n);
    }
  }

  lemma {:induction false} PartsWithin(lo: nat, hi: nat, cores: nat, n: nat, k: nat)
    requires cores > 0 && Aligned(lo, hi, cores) && Over(n, k, hi - lo) && Under(n, k, hi - lo)
    ensures var t := Build(lo, hi, cores); forall i | 0 <= i < hi - lo :: k <= Parts(t, n)[i] <= k + Height(t)
  {
    hide Over, Under;
    BuildIsUpperHeavy(lo, hi, cores);
    PartsAtLeast(Build(lo, hi, cores), n, k);
    PartsAtMost(Build(lo, hi, cores), n, k);
  }

  /** Every thread reads the floor of the mean, and at most one more for each level of the tree: the rounded-up
      logarithm of the number of nodes plus that of the cores of a node. */
  lemma {:induction false} PartsBalanced(lo: nat, hi: nat, cores: nat, n: nat)
    requires cores > 0 && Aligned(lo, hi, cores)
    ensures var t, k := Build(lo, hi, cores), n / (hi - lo);
            forall i | 0 <= i < hi - lo :: k <= Parts(t, n)[i] <= k + Levels(lo, hi, cores)
  {
    hide Over, Under, Aligned, InNode, Levels, Parts, Build, Height;
    AlignedRange(lo, hi, cores);
    MeanBounds(n, hi - lo);
    HeightIs(lo, hi, cores);
    PartsWithin(lo, hi, cores, n, n / (hi - lo));
  }

  lemma MeanBounds(n: nat, m: nat)
    requires m > 0
    ensures Over(n, n / m, m) && Under(n, n / m, m)
  {
    var k := n / m;
    assert n == m * k + n % m;
    assert (k + 1) * m == m * k + m;
  }

  // ----- the contexts in memory -----

  /** One more for each thread with a property. */
  function Counted(s: seq<nat>, here: nat -> bool): seq<nat> {
    seq(|s|, (id: nat) requires id < |s| => s[id] + if here(id) then 1 else 0)
  }

  /** A pstContext; pstLower is the address of another one on the same thread. */
  datatype PstContext = PstContext(idSelf: nat, pstLower: Option<nat>, idUpper: int, nLeaves: nat, nLower: nat,
                                   nUpper: nat, nTotal: nat)

  /** pstInitialize */
  function Initialized(idSelf: nat): PstContext {
    PstContext(idSelf, None, -1, 1, 0, 0, 0)
  }

  /** The context at address p is the root of tree t.  All other contexts of t are the first contexts of the
      other threads below t, or are at addresses from..upto. */
  ghost predicate Represents(psts: seq<PstContext>, p: nat, t: Tree, from: nat, upto: nat)
    decreases t
  {
    && p < |psts| && from <= upto <= |psts|
    && psts[p].idSelf == Lo(t) && psts[p].nLeaves == Size(t)
    && match t
       case Core(_) => true
       case Node(lower, upper) =>
         && psts[p].nLower == Size(lower) && psts[p].nUpper == Size(upper) && psts[p].idUpper == Lo(upper)
         && psts[p].pstLower.Some? && from <= psts[p].pstLower.value < upto
         && Represents(psts, Lo(upper), upper, from, psts[p].pstLower.value)
         && Represents(psts, psts[p].pstLower.value, lower, psts[p].pstLower.value + 1, upto)
  }

  /** The shape of two contexts is the same. */
  predicate SameShape(a: PstContext, b: PstContext) {
    a == b.(nTotal := a.nTotal)
  }

  lemma {:induction false} StillRepresents(psts: seq<PstContext>, psts': seq<PstContext>, p: nat, t: Tree, from: nat,
                                           upto: nat)
    requires Represents(psts, p, t, from, upto) && |psts| <= |psts'| && Contiguous(t)
    requires SameShape(psts'[p], psts[p])
    requires forall q | Lo(t) < q < Lo(t) + Size(t) && q < |psts| :: SameShape(psts'[q], psts[q])
    requires forall q | from <= q < upto :: SameShape(psts'[q], psts[q])
    ensures Represents(psts', p, t, from, upto)
    decreases t
  {
    match t
    case Core(_) =>
    case Node(lower, upper) =>
      var m := psts[p].pstLower.value;
      StillRepresents(psts, psts', Lo(upper), upper, from, m);
      StillRepresents(psts, psts', m, lower, m + 1, upto);
  }

  /** Only the contexts of one subtree changed. */
  ghost predicate Confined(psts: seq<PstContext>, psts': seq<PstContext>, p: nat, lo: nat, hi: nat, from: nat) {
    && from <= |psts| <= |psts'|
    && forall q | 0 <= q < from && q != p && !(lo < q < hi) :: psts'[q] == psts[q]
  }

  /** nParts particles of the file from nStart on. */
  datatype Range = Range(nStart: nat, nParts: nat)

  class Machine {
    const nThreads: nat
    const cores: nat
    var psts: seq<PstContext>
    // what each thread has locally
    var nLocal: seq<nat>
    var nBytesOut: seq<nat>
    var nWriteStart: seq<nat>
    var nRead: seq<Range>
    // how often the leaf service, and AtNode, ran on each thread
    var nServed: seq<nat>
    var nAtNode: seq<nat>

    /** Each thread starts with one context. */
    constructor (nThreads: nat, cores: nat)
      requires cores > 0
      ensures Valid() && this.nThreads == nThreads && this.cores == cores && |psts| == nThreads
      ensures forall id | 0 <= id < nThreads :: psts[id] == Initialized(id)
    {
      this.nThreads := nThreads;
      this.cores := cores;
      psts := seq(nThreads, (id: nat) => Initialized(id));
      nLocal, nBytesOut, nWriteStart := seq(nThreads, _ => 0), seq(nThreads, _ => 0), seq(nThreads, _ => 0);
      nRead := seq(nThreads, _ => Range(0, 0));
      nServed, nAtNode := seq(nThreads, _ => 0), seq(nThreads, _ => 0);
    }

    ghost predicate Valid()
      reads this
    {
      && cores > 0 && nThreads <= |psts| && |nLocal| == |nBytesOut| == |nWriteStart| == |nRead| == nThreads
      && |nServed| == |nAtNode| == nThreads
    }

    /** SetAdd at context p for the threads idLower..idUpper. */
    method SetAdd(p: nat, idLower: nat, idUpper: nat)
      requires cores > 0 && Aligned(idLower, idUpper, cores) && idUpper <= nThreads <= |psts|
      requires p < |psts| && psts[p] == Initialized(idLower) && (p < nThreads ==> p == idLower)
      requires forall id | idLower < id < idUpper :: psts[id] == Initialized(id)
      modifies `psts
      ensures Represents(psts, p, Build(idLower, idUpper, cores), |old(psts)|, |psts|)
      ensures Confined(old(psts), psts, p, idLower, idUpper, |old(psts)|)
      decreases idUpper - idLower
    {
      hide Represents, Aligned, Confined, Build;
      ghost var psts0 := psts;
      assert psts[p].nLeaves == 1 && psts[p].idSelf == idLower;
      var n := idUpper - idLower;
      var idMiddle := (idUpper + idLower) / 2;
      if n > 1 {
        SplitIsProper(idLower, idUpper, cores);
        var iProcLower := ThreadToProc(idLower, cores);
        var iProcUpper := ThreadToProc(idUpper - 1, cores);
        if iProcLower != iProcUpper {
          idMiddle := ProcToThread(ThreadToProc(idMiddle, cores), cores);
        }
        var pst := psts[p];
        pst := pst.(nLeaves := pst.nLeaves + n - 1, nLower := idMiddle - idLower, nUpper := idUpper - idMiddle,
                    idUpper := idMiddle);
        psts := psts[p := pst];
        SetAdd(idMiddle, idMiddle, idUpper);
        ghost var psts1 := psts;
        NotYetChanged(psts0, psts1, p, pst, idLower, idMiddle, idUpper);
        var pstNew := |psts|;
        psts := psts + [Initialized(idLower)];
        psts := psts[p := psts[p].(pstLower := Some(pstNew))];
        SetAdd(pstNew, idLower, idMiddle);
        BuiltNode(psts0, psts1, psts, p, idLower, idMiddle, idUpper, cores, pst, pstNew);
      } else {
        BuiltCore(psts, p, idLower, cores);
      }
    }

    // ----- services -----

    /** Traverse of TraversePST: which of the four functions a context calls.  Each thread is served once, and
        AtNode runs once for each whole node, on its first thread, unless nodes have a single thread. */
    method Traverse(p: nat, ghost lo: nat, ghost hi: nat, ghost from: nat, ghost upto: nat)
      requires Valid() && Aligned(lo, hi, cores) && hi <= nThreads
      requires Represents(psts, p, Build(lo, hi, cores), from, upto)
      modifies `nServed, `nAtNode
      ensures Valid()
      ensures nServed == Counted(old(nServed), Between(lo, hi))
      ensures nAtNode == Counted(old(nAtNode), NodeStart(lo, hi, cores))
      decreases hi - lo, 2
    {
      hide Represents, Aligned, Build, NodeStart;
      RootOf(psts, p, lo, hi, cores, from, upto);
      WhereAtNode(nAtNode, lo, hi, cores);
      var nLeaves := psts[p].nLeaves;
      if nLeaves == 1 {
        Service(p);
      } else if nLeaves > cores {
        OffNode(p, lo, hi, from, upto);
      } else if nLeaves == cores {
        AtNode(p, lo, hi, from, upto);
      } else {
        Recurse(p, lo, hi, from, upto);
      }
    }

    method Service(p: nat)
      requires Valid() && p < |psts| && psts[p].idSelf < nThreads
      modifies `nServed
      ensures Valid() && nServed == Counted(old(nServed), Between(psts[p].idSelf, psts[p].idSelf + 1))
    {
      var id := psts[p].idSelf;
      nServed := nServed[id := nServed[id] + 1];
    }

    method OffNode(p: nat, ghost lo: nat, ghost hi: nat, ghost from: nat, ghost upto: nat)
      requires Valid() && Aligned(lo, hi, cores) && hi <= nThreads && hi - lo > 1
      requires Represents(psts, p, Build(lo, hi, cores), from, upto)
      modifies `nServed, `nAtNode
      ensures Valid() && nServed == Counted(old(nServed), Between(lo, hi))
      ensures nAtNode == NodesOfHalves(old(nAtNode), lo, hi, cores)
      decreases hi - lo, 1
    {
      Recurse(p, lo, hi, from, upto);
    }

    method AtNode(p: nat, ghost lo: nat, ghost hi: nat, ghost from: nat, ghost upto: nat)
      requires Valid() && Aligned(lo, hi, cores) && hi <= nThreads && hi - lo > 1
      requires Represents(psts, p, Build(lo, hi, cores), from, upto)
      modifies `nServed, `nAtNode
      ensures Valid() && nServed == Counted(old(nServed), Between(lo, hi))
      ensures nAtNode == NodesOfHalves(Counted(old(nAtNode), Between(lo, lo + 1)), lo, hi, cores)
      decreases hi - lo, 1
    {
      hide Represents, Aligned, Build, NodesOfHalves;
      RootOf(psts, p, lo, hi, cores, from, upto);
      var id := psts[p].idSelf;
      nAtNode := nAtNode[id := nAtNode[id] + 1];
      assert nAtNode == Counted(old(nAtNode), Between(lo, lo + 1));
      Recurse(p, lo, hi, from, upto);
    }

    /** Recurse of TraversePST: a request to the upper half, and the lower half here. */
    method Recurse(p: nat, ghost lo: nat, ghost hi: nat, ghost from: nat, ghost upto: nat)
      requires Valid() && Aligned(lo, hi, cores) && hi <= nThreads && hi - lo > 1
      requires Represents(psts, p, Build(lo, hi, cores), from, upto)
      modifies `nServed, `nAtNode
      ensures Valid() && nServed == Counted(old(nServed), Between(lo, hi))
      ensures nAtNode == NodesOfHalves(old(nAtNode), lo, hi, cores)
      decreases hi - lo, 0
    {
      hide Represents, Aligned, Build, NodeStart;
      ghost var mid, m := HalvesOf(psts, p, lo, hi, cores, from, upto);
      BothServed(nServed, lo, mid, hi);
      Traverse(psts[p].idUpper, mid, hi, from, m);
      Traverse(psts[p].pstLower.value, lo, mid, m + 1, upto);
    }

    /** Recurse of TraverseCombinePST: the results of the two halves are combined. */
    method TraverseCombine<T(!new)>(p: nat, results: seq<T>, combine: (T, T) -> T,
                                    ghost lo: nat, ghost hi: nat, ghost from: nat, ghost upto: nat) returns (vout: T)
      requires Valid() && Aligned(lo, hi, cores) && hi <= nThreads == |results|
      requires Represents(psts, p, Build(lo, hi, cores), from, upto)
      ensures vout == Fold(Build(lo, hi, cores), results, combine)
      ensures Associative(combine) ==> vout == InOrder(results, lo, hi, combine)
      decreases hi - lo
    {
      hide Represents, Associative, Aligned, Build, Fold, InOrder, Contiguous, Lo, Size, Middle;
      RootOf(psts, p, lo, hi, cores, from, upto);
      FoldOfHalves(lo, hi, cores, results, combine);
      if psts[p].nLeaves == 1 {
        vout := results[psts[p].idSelf];
      } else {
        ghost var mid, m := HalvesOf(psts, p, lo, hi, cores, from, upto);
        vout := TraverseCombine(psts[p].pstLower.value, results, combine, lo, mid, m + 1, upto);
        var vout2 := TraverseCombine(psts[p].idUpper, results, combine, mid, hi, from, m);
        vout := combine(vout, vout2);
      }
    }

    /** TraverseCountN: the total over all threads. */
    method CountN(p: nat, results: seq<nat>, ghost lo: nat, ghost hi: nat, ghost from: nat, ghost upto: nat)
        returns (n: nat)
      requires Valid() && Aligned(lo, hi, cores) && hi <= nThreads == |results|
      requires Represents(psts, p, Build(lo, hi, cores), from, upto)
      ensures n == Sum(results, lo, hi)
    {
      n := TraverseCombine(p, results, Plus, lo, hi, from, upto);
      CountIsSum(results, lo, hi);
    }

    // ----- offsets -----

    /** pstSetTotal */
    method SetTotal(p: nat, ghost lo: nat, ghost hi: nat, ghost from: nat, ghost upto: nat) returns (nTotal: nat)
      requires Valid() && Aligned(lo, hi, cores) && hi <= nThreads <= from && (p == lo || p >= nThreads) && p < from
      requires Represents(psts, p, Build(lo, hi, cores), from, upto)
      modifies `psts
      ensures Valid() && nTotal == Sum(nLocal, lo, hi)
      ensures Represents(psts, p, Build(lo, hi, cores), from, upto) && Totals(psts, p, Build(lo, hi, cores), nLocal)
      ensures OnlyTotals(old(psts), psts, p, lo, hi, from, upto)
      decreases hi - lo
    {
      hide Represents, Aligned, Build, Totals, OnlyTotals;
      RootOf(psts, p, lo, hi, cores, from, upto);
      ghost var psts0 := psts;
      if psts[p].nLeaves > 1 {
        ghost var mid, m := HalvesOf(psts, p, lo, hi, cores, from, upto);
        var nUp := SetTotal(psts[p].idUpper, mid, hi, from, m);
        ghost var psts1 := psts;
        AfterUpper(psts0, psts1, p, lo, mid, hi, cores, from, m, upto);
        var nLow := SetTotal(psts[p].pstLower.value, lo, mid, m + 1, upto);
        ghost var psts2 := psts;
        nTotal := nLow + nUp;
        LengthKept(psts1, psts2, m, lo, mid, m + 1, upto);
        psts := psts[p := psts[p].(nTotal := nTotal)];
        SumSplit(nLocal, lo, mid, hi);
        AfterBoth(psts0, psts1, psts2, p, lo, mid, hi, cores, from, m, upto, nLocal, nTotal);
      } else {
        nTotal := nLocal[psts[p].idSelf];
        psts := psts[p := psts[p].(nTotal := nTotal)];
        AtLeaf(psts0, psts, p, lo, cores, from, upto, nLocal);
      }
    }

    /** pstSetWriteStart: top-down, with the totals that SetTotal stored. */
    method SetWriteStart(p: nat, start: nat, ghost lo: nat, ghost hi: nat, ghost from: nat, ghost upto: nat)
      requires Valid() && Aligned(lo, hi, cores) && hi <= nThreads
      requires Represents(psts, p, Build(lo, hi, cores), from, upto) && Totals(psts, p, Build(lo, hi, cores), nLocal)
      modifies `nWriteStart
      ensures Valid() && nWriteStart == Offsets(old(nWriteStart), nLocal, lo, hi, start)
      decreases hi - lo
    {
      hide Represents, Aligned, Build, Totals;
      RootOf(psts, p, lo, hi, cores, from, upto);
      if psts[p].nLeaves > 1 {
        ghost var mid, m := HalvesOf(psts, p, lo, hi, cores, from, upto);
        TotalsOfHalves(psts, p, lo, hi, cores, from, upto, nLocal);
        OffsetsJoin(nWriteStart, nLocal, lo, mid, hi, start);
        SetWriteStart(psts[p].idUpper, start + psts[psts[p].pstLower.value].nTotal, mid, hi, from, m);
        SetWriteStart(psts[p].pstLower.value, start, lo, mid, m + 1, upto);
      } else {
        OffsetsOne(nWriteStart, nLocal, lo, start);
        nWriteStart := nWriteStart[psts[p].idSelf := start];
      }
    }

    /** pstAddWriteStart */
    method AddWriteStart(p: nat, add: nat, ghost lo: nat, ghost hi: nat, ghost from: nat, ghost upto: nat)
      requires Valid() && Aligned(lo, hi, cores) && hi <= nThreads
      requires Represents(psts, p, Build(lo, hi, cores), from, upto)
      modifies `nWriteStart
      ensures Valid() && nWriteStart == Added(old(nWriteStart), lo, hi, add)
      decreases hi - lo
    {
      hide Represents, Aligned, Build;
      RootOf(psts, p, lo, hi, cores, from, upto);
      if psts[p].nLeaves > 1 {
        ghost var mid, m := HalvesOf(psts, p, lo, hi, cores, from, upto);
        AddWriteStart(psts[p].idUpper, add, mid, hi, from, m);
        AddWriteStart(psts[p].pstLower.value, add, lo, mid, m + 1, upto);
      } else {
        var id := psts[p].idSelf;
        nWriteStart := nWriteStart[id := nWriteStart[id] + add];
      }
    }

    /** pstCompressASCII: bottom-up, adding the bytes of the lower half to all threads of the upper half. */
    method CompressASCII(p: nat, ghost lo: nat, ghost hi: nat, ghost from: nat, ghost upto: nat) returns (nBytes: nat)
      requires Valid() && Aligned(lo, hi, cores) && hi <= nThreads
      requires Represents(psts, p, Build(lo, hi, cores), from, upto)
      modifies `nWriteStart
      ensures Valid() && nBytes == Sum(nBytesOut, lo, hi)
      ensures nWriteStart == Offsets(old(nWriteStart), nBytesOut, lo, hi, 0)
      decreases hi - lo
    {
      hide Represents, Aligned, Build;
      RootOf(psts, p, lo, hi, cores, from, upto);
      if psts[p].nLeaves > 1 {
        ghost var mid, m := HalvesOf(psts, p, lo, hi, cores, from, upto);
        SumSplit(nBytesOut, lo, mid, hi);
        OffsetsRaise(nWriteStart, nBytesOut, lo, mid, hi);
        var nUp := CompressASCII(psts[p].idUpper, mid, hi, from, m);
        nBytes := CompressASCII(psts[p].pstLower.value, lo, mid, m + 1, upto);
        AddWriteStart(psts[p].idUpper, nBytes, mid, hi, from, m);
        nBytes := nBytes + nUp;
      } else {
        OffsetsOne(nWriteStart, nBytesOut, lo, 0);
        nBytes := nBytesOut[psts[p].idSelf];
        nWriteStart := nWriteStart[psts[p].idSelf := 0];
      }
    }

    /** Both passes from the root: every thread may write behind what the threads before it write. */
    method WriteRegions(ghost from: nat, ghost upto: nat) returns (nTotal: nat)
      requires Valid() && nThreads > 0 && Aligned(0, nThreads, cores) && nThreads <= from
      requires Represents(psts, 0, Build(0, nThreads, cores), from, upto)
      modifies `psts, `nWriteStart
      ensures Valid() && nTotal == Sum(nLocal, 0, nThreads)
      ensures forall id | 0 <= id < nThreads :: nWriteStart[id] == Sum(nLocal, 0, id)
    {
      hide Represents, Aligned, Build, Totals, OnlyTotals, Sum;
      nTotal := SetTotal(0, 0, nThreads, from, upto);
      SetWriteStart(0, 0, 0, nThreads, from, upto);
    }

    // ----- reading files -----

    /** pstOneNodeReadInit for the particles nStart..nEnd of the file, both included. */
    method OneNodeReadInit(p: nat, nStart: nat, nEnd: int, ghost lo: nat, ghost hi: nat, ghost from: nat,
                           ghost upto: nat)
      returns (pout: seq<nat>)
      requires Valid() && Aligned(lo, hi, cores) && hi <= nThreads
      requires Represents(psts, p, Build(lo, hi, cores), from, upto)
      requires nStart <= nEnd + 1
      ensures |pout| == hi - lo && pout == Parts(Build(lo, hi, cores), nEnd - nStart + 1)
      decreases hi - lo
    {
      hide Represents, Aligned, LowerShare, Build, Parts;
      RootOf(psts, p, lo, hi, cores, from, upto);
      var nTotal := nEnd - nStart + 1;
      if psts[p].nLeaves > 1 {
        ghost var mid, m := HalvesOf(psts, p, lo, hi, cores, from, upto);
        LowerShareIs(psts[p].nLower, psts[p].nUpper, nTotal);
        var nSplit := nStart + psts[p].nLower * (nTotal / psts[p].nLeaves);
        PartsOfHalves(lo, hi, cores, nTotal);
        var poutUp := OneNodeReadInit(psts[p].idUpper, nSplit, nEnd, mid, hi, from, m);
        pout := OneNodeReadInit(psts[p].pstLower.value, nStart, nSplit - 1, lo, mid, m + 1, upto);
        pout := pout + poutUp;
      } else {
        PartsOfOne(lo, cores, nTotal);
        pout := [nTotal];
      }
    }

    /** pstReadFile: whatever the number of processors that read at the same time, each thread ends up with the
        same particles. */
    method ReadFile(p: nat, nStart: nat, nEnd: int, nProcessors: nat,
                    ghost lo: nat, ghost hi: nat, ghost from: nat, ghost upto: nat)
      requires Valid() && Aligned(lo, hi, cores) && hi <= nThreads
      requires Represents(psts, p, Build(lo, hi, cores), from, upto)
      requires nStart <= nEnd + 1
      modifies `nRead
      ensures Valid() && nRead == Assigned(old(nRead), Parts(Build(lo, hi, cores), nEnd - nStart + 1), lo, nStart)
      decreases hi - lo
    {
      hide Represents, Aligned, LowerShare, Build, Parts, Assigned;
      RootOf(psts, p, lo, hi, cores, from, upto);
      var nTotal := nEnd - nStart + 1;
      if psts[p].nLeaves > 1 && nProcessors > 1 {
        ghost var mid, m := HalvesOf(psts, p, lo, hi, cores, from, upto);
        UpperProcessors(psts[p].nUpper, psts[p].nLeaves, nProcessors);
        var nProcUpper := psts[p].nUpper * nProcessors / psts[p].nLeaves;
        var nProcLower := nProcessors - nProcUpper;
        LowerShareIs(psts[p].nLower, psts[p].nUpper, nTotal);
        var nSplit := nStart + psts[p].nLower * (nTotal / psts[p].nLeaves);
        AssignedJoin(nRead, lo, hi, cores, nTotal, nStart);
        ReadFile(psts[p].idUpper, nSplit, nEnd, nProcUpper, mid, hi, from, m);
        ReadFile(psts[p].pstLower.value, nStart, nSplit - 1, nProcLower, lo, mid, m + 1, upto);
      } else {
        var nParts := OneNodeReadInit(p, nStart, nEnd, lo, hi, from, upto);
        ReadAlone(psts[p].idSelf, nParts, nStart);
      }
    }

    /** One thread reads for all those below it: the others' particles first, its own last. */
    method ReadAlone(id: nat, nParts: seq<nat>, nFirst: nat)
      requires Valid() && nParts != [] && id + |nParts| <= nThreads
      modifies `nRead
      ensures Valid() && nRead == Assigned(old(nRead), nParts, id, nFirst)
    {
      var nStart := nFirst + nParts[0];
      assert Sum(nParts, 0, 0) == 0;
      for i := 1 to |nParts|
        invariant Valid() && nStart == nFirst + Sum(nParts, 0, i)
        invariant forall j | 0 <= j < nThreads ::
                    nRead[j] == if id < j < id + i then Assigned(old(nRead), nParts, id, nFirst)[j] else old(nRead)[j]
      {
        nRead := nRead[id + i := Range(nStart, nParts[i])];
        nStart := nStart + nParts[i];
      }
      nRead := nRead[id := Range(nFirst, nParts[0])];
    }

    /** OneNodeRead of the master: all nFile particles are read by thread 0; the result says whether the asserts on
        the parts hold. */
    method OneNodeRead(nFile: nat, ghost from: nat, ghost upto: nat) returns (ok: bool)
      requires Valid() && nThreads > 0 && Aligned(0, nThreads, cores)
      requires Represents(psts, 0, Build(0, nThreads, cores), from, upto)
      modifies `nRead
      ensures Valid() && (ok <==> nFile >= nThreads)
      ensures ok ==> nRead == Assigned(old(nRead), Parts(Build(0, nThreads, cores), nFile), 0, 0)
    {
      hide Represents, Aligned, Parts, Assigned, Build, Sum, Contiguous;
      var nParts := OneNodeReadInit(0, 0, nFile - 1, 0, nThreads, from, upto);
      PartsPositiveIff(Build(0, nThreads, cores), nFile);
      ok := forall i | 0 <= i < |nParts| :: nParts[i] > 0;
      if ok {
        ReadAlone(0, nParts, 0);
      }
    }
  }

  // ----- offsets and file ranges as functions -----

  /** Each of the threads lo..hi starts where the threads before it end. */
  function Offsets(s: seq<nat>, sizes: seq<nat>, lo: nat, hi: nat, start: nat): (r: seq<nat>)
    requires lo <= hi <= |sizes| == |s|
    ensures |r| == |s|
  {
    seq(|s|, (id: nat) requires id < |s| => if lo <= id < hi then start + Sum(sizes, lo, id) else s[id])
  }

  function Added(s: seq<nat>, lo: nat, hi: nat, add: nat): (r: seq<nat>)
    ensures |r| == |s|
  {
    seq(|s|, (id: nat) requires id < |s| => if lo <= id < hi then s[id] + add else s[id])
  }

  lemma {:induction false} OffsetsOne(s: seq<nat>, sizes: seq<nat>, id: nat, start: nat)
    requires id < |sizes| == |s|
    ensures Offsets(s, sizes, id, id + 1, start) == s[id := start] && Sum(sizes, id, id + 1) == sizes[id]
  {
    assert Sum(sizes, id, id) == 0;
  }

  lemma {:induction false} OffsetsJoin(s: seq<nat>, sizes: seq<nat>, lo: nat, mid: nat, hi: nat, start: nat)
    requires lo <= mid <= hi <= |sizes| == |s|
    ensures Offsets(Offsets(s, sizes, mid, hi, start + Sum(sizes, lo, mid)), sizes, lo, mid, start)
            == Offsets(s, sizes, lo, hi, start)
  {
    forall id | mid <= id < hi ensures Sum(sizes, lo, id) == Sum(sizes, lo, mid) + Sum(sizes, mid, id) {
      SumSplit(sizes, lo, mid, id);
    }
  }

  lemma {:induction false} OffsetsRaise(s: seq<nat>, sizes: seq<nat>, lo: nat, mid: nat, hi: nat)
    requires lo <= mid <= hi <= |sizes| == |s|
    ensures Added(Offsets(Offsets(s, sizes, mid, hi, 0), sizes, lo, mid, 0), mid, hi, Sum(sizes, lo, mid))
         == Offsets(s, sizes, lo, hi, 0)
  {
    forall id | mid <= id < hi ensures Sum(sizes, lo, id) == Sum(sizes, lo, mid) + Sum(sizes, mid, id) {
      SumSplit(sizes, lo, mid, id);
    }
  }

  lemma {:induction false} TotalsOfHalves(psts: seq<PstContext>, p: nat, lo: nat, hi: nat, cores: nat, from: nat,
                                          upto: nat,
                       sizes: seq<nat>)
    requires cores > 0 && Aligned(lo, hi, cores) && hi - lo > 1 && Represents(psts, p, Build(lo, hi, cores), from, upto)
    requires Totals(psts, p, Build(lo, hi, cores), sizes)
    ensures var mid := Middle(lo, hi, cores);
            && p < |psts| && psts[p].pstLower.Some? && psts[p].pstLower.value < |psts| && lo < mid < hi <= |sizes|
            && Aligned(lo, mid, cores) && Aligned(mid, hi, cores)
            && psts[psts[p].pstLower.value].nTotal == Sum(sizes, lo, mid)
            && Totals(psts, mid, Build(mid, hi, cores), sizes)
               && Totals(psts, psts[p].pstLower.value, Build(lo, mid, cores), sizes)
  {
    hide Build, Aligned, Middle, Contiguous;
    BuildSplit(lo, hi, cores);
  }

  /** Each thread reads its part of the file, one part after the other. */
  function Assigned(s: seq<Range>, parts: seq<nat>, lo: nat, start: nat): (r: seq<Range>)
    ensures |r| == |s|
  {
    seq(|s|, (id: nat) requires id < |s| => RangeAt(s[id], parts, lo, start, id))
  }

  function RangeAt(before: Range, parts: seq<nat>, lo: nat, start: nat, id: nat): Range {
    if lo <= id < lo + |parts| then Range(start + Sum(parts, 0, id - lo), parts[id - lo]) else before
  }

  lemma LowerShareIs(nLower: nat, nUpper: nat, n: nat)
    requires nLower > 0
    ensures LowerShare(nLower, nUpper, n) == nLower * (n / (nLower + nUpper)) <= n
  {
  }

  lemma PartsOfHalves(lo: nat, hi: nat, cores: nat, n: nat)
    requires cores > 0 && Aligned(lo, hi, cores) && hi - lo > 1
    ensures var mid := Middle(lo, hi, cores);
            && lo < mid < hi && Aligned(lo, mid, cores) && Aligned(mid, hi, cores)
            && var nLow := LowerShare(mid - lo, hi - mid, n);
               Parts(Build(lo, hi, cores), n) == Parts(Build(lo, mid, cores), nLow)
                   + Parts(Build(mid, hi, cores), n - nLow)
  {
    hide Build, Aligned, Middle, LowerShare, Contiguous;
    BuildSplit(lo, hi, cores);
  }

  lemma UpperProcessors(nUpper: nat, nLeaves: nat, nProcessors: nat)
    requires 0 < nLeaves && nUpper <= nLeaves
    ensures 0 <= nUpper * nProcessors / nLeaves <= nProcessors
  {
    Monotone(nUpper, nLeaves, nProcessors);
    var x := nUpper * nProcessors;
    var q := x / nLeaves;
    assert q * nLeaves <= x <= nProcessors * nLeaves;
    assert (nProcessors + 1) * nLeaves == nProcessors * nLeaves + nLeaves;
    if q > nProcessors { Monotone(nProcessors + 1, q, nLeaves); }
  }

  lemma AssignedJoin(s: seq<Range>, lo: nat, hi: nat, cores: nat, n: nat, start: nat)
    requires cores > 0 && Aligned(lo, hi, cores) && hi - lo > 1
    ensures var mid := Middle(lo, hi, cores);
            && lo < mid < hi && Aligned(lo, mid, cores) && Aligned(mid, hi, cores)
            && var nLow := LowerShare(mid - lo, hi - mid, n);
               var upper, lower := Parts(Build(mid, hi, cores), n - nLow), Parts(Build(lo, mid, cores), nLow);
               Assigned(Assigned(s, upper, mid, start + nLow), lower, lo, start)
                   == Assigned(s, Parts(Build(lo, hi, cores), n), lo, start)
  {
    hide Aligned, Middle, Parts, Assigned, Build, Sum, LowerShare, Contiguous;
    BuildSplit(lo, hi, cores);
    PartsOfHalves(lo, hi, cores, n);
    var mid := Middle(lo, hi, cores);
    LowerShareIs(mid - lo, hi - mid, n);
    var nLow := LowerShare(mid - lo, hi - mid, n);
    PartsCover(Build(lo, mid, cores), nLow);
    AssignedConcat(s, Parts(Build(lo, mid, cores), nLow), Parts(Build(mid, hi, cores), n - nLow), lo, start);
  }

  lemma ConcatAt(a: seq<nat>, b: seq<nat>, k: nat)
    requires k < |a| + |b|
    ensures k < |a| ==> Sum(a + b, 0, k) == Sum(a, 0, k) && (a + b)[k] == a[k]
    ensures k >= |a| ==> Sum(a + b, 0, k) == Sum(a, 0, |a|) + Sum(b, 0, k - |a|) && (a + b)[k] == b[k - |a|]
  {
    if k < |a| { SumPrefix(a + b, a, k); } else { SumConcat(a, b, k - |a|); }
  }

  lemma {:induction false} RangeConcat(before: Range, a: seq<nat>, b: seq<nat>, lo: nat, start: nat, id: nat)
    ensures RangeAt(RangeAt(before, b, lo + |a|, start + Sum(a, 0, |a|), id), a, lo, start, id)
            == RangeAt(before, a + b, lo, start, id)
  {
    hide Sum, RangeAt;
    if lo <= id < lo + |a| + |b| {
      ConcatAt(a, b, id - lo);
      RangeInside(before, a + b, lo, start, id);
      if id < lo + |a| {
        RangeInside(RangeAt(before, b, lo + |a|, start + Sum(a, 0, |a|), id), a, lo, start, id);
      } else {
        RangeInside(before, b, lo + |a|, start + Sum(a, 0, |a|), id);
        RangeOutside(Range(start + Sum(a, 0, |a|) + Sum(b, 0, id - (lo + |a|)), b[id - (lo + |a|)]), a, lo, start, id);
      }
    } else {
      RangeOutside(before, b, lo + |a|, start + Sum(a, 0, |a|), id);
      RangeOutside(before, a, lo, start, id);
      RangeOutside(before, a + b, lo, start, id);
    }
  }

  lemma {:induction false} RangeInside(before: Range, parts: seq<nat>, lo: nat, start: nat, id: nat)
    requires lo <= id < lo + |parts|
    ensures RangeAt(before, parts, lo, start, id) == Range(start + Sum(parts, 0, id - lo), parts[id - lo])
  {
  }

  lemma RangeOutside(before: Range, parts: seq<nat>, lo: nat, start: nat, id: nat)
    requires !(lo <= id < lo + |parts|)
    ensures RangeAt(before, parts, lo, start, id) == before
  {
  }

  lemma {:induction false} AssignedConcat(s: seq<Range>, a: seq<nat>, b: seq<nat>, lo: nat, start: nat)
    ensures Assigned(Assigned(s, b, lo + |a|, start + Sum(a, 0, |a|)), a, lo, start) == Assigned(s, a + b, lo, start)
  {
    hide RangeAt, Sum;
    forall id: nat | id < |s|
      ensures RangeAt(RangeAt(s[id], b, lo + |a|, start + Sum(a, 0, |a|), id), a, lo, start, id)
              == RangeAt(s[id], a + b, lo, start, id)
    {
      RangeConcat(s[id], a, b, lo, start, id);
    }
  }

  lemma PartsOfOne(lo: nat, cores: nat, n: nat)
    requires cores > 0 && Aligned(lo, lo + 1, cores)
    ensures Parts(Build(lo, lo + 1, cores), n) == [n]
  {
  }

  /** Every context holds the total of its subtree. */
  ghost predicate Totals(psts: seq<PstContext>, p: nat, t: Tree, sizes: seq<nat>)
    decreases t
  {
    && p < |psts| && Contiguous(t) && Lo(t) + Size(t) <= |sizes| && psts[p].nTotal == Sum(sizes, Lo(t), Lo(t) + Size(t))
    && match t
       case Core(_) => true
       case Node(lower, upper) =>
         && psts[p].pstLower.Some? && Totals(psts, psts[p].pstLower.value, lower, sizes)
            && Totals(psts, Lo(upper), upper, sizes)
  }

  /** Nothing but totals changed, and those only in one subtree. */
  ghost predicate OnlyTotals(psts: seq<PstContext>, psts': seq<PstContext>, p: nat, lo: nat, hi: nat, from: nat,
                             upto: nat) {
    && |psts'| == |psts|
    && (forall q | 0 <= q < |psts| :: SameShape(psts'[q], psts[q]))
    && (forall q | 0 <= q < |psts| && q != p && !(lo < q < hi) && !(from <= q < upto) :: psts'[q] == psts[q])
  }

  lemma LengthKept(psts: seq<PstContext>, psts': seq<PstContext>, p: nat, lo: nat, hi: nat, from: nat, upto: nat)
    requires OnlyTotals(psts, psts', p, lo, hi, from, upto)
    ensures |psts'| == |psts|
  {
  }

  lemma {:induction false} StillTotals(psts: seq<PstContext>, psts': seq<PstContext>, p: nat, t: Tree, from: nat,
                                       upto: nat, sizes: seq<nat>)
    requires Represents(psts, p, t, from, upto) && Totals(psts, p, t, sizes) && |psts| == |psts'|
    requires psts'[p] == psts[p]
    requires forall q | Lo(t) < q < Lo(t) + Size(t) && q < |psts| :: psts'[q] == psts[q]
    requires forall q | from <= q < upto :: psts'[q] == psts[q]
    ensures Totals(psts', p, t, sizes)
    decreases t
  {
    match t
    case Core(_) =>
    case Node(lower, upper) =>
      var m := psts[p].pstLower.value;
      StillTotals(psts, psts', Lo(upper), upper, from, m, sizes);
      StillTotals(psts, psts', m, lower, m + 1, upto, sizes);
  }

  lemma AfterUpper(psts0: seq<PstContext>, psts1: seq<PstContext>, p: nat, lo: nat, mid: nat, hi: nat, cores: nat,
                   from: nat, m: nat, upto: nat)
    requires cores > 0 && Aligned(lo, mid, cores) && p < |psts0| && psts0[p].pstLower == Some(m)
    requires Represents(psts0, m, Build(lo, mid, cores), m + 1, upto) && OnlyTotals(psts0, psts1, mid, mid, hi, from, m)
    ensures |psts1| == |psts0| && psts1[p].pstLower == Some(m)
    ensures Represents(psts1, m, Build(lo, mid, cores), m + 1, upto)
  {
    StillRepresents(psts0, psts1, m, Build(lo, mid, cores), m + 1, upto);
  }

  lemma AtLeaf(psts0: seq<PstContext>, psts: seq<PstContext>, p: nat, lo: nat, cores: nat, from: nat, upto: nat,
               sizes: seq<nat>)
    requires cores > 0 && Aligned(lo, lo + 1, cores) && Represents(psts0, p, Build(lo, lo + 1, cores), from, upto)
    requires lo < |sizes|
    requires psts == psts0[p := psts0[p].(nTotal := sizes[lo])]
    ensures Represents(psts, p, Build(lo, lo + 1, cores), from, upto)
    ensures Totals(psts, p, Build(lo, lo + 1, cores), sizes)
    ensures OnlyTotals(psts0, psts, p, lo, lo + 1, from, upto) && sizes[lo] == Sum(sizes, lo, lo + 1)
  {
    assert Sum(sizes, lo, lo) == 0;
  }

  lemma AfterBoth(psts0: seq<PstContext>, psts1: seq<PstContext>, psts2: seq<PstContext>, p: nat, lo: nat, mid: nat,
                  hi: nat, cores: nat, from: nat, m: nat, upto: nat, sizes: seq<nat>, nTotal: nat)
    requires cores > 0 && Aligned(lo, hi, cores) && hi - lo > 1 && mid == Middle(lo, hi, cores) && hi <= from
    requires hi <= |sizes|
    requires Aligned(lo, mid, cores) && Aligned(mid, hi, cores) && (p == lo || p >= hi) && p < from <= m < upto
    requires Represents(psts0, p, Build(lo, hi, cores), from, upto) && psts0[p].pstLower == Some(m)
    requires Represents(psts1, mid, Build(mid, hi, cores), from, m) && Totals(psts1, mid, Build(mid, hi, cores), sizes)
    requires OnlyTotals(psts0, psts1, mid, mid, hi, from, m)
    requires Totals(psts2, m, Build(lo, mid, cores), sizes) && Represents(psts2, m, Build(lo, mid, cores), m + 1, upto)
    requires OnlyTotals(psts1, psts2, m, lo, mid, m + 1, upto) && nTotal == Sum(sizes, lo, hi)
    ensures p < |psts2|
    ensures var psts := psts2[p := psts2[p].(nTotal := nTotal)];
            && Represents(psts, p, Build(lo, hi, cores), from, upto) && Totals(psts, p, Build(lo, hi, cores), sizes)
            && OnlyTotals(psts0, psts, p, lo, hi, from, upto)
  {
    var psts := psts2[p := psts2[p].(nTotal := nTotal)];
    OnlyTotalsOfBoth(psts0, psts1, psts2, p, lo, mid, hi, from, m, upto, nTotal);
    UpperTotals(psts1, psts2, p, lo, mid, hi, cores, from, m, upto, sizes, nTotal);
    LowerTotals(psts2, p, lo, mid, cores, m, upto, sizes, nTotal);
    hide Aligned, Middle, Represents, Totals, OnlyTotals;
    JoinTotals(psts0, psts, p, lo, hi, cores, from, m, upto, sizes, nTotal);
  }

  lemma OnlyTotalsOfBoth(psts0: seq<PstContext>, psts1: seq<PstContext>, psts2: seq<PstContext>, p: nat, lo: nat,
                         mid: nat, hi: nat, from: nat, m: nat, upto: nat, nTotal: nat)
    requires lo < mid < hi <= from && (p == lo || p >= hi) && p < from <= m < upto && p < |psts0|
    requires OnlyTotals(psts0, psts1, mid, mid, hi, from, m) && OnlyTotals(psts1, psts2, m, lo, mid, m + 1, upto)
    ensures p < |psts2| && OnlyTotals(psts0, psts2[p := psts2[p].(nTotal := nTotal)], p, lo, hi, from, upto)
  {
  }

  lemma {:induction false} UpperTotals(psts1: seq<PstContext>, psts2: seq<PstContext>, p: nat, lo: nat, mid: nat,
                                       hi: nat, cores: nat,
                    from: nat, m: nat, upto: nat, sizes: seq<nat>, nTotal: nat)
    requires cores > 0 && Aligned(mid, hi, cores) && lo < mid && hi <= from && (p == lo || p >= hi) && p < from <= m
    requires Represents(psts1, mid, Build(mid, hi, cores), from, m) && Totals(psts1, mid, Build(mid, hi, cores), sizes)
    requires OnlyTotals(psts1, psts2, m, lo, mid, m + 1, upto) && p < |psts2|
    ensures Totals(psts2[p := psts2[p].(nTotal := nTotal)], mid, Build(mid, hi, cores), sizes)
  {
    StillTotals(psts1, psts2[p := psts2[p].(nTotal := nTotal)], mid, Build(mid, hi, cores), from, m, sizes);
  }

  lemma LowerTotals(psts2: seq<PstContext>, p: nat, lo: nat, mid: nat, cores: nat, m: nat, upto: nat, sizes: seq<nat>,
                    nTotal: nat)
    requires cores > 0 && Aligned(lo, mid, cores) && (p == lo || p >= mid) && p < m && p < |psts2|
    requires Totals(psts2, m, Build(lo, mid, cores), sizes) && Represents(psts2, m, Build(lo, mid, cores), m + 1, upto)
    ensures Totals(psts2[p := psts2[p].(nTotal := nTotal)], m, Build(lo, mid, cores), sizes)
  {
    StillTotals(psts2, psts2[p := psts2[p].(nTotal := nTotal)], m, Build(lo, mid, cores), m + 1, upto, sizes);
  }

  lemma {:induction false} JoinTotals(psts0: seq<PstContext>, psts: seq<PstContext>, p: nat, lo: nat, hi: nat,
                                      cores: nat, from: nat,
                   m: nat, upto: nat, sizes: seq<nat>, nTotal: nat)
    requires cores > 0 && Aligned(lo, hi, cores) && hi - lo > 1 && hi <= |sizes|
    requires Represents(psts0, p, Build(lo, hi, cores), from, upto) && psts0[p].pstLower == Some(m)
    requires OnlyTotals(psts0, psts, p, lo, hi, from, upto) && p < |psts|
    requires psts[p].nTotal == nTotal == Sum(sizes, lo, hi)
    requires var mid := Middle(lo, hi, cores);
             lo < mid < hi && Aligned(lo, mid, cores) && Aligned(mid, hi, cores)
             && Totals(psts, mid, Build(mid, hi, cores), sizes) && Totals(psts, m, Build(lo, mid, cores), sizes)
    ensures Represents(psts, p, Build(lo, hi, cores), from, upto) && Totals(psts, p, Build(lo, hi, cores), sizes)
  {
    hide Aligned, Middle, Build, Sum, Totals;
    BuildSplit(lo, hi, cores);
    StillRepresents(psts0, psts, p, Build(lo, hi, cores), from, upto);
    assert SameShape(psts[p], psts0[p]);
    hide Contiguous, Represents, OnlyTotals, Lo, Size;
    JoinedTotals(psts, p, Build(lo, Middle(lo, hi, cores), cores), Build(Middle(lo, hi, cores), hi, cores), sizes);
  }

  /** The totals of a context and of its two halves are those of the whole. */
  lemma {:induction false} JoinedTotals(psts: seq<PstContext>, p: nat, lower: Tree, upper: Tree, sizes: seq<nat>)
    requires p < |psts| && psts[p].pstLower.Some? && Contiguous(Node(lower, upper))
    requires Lo(lower) + Size(lower) + Size(upper) <= |sizes|
    requires Totals(psts, psts[p].pstLower.value, lower, sizes) && Totals(psts, Lo(upper), upper, sizes)
    requires psts[p].nTotal == Sum(sizes, Lo(lower), Lo(lower) + Size(lower) + Size(upper))
    ensures Totals(psts, p, Node(lower, upper), sizes)
  {
    var t := Node(lower, upper);
    assert Lo(t) == Lo(lower) && Size(t) == Size(lower) + Size(upper);
    hide Sum, Lo, Size, Contiguous;
  }

  function Between(lo: nat, hi: nat): nat -> bool {
    id => lo <= id < hi
  }

  /** The first threads of the nodes that lie in lo..hi as a whole. */
  function NodeStart(lo: nat, hi: nat, cores: nat): nat -> bool
    requires cores > 0
  {
    id => cores > 1 && id % cores == 0 && lo <= id && id + cores <= hi
  }

  function NodesOfHalves(s: seq<nat>, lo: nat, hi: nat, cores: nat): seq<nat>
    requires cores > 0 && lo < hi
  {
    var mid := Middle(lo, hi, cores);
    Counted(Counted(s, NodeStart(mid, hi, cores)), NodeStart(lo, mid, cores))
  }

  lemma BothServed(s: seq<nat>, lo: nat, mid: nat, hi: nat)
    requires lo <= mid <= hi
    ensures Counted(Counted(s, Between(mid, hi)), Between(lo, mid)) == Counted(s, Between(lo, hi))
  {
  }

  lemma {:induction false} RootOf(psts: seq<PstContext>, p: nat, lo: nat, hi: nat, cores: nat, from: nat, upto: nat)
    requires cores > 0 && Aligned(lo, hi, cores) && Represents(psts, p, Build(lo, hi, cores), from, upto)
    ensures p < |psts| && psts[p].nLeaves == hi - lo && psts[p].idSelf == lo < hi
  {
  }

  lemma HalvesOf(psts: seq<PstContext>, p: nat, lo: nat, hi: nat, cores: nat, from: nat, upto: nat)
      returns (mid: nat, m: nat)
    requires cores > 0 && Aligned(lo, hi, cores) && hi - lo > 1 && Represents(psts, p, Build(lo, hi, cores), from, upto)
    ensures mid == Middle(lo, hi, cores) && lo < mid < hi && Aligned(lo, mid, cores) && Aligned(mid, hi, cores)
    ensures p < |psts| && psts[p].idUpper == mid && psts[p].pstLower == Some(m) && psts[p].nLeaves == hi - lo
    ensures psts[p].nLower == mid - lo && psts[p].nUpper == hi - mid
    ensures from <= m < upto <= |psts| && psts[p].idSelf == lo
    ensures Represents(psts, mid, Build(mid, hi, cores), from, m)
    ensures Represents(psts, m, Build(lo, mid, cores), m + 1, upto)
  {
    hide Build, Aligned, Middle;
    BuildSplit(lo, hi, cores);
    mid := Middle(lo, hi, cores);
    m := psts[p].pstLower.value;
  }

  /** Where AtNode runs below a context, in each of the four cases of the dispatch. */
  lemma WhereAtNode(s: seq<nat>, lo: nat, hi: nat, cores: nat)
    requires cores > 0 && Aligned(lo, hi, cores)
    ensures hi - lo == 1 ==> Counted(s, NodeStart(lo, hi, cores)) == s
    ensures hi - lo > 1 && hi - lo != cores ==> Counted(s, NodeStart(lo, hi, cores)) == NodesOfHalves(s, lo, hi, cores)
    ensures hi - lo > 1 && hi - lo == cores ==>
              Counted(s, NodeStart(lo, hi, cores)) == NodesOfHalves(Counted(s, Between(lo, lo + 1)), lo, hi, cores)
  {
    if hi - lo > 1 {
      SplitIsProper(lo, hi, cores);
      var mid := Middle(lo, hi, cores);
      forall id: nat | id < |s| ensures NodeStart(lo, hi, cores)(id) <==>
          NodeStart(lo, mid, cores)(id) || NodeStart(mid, hi, cores)(id) || (hi - lo == cores && id == lo)
      {
        WholeNode(lo, hi, cores, id);
      }
      forall id: nat | id < |s| && hi - lo == cores ensures !NodeStart(lo, mid, cores)(id)
          && !NodeStart(mid, hi, cores)(id) {}
    }
  }

  /** A whole node is on one side of a split, unless the range is just that node. */
  lemma WholeNode(lo: nat, hi: nat, cores: nat, id: nat)
    requires cores > 0 && Aligned(lo, hi, cores) && hi - lo > 1
    ensures var mid := Middle(lo, hi, cores);
            NodeStart(lo, hi, cores)(id) <==>
              NodeStart(lo, mid, cores)(id) || NodeStart(mid, hi, cores)(id) || (hi - lo == cores && id == lo)
  {
    SplitIsProper(lo, hi, cores);
    var mid := Middle(lo, hi, cores);
    RoundDown(lo, cores);
    RoundDown(hi - 1, cores);
    if lo / cores == (hi - 1) / cores {
      assert hi - lo <= cores;
      if hi - lo == cores { QuotientIs(lo, lo / cores, cores); }
    } else {
      TwoNodes(lo, hi, cores);
      RoundDown((hi + lo) / 2, cores);
      if id % cores == 0 && lo <= id && id + cores <= hi { NodeBeside(id, mid, cores); }
    }
  }

  /** Starts of nodes are at least a node apart. */
  lemma NodeBeside(id: nat, mid: nat, c: nat)
    requires c > 0 && id % c == 0 && mid % c == 0
    ensures id + c <= mid || mid <= id
  {
    RoundDown(id, c);
    RoundDown(mid, c);
    if id < mid < id + c { QuotientIs(mid, id / c, c); }
  }

  lemma NotYetChanged(psts0: seq<PstContext>, psts1: seq<PstContext>, p: nat, pst: PstContext, lo: nat, mid: nat,
                      hi: nat)
    requires p < |psts0| && (p == lo || p >= hi) && lo < mid < hi <= |psts0|
    requires Confined(psts0[p := pst], psts1, mid, mid, hi, |psts0|)
    ensures |psts0| <= |psts1| && psts1[p] == pst && forall id | lo < id < mid :: psts1[id] == psts0[id]
  {
  }

  lemma BuiltCore(psts: seq<PstContext>, p: nat, id: nat, cores: nat)
    requires cores > 0 && p < |psts| && psts[p] == Initialized(id) && Aligned(id, id + 1, cores)
    ensures Represents(psts, p, Build(id, id + 1, cores), |psts|, |psts|)
    ensures Confined(psts, psts, p, id, id + 1, |psts|)
  {
  }

  /** The context of a split and its two halves. */
  lemma {:induction false} BuiltNode(psts0: seq<PstContext>, psts1: seq<PstContext>, psts2: seq<PstContext>, p: nat,
                                     lo: nat, mid: nat,
                  hi: nat, cores: nat, pst: PstContext, m: nat)
    requires cores > 0 && Aligned(lo, hi, cores) && hi - lo > 1 && mid == Middle(lo, hi, cores)
    requires Aligned(lo, mid, cores) && Aligned(mid, hi, cores)
    requires p < |psts0| && (p == lo || p >= hi) && hi <= |psts0| <= m == |psts1|
    requires Represents(psts1, mid, Build(mid, hi, cores), |psts0|, m)
    requires Confined(psts0[p := pst], psts1, mid, mid, hi, |psts0|)
    requires var psts1' := (psts1 + [Initialized(lo)])[p := pst.(pstLower := Some(m))];
             Represents(psts2, m, Build(lo, mid, cores), m + 1, |psts2|) && Confined(psts1', psts2, m, lo, mid, m + 1)
    requires pst == Initialized(lo).(nLeaves := hi - lo, nLower := mid - lo, nUpper := hi - mid, idUpper := mid)
    ensures Represents(psts2, p, Build(lo, hi, cores), |psts0|, |psts2|)
    ensures Confined(psts0, psts2, p, lo, hi, |psts0|)
  {
    ConfinedBoth(psts0, psts1, psts2, p, lo, mid, hi, pst, m);
    UpperBuilt(psts0, psts1, psts2, p, lo, mid, hi, cores, pst, m);
    hide Aligned, Middle, Confined;
    JoinBuilt(psts2, p, lo, hi, cores, |psts0|, m);
  }

  lemma ConfinedBoth(psts0: seq<PstContext>, psts1: seq<PstContext>, psts2: seq<PstContext>, p: nat, lo: nat, mid: nat,
                     hi: nat, pst: PstContext, m: nat)
    requires p < |psts0| && (p == lo || p >= hi) && lo < mid < hi <= |psts0| <= m == |psts1|
    requires Confined(psts0[p := pst], psts1, mid, mid, hi, |psts0|)
    requires Confined((psts1 + [Initialized(lo)])[p := pst.(pstLower := Some(m))], psts2, m, lo, mid, m + 1)
    ensures Confined(psts0, psts2, p, lo, hi, |psts0|) && psts2[p] == pst.(pstLower := Some(m)) && |psts2| > m
  {
  }

  lemma {:induction false} UpperBuilt(psts0: seq<PstContext>, psts1: seq<PstContext>, psts2: seq<PstContext>, p: nat,
                                      lo: nat, mid: nat,
                   hi: nat, cores: nat, pst: PstContext, m: nat)
    requires cores > 0 && Aligned(mid, hi, cores) && p < |psts0| && (p == lo || p >= hi)
    requires lo < mid < hi <= |psts0| <= m == |psts1|
    requires Represents(psts1, mid, Build(mid, hi, cores), |psts0|, m)
    requires Confined((psts1 + [Initialized(lo)])[p := pst.(pstLower := Some(m))], psts2, m, lo, mid, m + 1)
    ensures Represents(psts2, mid, Build(mid, hi, cores), |psts0|, m)
  {
    StillRepresents(psts1, psts2, mid, Build(mid, hi, cores), |psts0|, m);
  }

  lemma JoinBuilt(psts: seq<PstContext>, p: nat, lo: nat, hi: nat, cores: nat, from: nat, m: nat)
    requires cores > 0 && Aligned(lo, hi, cores) && hi - lo > 1 && p < |psts| && from <= m < |psts|
    requires var mid := Middle(lo, hi, cores);
             && lo < mid < hi && Aligned(lo, mid, cores) && Aligned(mid, hi, cores)
             && psts[p] == Initialized(lo).(nLeaves := hi - lo, nLower := mid - lo, nUpper := hi - mid, idUpper := mid,
                                            pstLower := Some(m))
             && Represents(psts, mid, Build(mid, hi, cores), from, m)
                && Represents(psts, m, Build(lo, mid, cores), m + 1, |psts|)
    ensures Represents(psts, p, Build(lo, hi, cores), from, |psts|)
  {
  }
}
