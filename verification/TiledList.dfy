/** The tiled interaction lists: fixed-size tiles with reference counts, recycled through a free list
    that several lists share.  Memory is explicit: a pointer to a tile is its index in `mem`. */
module TiledList {
  import opened Collections

  datatype Interaction = Interaction(dx: real, dy: real, dz: real, m: real, fourh2: real)

  const ZERO := Interaction(0.0, 0.0, 0.0, 0.0, 0.0)

  /** A tile: full blocks, then nInLast items of the next block; the rest of the data is stale. */
  datatype Tile = Tile(next: Option<nat>, nBlocks: nat, nInLast: nat, nRefs: nat, data: seq<seq<Interaction>>)

  datatype Lst = Lst(list: nat, tile: nat, nPrevious: nat)
  datatype CheckPt = CheckPt(nBlocks: nat, nInLast: nat, nPrevious: nat)

  /** Where a tile is: on the free stack, in a list, or in neither and only referenced from outside. */
  datatype Place = Free(pos: nat) | In(id: nat, pos: nat) | Outside

  // ----- items -----

  ghost function Flat(blocks: seq<seq<Interaction>>, n: nat): seq<Interaction>
    requires n <= |blocks|
  {
    if n == 0 then [] else Flat(blocks, n - 1) + blocks[n - 1]
  }

  ghost predicate Shaped(t: Tile, nBlocksPerTile: nat, nPerBlock: nat) {
    && |t.data| == nBlocksPerTile
    && (forall i | 0 <= i < |t.data| :: |t.data[i]| == nPerBlock)
    && t.nBlocks < nBlocksPerTile && t.nInLast <= nPerBlock
  }

  ghost function Items(t: Tile): seq<Interaction> {
    if t.nBlocks < |t.data| && t.nInLast <= |t.data[t.nBlocks]|
    then Flat(t.data, t.nBlocks) + t.data[t.nBlocks][..t.nInLast] else []
  }

  lemma {:induction false} FlatSame(a: seq<seq<Interaction>>, b: seq<seq<Interaction>>, n: nat)
    requires n <= |a| && n <= |b| && forall i | 0 <= i < n :: a[i] == b[i]
    ensures Flat(a, n) == Flat(b, n)
  {
    if n > 0 { FlatSame(a, b, n - 1); }
  }

  lemma {:induction false} FlatLength(a: seq<seq<Interaction>>, n: nat, perBlock: nat)
    requires n <= |a| && forall i | 0 <= i < n :: |a[i]| == perBlock
    ensures |Flat(a, n)| == n * perBlock
  {
    if n > 0 {
      FlatLength(a, n - 1, perBlock);
      assert n * perBlock == (n - 1) * perBlock + perBlock;
    }
  }

  /** nBlocks full blocks of n items and nInLast more. */
  function Count(nBlocks: nat, nInLast: nat, n: nat): nat {
    nBlocks * n + nInLast
  }

  lemma ItemsLength(t: Tile, nBlocksPerTile: nat, nPerBlock: nat)
    requires Shaped(t, nBlocksPerTile, nPerBlock)
    ensures |Items(t)| == Count(t.nBlocks, t.nInLast, nPerBlock)
  {
    FlatLength(t.data, t.nBlocks, nPerBlock);
  }

  /** Writing past the last item and counting it appends it. */
  lemma AppendItem(t: Tile, x: Interaction, nBlocksPerTile: nat, nPerBlock: nat)
    requires Shaped(t, nBlocksPerTile, nPerBlock) && t.nInLast < nPerBlock
    ensures var t' := t.(data := t.data[t.nBlocks := t.data[t.nBlocks][t.nInLast := x]], nInLast := t.nInLast + 1);
            Shaped(t', nBlocksPerTile, nPerBlock) && Items(t') == Items(t) + [x]
  {
    var t' := t.(data := t.data[t.nBlocks := t.data[t.nBlocks][t.nInLast := x]], nInLast := t.nInLast + 1);
    FlatSame(t.data, t'.data, t.nBlocks);
  }

  lemma {:induction false} FlatPrefix(a: seq<seq<Interaction>>, m: nat, n: nat)
    requires m <= n <= |a|
    ensures Flat(a, m) <= Flat(a, n)
  {
    if m < n { FlatPrefix(a, m, n - 1); }
  }

  /** Both the cut tile and the tile are beginnings of the flattened data. */
  lemma {:induction false} ItemsArePrefix(t: Tile, n: nat, nBlocksPerTile: nat, nPerBlock: nat)
    requires Shaped(t, nBlocksPerTile, nPerBlock) && n == |t.data|
    ensures Items(t) <= Flat(t.data, n)
  {
    FlatPrefix(t.data, t.nBlocks + 1, n);
    assert Items(t) <= Flat(t.data, t.nBlocks + 1);
  }

  /** Moving on to the next block when the current one is full changes no item. */
  lemma NextBlock(t: Tile, nBlocksPerTile: nat, nPerBlock: nat)
    requires Shaped(t, nBlocksPerTile, nPerBlock) && t.nInLast == nPerBlock && t.nBlocks + 1 < nBlocksPerTile
    ensures var t' := t.(nBlocks := t.nBlocks + 1, nInLast := 0);
            Shaped(t', nBlocksPerTile, nPerBlock) && Items(t') == Items(t)
  {
    assert t.data[t.nBlocks][..t.nInLast] == t.data[t.nBlocks];
  }

  /** Cutting the counts of a tile cuts its items. */
  lemma CutItems(t: Tile, nBlocks: nat, nInLast: nat, nBlocksPerTile: nat, nPerBlock: nat)
    requires Shaped(t, nBlocksPerTile, nPerBlock) && nBlocks < nBlocksPerTile && nInLast <= nPerBlock
    ensures var t' := t.(nBlocks := nBlocks, nInLast := nInLast);
            |Items(t')| == Count(nBlocks, nInLast, nPerBlock)
            && (|Items(t')| <= |Items(t)| ==> Items(t') == Items(t)[..|Items(t')|])
  {
    var t' := t.(nBlocks := nBlocks, nInLast := nInLast);
    ItemsLength(t', nBlocksPerTile, nPerBlock);
    ItemsArePrefix(t, |t.data|, nBlocksPerTile, nPerBlock);
    ItemsArePrefix(t', |t.data|, nBlocksPerTile, nPerBlock);
    hide Items;
  }

  // ----- chains of tiles -----

  ghost function ItemsOf(mem: seq<Tile>, ps: seq<nat>): seq<Interaction>
    requires forall i | 0 <= i < |ps| :: ps[i] < |mem|
  {
    if ps == [] then [] else ItemsOf(mem, ps[..|ps| - 1]) + Items(mem[ps[|ps| - 1]])
  }

  lemma {:induction false} ItemsOfSame(mem: seq<Tile>, mem': seq<Tile>, ps: seq<nat>)
    requires forall i | 0 <= i < |ps| :: ps[i] < |mem| && ps[i] < |mem'| && Items(mem[ps[i]]) == Items(mem'[ps[i]])
    ensures ItemsOf(mem, ps) == ItemsOf(mem', ps)
  {
    if ps != [] { ItemsOfSame(mem, mem', ps[..|ps| - 1]); }
  }

  lemma {:induction false} ItemsOfConcat(mem: seq<Tile>, ps: seq<nat>, qs: seq<nat>)
    requires forall i | 0 <= i < |ps| :: ps[i] < |mem|
    requires forall i | 0 <= i < |qs| :: qs[i] < |mem|
    ensures ItemsOf(mem, ps + qs) == ItemsOf(mem, ps) + ItemsOf(mem, qs)
  {
    hide Items;
    if qs == [] {
      assert ps + qs == ps;
    } else {
      var n := |qs| - 1;
      assert (ps + qs)[..|ps + qs| - 1] == ps + qs[..n];
      ItemsOfConcat(mem, ps, qs[..n]);
    }
  }

  /** ps is a linked chain that starts at `first` and ends with a null pointer. */
  ghost predicate Linked(mem: seq<Tile>, first: Option<nat>, ps: seq<nat>) {
    && (forall i | 0 <= i < |ps| :: ps[i] < |mem|)
    && first == (if ps == [] then None else Some(ps[0]))
    && (forall i | 0 <= i < |ps| - 1 :: mem[ps[i]].next == Some(ps[i + 1]))
    && (ps != [] ==> mem[ps[|ps| - 1]].next == None)
  }

  ghost predicate Full(t: Tile, nBlocksPerTile: nat, nPerBlock: nat) {
    t.nBlocks + 1 == nBlocksPerTile && t.nInLast == nPerBlock
  }

  /** Every tile of a list but the last is full. */
  ghost predicate Packed(mem: seq<Tile>, ps: seq<nat>, b: nat, n: nat)
    requires forall i | 0 <= i < |ps| :: ps[i] < |mem|
  {
    forall i | 0 <= i < |ps| - 1 :: Full(mem[ps[i]], b, n)
  }

  ghost predicate ListOk(mem: seq<Tile>, l: Lst, ps: seq<nat>, b: nat, n: nat) {
    && ps != [] && Linked(mem, Some(l.list), ps) && l.tile == ps[|ps| - 1]
    && Packed(mem, ps, b, n)
  }

  // ----- the state of the tile store -----

  /** All tiles ever allocated, with the ghost bookkeeping: the free stack (top last), the tiles of each
      list, where each tile is, and how many references to it are held outside the lists. */
  datatype World = World(b: nat, n: nat, mem: seq<Tile>, freeList: Option<nat>, lists: map<nat, Lst>,
                         free: seq<nat>, chain: map<nat, seq<nat>>, place: seq<Place>, held: seq<nat>)

  ghost predicate PlaceOk(w: World, p: nat)
    requires p < |w.mem| && p < |w.place| && p < |w.held|
  {
    match w.place[p]
    case Free(i) => i < |w.free| && w.free[i] == p && w.mem[p].nRefs == 0 && w.held[p] == 0
    case In(id, i) => id in w.chain && i < |w.chain[id]| && w.chain[id][i] == p && w.mem[p].nRefs == w.held[p] + 1
    case Outside => w.mem[p].nRefs == w.held[p] > 0
  }

  ghost predicate TilesOk(w: World) {
    && w.b > 0 && w.n > 0
    && |w.place| == |w.held| == |w.mem|
    && (forall p | 0 <= p < |w.mem| :: Shaped(w.mem[p], w.b, w.n) && PlaceOk(w, p))
  }

  ghost predicate FreeOk(w: World) {
    && w.freeList == (if w.free == [] then None else Some(w.free[|w.free| - 1]))
    && (forall i | 0 <= i < |w.free| :: w.free[i] < |w.mem| && w.free[i] < |w.place| && w.place[w.free[i]] == Free(i))
    && (forall i | 0 < i < |w.free| :: w.mem[w.free[i]].next == Some(w.free[i - 1]))
    && (w.free != [] ==> w.mem[w.free[0]].next == None)
  }

  ghost predicate OneListOk(w: World, id: nat) {
    && id in w.lists && id in w.chain
    && ListOk(w.mem, w.lists[id], w.chain[id], w.b, w.n)
    && (forall i | 0 <= i < |w.chain[id]| :: w.chain[id][i] < |w.place| && w.place[w.chain[id][i]] == In(id, i))
  }

  ghost predicate ListsOk(w: World) {
    w.chain.Keys == w.lists.Keys && forall id | id in w.lists :: OneListOk(w, id)
  }

  ghost predicate Ok(w: World) {
    TilesOk(w) && FreeOk(w) && ListsOk(w)
  }

  /** The content of a list, as a plain sequence. */
  ghost function Contents(w: World, id: nat): seq<Interaction> {
    if OneListOk(w, id) then ItemsOf(w.mem, w.chain[id]) else []
  }

  /** The same tile, up to its reference count. */
  predicate SameTile(t: Tile, t': Tile) {
    t' == t.(nRefs := t'.nRefs)
  }

  /** Tiles of list id are untouched, up to their reference counts. */
  ghost predicate Untouched(w: World, w': World, id: nat) {
    && id in w.lists && id in w.chain
    && id in w'.lists && id in w'.chain && w'.lists[id] == w.lists[id] && w'.chain[id] == w.chain[id]
    && forall i | 0 <= i < |w.chain[id]| ::
         && w.chain[id][i] < |w.mem| && w.chain[id][i] < |w'.mem| && w.chain[id][i] < |w.place|
            && w.chain[id][i] < |w'.place|
         && SameTile(w.mem[w.chain[id][i]], w'.mem[w.chain[id][i]])
            && w'.place[w.chain[id][i]] == w.place[w.chain[id][i]]
  }

  lemma UntouchedListOk(w: World, w': World, id: nat)
    requires id in w.lists && id in w.chain && OneListOk(w, id)
    requires Untouched(w, w', id) && w'.b == w.b && w'.n == w.n
    ensures OneListOk(w', id)
    ensures ItemsOf(w'.mem, w'.chain[id]) == ItemsOf(w.mem, w.chain[id])
  {
    ItemsOfSame(w.mem, w'.mem, w.chain[id]);
  }

  /** All lists but id are as they were. */
  ghost predicate OthersSame(w: World, w': World, id: nat) {
    && (forall j | j in w.lists && j in w.chain && j != id :: Untouched(w, w', j))
    && (forall j | j in w'.lists && j != id :: j in w.lists)
    && w.chain.Keys == w.lists.Keys && w'.chain.Keys == w'.lists.Keys && w'.b == w.b && w'.n == w.n
  }

  lemma OthersSameTrans(w: World, w': World, w'': World, id: nat)
    requires OthersSame(w, w', id) && OthersSame(w', w'', id)
    ensures OthersSame(w, w'', id)
  {
    forall j | j in w.lists && j != id ensures Untouched(w, w'', j) {
      assert Untouched(w, w', j) && Untouched(w', w'', j);
    }
  }

  lemma OthersOk(w: World, w': World, id: nat)
    requires ListsOk(w) && OthersSame(w, w', id)
    requires id in w'.lists ==> OneListOk(w', id)
    ensures ListsOk(w')
  {
    forall j | j in w.lists && j != id ensures OneListOk(w', j) {
      assert OneListOk(w, j) && Untouched(w, w', j);
      UntouchedListOk(w, w', j);
    }
  }

  lemma EntryUntouched(w: World, w': World, id: nat, j: nat)
    requires OneListOk(w, j) && j != id && |w.mem| <= |w'.mem| && |w'.place| == |w'.mem| && |w.place| == |w.mem|
    requires j in w'.lists && j in w'.chain && w'.lists[j] == w.lists[j] && w'.chain[j] == w.chain[j]
    requires forall q | 0 <= q < |w.mem| && w.place[q].In? && w.place[q].id != id ::
               SameTile(w.mem[q], w'.mem[q]) && w'.place[q] == w.place[q]
    ensures Untouched(w, w', j)
  {
    hide SameTile;
  }

  /** If the tiles that changed are in no list but id, all other lists are as they were. */
  lemma OnlyTilesOf(w: World, w': World, id: nat)
    requires Ok(w) && w'.b == w.b && w'.n == w.n
    requires w'.chain.Keys == w'.lists.Keys
    requires forall j | j in w.lists && j != id ::
               j in w'.lists && w'.lists[j] == w.lists[j] && w'.chain[j] == w.chain[j]
    requires forall j | j in w'.lists && j != id :: j in w.lists
    requires |w.mem| <= |w'.mem| && |w'.place| == |w'.mem|
    requires forall q | 0 <= q < |w.mem| && w.place[q].In? && w.place[q].id != id ::
               SameTile(w.mem[q], w'.mem[q]) && w'.place[q] == w.place[q]
    ensures OthersSame(w, w', id)
  {
    hide Untouched, OneListOk;
    forall j | j in w.lists && j != id ensures Untouched(w, w', j) {
      assert OneListOk(w, j);
      EntryUntouched(w, w', id, j);
    }
  }

  /** The same when only the entries of list id changed. */
  lemma OnlyEntryOf(w: World, w': World, id: nat)
    requires TilesOk(w) && ListsOk(w) && w'.b == w.b && w'.n == w.n && id in w'.lists && id in w'.chain
    requires w'.lists == w.lists[id := w'.lists[id]] && w'.chain == w.chain[id := w'.chain[id]]
    requires |w.mem| <= |w'.mem| && |w'.place| == |w'.mem|
    requires forall q | 0 <= q < |w.mem| && w.place[q].In? && w.place[q].id != id ::
               SameTile(w.mem[q], w'.mem[q]) && w'.place[q] == w.place[q]
    ensures OthersSame(w, w', id)
  {
    hide Shaped, PlaceOk;
    hide Untouched, OneListOk;
    forall j | j in w.lists && j != id ensures Untouched(w, w', j) {
      assert OneListOk(w, j);
      EntryUntouched(w, w', id, j);
    }
  }

  /** If no tile of any list changed, all lists are as they were. */
  lemma NoListTouched(w: World, w': World)
    requires Ok(w) && w'.b == w.b && w'.n == w.n && w'.lists == w.lists && w'.chain == w.chain
    requires |w.mem| <= |w'.mem| && |w'.place| == |w'.mem|
    requires forall q | 0 <= q < |w.mem| && w.place[q].In? :: SameTile(w.mem[q], w'.mem[q]) && w'.place[q] == w.place[q]
    ensures ListsOk(w')
    ensures forall id | id in w.lists :: Untouched(w, w', id)
  {
    forall id | id in w.lists ensures Untouched(w, w', id) && OneListOk(w', id) {
      assert OneListOk(w, id);
      UntouchedListOk(w, w', id);
    }
  }

  lemma FreeSame(w: World, w': World)
    requires FreeOk(w) && |w.mem| <= |w'.mem| && |w.place| <= |w'.place|
    requires w'.free == w.free && w'.freeList == w.freeList
    requires forall q | 0 <= q < |w.mem| && q < |w.place| && w.place[q].Free? ::
               w'.mem[q] == w.mem[q] && w'.place[q] == w.place[q]
    ensures FreeOk(w')
  {
  }

  function Popped(w: World): World {
    if w.free == [] || w.free[|w.free| - 1] >= |w.mem| || |w.place| != |w.mem| || |w.held| != |w.mem| then w else
    var p := w.free[|w.free| - 1];
    w.(mem := w.mem[p := w.mem[p].(next := None, nBlocks := 0, nInLast := 0, nRefs := 1)],
       freeList := w.mem[p].next, free := w.free[..|w.free| - 1], place := w.place[p := Outside],
           held := w.held[p := 1])
  }

  function Allocated(w: World, t: Tile): World {
    w.(mem := w.mem + [t], place := w.place + [Outside], held := w.held + [1])
  }

  lemma PoppedOk(w: World)
    requires Ok(w) && w.free != []
    ensures w.free[|w.free| - 1] < |w.mem| && Ok(Popped(w))
    ensures forall id | id in w.lists :: Untouched(w, Popped(w), id)
  {
    PoppedTilesOk(w);
    PoppedFreeOk(w);
    assert w.place[w.free[|w.free| - 1]] == Free(|w.free| - 1);
    hide Shaped, PlaceOk, OneListOk, Untouched;
    NoListTouched(w, Popped(w));
  }

  lemma PoppedTilesOk(w: World)
    requires TilesOk(w) && FreeOk(w) && w.free != []
    ensures TilesOk(Popped(w))
  {
    var w' := Popped(w);
    forall q | 0 <= q < |w'.mem| ensures Shaped(w'.mem[q], w.b, w.n) && PlaceOk(w', q) {
      assert PlaceOk(w, q);
    }
  }

  lemma PoppedFreeOk(w: World)
    requires TilesOk(w) && FreeOk(w) && w.free != []
    ensures FreeOk(Popped(w))
  {
    hide Shaped, PlaceOk;
    var n := |w.free| - 1;
    forall i | 0 <= i < n ensures w.free[i] != w.free[n] {
      assert w.place[w.free[i]] == Free(i) && w.place[w.free[n]] == Free(n);
    }
  }

  lemma AllocatedOk(w: World, t: Tile)
    requires Ok(w) && Shaped(t, w.b, w.n) && t.nRefs == 1
    ensures Ok(Allocated(w, t))
    ensures forall id | id in w.lists :: Untouched(w, Allocated(w, t), id)
  {
    var w' := Allocated(w, t);
    NoListTouched(w, w');
    hide ListsOk, OneListOk, Untouched;
    forall q | 0 <= q < |w'.mem| ensures Shaped(w'.mem[q], w.b, w.n) && PlaceOk(w', q) {
      if q < |w.mem| { assert PlaceOk(w, q); }
    }
  }

  /** From w to w' the operation obtained tile p, which nobody else refers to. */
  ghost predicate Taken(w: World, w': World, p: nat) {
    && w'.b == w.b && w'.n == w.n && w'.lists == w.lists && w'.chain == w.chain
    && |w.held| == |w.place| == |w.mem| <= |w'.mem| == |w'.place| == |w'.held| && p < |w'.mem|
    && (p < |w.mem| ==> w.held[p] == 0)
    && (forall q | 0 <= q < |w'.mem| && q != p :: q < |w.mem| && w'.mem[q] == w.mem[q] && w'.held[q] == w.held[q])
    && w'.place[p] == Outside && w'.held[p] == 1
    && w'.mem[p].next == None && w'.mem[p].nBlocks == w'.mem[p].nInLast == 0 && w'.mem[p].nRefs == 1
    && forall j | j in w.lists :: Untouched(w, w', j)
  }

  lemma PoppedTaken(w: World)
    requires Ok(w) && w.free != []
    ensures w.free[|w.free| - 1] < |w.mem|
    ensures Ok(Popped(w)) && Taken(w, Popped(w), w.free[|w.free| - 1])
  {
    hide Ok, Untouched;
    FreeTop(w);
    PoppedOk(w);
  }

  lemma FreeTop(w: World)
    requires Ok(w)
    ensures w.b > 0 && w.n > 0 && |w.place| == |w.held| == |w.mem|
    ensures if w.free == [] then w.freeList == None
            else var p := w.free[|w.free| - 1];
                 w.freeList == Some(p) && p < |w.mem| && w.place[p].Free? && w.held[p] == 0
  {
    if w.free != [] { TileAt(w, w.free[|w.free| - 1]); }
    hide TilesOk, ListsOk, Shaped;
  }

  lemma AllocatedTaken(w: World, t: Tile)
    requires Ok(w) && Shaped(t, w.b, w.n) && t.nRefs == 1 && t.next == None && t.nBlocks == t.nInLast == 0
    ensures Ok(Allocated(w, t)) && Taken(w, Allocated(w, t), |w.mem|)
  {
    AllocatedOk(w, t);
    hide ListsOk, Untouched;
  }

  predicate SameLists(w: World, w': World) {
    w'.lists == w.lists && w'.chain == w.chain && w'.b == w.b && w'.n == w.n
  }

  /** Giving up one outside reference; the last one puts the tile on the free stack. */
  function Dropped(w: World, p: nat): World {
    if p >= |w.mem| || |w.place| != |w.mem| || |w.held| != |w.mem| || w.mem[p].nRefs == 0 || w.held[p] == 0 then w else
    var t := w.mem[p].(nRefs := w.mem[p].nRefs - 1);
    if t.nRefs == 0 then
      w.(mem := w.mem[p := t.(next := w.freeList)], held := w.held[p := w.held[p] - 1],
         freeList := Some(p), free := w.free + [p], place := w.place[p := Free(|w.free|)])
    else
      w.(mem := w.mem[p := t], held := w.held[p := w.held[p] - 1])
  }

  lemma DroppedOk(w: World, p: nat)
    requires Ok(w) && p < |w.mem| && p < |w.held| && w.held[p] > 0
    ensures |w.place| == |w.held| == |w.mem| && w.mem[p].nRefs > 0
    ensures Ok(Dropped(w, p)) && SameLists(w, Dropped(w, p))
    ensures forall id | id in w.lists :: Untouched(w, Dropped(w, p), id)
  {
    hide Dropped, TilesOk, FreeOk, ListsOk, PlaceOk, Shaped, Untouched;
    TileAt(w, p);
    HeldInUse(w, p);
    DroppedTilesOk(w, p);
    DroppedLists(w, p);
  }

  lemma TileAt(w: World, p: nat)
    requires TilesOk(w) && p < |w.mem|
    ensures |w.place| == |w.held| == |w.mem| && Shaped(w.mem[p], w.b, w.n) && PlaceOk(w, p)
  {
    hide Shaped, PlaceOk;
  }

  lemma HeldInUse(w: World, p: nat)
    requires p < |w.mem| && p < |w.place| && p < |w.held| && PlaceOk(w, p) && w.held[p] > 0
    ensures w.mem[p].nRefs > 0
  {
  }

  lemma DroppedLists(w: World, p: nat)
    requires Ok(w) && p < |w.mem| && |w.place| == |w.held| == |w.mem| && w.held[p] > 0 && PlaceOk(w, p)
    requires w.mem[p].nRefs > 0
    ensures SameLists(w, Dropped(w, p)) && ListsOk(Dropped(w, p))
    ensures forall id | id in w.lists :: Untouched(w, Dropped(w, p), id)
  {
    assert w.place[p].In? ==> w.mem[p].nRefs > 1;
    hide TilesOk, FreeOk, ListsOk, PlaceOk, Untouched;
    NoListTouched(w, Dropped(w, p));
  }

  lemma DroppedTilesOk(w: World, p: nat)
    requires TilesOk(w) && FreeOk(w) && p < |w.mem| && w.held[p] > 0 && w.mem[p].nRefs > 0
    ensures TilesOk(Dropped(w, p)) && FreeOk(Dropped(w, p))
  {
    var w' := Dropped(w, p);
    forall q | 0 <= q < |w'.mem| ensures Shaped(w'.mem[q], w.b, w.n) && PlaceOk(w', q) {
      hide FreeOk, Shaped, PlaceOk;
      DroppedTileOk(w, p, q);
    }
    DroppedFreeOk(w, p);
    hide FreeOk, Shaped, PlaceOk;
  }

  lemma DroppedFreeOk(w: World, p: nat)
    requires TilesOk(w) && FreeOk(w) && p < |w.mem| && w.held[p] > 0 && w.mem[p].nRefs > 0
    ensures FreeOk(Dropped(w, p))
  {
    TileAt(w, p);
    assert w.place[p] != Outside ==> w.mem[p].nRefs > 1 && !w.place[p].Free?;
    hide TilesOk, FreeOk, Shaped, PlaceOk;
    if w.mem[p].nRefs > 1 { FreeSame(w, Dropped(w, p)); } else { PushedFreeOk(w, p); }
  }

  lemma PushedFreeOk(w: World, p: nat)
    requires FreeOk(w) && p < |w.mem| && |w.place| == |w.held| == |w.mem| && w.held[p] > 0 && w.mem[p].nRefs == 1
    requires w.place[p] == Outside
    ensures FreeOk(Dropped(w, p))
  {
    var w' := Dropped(w, p);
    forall i | 0 <= i < |w.free| ensures w'.free[i] == w.free[i] && w'.free[i] != p {
      assert w.place[w.free[i]] == Free(i);
    }
  }

  lemma DroppedTileOk(w: World, p: nat, q: nat)
    requires |w.place| == |w.held| == |w.mem| && p < |w.mem| && w.held[p] > 0 && w.mem[p].nRefs > 0 && q < |w.mem|
    requires Shaped(w.mem[q], w.b, w.n) && PlaceOk(w, q)
    ensures Shaped(Dropped(w, p).mem[q], w.b, w.n) && PlaceOk(Dropped(w, p), q)
  {
    assert q != p ==> Dropped(w, p).mem[q] == w.mem[q] && Dropped(w, p).place[q] == w.place[q];
    assert Dropped(w, p).free == w.free || Dropped(w, p).free == w.free + [p];
    DroppedShaped(w, p, q);
    hide Shaped;
  }

  lemma DroppedShaped(w: World, p: nat, q: nat)
    requires |w.place| == |w.held| == |w.mem| && p < |w.mem| && q < |w.mem| && Shaped(w.mem[q], w.b, w.n)
    ensures Shaped(Dropped(w, p).mem[q], w.b, w.n)
  {
  }

  /** Someone outside takes a reference to a tile that is in use. */
  function HeldMore(w: World, p: nat): World {
    if p >= |w.mem| || |w.held| != |w.mem| then w else
    w.(mem := w.mem[p := w.mem[p].(nRefs := w.mem[p].nRefs + 1)], held := w.held[p := w.held[p] + 1])
  }

  lemma HeldMoreOk(w: World, p: nat)
    requires Ok(w) && p < |w.mem| && w.mem[p].nRefs > 0
    ensures Ok(HeldMore(w, p))
    ensures forall id | id in w.lists :: Untouched(w, HeldMore(w, p), id)
  {
    var w' := HeldMore(w, p);
    HeldMoreTilesOk(w, p);
    TileAt(w, p);
    assert !w.place[p].Free?;
    hide TilesOk, PlaceOk, ListsOk, FreeOk, Untouched;
    NoListTouched(w, w');
    FreeSame(w, w');
  }

  lemma HeldMoreTilesOk(w: World, p: nat)
    requires TilesOk(w) && p < |w.mem| && w.mem[p].nRefs > 0
    ensures TilesOk(HeldMore(w, p))
  {
    var w' := HeldMore(w, p);
    forall q | 0 <= q < |w'.mem| ensures Shaped(w'.mem[q], w.b, w.n) && PlaceOk(w', q) {
      TileAt(w, q);
      hide TilesOk;
    }
    hide Shaped, PlaceOk;
  }

  /** Tile p, held once by the operation, becomes the only tile of list id. */
  function Started(w: World, id: nat, p: nat, nPrevious: nat): World {
    if p >= |w.place| || p >= |w.held| then w else
    w.(lists := w.lists[id := Lst(p, p, nPrevious)], chain := w.chain[id := [p]],
       place := w.place[p := In(id, 0)], held := w.held[p := 0])
  }

  lemma StartedOk(w: World, id: nat, p: nat, nPrevious: nat)
    requires Ok(w) && id !in w.lists && p < |w.mem| && w.place[p] == Outside && w.held[p] == 1
    requires w.mem[p].next == None && w.mem[p].nBlocks == w.mem[p].nInLast == 0
    ensures Ok(Started(w, id, p, nPrevious)) && OthersSame(w, Started(w, id, p, nPrevious), id)
  {
    var w' := Started(w, id, p, nPrevious);
    assert OneListOk(w', id);
    StartedTilesOk(w, id, p, nPrevious);
    hide Shaped, PlaceOk, OneListOk, TilesOk;
    FreeSame(w, w');
    StartedRest(w, id, p, nPrevious);
    hide FreeOk, OthersSame;
    OthersOk(w, w', id);
  }

  lemma StartedTilesOk(w: World, id: nat, p: nat, nPrevious: nat)
    requires TilesOk(w) && id !in w.chain && p < |w.mem| && w.place[p] == Outside && w.held[p] == 1
    ensures TilesOk(Started(w, id, p, nPrevious))
  {
    var w' := Started(w, id, p, nPrevious);
    forall q | 0 <= q < |w'.mem| ensures Shaped(w'.mem[q], w.b, w.n) && PlaceOk(w', q) {
      StartedTileOk(w, id, p, nPrevious, q);
    }
    hide Shaped, PlaceOk;
  }

  lemma StartedRest(w: World, id: nat, p: nat, nPrevious: nat)
    requires Ok(w) && id !in w.lists && p < |w.mem| && w.place[p] == Outside
    ensures OthersSame(w, Started(w, id, p, nPrevious), id)
  {
    hide Shaped, PlaceOk, OneListOk, FreeOk;
    OnlyEntryOf(w, Started(w, id, p, nPrevious), id);
  }

  lemma {:induction false} NoItems(mem: seq<Tile>, p: nat)
    requires p < |mem| && mem[p].nBlocks == mem[p].nInLast == 0
    ensures ItemsOf(mem, [p]) == []
  {
    assert [p][..0] == [];
  }

  lemma StartedTileOk(w: World, id: nat, p: nat, nPrevious: nat, q: nat)
    requires |w.place| == |w.held| == |w.mem| && q < |w.mem| && p < |w.mem| && w.place[p] == Outside && w.held[p] == 1
    requires PlaceOk(w, q) && PlaceOk(w, p) && id !in w.chain
    ensures PlaceOk(Started(w, id, p, nPrevious), q)
  {
  }

  /** The tiles of list id from position k on, which the operation holds from now on. */
  predicate Beyond(w: World, id: nat, k: nat, q: nat)
    requires q < |w.place|
  {
    w.place[q].In? && w.place[q].id == id && w.place[q].pos >= k
  }

  function Loosened(w: World, id: nat, k: nat): (w': World)
    requires |w.place| == |w.held|
    ensures |w'.place| == |w'.held| == |w.held|
    ensures forall q | 0 <= q < |w.place| :: w'.place[q] == if Beyond(w, id, k, q) then Outside else w.place[q]
    ensures forall q | 0 <= q < |w.place| :: w'.held[q] == if Beyond(w, id, k, q) then w.held[q] + 1 else w.held[q]
    ensures w' == w.(place := w'.place, held := w'.held)
  {
    w.(place := seq(|w.place|, q requires 0 <= q < |w.place| => if Beyond(w, id, k, q) then Outside else w.place[q]),
       held := seq(|w.held|, q requires 0 <= q < |w.held| => if Beyond(w, id, k, q) then w.held[q] + 1 else w.held[q]))
  }

  /** List id ends at position k-1, with the counts of that tile set back; its other tiles are cut off. */
  function Cut(w: World, id: nat, k: nat, cp: CheckPt): World {
    if |w.place| != |w.held| || id !in w.chain || id !in w.lists || k == 0 || k > |w.chain[id]|
       || w.chain[id][k - 1] >= |w.mem| then w else
    var last := w.chain[id][k - 1];
    Loosened(w, id, k).(mem := w.mem[last := w.mem[last].(next := None, nBlocks := cp.nBlocks, nInLast := cp.nInLast)],
                        chain := w.chain[id := w.chain[id][..k]],
                        lists := w.lists[id := Lst(w.lists[id].list, last, cp.nPrevious)])
  }

  lemma CutOk(w: World, id: nat, k: nat, cp: CheckPt)
    requires Ok(w) && id in w.lists && 0 < k <= |w.chain[id]|
    requires cp.nBlocks < w.b && cp.nInLast <= w.n
    ensures w.chain[id][k - 1] < |w.mem| && Ok(Cut(w, id, k, cp)) && OthersSame(w, Cut(w, id, k, cp), id)
  {
    assert OneListOk(w, id);
    CutTilesOk(w, id, k, cp);
    CutOneOk(w, id, k, cp);
    CutRest(w, id, k, cp);
    hide TilesOk, OneListOk, FreeOk, OthersSame, Cut;
    OthersOk(w, Cut(w, id, k, cp), id);
  }

  lemma CutTilesOk(w: World, id: nat, k: nat, cp: CheckPt)
    requires TilesOk(w) && id in w.lists && id in w.chain && OneListOk(w, id) && 0 < k <= |w.chain[id]|
    requires cp.nBlocks < w.b && cp.nInLast <= w.n
    ensures TilesOk(Cut(w, id, k, cp))
  {
    var w' := Cut(w, id, k, cp);
    assert w.place[w.chain[id][k - 1]] == In(id, k - 1);
    forall q | 0 <= q < |w'.mem| ensures Shaped(w'.mem[q], w.b, w.n) && PlaceOk(w', q) {
      CutTileOk(w, id, k, cp, q);
    }
    hide Shaped, PlaceOk;
  }

  lemma CutRest(w: World, id: nat, k: nat, cp: CheckPt)
    requires Ok(w) && id in w.lists && id in w.chain && OneListOk(w, id) && 0 < k <= |w.chain[id]|
    ensures FreeOk(Cut(w, id, k, cp)) && OthersSame(w, Cut(w, id, k, cp), id)
  {
    hide TilesOk, ListsOk, FreeOk, OneListOk, OthersSame;
    Geometry(w);
    ListPlaces(w, id);
    var w' := Cut(w, id, k, cp);
    FreeSame(w, w');
    OnlyEntryOf(w, w', id);
  }

  lemma ListPlaces(w: World, id: nat)
    requires OneListOk(w, id)
    ensures forall i | 0 <= i < |w.chain[id]| ::
              w.chain[id][i] < |w.mem| && w.chain[id][i] < |w.place| && w.place[w.chain[id][i]] == In(id, i)
  {
  }

  lemma CutTileOk(w: World, id: nat, k: nat, cp: CheckPt, q: nat)
    requires |w.place| == |w.held| == |w.mem| && q < |w.mem| && id in w.chain && id in w.lists && 0 < k <= |w.chain[id]|
    requires cp.nBlocks < w.b && cp.nInLast <= w.n
    requires w.chain[id][k - 1] < |w.mem| && w.place[w.chain[id][k - 1]] == In(id, k - 1)
    requires Shaped(w.mem[q], w.b, w.n) && PlaceOk(w, q)
    ensures Shaped(Cut(w, id, k, cp).mem[q], w.b, w.n) && PlaceOk(Cut(w, id, k, cp), q)
  {
  }

  lemma CutOneOk(w: World, id: nat, k: nat, cp: CheckPt)
    requires TilesOk(w) && id in w.lists && id in w.chain && OneListOk(w, id) && 0 < k <= |w.chain[id]|
    ensures OneListOk(Cut(w, id, k, cp), id)
  {
    var ps := w.chain[id];
    var w' := Cut(w, id, k, cp);
    assert w'.chain[id] == ps[..k];
    forall i | 0 <= i < k - 1 ensures ps[i] != ps[k - 1] && w'.mem[ps[i]] == w.mem[ps[i]] {
      assert w.place[ps[i]] == In(id, i) && w.place[ps[k - 1]] == In(id, k - 1);
    }
  }

  /** List id is taken apart; the operation holds its tiles. */
  function Removed(w: World, id: nat): World {
    if |w.place| != |w.held| || id !in w.chain then w else
    Loosened(w, id, 0).(chain := w.chain - {id}, lists := w.lists - {id})
  }

  lemma RemovedOk(w: World, id: nat)
    requires Ok(w) && id in w.lists
    ensures Ok(Removed(w, id)) && OthersSame(w, Removed(w, id), id)
  {
    RemovedTilesOk(w, id);
    RemovedRest(w, id);
    hide TilesOk, OneListOk, FreeOk, OthersSame;
    OthersOk(w, Removed(w, id), id);
  }

  lemma RemovedTilesOk(w: World, id: nat)
    requires TilesOk(w) && id in w.chain
    ensures TilesOk(Removed(w, id))
  {
    var w' := Removed(w, id);
    forall q | 0 <= q < |w'.mem| ensures Shaped(w'.mem[q], w.b, w.n) && PlaceOk(w', q) {
      RemovedTileOk(w, id, q);
    }
    hide Shaped, PlaceOk;
  }

  lemma RemovedRest(w: World, id: nat)
    requires Ok(w) && id in w.lists
    ensures FreeOk(Removed(w, id)) && OthersSame(w, Removed(w, id), id)
  {
    hide Shaped, PlaceOk, OneListOk;
    FreeSame(w, Removed(w, id));
    OnlyTilesOf(w, Removed(w, id), id);
  }

  lemma RemovedTileOk(w: World, id: nat, q: nat)
    requires |w.place| == |w.held| == |w.mem| && q < |w.mem| && id in w.chain && PlaceOk(w, q)
    ensures PlaceOk(Removed(w, id), q)
  {
  }

  // ----- writing into the last tile -----

  function Rewritten(w: World, p: nat, t: Tile): World {
    if p >= |w.mem| then w else
    w.(mem := w.mem[p := t])
  }

  /** Data and counts of a tile in use may change if it is the last of its list. */
  lemma RewrittenOk(w: World, p: nat, t: Tile, id: nat)
    requires Ok(w) && p < |w.mem| && Shaped(t, w.b, w.n)
    requires t.nRefs == w.mem[p].nRefs && t.next == w.mem[p].next
    requires w.place[p] == Outside || (id in w.chain && w.place[p] == In(id, |w.chain[id]| - 1))
    ensures Ok(Rewritten(w, p, t)) && OthersSame(w, Rewritten(w, p, t), id)
  {
    RewrittenTilesOk(w, p, t);
    if id in w.lists {
      assert OneListOk(w, id);
      RewrittenOneOk(w, p, t, id);
    }
    RewrittenRest(w, p, t, id);
    hide TilesOk, FreeOk, OthersSame, OneListOk;
    OthersOk(w, Rewritten(w, p, t), id);
  }

  lemma RewrittenRest(w: World, p: nat, t: Tile, id: nat)
    requires Ok(w) && p < |w.mem|
    requires w.place[p] == Outside || (id in w.chain && w.place[p] == In(id, |w.chain[id]| - 1))
    ensures FreeOk(Rewritten(w, p, t)) && OthersSame(w, Rewritten(w, p, t), id)
  {
    var w' := Rewritten(w, p, t);
    hide Shaped, PlaceOk, OneListOk;
    FreeSame(w, w');
    hide FreeOk;
    OnlyTilesOf(w, w', id);
  }

  lemma RewrittenTilesOk(w: World, p: nat, t: Tile)
    requires TilesOk(w) && p < |w.mem| && Shaped(t, w.b, w.n) && t.nRefs == w.mem[p].nRefs
    ensures TilesOk(Rewritten(w, p, t))
  {
    var w' := Rewritten(w, p, t);
    forall q | 0 <= q < |w'.mem| ensures Shaped(w'.mem[q], w.b, w.n) && PlaceOk(w', q) {
      assert PlaceOk(w, q);
    }
  }

  lemma RewrittenOneOk(w: World, p: nat, t: Tile, id: nat)
    requires id in w.lists && id in w.chain && OneListOk(w, id)
    requires p < |w.mem| && p < |w.place| && t.next == w.mem[p].next
    requires w.place[p] == Outside || w.place[p] == In(id, |w.chain[id]| - 1)
    ensures OneListOk(Rewritten(w, p, t), id)
    ensures var n := |w.chain[id]| - 1;
            ItemsOf(Rewritten(w, p, t).mem, w.chain[id][..n]) == ItemsOf(w.mem, w.chain[id][..n])
  {
    var ps := w.chain[id];
    var n := |ps| - 1;
    var w' := Rewritten(w, p, t);
    forall i | 0 <= i < n ensures ps[i] != p && w'.mem[ps[i]] == w.mem[ps[i]] {
      assert w.place[ps[i]] == In(id, i);
    }
    assert OneListOk(w', id);
    hide Items, OneListOk;
    assert forall i | 0 <= i < n :: ps[..n][i] == ps[i];
    ItemsOfSame(w.mem, w'.mem, ps[..n]);
  }

  // ----- extending and splitting a list -----

  predicate CanExtend(w: World, id: nat, p: nat) {
    && id in w.lists && id in w.chain && w.chain[id] != [] && w.lists[id].tile < |w.mem|
    && p < |w.place| && p < |w.held|
  }

  function Extended(w: World, id: nat, p: nat): World {
    if !CanExtend(w, id, p) then w else
    var l := w.lists[id];
    var last := w.mem[l.tile];
    w.(mem := w.mem[l.tile := last.(next := Some(p))],
       lists := w.lists[id := Lst(l.list, p, l.nPrevious + Count(last.nBlocks, last.nInLast, w.n))],
       chain := w.chain[id := w.chain[id] + [p]], place := w.place[p := In(id, |w.chain[id]|)], held := w.held[p := 0])
  }

  lemma ExtendedOk(w: World, id: nat, p: nat)
    requires Ok(w) && id in w.lists && p < |w.mem| && w.place[p] == Outside && w.held[p] == 1
    requires w.mem[p].next == None && w.mem[p].nBlocks == w.mem[p].nInLast == 0
    requires w.chain[id] != [] && w.lists[id].tile < |w.mem| && Full(w.mem[w.lists[id].tile], w.b, w.n)
    ensures Ok(Extended(w, id, p)) && OthersSame(w, Extended(w, id, p), id)
    ensures ItemsOf(Extended(w, id, p).mem, w.chain[id]) == ItemsOf(w.mem, w.chain[id])
  {
    assert OneListOk(w, id);
    ExtendedTilesOk(w, id, p);
    ExtendedOneOk(w, id, p);
    ExtendedRest(w, id, p);
    hide TilesOk, OneListOk, FreeOk, OthersSame, Extended;
    OthersOk(w, Extended(w, id, p), id);
  }

  lemma ExtendedTilesOk(w: World, id: nat, p: nat)
    requires TilesOk(w) && id in w.lists && id in w.chain && OneListOk(w, id)
    requires p < |w.mem| && w.place[p] == Outside && w.held[p] == 1
    ensures TilesOk(Extended(w, id, p))
  {
    var w' := Extended(w, id, p);
    assert PlaceOk(w, p);
    forall q | 0 <= q < |w'.mem| ensures Shaped(w'.mem[q], w.b, w.n) && PlaceOk(w', q) {
      assert PlaceOk(w, q);
    }
  }

  lemma ItemsNext(t: Tile, next: Option<nat>)
    ensures Items(t.(next := next)) == Items(t)
  {
  }

  lemma ExtendedOneOk(w: World, id: nat, p: nat)
    requires id in w.lists && id in w.chain && OneListOk(w, id)
    requires p < |w.mem| && p < |w.held| && p < |w.place| && w.place[p] == Outside && w.mem[p].next == None
    requires Full(w.mem[w.lists[id].tile], w.b, w.n)
    ensures OneListOk(Extended(w, id, p), id)
    ensures ItemsOf(Extended(w, id, p).mem, w.chain[id]) == ItemsOf(w.mem, w.chain[id])
  {
    hide Items, ItemsOf;
    var ps := w.chain[id];
    var w' := Extended(w, id, p);
    assert w.place[ps[|ps| - 1]] == In(id, |ps| - 1);
    ItemsNext(w.mem[ps[|ps| - 1]], Some(p));
    forall i | 0 <= i < |ps|
      ensures ps[i] != p && w'.place[ps[i]] == In(id, i) && Items(w'.mem[ps[i]]) == Items(w.mem[ps[i]])
      ensures i < |ps| - 1 ==> w'.mem[ps[i]] == w.mem[ps[i]]
    {
      assert w.place[ps[i]] == In(id, i);
    }
    ItemsOfSame(w.mem, w'.mem, ps);
  }

  lemma ExtendedRest(w: World, id: nat, p: nat)
    requires Ok(w) && id in w.lists && id in w.chain && OneListOk(w, id)
    requires p < |w.mem| && w.place[p] == Outside
    ensures FreeOk(Extended(w, id, p)) && OthersSame(w, Extended(w, id, p), id)
  {
    var last := w.chain[id][|w.chain[id]| - 1];
    var w' := Extended(w, id, p);
    assert w.place[last] == In(id, |w.chain[id]| - 1);
    assert forall q | 0 <= q < |w.mem| && q != last :: w'.mem[q] == w.mem[q];
    hide Shaped, PlaceOk, OneListOk, OthersSame;
    ExtendedFree(w, w', last, p);
    hide FreeOk;
    OnlyEntryOf(w, w', id);
  }

  lemma ExtendedFree(w: World, w': World, last: nat, p: nat)
    requires FreeOk(w) && |w.place| == |w.mem| == |w'.mem| == |w'.place| && w'.free == w.free
    requires w'.freeList == w.freeList
    requires p < |w.mem| && !w.place[p].Free? && last < |w.mem| && !w.place[last].Free?
    requires forall q | 0 <= q < |w.mem| && q != last :: w'.mem[q] == w.mem[q]
    requires forall q | 0 <= q < |w.mem| && q != p :: w'.place[q] == w.place[q]
    ensures FreeOk(w')
  {
    FreeSame(w, w');
  }

  /** Tile p takes the place of the last tile of list id, which from then on is only held by the operation
      and by those who already held it. */
  predicate CanSplit(w: World, id: nat, p: nat) {
    && id in w.lists && id in w.chain && w.chain[id] != [] && |w.place| == |w.held| == |w.mem|
    && p < |w.mem| && w.lists[id].tile < |w.mem|
    && (|w.chain[id]| > 1 ==> w.chain[id][|w.chain[id]| - 2] < |w.mem|)
  }

  function SplitOff(w: World, id: nat, p: nat): World {
    if !CanSplit(w, id, p) then w else
    var l := w.lists[id];
    var n := |w.chain[id]| - 1;
    w.(mem := if n == 0 then w.mem else w.mem[w.chain[id][n - 1] := w.mem[w.chain[id][n - 1]].(next := Some(p))],
       lists := w.lists[id := Lst(if n == 0 then p else l.list, p, l.nPrevious)],
       chain := w.chain[id := w.chain[id][..n] + [p]],
       place := w.place[l.tile := Outside][p := In(id, n)],
       held := w.held[l.tile := w.held[l.tile] + 1][p := 0])
  }

  lemma SplitOffOk(w: World, id: nat, p: nat)
    requires Ok(w) && id in w.lists && id in w.chain && OneListOk(w, id)
    requires p < |w.mem| && w.place[p] == Outside && w.held[p] == 1 && w.mem[p].next == None
    ensures Ok(SplitOff(w, id, p)) && OthersSame(w, SplitOff(w, id, p), id)
  {
    SplitTilesOk(w, id, p);
    SplitOneOk(w, id, p);
    SplitRest(w, id, p);
    SplitFreeOk(w, id, p);
    hide TilesOk, OneListOk, FreeOk, OthersSame, SplitOff;
    OthersOk(w, SplitOff(w, id, p), id);
  }

  lemma SplitTilesOk(w: World, id: nat, p: nat)
    requires TilesOk(w) && id in w.lists && id in w.chain && OneListOk(w, id)
    requires p < |w.mem| && w.place[p] == Outside && w.held[p] == 1
    ensures TilesOk(SplitOff(w, id, p))
  {
    var w' := SplitOff(w, id, p);
    var n := |w.chain[id]| - 1;
    assert PlaceOk(w, p);
    assert w.place[w.chain[id][n]] == In(id, n);
    forall q | 0 <= q < |w'.mem| ensures Shaped(w'.mem[q], w.b, w.n) && PlaceOk(w', q) {
      assert PlaceOk(w, q);
    }
  }

  lemma SplitOneOk(w: World, id: nat, p: nat)
    requires TilesOk(w) && id in w.lists && id in w.chain && OneListOk(w, id)
    requires p < |w.mem| && w.place[p] == Outside && w.mem[p].next == None
    ensures OneListOk(SplitOff(w, id, p), id)
  {
    var ps, w' := w.chain[id], SplitOff(w, id, p);
    var n := |ps| - 1;
    SplitFrame(w, id, p);
    hide SplitOff, Items, TilesOk, ListOk;
    LastReplaced(w.mem, w'.mem, w.lists[id], w'.lists[id], ps, p, w.b, w.n);
    var qs := ps[..n] + [p];
    forall i | 0 <= i < |qs| ensures qs[i] < |w'.place| && w'.place[qs[i]] == In(id, i) {
      if i < n { assert qs[i] == ps[i]; }
    }
  }

  /** A chain stays a packed one when another tile takes the place of its last one. */
  lemma LastReplaced(mem: seq<Tile>, mem': seq<Tile>, l: Lst, l': Lst, ps: seq<nat>, p: nat, b: nat, n: nat)
    requires ListOk(mem, l, ps, b, n) && |mem'| == |mem| && p < |mem| && mem'[p].next == None
    requires l'.tile == p && l'.list == if |ps| == 1 then p else l.list
    requires forall i | 0 <= i < |ps| - 1 ::
               mem'[ps[i]] == if i == |ps| - 2 then mem[ps[i]].(next := Some(p)) else mem[ps[i]]
    ensures ListOk(mem', l', ps[..|ps| - 1] + [p], b, n)
  {
    var m := |ps| - 1;
    var qs := ps[..m] + [p];
    forall i | 0 <= i < m ensures Full(mem'[qs[i]], b, n) && mem'[qs[i]].next == Some(qs[i + 1]) {
      assert qs[i] == ps[i] && Full(mem[ps[i]], b, n);
      if i < m - 1 { assert qs[i + 1] == ps[i + 1]; }
    }
  }

  lemma SplitItems(w: World, id: nat, p: nat)
    requires |w.place| == |w.held| == |w.mem| && id in w.lists && id in w.chain && OneListOk(w, id)
    requires p < |w.mem| && w.place[p] == Outside && OneListOk(SplitOff(w, id, p), id)
    ensures var w' := SplitOff(w, id, p);
            && |w'.chain[id]| == |w.chain[id]| && w'.chain[id] != []
            && ItemsOf(w'.mem, w'.chain[id]) == ItemsOf(w.mem, w.chain[id][..|w.chain[id]| - 1]) + Items(w.mem[p])
            && ItemsOf(w'.mem, w'.chain[id][..|w'.chain[id]| - 1]) == ItemsOf(w.mem, w.chain[id][..|w.chain[id]| - 1])
  {
    var ps := w.chain[id];
    var n := |ps| - 1;
    var w' := SplitOff(w, id, p);
    SplitFrame(w, id, p);
    hide Items, SplitOff;
    ItemsOfSame(w.mem, w'.mem, ps[..n]);
    assert w'.chain[id][..n] == ps[..n];
  }

  /** Which tiles a split changes. */
  lemma SplitFrame(w: World, id: nat, p: nat)
    requires |w.place| == |w.held| == |w.mem| && id in w.lists && id in w.chain && OneListOk(w, id)
    requires p < |w.mem| && w.place[p] == Outside
    ensures var w', ps, n := SplitOff(w, id, p), w.chain[id], |w.chain[id]| - 1;
            && (forall i | 0 <= i < n :: ps[i] != p && ps[i] != ps[n] && w'.place[ps[i]] == In(id, i)
                                         && Items(w'.mem[ps[i]]) == Items(w.mem[ps[i]])
                                         && w'.mem[ps[i]] == (if i == n - 1 then w.mem[ps[i]].(next := Some(p))
                                                              else w.mem[ps[i]]))
            && w'.place[p] == In(id, n) && w'.mem[p] == w.mem[p]
            && |w'.mem| == |w'.place| == |w'.held| == |w.mem| && w'.free == w.free && w'.freeList == w.freeList
            && w'.b == w.b && w'.n == w.n
            && id in w'.lists && w'.lists[id] == Lst(if n == 0 then p else w.lists[id].list, p, w.lists[id].nPrevious)
            && w'.lists == w.lists[id := w'.lists[id]] && w'.chain == w.chain[id := ps[..n] + [p]]
            && (forall q | 0 <= q < |w.mem| && q != p && (w.place[q].In? ==> w.place[q].id != id) ::
                  w'.mem[q] == w.mem[q] && w'.place[q] == w.place[q])
  {
    var ps, n := w.chain[id], |w.chain[id]| - 1;
    var w' := SplitOff(w, id, p);
    assert w.place[ps[n]] == In(id, n);
    assert n > 0 ==> w.place[ps[n - 1]] == In(id, n - 1);
    hide SplitOff, ListOk, Items;
    SplitRecord(w, id, p);
    forall i | 0 <= i < n
      ensures ps[i] != p && ps[i] != ps[n] && w'.place[ps[i]] == In(id, i)
      ensures Items(w'.mem[ps[i]]) == Items(w.mem[ps[i]])
              && w'.mem[ps[i]] == (if i == n - 1 then w.mem[ps[i]].(next := Some(p)) else w.mem[ps[i]])
    {
      assert w.place[ps[i]] == In(id, i);
      SplitTileAt(w, id, p, i);
    }
    forall q | 0 <= q < |w.mem| && q != p && (w.place[q].In? ==> w.place[q].id != id)
      ensures w'.mem[q] == w.mem[q] && w'.place[q] == w.place[q]
    {
      SplitTileElsewhere(w, id, p, q);
    }
  }

  lemma SplitRecord(w: World, id: nat, p: nat)
    requires CanSplit(w, id, p)
    ensures var w', n := SplitOff(w, id, p), |w.chain[id]| - 1;
            && w'.place[p] == In(id, n) && (n == 0 || w.chain[id][n - 1] != p ==> w'.mem[p] == w.mem[p])
            && |w'.mem| == |w'.place| == |w'.held| == |w.mem| && w'.free == w.free && w'.freeList == w.freeList
            && w'.b == w.b && w'.n == w.n
            && id in w'.lists && w'.lists[id] == Lst(if n == 0 then p else w.lists[id].list, p, w.lists[id].nPrevious)
            && w'.lists == w.lists[id := w'.lists[id]] && w'.chain == w.chain[id := w.chain[id][..n] + [p]]
  {
  }

  lemma SplitTileAt(w: World, id: nat, p: nat, i: nat)
    requires CanSplit(w, id, p) && w.place[p] == Outside && i < |w.chain[id]| - 1 && w.chain[id][i] < |w.mem|
    requires w.lists[id].tile == w.chain[id][|w.chain[id]| - 1]
    requires w.place[w.chain[id][i]] == In(id, i) && w.place[w.lists[id].tile] == In(id, |w.chain[id]| - 1)
    requires w.place[w.chain[id][|w.chain[id]| - 2]] == In(id, |w.chain[id]| - 2)
    ensures var w', q := SplitOff(w, id, p), w.chain[id][i];
            && q != p && q != w.lists[id].tile && w'.place[q] == In(id, i) && Items(w'.mem[q]) == Items(w.mem[q])
            && w'.mem[q] == if i == |w.chain[id]| - 2 then w.mem[q].(next := Some(p)) else w.mem[q]
  {
  }

  lemma SplitTileElsewhere(w: World, id: nat, p: nat, q: nat)
    requires CanSplit(w, id, p) && q < |w.mem| && q != p && (w.place[q].In? ==> w.place[q].id != id)
    requires w.place[w.lists[id].tile] == In(id, |w.chain[id]| - 1)
    requires |w.chain[id]| > 1 ==> w.place[w.chain[id][|w.chain[id]| - 2]] == In(id, |w.chain[id]| - 2)
    ensures SplitOff(w, id, p).mem[q] == w.mem[q] && SplitOff(w, id, p).place[q] == w.place[q]
  {
  }

  lemma SplitRest(w: World, id: nat, p: nat)
    requires TilesOk(w) && ListsOk(w) && |w.place| == |w.held| == |w.mem| && id in w.lists && id in w.chain
    requires OneListOk(w, id)
    requires p < |w.mem| && w.place[p] == Outside
    ensures OthersSame(w, SplitOff(w, id, p), id)
  {
    hide Items, FreeOk, TilesOk, ListsOk;
    var w' := SplitOff(w, id, p);
    SplitFrame(w, id, p);
    hide ListOk, SplitOff, OneListOk;
    OnlyEntryOf(w, w', id);
  }

  lemma SplitFreeOk(w: World, id: nat, p: nat)
    requires FreeOk(w) && |w.place| == |w.held| == |w.mem| && id in w.lists && id in w.chain && OneListOk(w, id)
    requires p < |w.mem| && w.place[p] == Outside
    ensures FreeOk(SplitOff(w, id, p))
  {
    var w' := SplitOff(w, id, p);
    SplitFrame(w, id, p);
    hide OneListOk, Items, SplitOff;
    FreeSame(w, w');
  }

  // ----- effects of whole operations -----

  /** The item count of the earlier tiles is what lstCount relies on. */
  ghost predicate CountOk(w: World, id: nat) {
    OneListOk(w, id) && w.lists[id].nPrevious == |Before(w, id)|
  }

  /** The items of all tiles but the last. */
  ghost function Before(w: World, id: nat): seq<Interaction> {
    if OneListOk(w, id) then ItemsOf(w.mem, w.chain[id][..|w.chain[id]| - 1]) else []
  }

  lemma LastTile(w: World, id: nat)
    requires OneListOk(w, id)
    ensures w.lists[id].tile < |w.mem| && w.lists[id].tile < |w.place|
    ensures w.place[w.lists[id].tile] == In(id, |w.chain[id]| - 1)
    ensures Contents(w, id) == Before(w, id) + Items(w.mem[w.lists[id].tile])
  {
  }

  /** The operation kept all references held outside, and touched no data behind such a reference. */
  ghost predicate HoldersKept(w: World, w': World) {
    && |w.held| == |w.mem| <= |w'.mem| == |w'.held|
    && (forall q | 0 <= q < |w'.held| :: w'.held[q] == if q < |w.held| then w.held[q] else 0)
    && (forall q | 0 <= q < |w.mem| && w.held[q] > 0 :: w'.mem[q].data == w.mem[q].data)
  }

  /** Moreover the outside holders see the same items as before. */
  ghost predicate SnapshotsKept(w: World, w': World) {
    && |w.held| == |w.mem| <= |w'.mem|
    && forall q | 0 <= q < |w.mem| && w.held[q] > 0 :: Items(w'.mem[q]) == Items(w.mem[q])
  }

  ghost predicate Effect(w: World, w': World, id: nat) {
    OthersSame(w, w', id) && HoldersKept(w, w')
  }

  lemma EffectTrans(w: World, w': World, w'': World, id: nat)
    requires Effect(w, w', id) && Effect(w', w'', id)
    ensures Effect(w, w'', id)
  {
    OthersSameTrans(w, w', w'', id);
    hide OthersSame;
  }

  /** An untouched list keeps its content and its count. */
  lemma KeptList(w: World, w': World, j: nat)
    requires OneListOk(w, j) && Untouched(w, w', j) && w'.b == w.b && w'.n == w.n
    ensures OneListOk(w', j) && Contents(w', j) == Contents(w, j)
    ensures CountOk(w, j) ==> CountOk(w', j)
  {
    UntouchedListOk(w, w', j);
    var ps := w.chain[j];
    assert w'.chain[j] == ps && w'.lists[j] == w.lists[j];
    forall i | 0 <= i < |ps| ensures Items(w'.mem[ps[i]]) == Items(w.mem[ps[i]]) {
      assert SameTile(w.mem[ps[i]], w'.mem[ps[i]]);
    }
    hide Items, Untouched;
    ItemsOfSame(w.mem, w'.mem, ps[..|ps| - 1]);
  }

  /** What an operation on list id means for the other lists. */
  lemma OthersContents(w: World, w': World, id: nat, j: nat)
    requires ListsOk(w) && OthersSame(w, w', id) && j in w.lists && j != id
    ensures OneListOk(w, j) && OneListOk(w', j) && Contents(w', j) == Contents(w, j)
    ensures CountOk(w, j) ==> CountOk(w', j)
  {
    hide OneListOk, Untouched;
    assert OneListOk(w, j) && Untouched(w, w', j);
    KeptList(w, w', j);
  }

  lemma UntouchedAll(w: World, w': World, id: nat)
    requires ListsOk(w) && SameLists(w, w')
    requires forall j | j in w.lists :: Untouched(w, w', j)
    ensures OthersSame(w, w', id)
  {
    hide Untouched, OneListOk;
  }

  /** Taking a tile changes nothing for the lists and the outside holders. */
  lemma TakenKeeps(w: World, w1: World, id: nat, p: nat)
    requires Ok(w) && Taken(w, w1, p)
    ensures OthersSame(w, w1, id)
    ensures id in w.lists ==> OneListOk(w, id) && OneListOk(w1, id) && Contents(w1, id) == Contents(w, id)
    ensures CountOk(w, id) ==> CountOk(w1, id)
  {
    assert CountOk(w, id) ==> id in w.lists;
    hide OneListOk, Untouched;
    UntouchedAll(w, w1, id);
    if id in w.lists {
      assert OneListOk(w, id) && Untouched(w, w1, id);
      KeptList(w, w1, id);
    }
  }

  lemma ExtendEffect(w: World, w1: World, id: nat, p: nat)
    requires Ok(w) && Ok(w1) && Taken(w, w1, p) && id in w.lists && CountOk(w, id)
    requires Full(w.mem[w.lists[id].tile], w.b, w.n)
    ensures CanExtend(w1, id, p) && w1.lists == w.lists && w1.chain == w.chain && w.lists[id].tile != p && p < |w1.mem|
    ensures w1.mem[p].nBlocks == w1.mem[p].nInLast == 0 && w1.mem[p].nRefs == 1
    ensures var w2 := Extended(w1, id, p);
            && Ok(w2) && CountOk(w2, id) && Effect(w, w2, id) && SnapshotsKept(w, w2)
            && Contents(w2, id) == Contents(w, id)
  {
    TakenKeeps(w, w1, id, p);
    assert w.place[w.lists[id].tile] == In(id, |w.chain[id]| - 1);
    ExtendedOk(w1, id, p);
    ExtendedCount(w1, id, p);
    ExtendHolders(w, w1, id, p);
    hide Ok, OthersSame, HoldersKept, SnapshotsKept, Extended, Taken;
    OthersSameTrans(w, w1, Extended(w1, id, p), id);
  }

  lemma ExtendHolders(w: World, w1: World, id: nat, p: nat)
    requires Taken(w, w1, p) && CanExtend(w1, id, p)
    ensures HoldersKept(w, Extended(w1, id, p)) && SnapshotsKept(w, Extended(w1, id, p))
  {
  }

  lemma ExtendedCount(w: World, id: nat, p: nat)
    requires TilesOk(w) && CountOk(w, id) && p < |w.mem| && w.place[p] == Outside
    requires w.mem[p].nBlocks == w.mem[p].nInLast == 0
    requires OneListOk(Extended(w, id, p), id)
    requires ItemsOf(Extended(w, id, p).mem, w.chain[id]) == ItemsOf(w.mem, w.chain[id])
    ensures var w2 := Extended(w, id, p);
            CountOk(w2, id) && ItemsOf(w2.mem, w2.chain[id]) == ItemsOf(w.mem, w.chain[id])
  {
    var w2 := Extended(w, id, p);
    var ps := w.chain[id];
    var last := w.mem[w.lists[id].tile];
    ItemsLength(last, w.b, w.n);
    assert (ps + [p])[..|ps + [p]| - 1] == ps;
    assert Items(w2.mem[p]) == [];
  }

  // ----- writing and splitting, as effects -----

  /** New data and counts for the last tile of a list nobody else refers to. */
  lemma WriteEffect(w: World, id: nat, t: Tile)
    requires Ok(w) && CountOk(w, id) && w.lists[id].tile < |w.mem| && w.held[w.lists[id].tile] == 0
    requires Shaped(t, w.b, w.n) && SameLinks(t, w.mem[w.lists[id].tile])
    ensures var w' := Rewritten(w, w.lists[id].tile, t);
            && Ok(w') && CountOk(w', id) && Effect(w, w', id) && SnapshotsKept(w, w')
            && Contents(w', id) == Before(w, id) + Items(t)
  {
    var last := w.lists[id].tile;
    var w' := Rewritten(w, last, t);
    LastTile(w, id);
    RewrittenOk(w, last, t, id);
    RewrittenOneOk(w, last, t, id);
    LastTile(w', id);
    WriteHolders(w, last, t);
    hide Ok, Items, OthersSame, HoldersKept, SnapshotsKept;
  }

  lemma WriteHolders(w: World, p: nat, t: Tile)
    requires p < |w.mem| == |w.held| && w.held[p] == 0
    ensures HoldersKept(w, Rewritten(w, p, t)) && SnapshotsKept(w, Rewritten(w, p, t))
  {
  }

  predicate SameLinks(t: Tile, t': Tile) {
    t.next == t'.next && t.nRefs == t'.nRefs
  }

  /** cloneTile: the counts, and all blocks that hold items. */
  function Cloned(dst: Tile, src: Tile): Tile {
    var k := src.nBlocks + (if src.nInLast > 0 then 1 else 0);
    if k > |src.data| || k > |dst.data| then dst else
    dst.(nBlocks := src.nBlocks, nInLast := src.nInLast, data := src.data[..k] + dst.data[k..])
  }

  lemma ClonedItems(dst: Tile, src: Tile, b: nat, n: nat)
    requires Shaped(dst, b, n) && Shaped(src, b, n)
    ensures Shaped(Cloned(dst, src), b, n) && SameLinks(Cloned(dst, src), dst) && Items(Cloned(dst, src)) == Items(src)
  {
    FlatSame(Cloned(dst, src).data, src.data, src.nBlocks);
  }

  /** The tile p taken in w1 becomes a private copy of the last tile, whose reference is given back. */
  function SplitResult(w1: World, id: nat, p: nat): World {
    if id !in w1.lists || p >= |w1.mem| || w1.lists[id].tile >= |w1.mem| then w1 else
    Dropped(SplitOff(Rewritten(w1, p, Cloned(w1.mem[p], w1.mem[w1.lists[id].tile])), id, p), w1.lists[id].tile)
  }

  /** The copy: still no list changed. */
  lemma SplitCopy(w: World, w1: World, id: nat, p: nat)
    requires Ok(w) && Ok(w1) && Taken(w, w1, p) && CountOk(w, id)
    ensures w1.lists == w.lists && w1.chain == w.chain && id in w.lists
    ensures w.lists[id].tile < |w.mem| <= |w1.mem| && w.lists[id].tile != p
    ensures var w2 := Rewritten(w1, p, Cloned(w1.mem[p], w1.mem[w.lists[id].tile]));
            && Ok(w2) && OthersSame(w, w2, id) && CountOk(w2, id) && Contents(w2, id) == Contents(w, id)
            && p < |w2.mem| && w.lists[id].tile < |w2.mem| && Items(w2.mem[p]) == Items(w2.mem[w.lists[id].tile])
            && w2.place[w.lists[id].tile] == In(id, |w.chain[id]| - 1) && |w2.chain[id]| == |w.chain[id]| > 0
            && w2.place[p] == Outside && w2.held[p] == 1 && w2.mem[p].next == None
  {
    TakenKeeps(w, w1, id, p);
    var last := w.lists[id].tile;
    assert w1.place[last] == In(id, |w.chain[id]| - 1) by { assert OneListOk(w1, id); }
    ClonedItems(w1.mem[p], w1.mem[last], w1.b, w1.n);
    OutsideRewrite(w1, p, Cloned(w1.mem[p], w1.mem[last]), id);
    hide Ok, OneListOk, CountOk, Taken;
    OthersSameTrans(w, w1, Rewritten(w1, p, Cloned(w1.mem[p], w1.mem[last])), id);
  }

  /** Changing a tile that is in no list. */
  lemma OutsideRewrite(w: World, p: nat, t: Tile, id: nat)
    requires Ok(w) && CountOk(w, id) && p < |w.mem| && w.place[p] == Outside && Shaped(t, w.b, w.n)
    requires SameLinks(t, w.mem[p])
    ensures var w' := Rewritten(w, p, t);
            Ok(w') && OthersSame(w, w', id) && CountOk(w', id) && Contents(w', id) == Contents(w, id)
  {
    var w' := Rewritten(w, p, t);
    TileAt(w, p);
    assert OneListOk(w, id) && id in w.lists;
    hide Ok, OneListOk, CountOk, Contents, PlaceOk, Shaped, Untouched, OthersSame;
    RewrittenOk(w, p, t, id);
    OutsideUntouched(w, p, t);
    KeptList(w, w', id);
  }

  lemma OutsideUntouched(w: World, p: nat, t: Tile)
    requires Ok(w) && p < |w.mem| == |w.place| && w.place[p] == Outside && SameLinks(t, w.mem[p])
    ensures var w' := Rewritten(w, p, t);
            w'.b == w.b && w'.n == w.n && forall id | id in w.lists :: Untouched(w, w', id)
  {
    hide Ok, Untouched, ListsOk;
    NoListTouched(w, Rewritten(w, p, t));
  }

  /** Swapping the copy in. */
  lemma SplitSwap(w: World, id: nat, p: nat)
    requires Ok(w) && CountOk(w, id) && p < |w.mem| && w.place[p] == Outside && w.held[p] == 1 && w.mem[p].next == None
    requires w.lists[id].tile < |w.mem| && Items(w.mem[p]) == Items(w.mem[w.lists[id].tile])
    ensures CanSplit(w, id, p)
    ensures var w' := SplitOff(w, id, p);
            && w.lists[id].tile < |w'.mem| == |w'.held| && w'.held[w.lists[id].tile] > 0
            && Ok(w') && OthersSame(w, w', id) && CountOk(w', id) && Contents(w', id) == Contents(w, id)
  {
    SplitOffOk(w, id, p);
    SplitHeld(w, id, p);
    assert OneListOk(SplitOff(w, id, p), id) by { assert ListsOk(SplitOff(w, id, p)); }
    SplitItems(w, id, p);
    SplitFrame(w, id, p);
    hide Ok, SplitOff, OthersSame, ListOk, Items;
  }

  lemma SplitHeld(w: World, id: nat, p: nat)
    requires OneListOk(w, id) && |w.place| == |w.held| == |w.mem| && p < |w.mem| && w.place[p] == Outside
    ensures CanSplit(w, id, p)
    ensures var w' := SplitOff(w, id, p);
            w.lists[id].tile < |w'.mem| == |w'.held| && w'.held[w.lists[id].tile] > 0
  {
    assert w.place[w.lists[id].tile] == In(id, |w.chain[id]| - 1);
  }

  lemma SplitEffect(w: World, w1: World, id: nat, p: nat)
    requires Ok(w) && Ok(w1) && Taken(w, w1, p) && CountOk(w, id)
    requires w.mem[w.lists[id].tile].nRefs > 1
    ensures w1.lists == w.lists && w1.chain == w.chain && w.lists[id].tile < |w1.mem| && w.lists[id].tile != p
    ensures p < |w1.mem|
    ensures var w2 := Rewritten(w1, p, Cloned(w1.mem[p], w1.mem[w.lists[id].tile]));
            var w3 := SplitOff(w2, id, p);
            && Ok(w2) && CanSplit(w2, id, p) && OneListOk(w2, id)
               && (w2.lists[id].tile == w2.lists[id].list <==> |w2.chain[id]| == 1)
            && Ok(w3) && w.lists[id].tile < |w3.held| && w3.held[w.lists[id].tile] > 0
    ensures var w4 := SplitResult(w1, id, p);
            && Ok(w4) && CountOk(w4, id) && Effect(w, w4, id) && SnapshotsKept(w, w4)
               && Contents(w4, id) == Contents(w, id)
            && w4.lists[id].tile == p && p < |w4.mem| && w4.held[p] == 0 && w4.mem[p].nRefs == 1
  {
    hide Ok, OthersSame, CountOk, Taken, HoldersKept, SnapshotsKept, Contents, Items, SplitOff, Cloned;
    SplitCopy(w, w1, id, p);
    var w2 := Rewritten(w1, p, Cloned(w1.mem[p], w1.mem[w.lists[id].tile]));
    SplitSwap(w2, id, p);
    SingleTile(w2, id);
    var w3 := SplitOff(w2, id, p);
    DropKeeps(w3, w.lists[id].tile, id);
    SplitHolders(w, w1, id, p);
    SplitTail(w, w1, id, p);
    OthersSameTrans(w, w2, w3, id);
    OthersSameTrans(w, w3, Dropped(w3, w.lists[id].tile), id);
  }

  lemma DropKeeps(w: World, p: nat, id: nat)
    requires Ok(w) && CountOk(w, id) && p < |w.mem| && p < |w.held| && w.held[p] > 0
    ensures var w' := Dropped(w, p);
            Ok(w') && OthersSame(w, w', id) && CountOk(w', id) && Contents(w', id) == Contents(w, id)
  {
    DroppedOk(w, p);
    hide TilesOk, FreeOk, OneListOk, Untouched, Dropped;
    UntouchedAll(w, Dropped(w, p), id);
    KeptList(w, Dropped(w, p), id);
  }

  lemma SingleTile(w: World, id: nat)
    requires CountOk(w, id)
    ensures OneListOk(w, id) && (w.lists[id].tile == w.lists[id].list <==> |w.chain[id]| == 1)
  {
    assert w.place[w.chain[id][0]] == In(id, 0);
    assert w.place[w.chain[id][|w.chain[id]| - 1]] == In(id, |w.chain[id]| - 1);
  }

  /** The new last tile is private and has the counts of the old one. */
  lemma SplitTail(w: World, w1: World, id: nat, p: nat)
    requires Taken(w, w1, p) && id in w.lists && w.lists[id].tile < |w.mem| && w.lists[id].tile != p
    requires CanSplit(Rewritten(w1, p, Cloned(w1.mem[p], w1.mem[w.lists[id].tile])), id, p)
    ensures var w4 := SplitResult(w1, id, p);
            && id in w4.lists && w4.lists[id].tile == p && p < |w4.mem| && p < |w4.held| && w4.held[p] == 0
               && w4.mem[p].nRefs == 1
  {
  }

  lemma SplitHolders(w: World, w1: World, id: nat, p: nat)
    requires Taken(w, w1, p) && id in w.lists && w.lists[id].tile < |w.mem| && w.lists[id].tile != p
    requires CanSplit(Rewritten(w1, p, Cloned(w1.mem[p], w1.mem[w.lists[id].tile])), id, p)
    requires w.mem[w.lists[id].tile].nRefs > 1
    ensures HoldersKept(w, SplitResult(w1, id, p)) && SnapshotsKept(w, SplitResult(w1, id, p))
  {
    var w4 := SplitResult(w1, id, p);
    hide Untouched;
    SplitSizes(w, w1, id, p);
    hide CanSplit, SplitResult;
    forall q | 0 <= q < |w4.mem|
      ensures w4.held[q] == if q < |w.held| then w.held[q] else 0
      ensures q < |w.mem| && w.held[q] > 0 ==> w4.mem[q].data == w.mem[q].data && Items(w4.mem[q]) == Items(w.mem[q])
    {
      SplitHolder(w, w1, id, p, q);
      if q < |w.mem| && w.held[q] > 0 { CountsGiveItems(w.mem[q], w4.mem[q]); }
    }
    hide Taken, Items;
  }

  lemma SplitSizes(w: World, w1: World, id: nat, p: nat)
    requires Taken(w, w1, p) && id in w.lists && w.lists[id].tile < |w.mem|
    requires CanSplit(Rewritten(w1, p, Cloned(w1.mem[p], w1.mem[w.lists[id].tile])), id, p)
    ensures var w4 := SplitResult(w1, id, p); |w.held| == |w.mem| <= |w4.mem| == |w4.held| == |w1.mem|
  {
    hide Untouched, Cloned;
  }

  lemma CountsGiveItems(t: Tile, t': Tile)
    requires t'.data == t.data && t'.nBlocks == t.nBlocks && t'.nInLast == t.nInLast
    ensures Items(t') == Items(t)
  {
  }

  lemma TakenTile(w: World, w1: World, p: nat, q: nat)
    requires Taken(w, w1, p) && q < |w1.mem|
    ensures |w1.held| == |w1.mem| && |w.held| == |w.mem| && (p < |w.mem| ==> w.held[p] == 0)
    ensures q != p ==> q < |w.mem| && w1.mem[q] == w.mem[q] && w1.held[q] == w.held[q]
  {
    hide Untouched;
    var t := w1.mem[q];
  }

  /** Every tile but the copy keeps its items, and after all three changes the references held outside are those
      before. */
  lemma SplitHolder(w: World, w1: World, id: nat, p: nat, q: nat)
    requires Taken(w, w1, p) && id in w.lists && w.lists[id].tile < |w.mem| && w.lists[id].tile != p
    requires CanSplit(Rewritten(w1, p, Cloned(w1.mem[p], w1.mem[w.lists[id].tile])), id, p)
    requires w.mem[w.lists[id].tile].nRefs > 1 && q < |SplitResult(w1, id, p).mem| == |SplitResult(w1, id, p).held|
    ensures var w4 := SplitResult(w1, id, p);
            && w4.held[q] == (if q < |w.held| then w.held[q] else 0)
            && (q < |w.mem| && w.held[q] > 0 ==>
                  w4.mem[q].data == w.mem[q].data && w4.mem[q].nBlocks == w.mem[q].nBlocks
                      && w4.mem[q].nInLast == w.mem[q].nInLast)
  {
    hide Untouched, Cloned;
    var last := w.lists[id].tile;
    assert w1.mem[last] == w.mem[last] && w1.held[last] == w.held[last] && w1.lists == w.lists && w1.held[p] == 1;
    SplitSizes(w, w1, id, p);
    TakenTile(w, w1, p, q);
    hide Taken;
  }

  lemma EffectOfTwo(w: World, w': World, w'': World, id: nat)
    requires Effect(w, w', id) && SnapshotsKept(w, w') && Effect(w', w'', id) && SnapshotsKept(w', w'')
    ensures Effect(w, w'', id) && SnapshotsKept(w, w'')
  {
    EffectTrans(w, w', w'', id);
    hide OthersSame;
  }

  lemma NoEffect(w: World, id: nat)
    requires Ok(w)
    ensures Effect(w, w, id) && SnapshotsKept(w, w)
  {
    hide FreeOk;
    forall j | j in w.lists ensures Untouched(w, w, j) { assert OneListOk(w, j); }
  }

  /** The last tile of a list is private exactly when its count says so. */
  lemma PrivateTile(w: World, id: nat)
    requires Ok(w) && CountOk(w, id)
    ensures var p := w.lists[id].tile;
            && id in w.lists && p < |w.mem| == |w.held| && w.mem[p].nRefs == w.held[p] + 1
            && Shaped(w.mem[p], w.b, w.n) && w.n > 0 && w.mem[p].nBlocks < w.b == |w.mem[p].data|
            && w.mem[p].nInLast <= w.n == |w.mem[p].data[w.mem[p].nBlocks]|
            && Contents(w, id) == Before(w, id) + Items(w.mem[p])
  {
    LastTile(w, id);
    assert PlaceOk(w, w.lists[id].tile);
  }

  // ----- giving back a chain of tiles -----

  /** Tiles of no list, linked from `first`, each held (once more) by the operation. */
  ghost predicate LooseChain(w: World, first: Option<nat>, ps: seq<nat>) {
    && Linked(w.mem, first, ps)
    && (forall i | 0 <= i < |ps| ::
          ps[i] < |w.place| && ps[i] < |w.held| && w.place[ps[i]] == Outside && w.held[ps[i]] > 0)
    && (forall i, j | 0 <= i < j < |ps| :: ps[i] != ps[j])
  }

  ghost function DroppedAll(w: World, ps: seq<nat>): World
    decreases |ps|
  {
    if ps == [] then w else DroppedAll(Dropped(w, ps[0]), ps[1..])
  }

  lemma DropLoose(w: World, first: Option<nat>, ps: seq<nat>)
    requires LooseChain(w, first, ps) && ps != [] && |w.place| == |w.held| == |w.mem|
    ensures LooseChain(Dropped(w, ps[0]), w.mem[ps[0]].next, ps[1..])
  {
    var w', qs := Dropped(w, ps[0]), ps[1..];
    forall i | 0 <= i < |qs| ensures qs[i] != ps[0] && w'.mem[qs[i]] == w.mem[qs[i]] {
    }
  }

  /** Counts and data of tiles survive on the free list until they are used again. */
  ghost predicate TilesKept(w: World, w': World) {
    && |w'.mem| == |w.mem| == |w.held| == |w'.held|
    && forall q | 0 <= q < |w.mem| :: Items(w'.mem[q]) == Items(w.mem[q]) && w'.mem[q].data == w.mem[q].data
  }

  lemma DroppedKeeps(w: World, p: nat)
    requires |w.place| == |w.held| == |w.mem| && p < |w.mem| && w.held[p] > 0 && w.mem[p].nRefs > 0
    ensures TilesKept(w, Dropped(w, p))
    ensures forall q | 0 <= q < |w.held| :: Dropped(w, p).held[q] + (if q == p then 1 else 0) == w.held[q]
  {
  }

  /** From w to w' the tiles ps each lost one outside reference; nothing else changed for the lists. */
  ghost predicate GivenBack(w: World, w': World, ps: seq<nat>) {
    && SameLists(w, w') && TilesKept(w, w')
    && (forall j | j in w.lists :: Untouched(w, w', j))
    && (forall q | 0 <= q < |w.held| :: w'.held[q] + (if q in ps then 1 else 0) == w.held[q])
  }

  lemma GivenBackNone(w: World)
    requires Ok(w)
    ensures GivenBack(w, w, [])
  {
    forall j | j in w.lists ensures Untouched(w, w, j) { assert OneListOk(w, j); }
    hide FreeOk, ListsOk;
  }

  lemma GivenBackMore(w: World, w1: World, w': World, ps: seq<nat>)
    requires ps != [] && GivenBack(w1, w', ps[1..]) && ps[0] !in ps[1..]
    requires SameLists(w, w1) && TilesKept(w, w1) && (forall j | j in w.lists :: Untouched(w, w1, j))
    requires forall q | 0 <= q < |w.held| :: w1.held[q] + (if q == ps[0] then 1 else 0) == w.held[q]
    ensures GivenBack(w, w', ps)
  {
    hide Items;
    forall j | j in w.lists ensures Untouched(w, w', j) {
      assert Untouched(w, w1, j) && Untouched(w1, w', j);
    }
    assert forall q :: q in ps <==> q == ps[0] || q in ps[1..];
  }

  lemma {:induction false} DroppedAllOk(w: World, first: Option<nat>, ps: seq<nat>)
    requires Ok(w) && LooseChain(w, first, ps)
    ensures Ok(DroppedAll(w, ps)) && GivenBack(w, DroppedAll(w, ps), ps)
    decreases |ps|
  {
    if ps == [] {
      GivenBackNone(w);
    } else {
      var p, w1 := ps[0], Dropped(w, ps[0]);
      DroppedOk(w, p);
      DroppedKeeps(w, p);
      DropLoose(w, first, ps);
      assert p !in ps[1..];
      hide Ok, LooseChain, GivenBack, TilesKept, SameLists, Untouched, Dropped;
      DroppedAllOk(w1, w.mem[p].next, ps[1..]);
      GivenBackMore(w, w1, DroppedAll(w1, ps[1..]), ps);
    }
  }

  lemma {:induction false} LooseHead(w: World, first: Option<nat>, ps: seq<nat>)
    requires Ok(w) && LooseChain(w, first, ps) && first != None
    ensures ps != [] && first.value == ps[0] && ps[0] < |w.mem| && ps[0] < |w.held| && w.held[ps[0]] > 0
    ensures DroppedAll(w, ps) == DroppedAll(Dropped(w, ps[0]), ps[1..])
    ensures LooseChain(Dropped(w, ps[0]), w.mem[ps[0]].next, ps[1..])
  {
    DropLoose(w, first, ps);
  }

  lemma {:induction false} LooseEnd(w: World, ps: seq<nat>)
    requires LooseChain(w, None, ps)
    ensures DroppedAll(w, ps) == w
  {
  }

  // ----- taking a list apart, cutting it and starting it -----

  /** The tiles of list id from position k on, once loosened, form a chain the operation can give back. */
  lemma LoosenedChain(w: World, id: nat, k: nat, w': World)
    requires OneListOk(w, id) && |w.place| == |w.held| == |w.mem| && k <= |w.chain[id]|
    requires w'.place == Loosened(w, id, k).place && w'.held == Loosened(w, id, k).held && |w'.mem| == |w.mem|
    requires forall i | k <= i < |w.chain[id]| :: w'.mem[w.chain[id][i]] == w.mem[w.chain[id][i]]
    ensures LooseChain(w', if k < |w.chain[id]| then Some(w.chain[id][k]) else None, w.chain[id][k..])
  {
    var ps := w.chain[id];
    var qs := ps[k..];
    hide Loosened, Beyond, ListOk;
    forall i | 0 <= i < |qs|
      ensures qs[i] == ps[k + i] && w.place[qs[i]] == In(id, k + i) && w'.place[qs[i]] == Outside && w'.held[qs[i]] > 0
    {
      LoosenedTile(w, id, k, qs[i]);
    }
    assert Linked(w'.mem, if k < |ps| then Some(ps[k]) else None, qs)
           by { LinkedSuffix(w.mem, w'.mem, w.lists[id], ps, k, w.b, w.n); }
    hide Linked;
  }

  lemma LoosenedTile(w: World, id: nat, k: nat, q: nat)
    requires |w.place| == |w.held| && q < |w.place| && w.place[q].In? && w.place[q].id == id && w.place[q].pos >= k
    ensures Loosened(w, id, k).place[q] == Outside && Loosened(w, id, k).held[q] == w.held[q] + 1
  {
  }

  lemma LinkedSuffix(mem: seq<Tile>, mem': seq<Tile>, l: Lst, ps: seq<nat>, k: nat, b: nat, n: nat)
    requires ListOk(mem, l, ps, b, n) && k <= |ps| && |mem'| == |mem|
    requires forall i | k <= i < |ps| :: mem'[ps[i]] == mem[ps[i]]
    ensures Linked(mem', if k < |ps| then Some(ps[k]) else None, ps[k..])
  {
    var qs := ps[k..];
    forall i | 0 <= i < |qs| - 1 ensures mem'[qs[i]].next == Some(qs[i + 1]) {
      assert qs[i] == ps[k + i] && qs[i + 1] == ps[k + i + 1];
    }
  }

  /** Loosening the tiles and giving them back leaves the outside references as they were. */
  lemma LoosenedHeld(w: World, id: nat, k: nat, w': World, w'': World)
    requires OneListOk(w, id) && TilesOk(w) && k <= |w.chain[id]|
    requires w'.held == Loosened(w, id, k).held && GivenBack(w', w'', w.chain[id][k..])
    ensures w''.held == w.held
  {
    var qs := w.chain[id][k..];
    forall q | 0 <= q < |w.held| ensures w''.held[q] == w.held[q] && (q in qs <==> Beyond(w, id, k, q)) {
      assert PlaceOk(w, q);
      if Beyond(w, id, k, q) { assert qs[w.place[q].pos - k] == q; }
      if q in qs {
        var i :| 0 <= i < |qs| && qs[i] == q;
        assert w.place[w.chain[id][k + i]] == In(id, k + i);
      }
    }
  }

  /** The checkpoint describes a beginning of list id that ends in its tile k-1. */
  ghost predicate Fits(w: World, id: nat, cp: CheckPt, k: nat) {
    && OneListOk(w, id) && 0 < k <= |w.chain[id]| && cp.nBlocks < w.b && cp.nInLast <= w.n
    && cp.nPrevious == |ItemsOf(w.mem, w.chain[id][..k - 1])|
    && Count(cp.nBlocks, cp.nInLast, w.n) <= |Items(w.mem[w.chain[id][k - 1]])|
  }

  /** The number of items a checkpoint stands for. */
  function Total(cp: CheckPt, n: nat): nat {
    cp.nPrevious + Count(cp.nBlocks, cp.nInLast, n)
  }

  lemma {:induction false} ItemsAround(mem: seq<Tile>, ps: seq<nat>, k: nat)
    requires 0 < k <= |ps| && forall i | 0 <= i < |ps| :: ps[i] < |mem|
    ensures ItemsOf(mem, ps) == ItemsOf(mem, ps[..k - 1]) + Items(mem[ps[k - 1]]) + ItemsOf(mem, ps[k..])
  {
    hide Items, ItemsOf;
    assert ps == ps[..k - 1] + [ps[k - 1]] + ps[k..];
    ItemsOfParts(mem, ps[..k - 1], ps[k - 1], ps[k..]);
  }

  lemma {:induction false} ItemsOfParts(mem: seq<Tile>, ps: seq<nat>, p: nat, qs: seq<nat>)
    requires p < |mem| && forall i | 0 <= i < |ps| :: ps[i] < |mem|
    requires forall i | 0 <= i < |qs| :: qs[i] < |mem|
    ensures ItemsOf(mem, ps + [p] + qs) == ItemsOf(mem, ps) + Items(mem[p]) + ItemsOf(mem, qs)
  {
    hide Items, ItemsOf;
    ItemsOfSnoc(mem, ps, p);
    ItemsOfConcat(mem, ps + [p], qs);
  }

  lemma {:induction false} ItemsOfSnoc(mem: seq<Tile>, ps: seq<nat>, p: nat)
    requires p < |mem| && forall i | 0 <= i < |ps| :: ps[i] < |mem|
    ensures ItemsOf(mem, ps + [p]) == ItemsOf(mem, ps) + Items(mem[p])
  {
    assert (ps + [p])[..|ps|] == ps;
  }

  lemma CutContents(w: World, id: nat, cp: CheckPt, k: nat)
    requires Fits(w, id, cp, k) && OneListOk(Cut(w, id, k, cp), id) && |w.place| == |w.held| == |w.mem|
    requires Shaped(w.mem[w.chain[id][k - 1]], w.b, w.n)
    ensures var w1 := Cut(w, id, k, cp);
            CountOk(w1, id) && Total(cp, w.n) <= |Contents(w, id)|
                && Contents(w1, id) == Contents(w, id)[..Total(cp, w.n)]
  {
    hide Shaped, Cut, ListOk, Items, Count;
    CutItemsOf(w, id, cp, k);
    LastTile(Cut(w, id, k, cp), id);
    var last := w.mem[w.chain[id][k - 1]];
    CutItems(last, cp.nBlocks, cp.nInLast, w.b, w.n);
    ItemsAround(w.mem, w.chain[id], k);
    CutMiddle(ItemsOf(w.mem, w.chain[id][..k - 1]), Items(last), ItemsOf(w.mem, w.chain[id][k..]),
              Count(cp.nBlocks, cp.nInLast, w.n));
  }

  lemma CutMiddle(a: seq<Interaction>, b: seq<Interaction>, c: seq<Interaction>, m: nat)
    requires m <= |b|
    ensures (a + b + c)[..|a| + m] == a + b[..m]
  {
  }

  lemma CutItemsOf(w: World, id: nat, cp: CheckPt, k: nat)
    requires OneListOk(w, id) && 0 < k <= |w.chain[id]| && |w.place| == |w.held| == |w.mem|
    requires OneListOk(Cut(w, id, k, cp), id)
    ensures var w1, last := Cut(w, id, k, cp), w.chain[id][k - 1];
            && w1.lists[id] == Lst(w.lists[id].list, last, cp.nPrevious) && last < |w1.mem|
            && Items(w1.mem[last]) == Items(w.mem[last].(nBlocks := cp.nBlocks, nInLast := cp.nInLast))
            && Before(w1, id) == ItemsOf(w.mem, w.chain[id][..k - 1])
  {
    var ps := w.chain[id];
    var w1 := Cut(w, id, k, cp);
    assert w1.chain[id][..k - 1] == ps[..k - 1];
    forall i | 0 <= i < k - 1 ensures w1.mem[ps[i]] == w.mem[ps[i]] {
      assert w.place[ps[i]] == In(id, i) && w.place[ps[k - 1]] == In(id, k - 1);
    }
    ItemsOfSame(w.mem, w1.mem, ps[..k - 1]);
  }

  lemma RestoreEffect(w: World, id: nat, cp: CheckPt, k: nat)
    requires Ok(w) && Fits(w, id, cp, k)
    ensures var w1 := Cut(w, id, k, cp);
            && Ok(w1) && w.chain[id][k - 1] < |w.mem|
               && LooseChain(w1, w.mem[w.chain[id][k - 1]].next, w.chain[id][k..])
            && forall w2 | Ok(w2) && GivenBack(w1, w2, w.chain[id][k..]) ::
                 && CountOk(w2, id) && Effect(w, w2, id)
                 && Total(cp, w.n) <= |Contents(w, id)| && Contents(w2, id) == Contents(w, id)[..Total(cp, w.n)]
  {
    var w1 := Cut(w, id, k, cp);
    CutOk(w, id, k, cp);
    assert OneListOk(w1, id) by { assert ListsOk(w1); }
    assert Shaped(w.mem[w.chain[id][k - 1]], w.b, w.n);
    CutContents(w, id, cp, k);
    CutChain(w, id, cp, k);
    hide Ok, OneListOk, Cut, Contents, OthersSame;
    forall w2 | Ok(w2) && GivenBack(w1, w2, w.chain[id][k..])
      ensures CountOk(w2, id) && Effect(w, w2, id) && Contents(w2, id) == Contents(w, id)[..Total(cp, w.n)]
    {
      CutAndGiven(w, id, cp, k, w2);
    }
  }

  lemma CutChain(w: World, id: nat, cp: CheckPt, k: nat)
    requires Ok(w) && Fits(w, id, cp, k)
    ensures w.chain[id][k - 1] < |w.mem|
    ensures LooseChain(Cut(w, id, k, cp), w.mem[w.chain[id][k - 1]].next, w.chain[id][k..])
  {
    var ps := w.chain[id];
    forall i | k <= i < |ps| ensures ps[i] != ps[k - 1] {
      assert w.place[ps[i]] == In(id, i) && w.place[ps[k - 1]] == In(id, k - 1);
    }
    LoosenedChain(w, id, k, Cut(w, id, k, cp));
  }

  lemma CutAndGiven(w: World, id: nat, cp: CheckPt, k: nat, w2: World)
    requires Ok(w) && Fits(w, id, cp, k) && CountOk(Cut(w, id, k, cp), id) && OthersSame(w, Cut(w, id, k, cp), id)
    requires Ok(Cut(w, id, k, cp)) && GivenBack(Cut(w, id, k, cp), w2, w.chain[id][k..])
    ensures CountOk(w2, id) && Effect(w, w2, id) && Contents(w2, id) == Contents(Cut(w, id, k, cp), id)
  {
    var w1 := Cut(w, id, k, cp);
    CutHolders(w, id, cp, k, w2);
    hide OneListOk, HoldersKept, GivenBack, Cut, TilesOk, FreeOk;
    GivenKeeps(w1, w2, w.chain[id][k..], id);
    OthersSameTrans(w, w1, w2, id);
  }

  lemma CutHolders(w: World, id: nat, cp: CheckPt, k: nat, w2: World)
    requires TilesOk(w) && Fits(w, id, cp, k) && GivenBack(Cut(w, id, k, cp), w2, w.chain[id][k..])
    ensures HoldersKept(w, w2)
  {
    LoosenedHeld(w, id, k, Cut(w, id, k, cp), w2);
    hide Shaped, PlaceOk, Items;
  }

  lemma RestoreStart(w: World, id: nat, cp: CheckPt, k: nat)
    requires Ok(w) && CountOk(w, id) && GoodCheckPt(cp, k, w.b, w.n) && Total(cp, w.n) <= |Contents(w, id)|
    ensures OneListOk(w, id) && Fits(w, id, cp, k) && w.chain[id][k - 1] < |w.mem| && |w.place| == |w.held|
    ensures Ok(Cut(w, id, k, cp))
    ensures LooseChain(Cut(w, id, k, cp), w.mem[w.chain[id][k - 1]].next, w.chain[id][k..])
  {
    FitsAfter(w, id, cp, k);
    RestoreEffect(w, id, cp, k);
  }

  lemma RestoreEnd(w: World, id: nat, cp: CheckPt, k: nat, w2: World)
    requires Ok(w) && GoodCheckPt(cp, k, w.b, w.n) && Fits(w, id, cp, k)
    requires Ok(w2) && GivenBack(Cut(w, id, k, cp), w2, w.chain[id][k..])
    ensures CountOk(w2, id) && Effect(w, w2, id) && Tight(w2, id) && w2.lists.Keys == w.lists.Keys
    ensures w.chain[id][k - 1] < |w.mem| == |w.held| && (SnapshotsKept(w, w2) <==> CutUnseen(w, w.chain[id][k - 1], cp))
    ensures Total(cp, w.n) <= |Contents(w, id)| && Contents(w2, id) == Contents(w, id)[..Total(cp, w.n)]
  {
    RestoreEffect(w, id, cp, k);
    RestoreTight(w, id, cp, k, w2);
    RestoreSnapshotsIff(w, id, cp, k, w2);
  }

  lemma RestoreTight(w: World, id: nat, cp: CheckPt, k: nat, w2: World)
    requires OneListOk(w, id) && GoodCheckPt(cp, k, w.b, w.n) && k <= |w.chain[id]| && w.chain[id][k - 1] < |w.mem|
    requires |w.place| == |w.held| && GivenBack(Cut(w, id, k, cp), w2, w.chain[id][k..])
    ensures Tight(w2, id) && w2.lists.Keys == w.lists.Keys
  {
    var w1 := Cut(w, id, k, cp);
    assert Untouched(w1, w2, id);
    assert w1.chain[id][k - 1] == w.chain[id][k - 1];
    hide Items, ListOk, Shaped, Loosened;
  }

  /** Who holds the tile that a restore cuts to sees the same items as before exactly when its counts do not change;
      all other holders do. */
  lemma RestoreSnapshotsIff(w: World, id: nat, cp: CheckPt, k: nat, w2: World)
    requires Ok(w) && Fits(w, id, cp, k) && GivenBack(Cut(w, id, k, cp), w2, w.chain[id][k..])
    ensures w.chain[id][k - 1] < |w.mem| == |w.held|
    ensures SnapshotsKept(w, w2) <==> CutUnseen(w, w.chain[id][k - 1], cp)
  {
    CutTile(w, id, cp, k);
    var p := w.chain[id][k - 1];
    var t := w.mem[p];
    TileAt(w, p);
    assert Count(cp.nBlocks, cp.nInLast, w.n) <= |Items(t)| && cp.nBlocks < w.b && cp.nInLast <= w.n;
    hide Items, Cut, Shaped, PlaceOk, TilesOk, FreeOk, ListsOk, OneListOk, Fits, Count;
    CutItems(t, cp.nBlocks, cp.nInLast, w.b, w.n);
    ItemsRestored(w, id, cp, k, w2);
    hide GivenBack, Ok;
    var t' := t.(nBlocks := cp.nBlocks, nInLast := cp.nInLast);
    assert Items(t') == Items(t) <==> Count(cp.nBlocks, cp.nInLast, w.n) == |Items(t)|;
    SnapshotsIff(w, w2, p, t');
  }

  lemma SnapshotsIff(w: World, w2: World, p: nat, t: Tile)
    requires p < |w.mem| == |w.held| == |w2.mem|
    requires forall q | 0 <= q < |w.mem| :: Items(w2.mem[q]) == Items(if q == p then t else w.mem[q])
    ensures SnapshotsKept(w, w2) <==> w.held[p] == 0 || Items(t) == Items(w.mem[p])
  {
    hide Items;
    assert Items(w2.mem[p]) == Items(t);
  }

  /** Only the tile that is cut to can have other items. */
  lemma ItemsRestored(w: World, id: nat, cp: CheckPt, k: nat, w2: World)
    requires Ok(w) && Fits(w, id, cp, k) && GivenBack(Cut(w, id, k, cp), w2, w.chain[id][k..])
    ensures w.chain[id][k - 1] < |w.mem| == |w.held| == |w2.mem|
    ensures var p := w.chain[id][k - 1];
            forall q | 0 <= q < |w.mem| :: Items(w2.mem[q])
              == Items(if q == p then w.mem[q].(nBlocks := cp.nBlocks, nInLast := cp.nInLast) else w.mem[q])
  {
    CutTile(w, id, cp, k);
    hide Ok, Fits, Items, Cut, Untouched;
    var w1 := Cut(w, id, k, cp);
    forall q | 0 <= q < |w.mem| ensures Items(w2.mem[q]) == Items(w1.mem[q]) { }
  }

  lemma CutTile(w: World, id: nat, cp: CheckPt, k: nat)
    requires Ok(w) && Fits(w, id, cp, k)
    ensures var p, w1 := w.chain[id][k - 1], Cut(w, id, k, cp);
            && p < |w.mem| == |w1.mem| == |w.held| && (forall q | 0 <= q < |w.mem| && q != p :: w1.mem[q] == w.mem[q])
            && Items(w1.mem[p]) == Items(w.mem[p].(nBlocks := cp.nBlocks, nInLast := cp.nInLast))
  {
    ListStart(w, id);
    var p := w.chain[id][k - 1];
    TileAt(w, p);
    hide FreeOk, TilesOk, ListsOk, OneListOk, PlaceOk, Shaped, Count, Items, ItemsOf;
    CountsGiveItems(w.mem[p].(nBlocks := cp.nBlocks, nInLast := cp.nInLast), Cut(w, id, k, cp).mem[p]);
  }

  /** Nobody outside holds tile p, or the checkpoint has all its items. */
  ghost predicate CutUnseen(w: World, p: nat, cp: CheckPt)
    requires p < |w.mem| == |w.held|
  {
    w.held[p] == 0 || Count(cp.nBlocks, cp.nInLast, w.n) == |Items(w.mem[p])|
  }

  /** A list of one tile with one item, held outside. */
  function HeldWorld(x: Interaction): World {
    World(1, 2, [Tile(None, 0, 1, 2, [[x, ZERO]])], None, map[0 := Lst(0, 0, 0)], [], map[0 := [0]], [In(0, 0)], [1])
  }

  lemma HeldWorldOk(x: Interaction)
    ensures Ok(HeldWorld(x)) && OneListOk(HeldWorld(x), 0) && Items(HeldWorld(x).mem[0]) == [x]
  {
    var w := HeldWorld(x);
    assert w.mem[0].data[0][..1] == [x];
    assert TilesOk(w) && FreeOk(w);
    assert OneListOk(w, 0);
    hide TilesOk, FreeOk, OneListOk;
    assert ListsOk(w);
  }

  /** Going back to the checkpoint of the empty list takes the item from the holder's view; no tile is given back. */
  lemma RestoreCanCutHeldTile(x: Interaction)
    ensures var w, cp := HeldWorld(x), CheckPt(0, 0, 0);
            && Ok(w) && GoodCheckPt(cp, 1, w.b, w.n) && Fits(w, 0, cp, 1)
            && GivenBack(Cut(w, 0, 1, cp), Cut(w, 0, 1, cp), w.chain[0][1..]) && !SnapshotsKept(w, Cut(w, 0, 1, cp))
  {
    var w, cp := HeldWorld(x), CheckPt(0, 0, 0);
    HeldWorldOk(x);
    HeldWorldFits(x);
    hide HeldWorld, OneListOk, Fits, GivenBack, Cut, CutUnseen, SnapshotsKept, Items, Ok;
    CutOk(w, 0, 1, cp);
    GivenBackNone(Cut(w, 0, 1, cp));
    RestoreSnapshotsIff(w, 0, cp, 1, Cut(w, 0, 1, cp));
  }

  lemma HeldWorldFits(x: Interaction)
    requires OneListOk(HeldWorld(x), 0) && Items(HeldWorld(x).mem[0]) == [x]
    ensures var w, cp := HeldWorld(x), CheckPt(0, 0, 0);
            && 0 in w.lists && 0 in w.chain && w.chain[0] == [0] && w.chain[0][1..] == []
            && w.b > 0 && |w.mem| == |w.held| == 1 && Fits(w, 0, cp, 1) && !CutUnseen(w, 0, cp)
  {
    hide OneListOk, Items;
    assert [0][..0] == [];
  }

  lemma GivenKeeps(w: World, w': World, ps: seq<nat>, id: nat)
    requires ListsOk(w) && GivenBack(w, w', ps)
    ensures OthersSame(w, w', id)
    ensures CountOk(w, id) ==> CountOk(w', id) && Contents(w', id) == Contents(w, id)
  {
    UntouchedAll(w, w', id);
    if CountOk(w, id) {
      hide Untouched;
      KeptList(w, w', id);
    }
  }

  // ----- checkpoints -----

  /** The items of k full tiles. */
  ghost function Prior(k: nat, b: nat, n: nat): nat
    requires b > 0
  {
    if k == 0 then 0 else Prior(k - 1, b, n) + Count(b - 1, n, n)
  }

  lemma {:induction false} PriorLess(j: nat, k: nat, b: nat, n: nat)
    requires j < k && b > 0 && n > 0
    ensures Prior(j, b, n) + Count(b - 1, n, n) <= Prior(k, b, n)
  {
    if j < k - 1 { PriorLess(j, k - 1, b, n); }
  }

  /** A checkpoint that some list of this geometry with k tiles could have given. */
  ghost predicate GoodCheckPt(cp: CheckPt, k: nat, b: nat, n: nat) {
    && 0 < k && cp.nBlocks < b && cp.nInLast <= n && cp.nPrevious == Prior(k - 1, b, n)
    && (k > 1 ==> cp.nInLast > 0)
  }

  /** The last tile of a list with several tiles is not empty. */
  ghost predicate Tight(w: World, id: nat) {
    && id in w.lists && id in w.chain && w.lists[id].tile < |w.mem|
    && (|w.chain[id]| > 1 ==> w.mem[w.lists[id].tile].nInLast > 0)
  }

  lemma {:induction false} FullTiles(w: World, id: nat, k: nat)
    requires TilesOk(w) && OneListOk(w, id) && k < |w.chain[id]|
    ensures |ItemsOf(w.mem, w.chain[id][..k])| == Prior(k, w.b, w.n)
  {
    if k > 0 {
      FullTiles(w, id, k - 1);
      assert w.chain[id][..k][..k - 1] == w.chain[id][..k - 1];
      FullTile(w, id, k - 1);
    }
  }

  /** A tile that is not the last one of its list holds all the items a tile can hold. */
  lemma FullTile(w: World, id: nat, i: nat)
    requires TilesOk(w) && OneListOk(w, id) && i < |w.chain[id]| - 1
    ensures var t := w.mem[w.chain[id][i]];
            t.nBlocks == w.b - 1 && t.nInLast == w.n && |Items(t)| == Count(w.b - 1, w.n, w.n)
            && t.next == Some(w.chain[id][i + 1])
  {
    ItemsLength(w.mem[w.chain[id][i]], w.b, w.n);
  }

  /** A checkpoint fits every list that has at least as many items as it stands for. */
  lemma FitsAfter(w: World, id: nat, cp: CheckPt, k: nat)
    requires TilesOk(w) && OneListOk(w, id) && GoodCheckPt(cp, k, w.b, w.n) && Total(cp, w.n) <= |Contents(w, id)|
    ensures Fits(w, id, cp, k)
  {
    hide Items, ItemsOf, TilesOk, Count, Prior, Linked, Packed;
    Geometry(w);
    EnoughTiles(w, id, cp, k);
    FullTiles(w, id, k - 1);
    CountAtMost(cp.nBlocks, cp.nInLast, w.b, w.n);
    if k < |w.chain[id]| {
      FullTile(w, id, k - 1);
    } else {
      LastTile(w, id);
    }
  }

  lemma EnoughTiles(w: World, id: nat, cp: CheckPt, k: nat)
    requires TilesOk(w) && OneListOk(w, id) && GoodCheckPt(cp, k, w.b, w.n) && Total(cp, w.n) <= |Contents(w, id)|
    ensures k <= |w.chain[id]|
  {
    LongestContents(w, id);
    var m := |w.chain[id]| - 1;
    hide OneListOk, Contents, TilesOk, Count, Prior;
    if m < k - 1 {
      PriorLess(m, k - 1, w.b, w.n);
      CountPositive(cp, w.n);
    }
  }

  /** How many tiles a list of so many items has: all but the last are full, and there is always one. */
  function TilesFor(items: nat, b: nat, n: nat): nat {
    if b == 0 || n == 0 || items <= Count(b - 1, n, n) then 1 else 1 + TilesFor(items - Count(b - 1, n, n), b, n)
  }

  lemma {:induction false} TilesForIs(k: nat, last: nat, b: nat, n: nat)
    requires b > 0 && n > 0 && last <= Count(b - 1, n, n) && (k > 0 ==> last > 0)
    ensures TilesFor(Prior(k, b, n) + last, b, n) == k + 1
  {
    if k > 0 { TilesForIs(k - 1, last, b, n); }
  }

  /** The number of tiles of a list is the least that can hold its items. */
  lemma TilesOfList(w: World, id: nat)
    requires TilesOk(w) && OneListOk(w, id) && Tight(w, id)
    ensures |w.chain[id]| == TilesFor(|Contents(w, id)|, w.b, w.n)
  {
    hide Items, Shaped, PlaceOk, ItemsOf, Count, Prior, Linked, Packed, TilesFor;
    var m := |w.chain[id]| - 1;
    FullTiles(w, id, m);
    LastTile(w, id);
    LastTileSize(w, id);
    LastIsTail(w, id);
    AtLeastInLast(w.mem[w.lists[id].tile], w.n);
    TilesForIs(m, |Items(w.mem[w.lists[id].tile])|, w.b, w.n);
  }

  lemma LastIsTail(w: World, id: nat)
    requires TilesOk(w) && OneListOk(w, id)
    ensures w.b > 0 && w.n > 0 && |w.chain[id]| >= 1
            && Before(w, id) == ItemsOf(w.mem, w.chain[id][..|w.chain[id]| - 1])
  {
  }

  lemma AtLeastInLast(t: Tile, n: nat)
    ensures Count(t.nBlocks, t.nInLast, n) >= t.nInLast
  {
  }

  /** A list holds no more than its tiles can. */
  lemma LongestContents(w: World, id: nat)
    requires TilesOk(w) && OneListOk(w, id)
    ensures w.b > 0 && w.n > 0 && w.chain[id] != []
    ensures |Contents(w, id)| <= Prior(|w.chain[id]| - 1, w.b, w.n) + Count(w.b - 1, w.n, w.n)
  {
    hide Items, Shaped, PlaceOk, ItemsOf, Count, Prior, Linked, Packed;
    FullTiles(w, id, |w.chain[id]| - 1);
    LastTile(w, id);
    LastTileSize(w, id);
    hide Contents;
  }

  lemma CountPositive(cp: CheckPt, n: nat)
    requires cp.nInLast > 0
    ensures Total(cp, n) > cp.nPrevious
  {
  }

  lemma LastTileSize(w: World, id: nat)
    requires TilesOk(w) && OneListOk(w, id)
    ensures w.lists[id].tile < |w.mem| && |Items(w.mem[w.lists[id].tile])| <= Count(w.b - 1, w.n, w.n)
    ensures var t := w.mem[w.lists[id].tile]; |Items(t)| == Count(t.nBlocks, t.nInLast, w.n)
  {
    var t := w.mem[w.lists[id].tile];
    ItemsLength(t, w.b, w.n);
    CountAtMost(t.nBlocks, t.nInLast, w.b, w.n);
  }

  lemma CountAtMost(nBlocks: nat, nInLast: nat, b: nat, n: nat)
    requires nBlocks < b && nInLast <= n
    ensures Count(nBlocks, nInLast, n) <= Count(b - 1, n, n)
  {
    assert nBlocks * n <= (b - 1) * n;
  }

  /** lstCount, and that a list gives a good checkpoint of its own length. */
  lemma CheckPtOf(w: World, id: nat)
    requires Ok(w) && CountOk(w, id) && Tight(w, id)
    ensures var l, t := w.lists[id], w.mem[w.lists[id].tile];
            var cp := CheckPt(t.nBlocks, t.nInLast, l.nPrevious);
            GoodCheckPt(cp, |w.chain[id]|, w.b, w.n) && Total(cp, w.n) == |Contents(w, id)|
  {
    LastTileSize(w, id);
    FullTiles(w, id, |w.chain[id]| - 1);
    LastTile(w, id);
    PrivateTile(w, id);
    hide Items, ListOk, Shaped, PlaceOk, ItemsOf, TilesOk, FreeOk, ListsOk;
  }

  lemma {:induction false} SearchStart(w: World, id: nat, cp: CheckPt, k: nat)
    requires Ok(w) && Fits(w, id, cp, k)
    ensures id in w.lists && id in w.chain && 0 < k <= |w.chain[id]| && w.lists[id].list == w.chain[id][0]
    ensures w.b > 0 && w.n > 0 && cp.nPrevious == Prior(k - 1, w.b, w.n) && Prior(0, w.b, w.n) == 0
  {
    hide Items, OneListOk, ItemsOf, Count, TilesOk, FreeOk, ListsOk, Prior;
    ListStart(w, id);
    Geometry(w);
    FullTiles(w, id, k - 1);
  }

  lemma Geometry(w: World)
    requires TilesOk(w)
    ensures w.b > 0 && w.n > 0 && |w.place| == |w.held| == |w.mem| && Prior(0, w.b, w.n) == 0
  {
    hide Shaped, PlaceOk;
  }

  lemma ListStart(w: World, id: nat)
    requires OneListOk(w, id)
    ensures id in w.lists && id in w.chain && w.chain[id] != [] && w.lists[id].list == w.chain[id][0]
    ensures forall i | 0 <= i < |w.chain[id]| :: w.chain[id][i] < |w.mem|
  {
  }

  lemma SearchStep(w: World, id: nat, cp: CheckPt, k: nat, i: nat)
    requires Ok(w) && Fits(w, id, cp, k) && i < k && Prior(i, w.b, w.n) < cp.nPrevious
    ensures i < k - 1 && w.chain[id][i] < |w.mem|
    ensures var t := w.mem[w.chain[id][i]];
            Prior(i + 1, w.b, w.n) == Prior(i, w.b, w.n) + Count(t.nBlocks, t.nInLast, w.n)
                && t.next == Some(w.chain[id][i + 1])
  {
    hide Items, ListOk, Shaped, PlaceOk, FreeOk, ListsOk;
    FullTiles(w, id, k - 1);
    if i < k - 1 { FullTile(w, id, i); }
  }

  lemma SearchEnd(w: World, cp: CheckPt, k: nat, i: nat)
    requires w.b > 0 && w.n > 0 && 0 < k && cp.nPrevious == Prior(k - 1, w.b, w.n) && i < k
    requires Prior(i, w.b, w.n) >= cp.nPrevious
    ensures i == k - 1
  {
    if i < k - 1 { PriorLess(i, k - 1, w.b, w.n); }
  }

  // ----- clearing a list -----

  /** The tiles of a removed list can be given back. */
  lemma RemovedChain(w: World, id: nat)
    requires Ok(w) && id in w.lists
    ensures OneListOk(w, id) && id in w.chain && |w.place| == |w.held|
    ensures Ok(Removed(w, id)) && LooseChain(Removed(w, id), Some(w.lists[id].list), w.chain[id])
  {
    RemovedOk(w, id);
    assert OneListOk(w, id);
    assert w.chain[id][0..] == w.chain[id];
    LoosenedChain(w, id, 0, Removed(w, id));
  }

  lemma ClearEffect(w: World, id: nat, w2: World, w3: World, p: nat)
    requires Ok(w) && id in w.lists && id in w.chain && GivenBack(Removed(w, id), w2, w.chain[id])
    requires Ok(w2) && Ok(w3) && Taken(w2, w3, p)
    ensures var w4 := Started(w3, id, p, 0);
            && Ok(w4) && CountOk(w4, id) && Effect(w, w4, id) && SnapshotsKept(w, w4) && Contents(w4, id) == []
            && w4.lists.Keys == w.lists.Keys && ClearTail(w4, id, p)
  {
    var w1 := Removed(w, id);
    RemovedOk(w, id);
    StartedOk(w3, id, p, 0);
    StartedCount(w3, id, p);
    ClearHolders(w, id, w2, w3, p);
    ClearOthers(w, id, w2, w3, p);
  }

  lemma ClearOthers(w: World, id: nat, w2: World, w3: World, p: nat)
    requires Ok(w) && id in w.lists && id in w.chain && GivenBack(Removed(w, id), w2, w.chain[id])
    requires ListsOk(w2) && Taken(w2, w3, p) && OthersSame(w3, Started(w3, id, p, 0), id)
    ensures OthersSame(w, Started(w3, id, p, 0), id)
  {
    var w1 := Removed(w, id);
    RemovedOk(w, id);
    hide OneListOk, Untouched, TilesOk, FreeOk;
    UntouchedAll(w1, w2, id);
    UntouchedAll(w2, w3, id);
    hide Removed, GivenBack, Taken, Started, ListsOk, Ok, OthersSame;
    OthersSameTrans(w, w1, w2, id);
    OthersSameTrans(w, w2, w3, id);
    OthersSameTrans(w, w3, Started(w3, id, p, 0), id);
  }

  lemma StartedCount(w: World, id: nat, p: nat)
    requires p < |w.mem| && p < |w.place| && p < |w.held|
    requires w.mem[p].nBlocks == w.mem[p].nInLast == 0 && OneListOk(Started(w, id, p, 0), id)
    ensures CountOk(Started(w, id, p, 0), id) && Contents(Started(w, id, p, 0), id) == []
  {
    NoItems(w.mem, p);
    var w' := Started(w, id, p, 0);
    assert w'.chain[id] == [p] && [p][..0] == [];
  }

  /** The one tile of a cleared list is empty and private. */
  ghost predicate ClearTail(w: World, id: nat, p: nat) {
    && id in w.lists && id in w.chain && w.lists[id] == Lst(p, p, 0) && w.chain[id] == [p] && p < |w.mem| == |w.held|
       && w.held[p] == 0
    && w.mem[p].nBlocks == w.mem[p].nInLast == 0 && w.mem[p].next == None
  }

  lemma ClearHolders(w: World, id: nat, w2: World, w3: World, p: nat)
    requires Ok(w) && id in w.lists && id in w.chain && GivenBack(Removed(w, id), w2, w.chain[id]) && Taken(w2, w3, p)
    ensures HoldersKept(w, Started(w3, id, p, 0)) && SnapshotsKept(w, Started(w3, id, p, 0))
    ensures ClearTail(Started(w3, id, p, 0), id, p)
  {
    assert OneListOk(w, id);
    assert w.chain[id][0..] == w.chain[id];
    LoosenedHeld(w, id, 0, Removed(w, id), w2);
    assert TilesKept(w, w2) by { hide OneListOk, Items, FreeOk, ListsOk, Shaped, PlaceOk, Untouched, Beyond; }
    hide Ok, GivenBack, Removed, OneListOk;
    TakenHolders(w, w2, w3, p);
    StartedHolders(w, w3, id, p);
  }

  /** Outside holders keep their tiles, and tile p is the operation's. */
  ghost predicate HoldersAnd(w: World, w': World, p: nat) {
    && |w.held| == |w.mem| <= |w'.mem| == |w'.held| && p < |w'.mem|
    && (forall q | 0 <= q < |w'.held| && q != p :: w'.held[q] == if q < |w.held| then w.held[q] else 0)
    && (p < |w.mem| ==> w.held[p] == 0)
    && (forall q | 0 <= q < |w.mem| && w.held[q] > 0 ::
          w'.mem[q].data == w.mem[q].data && Items(w'.mem[q]) == Items(w.mem[q]))
  }

  lemma TakenHolders(w: World, w2: World, w3: World, p: nat)
    requires TilesKept(w, w2) && w2.held == w.held && Taken(w2, w3, p)
    ensures HoldersAnd(w, w3, p)
  {
    hide Items, Untouched;
  }

  lemma StartedHolders(w: World, w3: World, id: nat, p: nat)
    requires HoldersAnd(w, w3, p) && p < |w3.place|
    requires w3.mem[p].nBlocks == w3.mem[p].nInLast == 0 && w3.mem[p].next == None
    ensures HoldersKept(w, Started(w3, id, p, 0)) && SnapshotsKept(w, Started(w3, id, p, 0))
    ensures ClearTail(Started(w3, id, p, 0), id, p)
  {
    hide Items;
  }

  // ----- cloning a list -----

  /** The first i tiles of list src have been copied. */
  ghost predicate CloneProgress(w: World, w2: World, dst: nat, src: nat, i: nat) {
    && Ok(w2) && CountOk(w2, dst) && Effect(w, w2, dst) && SnapshotsKept(w, w2) && w2.lists.Keys == w.lists.Keys
    && OneListOk(w, src) && i <= |w.chain[src]| && Contents(w2, dst) == ItemsOf(w.mem, w.chain[src][..i])
  }

  ghost predicate BlankTail(w: World, id: nat) {
    && id in w.lists && w.lists[id].tile < |w.mem| && w.lists[id].tile < |w.held| && w.held[w.lists[id].tile] == 0
    && w.mem[w.lists[id].tile].nBlocks == w.mem[w.lists[id].tile].nInLast == 0
  }

  lemma CloneStart(w: World, w1: World, dst: nat, src: nat)
    requires Ok(w) && CountOk(w, src)
    requires Ok(w1) && CountOk(w1, dst) && Effect(w, w1, dst) && SnapshotsKept(w, w1) && w1.lists.Keys == w.lists.Keys
    requires Contents(w1, dst) == []
    ensures CloneProgress(w, w1, dst, src, 0) && w.chain[src] != [] && w.lists[src].list == w.chain[src][0]
    ensures src != dst ==> w1.lists[src] == w.lists[src]
  {
    assert src != dst ==> Untouched(w, w1, src);
    hide Items, TilesOk, FreeOk, ListsOk, OthersSame, HoldersKept;
  }

  /** The source list seen during the copy. */
  lemma SourceTile(w: World, w2: World, dst: nat, src: nat, i: nat)
    requires TilesOk(w) && OneListOk(w, src) && OthersSame(w, w2, dst) && dst != src && i < |w.chain[src]|
    ensures src in w2.lists && w2.lists[src] == w.lists[src] && w2.b == w.b && w2.n == w.n
    ensures w.chain[src][i] < |w2.mem| && SameTile(w.mem[w.chain[src][i]], w2.mem[w.chain[src][i]])
    ensures w2.mem[w.chain[src][i]].next == if i + 1 < |w.chain[src]| then Some(w.chain[src][i + 1]) else None
    ensures i + 1 < |w.chain[src]| ==> Full(w.mem[w.chain[src][i]], w.b, w.n)
    ensures ItemsOf(w.mem, w.chain[src][..i + 1]) == ItemsOf(w.mem, w.chain[src][..i]) + Items(w.mem[w.chain[src][i]])
  {
    assert Untouched(w, w2, src);
    assert w.chain[src][..i + 1][..i] == w.chain[src][..i];
    hide Items;
  }

  lemma BlankItems(w: World, id: nat)
    requires Ok(w) && CountOk(w, id) && BlankTail(w, id)
    ensures Before(w, id) == Contents(w, id) && Shaped(w.mem[w.lists[id].tile], w.b, w.n)
  {
    LastTile(w, id);
  }

  /** Copying one tile of the source list into the empty last tile of the new list. */
  lemma CloneStep(w: World, w2: World, dst: nat, src: nat, i: nat)
    requires Ok(w) && CountOk(w, src) && dst != src && CloneProgress(w, w2, dst, src, i) && BlankTail(w2, dst)
    requires i < |w.chain[src]|
    ensures w.chain[src][i] < |w2.mem|
    ensures w2.mem[w.chain[src][i]].next == if i + 1 < |w.chain[src]| then Some(w.chain[src][i + 1]) else None
    ensures var tile := w2.lists[dst].tile;
            var w3 := Rewritten(w2, tile, Cloned(w2.mem[tile], w2.mem[w.chain[src][i]]));
            CloneProgress(w, w3, dst, src, i + 1) && (i + 1 < |w.chain[src]| ==> Full(w3.mem[tile], w3.b, w3.n))
  {
    hide Items, OthersSame, HoldersKept, SnapshotsKept, ListOk, Cloned, FreeOk, ListsOk, PlaceOk, Contents, Before;
    var p, tile := w.chain[src][i], w2.lists[dst].tile;
    SourceTile(w, w2, dst, src, i);
    BlankItems(w2, dst);
    assert Shaped(w2.mem[p], w2.b, w2.n);
    ClonedItems(w2.mem[tile], w2.mem[p], w2.b, w2.n);
    ClonedFull(w2.mem[tile], w2.mem[p], w2.b, w2.n);
    var t := Cloned(w2.mem[tile], w2.mem[p]);
    WriteEffect(w2, dst, t);
    EffectOfTwo(w, w2, Rewritten(w2, tile, t), dst);
    SameItems(w.mem[p], w2.mem[p]);
    hide TilesOk, Shaped;
  }

  lemma SameItems(t: Tile, t': Tile)
    requires SameTile(t, t')
    ensures Items(t) == Items(t')
  {
  }

  lemma ClonedFull(dst: Tile, src: Tile, b: nat, n: nat)
    requires Shaped(dst, b, n) && Shaped(src, b, n)
    ensures Cloned(dst, src).nBlocks == src.nBlocks && Cloned(dst, src).nInLast == src.nInLast
  {
  }

  /** While the last tile of the copy is still empty, its count of earlier items is that of the source. */
  lemma CloneCount(w: World, w2: World, dst: nat, src: nat, i: nat)
    requires Ok(w) && CountOk(w, src) && dst != src && CloneProgress(w, w2, dst, src, i) && BlankTail(w2, dst)
    requires i + 1 == |w.chain[src]|
    ensures src in w2.lists && w2.lists[dst].nPrevious == w2.lists[src].nPrevious
  {
    BlankItems(w2, dst);
    SourceTile(w, w2, dst, src, i);
    hide Items, Ok;
  }

  /** The last tiles of source and copy hold the same count in their last block. */
  ghost predicate SameLast(w: World, w2: World, dst: nat, src: nat) {
    && src in w.lists && w.lists[src].tile < |w.mem| && dst in w2.lists && w2.lists[dst].tile < |w2.mem|
    && src in w2.lists && w2.lists[src] == w.lists[src]
    && w2.mem[w2.lists[dst].tile].nInLast == w.mem[w.lists[src].tile].nInLast
  }

  lemma SourceLast(w: World, src: nat)
    requires OneListOk(w, src)
    ensures w.chain[src] != [] && w.lists[src].tile == w.chain[src][|w.chain[src]| - 1] < |w.mem|
  {
  }

  lemma SameLastCopied(w: World, w2: World, dst: nat, src: nat, i: nat)
    requires Ok(w) && CountOk(w, src) && dst != src && CloneProgress(w, w2, dst, src, i) && BlankTail(w2, dst)
    requires i + 1 == |w.chain[src]|
    ensures w.chain[src][i] < |w2.mem|
    ensures var tile := w2.lists[dst].tile;
            SameLast(w, Rewritten(w2, tile, Cloned(w2.mem[tile], w2.mem[w.chain[src][i]])), dst, src)
  {
    hide Items, OthersSame, HoldersKept, SnapshotsKept, ListOk, Cloned, FreeOk, ListsOk, PlaceOk, Contents, Before;
    SourceTile(w, w2, dst, src, i);
    BlankItems(w2, dst);
    assert Shaped(w2.mem[w.chain[src][i]], w2.b, w2.n);
    ClonedFull(w2.mem[w2.lists[dst].tile], w2.mem[w.chain[src][i]], w2.b, w2.n);
    hide TilesOk, Shaped;
    SourceLast(w, src);
  }

  /** A copy can be checkpointed if the source can. */
  lemma CloneTight(w: World, w2: World, dst: nat, src: nat)
    requires Ok(w) && Ok(w2) && CountOk(w, src) && CountOk(w2, dst) && w2.b == w.b && w2.n == w.n && Tight(w, src)
    requires SameLast(w, w2, dst, src) && w2.lists[dst].nPrevious == w.lists[src].nPrevious
    ensures Tight(w2, dst)
  {
    OneTileIff(w, src);
    OneTileIff(w2, dst);
    hide Ok, CountOk;
  }

  /** A list has a single tile exactly when it counts no earlier items. */
  lemma OneTileIff(w: World, id: nat)
    requires Ok(w) && CountOk(w, id)
    ensures id in w.lists && id in w.chain && w.chain[id] != [] && w.lists[id].tile < |w.mem|
    ensures w.lists[id].nPrevious == 0 <==> |w.chain[id]| == 1
  {
    hide Items, ItemsOf, OneListOk, TilesOk, ListsOk, FreeOk, Count, Prior;
    ListStart(w, id);
    LastTile(w, id);
    Geometry(w);
    FullTiles(w, id, |w.chain[id]| - 1);
    if |w.chain[id]| > 1 {
      PriorLess(0, |w.chain[id]| - 1, w.b, w.n);
      FullCount(w.b, w.n);
    }
  }

  lemma FullCount(b: nat, n: nat)
    requires b > 0
    ensures Count(b - 1, n, n) >= n
  {
  }

  lemma InChain(w: World, id: nat)
    requires CountOk(w, id)
    ensures id in w.chain
  {
  }

  /** A copied tile that is not the last one is full, so the copy can be extended. */
  lemma CloneReady(w: World, w3: World, dst: nat, src: nat, i: nat)
    requires CloneProgress(w, w3, dst, src, i)
    ensures Ok(w3) && CountOk(w3, dst) && dst in w3.lists && w3.lists.Keys == w.lists.Keys
  {
  }

  lemma CloneExtended(w: World, w3: World, w4: World, dst: nat, src: nat, i: nat)
    requires CloneProgress(w, w3, dst, src, i) && Ok(w4) && CountOk(w4, dst) && w4.lists.Keys == w3.lists.Keys
    requires Effect(w3, w4, dst) && SnapshotsKept(w3, w4) && Contents(w4, dst) == Contents(w3, dst)
    ensures CloneProgress(w, w4, dst, src, i)
  {
    hide Ok, CountOk, Effect, SnapshotsKept, Contents;
    EffectOfTwo(w, w3, w4, dst);
  }

  lemma CloneDone(w: World, w2: World, dst: nat, src: nat, i: nat)
    requires CloneProgress(w, w2, dst, src, i) && src in w.chain && i == |w.chain[src]|
    ensures Contents(w2, dst) == Contents(w, src) && CountOk(w2, dst)
    ensures Effect(w, w2, dst) && SnapshotsKept(w, w2) && w2.lists.Keys == w.lists.Keys
  {
    assert w.chain[src][..|w.chain[src]|] == w.chain[src];
  }

  // ----- conservation of tiles -----

  ghost function Upto(n: nat): (r: set<nat>)
    ensures forall p: nat :: p in r <==> p < n
  {
    if n == 0 then {} else Upto(n - 1) + {n - 1}
  }

  lemma {:induction false} UptoSize(n: nat)
    ensures |Upto(n)| == n
  {
    if n > 0 { UptoSize(n - 1); }
  }

  ghost function FreeTiles(w: World): set<nat> {
    Elements(w.free)
  }

  ghost function TilesOf(w: World, id: nat): set<nat>
    requires id in w.chain
  {
    Elements(w.chain[id])
  }

  ghost function LinkedTiles(w: World): set<nat> {
    set id, i | id in w.chain && 0 <= i < |w.chain[id]| :: w.chain[id][i]
  }

  /** Tiles that no list uses any more, but that someone outside still refers to. */
  ghost function OutsideTiles(w: World): set<nat> {
    set p: nat | p < |w.mem| && w.mem[p].nRefs > 0 && p !in LinkedTiles(w)
  }

  lemma WhereTile(w: World, p: nat)
    requires Ok(w) && p < |w.mem|
    ensures p < |w.place| && p < |w.held|
    ensures p in FreeTiles(w) <==> w.place[p].Free?
    ensures p in LinkedTiles(w) <==> w.place[p].In?
    ensures p in OutsideTiles(w) <==> w.place[p].Outside?
    ensures p in FreeTiles(w) <==> w.mem[p].nRefs == 0
    ensures w.mem[p].nRefs == w.held[p] + if p in LinkedTiles(w) then 1 else 0
  {
    assert PlaceOk(w, p);
    hide Shaped, ListOk, Linked;
    forall id, i | id in w.chain && 0 <= i < |w.chain[id]| && w.chain[id][i] == p ensures w.place[p] == In(id, i) {
      assert OneListOk(w, id);
    }
    forall i | 0 <= i < |w.free| && w.free[i] == p ensures w.place[p] == Free(i) {
    }
  }

  /** Every allocated tile is free, in exactly one list, or only held outside; and it is free exactly when
      nothing refers to it. */
  lemma Conservation(w: World)
    requires Ok(w)
    ensures |w.mem| == |FreeTiles(w)| + |LinkedTiles(w)| + |OutsideTiles(w)| && |FreeTiles(w)| == |w.free|
    ensures forall p: nat | p < |w.mem| ::
              && (p in FreeTiles(w) <==> w.mem[p].nRefs == 0)
              && p < |w.held| && w.mem[p].nRefs == w.held[p] + if p in LinkedTiles(w) then 1 else 0
  {
    hide PlaceOk, Shaped, OneListOk;
    hide Ok;
    UptoSize(|w.mem|);
    FreeSize(w);
    InMemory(w);
    forall p: nat | p < |w.mem|
      ensures (p in FreeTiles(w) <==> w.mem[p].nRefs == 0)
      ensures p < |w.held| && w.mem[p].nRefs == w.held[p] + if p in LinkedTiles(w) then 1 else 0
      ensures p in FreeTiles(w) || p in LinkedTiles(w) || p in OutsideTiles(w)
      ensures !(p in FreeTiles(w) && p in LinkedTiles(w)) && !(p in FreeTiles(w) && p in OutsideTiles(w))
    {
      WhereTile(w, p);
    }
    hide LinkedTiles, OutsideTiles, FreeTiles;
    ThreeParts(Upto(|w.mem|), FreeTiles(w), LinkedTiles(w), OutsideTiles(w));
  }

  lemma FreeSize(w: World)
    requires Ok(w)
    ensures |FreeTiles(w)| == |w.free|
  {
    hide TilesOk, ListsOk;
    forall i, j | 0 <= i < j < |w.free| ensures w.free[i] != w.free[j] {
      assert w.place[w.free[i]] == Free(i) && w.place[w.free[j]] == Free(j);
    }
    DistinctSize(w.free);
  }

  lemma InMemory(w: World)
    requires Ok(w)
    ensures FreeTiles(w) <= Upto(|w.mem|) && LinkedTiles(w) <= Upto(|w.mem|) && OutsideTiles(w) <= Upto(|w.mem|)
    ensures LinkedTiles(w) !! OutsideTiles(w)
  {
    forall p | p in LinkedTiles(w) ensures p < |w.mem| {
      var id, i :| id in w.chain && 0 <= i < |w.chain[id]| && w.chain[id][i] == p;
      assert OneListOk(w, id);
    }
  }

  lemma ThreeParts(all: set<nat>, a: set<nat>, b: set<nat>, c: set<nat>)
    requires a <= all && b <= all && c <= all && a !! b && a !! c && b !! c
    requires forall p | p in all :: p in a || p in b || p in c
    ensures |all| == |a| + |b| + |c|
  {
    assert all == a + b + c;
  }

  /** The number of tiles in the lists ids. */
  ghost function ChainTotal(w: World, ids: seq<nat>): nat
    requires forall i | 0 <= i < |ids| :: ids[i] in w.chain
  {
    if ids == [] then 0 else ChainTotal(w, ids[..|ids| - 1]) + |w.chain[ids[|ids| - 1]]|
  }

  ghost function TilesOfAll(w: World, ids: seq<nat>): set<nat>
    requires forall i | 0 <= i < |ids| :: ids[i] in w.chain
  {
    set j, i | 0 <= j < |ids| && 0 <= i < |w.chain[ids[j]]| :: w.chain[ids[j]][i]
  }

  /** No tile is in two lists, or twice in one. */
  lemma {:induction false} NoTileShared(w: World, ids: seq<nat>)
    requires Ok(w) && (forall i | 0 <= i < |ids| :: ids[i] in w.chain)
    requires forall i, j | 0 <= i < j < |ids| :: ids[i] != ids[j]
    ensures |TilesOfAll(w, ids)| == ChainTotal(w, ids)
  {
    if ids != [] {
      NoTileShared(w, ids[..|ids| - 1]);
      LastApart(w, ids);
    }
  }

  lemma ListSize(w: World, id: nat)
    requires Ok(w) && id in w.chain
    ensures |TilesOf(w, id)| == |w.chain[id]|
  {
    var ps := w.chain[id];
    assert OneListOk(w, id);
    forall i, j | 0 <= i < j < |ps| ensures ps[i] != ps[j] {
      assert w.place[ps[i]] == In(id, i) && w.place[ps[j]] == In(id, j);
    }
    hide Ok, OneListOk;
    DistinctSize(ps);
  }

  lemma LastApart(w: World, ids: seq<nat>)
    requires Ok(w) && ids != [] && (forall i | 0 <= i < |ids| :: ids[i] in w.chain)
    requires forall i, j | 0 <= i < j < |ids| :: ids[i] != ids[j]
    ensures var n := |ids| - 1; |TilesOfAll(w, ids)| == |TilesOfAll(w, ids[..n])| + |w.chain[ids[n]]|
  {
    hide Ok, TilesOfAll, TilesOf;
    LastUnion(w, ids);
    LastDisjoint(w, ids);
    ListSize(w, ids[|ids| - 1]);
  }

  lemma LastDisjoint(w: World, ids: seq<nat>)
    requires Ok(w) && ids != [] && (forall i | 0 <= i < |ids| :: ids[i] in w.chain)
    requires forall i, j | 0 <= i < j < |ids| :: ids[i] != ids[j]
    ensures TilesOfAll(w, ids[..|ids| - 1]) !! TilesOf(w, ids[|ids| - 1])
  {
    hide Ok, TilesOf;
    var n := |ids| - 1;
    forall p | p in TilesOfAll(w, ids[..n]) ensures p !in TilesOf(w, ids[n]) {
      var j, i :| 0 <= j < n && 0 <= i < |w.chain[ids[..n][j]]| && w.chain[ids[..n][j]][i] == p;
      OtherList(w, ids[j], i, ids[n]);
    }
  }

  lemma OtherList(w: World, j: nat, i: nat, id: nat)
    requires Ok(w) && j in w.chain && id in w.chain && j != id && i < |w.chain[j]|
    ensures w.chain[j][i] !in TilesOf(w, id)
  {
    assert OneListOk(w, j) && OneListOk(w, id);
  }

  lemma LastUnion(w: World, ids: seq<nat>)
    requires ids != [] && (forall i | 0 <= i < |ids| :: ids[i] in w.chain)
    ensures TilesOfAll(w, ids) == TilesOfAll(w, ids[..|ids| - 1]) + TilesOf(w, ids[|ids| - 1])
  {
    var n := |ids| - 1;
    forall p | p in TilesOfAll(w, ids) ensures p in TilesOfAll(w, ids[..n]) + TilesOf(w, ids[n]) {
      var j, i :| 0 <= j <= n && 0 <= i < |w.chain[ids[j]]| && w.chain[ids[j]][i] == p;
      if j < n { assert ids[..n][j] == ids[j]; }
    }
    forall p | p in TilesOfAll(w, ids[..n]) ensures p in TilesOfAll(w, ids) {
      var j, i :| 0 <= j < n && 0 <= i < |w.chain[ids[..n][j]]| && w.chain[ids[..n][j]][i] == p;
      assert w.chain[ids[j]][i] == p;
    }
  }

  // ----- other transitions of whole lists -----

  lemma InitEffect(w: World, w1: World, id: nat, p: nat, nPrevious: nat)
    requires Ok(w) && id !in w.lists && Ok(w1) && Taken(w, w1, p)
    ensures var w2 := Started(w1, id, p, nPrevious);
            && p < |w1.place| && p < |w1.held|
            && Ok(w2) && OneListOk(w2, id) && Effect(w, w2, id) && Contents(w2, id) == []
            && (CountOk(w2, id) <==> nPrevious == 0)
  {
    var w2 := Started(w1, id, p, nPrevious);
    StartedOk(w1, id, p, nPrevious);
    assert OneListOk(w2, id) by { assert ListsOk(w2); }
    NoItems(w1.mem, p);
    assert w2.chain[id] == [p] && [p][..0] == [];
    InitHolders(w, w1, id, p, nPrevious);
    hide OneListOk, Untouched, TilesOk, FreeOk, Started;
    UntouchedAll(w, w1, id);
    OthersSameTrans(w, w1, w2, id);
  }

  lemma OneMore(m: map<nat, Lst>, id: nat, l: Lst)
    requires id !in m
    ensures |m[id := l]| == |m| + 1 && m[id := l].Keys == m.Keys + {id}
  {
    assert m[id := l].Keys == m.Keys + {id};
  }

  lemma InitHolders(w: World, w1: World, id: nat, p: nat, nPrevious: nat)
    requires Taken(w, w1, p)
    ensures HoldersKept(w, Started(w1, id, p, nPrevious))
  {
    hide Untouched, Items;
  }

  lemma FreeEffect(w: World, id: nat, w2: World)
    requires Ok(w) && id in w.lists && id in w.chain && GivenBack(Removed(w, id), w2, w.chain[id])
    ensures Effect(w, w2, id) && w2.lists == w.lists - {id} && w2.held == w.held
  {
    RemovedOk(w, id);
    var w1 := Removed(w, id);
    assert OneListOk(w, id);
    assert w.chain[id][0..] == w.chain[id];
    LoosenedHeld(w, id, 0, w1, w2);
    hide Untouched, OneListOk, Items, Shaped, PlaceOk, FreeOk, Loosened;
    UntouchedAll(w1, w2, id);
    OthersSameTrans(w, w1, w2, id);
  }

  /** Without lists, all tiles are free exactly when nobody outside refers to one. */
  lemma AllFree(w: World)
    requires Ok(w) && w.lists == map[]
    ensures |w.free| <= |w.mem| == |w.held|
    ensures |w.free| == |w.mem| <==> forall p: nat | p < |w.held| :: w.held[p] == 0
  {
    Conservation(w);
    assert w.chain.Keys == {};
    hide Ok;
    assert LinkedTiles(w) == {};
    if |w.free| == |w.mem| {
      assert OutsideTiles(w) == {};
      assert forall p: nat | p < |w.held| && w.held[p] > 0 :: p in OutsideTiles(w);
    } else {
      assert |OutsideTiles(w)| > 0;
      var p :| p in OutsideTiles(w);
      assert w.held[p] > 0;
    }
  }

  lemma FreeStack(w: World)
    requires Ok(w)
    ensures w.freeList == if w.free == [] then None else Some(w.free[|w.free| - 1])
    ensures forall i | 0 <= i < |w.free| ::
              w.free[i] < |w.mem| && w.mem[w.free[i]].next == (if i == 0 then None else Some(w.free[i - 1]))
  {
  }

  lemma NothingLeft(w: World)
    requires w.b > 0 && w.n > 0 && w.mem == [] && w.place == [] && w.held == [] && w.free == [] && w.freeList == None
    requires w.lists == map[] && w.chain == map[]
    ensures Ok(w)
  {
  }

  // ----- programs over several lists -----

  /** What clients do: append, take a reference to every tile of a list, give back the k-th reference taken, clear and
      clone lists, and nest checkpoint/restore pairs, on any of the lists. */
  datatype Script =
    | Done
    | Append(id: nat, x: Interaction, rest: Script)
    | HoldAll(id: nat, rest: Script)
    | Release(k: nat, rest: Script)
    | Clear(id: nat, rest: Script)
    | Clone(dst: nat, src: nat, rest: Script)
    | Nested(id: nat, body: Script, rest: Script)

  predicate Uses(s: Script, ids: set<nat>) {
    match s
    case Done => true
    case Append(id, _, rest) => id in ids && Uses(rest, ids)
    case HoldAll(id, rest) => id in ids && Uses(rest, ids)
    case Release(_, rest) => Uses(rest, ids)
    case Clear(id, rest) => id in ids && Uses(rest, ids)
    case Clone(dst, src, rest) => dst in ids && src in ids && dst != src && Uses(rest, ids)
    case Nested(id, body, rest) => id in ids && Uses(body, ids) && Uses(rest, ids)
  }

  /** No list with a checkpoint is cleared or cloned into before it is restored. */
  predicate Respects(s: Script, checked: set<nat>) {
    match s
    case Done => true
    case Append(_, _, rest) => Respects(rest, checked)
    case HoldAll(_, rest) => Respects(rest, checked)
    case Release(_, rest) => Respects(rest, checked)
    case Clear(id, rest) => id !in checked && Respects(rest, checked)
    case Clone(dst, _, rest) => dst !in checked && Respects(rest, checked)
    case Nested(id, body, rest) => Respects(body, checked + {id}) && Respects(rest, checked)
  }

  /** The meaning of a program on plain sequences. */
  ghost function Run(c: map<nat, seq<Interaction>>, s: Script): (c': map<nat, seq<Interaction>>)
    requires Uses(s, c.Keys)
    ensures c'.Keys == c.Keys
  {
    match s
    case Done => c
    case Append(id, x, rest) => Run(Set(c, id, c[id] + [x]), rest)
    case HoldAll(id, rest) => Run(c, rest)
    case Release(_, rest) => Run(c, rest)
    case Clear(id, rest) => Run(Set(c, id, []), rest)
    case Clone(dst, src, rest) => Run(Set(c, dst, c[src]), rest)
    case Nested(id, body, rest) => Run(Set(Run(c, body), id, c[id]), rest)
  }

  ghost function Set(c: map<nat, seq<Interaction>>, id: nat, items: seq<Interaction>): (c': map<nat, seq<Interaction>>)
    requires id in c
    ensures c'.Keys == c.Keys
  {
    c[id := items]
  }

  /** How many references the client has after a program that it starts with k of them. */
  ghost function References(c: map<nat, seq<Interaction>>, s: Script, k: nat, b: nat, n: nat): nat
    requires Uses(s, c.Keys)
  {
    match s
    case Done => k
    case Append(id, x, rest) => References(Set(c, id, c[id] + [x]), rest, k, b, n)
    case HoldAll(id, rest) => References(c, rest, k + TilesFor(|c[id]|, b, n), b, n)
    case Release(j, rest) => References(c, rest, if j < k then k - 1 else k, b, n)
    case Clear(id, rest) => References(Set(c, id, []), rest, k, b, n)
    case Clone(dst, src, rest) => References(Set(c, dst, c[src]), rest, k, b, n)
    case Nested(id, body, rest) =>
      References(Set(Run(c, body), id, c[id]), rest, References(c, body, k, b, n), b, n)
  }

  /** A program never removes what a list had at its checkpoint. */
  lemma {:induction false} RunExtends(c: map<nat, seq<Interaction>>, s: Script, id: nat, checked: set<nat>)
    requires Uses(s, c.Keys) && Respects(s, checked) && id in c && id in checked
    ensures c[id] <= Run(c, s)[id]
  {
    match s
    case Done =>
    case Append(j, x, rest) => RunExtends(Set(c, j, c[j] + [x]), rest, id, checked);
    case HoldAll(j, rest) => RunExtends(c, rest, id, checked);
    case Release(_, rest) => RunExtends(c, rest, id, checked);
    case Clear(j, rest) => RunExtends(Set(c, j, []), rest, id, checked);
    case Clone(dst, src, rest) => RunExtends(Set(c, dst, c[src]), rest, id, checked);
    case Nested(j, body, rest) =>
      RunExtends(c, body, id, checked + {j});
      RunExtends(Set(Run(c, body), j, c[j]), rest, id, checked);
  }

  ghost function AllContents(w: World): map<nat, seq<Interaction>> {
    map id | id in w.lists :: Contents(w, id)
  }

  ghost predicate AllReady(w: World) {
    forall id | id in w.lists :: CountOk(w, id) && Tight(w, id)
  }

  /** An operation on one list in the picture of all lists. */
  lemma OneStep(w: World, w': World, id: nat)
    requires ListsOk(w) && AllReady(w) && OthersSame(w, w', id) && id in w.lists && w'.lists.Keys == w.lists.Keys
    requires CountOk(w', id) && Tight(w', id)
    ensures AllReady(w') && AllContents(w') == AllContents(w)[id := Contents(w', id)]
  {
    hide OneListOk, Untouched, Tight, Contents, Before, CountOk;
    forall j | j in w.lists && j != id ensures CountOk(w', j) && Tight(w', j) && Contents(w', j) == Contents(w, j) {
      assert CountOk(w, j) && Tight(w, j);
      OthersContents(w, w', id, j);
      assert OneListOk(w, j) && Untouched(w, w', j);
      StillTight(w, w', j);
    }
  }

  lemma StillTight(w: World, w': World, id: nat)
    requires OneListOk(w, id) && Tight(w, id) && Untouched(w, w', id)
    ensures Tight(w', id)
  {
    assert w.chain[id][|w.chain[id]| - 1] == w.lists[id].tile;
    hide Linked, Packed;
  }

  /** No list is touched. */
  lemma NoListStep(w: World, w': World)
    requires ListsOk(w) && AllReady(w) && SameLists(w, w') && forall j | j in w.lists :: Untouched(w, w', j)
    ensures AllReady(w') && AllContents(w') == AllContents(w)
  {
    hide OneListOk, Untouched, Tight, Contents, Before, CountOk;
    forall j | j in w.lists ensures CountOk(w', j) && Tight(w', j) && Contents(w', j) == Contents(w, j) {
      assert OneListOk(w, j) && CountOk(w, j) && Tight(w, j) && Untouched(w, w', j);
      KeptList(w, w', j);
      StillTight(w, w', j);
    }
  }

  lemma TilesOfReady(w: World, id: nat)
    requires Ok(w) && AllReady(w) && id in w.lists
    ensures id in AllContents(w) && id in w.chain && |w.chain[id]| == TilesFor(|AllContents(w)[id]|, w.b, w.n)
  {
    assert OneListOk(w, id) && CountOk(w, id) && Tight(w, id);
    hide OneListOk, CountOk, Tight, Contents, TilesFor;
    TilesOfList(w, id);
  }

  lemma HoldStep(w: World, id: nat, i: nat)
    requires Ok(w) && AllReady(w) && id in w.lists && id in w.chain && i < |w.chain[id]|
    ensures var p := w.chain[id][i];
            && p < |w.mem| == |w.held| && Ok(HeldMore(w, p)) && AllReady(HeldMore(w, p))
            && AllContents(HeldMore(w, p)) == AllContents(w)
            && w.mem[p].next == if i + 1 < |w.chain[id]| then Some(w.chain[id][i + 1]) else None
  {
    TileInList(w, id, i);
    hide Ok, AllReady, AllContents;
    HoldKeeps(w, w.chain[id][i]);
  }

  lemma HoldKeeps(w: World, p: nat)
    requires Ok(w) && AllReady(w) && p < |w.mem| == |w.held| && w.mem[p].nRefs > 0
    ensures Ok(HeldMore(w, p)) && AllReady(HeldMore(w, p)) && AllContents(HeldMore(w, p)) == AllContents(w)
  {
    hide Ok, Untouched, AllReady, AllContents;
    HeldMoreOk(w, p);
    OkLists(w);
    NoListStep(w, HeldMore(w, p));
  }

  lemma OkLists(w: World)
    requires Ok(w)
    ensures ListsOk(w)
  {
  }

  lemma TileInList(w: World, id: nat, i: nat)
    requires Ok(w) && id in w.lists && id in w.chain && i < |w.chain[id]|
    ensures w.chain[id][i] < |w.mem| == |w.held| && w.mem[w.chain[id][i]].nRefs > 0
    ensures w.mem[w.chain[id][i]].next == if i + 1 < |w.chain[id]| then Some(w.chain[id][i + 1]) else None
  {
    assert OneListOk(w, id);
    assert PlaceOk(w, w.chain[id][i]);
  }

  /** The list starts with the first tile of its chain. */
  lemma ChainStart(w: World, id: nat)
    requires Ok(w) && id in w.lists
    ensures id in w.chain && w.chain[id] != [] && w.lists[id].list == w.chain[id][0]
  {
    assert OneListOk(w, id);
  }

  /** The references held outside the lists are exactly those in refs. */
  ghost predicate Backed(refs: seq<nat>, held: seq<nat>) {
    (forall k | 0 <= k < |refs| :: refs[k] < |held|) && forall q | 0 <= q < |held| :: multiset(refs)[q] == held[q]
  }

  /** When a client has given back all its references, every tile is free or in a list. */
  lemma NothingLost(w: World)
    requires Ok(w) && Backed([], w.held)
    ensures OutsideTiles(w) == {} && |w.mem| == |FreeTiles(w)| + |LinkedTiles(w)|
  {
    Conservation(w);
    hide Ok, FreeTiles, LinkedTiles;
    assert forall p: nat | p < |w.held| :: w.held[p] == 0;
    assert forall p: nat | p < |w.mem| :: p !in OutsideTiles(w);
  }

  lemma BackedMore(refs: seq<nat>, held: seq<nat>, p: nat)
    requires Backed(refs, held) && p < |held|
    ensures Backed(refs + [p], held[p := held[p] + 1])
  {
  }

  lemma BackedLess(refs: seq<nat>, held: seq<nat>, k: nat)
    requires Backed(refs, held) && k < |refs|
    ensures refs[k] < |held| && held[refs[k]] > 0
            && Backed(refs[..k] + refs[k + 1..], held[refs[k] := held[refs[k]] - 1])
  {
    assert refs == refs[..k] + [refs[k]] + refs[k + 1..];
    var rest := refs[..k] + refs[k + 1..];
    assert multiset(refs) == multiset(rest) + multiset{refs[k]};
    forall j | 0 <= j < |rest| ensures rest[j] < |held| {
      assert rest[j] == if j < k then refs[j] else refs[j + 1];
    }
  }

  lemma BackedKept(refs: seq<nat>, w: World, w': World)
    requires Backed(refs, w.held) && HoldersKept(w, w')
    ensures Backed(refs, w'.held)
  {
    forall q | 0 <= q < |w'.held| ensures multiset(refs)[q] == w'.held[q] {
      if q >= |w.held| { assert q !in refs; }
    }
  }

  lemma ReleaseStep(w: World, refs: seq<nat>, k: nat)
    requires Ok(w) && AllReady(w) && Backed(refs, w.held) && k < |refs|
    ensures var p := refs[k];
            && p < |w.mem| == |w.held| && w.held[p] > 0 && AllReady(Dropped(w, p))
               && AllContents(Dropped(w, p)) == AllContents(w)
            && SameLists(w, Dropped(w, p)) && Backed(refs[..k] + refs[k + 1..], Dropped(w, p).held)
  {
    BackedLess(refs, w.held, k);
    DroppedOk(w, refs[k]);
    assert Dropped(w, refs[k]).held == w.held[refs[k] := w.held[refs[k]] - 1];
    hide TilesOk, FreeOk, Untouched, Dropped, Backed, AllReady, AllContents;
    NoListStep(w, Dropped(w, refs[k]));
  }

  lemma ClearedTight(w: World, id: nat, p: nat)
    requires ClearTail(w, id, p)
    ensures Tight(w, id)
  {
  }

  /** One operation on list id, as a step of the program. */
  lemma ListStep(w: World, w': World, id: nat, items: seq<Interaction>, refs: seq<nat>)
    requires Ok(w) && AllReady(w) && Effect(w, w', id) && id in w.lists && w'.lists.Keys == w.lists.Keys
    requires CountOk(w', id) && Tight(w', id) && Contents(w', id) == items && Backed(refs, w.held)
    ensures AllReady(w') && AllContents(w') == Set(AllContents(w), id, items) && Backed(refs, w'.held)
  {
    BackedKept(refs, w, w');
    hide CountOk, Tight, OthersSame, Contents, HoldersKept, OneListOk, TilesOk, FreeOk;
    OneStep(w, w', id);
  }

  lemma AppendTight(w: World, id: nat)
    requires CountOk(w, id) && w.lists[id].tile < |w.mem| && w.mem[w.lists[id].tile].nInLast > 0
    ensures Tight(w, id)
  {
  }

  lemma {:induction false} NestedStep(w: World, w1: World, w2: World, id: nat, body: Script, checked: set<nat>,
                                      refs: seq<nat>)
    requires Ok(w1) && AllReady(w1) && Effect(w1, w2, id) && id in w.lists && id in w1.lists
    requires w2.lists.Keys == w1.lists.Keys
    requires Uses(body, AllContents(w).Keys) && Respects(body, checked) && id in checked
    requires AllContents(w1) == Run(AllContents(w), body)
    requires |Contents(w, id)| <= |Contents(w1, id)| && Contents(w2, id) == Contents(w1, id)[..|Contents(w, id)|]
    requires CountOk(w2, id) && Tight(w2, id) && Backed(refs, w1.held)
    ensures AllReady(w2) && AllContents(w2) == Set(Run(AllContents(w), body), id, AllContents(w)[id])
    ensures Backed(refs, w2.held)
  {
    hide Ok, CountOk, Tight, OthersSame, Contents, HoldersKept, OneListOk, TilesOk, FreeOk, Effect, Backed, AllReady;
    RunExtends(AllContents(w), body, id, checked);
    assert AllContents(w1)[id] == Contents(w1, id) && AllContents(w)[id] == Contents(w, id);
    assert Contents(w2, id) == AllContents(w)[id];
    ListStep(w1, w2, id, AllContents(w)[id], refs);
  }

  // ----- the operations -----

  /** A tile fresh from the allocator: all areas are set to zero. */
  function EmptyTile(b: nat, n: nat): (t: Tile)
    ensures |t.data| == b && forall i | 0 <= i < b :: |t.data[i]| == n
  {
    Tile(None, 0, 0, 1, seq(b, _ => seq(n, _ => ZERO)))
  }

  class TileStore {
    const nBlocksPerTile: nat
    const nPerBlock: nat
    var mem: seq<Tile>
    var freeList: Option<nat>
    var nTiles: nat
    var nRefs: nat
    var lists: map<nat, Lst>
    ghost var free: seq<nat>
    ghost var chain: map<nat, seq<nat>>
    ghost var place: seq<Place>
    ghost var held: seq<nat>

    constructor (nBlocksPerTile: nat, nPerBlock: nat)
      requires nBlocksPerTile > 0 && nPerBlock > 0
      ensures this.nBlocksPerTile == nBlocksPerTile && this.nPerBlock == nPerBlock
      ensures Valid() && mem == [] && lists == map[]
    {
      this.nBlocksPerTile := nBlocksPerTile;
      this.nPerBlock := nPerBlock;
      mem, freeList, nTiles, nRefs, lists := [], None, 0, 0, map[];
      free, chain, place, held := [], map[], [], [];
    }

    ghost function W(): World
      reads this
    {
      World(nBlocksPerTile, nPerBlock, mem, freeList, lists, free, chain, place, held)
    }

    ghost predicate Sound()
      reads this
    {
      Ok(W()) && nTiles == |mem|
    }

    ghost predicate Valid()
      reads this
    {
      Sound() && nRefs == |lists|
    }

    /** lstNewTile: pop a free tile or allocate one; the caller holds the only reference. */
    method NewTile() returns (p: nat)
      requires Sound()
      modifies `mem, `freeList, `nTiles, `free, `place, `held
      ensures Sound() && Taken(old(W()), W(), p)
      ensures old(freeList) != None ==> p == old(freeList).value && |mem| == |old(mem)|
      ensures old(freeList) == None ==> mem == old(mem) + [EmptyTile(nBlocksPerTile, nPerBlock)] && p == |old(mem)|
    {
      hide Taken, Ok;
      ghost var w := W();
      FreeTop(w);
      if freeList != None {
        PoppedTaken(w);
        p := freeList.value;
        freeList := mem[p].next;
        mem := mem[p := mem[p].(next := None, nBlocks := 0, nInLast := 0, nRefs := 1)];
        free := free[..|free| - 1];
        place := place[p := Outside];
        held := held[p := 1];
        assert W() == Popped(w);
      } else {
        AllocatedTaken(w, EmptyTile(nBlocksPerTile, nPerBlock));
        p := |mem|;
        mem := mem + [EmptyTile(nBlocksPerTile, nPerBlock)];
        place := place + [Outside];
        held := held + [1];
        nTiles := nTiles + 1;
        assert W() == Allocated(w, EmptyTile(nBlocksPerTile, nPerBlock));
      }
    }

    /** lstFreeTile: one reference held outside the lists is given up. */
    method FreeTile(p: nat)
      requires Sound() && p < |mem| && p < |held| && held[p] > 0
      modifies `mem, `freeList, `free, `place, `held
      ensures Sound() && W() == Dropped(old(W()), p)
      ensures forall id | id in lists :: Untouched(old(W()), W(), id)
      ensures p < |mem| && mem[p].nRefs + 1 == old(mem)[p].nRefs
      ensures if mem[p].nRefs == 0 then freeList == Some(p) && mem[p].next == old(freeList)
              else freeList == old(freeList)
    {
      hide Ok, Untouched;
      ghost var w := W();
      DroppedOk(w, p);
      held := held[p := held[p] - 1];
      var t := mem[p].(nRefs := mem[p].nRefs - 1);
      if t.nRefs == 0 {
        mem := mem[p := t.(next := freeList)];
        freeList := Some(p);
        place := place[p := Free(|free|)];
        free := free + [p];
      } else {
        mem := mem[p := t];
      }
      assert W() == Dropped(w, p);
    }

    /** lstExtend: one more tile for a list whose last tile is full. */
    method Extend(id: nat)
      requires Sound() && id in lists && CountOk(W(), id) && Full(mem[lists[id].tile], nBlocksPerTile, nPerBlock)
      modifies `mem, `freeList, `nTiles, `lists, `free, `chain, `place, `held
      ensures Sound() && id in lists && CountOk(W(), id) && lists.Keys == old(lists).Keys
      ensures Effect(old(W()), W(), id) && SnapshotsKept(old(W()), W())
      ensures Contents(W(), id) == old(Contents(W(), id))
      ensures lists[id].tile < |mem| && lists[id].tile < |held| && held[lists[id].tile] == 0
      ensures mem[lists[id].tile].nBlocks == mem[lists[id].tile].nInLast == 0 && mem[lists[id].tile].nRefs == 1
    {
      hide Ok, CountOk, Effect, SnapshotsKept, Taken, Contents, Full;
      ghost var w := W();
      var p := NewTile();
      ghost var w1 := W();
      ExtendEffect(w, w1, id, p);
      var l := lists[id];
      var last := mem[l.tile];
      lists := lists[id := Lst(l.list, p, l.nPrevious + Count(last.nBlocks, last.nInLast, nPerBlock))];
      mem := mem[l.tile := last.(next := Some(p))];
      chain := chain[id := chain[id] + [p]];
      place := place[p := In(id, |w.chain[id]|)];
      held := held[p := 0];
      assert W() == Extended(w1, id, p);
    }

    /** lstSplit: the last tile is also referred to from outside, so the list gets a private copy. */
    method Split(id: nat)
      requires Sound() && id in lists && CountOk(W(), id) && mem[lists[id].tile].nRefs > 1
      modifies `mem, `freeList, `nTiles, `lists, `free, `chain, `place, `held
      ensures Sound() && id in lists && CountOk(W(), id) && lists.Keys == old(lists).Keys
      ensures Effect(old(W()), W(), id) && SnapshotsKept(old(W()), W())
      ensures Contents(W(), id) == old(Contents(W(), id))
      ensures lists[id].tile < |mem| && lists[id].tile < |held| && held[lists[id].tile] == 0
      ensures mem[lists[id].tile].nRefs == 1
    {
      hide Ok, CountOk, Effect, SnapshotsKept, Taken, Contents, Cloned, OneListOk, Untouched;
      ghost var w := W();
      var p := NewTile();
      ghost var w1 := W();
      SplitEffect(w, w1, id, p);
      var l := lists[id];
      var last := l.tile;
      mem := mem[p := Cloned(mem[p], mem[last])];
      assert W() == Rewritten(w1, p, Cloned(w1.mem[p], w1.mem[last]));
      Relink(id, p);
      FreeTile(last);
    }

    /** Put tile p in the place of the last tile of list id. */
    method Relink(id: nat, p: nat)
      requires CanSplit(W(), id, p) && OneListOk(W(), id) && (lists[id].tile == lists[id].list <==> |chain[id]| == 1)
      modifies `mem, `lists, `chain, `place, `held
      ensures W() == SplitOff(old(W()), id, p)
    {
      ghost var n := |chain[id]| - 1;
      var l := lists[id];
      var last := l.tile;
      if last == l.list {
        lists := lists[id := Lst(p, p, l.nPrevious)];
      } else {
        var prev := FindPrevious(id, last);
        mem := mem[prev := mem[prev].(next := Some(p))];
        lists := lists[id := Lst(l.list, p, l.nPrevious)];
      }
      chain := chain[id := chain[id][..n] + [p]];
      place := place[last := Outside][p := In(id, n)];
      held := held[last := held[last] + 1][p := 0];
    }

    /** The tile before the last tile of a list with several tiles. */
    method FindPrevious(id: nat, last: nat) returns (prev: nat)
      requires id in lists && OneListOk(W(), id) && last == lists[id].tile && last != lists[id].list
      ensures |chain[id]| > 1 && prev == chain[id][|chain[id]| - 2]
    {
      prev := lists[id].list;
      ghost var i := 0;
      ghost var ps := chain[id];
      assert place[ps[0]] == In(id, 0) && place[ps[|ps| - 1]] == In(id, |ps| - 1);
      while mem[prev].next != Some(last)
        invariant 0 <= i < |ps| - 1 && prev == ps[i]
        decreases |ps| - i
      {
        assert i < |ps| - 2;
        prev := mem[prev].next.value;
        i := i + 1;
      }
      assert place[ps[i + 1]] == In(id, i + 1);
    }

    /** lstReposition: afterwards the next item can be written into the last tile. */
    method Reposition(id: nat)
      requires Sound() && id in lists && CountOk(W(), id)
      modifies `mem, `freeList, `nTiles, `lists, `free, `chain, `place, `held
      ensures Sound() && id in lists && CountOk(W(), id) && lists.Keys == old(lists).Keys
      ensures Effect(old(W()), W(), id) && SnapshotsKept(old(W()), W())
      ensures Contents(W(), id) == old(Contents(W(), id))
      ensures lists[id].tile < |mem| && lists[id].tile < |held| && held[lists[id].tile] == 0
      ensures mem[lists[id].tile].nRefs == 1 && mem[lists[id].tile].nInLast < nPerBlock
    {
      hide Ok, CountOk, Effect, SnapshotsKept, Contents, Before, Shaped, Items;
      ghost var w := W();
      NoEffect(w, id);
      PrivateTile(w, id);
      if mem[lists[id].tile].nRefs > 1 { Split(id); }
      ghost var w1 := W();
      PrivateTile(w1, id);
      MakeRoom(id);
      EffectOfTwo(w, w1, W(), id);
    }

    method MakeRoom(id: nat)
      requires Sound() && id in lists && CountOk(W(), id)
      requires lists[id].tile < |mem| == |held| && held[lists[id].tile] == 0 && mem[lists[id].tile].nRefs == 1
      modifies `mem, `freeList, `nTiles, `lists, `free, `chain, `place, `held
      ensures Sound() && id in lists && CountOk(W(), id) && lists.Keys == old(lists).Keys
      ensures Effect(old(W()), W(), id) && SnapshotsKept(old(W()), W())
      ensures Contents(W(), id) == old(Contents(W(), id))
      ensures lists[id].tile < |mem| && lists[id].tile < |held| && held[lists[id].tile] == 0
      ensures mem[lists[id].tile].nRefs == 1 && mem[lists[id].tile].nInLast < nPerBlock
    {
      hide Ok, CountOk, Effect, SnapshotsKept, Contents, Before, Shaped, Items;
      ghost var w := W();
      NoEffect(w, id);
      PrivateTile(w, id);
      var p := lists[id].tile;
      var t := mem[p];
      if t.nInLast == nPerBlock {
        if t.nBlocks + 1 == nBlocksPerTile {
          Extend(id);
        } else {
          NextBlock(t, nBlocksPerTile, nPerBlock);
          WriteEffect(w, id, t.(nBlocks := t.nBlocks + 1, nInLast := 0));
          mem := mem[p := t.(nBlocks := t.nBlocks + 1, nInLast := 0)];
          assert W() == Rewritten(w, p, t.(nBlocks := t.nBlocks + 1, nInLast := 0));
        }
      }
    }

    /** ilpAppendFloat: one item more at the end, written into a tile nobody else refers to. */
    method Append(id: nat, x: Interaction)
      requires Sound() && id in lists && CountOk(W(), id)
      modifies `mem, `freeList, `nTiles, `lists, `free, `chain, `place, `held
      ensures Sound() && id in lists && CountOk(W(), id) && lists.Keys == old(lists).Keys
      ensures Effect(old(W()), W(), id) && SnapshotsKept(old(W()), W())
      ensures Contents(W(), id) == old(Contents(W(), id)) + [x]
      ensures lists[id].tile < |mem| && mem[lists[id].tile].nInLast > 0
    {
      hide Ok, CountOk, Effect, SnapshotsKept, Contents, Before, Shaped, Items;
      ghost var w := W();
      Reposition(id);
      ghost var w1 := W();
      PrivateTile(w1, id);
      var p := lists[id].tile;
      var t := mem[p];
      AppendItem(t, x, nBlocksPerTile, nPerBlock);
      WriteEffect(w1, id, t.(data := t.data[t.nBlocks := t.data[t.nBlocks][t.nInLast := x]], nInLast := t.nInLast + 1));
      mem := mem[p := t.(data := t.data[t.nBlocks := t.data[t.nBlocks][t.nInLast := x]], nInLast := t.nInLast + 1)];
      EffectOfTwo(w, w1, W(), id);
    }

    /** moveToFreeList: give up one reference to each tile of a chain. */
    method FreeChain(first: Option<nat>, ghost ps: seq<nat>)
      requires Sound() && LooseChain(W(), first, ps)
      modifies `mem, `freeList, `free, `place, `held
      ensures Sound() && GivenBack(old(W()), W(), ps)
    {
      hide Ok, LooseChain, GivenBack, Untouched, Dropped;
      ghost var w := W();
      DroppedAllOk(w, first, ps);
      var tile := first;
      ghost var rest := ps;
      while tile != None
        invariant Sound() && LooseChain(W(), tile, rest)
        invariant DroppedAll(W(), rest) == DroppedAll(w, ps)
        invariant |mem| == |w.mem|
        decreases |rest|
      {
        LooseHead(W(), tile, rest);
        var next := mem[tile.value].next;
        FreeTile(tile.value);
        tile := next;
        rest := rest[1..];
      }
      LooseEnd(W(), rest);
    }

    /** lstClear: the list becomes empty, on one fresh tile. */
    method Clear(id: nat)
      requires Sound() && id in lists
      modifies `mem, `freeList, `nTiles, `lists, `free, `chain, `place, `held
      ensures Sound() && id in lists && CountOk(W(), id) && lists.Keys == old(lists).Keys
      ensures Effect(old(W()), W(), id) && SnapshotsKept(old(W()), W())
      ensures Contents(W(), id) == [] && ClearTail(W(), id, lists[id].tile)
    {
      hide Ok, CountOk, Effect, SnapshotsKept, Taken, Contents, GivenBack, LooseChain;
      ghost var w := W();
      RemovedChain(w, id);
      var first := lists[id].list;
      ghost var loose := Removed(w, id);
      lists, chain, place, held := lists - {id}, loose.chain, loose.place, loose.held;
      assert W() == loose;
      FreeChain(Some(first), w.chain[id]);
      ghost var w2 := W();
      var p := NewTile();
      ghost var w3 := W();
      ClearEffect(w, id, w2, w3, p);
      assert p < |w3.place| && p < |w3.held| by { assert Taken(w2, w3, p); }
      lists := lists[id := Lst(p, p, 0)];
      chain, place, held := chain[id := [p]], place[p := In(id, 0)], held[p := 0];
      assert W() == Started(w3, id, p, 0);
    }

    /** lstCount */
    method ItemCount(id: nat) returns (count: nat)
      requires Sound() && id in lists && CountOk(W(), id)
      ensures count == |Contents(W(), id)|
    {
      PrivateTile(W(), id);
      LastTileSize(W(), id);
      hide Ok, Items;
      var l := lists[id];
      count := l.nPrevious + mem[l.tile].nBlocks * nPerBlock + mem[l.tile].nInLast;
    }

    /** lstCheckPt */
    method TakeCheckPt(id: nat) returns (cp: CheckPt, ghost k: nat)
      requires Sound() && id in lists && CountOk(W(), id) && Tight(W(), id)
      ensures GoodCheckPt(cp, k, nBlocksPerTile, nPerBlock) && Total(cp, nPerBlock) == |Contents(W(), id)|
    {
      CheckPtOf(W(), id);
      hide Ok, CountOk, Contents;
      cp := CheckPt(mem[lists[id].tile].nBlocks, mem[lists[id].tile].nInLast, lists[id].nPrevious);
      k := |chain[id]|;
    }

    /** The search of lstRestore for the last tile to keep; both asserts of the source hold. */
    method FindTile(id: nat, cp: CheckPt, ghost k: nat) returns (tile: nat)
      requires Sound() && OneListOk(W(), id) && Fits(W(), id, cp, k)
      ensures tile == chain[id][k - 1]
    {
      hide Ok, Fits, Prior, Count, ListOk;
      ghost var w := W();
      ghost var ps := chain[id];
      SearchStart(w, id, cp, k);
      hide OneListOk;
      ghost var i := 0;
      var next := Some(lists[id].list);
      var nPrevious := 0;
      while nPrevious < cp.nPrevious
        invariant 0 <= i <= k - 1 && next == Some(ps[i]) && nPrevious == Prior(i, nBlocksPerTile, nPerBlock)
        decreases k - i
      {
        assert next != None;
        SearchStep(w, id, cp, k, i);
        nPrevious := nPrevious + Count(mem[next.value].nBlocks, mem[next.value].nInLast, nPerBlock);
        next := mem[next.value].next;
        i := i + 1;
      }
      SearchEnd(w, cp, k, i);
      assert nPrevious == cp.nPrevious;
      tile := next.value;
    }

    /** lstRestore: back to the items the list had at the checkpoint. */
    method Restore(id: nat, cp: CheckPt, ghost k: nat)
      requires Sound() && id in lists && CountOk(W(), id)
      requires GoodCheckPt(cp, k, nBlocksPerTile, nPerBlock) && Total(cp, nPerBlock) <= |Contents(W(), id)|
      modifies `mem, `freeList, `lists, `free, `chain, `place, `held
      ensures Sound() && id in lists && CountOk(W(), id) && Tight(W(), id) && lists.Keys == old(lists).Keys
      ensures Effect(old(W()), W(), id)
      ensures Contents(W(), id) == old(Contents(W(), id))[..Total(cp, nPerBlock)]
      ensures old(id in chain && k <= |chain[id]| && chain[id][k - 1] < |mem| == |held|)
      ensures SnapshotsKept(old(W()), W()) <==> CutUnseen(old(W()), old(chain[id][k - 1]), cp)
    {
      hide Ok, CountOk, Effect, GivenBack, LooseChain, Contents;
      ghost var w := W();
      RestoreStart(w, id, cp, k);
      var tile := FindTile(id, cp, k);
      var next := mem[tile].next;
      ghost var w1 := Cut(w, id, k, cp);
      lists := lists[id := Lst(lists[id].list, tile, cp.nPrevious)];
      mem := mem[tile := mem[tile].(next := None, nBlocks := cp.nBlocks, nInLast := cp.nInLast)];
      chain, place, held := w1.chain, w1.place, w1.held;
      assert W() == w1;
      FreeChain(next, w.chain[id][k..]);
      RestoreEnd(w, id, cp, k, W());
    }

    /** lstClone: list dst gets a copy of every tile of list src. */
    method Clone(dst: nat, src: nat)
      requires Sound() && dst in lists && src in lists && dst != src && CountOk(W(), src)
      modifies `mem, `freeList, `nTiles, `lists, `free, `chain, `place, `held
      ensures Sound() && dst in lists && CountOk(W(), dst) && lists.Keys == old(lists).Keys
      ensures old(Tight(W(), src)) ==> Tight(W(), dst)
      ensures Effect(old(W()), W(), dst) && SnapshotsKept(old(W()), W())
      ensures Contents(W(), dst) == old(Contents(W(), src))
    {
      hide Ok, CountOk, Effect, SnapshotsKept, Contents, Before, Shaped, Items, CloneProgress, Cloned;
      ghost var w := W();
      InChain(w, src);
      ghost var ps := chain[src];
      Clear(dst);
      CloneStart(w, W(), dst, src);
      var stile := Some(lists[src].list);
      ghost var i := 0;
      while stile != None
        invariant 0 <= i <= |ps| && Sound() && CloneProgress(w, W(), dst, src, i) && dst in lists && src in lists
        invariant stile == if i < |ps| then Some(ps[i]) else None
        invariant i < |ps| ==> BlankTail(W(), dst)
        invariant i == |ps| ==> lists[dst].nPrevious == lists[src].nPrevious && SameLast(w, W(), dst, src)
        decreases |ps| - i
      {
        ghost var w2 := W();
        CloneStep(w, w2, dst, src, i);
        if i + 1 == |ps| { CloneCount(w, w2, dst, src, i); }
        var dtile := lists[dst].tile;
        var copy := Cloned(mem[dtile], mem[stile.value]);
        stile := mem[stile.value].next;
        mem := mem[dtile := copy];
        ghost var w3 := W();
        assert w3 == Rewritten(w2, dtile, copy);
        if i + 1 == |ps| { SameLastCopied(w, w2, dst, src, i); }
        i := i + 1;
        CloneReady(w, w3, dst, src, i);
        if stile != None {
          Extend(dst);
          CloneExtended(w, w3, W(), dst, src, i);
        }
      }
      CloneDone(w, W(), dst, src, i);
      if Tight(w, src) { CloneTight(w, W(), dst, src); }
      ghost var before := lists;
      lists := lists[dst := lists[dst].(nPrevious := lists[src].nPrevious)];
      assert lists == before;
    }

    /** lstInitialize: nPrevious is left as it was in memory; only lstClear sets it. */
    method Init(id: nat, nPrevious: nat)
      requires Valid() && id !in lists
      modifies this
      ensures Valid() && lists.Keys == old(lists).Keys + {id} && OneListOk(W(), id)
      ensures Effect(old(W()), W(), id) && Contents(W(), id) == []
      ensures CountOk(W(), id) <==> nPrevious == 0
    {
      hide Ok, CountOk, Effect, Taken, Contents, OneListOk;
      ghost var w := W();
      nRefs := nRefs + 1;
      var p := NewTile();
      ghost var w1 := W();
      assert w1.lists == w.lists && w1.chain == w.chain by { assert Taken(w, w1, p); }
      InitEffect(w, w1, id, p, nPrevious);
      lists := lists[id := Lst(p, p, nPrevious)];
      chain, place, held := chain[id := [p]], place[p := In(id, 0)], held[p := 0];
      assert W() == Started(w1, id, p, nPrevious);
      OneMore(w.lists, id, Lst(p, p, nPrevious));
    }

    /** lstFree: the last list to go frees all free tiles; the result says whether the source's assert that
        no tile is left holds. */
    method Destroy(id: nat) returns (noneLeft: bool)
      requires Valid() && id in lists
      modifies this
      ensures lists == old(lists) - {id}
      ensures lists != map[] ==> noneLeft && Valid() && Effect(old(W()), W(), id)
      ensures lists == map[] ==> (noneLeft <==> forall p: nat | p < |old(held)| :: old(held)[p] == 0)
      ensures lists == map[] && noneLeft ==> Valid() && mem == []
    {
      hide Ok, Effect, GivenBack, LooseChain, OneListOk;
      ghost var w := W();
      NoEffect(w, id);
      RemovedChain(w, id);
      var first := lists[id].list;
      ghost var loose := Removed(w, id);
      lists, chain, place, held := lists - {id}, loose.chain, loose.place, loose.held;
      assert W() == loose;
      FreeChain(Some(first), w.chain[id]);
      FreeEffect(w, id, W());
      assert |lists| == |w.lists| - 1 by { assert lists.Keys == w.lists.Keys - {id}; }
      nRefs := nRefs - 1;
      noneLeft := true;
      if nRefs == 0 {
        assert lists.Keys == {};
        noneLeft := FreeAll();
      }
    }

    /** The end of lstFree, when no list is left. */
    method FreeAll() returns (noneLeft: bool)
      requires Sound() && lists == map[] && nRefs == 0
      modifies `mem, `freeList, `nTiles, `free, `chain, `place, `held
      ensures noneLeft <==> forall p: nat | p < |old(held)| :: old(held)[p] == 0
      ensures noneLeft ==> Sound() && mem == []
    {
      ghost var w := W();
      AllFree(w);
      FreeStack(w);
      assert nBlocksPerTile > 0 && nPerBlock > 0;
      hide Ok;
      var tile := freeList;
      ghost var i := |free|;
      while tile != None
        invariant 0 <= i <= |free| && tile == (if i == 0 then None else Some(free[i - 1]))
        invariant nTiles == |mem| - |free| + i && mem == w.mem && free == w.free && held == w.held && lists == w.lists
        decreases i
      {
        assert w.mem[w.free[i - 1]].next == if i - 1 == 0 then None else Some(w.free[i - 2]);
        tile := mem[tile.value].next;
        nTiles := nTiles - 1;
        i := i - 1;
      }
      noneLeft := nTiles == 0;
      freeList := None;
      free := [];
      if noneLeft {
        mem, place, held, chain := [], [], [], map[];
        NothingLeft(W());
      }
    }

    /** Another part of the program takes a reference to every tile of a list, as the work queues do. */
    method HoldAll(id: nat, refs: seq<nat>) returns (refs': seq<nat>)
      requires Sound() && AllReady(W()) && id in lists && Backed(refs, held)
      modifies `mem, `held
      ensures Sound() && AllReady(W()) && AllContents(W()) == AllContents(old(W()))
      ensures id in chain && refs' == refs + chain[id] && Backed(refs', held)
      ensures id in AllContents(W()) && |chain[id]| == TilesFor(|AllContents(W())[id]|, nBlocksPerTile, nPerBlock)
    {
      hide Ok, AllReady, AllContents, Backed, TilesFor;
      ghost var w := W();
      TilesOfReady(w, id);
      ChainStart(w, id);
      ghost var ps, i := chain[id], 0;
      refs' := refs;
      var tile := Some(lists[id].list);
      assert ps[..0] == [];
      while tile != None
        invariant Sound() && AllReady(W()) && AllContents(W()) == AllContents(w)
        invariant 0 <= i <= |ps| && tile == if i < |ps| then Some(ps[i]) else None
        invariant refs' == refs + ps[..i] && Backed(refs', held)
        decreases |ps| - i
      {
        HoldStep(W(), id, i);
        BackedMore(refs', held, ps[i]);
        var p := tile.value;
        tile := mem[p].next;
        ghost var w1 := W();
        mem := mem[p := mem[p].(nRefs := mem[p].nRefs + 1)];
        held := held[p := held[p] + 1];
        assert W() == HeldMore(w1, p);
        refs' := refs' + [p];
        i := i + 1;
        assert ps[..i] == ps[..i - 1] + [p];
      }
      assert ps[..i] == ps;
    }

    /** Running a program on tiled lists is running it on plain sequences; the client's references stay good. */
    method Execute(s: Script, refs: seq<nat>, ghost checked: set<nat>) returns (refs': seq<nat>)
      requires Sound() && AllReady(W()) && Backed(refs, held)
      requires Uses(s, AllContents(W()).Keys) && Respects(s, checked)
      modifies `mem, `freeList, `nTiles, `lists, `free, `chain, `place, `held
      ensures Sound() && AllReady(W()) && lists.Keys == old(lists).Keys && Backed(refs', held)
      ensures AllContents(W()) == Run(AllContents(old(W())), s)
      ensures |refs'| == References(AllContents(old(W())), s, |refs|, nBlocksPerTile, nPerBlock)
      decreases s, 0
    {
      hide Ok, CountOk, Tight, Effect, SnapshotsKept, Contents, Backed, ClearTail;
      ghost var w := W();
      refs' := refs;
      match s
      case Done =>
      case Append(id, x, rest) =>
        Append(id, x);
        AppendTight(W(), id);
        ListStep(w, W(), id, Contents(w, id) + [x], refs);
        refs' := Execute(rest, refs, checked);
      case HoldAll(id, rest) =>
        refs' := HoldAll(id, refs);
        refs' := Execute(rest, refs', checked);
      case Release(k, rest) =>
        refs' := GiveBack(k, refs);
        refs' := Execute(rest, refs', checked);
      case Clear(id, rest) =>
        Clear(id);
        ClearedTight(W(), id, lists[id].tile);
        ListStep(w, W(), id, [], refs);
        refs' := Execute(rest, refs, checked);
      case Clone(dst, src, rest) =>
        Clone(dst, src);
        ListStep(w, W(), dst, Contents(w, src), refs);
        refs' := Execute(rest, refs, checked);
      case Nested(id, body, rest) =>
        refs' := ExecuteNested(id, body, refs, checked);
        refs' := Execute(rest, refs', checked);
    }

    method ExecuteNested(id: nat, body: Script, refs: seq<nat>, ghost checked: set<nat>) returns (refs': seq<nat>)
      requires Sound() && AllReady(W()) && Backed(refs, held) && id in lists
      requires Uses(body, AllContents(W()).Keys) && Respects(body, checked + {id})
      modifies `mem, `freeList, `nTiles, `lists, `free, `chain, `place, `held
      ensures Sound() && AllReady(W()) && lists.Keys == old(lists).Keys && Backed(refs', held)
      ensures AllContents(W()) == Set(Run(AllContents(old(W())), body), id, AllContents(old(W()))[id])
      ensures |refs'| == References(AllContents(old(W())), body, |refs|, nBlocksPerTile, nPerBlock)
      decreases body, 1
    {
      hide Ok, CountOk, Tight, Effect, SnapshotsKept, Contents, Backed;
      ghost var w := W();
      var cp, k := TakeCheckPt(id);
      refs' := Execute(body, refs, checked + {id});
      ghost var w1 := W();
      RunExtends(AllContents(w), body, id, checked + {id});
      Restore(id, cp, k);
      NestedStep(w, w1, W(), id, body, checked + {id}, refs');
    }

    /** The client gives back the k-th of its references, if it has that many. */
    method GiveBack(k: nat, refs: seq<nat>) returns (refs': seq<nat>)
      requires Sound() && AllReady(W()) && Backed(refs, held)
      modifies `mem, `freeList, `free, `place, `held
      ensures Sound() && AllReady(W()) && AllContents(W()) == AllContents(old(W()))
      ensures refs' == (if k < |refs| then refs[..k] + refs[k + 1..] else refs) && Backed(refs', held)
    {
      hide Ok, AllReady, AllContents, Backed, Dropped;
      refs' := refs;
      if k < |refs| {
        ReleaseStep(W(), refs, k);
        FreeTile(refs[k]);
        refs' := refs[..k] + refs[k + 1..];
      }
    }
  }
}
