/**
 Fork choice: how importing a block picks the head and keeps the number index, its cache and the bloom index of the
 canonical chain in step with it (`BlockChain::import`, `insertBlockAndExtras`, `rewind`, `numberHash`).
 */
module ChainIndex {
  import opened Collections
  import opened Words
  import opened BlockTree
  import opened BloomIndex

  // ---------------------------------------------------------------- growing the tree

  /** A new block on a known parent. */
  ghost predicate Fits(t: Tree, genesis: Hash, h: Hash, b: Block) {
    && WellFormed(t, genesis) && h != 0 && h !in t
    && b.parent in t && b.number == t[b.parent].number + 1
  }

  lemma GrowWellFormed(t: Tree, genesis: Hash, h: Hash, b: Block)
    requires Fits(t, genesis, h, b)
    ensures WellFormed(t[h := b], genesis)
  {
    var t' := t[h := b];
    forall k
      ensures Linked(t', genesis, k)
    {
      assert Linked(t, genesis, k);
    }
  }

  /** Ancestry of the old blocks does not change. */
  lemma {:induction false} GrowAncestor(t: Tree, genesis: Hash, h: Hash, b: Block, k: Hash, n: nat)
    requires Fits(t, genesis, h, b) && WellFormed(t[h := b], genesis) && k in t && n <= t[k].number
    ensures Ancestor(t[h := b], genesis, k, n) == Ancestor(t, genesis, k, n)
    decreases t[k].number
  {
    assert Linked(t, genesis, k);
    if n < t[k].number {
      GrowAncestor(t, genesis, h, b, t[k].parent, n);
    }
  }

  lemma GrowAncestors(t: Tree, genesis: Hash, h: Hash, b: Block)
    requires Fits(t, genesis, h, b)
    ensures WellFormed(t[h := b], genesis)
    ensures forall k, n: nat :: k in t && n <= t[k].number ==>
              Ancestor(t[h := b], genesis, k, n) == Ancestor(t, genesis, k, n)
    ensures forall n: nat :: n < b.number ==> Ancestor(t[h := b], genesis, h, n) == Ancestor(t, genesis, b.parent, n)
  {
    GrowWellFormed(t, genesis, h, b);
    forall k, n: nat | k in t && n <= t[k].number
      ensures Ancestor(t[h := b], genesis, k, n) == Ancestor(t, genesis, k, n)
    {
      GrowAncestor(t, genesis, h, b, k, n);
    }
  }

  // ---------------------------------------------------------------- total difficulty

  ghost function DifficultySum(t: Tree, path: seq<Hash>): nat
    requires forall h :: h in path ==> h in t
  {
    if path == [] then 0 else t[path[0]].difficulty + DifficultySum(t, path[1..])
  }

  /** Difficulty accumulates from parent to child, on 256 bits. */
  ghost predicate Accumulates(t: Tree, genesis: Hash, h: Hash) {
    && (h in t && h == genesis ==> t[h].totalDifficulty == t[h].difficulty % TWO_256)
    && (h in t && h != genesis && t[h].parent in t ==>
          t[h].totalDifficulty == (t[t[h].parent].totalDifficulty + t[h].difficulty) % TWO_256)
  }

  ghost predicate Accumulated(t: Tree, genesis: Hash) {
    forall h {:trigger Accumulates(t, genesis, h)} :: Accumulates(t, genesis, h)
  }

  lemma {:induction false} DownIn(t: Tree, genesis: Hash, h: Hash, n: nat)
    requires WellFormed(t, genesis) && h in t && n <= t[h].number
    ensures forall k :: k in Down(t, genesis, h, n) ==> k in t
    decreases t[h].number
  {
    assert Linked(t, genesis, h);
    if n < t[h].number {
      DownIn(t, genesis, t[h].parent, n);
    }
  }

  /** The difficulties of a block and all its ancestors. */
  ghost function Weight(t: Tree, genesis: Hash, h: Hash): nat
    requires WellFormed(t, genesis) && h in t
  {
    DownIn(t, genesis, h, 0);
    t[genesis].difficulty + DifficultySum(t, Down(t, genesis, h, 0))
  }

  lemma WeightStep(t: Tree, genesis: Hash, h: Hash)
    requires WellFormed(t, genesis) && h in t && h != genesis
    ensures t[h].parent in t && Weight(t, genesis, h) == Weight(t, genesis, t[h].parent) + t[h].difficulty
  {
    assert Linked(t, genesis, h);
    DownIn(t, genesis, h, 0);
    DownIn(t, genesis, t[h].parent, 0);
    assert Down(t, genesis, h, 0)[1..] == Down(t, genesis, t[h].parent, 0);
  }

  /** A total difficulty is the sum of the difficulties of the block and all its ancestors, on 256 bits. */
  lemma {:induction false} TotalDifficultyIsSum(t: Tree, genesis: Hash, h: Hash)
    requires WellFormed(t, genesis) && Accumulated(t, genesis) && h in t
    ensures t[h].totalDifficulty == Weight(t, genesis, h) % TWO_256
    decreases t[h].number
  {
    assert Linked(t, genesis, h) && Accumulates(t, genesis, h);
    if h != genesis {
      TotalDifficultyIsSum(t, genesis, t[h].parent);
      WeightStep(t, genesis, h);
      AddMod(Weight(t, genesis, t[h].parent), t[h].difficulty);
    }
  }

  lemma AddMod(a: nat, d: nat)
    ensures (a % TWO_256 + d) % TWO_256 == (a + d) % TWO_256
  {
    var q := a / TWO_256;
    assert a + d == a % TWO_256 + d + q * TWO_256;
  }

  lemma GrowAccumulated(t: Tree, genesis: Hash, h: Hash, b: Block)
    requires Fits(t, genesis, h, b) && Accumulated(t, genesis)
    requires b.totalDifficulty == (t[b.parent].totalDifficulty + b.difficulty) % TWO_256
    ensures Accumulated(t[h := b], genesis)
  {
    var t' := t[h := b];
    forall k
      ensures Accumulates(t', genesis, k)
    {
      assert Accumulates(t, genesis, k) && Linked(t, genesis, k);
    }
  }

  // ---------------------------------------------------------------- fork choice

  /** `b` beats `c` as the head. */
  predicate Better(b: Block, c: Block, tieBreakingGas: bool) {
    c.totalDifficulty < b.totalDifficulty
    || (tieBreakingGas && b.totalDifficulty == c.totalDifficulty && c.gasUsed < b.gasUsed)
  }

  /** More total difficulty, or as much and more gas used. */
  predicate Outweighs(b: Block, c: Block) {
    c.totalDifficulty < b.totalDifficulty || (b.totalDifficulty == c.totalDifficulty && c.gasUsed < b.gasUsed)
  }

  /** No stored block has more total difficulty than the head, nor as much and more gas where gas breaks ties. */
  ghost predicate Heaviest(t: Tree, head: Hash, tieBreakingGas: bool) {
    && head in t
    && (forall k :: k in t ==> t[k].totalDifficulty <= t[head].totalDifficulty)
    && (tieBreakingGas ==>
          forall k :: k in t && t[k].totalDifficulty == t[head].totalDifficulty ==> t[k].gasUsed <= t[head].gasUsed)
  }

  lemma BestIsHeaviest(t: Tree, head: Hash, tieBreakingGas: bool)
    ensures IsBest(t, head, tieBreakingGas) <==> Heaviest(t, head, tieBreakingGas)
  {
    if IsBest(t, head, tieBreakingGas) {
      assert forall k :: k in t ==> BeatenAt(t, head, tieBreakingGas, k);
    }
  }

  /** No block beats the head. */
  ghost predicate IsBest(t: Tree, head: Hash, tieBreakingGas: bool) {
    head in t && forall h {:trigger BeatenAt(t, head, tieBreakingGas, h)} :: BeatenAt(t, head, tieBreakingGas, h)
  }

  ghost predicate BeatenAt(t: Tree, head: Hash, tieBreakingGas: bool, h: Hash)
    requires head in t
  {
    h in t ==> !Better(t[h], t[head], tieBreakingGas)
  }

  /** Numbers fit 32 bits. */
  ghost predicate Small(t: Tree) { forall h {:trigger SmallAt(t, h)} :: SmallAt(t, h) }

  ghost predicate SmallAt(t: Tree, h: Hash) { h in t ==> t[h].number < MAX_NUMBER }

  lemma GrowSmall(t: Tree, h: Hash, b: Block)
    requires Small(t) && b.number < MAX_NUMBER
    ensures Small(t[h := b])
  {
    var t' := t[h := b];
    forall k
      ensures SmallAt(t', k)
    {
      assert SmallAt(t, k);
    }
  }

  /** A block that does not beat the head leaves it the best, and one that does becomes the best. */
  lemma GrowBest(t: Tree, head: Hash, tieBreakingGas: bool, h: Hash, b: Block)
    requires IsBest(t, head, tieBreakingGas) && h !in t
    ensures if Better(b, t[head], tieBreakingGas) then IsBest(t[h := b], h, tieBreakingGas)
            else IsBest(t[h := b], head, tieBreakingGas)
  {
    var t' := t[h := b];
    forall k
      ensures if Better(b, t[head], tieBreakingGas) then BeatenAt(t', h, tieBreakingGas, k)
              else BeatenAt(t', head, tieBreakingGas, k)
    {
      assert BeatenAt(t, head, tieBreakingGas, k);
    }
  }

  // ---------------------------------------------------------------- what the indexes must hold

  ghost predicate IndexAt(t: Tree, genesis: Hash, head: Hash, index: map<nat, Hash>, n: nat)
    requires WellFormed(t, genesis) && head in t && n <= t[head].number
  {
    n in index && index[n] == Ancestor(t, genesis, head, n)
  }

  /** The number index names the head's ancestor at every height above the genesis. */
  ghost predicate Indexed(t: Tree, genesis: Hash, head: Hash, index: map<nat, Hash>)
    requires WellFormed(t, genesis) && head in t
  {
    forall n: nat :: 1 <= n <= t[head].number ==> IndexAt(t, genesis, head, index, n)
  }

  /** Cached numbers agree with the index at every height up to `last`. */
  predicate Right(cache: map<nat, Hash>, index: map<nat, Hash>, last: nat) {
    forall n :: n in cache && 1 <= n <= last ==> n in index && cache[n] == index[n]
  }

  /** Nothing is cached above `last`. */
  predicate Bounded(cache: map<nat, Hash>, last: nat) { forall n :: n in cache ==> n <= last }

  /** Cached numbers name the head's ancestors. */
  ghost predicate NamesAncestors(t: Tree, genesis: Hash, head: Hash, cache: map<nat, Hash>)
    requires WellFormed(t, genesis) && head in t
  {
    forall n: nat :: n in cache && 1 <= n <= t[head].number ==> IndexAt(t, genesis, head, cache, n)
  }

  /** The bloom of every canonical block above the genesis. */
  ghost function CanonBlooms(t: Tree, genesis: Hash, head: Hash): map<nat, Bloom>
    requires WellFormed(t, genesis) && head in t
  {
    map n: nat | 1 <= n <= t[head].number :: t[Ancestor(t, genesis, head, n)].bloom
  }

  /** Blocks are on the canonical chain of `head`. */
  ghost predicate Canonical(t: Tree, genesis: Hash, head: Hash, h: Hash)
    requires WellFormed(t, genesis) && head in t
  {
    IsAncestor(t, genesis, h, head)
  }

  // ---------------------------------------------------------------- the route of an import

  /** The canonical blocks above height `cn`, lowest first. */
  ghost predicate PathTo(t: Tree, genesis: Hash, head: Hash, cn: nat, path: seq<Hash>)
    requires WellFormed(t, genesis) && head in t
  {
    && cn <= t[head].number && |path| == t[head].number - cn
    && forall i :: 0 <= i < |path| ==> path[i] == Ancestor(t, genesis, head, cn + 1 + i)
  }

  /** The new chain is the old one up to height `cn`, and `path` above it. */
  ghost predicate Switch(t: Tree, genesis: Hash, oldHead: Hash, newHead: Hash, cn: nat, path: seq<Hash>)
    requires WellFormed(t, genesis) && oldHead in t && newHead in t
  {
    && cn <= t[oldHead].number && PathTo(t, genesis, newHead, cn, path)
    && (forall n: nat :: n <= cn ==> Ancestor(t, genesis, newHead, n) == Ancestor(t, genesis, oldHead, n))
    && (forall n: nat :: cn < n <= t[oldHead].number && n <= t[newHead].number ==>
          Ancestor(t, genesis, newHead, n) != Ancestor(t, genesis, oldHead, n))
  }

  /** What `Switch` means for the sets of canonical blocks. */
  lemma SwitchDeadAndFresh(t: Tree, genesis: Hash, oldHead: Hash, newHead: Hash, cn: nat, path: seq<Hash>, h: Hash)
    requires WellFormed(t, genesis) && oldHead in t && newHead in t && Switch(t, genesis, oldHead, newHead, cn, path)
    ensures h in path <==> Canonical(t, genesis, newHead, h) && !Canonical(t, genesis, oldHead, h)
    ensures h in Down(t, genesis, oldHead, cn)
            <==> Canonical(t, genesis, oldHead, h) && !Canonical(t, genesis, newHead, h)
  {
    var down := Down(t, genesis, oldHead, cn);
    forall i | 0 <= i < |down|
      ensures down[i] == Ancestor(t, genesis, oldHead, t[oldHead].number - i)
    {
      DownAt(t, genesis, oldHead, cn, i);
    }
    if Canonical(t, genesis, newHead, h) && cn < t[h].number {
      assert path[t[h].number - cn - 1] == h;
    }
    if Canonical(t, genesis, oldHead, h) && cn < t[h].number {
      assert down[t[oldHead].number - t[h].number] == h;
    }
  }

  /** Above the lowest common ancestor the branches differ. */
  lemma BranchesDiffer(t: Tree, genesis: Hash, h: Hash, k: Hash, c: Hash, n: nat)
    requires WellFormed(t, genesis) && h in t && k in t && LowestCommon(t, genesis, c, h, k)
    requires t[c].number < n <= t[h].number && n <= t[k].number
    ensures Ancestor(t, genesis, h, n) != Ancestor(t, genesis, k, n)
  {
    var a := Ancestor(t, genesis, h, n);
    assert IsAncestor(t, genesis, a, h) && !IsAncestor(t, genesis, a, k);
  }

  /** From the lowest common ancestor to `Switch`. */
  lemma RouteSwitches(t: Tree, genesis: Hash, oldHead: Hash, h: Hash, b: Block, c: Hash)
    requires Fits(t, genesis, h, b) && WellFormed(t[h := b], genesis) && oldHead in t
    requires LowestCommon(t, genesis, c, oldHead, b.parent)
    ensures Switch(t[h := b], genesis, oldHead, h, t[c].number, Reversed(Down(t, genesis, b.parent, t[c].number)) + [h])
  {
    var t' := t[h := b];
    var cn := t[c].number;
    forall n: nat | n <= cn
      ensures Ancestor(t', genesis, h, n) == Ancestor(t', genesis, oldHead, n)
    {
      MeetBelow(t, genesis, oldHead, b.parent, cn, n);
      GrowAncestor(t, genesis, h, b, b.parent, n);
      GrowAncestor(t, genesis, h, b, oldHead, n);
    }
    forall n: nat | cn < n <= t[oldHead].number && n <= b.number
      ensures Ancestor(t', genesis, h, n) != Ancestor(t', genesis, oldHead, n)
    {
      GrowAncestor(t, genesis, h, b, oldHead, n);
      if n < b.number {
        GrowAncestor(t, genesis, h, b, b.parent, n);
        BranchesDiffer(t, genesis, oldHead, b.parent, c, n);
      }
    }
    RoutePath(t, genesis, h, b, cn);
  }

  lemma RoutePath(t: Tree, genesis: Hash, h: Hash, b: Block, cn: nat)
    requires Fits(t, genesis, h, b) && WellFormed(t[h := b], genesis) && cn <= t[b.parent].number
    ensures PathTo(t[h := b], genesis, h, cn, Reversed(Down(t, genesis, b.parent, cn)) + [h])
  {
    var up := Down(t, genesis, b.parent, cn);
    var path := Reversed(up) + [h];
    forall i | 0 <= i < |path|
      ensures path[i] == Ancestor(t[h := b], genesis, h, cn + 1 + i)
    {
      if i < |up| {
        DownAt(t, genesis, b.parent, cn, |up| - 1 - i);
        GrowAncestor(t, genesis, h, b, b.parent, cn + 1 + i);
      }
    }
  }

  lemma {:induction false} GrowDown(t: Tree, genesis: Hash, h: Hash, b: Block, k: Hash, n: nat)
    requires Fits(t, genesis, h, b) && WellFormed(t[h := b], genesis) && k in t && n <= t[k].number
    ensures Down(t[h := b], genesis, k, n) == Down(t, genesis, k, n)
    decreases t[k].number
  {
    assert Linked(t, genesis, k);
    if n < t[k].number {
      GrowDown(t, genesis, h, b, t[k].parent, n);
    }
  }

  /** Sort a route into the blocks before and after the common ancestor. */
  method SplitRoute(route: seq<Hash>, common: Hash, ghost before: seq<Hash>, ghost after: seq<Hash>)
    returns (dead: seq<Hash>, live: seq<Hash>)
    requires route == before + [common] + after && common !in before && common !in after
    ensures dead == before && live == after
  {
    dead, live := [], [];
    var isOld := true;
    for i := 0 to |route|
      invariant isOld <==> i <= |before|
      invariant dead == if i <= |before| then before[..i] else before
      invariant live == if i <= |before| then [] else after[..i - |before| - 1]
    {
      assert i < |before| ==> route[i] in before;
      assert |before| < i ==> route[i] == after[i - |before| - 1] && route[i] in after;
      if route[i] == common {
        isOld := false;
      } else if isOld {
        dead := dead + [route[i]];
      } else {
        live := live + [route[i]];
      }
    }
  }

  /** The route from the head to a new block, and the two parts of it. */
  method RouteTo(t: Tree, ghost genesis: Hash, head: Hash, h: Hash, b: Block)
    returns (route: seq<Hash>, common: Hash, ghost before: seq<Hash>, ghost path: seq<Hash>)
    requires Fits(t, genesis, h, b) && head in t
    ensures common in t && common !in before && common !in path && route == before + [common] + path
    ensures t[common].number <= t[head].number && (common == head <==> t[common].number == t[head].number)
    ensures WellFormed(t[h := b], genesis) && Switch(t[h := b], genesis, head, h, t[common].number, path)
    ensures Diff(t[h := b], genesis, head, h, before) && Diff(t[h := b], genesis, h, head, path)
    ensures PathIn(t[h := b], path, t[common].number + 1) && Falling(t[h := b], before, t[head].number)
  {
    var index;
    route, common, index := TreeRoute(t, genesis, head, b.parent, true, true, true);
    route := route + [h];
    before, path := RouteParts(t, genesis, head, h, b, common);
  }

  /** `s` holds the ancestors of `h` that are not ancestors of `k`. */
  ghost predicate Diff(t: Tree, genesis: Hash, h: Hash, k: Hash, s: seq<Hash>)
    requires WellFormed(t, genesis) && h in t && k in t
  {
    forall x :: x in s <==> Canonical(t, genesis, h, x) && !Canonical(t, genesis, k, x)
  }

  /** Blocks of falling numbers. */
  ghost predicate Falling(t: Tree, s: seq<Hash>, top: nat) {
    && (forall h :: h in s ==> h in t)
    && forall i :: 0 <= i < |s| ==> t[s[i]].number == top - i
  }

  /** Blocks of rising numbers. */
  ghost predicate PathIn(t: Tree, path: seq<Hash>, from: nat) {
    && (forall h :: h in path ==> h in t)
    && forall i :: 0 <= i < |path| ==> t[path[i]].number == from + i
  }

  lemma RouteParts(t: Tree, genesis: Hash, head: Hash, h: Hash, b: Block, c: Hash)
    returns (before: seq<Hash>, path: seq<Hash>)
    requires Fits(t, genesis, h, b) && head in t && LowestCommon(t, genesis, c, head, b.parent)
    ensures c in t && c !in before && c !in path
    ensures Route(t, genesis, head, b.parent, c, true, true, true) + [h] == before + [c] + path
    ensures WellFormed(t[h := b], genesis) && Switch(t[h := b], genesis, head, h, t[c].number, path)
    ensures Diff(t[h := b], genesis, head, h, before) && Diff(t[h := b], genesis, h, head, path)
    ensures PathIn(t[h := b], path, t[c].number + 1) && Falling(t[h := b], before, t[head].number)
  {
    var cn := t[c].number;
    before := Down(t, genesis, head, cn);
    path := Reversed(Down(t, genesis, b.parent, cn)) + [h];
    GrowWellFormed(t, genesis, h, b);
    RouteSwitches(t, genesis, head, h, b, c);
    GrowDown(t, genesis, h, b, head, cn);
    GrowAncestor(t, genesis, h, b, head, cn);
    DiffParts(t[h := b], genesis, head, h, cn, path, c);
  }

  lemma DownFalls(t: Tree, genesis: Hash, h: Hash, n: nat)
    requires WellFormed(t, genesis) && h in t && n <= t[h].number
    ensures Falling(t, Down(t, genesis, h, n), t[h].number)
  {
    var down := Down(t, genesis, h, n);
    DownIn(t, genesis, h, n);
    forall i | 0 <= i < |down|
      ensures t[down[i]].number == t[h].number - i
    {
      DownAt(t, genesis, h, n, i);
    }
  }

  lemma DiffParts(t: Tree, genesis: Hash, head: Hash, h: Hash, cn: nat, path: seq<Hash>, c: Hash)
    requires WellFormed(t, genesis) && head in t && h in t && Switch(t, genesis, head, h, cn, path)
    requires c in t && c == Ancestor(t, genesis, head, cn)
    ensures c !in path && c !in Down(t, genesis, head, cn)
    ensures Diff(t, genesis, head, h, Down(t, genesis, head, cn)) && Diff(t, genesis, h, head, path)
    ensures PathIn(t, path, cn + 1) && Falling(t, Down(t, genesis, head, cn), t[head].number)
  {
    DownFalls(t, genesis, head, cn);
    forall x
      ensures x in path <==> Canonical(t, genesis, h, x) && !Canonical(t, genesis, head, x)
      ensures x in Down(t, genesis, head, cn) <==> Canonical(t, genesis, head, x) && !Canonical(t, genesis, h, x)
    {
      SwitchDeadAndFresh(t, genesis, head, h, cn, path, x);
    }
    assert Canonical(t, genesis, head, c) && Canonical(t, genesis, h, c);
  }

  // ---------------------------------------------------------------- rewriting the indexes

  /** `index` is `index0` with `values[k..]` at the heights from `from + k` on. */
  ghost predicate Overwritten<V>(index0: map<nat, V>, index: map<nat, V>, values: seq<V>, from: nat, k: nat) {
    k <= |values| && forall n: nat {:trigger OverwrittenAt(index0, index, values, from, k, n)} ::
      OverwrittenAt(index0, index, values, from, k, n)
  }

  ghost predicate OverwrittenAt<V>(index0: map<nat, V>, index: map<nat, V>, values: seq<V>, from: nat, k: nat, n: nat)
    requires k <= |values|
  {
    && (n in index <==> n in index0 || from + k <= n < from + |values|)
    && (n in index ==> index[n] == if from + k <= n < from + |values| then values[n - from] else index0[n])
  }

  lemma OverwriteOne<V>(index0: map<nat, V>, index: map<nat, V>, values: seq<V>, from: nat, k: nat)
    requires 0 < k && Overwritten(index0, index, values, from, k)
    ensures from + k - 1 !in index0 ==> from + k - 1 !in index
    ensures Overwritten(index0, index[from + k - 1 := values[k - 1]], values, from, k - 1)
  {
    assert OverwrittenAt(index0, index, values, from, k, from + k - 1);
    var index' := index[from + k - 1 := values[k - 1]];
    forall n: nat {:trigger OverwrittenAt(index0, index', values, from, k - 1, n)}
      ensures OverwrittenAt(index0, index', values, from, k - 1, n)
    {
      assert OverwrittenAt(index0, index, values, from, k, n);
    }
  }

  lemma OverwrittenIsIndexed(t: Tree, genesis: Hash, oldHead: Hash, newHead: Hash, cn: nat, path: seq<Hash>,
                             index0: map<nat, Hash>, index: map<nat, Hash>)
    requires WellFormed(t, genesis) && oldHead in t && newHead in t && Switch(t, genesis, oldHead, newHead, cn, path)
    requires Indexed(t, genesis, oldHead, index0) && Overwritten(index0, index, path, cn + 1, 0)
    ensures Indexed(t, genesis, newHead, index)
  {
    forall n: nat | 1 <= n <= t[newHead].number
      ensures IndexAt(t, genesis, newHead, index, n)
    {
      assert n <= cn ==> IndexAt(t, genesis, oldHead, index0, n);
      assert OverwrittenAt(index0, index, path, cn + 1, 0, n);
    }
  }

  ghost function BloomsOf(t: Tree, path: seq<Hash>): seq<Bloom>
    requires forall h :: h in path ==> h in t
  {
    seq(|path|, i requires 0 <= i < |path| => t[path[i]].bloom)
  }

  lemma OverwrittenIsCanonBlooms(t: Tree, genesis: Hash, oldHead: Hash, newHead: Hash, cn: nat, path: seq<Hash>,
                                 canon: map<nat, Bloom>)
    requires WellFormed(t, genesis) && oldHead in t && newHead in t && Switch(t, genesis, oldHead, newHead, cn, path)
    requires forall h :: h in path ==> h in t
    requires Overwritten(Below(CanonBlooms(t, genesis, oldHead), cn + 1), canon, BloomsOf(t, path), cn + 1, 0)
    ensures canon == CanonBlooms(t, genesis, newHead)
  {
    var wanted := CanonBlooms(t, genesis, newHead);
    forall n: nat
      ensures n in canon <==> n in wanted
      ensures n in canon ==> canon[n] == wanted[n]
    {
      assert OverwrittenAt(Below(CanonBlooms(t, genesis, oldHead), cn + 1), canon, BloomsOf(t, path), cn + 1, 0, n);
    }
    assert canon.Keys == wanted.Keys;
  }

  /** What clearing leaves of the cache: everything but the heights from the common ancestor to the old head. */
  ghost predicate Kept(cache: map<nat, Hash>, kept: map<nat, Hash>, cn: nat, last: nat) {
    && (forall n :: n in kept <==> n in cache && !(cn < n <= last))
    && (forall n :: n in kept ==> kept[n] == cache[n])
  }

  /**
   When the head moves, the cached numbers still name its ancestors exactly if those cached above the old head, if any,
   are the ones of the new path.
   */
  lemma StaleExactly(t: Tree, genesis: Hash, oldHead: Hash, newHead: Hash, cn: nat, path: seq<Hash>,
                     cache: map<nat, Hash>, kept: map<nat, Hash>)
    requires WellFormed(t, genesis) && oldHead in t && newHead in t && Switch(t, genesis, oldHead, newHead, cn, path)
    requires NamesAncestors(t, genesis, oldHead, cache) && Kept(cache, kept, cn, t[oldHead].number)
    ensures NamesAncestors(t, genesis, newHead, kept) <==>
              forall n :: n in cache && t[oldHead].number < n <= t[newHead].number ==> cache[n] == path[n - cn - 1]
  {
    forall n: nat | n in kept && 1 <= n <= t[newHead].number
      ensures n <= cn ==> IndexAt(t, genesis, newHead, kept, n)
      ensures cn < n ==> (IndexAt(t, genesis, newHead, kept, n) <==> cache[n] == path[n - cn - 1])
    {
      assert n <= cn ==> IndexAt(t, genesis, oldHead, cache, n);
    }
    if NamesAncestors(t, genesis, newHead, kept) {
      forall n | n in cache && t[oldHead].number < n <= t[newHead].number
        ensures cache[n] == path[n - cn - 1]
      {
        assert IndexAt(t, genesis, newHead, kept, n);
      }
    }
  }

  /** The same against the number index, which is right at all times. */
  lemma RightAfterMove(cache: map<nat, Hash>, kept: map<nat, Hash>, index: map<nat, Hash>, index': map<nat, Hash>,
                       path: seq<Hash>, cn: nat, last: nat)
    requires Kept(cache, kept, cn, last) && Overwritten(index, index', path, cn + 1, 0) && cn <= last
    requires Right(cache, index, last)
    ensures Right(kept, index', cn + |path|) <==> RightAbove(cache, index', last, cn + |path|)
  {
    assert forall n: nat :: n in kept && n <= cn ==> OverwrittenAt(index, index', path, cn + 1, 0, n);
    if Right(kept, index', cn + |path|) {
      forall n | n in cache && last < n <= cn + |path|
        ensures n in index' && cache[n] == index'[n]
      {
        assert n in kept;
      }
    }
  }

  /** Cached numbers between two heights agree with the index. */
  predicate RightAbove(cache: map<nat, Hash>, index: map<nat, Hash>, low: nat, high: nat) {
    forall n :: n in cache && low < n <= high ==> n in index && cache[n] == index[n]
  }

  // ---------------------------------------------------------------- the chain

  datatype View = View(blocks: Tree, head: Hash, lastNumber: nat, numberDb: map<nat, Hash>, numberCache: map<nat, Hash>,
                       canon: map<nat, Bloom>, rewound: bool)

  /** Everything that holds between the tree, the head and the indexes. */
  ghost predicate Coherent(v: View, genesis: Hash, tieBreakingGas: bool) {
    && WellFormed(v.blocks, genesis) && Accumulated(v.blocks, genesis)
    && Small(v.blocks)
    && v.head in v.blocks && v.lastNumber == v.blocks[v.head].number
    && Indexed(v.blocks, genesis, v.head, v.numberDb)
    && v.canon == CanonBlooms(v.blocks, genesis, v.head)
    && (!v.rewound ==> IsBest(v.blocks, v.head, tieBreakingGas))
  }

  /** Storing a block changes nothing about the chain of the old head. */
  lemma StoreKeeps(v: View, genesis: Hash, tieBreakingGas: bool, h: Hash, b: Block)
    requires Coherent(v, genesis, tieBreakingGas) && Fits(v.blocks, genesis, h, b) && b.number < MAX_NUMBER
    requires b.totalDifficulty == (v.blocks[b.parent].totalDifficulty + b.difficulty) % TWO_256
    ensures var t := v.blocks[h := b];
            && WellFormed(t, genesis) && Accumulated(t, genesis)
            && Indexed(t, genesis, v.head, v.numberDb) && v.canon == CanonBlooms(t, genesis, v.head)
  {
    var t := v.blocks[h := b];
    GrowAncestors(v.blocks, genesis, h, b);
    GrowAccumulated(v.blocks, genesis, h, b);
    forall n: nat | 1 <= n <= v.lastNumber
      ensures IndexAt(t, genesis, v.head, v.numberDb, n)
    {
      assert IndexAt(v.blocks, genesis, v.head, v.numberDb, n);
    }
    assert v.canon == CanonBlooms(t, genesis, v.head);
  }

  /** A stored block that does not beat the head. */
  lemma NotBestKeeps(v: View, genesis: Hash, tieBreakingGas: bool, h: Hash, b: Block)
    requires Coherent(v, genesis, tieBreakingGas) && Fits(v.blocks, genesis, h, b) && b.number < MAX_NUMBER
    requires b.totalDifficulty == (v.blocks[b.parent].totalDifficulty + b.difficulty) % TWO_256
    requires !Better(b, v.blocks[v.head], tieBreakingGas)
    ensures Coherent(v.(blocks := v.blocks[h := b]), genesis, tieBreakingGas)
  {
    StoreKeeps(v, genesis, tieBreakingGas, h, b);
    GrowSmall(v.blocks, h, b);
    if !v.rewound {
      GrowBest(v.blocks, v.head, tieBreakingGas, h, b);
    }
  }

  /** How the head moves to a new block. */
  ghost predicate Moved(v: View, v': View, h: Hash, b: Block, cn: nat, path: seq<Hash>) {
    && v'.blocks == v.blocks[h := b] && v'.head == h && v'.lastNumber == b.number
    && v'.rewound == v.rewound
    && Overwritten(v.numberDb, v'.numberDb, path, cn + 1, 0)
    && (forall k :: k in path ==> k in v'.blocks)
    && Overwritten(Below(v.canon, cn + 1), v'.canon, BloomsOf(v'.blocks, path), cn + 1, 0)
    && Kept(v.numberCache, v'.numberCache, cn, v.lastNumber)
  }

  /** The head moves to a stored block that beats it, and the indexes are rewritten above the common ancestor. */
  lemma BestKeeps(v: View, v': View, genesis: Hash, tieBreakingGas: bool, h: Hash, b: Block, cn: nat, path: seq<Hash>)
    requires Coherent(v, genesis, tieBreakingGas) && Fits(v.blocks, genesis, h, b) && b.number < MAX_NUMBER
    requires b.totalDifficulty == (v.blocks[b.parent].totalDifficulty + b.difficulty) % TWO_256
    requires Better(b, v.blocks[v.head], tieBreakingGas)
    requires WellFormed(v.blocks[h := b], genesis) && Switch(v.blocks[h := b], genesis, v.head, h, cn, path)
    requires Moved(v, v', h, b, cn, path)
    ensures Coherent(v', genesis, tieBreakingGas)
  {
    StoreKeeps(v, genesis, tieBreakingGas, h, b);
    OverwrittenIsIndexed(v'.blocks, genesis, v.head, h, cn, path, v.numberDb, v'.numberDb);
    OverwrittenIsCanonBlooms(v'.blocks, genesis, v.head, h, cn, path, v'.canon);
    GrowSmall(v.blocks, h, b);
    if !v.rewound {
      GrowBest(v.blocks, v.head, tieBreakingGas, h, b);
    }
  }

  /** What happens to the cached numbers when the head moves. */
  lemma CacheAfterMove(v: View, v': View, h: Hash, b: Block, cn: nat, path: seq<Hash>)
    requires Moved(v, v', h, b, cn, path) && cn <= v.lastNumber && b.number == cn + |path|
    ensures Right(v.numberCache, v.numberDb, v.lastNumber) ==>
              (Right(v'.numberCache, v'.numberDb, v'.lastNumber) <==>
                 RightAbove(v.numberCache, v'.numberDb, v.lastNumber, v'.lastNumber))
    ensures Bounded(v.numberCache, v.lastNumber) ==> Bounded(v'.numberCache, v'.lastNumber)
    ensures KeptAbove(v.numberCache, v'.numberCache, v.lastNumber)
  {
    if Right(v.numberCache, v.numberDb, v.lastNumber) {
      RightAfterMove(v.numberCache, v'.numberCache, v.numberDb, v'.numberDb, path, cn, v.lastNumber);
    }
  }

  /** Numbers cached above `last` stay cached. */
  ghost predicate KeptAbove(cache: map<nat, Hash>, kept: map<nat, Hash>, last: nat) {
    forall n :: n in cache && last < n ==> n in kept && kept[n] == cache[n]
  }

  /** The number index is right at every height up to the head. */
  lemma IndexIsRight(v: View, genesis: Hash, tieBreakingGas: bool, n: nat)
    requires Coherent(v, genesis, tieBreakingGas) && n <= v.lastNumber
    ensures n == 0 ==> genesis == Ancestor(v.blocks, genesis, v.head, n)
    ensures 1 <= n ==> n in v.numberDb && v.numberDb[n] == Ancestor(v.blocks, genesis, v.head, n)
  {
    GenesisBelow(v.blocks, genesis, v.head);
    assert 1 <= n ==> IndexAt(v.blocks, genesis, v.head, v.numberDb, n);
  }

  /** So agreeing with it is naming ancestors. */
  lemma RightNamesAncestors(v: View, genesis: Hash, tieBreakingGas: bool)
    requires Coherent(v, genesis, tieBreakingGas)
    ensures Right(v.numberCache, v.numberDb, v.lastNumber)
            <==> NamesAncestors(v.blocks, genesis, v.head, v.numberCache)
  {
    forall n: nat | n in v.numberCache && 1 <= n <= v.lastNumber
      ensures IndexAt(v.blocks, genesis, v.head, v.numberCache, n)
              <==> n in v.numberDb && v.numberCache[n] == v.numberDb[n]
    {
      assert IndexAt(v.blocks, genesis, v.head, v.numberDb, n);
    }
  }

  /** Going back to an ancestor of the head. */
  lemma RewindKeeps(v: View, genesis: Hash, tieBreakingGas: bool, n: nat, cache: map<nat, Hash>)
    requires Coherent(v, genesis, tieBreakingGas) && n <= v.lastNumber
    ensures Coherent(v.(head := Ancestor(v.blocks, genesis, v.head, n), lastNumber := n, numberCache := cache,
                        canon := Below(v.canon, n + 1), rewound := true), genesis, tieBreakingGas)
  {
    var t := v.blocks;
    var a := Ancestor(t, genesis, v.head, n);
    forall k: nat | k <= n
      ensures Ancestor(t, genesis, a, k) == Ancestor(t, genesis, v.head, k)
    {
      AncestorTwice(t, genesis, v.head, n, k);
    }
    forall k: nat | 1 <= k <= n
      ensures IndexAt(t, genesis, a, v.numberDb, k)
    {
      assert IndexAt(t, genesis, v.head, v.numberDb, k);
    }
    assert Below(v.canon, n + 1) == CanonBlooms(t, genesis, a);
  }

  /** What a lookup of height `n` answers. */
  function Answer(genesis: Hash, cache: map<nat, Hash>, index: map<nat, Hash>, n: nat): Hash {
    if n == 0 then genesis else if n in cache then cache[n] else if n in index then index[n] else 0
  }

  /** The cache after a lookup of height `n`. */
  function Filled(cache: map<nat, Hash>, index: map<nat, Hash>, n: nat): map<nat, Hash> {
    if n == 0 || n in cache || n !in index then cache else cache[n := index[n]]
  }

  /** What is cached for height `n`, if anything, agrees with the index. */
  predicate NotStale(cache: map<nat, Hash>, index: map<nat, Hash>, n: nat) {
    n == 0 || n !in cache || (n in index && cache[n] == index[n])
  }

  /** An answer is right exactly unless it comes from a stale entry; asking makes no entry stale. */
  lemma AnswerExactly(v: View, genesis: Hash, tieBreakingGas: bool, n: nat)
    requires Coherent(v, genesis, tieBreakingGas)
    ensures n <= v.lastNumber ==>
              (Answer(genesis, v.numberCache, v.numberDb, n) == Ancestor(v.blocks, genesis, v.head, n)
               <==> NotStale(v.numberCache, v.numberDb, n))
    ensures Right(v.numberCache, v.numberDb, v.lastNumber) ==>
              Right(Filled(v.numberCache, v.numberDb, n), v.numberDb, v.lastNumber)
  {
    if n <= v.lastNumber {
      IndexIsRight(v, genesis, tieBreakingGas, n);
    }
  }

  /** What is left of the cache when it is cleared above height `n`, up to the head at `last`. */
  ghost function Cleared(cache: map<nat, Hash>, n: nat, last: nat): map<nat, Hash> {
    map k | k in cache && !(n < k <= last) :: cache[k]
  }

  lemma KeptIsCleared(cache: map<nat, Hash>, kept: map<nat, Hash>, n: nat, last: nat)
    requires Kept(cache, kept, n, last)
    ensures kept == Cleared(cache, n, last)
  {
    assert kept.Keys == Cleared(cache, n, last).Keys;
  }

  /** The state after `kept` is left of the cache, height `n` is looked up and the answer becomes the head. */
  ghost function BackAt(v: View, genesis: Hash, n: nat, kept: map<nat, Hash>): View {
    v.(head := Answer(genesis, v.numberCache, v.numberDb, n), lastNumber := n,
       numberCache := Filled(kept, v.numberDb, n), canon := Below(v.canon, n + 1), rewound := true)
  }

  /** Going back to height `n` finds the ancestor there exactly unless the entry of that height is stale. */
  lemma BackExactly(v: View, genesis: Hash, tieBreakingGas: bool, n: nat, kept: map<nat, Hash>)
    requires Coherent(v, genesis, tieBreakingGas) && n < v.lastNumber && Kept(v.numberCache, kept, n, v.lastNumber)
    ensures var v' := BackAt(v, genesis, n, kept);
            && (v'.head == Ancestor(v.blocks, genesis, v.head, n) <==> NotStale(v.numberCache, v.numberDb, n))
            && (NotStale(v.numberCache, v.numberDb, n) <==> Coherent(v', genesis, tieBreakingGas))
            && (Right(v.numberCache, v.numberDb, v.lastNumber) ==> Right(v'.numberCache, v.numberDb, n))
            && (Bounded(v.numberCache, v.lastNumber) ==> Bounded(v'.numberCache, n))
  {
    AnswerExactly(v, genesis, tieBreakingGas, n);
    IndexIsRight(v, genesis, tieBreakingGas, n);
    RewindKeeps(v, genesis, tieBreakingGas, n, Filled(kept, v.numberDb, n));
    var v' := BackAt(v, genesis, n, kept);
    if Coherent(v', genesis, tieBreakingGas) {
      IndexIsRight(v', genesis, tieBreakingGas, n);
    }
  }

  method Erase(cache: map<nat, Hash>, begin: nat, end: nat) returns (kept: map<nat, Hash>)
    requires begin <= end
    ensures forall n :: n in kept <==> n in cache && !(begin <= n < end)
    ensures forall n :: n in kept ==> kept[n] == cache[n]
  {
    kept := cache;
    for i := begin to end
      invariant forall n :: n in kept <==> n in cache && !(begin <= n < i)
      invariant forall n :: n in kept ==> kept[n] == cache[n]
    {
      kept := kept - {i};
    }
  }

  datatype ImportResult = Imported(dead: seq<Hash>, live: seq<Hash>) | AlreadyHaveBlock | UnknownParent | InvalidNumber

  class BlockChain {
    const genesis: Hash
    const tieBreakingGas: bool
    const blooms: Index
    var blocks: Tree
    var head: Hash
    var lastNumber: nat
    var numberDb: map<nat, Hash>
    var numberCache: map<nat, Hash>
    /** Whether the head was ever moved back. */
    ghost var rewound: bool

    ghost function State(): View
      reads this, blooms
    {
      View(blocks, head, lastNumber, numberDb, numberCache, blooms.canon, rewound)
    }

    ghost predicate Valid()
      reads this, blooms
    {
      blooms.Valid() && Coherent(State(), genesis, tieBreakingGas)
    }

    /** The cached numbers agree with the number index up to the head. */
    predicate CacheRight()
      reads this
    {
      Right(numberCache, numberDb, lastNumber)
    }

    constructor (genesis: Hash, difficulty: nat, gasUsed: nat, bloom: Bloom, tieBreakingGas: bool)
      requires genesis != 0 && difficulty < TWO_256
      ensures Valid() && fresh(blooms) && !blooms.evicted && !rewound && lastNumber == 0 && numberCache == map[]
      ensures this.genesis == genesis && this.tieBreakingGas == tieBreakingGas && head == genesis
      ensures blocks == map[genesis := Block(0, 0, difficulty, difficulty, gasUsed, bloom)] && numberDb == map[]
    {
      this.genesis, this.tieBreakingGas := genesis, tieBreakingGas;
      blooms := new Index();
      blocks := map[genesis := Block(0, 0, difficulty, difficulty, gasUsed, bloom)];
      head, lastNumber, numberDb, numberCache := genesis, 0, map[], map[];
      rewound := false;
      new;
      assert forall h :: Linked(blocks, genesis, h) && Accumulates(blocks, genesis, h);
      assert blooms.canon == CanonBlooms(blocks, genesis, head);
    }

    /** Forget what is cached about the heights from `firstInvalid` to the head. */
    method ClearCachesDuringChainReversion(firstInvalid: nat)
      requires blooms.Valid() && firstInvalid <= lastNumber < MAX_NUMBER
      requires forall n :: n in blooms.canon ==> n <= lastNumber
      modifies this`numberCache, blooms
      ensures blooms.Valid() && blooms.canon == Below(old(blooms.canon), firstInvalid)
      ensures blooms.evicted == old(blooms.evicted)
      ensures 0 < firstInvalid ==> Kept(old(numberCache), numberCache, firstInvalid - 1, lastNumber)
    {
      numberCache := Erase(numberCache, firstInvalid, lastNumber + 1);
      blooms.ClearBlockBlooms(firstInvalid, lastNumber + 1);
    }

    /** Forget what is cached above the common ancestor, unless that is the head itself. */
    method ForgetAbove(common: Hash)
      requires blooms.Valid() && lastNumber < MAX_NUMBER && common in blocks && blocks[common].number <= lastNumber
      requires common == head <==> blocks[common].number == lastNumber
      requires forall n :: n in blooms.canon ==> n <= lastNumber
      modifies this`numberCache, blooms
      ensures blooms.Valid() && blooms.canon == Below(old(blooms.canon), blocks[common].number + 1)
      ensures blooms.evicted == old(blooms.evicted)
      ensures Kept(old(numberCache), numberCache, blocks[common].number, lastNumber)
    {
      if common != head {
        ClearCachesDuringChainReversion(blocks[common].number + 1);
      } else {
        assert blooms.canon == Below(blooms.canon, lastNumber + 1);
      }
    }

    /** Note the blocks of the route above the common ancestor, from the new head down. */
    method NoteRoute(route: seq<Hash>, common: Hash, ghost before: seq<Hash>, ghost path: seq<Hash>, ghost from: nat)
      requires route == before + [common] + path && common !in path
      requires blooms.Valid() && forall n :: n in blooms.canon ==> n < from
      requires PathIn(blocks, path, from) && Small(blocks)
      modifies this`numberDb, blooms
      ensures blooms.Valid() && blooms.evicted == old(blooms.evicted)
      ensures Overwritten(old(numberDb), numberDb, path, from, 0)
      ensures Overwritten(old(blooms.canon), blooms.canon, BloomsOf(blocks, path), from, 0)
    {
      ghost var values := BloomsOf(blocks, path);
      var j := |route|;
      ghost var k := |path|;
      while 0 < j && route[j - 1] != common
        invariant 0 <= k <= |path| && j == |before| + 1 + k
        invariant blooms.Valid() && blooms.evicted == old(blooms.evicted)
        invariant Overwritten(old(numberDb), numberDb, path, from, k)
        invariant Overwritten(old(blooms.canon), blooms.canon, values, from, k)
      {
        var h := route[j - 1];
        assert 0 < k && h == path[k - 1] && h in path && SmallAt(blocks, h);
        OverwriteOne(old(numberDb), numberDb, path, from, k);
        OverwriteOne(old(blooms.canon), blooms.canon, values, from, k);
        blooms.Note(blocks[h].number, blocks[h].bloom);
        numberDb := numberDb[blocks[h].number := h];
        j, k := j - 1, k - 1;
      }
    }

    /** Store a block and, if it beats the head, make it the head. */
    method Import(h: Hash, number: nat, parent: Hash, difficulty: nat, gasUsed: nat, bloom: Bloom)
      returns (r: ImportResult)
      requires Valid() && h != 0 && number < MAX_NUMBER
      modifies this, blooms
      ensures Valid() && rewound == old(rewound)
      ensures blooms.evicted == old(blooms.evicted)
      ensures r.AlreadyHaveBlock? <==> h in old(blocks)
      ensures r.UnknownParent? <==> h !in old(blocks) && parent !in old(blocks)
      ensures r.InvalidNumber? <==>
                h !in old(blocks) && parent in old(blocks) && number != old(blocks)[parent].number + 1
      ensures !r.Imported? ==> State() == old(State())
      ensures head != old(head) ==> Outweighs(blocks[head], old(blocks[head]))
      ensures !rewound ==> Heaviest(blocks, head, tieBreakingGas)
      ensures old(CacheRight()) ==>
                (CacheRight() <==> RightAbove(old(numberCache), numberDb, old(lastNumber), lastNumber))
      ensures old(Bounded(numberCache, lastNumber)) ==> Bounded(numberCache, lastNumber)
      ensures KeptAbove(old(numberCache), numberCache, old(lastNumber))
      ensures r.Imported? ==>
                && blocks == old(blocks)[h := Block(number, parent, difficulty,
                                                    (old(blocks)[parent].totalDifficulty + difficulty) % TWO_256,
                                                    gasUsed, bloom)]
                && (head == h || head == old(head))
                && (head == h <==>
                      || blocks[old(head)].totalDifficulty < blocks[h].totalDifficulty
                      || (tieBreakingGas && blocks[old(head)].totalDifficulty == blocks[h].totalDifficulty
                          && blocks[old(head)].gasUsed < blocks[h].gasUsed))
                && Diff(blocks, genesis, old(head), head, r.dead) && Diff(blocks, genesis, head, old(head), r.live)
                && Falling(blocks, r.dead, old(lastNumber))
                && |r.live| <= lastNumber + 1 && PathIn(blocks, r.live, lastNumber + 1 - |r.live|)
    {
      BestIsHeaviest(blocks, head, tieBreakingGas);
      if h in blocks {
        return AlreadyHaveBlock;
      }
      if parent !in blocks {
        return UnknownParent;
      }
      if number != blocks[parent].number + 1 {
        return InvalidNumber;
      }
      var total := (blocks[parent].totalDifficulty + difficulty) % TWO_256;
      var b := Block(number, parent, difficulty, total, gasUsed, bloom);
      if !Better(b, blocks[head], tieBreakingGas) {
        NotBestKeeps(State(), genesis, tieBreakingGas, h, b);
        blocks := blocks[h := b];
        BestIsHeaviest(blocks, head, tieBreakingGas);
        return Imported([], []);
      }
      r := Reorganise(h, b);
      BestIsHeaviest(blocks, head, tieBreakingGas);
    }

    /** The new block becomes the head. */
    method Reorganise(h: Hash, b: Block) returns (r: ImportResult)
      requires Valid() && Fits(blocks, genesis, h, b) && b.number < MAX_NUMBER
      requires b.totalDifficulty == (blocks[b.parent].totalDifficulty + b.difficulty) % TWO_256
      requires Better(b, blocks[head], tieBreakingGas)
      modifies this, blooms
      ensures Valid() && rewound == old(rewound)
      ensures blooms.evicted == old(blooms.evicted)
      ensures blocks == old(blocks)[h := b] && head == h && r.Imported?
      ensures Diff(blocks, genesis, old(head), head, r.dead) && Diff(blocks, genesis, head, old(head), r.live)
      ensures Falling(blocks, r.dead, old(lastNumber))
      ensures |r.live| <= lastNumber + 1 && PathIn(blocks, r.live, lastNumber + 1 - |r.live|)
      ensures old(CacheRight()) ==>
                (CacheRight() <==> RightAbove(old(numberCache), numberDb, old(lastNumber), lastNumber))
      ensures old(Bounded(numberCache, lastNumber)) ==> Bounded(numberCache, lastNumber)
      ensures KeptAbove(old(numberCache), numberCache, old(lastNumber))
    {
      var route, common, before, path := RouteTo(blocks, genesis, head, h, b);
      assert SmallAt(blocks, head);
      MoveHead(h, b, route, common, before, path);
      BestKeeps(old(State()), State(), genesis, tieBreakingGas, h, b, old(blocks)[common].number, path);
      CacheAfterMove(old(State()), State(), h, b, old(blocks)[common].number, path);
      var dead, live := SplitRoute(route, common, before, path);
      r := Imported(dead, live);
    }

    /** Rewrite the indexes above the common ancestor and change the head. */
    method MoveHead(h: Hash, b: Block, route: seq<Hash>, common: Hash, ghost before: seq<Hash>, ghost path: seq<Hash>)
      requires blooms.Valid() && lastNumber < MAX_NUMBER && forall n :: n in blooms.canon ==> n <= lastNumber
      requires b.number < MAX_NUMBER && Small(blocks)
      requires h !in blocks && common in blocks && blocks[common].number <= lastNumber
      requires common == head <==> blocks[common].number == lastNumber
      requires route == before + [common] + path && common !in path
      requires PathIn(blocks[h := b], path, blocks[common].number + 1)
      modifies this, blooms
      ensures blooms.Valid() && blooms.evicted == old(blooms.evicted)
      ensures Moved(old(State()), State(), h, b, old(blocks)[common].number, path)
    {
      GrowSmall(blocks, h, b);
      ForgetAbove(common);
      ghost var from := blocks[common].number + 1;
      blocks := blocks[h := b];
      NoteRoute(route, common, before, path, from);
      head, lastNumber := h, b.number;
    }

    /** The cache collector drops a chunk of blooms. */
    method Collect(id: nat)
      requires Valid()
      modifies blooms
      ensures Valid() && State() == old(State())
    {
      blooms.Evict(id);
    }

    /** Block `n` is canonical, not the genesis, and its bloom contains `b`. */
    ghost predicate Match(b: Bloom, n: nat)
      requires Valid()
      reads this, blooms
    {
      1 <= n <= lastNumber && b <= blocks[Ancestor(blocks, genesis, head, n)].bloom
    }

    /**
     The canonical blocks whose bloom contains `b`: one in the range is found exactly unless the end of the range wraps
     around and it is not among the first 256.  There are no others than the search reaches, and none that is not a
     match unless blooms were dropped from memory.
     */
    method WithBlockBloom(b: Bloom, earliest: nat, latest: nat) returns (ret: seq<nat>)
      requires Valid() && earliest <= latest < MAX_NUMBER
      ensures Ascending(ret)
      ensures forall n: nat {:trigger Match(b, n)} ::
                Match(b, n) && earliest <= n <= latest ==> (n in ret <==> latest <= LAST_SAFE || n < SIZE * SIZE)
      ensures forall n: nat {:trigger Match(b, n)} ::
                Match(b, n) && earliest <= n ==> (n in ret <==> Reached(latest, n))
      ensures forall n :: n in ret ==> earliest <= n && Reached(latest, n)
      ensures !blooms.evicted && b != {} ==> forall n :: n in ret ==> Match(b, n)
    {
      ret := blooms.WithBlockBloom(b, earliest, latest);
      assert forall n: nat {:trigger Match(b, n)} :: 1 <= n <= lastNumber ==>
               n in blooms.canon && blooms.canon[n] == blocks[Ancestor(blocks, genesis, head, n)].bloom;
    }

    /**
     The hash at a height, remembered in the cache once found.  Up to the head the answer is right exactly unless the
     height is cached and its entry is stale; a cache that is right stays so.
     */
    method NumberHash(n: nat) returns (r: Hash)
      requires Valid()
      modifies this`numberCache
      ensures Valid() && r == Answer(genesis, old(numberCache), numberDb, n)
      ensures numberCache == Filled(old(numberCache), numberDb, n)
      ensures n <= lastNumber ==>
                (r == Ancestor(blocks, genesis, head, n) <==> NotStale(old(numberCache), numberDb, n))
      ensures old(CacheRight()) ==> CacheRight()
    {
      AnswerExactly(State(), genesis, tieBreakingGas, n);
      if n == 0 {
        return genesis;
      }
      if n in numberCache {
        return numberCache[n];
      }
      if n !in numberDb {
        return 0;
      }
      r := numberDb[n];
      numberCache := numberCache[n := r];
    }

    /**
     Make the canonical block at height `newHead` the head again.  The indexes are left coherent exactly unless the
     cached entry of that height is stale, and then the head is that entry.
     */
    method Rewind(newHead: nat)
      requires Valid()
      modifies this, blooms
      ensures blooms.Valid() && blooms.evicted == old(blooms.evicted)
      ensures old(lastNumber) <= newHead ==> State() == old(State())
      ensures newHead < old(lastNumber) ==>
                && State() == BackAt(old(State()), genesis, newHead,
                                     Cleared(old(numberCache), newHead, old(lastNumber)))
                && head == Answer(genesis, old(numberCache), numberDb, newHead) && lastNumber == newHead
                && (head == Ancestor(blocks, genesis, old(head), newHead)
                    <==> NotStale(old(numberCache), numberDb, newHead))
      ensures Valid() <==> NotStale(old(numberCache), numberDb, newHead) || old(lastNumber) <= newHead
      ensures old(CacheRight()) ==> CacheRight()
      ensures old(Bounded(numberCache, lastNumber)) ==> Bounded(numberCache, lastNumber)
    {
      if newHead < lastNumber {
        GoBack(newHead);
      }
    }

    method GoBack(newHead: nat)
      requires Valid() && newHead < lastNumber
      modifies this, blooms
      ensures blooms.Valid() && blooms.evicted == old(blooms.evicted)
      ensures State() == BackAt(old(State()), genesis, newHead, Cleared(old(numberCache), newHead, old(lastNumber)))
      ensures head == Ancestor(blocks, genesis, old(head), newHead) <==> NotStale(old(numberCache), numberDb, newHead)
      ensures NotStale(old(numberCache), numberDb, newHead) <==> Coherent(State(), genesis, tieBreakingGas)
      ensures old(CacheRight()) ==> CacheRight()
      ensures old(Bounded(numberCache, lastNumber)) ==> Bounded(numberCache, lastNumber)
    {
      assert SmallAt(blocks, head);
      IndexIsRight(State(), genesis, tieBreakingGas, newHead);
      ghost var kept := StepBack(newHead);
      KeptIsCleared(old(numberCache), kept, newHead, old(lastNumber));
      BackExactly(old(State()), genesis, tieBreakingGas, newHead, kept);
    }

    /** Clear what is cached above height `newHead` and make the block found there the head. */
    method StepBack(newHead: nat) returns (ghost kept: map<nat, Hash>)
      requires blooms.Valid() && newHead < lastNumber < MAX_NUMBER && forall n :: n in blooms.canon ==> n <= lastNumber
      requires newHead == 0 || newHead in numberDb
      modifies this, blooms
      ensures blooms.Valid() && blooms.evicted == old(blooms.evicted)
      ensures Kept(old(numberCache), kept, newHead, old(lastNumber))
      ensures State() == BackAt(old(State()), genesis, newHead, kept)
    {
      ClearCachesDuringChainReversion(newHead + 1);
      kept := numberCache;
      numberCache := Filled(numberCache, numberDb, newHead);
      head := if newHead == 0 then genesis else numberCache[newHead];
      lastNumber, rewound := newHead, true;
    }
  }

  // ---------------------------------------------------------------- a stale number

  /** A block on the genesis that becomes the head. */
  method ImportFirst(c: BlockChain, h: Hash, difficulty: nat)
    requires c.Valid() && c.head == c.genesis && h != 0 && h !in c.blocks
    requires var total := (c.blocks[c.genesis].totalDifficulty + difficulty) % TWO_256;
             Better(Block(1, c.genesis, difficulty, total, 0, {}), c.blocks[c.genesis], c.tieBreakingGas)
    modifies c, c.blooms
    ensures c.Valid() && c.head == h && c.lastNumber == 1 && Ancestor(c.blocks, c.genesis, h, 1) == h
    ensures c.blocks.Keys == old(c.blocks.Keys) + {h} && c.blocks[c.genesis] == old(c.blocks)[c.genesis]
    ensures 1 in c.numberDb && c.numberDb[1] == h
    ensures 1 in old(c.numberCache) ==> 1 in c.numberCache && c.numberCache[1] == old(c.numberCache)[1]
    ensures old(c.numberCache) == map[] ==> c.CacheRight() && Bounded(c.numberCache, 1)
  {
    assert c.lastNumber == 0;
    var r := c.Import(h, 1, c.genesis, difficulty, 0, {});
    IndexIsRight(c.State(), c.genesis, c.tieBreakingGas, 1);
  }

  /**
   How a number becomes stale: import a block, rewind to the genesis, look up height 1, which is now above the head but
   still in the database, and import another block.  Height 1 then answers with the wrong block.
   */
  method StaleNumber(c: BlockChain, first: Hash, second: Hash, difficulty: nat) returns (r: Hash)
    requires c.Valid() && c.head == c.genesis && c.numberCache == map[]
    requires first != 0 && second != 0 && first != second && first !in c.blocks && second !in c.blocks
    requires var total := (c.blocks[c.genesis].totalDifficulty + difficulty) % TWO_256;
             Better(Block(1, c.genesis, difficulty, total, 0, {}), c.blocks[c.genesis], c.tieBreakingGas)
    modifies c, c.blooms
    ensures c.Valid() && c.head == second && c.lastNumber == 1
    ensures r == first && Ancestor(c.blocks, c.genesis, c.head, 1) == second
  {
    ImportFirst(c, first, difficulty);
    BackToGenesis(c);
    r := c.NumberHash(1);
    ImportFirst(c, second, difficulty);
    r := c.NumberHash(1);
  }

  method BackToGenesis(c: BlockChain)
    requires c.Valid() && c.lastNumber == 1 && c.CacheRight() && Bounded(c.numberCache, 1)
    modifies c, c.blooms
    ensures c.Valid() && c.head == c.genesis && c.lastNumber == 0
    ensures c.blocks == old(c.blocks) && c.numberDb == old(c.numberDb) && 1 !in c.numberCache
  {
    c.Rewind(0);
  }
}
