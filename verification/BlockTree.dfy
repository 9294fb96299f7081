/** The tree of known blocks, ancestry in it, and `BlockChain::treeRoute`. */
module BlockTree {

  /** A block hash; zero is the null hash. */
  type Hash = nat

  datatype Block = Block(number: nat, parent: Hash, difficulty: nat, totalDifficulty: nat, gasUsed: nat,
                         bloom: set<nat>)

  type Tree = map<Hash, Block>

  /** Every block but the genesis has its parent in the tree, one number below. */
  ghost predicate WellFormed(t: Tree, genesis: Hash) {
    && genesis in t && t[genesis].number == 0
    && 0 !in t
    && forall h {:trigger Linked(t, genesis, h)} :: Linked(t, genesis, h)
  }

  ghost predicate Linked(t: Tree, genesis: Hash, h: Hash) {
    h in t && h != genesis ==> t[h].parent in t && t[h].number == t[t[h].parent].number + 1
  }

  /** The ancestor of `h`, or `h` itself, at height `n`. */
  ghost function Ancestor(t: Tree, genesis: Hash, h: Hash, n: nat): (a: Hash)
    requires WellFormed(t, genesis) && h in t && n <= t[h].number
    ensures a in t && t[a].number == n
    decreases t[h].number
  {
    assert Linked(t, genesis, h);
    if t[h].number == n then h else Ancestor(t, genesis, t[h].parent, n)
  }

  ghost predicate IsAncestor(t: Tree, genesis: Hash, a: Hash, h: Hash)
    requires WellFormed(t, genesis) && h in t
  {
    a in t && t[a].number <= t[h].number && Ancestor(t, genesis, h, t[a].number) == a
  }

  /** `c` is a common ancestor of `h` and `k`, and none is higher. */
  ghost predicate LowestCommon(t: Tree, genesis: Hash, c: Hash, h: Hash, k: Hash)
    requires WellFormed(t, genesis) && h in t && k in t
  {
    && IsAncestor(t, genesis, c, h) && IsAncestor(t, genesis, c, k)
    && forall d :: IsAncestor(t, genesis, d, h) && IsAncestor(t, genesis, d, k) ==> t[d].number <= t[c].number
  }

  /** The blocks from `h` down to just above height `n`, in that order. */
  ghost function Down(t: Tree, genesis: Hash, h: Hash, n: nat): (s: seq<Hash>)
    requires WellFormed(t, genesis) && h in t && n <= t[h].number
    ensures |s| == t[h].number - n
    decreases t[h].number
  {
    assert Linked(t, genesis, h);
    if t[h].number == n then [] else [h] + Down(t, genesis, t[h].parent, n)
  }

  ghost function Reversed(s: seq<Hash>): (r: seq<Hash>)
    ensures |r| == |s|
    ensures forall i :: 0 <= i < |s| ==> r[i] == s[|s| - 1 - i]
  {
    if s == [] then [] else Reversed(s[1..]) + [s[0]]
  }

  // ---------------------------------------------------------------- ancestry

  lemma {:induction false} AncestorTwice(t: Tree, genesis: Hash, h: Hash, m: nat, n: nat)
    requires WellFormed(t, genesis) && h in t && n <= m <= t[h].number
    ensures Ancestor(t, genesis, Ancestor(t, genesis, h, m), n) == Ancestor(t, genesis, h, n)
    decreases t[h].number
  {
    assert Linked(t, genesis, h);
    if m < t[h].number {
      AncestorTwice(t, genesis, t[h].parent, m, n);
    }
  }

  /** One more step down. */
  lemma AncestorParent(t: Tree, genesis: Hash, h: Hash, n: nat)
    requires WellFormed(t, genesis) && h in t && n < t[h].number
    ensures Ancestor(t, genesis, h, n) == t[Ancestor(t, genesis, h, n + 1)].parent
  {
    AncestorTwice(t, genesis, h, n + 1, n);
    assert Linked(t, genesis, Ancestor(t, genesis, h, n + 1));
  }

  lemma {:induction false} DownFurther(t: Tree, genesis: Hash, h: Hash, n: nat)
    requires WellFormed(t, genesis) && h in t && n < t[h].number
    ensures Down(t, genesis, h, n) == Down(t, genesis, h, n + 1) + [Ancestor(t, genesis, h, n + 1)]
    decreases t[h].number
  {
    assert Linked(t, genesis, h);
    if n + 1 < t[h].number {
      DownFurther(t, genesis, t[h].parent, n);
    }
  }

  lemma {:induction false} DownAt(t: Tree, genesis: Hash, h: Hash, n: nat, i: nat)
    requires WellFormed(t, genesis) && h in t && n <= t[h].number && i < t[h].number - n
    ensures Down(t, genesis, h, n)[i] == Ancestor(t, genesis, h, t[h].number - i)
    decreases t[h].number
  {
    assert Linked(t, genesis, h);
    if 0 < i {
      DownAt(t, genesis, t[h].parent, n, i - 1);
    }
  }

  /** Where two branches have met, they stay together. */
  lemma MeetBelow(t: Tree, genesis: Hash, h: Hash, k: Hash, m: nat, n: nat)
    requires WellFormed(t, genesis) && h in t && k in t && n <= m <= t[h].number && m <= t[k].number
    requires Ancestor(t, genesis, h, m) == Ancestor(t, genesis, k, m)
    ensures Ancestor(t, genesis, h, n) == Ancestor(t, genesis, k, n)
  {
    AncestorTwice(t, genesis, h, m, n);
    AncestorTwice(t, genesis, k, m, n);
  }

  lemma {:induction false} GenesisBelow(t: Tree, genesis: Hash, h: Hash)
    requires WellFormed(t, genesis) && h in t
    ensures Ancestor(t, genesis, h, 0) == genesis
    decreases t[h].number
  {
    assert Linked(t, genesis, h);
    if h != genesis {
      GenesisBelow(t, genesis, t[h].parent);
    }
  }

  /** A lowest common ancestor is unique. */
  lemma LowestIsUnique(t: Tree, genesis: Hash, c: Hash, d: Hash, h: Hash, k: Hash)
    requires WellFormed(t, genesis) && h in t && k in t
    requires LowestCommon(t, genesis, c, h, k) && LowestCommon(t, genesis, d, h, k)
    ensures c == d
  {
  }

  lemma LowestHere(t: Tree, genesis: Hash, h: Hash, k: Hash, n: nat)
    requires WellFormed(t, genesis) && h in t && k in t && n <= t[h].number && n <= t[k].number
    requires Ancestor(t, genesis, h, n) == Ancestor(t, genesis, k, n)
    requires n < t[h].number && n < t[k].number ==> Ancestor(t, genesis, h, n + 1) != Ancestor(t, genesis, k, n + 1)
    ensures LowestCommon(t, genesis, Ancestor(t, genesis, h, n), h, k)
  {
    forall d | IsAncestor(t, genesis, d, h) && IsAncestor(t, genesis, d, k)
      ensures t[d].number <= n
    {
      if n < t[d].number {
        MeetBelow(t, genesis, h, k, t[d].number, n + 1);
      }
    }
  }

  // ---------------------------------------------------------------- treeRoute

  /** The part of the route that leads down from `from`, the ancestor if asked for, and the part up to `to`. */
  ghost function Route(t: Tree, genesis: Hash, from: Hash, to: Hash, c: Hash, common: bool, pre: bool, post: bool)
    : seq<Hash>
    requires WellFormed(t, genesis) && from in t && to in t
    requires IsAncestor(t, genesis, c, from) && IsAncestor(t, genesis, c, to)
  {
    (if pre then Down(t, genesis, from, t[c].number) else [])
    + (if common && (pre || post) then [c] else [])
    + (if post then Reversed(Down(t, genesis, to, t[c].number)) else [])
  }

  /**
   Block by block: the ancestors of `from` from itself down to above `c`, then `c`, then those of `to` from above `c` up
   to itself, as far as each part is asked for.
   */
  lemma RouteAt(t: Tree, genesis: Hash, from: Hash, to: Hash, c: Hash, common: bool, pre: bool, post: bool, i: nat)
    requires WellFormed(t, genesis) && from in t && to in t
    requires IsAncestor(t, genesis, c, from) && IsAncestor(t, genesis, c, to)
    ensures var down := if pre then t[from].number - t[c].number else 0;
            var between := if common && (pre || post) then 1 else 0;
            var up := if post then t[to].number - t[c].number else 0;
            var route := Route(t, genesis, from, to, c, common, pre, post);
            && |route| == down + between + up
            && (i < down ==> route[i] == Ancestor(t, genesis, from, t[from].number - i))
            && (down <= i < down + between ==> route[i] == c)
            && (down + between <= i < |route| ==>
                  route[i] == Ancestor(t, genesis, to, t[c].number + 1 + i - down - between))
  {
    var n := t[c].number;
    var down := if pre then t[from].number - n else 0;
    var first := down + if common && (pre || post) then 1 else 0;
    if i < down {
      DownAt(t, genesis, from, n, i);
    }
    if post && first <= i < first + t[to].number - n {
      DownAt(t, genesis, to, n, t[to].number - n - 1 - (i - first));
    }
  }

  /** Follow parents from `h` to height `n`, collecting the blocks left behind if asked to. */
  method Descend(t: Tree, ghost genesis: Hash, h: Hash, n: nat, keep: bool) returns (path: seq<Hash>, at: Hash)
    requires WellFormed(t, genesis) && h in t && n <= t[h].number
    ensures at == Ancestor(t, genesis, h, n)
    ensures path == if keep then Down(t, genesis, h, n) else []
  {
    path, at := [], h;
    var m := t[h].number;
    while n < m
      invariant n <= m <= t[h].number && at == Ancestor(t, genesis, h, m)
      invariant path == if keep then Down(t, genesis, h, m) else []
    {
      DownFurther(t, genesis, h, m - 1);
      AncestorParent(t, genesis, h, m - 1);
      if keep {
        path := path + [at];
      }
      at := t[at].parent;
      m := m - 1;
    }
  }

  /** The height at which the branches of `from` and `to` meet, looking down from height `top`. */
  ghost predicate MeetAt(t: Tree, genesis: Hash, from: Hash, to: Hash, n: nat)
    requires WellFormed(t, genesis) && from in t && to in t
  {
    && n <= t[from].number && n <= t[to].number
    && Ancestor(t, genesis, from, n) == Ancestor(t, genesis, to, n)
    && (n < t[from].number && n < t[to].number ==>
          Ancestor(t, genesis, from, n + 1) != Ancestor(t, genesis, to, n + 1))
  }

  /** Follow both branches down in step until they meet. */
  method Meet(t: Tree, ghost genesis: Hash, ghost from: Hash, ghost to: Hash, f0: Hash, k0: Hash, ghost top: nat,
              ret0: seq<Hash>, back0: seq<Hash>, pre: bool, post: bool)
    returns (ret: seq<Hash>, back: seq<Hash>, f: Hash, ghost n: nat)
    requires WellFormed(t, genesis) && from in t && to in t
    requires top <= t[from].number && top <= t[to].number && (top == t[from].number || top == t[to].number)
    requires f0 == Ancestor(t, genesis, from, top) && k0 == Ancestor(t, genesis, to, top)
    requires ret0 == if pre then Down(t, genesis, from, top) else []
    requires back0 == if post then Down(t, genesis, to, top) else []
    ensures MeetAt(t, genesis, from, to, n) && f == Ancestor(t, genesis, from, n)
    ensures ret == if pre then Down(t, genesis, from, n) else []
    ensures back == if post then Down(t, genesis, to, n) else []
  {
    ret, back, n := ret0, back0, top;
    var k;
    f, k := f0, k0;
    while f != k
      invariant n <= t[from].number && n <= t[to].number
      invariant f == Ancestor(t, genesis, from, n) && k == Ancestor(t, genesis, to, n)
      invariant n < t[from].number && n < t[to].number ==>
                  Ancestor(t, genesis, from, n + 1) != Ancestor(t, genesis, to, n + 1)
      invariant ret == if pre then Down(t, genesis, from, n) else []
      invariant back == if post then Down(t, genesis, to, n) else []
      decreases n
    {
      GenesisBelow(t, genesis, from);
      GenesisBelow(t, genesis, to);
      DownFurther(t, genesis, from, n - 1);
      DownFurther(t, genesis, to, n - 1);
      AncestorParent(t, genesis, from, n - 1);
      AncestorParent(t, genesis, to, n - 1);
      if pre {
        ret := ret + [f];
      }
      if post {
        back := back + [k];
      }
      f, k := t[f].parent, t[k].parent;
      n := n - 1;
    }
  }

  method AppendReversed(ret: seq<Hash>, back: seq<Hash>) returns (route: seq<Hash>)
    ensures route == ret + Reversed(back)
  {
    route := ret;
    var i := |back|;
    while 0 < i
      invariant 0 <= i <= |back|
      invariant route == ret + Reversed(back)[..|back| - i]
    {
      i := i - 1;
      route := route + [back[i]];
    }
    assert Reversed(back)[..|back|] == Reversed(back);
  }

  /**
   The route between two blocks.  The returned index is where the ancestor is, or would go, in the route exactly when
   the ancestor is not asked for, or the first part is not, or the second part is and `to` is no ancestor of `from`.
   */
  method TreeRoute(t: Tree, ghost genesis: Hash, from: Hash, to: Hash, common: bool, pre: bool, post: bool)
    returns (route: seq<Hash>, ancestor: Hash, index: nat)
    requires WellFormed(t, genesis)
    ensures from !in t || to !in t ==> route == [] && ancestor == 0 && index == 0
    ensures from in t && to in t ==>
              && LowestCommon(t, genesis, ancestor, from, to)
              && route == Route(t, genesis, from, to, ancestor, common, pre, post)
              && index == (if pre then t[from].number - t[ancestor].number else 0)
                          + if common && pre && (!post || IsAncestor(t, genesis, to, from)) then 1 else 0
  {
    if from !in t || to !in t {
      return [], 0, 0;
    }
    var top := if t[from].number <= t[to].number then t[from].number else t[to].number;
    var ret, f := Descend(t, genesis, from, top, pre);
    var back, k := Descend(t, genesis, to, top, post);
    ghost var n;
    ret, back, f, n := Meet(t, genesis, from, to, f, k, top, ret, back, pre, post);
    LowestHere(t, genesis, from, to, n);
    ancestor := f;
    assert t[ancestor].number == n;
    route, index := Assemble(ret, back, f, common, pre, post);
    assert post && to != ancestor <==> back != [];
    LowestIsTo(t, genesis, from, to, ancestor);
  }

  /** From a block to its parent, with everything asked for: the ancestor is at 1 in the route, and the index is 2. */
  method IndexOfParent() returns (route: seq<Hash>, ancestor: Hash, index: nat)
    ensures route == [8, 7] && ancestor == 7 && index == 2 && route[1] == ancestor
  {
    var t: Tree := map[7 := Block(0, 0, 0, 0, 0, {}), 8 := Block(1, 7, 0, 0, 0, {})];
    assert forall h :: Linked(t, 7, h);
    assert Ancestor(t, 7, 8, 0) == 7 && IsAncestor(t, 7, 7, 8);
    route, ancestor, index := TreeRoute(t, 7, 8, 7, true, true, true);
    assert IsAncestor(t, 7, 7, 7) && IsAncestor(t, 7, ancestor, 7);
  }

  /** The lowest common ancestor is one of the two blocks exactly when that is an ancestor of the other. */
  lemma LowestIsTo(t: Tree, genesis: Hash, from: Hash, to: Hash, c: Hash)
    requires WellFormed(t, genesis) && from in t && to in t && LowestCommon(t, genesis, c, from, to)
    ensures c == to <==> IsAncestor(t, genesis, to, from)
  {
    assert IsAncestor(t, genesis, to, to);
  }

  /** Put the two parts together, with the ancestor between them if asked for. */
  method Assemble(down: seq<Hash>, up: seq<Hash>, c: Hash, common: bool, pre: bool, post: bool)
    returns (route: seq<Hash>, index: nat)
    requires (!pre ==> down == []) && (!post ==> up == [])
    ensures route == down + (if common && (pre || post) then [c] else []) + Reversed(up)
    ensures index == |down| + if common && pre && up == [] then 1 else 0
  {
    var ret, back := down, up;
    if pre && common {
      ret := ret + [c];
    }
    if post && !pre && common {
      ReversedAppend(back, c);
      back := back + [c];
    }
    index := |ret| - if common && ret != [] && back != [] then 1 else 0;
    route := AppendReversed(ret, back);
  }

  lemma ReversedAppend(s: seq<Hash>, x: Hash)
    ensures Reversed(s + [x]) == [x] + Reversed(s)
  {
  }
}
