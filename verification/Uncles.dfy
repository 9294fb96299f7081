/** Which uncles `Block::commitToSeal` picks, and which `Block::enact` accepts. */
module Uncles {
  import opened Collections
  import opened BlockTree

  const GENERATIONS: nat := 6

  /** The header of an uncle. */
  datatype Header = Header(hash: Hash, parent: Hash, number: nat, author: nat, time: int)

  /** What the chain knows of a block beyond its place in the tree. */
  datatype Record = Record(children: seq<Hash>, cited: seq<Hash>, author: nat, time: int)

  datatype Chain = Chain(tree: Tree, genesis: Hash, records: map<Hash, Record>)

  /** A stored block has a record, was checked against its parent, and is listed among its parent's children. */
  ghost predicate Recorded(c: Chain, h: Hash)
    requires WellFormed(c.tree, c.genesis)
  {
    h in c.tree ==>
      && h in c.records && c.tree[h].number < 0x1_0000_0000
      && (forall u :: u in c.records[h].children ==> u in c.tree && u != c.genesis && c.tree[u].parent == h)
      && (h != c.genesis ==> assert Linked(c.tree, c.genesis, h);
                             c.tree[h].parent in c.records && c.records[c.tree[h].parent].time < c.records[h].time)
  }

  ghost predicate ChainOk(c: Chain) {
    && WellFormed(c.tree, c.genesis) && c.tree[c.genesis].parent == 0 && c.tree.Keys <= c.records.Keys
    && forall h {:trigger Recorded(c, h)} :: Recorded(c, h)
  }

  function HeaderOf(c: Chain, h: Hash): Header
    requires h in c.tree && h in c.records
  {
    Header(h, c.tree[h].parent, c.tree[h].number, c.records[h].author, c.records[h].time)
  }

  // ---------------------------------------------------------------- kin

  /** The ancestors of `p` and the uncles cited by `p` and its ancestors, over some generations. */
  ghost function KinAbove(c: Chain, p: Hash, generations: nat): set<Hash>
    requires ChainOk(c) && p in c.tree
    decreases generations
  {
    assert Recorded(c, p) && Linked(c.tree, c.genesis, p);
    if generations == 0 || p == c.genesis then {}
    else {c.tree[p].parent} + Elems(c.records[p].cited) + KinAbove(c, c.tree[p].parent, generations - 1)
  }

  method AllKinFrom(c: Chain, parent: Hash, generations: nat) returns (ret: set<Hash>)
    requires ChainOk(c) && parent in c.tree
    ensures ret == {parent} + KinAbove(c, parent, generations)
  {
    var p := parent;
    ret := {p};
    var i := 0;
    while i < generations && p != c.genesis
      invariant i <= generations && p in c.tree
      invariant ret + KinAbove(c, p, generations - i) == {parent} + KinAbove(c, parent, generations)
      decreases generations - i
    {
      assert Recorded(c, p) && Linked(c.tree, c.genesis, p);
      ret := ret + {c.tree[p].parent} + Elems(c.records[p].cited);
      i := i + 1;
      p := c.tree[p].parent;
    }
  }

  /** `x` is the ancestor `i + 1` generations above `p`, or is cited as an uncle one generation below that. */
  ghost predicate KinAt(c: Chain, p: Hash, i: nat, x: Hash)
    requires ChainOk(c) && p in c.tree && i < c.tree[p].number
  {
    || x == Ancestor(c.tree, c.genesis, p, c.tree[p].number - 1 - i)
    || x in c.records[Ancestor(c.tree, c.genesis, p, c.tree[p].number - i)].cited
  }

  ghost predicate IsKin(c: Chain, p: Hash, generations: nat, x: Hash)
    requires ChainOk(c) && p in c.tree
  {
    exists i: nat :: i < generations && i < c.tree[p].number && KinAt(c, p, i, x)
  }

  lemma KinAtFirst(c: Chain, p: Hash, x: Hash)
    requires ChainOk(c) && p in c.tree && p != c.genesis
    ensures 0 < c.tree[p].number && (KinAt(c, p, 0, x) <==> x == c.tree[p].parent || x in c.records[p].cited)
  {
    assert Linked(c.tree, c.genesis, p);
    AncestorParent(c.tree, c.genesis, p, c.tree[p].number - 1);
  }

  lemma KinAtNext(c: Chain, p: Hash, i: nat, x: Hash)
    requires ChainOk(c) && p in c.tree && i + 1 < c.tree[p].number
    ensures c.tree[p].parent in c.tree && i < c.tree[c.tree[p].parent].number
    ensures KinAt(c, p, i + 1, x) <==> KinAt(c, c.tree[p].parent, i, x)
  {
    assert Linked(c.tree, c.genesis, p);
  }

  /** Kin are the ancestors of that many generations and the uncles that those generations cite. */
  lemma {:induction false} KinAboveIs(c: Chain, p: Hash, generations: nat, x: Hash)
    requires ChainOk(c) && p in c.tree
    ensures x in KinAbove(c, p, generations) <==> IsKin(c, p, generations, x)
    decreases generations
  {
    assert Recorded(c, p) && Linked(c.tree, c.genesis, p);
    if generations > 0 && p != c.genesis {
      var parent := c.tree[p].parent;
      KinAtFirst(c, p, x);
      KinAboveIs(c, parent, generations - 1, x);
      if IsKin(c, parent, generations - 1, x) {
        var i: nat :| i < generations - 1 && i < c.tree[parent].number && KinAt(c, parent, i, x);
        KinAtNext(c, p, i, x);
        assert KinAt(c, p, i + 1, x);
      }
      if IsKin(c, p, generations, x) && !KinAt(c, p, 0, x) {
        var i: nat :| i < generations && i < c.tree[p].number && KinAt(c, p, i, x);
        KinAtNext(c, p, i - 1, x);
        assert KinAt(c, parent, i - 1, x);
      }
    }
  }

  // ---------------------------------------------------------------- checking

  datatype Verdict = Fine | TooManyUncles | UncleInChain | UnknownParent | UncleTooOld | UncleIsBrother
                   | UncleParentNotInChain | InvalidTimestamp | InvalidNumber

  /** The parent of a block as its details tell; nothing is known about a block that is not stored. */
  function ParentOf(c: Chain, h: Hash): Hash { if h in c.tree then c.tree[h].parent else 0 }

  function Climb(c: Chain, h: Hash, n: nat): Hash
    decreases n
  {
    if n == 0 then h else Climb(c, ParentOf(c, h), n - 1)
  }

  /** The checks of one uncle of a block with the given parent, in their order. */
  function CheckUncle(c: Chain, parent: Hash, excluded: set<Hash>, u: Header): Verdict
    requires parent in c.tree && c.tree.Keys <= c.records.Keys
  {
    var depth := c.tree[parent].number + 1 - u.number;
    if u.hash in excluded then UncleInChain
    else if u.parent !in c.tree then UnknownParent
    else if depth > 6 then UncleTooOld
    else if depth < 1 then UncleIsBrother
    else if Climb(c, ParentOf(c, parent), depth - 1) != u.parent then UncleParentNotInChain
    else if u.number > 0xffff_ffff then InvalidNumber
    else if u.time <= c.records[u.parent].time then InvalidTimestamp
    else if u.number != c.tree[u.parent].number + 1 then InvalidNumber
    else Fine
  }

  function CheckEach(c: Chain, parent: Hash, excluded: set<Hash>, us: seq<Header>): Verdict
    requires parent in c.tree && c.tree.Keys <= c.records.Keys
    decreases |us|
  {
    if us == [] then Fine
    else if CheckUncle(c, parent, excluded, us[0]) != Fine then CheckUncle(c, parent, excluded, us[0])
    else CheckEach(c, parent, excluded + {us[0].hash}, us[1..])
  }

  /** Climb by following parents one by one. */
  method ExpectedParent(c: Chain, parent: Hash, depth: nat) returns (h: Hash)
    requires 1 <= depth
    ensures h == Climb(c, ParentOf(c, parent), depth - 1)
  {
    h := ParentOf(c, parent);
    var i := 1;
    while i < depth
      invariant 1 <= i <= depth
      invariant Climb(c, h, depth - i) == Climb(c, ParentOf(c, parent), depth - 1)
    {
      h := ParentOf(c, h);
      i := i + 1;
    }
  }

  /** The uncle checks of `enact`, for a block `hash` on top of `parent`. */
  method EnactUncles(c: Chain, hash: Hash, parent: Hash, us: seq<Header>) returns (v: Verdict)
    requires ChainOk(c) && parent in c.tree
    ensures v == if |us| > 2 then TooManyUncles
                 else CheckEach(c, parent, {parent} + KinAbove(c, parent, GENERATIONS) + {hash}, us)
  {
    if |us| > 2 {
      return TooManyUncles;
    }
    var excluded := AllKinFrom(c, parent, GENERATIONS);
    excluded := excluded + {hash};
    ghost var excluded0 := excluded;
    for i := 0 to |us|
      invariant CheckEach(c, parent, excluded, us[i..]) == CheckEach(c, parent, excluded0, us)
    {
      var u := us[i];
      assert us[i..][0] == u && us[i..][1..] == us[i + 1..];
      if u.hash in excluded {
        return UncleInChain;
      }
      if u.parent !in c.tree {
        return UnknownParent;
      }
      var depth := c.tree[parent].number + 1 - u.number;
      if depth > 6 {
        return UncleTooOld;
      } else if depth < 1 {
        return UncleIsBrother;
      }
      var expected := ExpectedParent(c, parent, depth);
      if expected != u.parent {
        return UncleParentNotInChain;
      }
      if u.number > 0xffff_ffff {
        return InvalidNumber;
      }
      if u.time <= c.records[u.parent].time {
        return InvalidTimestamp;
      }
      if u.number != c.tree[u.parent].number + 1 {
        return InvalidNumber;
      }
      excluded := excluded + {u.hash};
    }
    v := Fine;
  }

  // ---------------------------------------------------------------- what the checks mean

  lemma {:induction false} ClimbIsAncestor(c: Chain, h: Hash, n: nat)
    requires ChainOk(c) && h in c.tree
    ensures n <= c.tree[h].number ==> Climb(c, h, n) == Ancestor(c.tree, c.genesis, h, c.tree[h].number - n)
    ensures c.tree[h].number < n ==> Climb(c, h, n) == 0
    decreases n
  {
    assert Linked(c.tree, c.genesis, h);
    if n > 0 {
      if h == c.genesis {
        ClimbNothing(c, n - 1);
      } else {
        ClimbIsAncestor(c, c.tree[h].parent, n - 1);
        GenesisOnly(c, h);
      }
    }
  }

  lemma {:induction false} ClimbNothing(c: Chain, n: nat)
    requires 0 !in c.tree
    ensures Climb(c, 0, n) == 0
  {
    if n > 0 {
      ClimbNothing(c, n - 1);
    }
  }

  lemma GenesisOnly(c: Chain, h: Hash)
    requires WellFormed(c.tree, c.genesis) && h in c.tree && h != c.genesis
    ensures 0 < c.tree[h].number && c.tree[h].parent in c.tree
  {
    assert Linked(c.tree, c.genesis, h);
  }

  /** A proper uncle: a valid child, one to six generations back, of an ancestor of the new block. */
  ghost predicate IsUncle(c: Chain, parent: Hash, u: Header)
    requires ChainOk(c) && parent in c.tree
  {
    && u.parent in c.tree && u.parent in c.records
    && u.number == c.tree[u.parent].number + 1 && u.number <= 0xffff_ffff && c.records[u.parent].time < u.time
    && u.number <= c.tree[parent].number < u.number + GENERATIONS
    && IsAncestor(c.tree, c.genesis, u.parent, parent)
  }

  lemma CheckUncleMeans(c: Chain, parent: Hash, excluded: set<Hash>, u: Header)
    requires ChainOk(c) && parent in c.tree
    ensures CheckUncle(c, parent, excluded, u) == Fine <==> u.hash !in excluded && IsUncle(c, parent, u)
  {
    var depth := c.tree[parent].number + 1 - u.number;
    if u.parent in c.tree && 1 <= depth <= 6 {
      ClimbIsAncestor(c, parent, depth);
      assert Climb(c, parent, depth) == Climb(c, ParentOf(c, parent), depth - 1);
    }
  }

  /** The reason given for refusing an uncle is one. */
  lemma UncleRefusedFor(c: Chain, parent: Hash, excluded: set<Hash>, u: Header)
    requires ChainOk(c) && parent in c.tree && CheckUncle(c, parent, excluded, u) != Fine
    ensures match CheckUncle(c, parent, excluded, u)
            case UncleInChain => u.hash in excluded
            case UnknownParent => u.parent !in c.tree
            case UncleTooOld => u.number + GENERATIONS <= c.tree[parent].number
            case UncleIsBrother => c.tree[parent].number < u.number
            case UncleParentNotInChain =>
              !IsAncestor(c.tree, c.genesis, u.parent, parent) || u.number != c.tree[u.parent].number + 1
            case InvalidTimestamp => u.parent in c.records && u.time <= c.records[u.parent].time
            case InvalidNumber => u.number > 0xffff_ffff || u.number != c.tree[u.parent].number + 1
            case _ => false
  {
    var depth := c.tree[parent].number + 1 - u.number;
    if u.parent in c.tree && 1 <= depth <= 6 {
      ClimbIsAncestor(c, parent, depth);
      assert Climb(c, parent, depth) == Climb(c, ParentOf(c, parent), depth - 1);
    }
  }

  /** `enact` accepts exactly lists of distinct proper uncles outside the block's kin. */
  lemma {:induction false} CheckEachMeans(c: Chain, parent: Hash, excluded: set<Hash>, us: seq<Header>)
    requires ChainOk(c) && parent in c.tree
    ensures CheckEach(c, parent, excluded, us) == Fine <==>
              && (forall i :: 0 <= i < |us| ==> us[i].hash !in excluded && IsUncle(c, parent, us[i]))
              && (forall i, j :: 0 <= i < j < |us| ==> us[i].hash != us[j].hash)
    decreases |us|
  {
    if us != [] {
      CheckUncleMeans(c, parent, excluded, us[0]);
      CheckEachMeans(c, parent, excluded + {us[0].hash}, us[1..]);
      assert us == [us[0]] + us[1..];
    }
  }

  // ---------------------------------------------------------------- picking

  /** `u` can be picked from generation `gen`: a child of an ancestor, other than the genesis, and not yet kin. */
  ghost predicate Candidate(c: Chain, previous: Hash, kin: set<Hash>, gen: nat, u: Hash)
    requires ChainOk(c) && previous in c.tree
  {
    && gen < GENERATIONS && gen + 1 < c.tree[previous].number && u !in kin
    && u in c.records[Ancestor(c.tree, c.genesis, previous, c.tree[previous].number - 1 - gen)].children
  }

  /** `us'` is `us` and more of `children`, none of them kin. */
  ghost predicate PickedMore(us: seq<Hash>, us': seq<Hash>, children: seq<Hash>, kin: set<Hash>) {
    && |us| <= |us'| <= 2 && us'[..|us|] == us && Distinct(us') && Elems(us') !! kin
    && forall u :: u in us' && u !in us ==> u in children
  }

  lemma PickOne(us: seq<Hash>, us': seq<Hash>, children: seq<Hash>, kin: set<Hash>, u: Hash)
    requires PickedMore(us, us', children, kin) && |us'| < 2 && u in children && u !in kin + Elems(us')
    ensures PickedMore(us, us' + [u], children, kin) && Elems(us' + [u]) == Elems(us') + {u}
  {
  }

  /** Pick from one generation, up to two uncles in all. */
  method PickAmong(children: seq<Hash>, kin: set<Hash>, us: seq<Hash>, excluded: set<Hash>)
    returns (us': seq<Hash>, excluded': set<Hash>)
    requires |us| < 2 && Distinct(us) && excluded == kin + Elems(us) && Elems(us) !! kin
    ensures PickedMore(us, us', children, kin)
    ensures |us'| < 2 ==> excluded' == kin + Elems(us') && forall u :: u in children ==> u in excluded'
  {
    us', excluded' := us, excluded;
    for i := 0 to |children|
      invariant PickedMore(us, us', children, kin) && |us'| < 2
      invariant excluded' == kin + Elems(us') && forall j :: 0 <= j < i ==> children[j] in excluded'
    {
      var u := children[i];
      if u !in excluded' {
        PickOne(us, us', children, kin, u);
        us' := us' + [u];
        if |us'| == 2 {
          break;
        }
        excluded' := excluded' + {u};
      }
    }
  }

  ghost predicate PickedFrom(c: Chain, previous: Hash, kin: set<Hash>, us: seq<Hash>)
    requires ChainOk(c) && previous in c.tree
  {
    forall u :: u in us ==> exists gen :: Candidate(c, previous, kin, gen, u)
  }

  /** No candidate of the first generations is left out. */
  ghost predicate Exhausted(c: Chain, previous: Hash, kin: set<Hash>, us: seq<Hash>, generations: nat)
    requires ChainOk(c) && previous in c.tree
  {
    forall gen: nat, u :: gen < generations && Candidate(c, previous, kin, gen, u) ==> u in us
  }

  method PickGeneration(c: Chain, ghost previous: Hash, kin: set<Hash>, ghost gen: nat, p: Hash, us: seq<Hash>,
                        excluded: set<Hash>)
    returns (us': seq<Hash>, excluded': set<Hash>)
    requires ChainOk(c) && previous in c.tree && gen < GENERATIONS && gen + 1 < c.tree[previous].number
    requires p == Ancestor(c.tree, c.genesis, previous, c.tree[previous].number - 1 - gen)
    requires |us| < 2 && Distinct(us) && excluded == kin + Elems(us) && Elems(us) !! kin
    requires PickedFrom(c, previous, kin, us) && Exhausted(c, previous, kin, us, gen)
    ensures |us'| <= 2 && Distinct(us') && Elems(us') !! kin && PickedFrom(c, previous, kin, us')
    ensures |us'| < 2 ==> excluded' == kin + Elems(us') && Exhausted(c, previous, kin, us', gen + 1)
  {
    us', excluded' := PickAmong(c.records[p].children, kin, us, excluded);
    forall u | u in us'
      ensures exists g :: Candidate(c, previous, kin, g, u)
    {
      assert u in Elems(us');
      if u !in us {
        assert Candidate(c, previous, kin, gen, u);
      }
    }
    assert forall u :: u in us ==> u in us'[..|us|];
  }

  /** Up to two uncles for a block on top of `previous`; fewer only when there are no more candidates. */
  method PickUncles(c: Chain, previous: Hash) returns (us: seq<Hash>)
    requires ChainOk(c) && previous in c.tree
    ensures |us| <= 2 && Distinct(us)
    ensures var kin := {previous} + KinAbove(c, previous, GENERATIONS);
            PickedFrom(c, previous, kin, us) && (|us| < 2 ==> Exhausted(c, previous, kin, us, GENERATIONS))
  {
    us := [];
    if c.tree[previous].number == 0 {
      return;
    }
    assert Linked(c.tree, c.genesis, previous);
    var kin := AllKinFrom(c, previous, GENERATIONS);
    var excluded := kin;
    var p := c.tree[previous].parent;
    var gen := 0;
    GenesisBelow(c.tree, c.genesis, previous);
    while gen < GENERATIONS && p != c.genesis && |us| < 2
      invariant gen <= GENERATIONS && gen < c.tree[previous].number
      invariant p == Ancestor(c.tree, c.genesis, previous, c.tree[previous].number - 1 - gen)
      invariant |us| <= 2 && Distinct(us) && Elems(us) !! kin && PickedFrom(c, previous, kin, us)
      invariant |us| < 2 ==> excluded == kin + Elems(us) && Exhausted(c, previous, kin, us, gen)
      decreases GENERATIONS - gen
    {
      GenesisOnly(c, p);
      AncestorParent(c.tree, c.genesis, previous, c.tree[previous].number - 2 - gen);
      us, excluded := PickGeneration(c, previous, kin, gen, p, us, excluded);
      gen := gen + 1;
      p := c.tree[p].parent;
    }
  }

  /** A picked block is a proper uncle. */
  lemma CandidateIsUncle(c: Chain, previous: Hash, kin: set<Hash>, gen: nat, u: Hash)
    requires ChainOk(c) && previous in c.tree && Candidate(c, previous, kin, gen, u)
    ensures u in c.tree && IsUncle(c, previous, HeaderOf(c, u))
  {
    var p := Ancestor(c.tree, c.genesis, previous, c.tree[previous].number - 1 - gen);
    assert Recorded(c, p) && Recorded(c, u);
    assert Linked(c.tree, c.genesis, u);
  }

  function Headers(c: Chain, us: seq<Hash>): (r: seq<Header>)
    requires forall u :: u in us ==> u in c.tree && u in c.records
    ensures |r| == |us| && forall i :: 0 <= i < |us| ==> r[i] == HeaderOf(c, us[i])
  {
    seq(|us|, i requires 0 <= i < |us| => HeaderOf(c, us[i]))
  }

  /** The uncles pass the checks of `enact` for any new block on top of `previous`. */
  ghost predicate PassWith(c: Chain, previous: Hash, us: seq<Header>)
    requires ChainOk(c) && previous in c.tree
  {
    |us| <= 2 &&
    forall hash :: hash !in c.tree ==>
      CheckEach(c, previous, {previous} + KinAbove(c, previous, GENERATIONS) + {hash}, us) == Fine
  }

  /** Uncles picked by `commitToSeal` pass every check of `enact`. */
  lemma PickedPass(c: Chain, previous: Hash, us: seq<Hash>)
    requires ChainOk(c) && previous in c.tree && |us| <= 2 && Distinct(us)
    requires PickedFrom(c, previous, {previous} + KinAbove(c, previous, GENERATIONS), us)
    ensures forall u :: u in us ==> u in c.tree && u in c.records
    ensures PassWith(c, previous, Headers(c, us))
  {
    var kin := {previous} + KinAbove(c, previous, GENERATIONS);
    forall u | u in us
      ensures u in c.tree && u in c.records && u !in kin && IsUncle(c, previous, HeaderOf(c, u))
    {
      var gen :| Candidate(c, previous, kin, gen, u);
      CandidateIsUncle(c, previous, kin, gen, u);
    }
    var hs := Headers(c, us);
    forall hash | hash !in c.tree
      ensures CheckEach(c, previous, kin + {hash}, hs) == Fine
    {
      forall i | 0 <= i < |hs|
        ensures hs[i].hash !in kin + {hash} && IsUncle(c, previous, hs[i])
      {
        assert us[i] in us;
      }
      CheckEachMeans(c, previous, kin + {hash}, hs);
    }
  }

  method PickHeaders(c: Chain, previous: Hash) returns (hs: seq<Header>)
    requires ChainOk(c) && previous in c.tree
    ensures PassWith(c, previous, hs)
    ensures var kin := {previous} + KinAbove(c, previous, GENERATIONS);
            |hs| < 2 ==> forall gen: nat, u :: gen < GENERATIONS && Candidate(c, previous, kin, gen, u) ==>
                           exists i :: 0 <= i < |hs| && hs[i].hash == u
  {
    var us := PickUncles(c, previous);
    PickedPass(c, previous, us);
    hs := Headers(c, us);
  }
}
