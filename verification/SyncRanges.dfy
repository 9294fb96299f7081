/**
 The run-length maps in which block synchronisation keeps headers and bodies: a sorted map from the number of the first
 block of a run to the run.  They behave like plain finite maps from block numbers.
 */
module SyncRanges {
  import opened Collections

  datatype Chunk<T> = Chunk(start: nat, items: seq<T>)
  {
    function End(): nat { start + |items| }

    predicate Covers(n: nat) { start <= n < End() }
  }

  /** Runs are not empty, come in order, and do not touch. */
  ghost predicate Proper<T>(cs: seq<Chunk<T>>) {
    && (forall i :: 0 <= i < |cs| ==> cs[i].items != [])
    && (forall i, j :: 0 <= i < j < |cs| ==> cs[i].End() < cs[j].start)
  }

  /** What one run has at number `n`. */
  ghost function Here<T>(c: Chunk<T>, n: nat): Option<T> { if c.Covers(n) then Some(c.items[n - c.start]) else None }

  ghost function Or<T>(x: Option<T>, y: Option<T>): Option<T> { if x.Some? then x else y }

  /** What the first `k` runs have at number `n`. */
  ghost function AtUpTo<T>(cs: seq<Chunk<T>>, k: nat, n: nat): Option<T>
    requires k <= |cs|
  {
    if k == 0 then None else Or(Here(cs[k - 1], n), AtUpTo(cs, k - 1, n))
  }

  /** The plain map: what is at number `n`. */
  ghost function At<T>(cs: seq<Chunk<T>>, n: nat): Option<T> { AtUpTo(cs, |cs|, n) }

  lemma {:induction false} AtUpToFirst<T>(a: seq<Chunk<T>>, b: seq<Chunk<T>>, k: nat, n: nat)
    requires k <= |a|
    ensures AtUpTo(a + b, k, n) == AtUpTo(a, k, n)
  {
    if 0 < k {
      AtUpToFirst(a, b, k - 1, n);
    }
  }

  lemma {:induction false} AtUpToSecond<T>(a: seq<Chunk<T>>, b: seq<Chunk<T>>, k: nat, n: nat)
    requires k <= |b|
    ensures AtUpTo(a + b, |a| + k, n) == Or(AtUpTo(b, k, n), AtUpTo(a, |a|, n))
  {
    if k == 0 {
      AtUpToFirst(a, b, |a|, n);
    } else {
      AtUpToSecond(a, b, k - 1, n);
    }
  }

  lemma AtConcat<T>(a: seq<Chunk<T>>, b: seq<Chunk<T>>, n: nat)
    ensures At(a + b, n) == Or(At(b, n), At(a, n))
  {
    AtUpToSecond(a, b, |b|, n);
  }

  lemma AtOne<T>(c: Chunk<T>, n: nat)
    ensures At([c], n) == Here(c, n)
  {
    assert AtUpTo([c], 0, n) == None;
  }

  lemma JoinAt<T>(a: seq<Chunk<T>>, c: Chunk<T>, b: seq<Chunk<T>>, i: nat)
    ensures At(a + [c] + b, i) == Or(At(b, i), Or(Here(c, i), At(a, i)))
  {
    AtConcat(a + [c], b, i);
    AtConcat(a, [c], i);
    AtOne(c, i);
  }

  lemma {:induction false} AtUpToNone<T>(cs: seq<Chunk<T>>, k: nat, n: nat)
    requires k <= |cs| && forall i :: 0 <= i < k ==> !cs[i].Covers(n)
    ensures AtUpTo(cs, k, n).None?
  {
    if 0 < k {
      AtUpToNone(cs, k - 1, n);
    }
  }

  lemma AtNone<T>(cs: seq<Chunk<T>>, n: nat)
    requires forall i :: 0 <= i < |cs| ==> !cs[i].Covers(n)
    ensures At(cs, n).None?
  {
    AtUpToNone(cs, |cs|, n);
  }

  lemma {:induction false} AtUpToSome<T>(cs: seq<Chunk<T>>, m: nat, n: nat) returns (k: nat)
    requires m <= |cs| && AtUpTo(cs, m, n).Some?
    ensures k < m && cs[k].Covers(n)
  {
    if cs[m - 1].Covers(n) {
      k := m - 1;
    } else {
      k := AtUpToSome(cs, m - 1, n);
    }
  }

  lemma AtSome<T>(cs: seq<Chunk<T>>, n: nat) returns (k: nat)
    requires At(cs, n).Some?
    ensures k < |cs| && cs[k].Covers(n)
  {
    k := AtUpToSome(cs, |cs|, n);
  }

  lemma Sliced<T>(cs: seq<Chunk<T>>, k: nat)
    requires k < |cs|
    ensures cs == cs[..k] + [cs[k]] + cs[k + 1..]
  {
  }

  lemma SlicedAt<T>(cs: seq<Chunk<T>>, k: nat, n: nat)
    requires k < |cs|
    ensures At(cs, n) == Or(At(cs[k + 1..], n), Or(Here(cs[k], n), At(cs[..k], n)))
  {
    Sliced(cs, k);
    JoinAt(cs[..k], cs[k], cs[k + 1..], n);
  }

  lemma NoneAfter<T>(cs: seq<Chunk<T>>, k: nat, n: nat)
    requires Proper(cs) && k < |cs| && n <= cs[k].End()
    ensures At(cs[k + 1..], n).None?
  {
    AtNone(cs[k + 1..], n);
  }

  /** Nothing of the first `k` runs reaches beyond the end of the last of them. */
  lemma NoneBefore<T>(cs: seq<Chunk<T>>, k: nat, n: nat)
    requires Proper(cs) && k <= |cs| && (0 < k ==> cs[k - 1].End() <= n)
    ensures At(cs[..k], n).None?
  {
    AtNone(cs[..k], n);
  }

  /** A number that run `k` covers. */
  lemma AtCovered<T>(cs: seq<Chunk<T>>, k: nat, n: nat)
    requires Proper(cs) && k < |cs| && cs[k].Covers(n)
    ensures At(cs, n) == Some(cs[k].items[n - cs[k].start])
  {
    SlicedAt(cs, k, n);
    NoneAfter(cs, k, n);
  }

  /** A number below run `k`. */
  lemma AtBelow<T>(cs: seq<Chunk<T>>, k: nat, n: nat)
    requires Proper(cs) && k < |cs| && n < cs[k].start
    ensures At(cs, n) == At(cs[..k], n)
  {
    SlicedAt(cs, k, n);
    NoneAfter(cs, k, n);
  }

  /** A number above run `k`. */
  lemma AtAbove<T>(cs: seq<Chunk<T>>, k: nat, n: nat)
    requires Proper(cs) && k < |cs| && cs[k].End() <= n
    ensures At(cs, n) == At(cs[k + 1..], n)
  {
    SlicedAt(cs, k, n);
    NoneBefore(cs, k, n);
  }

  // ---------------------------------------------------------------- searching

  /** `k` is the first run that does not start below `n`. */
  ghost predicate IsLowerBound<T>(cs: seq<Chunk<T>>, n: nat, k: nat) {
    && k <= |cs|
    && (forall i :: 0 <= i < k ==> cs[i].start < n)
    && (forall i :: k <= i < |cs| ==> n <= cs[i].start)
  }

  method LowerBound<T>(cs: seq<Chunk<T>>, n: nat) returns (k: nat)
    requires Proper(cs)
    ensures IsLowerBound(cs, n, k)
  {
    k := 0;
    while k < |cs| && cs[k].start < n
      invariant k <= |cs| && forall i :: 0 <= i < k ==> cs[i].start < n
    {
      k := k + 1;
    }
  }

  /** A number is in the run that starts with it, in the run before, or in none. */
  lemma LowerBoundDecides<T>(cs: seq<Chunk<T>>, n: nat, k: nat)
    requires Proper(cs) && IsLowerBound(cs, n, k)
    ensures At(cs, n) == if k < |cs| && cs[k].start == n then Some(cs[k].items[0])
                         else if 0 < k && n < cs[k - 1].End() then Some(cs[k - 1].items[n - cs[k - 1].start])
                         else None
  {
    if k < |cs| && cs[k].start == n {
      AtCovered(cs, k, n);
    } else if 0 < k && n < cs[k - 1].End() {
      AtCovered(cs, k - 1, n);
    } else {
      AtNone(cs, n);
    }
  }

  /** If `n` is missing and `n + 1` is not, then a run starts there. */
  lemma RunStartsAfterGap<T>(cs: seq<Chunk<T>>, n: nat) returns (k: nat)
    requires Proper(cs) && At(cs, n).None? && At(cs, n + 1).Some?
    ensures k < |cs| && cs[k].start == n + 1
  {
    k := AtSome(cs, n + 1);
    if cs[k].Covers(n) {
      AtCovered(cs, k, n);
    }
  }

  // ---------------------------------------------------------------- removing

  /** `k` is `n` or follows it without a gap. */
  ghost predicate InRun<T>(cs: seq<Chunk<T>>, n: nat, k: nat) { n <= k && forall i :: n <= i <= k ==> At(cs, i).Some? }

  lemma RunIsRest<T>(cs: seq<Chunk<T>>, k: nat, n: nat, i: nat)
    requires Proper(cs) && k < |cs| && cs[k].Covers(n)
    ensures InRun(cs, n, i) <==> n <= i < cs[k].End()
  {
    AtAbove(cs, k, cs[k].End());
    NoneAfter(cs, k, cs[k].End());
    if n <= i < cs[k].End() {
      forall j | n <= j <= i
        ensures At(cs, j).Some?
      {
        AtCovered(cs, k, j);
      }
    }
  }

  /** Run `k` without its items from number `n` on, or gone if `n` is its first. */
  function Cut<T>(cs: seq<Chunk<T>>, k: nat, n: nat): seq<Chunk<T>>
    requires k < |cs| && cs[k].Covers(n)
  {
    if n == cs[k].start then cs[..k] + cs[k + 1..]
    else cs[..k] + [Chunk(cs[k].start, cs[k].items[..n - cs[k].start])] + cs[k + 1..]
  }

  lemma CutProper<T>(cs: seq<Chunk<T>>, k: nat, n: nat)
    requires Proper(cs) && k < |cs| && cs[k].Covers(n)
    ensures Proper(Cut(cs, k, n))
  {
    if n != cs[k].start {
      ProperJoin(cs[..k], Chunk(cs[k].start, cs[k].items[..n - cs[k].start]), cs[k + 1..]);
    }
  }

  lemma CutAt<T>(cs: seq<Chunk<T>>, k: nat, n: nat, i: nat)
    requires Proper(cs) && k < |cs| && cs[k].Covers(n)
    ensures At(Cut(cs, k, n), i) == if InRun(cs, n, i) then None else At(cs, i)
  {
    RunIsRest(cs, k, n, i);
    CutSides(cs, k, n, i);
    if cs[k].Covers(i) {
      NoneAfter(cs, k, i);
      NoneBefore(cs, k, i);
    }
    SlicedAt(cs, k, i);
  }

  /** What is left of a run that is cut at `n`. */
  ghost function CutHere<T>(c: Chunk<T>, n: nat, i: nat): Option<T> { if n <= i then None else Here(c, i) }

  lemma CutSides<T>(cs: seq<Chunk<T>>, k: nat, n: nat, i: nat)
    requires k < |cs| && cs[k].Covers(n)
    ensures At(Cut(cs, k, n), i) == Or(At(cs[k + 1..], i), Or(CutHere(cs[k], n, i), At(cs[..k], i)))
  {
    if n == cs[k].start {
      AtConcat(cs[..k], cs[k + 1..], i);
    } else {
      JoinAt(cs[..k], Chunk(cs[k].start, cs[k].items[..n - cs[k].start]), cs[k + 1..], i);
    }
  }

  /** The first `k` runs hold the numbers below `n`, for a number at or beyond the end of run `k - 1`. */
  lemma PrefixAt<T>(cs: seq<Chunk<T>>, k: nat, n: nat, i: nat)
    requires Proper(cs) && k <= |cs| && (0 < k ==> cs[k - 1].End() <= n) && (k < |cs| ==> n <= cs[k].start)
    ensures At(cs[..k], i) == if i < n then At(cs, i) else None
  {
    if n <= i {
      NoneBefore(cs, k, i);
    } else if k < |cs| {
      AtBelow(cs, k, i);
    } else {
      assert cs[..k] == cs;
    }
  }

  // ---------------------------------------------------------------- inserting

  /** Run `k` extended by an item, and by the next run if that now touches it. */
  function Extend<T>(cs: seq<Chunk<T>>, k: nat, x: T): seq<Chunk<T>>
    requires k < |cs|
  {
    var items := cs[k].items + [x];
    if k + 1 < |cs| && cs[k].start + |items| == cs[k + 1].start then
      cs[..k] + [Chunk(cs[k].start, items + cs[k + 1].items)] + cs[k + 2..]
    else cs[..k] + [Chunk(cs[k].start, items)] + cs[k + 1..]
  }

  lemma ExtendProper<T>(cs: seq<Chunk<T>>, k: nat, x: T)
    requires Proper(cs) && k < |cs|
    ensures Proper(Extend(cs, k, x))
  {
    var items := cs[k].items + [x];
    if k + 1 < |cs| && cs[k].start + |items| == cs[k + 1].start {
      ProperJoin(cs[..k], Chunk(cs[k].start, items + cs[k + 1].items), cs[k + 2..]);
    } else {
      ProperJoin(cs[..k], Chunk(cs[k].start, items), cs[k + 1..]);
    }
  }

  /** A run extended by an item. */
  lemma ExtendedHere<T>(c: Chunk<T>, x: T, i: nat)
    ensures Here(Chunk(c.start, c.items + [x]), i) == if i == c.End() then Some(x) else Here(c, i)
  {
  }

  /** A run extended by an item and another run. */
  lemma TouchingHere<T>(c1: Chunk<T>, x: T, c2: Chunk<T>, i: nat)
    requires c1.End() + 1 == c2.start
    ensures Here(Chunk(c1.start, c1.items + [x] + c2.items), i)
            == if i == c1.End() then Some(x) else Or(Here(c2, i), Here(c1, i))
  {
    var c := Chunk(c1.start, c1.items + [x] + c2.items);
    assert c2.Covers(i) ==> c.items[i - c.start] == c2.items[i - c2.start];
    assert c1.Covers(i) ==> c.items[i - c.start] == c1.items[i - c1.start];
  }

  lemma ExtendAlone<T>(cs: seq<Chunk<T>>, k: nat, x: T, i: nat)
    requires Proper(cs) && k < |cs| && (k + 1 < |cs| ==> cs[k].End() + 1 != cs[k + 1].start)
    ensures At(cs[..k] + [Chunk(cs[k].start, cs[k].items + [x])] + cs[k + 1..], i)
            == if i == cs[k].End() then Some(x) else At(cs, i)
  {
    JoinAt(cs[..k], Chunk(cs[k].start, cs[k].items + [x]), cs[k + 1..], i);
    ExtendedHere(cs[k], x, i);
    SlicedAt(cs, k, i);
    NoneAfter(cs, k, cs[k].End());
  }

  lemma ExtendTouching<T>(cs: seq<Chunk<T>>, k: nat, x: T, i: nat)
    requires Proper(cs) && k + 1 < |cs| && cs[k].End() + 1 == cs[k + 1].start
    ensures At(cs[..k] + [Chunk(cs[k].start, cs[k].items + [x] + cs[k + 1].items)] + cs[k + 2..], i)
            == if i == cs[k].End() then Some(x) else At(cs, i)
  {
    JoinAt(cs[..k], Chunk(cs[k].start, cs[k].items + [x] + cs[k + 1].items), cs[k + 2..], i);
    TouchingHere(cs[k], x, cs[k + 1], i);
    TwoAt(cs, k, i);
    NoneAfter(cs, k + 1, cs[k].End());
  }

  /** Two runs in a row, and what is before and after them. */
  lemma TwoAt<T>(cs: seq<Chunk<T>>, k: nat, i: nat)
    requires k + 1 < |cs|
    ensures At(cs, i) == Or(At(cs[k + 2..], i), Or(Or(Here(cs[k + 1], i), Here(cs[k], i)), At(cs[..k], i)))
  {
    SlicedAt(cs, k, i);
    SlicedNext(cs, k);
    AtConcat([cs[k + 1]], cs[k + 2..], i);
    AtOne(cs[k + 1], i);
  }

  lemma SlicedNext<T>(cs: seq<Chunk<T>>, k: nat)
    requires k + 1 < |cs|
    ensures cs[k + 1..] == [cs[k + 1]] + cs[k + 2..]
  {
  }

  lemma ExtendAt<T>(cs: seq<Chunk<T>>, k: nat, x: T, i: nat)
    requires Proper(cs) && k < |cs|
    ensures At(Extend(cs, k, x), i) == if i == cs[k].End() then Some(x) else At(cs, i)
  {
    if k + 1 < |cs| && cs[k].start + |cs[k].items + [x]| == cs[k + 1].start {
      ExtendTouching(cs, k, x, i);
    } else {
      ExtendAlone(cs, k, x, i);
    }
  }

  /** A new run before run `k`, or the two of them as one if they touch. */
  function InsertRun<T>(cs: seq<Chunk<T>>, k: nat, n: nat, x: T): seq<Chunk<T>>
    requires k <= |cs|
  {
    if k < |cs| && cs[k].start == n + 1 then cs[..k] + [Chunk(n, [x] + cs[k].items)] + cs[k + 1..]
    else cs[..k] + [Chunk(n, [x])] + cs[k..]
  }

  /** A run between others. */
  lemma ProperJoin<T>(a: seq<Chunk<T>>, c: Chunk<T>, b: seq<Chunk<T>>)
    requires Proper(a) && Proper(b) && c.items != []
    requires (forall i :: 0 <= i < |a| ==> a[i].End() < c.start) && (forall i :: 0 <= i < |b| ==> c.End() < b[i].start)
    ensures Proper(a + [c] + b)
  {
    var r := a + [c] + b;
    forall i, j | 0 <= i < j < |r|
      ensures r[i].End() < r[j].start
    {
      assert i < |a| ==> r[i] == a[i];
      assert j < |a| ==> r[j] == a[j];
      assert |a| < i ==> r[i] == b[i - |a| - 1];
      assert |a| < j ==> r[j] == b[j - |a| - 1];
    }
  }

  lemma InsertRunProper<T>(cs: seq<Chunk<T>>, k: nat, n: nat, x: T)
    requires Proper(cs) && k <= |cs| && (0 < k ==> cs[k - 1].End() < n) && (k < |cs| ==> n < cs[k].start)
    ensures Proper(InsertRun(cs, k, n, x))
  {
    if k < |cs| && cs[k].start == n + 1 {
      ProperJoin(cs[..k], Chunk(n, [x] + cs[k].items), cs[k + 1..]);
    } else {
      ProperJoin(cs[..k], Chunk(n, [x]), cs[k..]);
    }
  }

  lemma InsertRunAt<T>(cs: seq<Chunk<T>>, k: nat, n: nat, x: T, i: nat)
    requires Proper(cs) && k <= |cs| && (0 < k ==> cs[k - 1].End() < n) && (k < |cs| ==> n < cs[k].start)
    ensures At(InsertRun(cs, k, n, x), i) == if i == n then Some(x) else At(cs, i)
  {
    if k < |cs| && cs[k].start == n + 1 {
      InsertTouching(cs, k, n, x, i);
    } else {
      InsertApart(cs, k, n, x, i);
    }
  }

  /** A run with an item put before it. */
  lemma FrontHere<T>(n: nat, x: T, c: Chunk<T>, i: nat)
    requires c.start == n + 1
    ensures Here(Chunk(n, [x] + c.items), i) == if i == n then Some(x) else Here(c, i)
  {
  }

  lemma InsertTouching<T>(cs: seq<Chunk<T>>, k: nat, n: nat, x: T, i: nat)
    requires Proper(cs) && k < |cs| && (0 < k ==> cs[k - 1].End() < n) && cs[k].start == n + 1
    ensures At(cs[..k] + [Chunk(n, [x] + cs[k].items)] + cs[k + 1..], i) == if i == n then Some(x) else At(cs, i)
  {
    JoinAt(cs[..k], Chunk(n, [x] + cs[k].items), cs[k + 1..], i);
    FrontHere(n, x, cs[k], i);
    SlicedAt(cs, k, i);
    NoneAfter(cs, k, n);
  }

  lemma InsertApart<T>(cs: seq<Chunk<T>>, k: nat, n: nat, x: T, i: nat)
    requires Proper(cs) && k <= |cs| && (0 < k ==> cs[k - 1].End() < n) && (k < |cs| ==> n < cs[k].start)
    ensures At(cs[..k] + [Chunk(n, [x])] + cs[k..], i) == if i == n then Some(x) else At(cs, i)
  {
    JoinAt(cs[..k], Chunk(n, [x]), cs[k..], i);
    HalvesAt(cs, k, i);
    NoneFrom(cs, k, n);
  }

  lemma HalvesAt<T>(cs: seq<Chunk<T>>, k: nat, i: nat)
    requires k <= |cs|
    ensures At(cs, i) == Or(At(cs[k..], i), At(cs[..k], i))
  {
    assert cs == cs[..k] + cs[k..];
    AtConcat(cs[..k], cs[k..], i);
  }

  lemma NoneFrom<T>(cs: seq<Chunk<T>>, k: nat, n: nat)
    requires Proper(cs) && k <= |cs| && (k < |cs| ==> n < cs[k].start)
    ensures At(cs[k..], n).None?
  {
    AtNone(cs[k..], n);
  }

  // ---------------------------------------------------------------- the map

  class RangeMap<T(!new)> {
    var chunks: seq<Chunk<T>>

    ghost predicate Valid()
      reads this
    {
      Proper(chunks)
    }

    /** What is stored at a number. */
    ghost function Get(n: nat): Option<T>
      reads this
    {
      At(chunks, n)
    }

    constructor ()
      ensures Valid() && forall n :: Get(n).None?
    {
      chunks := [];
    }

    method HaveItem(n: nat) returns (b: bool)
      requires Valid()
      ensures b <==> Get(n).Some?
    {
      if chunks == [] {
        return false;
      }
      var k := LowerBound(chunks, n);
      LowerBoundDecides(chunks, n, k);
      if k < |chunks| && chunks[k].start == n {
        return true;
      }
      if k == 0 {
        return false;
      }
      b := chunks[k - 1].start <= n < chunks[k - 1].End();
    }

    method FindItem(n: nat) returns (r: Option<T>)
      requires Valid()
      ensures r == Get(n)
    {
      if chunks == [] {
        return None;
      }
      var k := LowerBound(chunks, n);
      LowerBoundDecides(chunks, n, k);
      if k < |chunks| && chunks[k].start == n {
        return Some(chunks[k].items[0]);
      }
      if k == 0 {
        return None;
      }
      if chunks[k - 1].start <= n < chunks[k - 1].End() {
        return Some(chunks[k - 1].items[n - chunks[k - 1].start]);
      }
      r := None;
    }

    /** Remove `n` and everything that follows it without a gap. */
    method RemoveItem(n: nat)
      requires Valid()
      modifies this
      ensures Valid() && forall i: nat :: Get(i) == if InRun(old(chunks), n, i) then None else old(Get(i))
    {
      var k := LowerBound(chunks, n);
      LowerBoundDecides(chunks, n, k);
      if k < |chunks| && chunks[k].start == n {
        CutBoth(chunks, k, n);
        chunks := chunks[..k] + chunks[k + 1..];
      } else if 0 < k && chunks[k - 1].start <= n < chunks[k - 1].End() {
        CutBoth(chunks, k - 1, n);
        var c := chunks[k - 1];
        chunks := chunks[..k - 1] + [Chunk(c.start, c.items[..n - c.start])] + chunks[k..];
      } else {
        assert forall i :: !InRun(chunks, n, i);
      }
    }

    /** Remove everything from number `n` on. */
    method RemoveAllStartingWith(n: nat)
      requires Valid()
      modifies this
      ensures Valid() && forall i: nat :: Get(i) == if n <= i then None else old(Get(i))
    {
      var k := LowerBound(chunks, n);
      if k < |chunks| && chunks[k].start == n {
        KeepBelow(chunks, k, n);
        chunks := chunks[..k];
      } else if k == 0 {
        KeepBelow(chunks, 0, n);
        chunks := [];
      } else {
        if chunks[k - 1].start <= n < chunks[k - 1].End() {
          CutBelow(chunks, k - 1, n);
          var c := chunks[k - 1];
          chunks := chunks[..k - 1] + [Chunk(c.start, c.items[..n - c.start])];
        } else {
          KeepBelow(chunks, k, n);
          chunks := chunks[..k];
        }
      }
    }

    /** Store an item at a number where there is none yet, joining the runs that it connects. */
    method MergeInto(n: nat, x: T)
      requires Valid() && Get(n).None?
      modifies this
      ensures Valid() && forall i: nat :: Get(i) == if i == n then Some(x) else old(Get(i))
    {
      var k := LowerBound(chunks, n);
      LowerBoundDecides(chunks, n, k);
      var lower := if 0 < k then k - 1 else k;
      if lower < |chunks| && chunks[lower].End() == n {
        ExtendBoth(chunks, lower, x);
        var items := chunks[lower].items + [x];
        if lower + 1 < |chunks| && chunks[lower].start + |items| == chunks[lower + 1].start {
          chunks := chunks[..lower] + [Chunk(chunks[lower].start, items + chunks[lower + 1].items)]
                    + chunks[lower + 2..];
        } else {
          chunks := chunks[..lower] + [Chunk(chunks[lower].start, items)] + chunks[lower + 1..];
        }
      } else {
        InsertBoth(chunks, k, n, x);
        if k < |chunks| && chunks[k].start == n + 1 {
          chunks := chunks[..k] + [Chunk(n, [x] + chunks[k].items)] + chunks[k + 1..];
        } else {
          chunks := chunks[..k] + [Chunk(n, [x])] + chunks[k..];
        }
      }
    }
  }

  lemma CutBoth<T(!new)>(cs: seq<Chunk<T>>, k: nat, n: nat)
    requires Proper(cs) && k < |cs| && cs[k].Covers(n)
    ensures Proper(Cut(cs, k, n))
    ensures forall i: nat :: At(Cut(cs, k, n), i) == if InRun(cs, n, i) then None else At(cs, i)
  {
    CutProper(cs, k, n);
    forall i: nat
      ensures At(Cut(cs, k, n), i) == if InRun(cs, n, i) then None else At(cs, i)
    {
      CutAt(cs, k, n, i);
    }
  }

  lemma KeepBelow<T(!new)>(cs: seq<Chunk<T>>, k: nat, n: nat)
    requires Proper(cs) && k <= |cs| && (0 < k ==> cs[k - 1].End() <= n) && (k < |cs| ==> n <= cs[k].start)
    ensures Proper(cs[..k]) && forall i: nat :: At(cs[..k], i) == if n <= i then None else At(cs, i)
  {
    forall i: nat
      ensures At(cs[..k], i) == if n <= i then None else At(cs, i)
    {
      PrefixAt(cs, k, n, i);
    }
  }

  lemma CutBelow<T(!new)>(cs: seq<Chunk<T>>, k: nat, n: nat)
    requires Proper(cs) && k < |cs| && cs[k].start < n < cs[k].End()
    ensures var cs' := cs[..k] + [Chunk(cs[k].start, cs[k].items[..n - cs[k].start])];
            Proper(cs') && forall i: nat :: At(cs', i) == if n <= i then None else At(cs, i)
  {
    var c := Chunk(cs[k].start, cs[k].items[..n - cs[k].start]);
    forall i: nat
      ensures At(cs[..k] + [c], i) == if n <= i then None else At(cs, i)
    {
      AtConcat(cs[..k], [c], i);
      AtOne(c, i);
      SlicedAt(cs, k, i);
      if n <= i {
        NoneBefore(cs, k, i);
      } else {
        NoneAfter(cs, k, i);
      }
    }
  }

  lemma ExtendBoth<T(!new)>(cs: seq<Chunk<T>>, k: nat, x: T)
    requires Proper(cs) && k < |cs|
    ensures Proper(Extend(cs, k, x))
    ensures forall i: nat :: At(Extend(cs, k, x), i) == if i == cs[k].End() then Some(x) else At(cs, i)
  {
    ExtendProper(cs, k, x);
    forall i: nat
      ensures At(Extend(cs, k, x), i) == if i == cs[k].End() then Some(x) else At(cs, i)
    {
      ExtendAt(cs, k, x, i);
    }
  }

  lemma InsertBoth<T(!new)>(cs: seq<Chunk<T>>, k: nat, n: nat, x: T)
    requires Proper(cs) && k <= |cs| && (0 < k ==> cs[k - 1].End() < n) && (k < |cs| ==> n < cs[k].start)
    ensures Proper(InsertRun(cs, k, n, x))
    ensures forall i: nat :: At(InsertRun(cs, k, n, x), i) == if i == n then Some(x) else At(cs, i)
  {
    InsertRunProper(cs, k, n, x);
    forall i: nat
      ensures At(InsertRun(cs, k, n, x), i) == if i == n then Some(x) else At(cs, i)
    {
      InsertRunAt(cs, k, n, x, i);
    }
  }

  // ---------------------------------------------------------------- looking for headers to request

  const MAX_REQUEST: nat := 1024

  datatype Request = Request(start: nat, count: nat)

  /** Skip numbers that are being downloaded. */
  method SkipDownloading(start: nat, count: nat, downloading: set<nat>) returns (start': nat, count': nat)
    ensures start <= start' && start' + count' == start + count
    ensures forall m :: start <= m < start' ==> m in downloading
    ensures 0 < count' ==> start' !in downloading
  {
    start', count' := start, count;
    while 0 < count' && start' in downloading
      invariant start <= start' && start' + count' == start + count
      invariant forall m :: start <= m < start' ==> m in downloading
    {
      start', count' := start' + 1, count' - 1;
    }
  }

  /** The numbers of a span that are not being downloaded. */
  ghost predicate Marks(marked: seq<nat>, start: nat, count: nat, downloading: set<nat>) {
    && Ascending(marked) && |marked| <= count
    && forall m :: m in marked <==> start <= m < start + count && m !in downloading
  }

  method MarkSpan(start: nat, count: nat, downloading: set<nat>) returns (marked: seq<nat>, downloading': set<nat>)
    ensures Marks(marked, start, count, downloading)
    ensures downloading' == downloading + set m | m in marked
    ensures 0 < count && start !in downloading ==> marked != [] && marked[0] == start
  {
    marked, downloading' := [], downloading;
    for n := start to start + count
      invariant Marks(marked, start, n - start, downloading)
      invariant downloading' == downloading + set m | m in marked
      invariant start < n && start !in downloading ==> marked != [] && marked[0] == start
    {
      if n !in downloading' {
        assert forall i :: 0 <= i < |marked| ==> marked[i] in marked;
        marked := marked + [n];
        downloading' := downloading' + {n};
      }
    }
  }

  /** The requested range is what was marked exactly when none of it was being downloaded already. */
  lemma RangeIsMarked(marked: seq<nat>, start: nat, count: nat, downloading: set<nat>)
    requires Marks(marked, start, count, downloading)
    ensures (forall i :: 0 <= i < |marked| ==> marked[i] == start + i)
            <==> forall m :: start <= m < start + |marked| ==> m !in downloading
  {
    if forall m :: start <= m < start + |marked| ==> m !in downloading {
      forall i | 0 <= i < |marked|
        ensures marked[i] == start + i
      {
        MarkedAt(marked, start, i);
      }
    }
    if forall i :: 0 <= i < |marked| ==> marked[i] == start + i {
      forall m | start <= m < start + |marked|
        ensures m !in downloading
      {
        assert marked[m - start] in marked;
      }
    }
  }

  /** From the first number of the span that is being downloaded on, all are. */
  ghost predicate Settled(downloading: set<nat>, start: nat, end: nat) {
    forall d, m :: start <= d < m < end && d in downloading ==> m in downloading
  }

  /** And that is exactly when, in the whole span, nothing is missing after a number that is being downloaded. */
  lemma RangeIsSettled(marked: seq<nat>, start: nat, count: nat, downloading: set<nat>)
    requires Marks(marked, start, count, downloading)
    ensures (forall m :: start <= m < start + |marked| ==> m !in downloading)
            <==> Settled(downloading, start, start + count)
  {
    if Settled(downloading, start, start + count) {
      forall m | start <= m < start + |marked|
        ensures m !in downloading
      {
        MarkedAtLeast(marked, start, |marked| - 1);
        assert marked[|marked| - 1] in marked;
      }
    }
    if forall m :: start <= m < start + |marked| ==> m !in downloading {
      RangeIsMarked(marked, start, count, downloading);
      assert forall m :: m in marked ==> m < start + |marked|;
    }
  }

  lemma {:induction false} MarkedAtLeast(marked: seq<nat>, start: nat, i: nat)
    requires Ascending(marked) && i < |marked| && forall m :: m in marked ==> start <= m
    ensures start + i <= marked[i]
    decreases i
  {
    assert marked[i] in marked;
    if i > 0 {
      MarkedAtLeast(marked, start, i - 1);
    }
  }

  lemma {:induction false} MarkedAt(marked: seq<nat>, start: nat, i: nat)
    requires Ascending(marked) && i < |marked| && forall m :: m in marked ==> start <= m
    requires forall m :: start <= m < start + |marked| ==> m in marked
    ensures marked[i] == start + i
    decreases i
  {
    if i > 0 {
      MarkedAt(marked, start, i - 1);
    }
    assert marked[i] in marked && start + i in marked;
    var j :| 0 <= j < |marked| && marked[j] == start + i;
    if j < i {
      MarkedAt(marked, start, j);
    }
  }

  /** Where the search for missing headers begins. */
  function SearchStart<T>(cs: seq<Chunk<T>>, lastImported: nat): nat {
    if cs != [] && cs[0].start <= lastImported + 1 then cs[0].End() else lastImported + 1
  }

  /** The search skips no missing number after the last import, and begins with one. */
  lemma SearchStartSeen<T>(cs: seq<Chunk<T>>, lastImported: nat)
    requires Proper(cs)
    ensures At(cs, SearchStart(cs, lastImported)).None?
    ensures forall m: nat {:trigger At(cs, m)} ::
              lastImported < m < SearchStart(cs, lastImported) ==> At(cs, m).Some?
    ensures cs == [] || lastImported + 1 < cs[0].start ==> SearchStart(cs, lastImported) == lastImported + 1
  {
    if cs != [] {
      forall m: nat | lastImported < m < SearchStart(cs, lastImported)
        ensures At(cs, m).Some?
      {
        AtCovered(cs, 0, m);
      }
    }
    AtNone(cs, SearchStart(cs, lastImported));
  }

  /** Every missing number from `from` up to `to` is being downloaded. */
  ghost predicate NothingToAsk<T>(cs: seq<Chunk<T>>, downloading: set<nat>, from: nat, to: nat) {
    forall m: nat {:trigger At(cs, m)} :: from <= m < to && At(cs, m).None? ==> m in downloading
  }

  /** The first missing number from `from` on that nobody is downloading. */
  ghost predicate First<T>(cs: seq<Chunk<T>>, downloading: set<nat>, from: nat, first: nat) {
    from <= first && At(cs, first).None? && first !in downloading && NothingToAsk(cs, downloading, from, first)
  }

  lemma FirstIsUnique<T>(cs: seq<Chunk<T>>, downloading: set<nat>, from: nat, x: nat, y: nat)
    requires First(cs, downloading, from, x) && First(cs, downloading, from, y)
    ensures x == y
  {
    assert At(cs, x).None? && At(cs, y).None?;
  }

  /** A gap around `n`: the missing numbers from `low` to `high`, of those from `from` on. */
  ghost predicate Gap<T>(cs: seq<Chunk<T>>, from: nat, n: nat, low: nat, high: nat) {
    && from <= low <= n < high && At(cs, high).Some? && (low == from || At(cs, low - 1).Some?)
    && forall m: nat {:trigger At(cs, m)} :: low <= m < high ==> At(cs, m).None?
  }

  lemma GapIsUnique<T>(cs: seq<Chunk<T>>, from: nat, n: nat, low: nat, high: nat, low': nat, high': nat)
    requires Gap(cs, from, n, low, high) && Gap(cs, from, n, low', high')
    ensures low == low' && high == high'
  {
    assert At(cs, high).Some? && At(cs, high').Some?;
  }

  /** A gap is searched in spans of 1024; where the span of `n` ends. */
  function SpanEnd(low: nat, high: nat, n: nat): nat
    requires low <= n
  {
    var end := low + (n - low) / MAX_REQUEST * MAX_REQUEST + MAX_REQUEST;
    if end < high then end else high
  }

  /** A span ends with the gap, or a whole number of 1024 after its beginning, and holds no more than 1024. */
  lemma SpanEndSeen(low: nat, high: nat, n: nat)
    requires low <= n < high
    ensures n < SpanEnd(low, high, n) <= high && SpanEnd(low, high, n) <= n + 1024
    ensures SpanEnd(low, high, n) == high || (SpanEnd(low, high, n) - low) % 1024 == 0
  {
  }

  lemma SpanEndIs(low: nat, high: nat, start: nat, k: nat, n: nat)
    requires start == low + k * MAX_REQUEST && start <= n < start + MAX_REQUEST
    ensures SpanEnd(low, high, n) == if start + MAX_REQUEST < high then start + MAX_REQUEST else high
  {
    assert (n - low) / MAX_REQUEST == k;
  }

  /**
   What is asked for: the wanted headers of the span of the first one, all of them missing.  The requested range is what
   is marked exactly if, in that span, no header is missing after one that is being downloaded; the first header and its
   gap, and so the span, are unique.
   */
  ghost predicate Asked<T>(cs: seq<Chunk<T>>, downloading: set<nat>, from: nat, start: nat, marked: seq<nat>, low: nat,
                           high: nat)
  {
    && First(cs, downloading, from, start) && Gap(cs, from, start, low, high)
    && Marks(marked, start, SpanEnd(low, high, start) - start, downloading) && marked != [] && marked[0] == start
    && (forall m: nat {:trigger At(cs, m)} :: start <= m < start + |marked| ==> At(cs, m).None?)
    && ((forall i :: 0 <= i < |marked| ==> marked[i] == start + i) <==>
          Settled(downloading, start, SpanEnd(low, high, start)))
  }

  /** The search is at `start`, some whole spans after the beginning `low` of the gap before run `next`. */
  ghost predicate Searching<T>(cs: seq<Chunk<T>>, downloading: set<nat>, from: nat, low: nat, start: nat, spans: nat,
                               next: nat)
  {
    && next <= |cs| && (0 < next ==> cs[next - 1].End() <= low) && (next < |cs| ==> start < cs[next].start)
    && from <= low && (low == from || (0 < next && low == cs[next - 1].End()))
    && start == low + spans * MAX_REQUEST && NothingToAsk(cs, downloading, from, start)
    && (cs != [] && next == |cs| ==> cs[|cs| - 1].start <= start)
  }

  lemma AskedHere<T>(cs: seq<Chunk<T>>, downloading: set<nat>, from: nat, low: nat, start0: nat, spans: nat, next: nat,
                     start: nat, count: nat, marked: seq<nat>)
    requires Proper(cs) && Searching(cs, downloading, from, low, start0, spans, next) && next < |cs|
    requires start0 <= start && start + count == start0 + SpanSize(start0, cs[next].start)
    requires forall m :: start0 <= m < start ==> m in downloading
    requires Marks(marked, start, count, downloading) && marked != [] && marked[0] == start
    ensures Asked(cs, downloading, from, start, marked, low, cs[next].start)
  {
    assert marked[0] in marked;
    SpanEndIs(low, cs[next].start, start0, spans, start);
    GapHere(cs, next, from, start, low);
    RangeIsMarked(marked, start, count, downloading);
    RangeIsSettled(marked, start, count, downloading);
  }

  /** A span in which nothing is wanted. */
  lemma SpanDone<T>(cs: seq<Chunk<T>>, downloading: set<nat>, from: nat, low: nat, start0: nat, spans: nat, next: nat,
                    start: nat)
    requires Proper(cs) && Searching(cs, downloading, from, low, start0, spans, next) && next < |cs|
    requires start == start0 + SpanSize(start0, cs[next].start)
    requires forall m :: start0 <= m < start ==> m in downloading
    ensures start < cs[next].start ==> Searching(cs, downloading, from, low, start, spans + 1, next)
    ensures cs[next].start <= start ==> Searching(cs, downloading, from, cs[next].End(), cs[next].End(), 0, next + 1)
  {
    assert NothingToAsk(cs, downloading, from, start);
    if cs[next].start <= start {
      AcrossRun(cs, next, downloading, from, start);
    }
  }

  /** A span has at most 1024 headers and ends where the next run begins. */
  function SpanSize(start: nat, end: nat): nat
    requires start <= end
  {
    if MAX_REQUEST < end - start then MAX_REQUEST else end - start
  }

  /**
   Find the first gap with a header that nobody is downloading, mark the wanted ones of up to 1024 and say which range
   to request.  Nothing is requested only if there is nothing to ask for.
   */
  method RequestHeaders<T>(cs: seq<Chunk<T>>, downloading: set<nat>, lastImported: nat)
    returns (r: Option<Request>, marked: seq<nat>, downloading': set<nat>, ghost low: nat, ghost high: nat)
    requires Proper(cs)
    ensures downloading' == downloading + set m | m in marked
    ensures r.None? <==> marked == []
    ensures r.None? && cs != [] ==>
              NothingToAsk(cs, downloading, SearchStart(cs, lastImported), cs[|cs| - 1].start)
    ensures r.Some? ==>
              r.value.count == |marked| <= 1024
              && Asked(cs, downloading, SearchStart(cs, lastImported), r.value.start, marked, low, high)
  {
    var start: nat := lastImported + 1;
    var next := 0;
    r, marked, downloading' := None, [], downloading;
    if cs != [] && cs[0].start <= start {
      start := cs[0].End();
      next := 1;
    }
    ghost var from: nat, spans: nat := start, 0;
    low, high := start, start;
    while next < |cs|
      invariant r.None? && marked == [] && downloading' == downloading && from == SearchStart(cs, lastImported)
      invariant Searching(cs, downloading, from, low, start, spans, next)
      decreases |cs| - next, if next < |cs| then cs[next].start - start else 0
    {
      var count := SpanSize(start, cs[next].start);
      ghost var start0 := start;
      start, count := SkipDownloading(start, count, downloading);
      marked, downloading' := MarkSpan(start, count, downloading);
      if marked != [] {
        high := cs[next].start;
        AskedHere(cs, downloading, from, low, start0, spans, next, start, count, marked);
        r := Some(Request(start, |marked|));
        return;
      }
      SpanDone(cs, downloading, from, low, start0, spans, next, start);
      spans := spans + 1;
      if cs[next].start <= start {
        start := cs[next].End();
        next := next + 1;
        low, spans := start, 0;
      }
    }
  }

  /** Before run `k`, from the end of the run before it or from where the search begins. */
  lemma GapHere<T>(cs: seq<Chunk<T>>, k: nat, from: nat, n: nat, low: nat)
    requires Proper(cs) && k < |cs| && from <= low <= n < cs[k].start
    requires low == from || (0 < k && low == cs[k - 1].End())
    requires 0 < k ==> cs[k - 1].End() <= low
    ensures Gap(cs, from, n, low, cs[k].start)
  {
    InGap(cs, k, low, cs[k].start - low);
    AtCovered(cs, k, cs[k].start);
    if low != from {
      AtCovered(cs, k - 1, low - 1);
    }
  }

  /** The numbers between two runs are missing. */
  lemma InGap<T>(cs: seq<Chunk<T>>, k: nat, start: nat, count: nat)
    requires Proper(cs) && k < |cs| && (0 < k ==> cs[k - 1].End() <= start) && start + count <= cs[k].start
    ensures forall m: nat :: start <= m < start + count ==> At(cs, m).None?
  {
    forall m: nat | start <= m < start + count
      ensures At(cs, m).None?
    {
      AtNone(cs, m);
    }
  }

  lemma AcrossRun<T>(cs: seq<Chunk<T>>, k: nat, downloading: set<nat>, from: nat, start: nat)
    requires Proper(cs) && k < |cs| && start == cs[k].start && NothingToAsk(cs, downloading, from, start)
    ensures NothingToAsk(cs, downloading, from, cs[k].End())
  {
    forall m: nat | from <= m < cs[k].End() && At(cs, m).None?
      ensures m in downloading
    {
      if cs[k].Covers(m) {
        AtCovered(cs, k, m);
      }
    }
  }
}
