/**
 The two-level index of block blooms: a level-0 entry for every block and a level-1 entry for every sixteen blocks, in
 chunks of sixteen entries that live in a memory cache over a database.
 */
module BloomIndex {
  import opened Collections

  /** A bloom filter is the set of its bits. */
  type Bloom = set<nat>

  const SIZE: nat := 16
  const MAX_NUMBER: nat := 0x1_0000_0000

  type Chunk = c: seq<Bloom> | |c| == SIZE witness seq(SIZE, i => {})

  function NoBlooms(): Chunk { seq(SIZE, i => {}) }

  /** The key of a chunk, in 32-bit arithmetic. */
  function ChunkId(level: nat, index: nat): nat { (index * 0xff + level) % 0x1_0000_0000 }

  type Store = map<nat, Chunk>

  /** A chunk as `blocksBlooms` finds it: in memory, else in the database, else blank. */
  function Look(mem: Store, db: Store, id: nat): Chunk {
    if id in mem then mem[id] else if id in db then db[id] else NoBlooms()
  }

  /** Entry `i` of a level. */
  function At(mem: Store, db: Store, level: nat, i: nat): Bloom { Look(mem, db, ChunkId(level, i / SIZE))[i % SIZE] }

  // ---------------------------------------------------------------- chunk ids do not collide

  /** Which chunks a 32-bit block number can reach. */
  predicate InRange(level: nat, index: nat) {
    (level == 0 && index < 0x1000_0000) || (level == 1 && index < 0x100_0000)
  }

  lemma ChunkIdInjective(l: nat, i: nat, m: nat, j: nat)
    requires InRange(l, i) && InRange(m, j) && ChunkId(l, i) == ChunkId(m, j)
    ensures l == m && i == j
  {
    var a, b := i * 0xff + l, j * 0xff + m;
    var k := a / 0x1_0000_0000 - b / 0x1_0000_0000;
    assert a - b == k * 0x1_0000_0000;
    assert -17 <= k <= 17;
    // 2^32 leaves remainder 1 when divided by 255, so k is l - m modulo 255.
    assert 0x1_0000_0000 == 0xff * 0x101_0101 + 1;
    assert 0xff * (i - j - k * 0x101_0101) == k - (l - m);
    assert k == l - m;
    assert i - j == k * 0x101_0101;
  }

  // ---------------------------------------------------------------- single entries

  /** Write one entry, after the chunk has been brought into memory. */
  function SetEntry(mem: Store, db: Store, level: nat, i: nat, b: Bloom): Store {
    var id := ChunkId(level, i / SIZE);
    mem[id := Look(mem, db, id)[i % SIZE := b]]
  }

  lemma SetEntryAt(mem: Store, db: Store, level: nat, i: nat, b: Bloom, l: nat, j: nat)
    requires InRange(level, i / SIZE) && InRange(l, j / SIZE)
    ensures At(SetEntry(mem, db, level, i, b), db, l, j)
            == if level == l && i == j then b else At(mem, db, l, j)
  {
    if ChunkId(level, i / SIZE) == ChunkId(l, j / SIZE) {
      ChunkIdInjective(level, i / SIZE, l, j / SIZE);
    }
  }

  /** Copy the chunk of an entry to the database. */
  function Save(mem: Store, db: Store, level: nat, i: nat): Store {
    var id := ChunkId(level, i / SIZE);
    db[id := Look(mem, db, id)]
  }

  /** Saving does not change what memory shows, and makes the database show it for one chunk. */
  lemma SaveAt(mem: Store, db: Store, level: nat, i: nat, l: nat, j: nat)
    requires InRange(level, i / SIZE) && InRange(l, j / SIZE)
    ensures At(mem, Save(mem, db, level, i), l, j) == At(mem, db, l, j)
    ensures At(map[], Save(mem, db, level, i), l, j)
            == if level == l && i / SIZE == j / SIZE then At(mem, db, l, j) else At(map[], db, l, j)
  {
    if ChunkId(level, i / SIZE) == ChunkId(l, j / SIZE) {
      ChunkIdInjective(level, i / SIZE, l, j / SIZE);
    }
  }

  // ---------------------------------------------------------------- invariants

  predicate Reachable(n: nat) { n < MAX_NUMBER }

  /** Both levels show at least the bits `b` of block `n`. */
  ghost predicate Shows(mem: Store, db: Store, n: nat, b: Bloom) {
    b <= At(mem, db, 0, n) && b <= At(mem, db, 1, n / SIZE)
  }

  ghost predicate Covers(mem: Store, db: Store, canon: map<nat, Bloom>) {
    forall n {:trigger Shows(mem, db, n, canon[n])} :: n in canon ==> Shows(mem, db, n, canon[n])
  }

  ghost function CanonAt(canon: map<nat, Bloom>, n: nat): Bloom { if n in canon then canon[n] else {} }

  ghost predicate ExactAt(mem: Store, db: Store, canon: map<nat, Bloom>, n: nat) {
    At(mem, db, 0, n) == CanonAt(canon, n)
  }

  /** Level 0 shows exactly the canonical blocks. */
  ghost predicate Exact(mem: Store, db: Store, canon: map<nat, Bloom>) {
    forall n: nat {:trigger ExactAt(mem, db, canon, n)} :: Reachable(n) ==> ExactAt(mem, db, canon, n)
  }

  ghost predicate Consistent(mem: Store, db: Store, canon: map<nat, Bloom>, evicted: bool) {
    && (forall n :: n in canon ==> n < MAX_NUMBER)
    && Covers(mem, db, canon) && Covers(map[], db, canon)
    && (!evicted ==> Exact(mem, db, canon))
  }

  // ---------------------------------------------------------------- adding a canonical block

  function NotedMem(mem: Store, db: Store, n: nat, b: Bloom): Store {
    var mem1 := SetEntry(mem, db, 0, n, At(mem, db, 0, n) + b);
    SetEntry(mem1, db, 1, n / SIZE, At(mem1, db, 1, n / SIZE) + b)
  }

  function NotedDb(mem: Store, db: Store, n: nat): Store { Save(mem, Save(mem, db, 0, n), 1, n / SIZE) }

  lemma NotedAt(mem: Store, db: Store, n: nat, b: Bloom, l: nat, j: nat)
    requires n < MAX_NUMBER && InRange(l, j / SIZE)
    ensures At(NotedMem(mem, db, n, b), db, l, j)
            == At(mem, db, l, j) + if (l == 0 && j == n) || (l == 1 && j == n / SIZE) then b else {}
  {
    var mem1 := SetEntry(mem, db, 0, n, At(mem, db, 0, n) + b);
    SetEntryAt(mem, db, 0, n, At(mem, db, 0, n) + b, l, j);
    SetEntryAt(mem, db, 0, n, At(mem, db, 0, n) + b, 1, n / SIZE);
    SetEntryAt(mem1, db, 1, n / SIZE, At(mem1, db, 1, n / SIZE) + b, l, j);
  }

  lemma NotedDbAt(mem: Store, db: Store, n: nat, l: nat, j: nat)
    requires n < MAX_NUMBER && InRange(l, j / SIZE)
    ensures At(mem, NotedDb(mem, db, n), l, j) == At(mem, db, l, j)
    ensures At(map[], NotedDb(mem, db, n), l, j) == At(mem, db, l, j)
            || At(map[], NotedDb(mem, db, n), l, j) == At(map[], db, l, j)
    ensures (l == 0 && j == n) || (l == 1 && j == n / SIZE) ==>
              At(map[], NotedDb(mem, db, n), l, j) == At(mem, db, l, j)
  {
    SaveAt(mem, db, 0, n, l, j);
    SaveAt(mem, Save(mem, db, 0, n), 1, n / SIZE, l, j);
  }

  lemma NoteShows(mem: Store, db: Store, canon: map<nat, Bloom>, n: nat, b: Bloom, k: nat)
    requires n < MAX_NUMBER && k < MAX_NUMBER && k in canon[n := b]
    requires k != n ==> Shows(mem, db, k, canon[k]) && Shows(map[], db, k, canon[k])
    ensures var mem' := NotedMem(mem, db, n, b);
            && Shows(mem', NotedDb(mem', db, n), k, canon[n := b][k])
            && Shows(map[], NotedDb(mem', db, n), k, canon[n := b][k])
  {
    var mem' := NotedMem(mem, db, n, b);
    NotedAt(mem, db, n, b, 0, k);
    NotedAt(mem, db, n, b, 1, k / SIZE);
    NotedDbAt(mem', db, n, 0, k);
    NotedDbAt(mem', db, n, 1, k / SIZE);
  }

  lemma NoteExact(mem: Store, db: Store, canon: map<nat, Bloom>, n: nat, b: Bloom, k: nat)
    requires n < MAX_NUMBER && n !in canon && Reachable(k)
    requires ExactAt(mem, db, canon, k)
    ensures var mem' := NotedMem(mem, db, n, b);
            ExactAt(mem', NotedDb(mem', db, n), canon[n := b], k)
  {
    NotedAt(mem, db, n, b, 0, k);
    NotedDbAt(NotedMem(mem, db, n, b), db, n, 0, k);
  }

  lemma NoteKeeps(mem: Store, db: Store, canon: map<nat, Bloom>, evicted: bool, n: nat, b: Bloom)
    requires Consistent(mem, db, canon, evicted) && n < MAX_NUMBER && n !in canon
    ensures var mem' := NotedMem(mem, db, n, b);
            Consistent(mem', NotedDb(mem', db, n), canon[n := b], evicted)
  {
    var mem' := NotedMem(mem, db, n, b);
    var db' := NotedDb(mem', db, n);
    var canon' := canon[n := b];
    forall k | k in canon'
      ensures Shows(mem', db', k, canon'[k]) && Shows(map[], db', k, canon'[k])
    {
      NoteShows(mem, db, canon, n, b, k);
    }
    if !evicted {
      forall k: nat | Reachable(k)
        ensures ExactAt(mem', db', canon[n := b], k)
      {
        NoteExact(mem, db, canon, n, b, k);
      }
    }
  }

  // ---------------------------------------------------------------- taking canonical blocks back

  /** Everything the sixteen entries of a chunk have. */
  ghost function OrAll(c: seq<Bloom>): (r: Bloom)
    ensures forall i :: 0 <= i < |c| ==> c[i] <= r
  {
    if c == [] then {} else OrAll(c[..|c| - 1]) + c[|c| - 1]
  }

  method OrOf(c: Chunk) returns (acc: Bloom)
    ensures acc == OrAll(c)
  {
    acc := {};
    for i := 0 to |c|
      invariant acc == OrAll(c[..i])
    {
      assert c[..i + 1][..i] == c[..i];
      acc := acc + c[i];
    }
    assert c[..|c|] == c;
  }

  /** What the level-0 entries `begin..end` being blanked does. */
  ghost predicate Blanked(mem0: Store, mem: Store, db: Store, begin: nat, end: nat) {
    forall l: nat, j: nat {:trigger At(mem, db, l, j)} :: InRange(l, j / SIZE) ==>
      At(mem, db, l, j) == if l == 0 && begin <= j < end then {} else At(mem0, db, l, j)
  }

  method BlankBlocks(mem0: Store, db: Store, begin: nat, end: nat) returns (mem: Store)
    requires begin <= end <= MAX_NUMBER
    ensures Blanked(mem0, mem, db, begin, end)
  {
    mem := mem0;
    for item := begin to end
      invariant Blanked(mem0, mem, db, begin, item)
    {
      var next := SetEntry(mem, db, 0, item, {});
      forall l: nat, j: nat {:trigger At(next, db, l, j)} | InRange(l, j / SIZE)
        ensures At(next, db, l, j) == if l == 0 && begin <= j < item + 1 then {} else At(mem0, db, l, j)
      {
        SetEntryAt(mem, db, 0, item, {}, l, j);
        assert At(mem, db, l, j) == if l == 0 && begin <= j < item then {} else At(mem0, db, l, j);
      }
      mem := next;
    }
  }

  /** What rebuilding the level-1 entries `begin..end` from level 0 does. */
  ghost predicate Rebuilt(mem0: Store, mem: Store, db: Store, begin: nat, end: nat) {
    && (forall j: nat {:trigger At(mem, db, 0, j)} :: InRange(0, j / SIZE) ==> At(mem, db, 0, j) == At(mem0, db, 0, j))
    && (forall j: nat {:trigger At(mem, db, 1, j)} :: InRange(1, j / SIZE) ==>
          At(mem, db, 1, j) == if begin <= j < end then OrAll(Look(mem0, db, ChunkId(0, j))) else At(mem0, db, 1, j))
  }

  lemma LevelZeroChunkKept(mem: Store, db: Store, item: nat, b: Bloom, i: nat)
    requires InRange(1, item / SIZE) && InRange(0, i)
    ensures Look(SetEntry(mem, db, 1, item, b), db, ChunkId(0, i)) == Look(mem, db, ChunkId(0, i))
  {
    if ChunkId(1, item / SIZE) == ChunkId(0, i) {
      ChunkIdInjective(1, item / SIZE, 0, i);
    }
  }

  lemma RebuiltNext(mem0: Store, mem: Store, db: Store, begin: nat, item: nat)
    requires begin <= item < MAX_NUMBER / SIZE && Rebuilt(mem0, mem, db, begin, item)
    ensures Rebuilt(mem0, SetEntry(mem, db, 1, item, OrAll(Look(mem0, db, ChunkId(0, item)))), db, begin, item + 1)
  {
    var b := OrAll(Look(mem0, db, ChunkId(0, item)));
    var next := SetEntry(mem, db, 1, item, b);
    forall j: nat {:trigger At(next, db, 0, j)} | InRange(0, j / SIZE)
      ensures At(next, db, 0, j) == At(mem0, db, 0, j)
    {
      SetEntryAt(mem, db, 1, item, b, 0, j);
      assert At(mem, db, 0, j) == At(mem0, db, 0, j);
    }
    forall j: nat {:trigger At(next, db, 1, j)} | InRange(1, j / SIZE)
      ensures At(next, db, 1, j)
              == if begin <= j < item + 1 then OrAll(Look(mem0, db, ChunkId(0, j))) else At(mem0, db, 1, j)
    {
      SetEntryAt(mem, db, 1, item, b, 1, j);
      assert At(mem, db, 1, j)
             == if begin <= j < item then OrAll(Look(mem0, db, ChunkId(0, j))) else At(mem0, db, 1, j);
    }
  }

  method RebuildGroups(mem0: Store, db: Store, begin: nat, end: nat) returns (mem: Store)
    requires begin <= end <= MAX_NUMBER / SIZE
    ensures Rebuilt(mem0, mem, db, begin, end)
  {
    mem := mem0;
    for item := begin to end
      invariant Rebuilt(mem0, mem, db, begin, item)
      invariant forall i: nat {:trigger ChunkId(0, i)} :: InRange(0, i) ==>
                  Look(mem, db, ChunkId(0, i)) == Look(mem0, db, ChunkId(0, i))
    {
      var acc := OrOf(Look(mem, db, ChunkId(0, item)));
      RebuiltNext(mem0, mem, db, begin, item);
      forall i: nat {:trigger ChunkId(0, i)} | InRange(0, i)
        ensures Look(SetEntry(mem, db, 1, item, acc), db, ChunkId(0, i)) == Look(mem0, db, ChunkId(0, i))
      {
        LevelZeroChunkKept(mem, db, item, acc, i);
      }
      mem := SetEntry(mem, db, 1, item, acc);
    }
  }

  ghost function Below(canon: map<nat, Bloom>, begin: nat): map<nat, Bloom> {
    map n | n in canon && n < begin :: canon[n]
  }

  lemma ClearShows(mem0: Store, mem1: Store, mem2: Store, db: Store, canon: map<nat, Bloom>, begin: nat, end: nat,
                   n: nat)
    requires begin < end <= MAX_NUMBER && n in canon && n < begin && Shows(mem0, db, n, canon[n])
    requires Blanked(mem0, mem1, db, begin, end) && Rebuilt(mem1, mem2, db, begin / SIZE, (end - 1) / SIZE + 1)
    ensures Shows(mem2, db, n, canon[n])
  {
    assert At(mem2, db, 0, n) == At(mem1, db, 0, n) == At(mem0, db, 0, n);
    assert At(mem1, db, 1, n / SIZE) == At(mem0, db, 1, n / SIZE);
    assert Look(mem1, db, ChunkId(0, n / SIZE))[n % SIZE] == At(mem1, db, 0, n);
  }

  lemma ClearKeeps(mem0: Store, mem1: Store, mem2: Store, db: Store, canon: map<nat, Bloom>, evicted: bool, begin: nat,
                   end: nat)
    requires Consistent(mem0, db, canon, evicted) && begin < end <= MAX_NUMBER
    requires forall n :: n in canon ==> n < end
    requires Blanked(mem0, mem1, db, begin, end) && Rebuilt(mem1, mem2, db, begin / SIZE, (end - 1) / SIZE + 1)
    ensures Consistent(mem2, db, Below(canon, begin), evicted)
  {
    var canon' := Below(canon, begin);
    forall n | n in canon'
      ensures Shows(mem2, db, n, canon'[n]) && Shows(map[], db, n, canon'[n])
    {
      ClearShows(mem0, mem1, mem2, db, canon, begin, end, n);
    }
    if !evicted {
      forall n: nat | Reachable(n)
        ensures ExactAt(mem2, db, canon', n)
      {
        assert ExactAt(mem0, db, canon, n);
        assert At(mem2, db, 0, n) == At(mem1, db, 0, n);
      }
    }
  }

  // ---------------------------------------------------------------- searching

  /** Block `x` passes the level-0 test of a search. */
  predicate BlockHit(mem: Store, db: Store, b: Bloom, earliest: nat, latest: nat, x: nat) {
    && (x / SIZE == earliest / SIZE ==> earliest <= x)
    && (x / SIZE == latest / SIZE ==> x <= latest)
    && b <= At(mem, db, 0, x)
  }

  /** The group of sixteen blocks `g` passes the level-1 test. */
  predicate GroupHit(mem: Store, db: Store, b: Bloom, earliest: nat, latest: nat, g: nat) {
    && (g / SIZE == earliest / (SIZE * SIZE) ==> earliest / SIZE <= g)
    && (g / SIZE == latest / (SIZE * SIZE) ==> g <= latest / SIZE)
    && b <= At(mem, db, 1, g)
  }

  /** Both tests. */
  predicate Hit(mem: Store, db: Store, b: Bloom, earliest: nat, latest: nat, x: nat) {
    GroupHit(mem, db, b, earliest, latest, x / SIZE) && BlockHit(mem, db, b, earliest, latest, x)
  }

  lemma AscendingConcat(s: seq<nat>, t: seq<nat>, m: nat)
    requires Ascending(s) && Ascending(t)
    requires (forall x :: x in s ==> x < m) && (forall x :: x in t ==> m <= x)
    ensures Ascending(s + t)
  {
    forall i, j | 0 <= i < j < |s + t|
      ensures (s + t)[i] < (s + t)[j]
    {
      assert i < |s| ==> s[i] in s;
      assert j >= |s| ==> t[j - |s|] in t;
    }
  }

  /** Search one level-0 chunk. */
  method SearchGroup(mem: Store, db: Store, b: Bloom, earliest: nat, latest: nat, index: nat) returns (ret: seq<nat>)
    ensures Ascending(ret)
    ensures forall x :: x in ret <==> 0 <= x && x / SIZE == index && BlockHit(mem, db, b, earliest, latest, x)
  {
    var obegin := if index == earliest / SIZE then earliest % SIZE else 0;
    var oend := if index == latest / SIZE then latest % SIZE + 1 else SIZE;
    var chunk := Look(mem, db, ChunkId(0, index));
    ret := [];
    var o := obegin;
    while o < oend
      invariant obegin <= o && (o <= oend || o == obegin)
      invariant Ascending(ret)
      invariant forall x :: x in ret <==> index * SIZE + obegin <= x < index * SIZE + o && b <= At(mem, db, 0, x)
    {
      assert (index * SIZE + o) / SIZE == index && (index * SIZE + o) % SIZE == o;
      if b <= chunk[o] {
        AscendingConcat(ret, [o + index * SIZE], o + index * SIZE);
        ret := ret + [o + index * SIZE];
      }
      o := o + 1;
    }
    forall x: int
      ensures x in ret <==> 0 <= x && x / SIZE == index && BlockHit(mem, db, b, earliest, latest, x)
    {
      assert x / SIZE == index <==> index * SIZE <= x < index * SIZE + SIZE;
    }
  }

  lemma InRangeChunk(x: nat, index: nat)
    ensures x / (SIZE * SIZE) == index <==> index * SIZE <= x / SIZE < index * SIZE + SIZE
    ensures x / (SIZE * SIZE) == index <==> x / SIZE / SIZE == index
  {
  }

  /** Search one level-1 chunk and below it. */
  method SearchRange(mem: Store, db: Store, b: Bloom, earliest: nat, latest: nat, index: nat) returns (ret: seq<nat>)
    ensures Ascending(ret)
    ensures forall x :: x in ret <==> 0 <= x && x / (SIZE * SIZE) == index && Hit(mem, db, b, earliest, latest, x)
  {
    var obegin := if index == earliest / (SIZE * SIZE) then earliest / SIZE % SIZE else 0;
    var oend := if index == latest / (SIZE * SIZE) then latest / SIZE % SIZE + 1 else SIZE;
    var chunk := Look(mem, db, ChunkId(1, index));
    ret := [];
    var o := obegin;
    while o < oend
      invariant obegin <= o && (o <= oend || o == obegin)
      invariant Ascending(ret)
      invariant forall x :: x in ret <==> 0 <= x && Passed(mem, db, b, earliest, latest, index, obegin, o, x)
    {
      var g := o + index * SIZE;
      assert g / SIZE == index && g % SIZE == o;
      assert chunk[o] == At(mem, db, 1, g);
      if b <= chunk[o] {
        var found := SearchGroup(mem, db, b, earliest, latest, g);
        AscendingConcat(ret, found, g * SIZE);
        ret := ret + found;
      }
      o := o + 1;
    }
    forall x: int
      ensures x in ret <==> 0 <= x && x / (SIZE * SIZE) == index && Hit(mem, db, b, earliest, latest, x)
    {
      if 0 <= x {
        PassedAll(mem, db, b, earliest, latest, index, obegin, o, x);
      }
    }
  }

  /** Block `x` is a result from entries `obegin..o` of level-1 chunk `index`. */
  predicate Passed(mem: Store, db: Store, b: Bloom, earliest: nat, latest: nat, index: nat, obegin: nat, o: nat,
                   x: nat)
  {
    && index * SIZE + obegin <= x / SIZE < index * SIZE + o
    && b <= At(mem, db, 1, x / SIZE) && BlockHit(mem, db, b, earliest, latest, x)
  }

  lemma PassedAll(mem: Store, db: Store, b: Bloom, earliest: nat, latest: nat, index: nat, obegin: nat, o: nat, x: nat)
    requires obegin == if index == earliest / (SIZE * SIZE) then earliest / SIZE % SIZE else 0
    requires var oend := if index == latest / (SIZE * SIZE) then latest / SIZE % SIZE + 1 else SIZE;
             o == if obegin <= oend then oend else obegin
    ensures Passed(mem, db, b, earliest, latest, index, obegin, o, x)
            <==> x / (SIZE * SIZE) == index && Hit(mem, db, b, earliest, latest, x)
  {
    InRangeChunk(x, index);
    InRangeChunk(earliest, index);
    InRangeChunk(latest, index);
  }

  /** In 32-bit arithmetic. */
  function CeilDiv(n: nat, d: nat): nat
    requires 0 < d
  {
    (n + d - 1) % MAX_NUMBER / d
  }

  /** Search all the level-1 chunks from the one of `earliest` to the one that ends the range, inclusive. */
  method Search(mem: Store, db: Store, b: Bloom, earliest: nat, latest: nat) returns (ret: seq<nat>)
    ensures Ascending(ret) && Found(mem, db, b, earliest, latest, ret)
  {
    ret := [];
    var index := earliest / (SIZE * SIZE);
    while index <= CeilDiv(latest, SIZE * SIZE)
      invariant earliest / (SIZE * SIZE) <= index
      invariant index <= CeilDiv(latest, SIZE * SIZE) + 1 || index == earliest / (SIZE * SIZE)
      invariant Ascending(ret)
      invariant forall x :: x in ret <==> 0 <= x && earliest / (SIZE * SIZE) <= x / (SIZE * SIZE) < index
                                          && Hit(mem, db, b, earliest, latest, x)
    {
      var found := SearchRange(mem, db, b, earliest, latest, index);
      AscendingConcat(ret, found, index * SIZE * SIZE);
      ret := ret + found;
      index := index + 1;
    }
  }

  /** The last block number for which the end of the range does not wrap around. */
  const LAST_SAFE: nat := MAX_NUMBER - SIZE * SIZE

  /**
   How far a search reaches.  Unless the end is a multiple of 256 it goes on, past the end, with the next whole chunk of
   256 blocks; when the end wraps around only the first 256 blocks are left.
   */
  predicate Reached(latest: nat, n: nat) {
    if LAST_SAFE < latest then n < SIZE * SIZE
    else n <= latest || (latest % (SIZE * SIZE) != 0 && n / (SIZE * SIZE) == latest / (SIZE * SIZE) + 1)
  }

  /** What the search asks of a block number, apart from its blooms. */
  predicate Tried(earliest: nat, latest: nat, x: nat) {
    && earliest / (SIZE * SIZE) <= x / (SIZE * SIZE) <= CeilDiv(latest, SIZE * SIZE)
    && NotBefore(earliest, x) && NotAfter(latest, x)
  }

  predicate NotBefore(earliest: nat, x: nat) {
    && (x / SIZE / SIZE == earliest / (SIZE * SIZE) ==> earliest / SIZE <= x / SIZE)
    && (x / SIZE == earliest / SIZE ==> earliest <= x)
  }

  predicate NotAfter(latest: nat, x: nat) {
    && (x / SIZE / SIZE == latest / (SIZE * SIZE) ==> x / SIZE <= latest / SIZE)
    && (x / SIZE == latest / SIZE ==> x <= latest)
  }

  lemma HitTried(mem: Store, db: Store, b: Bloom, earliest: nat, latest: nat, x: nat)
    ensures Hit(mem, db, b, earliest, latest, x)
            <==> && NotBefore(earliest, x) && NotAfter(latest, x)
                 && b <= At(mem, db, 1, x / SIZE) && b <= At(mem, db, 0, x)
  {
  }

  lemma NotBeforeIs(earliest: nat, x: nat)
    ensures earliest / (SIZE * SIZE) <= x / (SIZE * SIZE) && NotBefore(earliest, x) <==> earliest <= x
  {
  }

  lemma NotAfterIs(latest: nat, x: nat)
    ensures x / (SIZE * SIZE) <= latest / (SIZE * SIZE) ==> (NotAfter(latest, x) <==> x <= latest)
    ensures latest / (SIZE * SIZE) < x / (SIZE * SIZE) ==> NotAfter(latest, x) && latest < x
  {
  }

  lemma CeilIs(latest: nat)
    requires latest < MAX_NUMBER
    ensures LAST_SAFE < latest ==> CeilDiv(latest, SIZE * SIZE) == 0
    ensures latest <= LAST_SAFE ==>
              CeilDiv(latest, SIZE * SIZE) == latest / (SIZE * SIZE) + if latest % (SIZE * SIZE) == 0 then 0 else 1
  {
  }

  /** The block numbers tried are those from the start on that the search reaches. */
  lemma TriedIs(earliest: nat, latest: nat, x: nat)
    requires earliest <= latest < MAX_NUMBER
    ensures Tried(earliest, latest, x) <==> earliest <= x && Reached(latest, x)
  {
    NotBeforeIs(earliest, x);
    NotAfterIs(latest, x);
    CeilIs(latest);
  }

  lemma ReachedIsNumber(latest: nat, x: nat)
    requires latest < MAX_NUMBER && Reached(latest, x)
    ensures Reachable(x)
  {
  }

  // ---------------------------------------------------------------- the index

  const LAYERS: nat := 2

  /** The bloom index, with the blooms of the canonical blocks as a ghost. */
  class Index {
    var mem: Store
    var db: Store
    ghost var canon: map<nat, Bloom>
    /** Whether the memory cache ever dropped a chunk. */
    ghost var evicted: bool

    ghost predicate Valid()
      reads this
    {
      Holds(LAYERS)
    }

    /** The layers only keep the users of the index from looking inside. */
    ghost predicate Holds(layers: nat)
      reads this
    {
      if layers == 0 then Consistent(mem, db, canon, evicted) else Holds(layers - 1)
    }

    lemma Unseal()
      requires Valid()
      ensures Consistent(mem, db, canon, evicted)
    {
      assert Holds(LAYERS - 1) && Holds(LAYERS - 2);
    }

    lemma Seal()
      requires Consistent(mem, db, canon, evicted)
      ensures Valid()
    {
      assert Holds(LAYERS - 2) && Holds(LAYERS - 1);
    }

    constructor ()
      ensures Valid() && canon == map[] && !evicted
    {
      mem, db, canon, evicted := map[], map[], map[], false;
      new;
      Seal();
    }

    /** A block becomes canonical; the altered chunks are written to the database. */
    method Note(n: nat, b: Bloom)
      requires Valid() && n < MAX_NUMBER && n !in canon
      modifies this
      ensures Valid() && canon == old(canon)[n := b] && evicted == old(evicted)
    {
      Unseal();
      NoteKeeps(mem, db, canon, evicted, n, b);
      mem := NotedMem(mem, db, n, b);
      db := NotedDb(mem, db, n);
      canon := canon[n := b];
      Seal();
    }

    /** The blocks `begin..end` stop being canonical.  Only memory changes. */
    method ClearBlockBlooms(begin: nat, end: nat)
      requires Valid() && begin < end <= MAX_NUMBER && forall n :: n in canon ==> n < end
      modifies this
      ensures Valid() && canon == Below(old(canon), begin) && evicted == old(evicted) && db == old(db)
    {
      Unseal();
      var mem1 := BlankBlocks(mem, db, begin, end);
      var mem2 := RebuildGroups(mem1, db, begin / SIZE, (end - 1) / SIZE + 1);
      ClearKeeps(mem, mem1, mem2, db, canon, evicted, begin, end);
      mem := mem2;
      canon := Below(canon, begin);
      Seal();
    }

    /** The cache collector drops a chunk. */
    method Evict(id: nat)
      requires Valid()
      modifies this
      ensures Valid() && canon == old(canon) && db == old(db)
    {
      Unseal();
      EvictKeeps(mem, db, canon, id);
      mem := map i | i in mem && i != id :: mem[i];
      evicted := true;
      Seal();
    }

    /**
     The block numbers whose blooms contain `b`.  The canonical matches that the search reaches are all found, so one
     in the range is found exactly unless the end of the range wraps around and it is not among the first 256; nothing
     else is returned while the index is exact.
     */
    method WithBlockBloom(b: Bloom, earliest: nat, latest: nat) returns (ret: seq<nat>)
      requires Valid() && earliest <= latest < MAX_NUMBER
      ensures Ascending(ret)
      ensures forall n :: n in canon && earliest <= n && b <= canon[n] ==> (n in ret <==> Reached(latest, n))
      ensures forall n :: n in canon && earliest <= n <= latest && b <= canon[n] ==>
                (n in ret <==> latest <= LAST_SAFE || n < SIZE * SIZE)
      ensures forall n :: n in ret ==> earliest <= n && Reached(latest, n)
      ensures !evicted && b != {} ==> forall n :: n in ret ==> n in canon && b <= canon[n]
    {
      Unseal();
      ret := Search(mem, db, b, earliest, latest);
      FoundReached(mem, db, b, earliest, latest, ret);
      FoundAll(mem, db, canon, b, earliest, latest, ret);
      if !evicted && b != {} {
        FoundOnly(mem, db, canon, b, earliest, latest, ret);
      }
    }
  }

  /** Block 256 is a match within a range whose end wraps around, and it is not found. */
  method LostMatch() returns (index: Index, ret: seq<nat>)
    ensures index.Valid() && index.canon == map[256 := {1}]
    ensures 0 <= 256 <= MAX_NUMBER - 1 && {1} <= index.canon[256] && 256 !in ret
  {
    index := new Index();
    index.Note(256, {1});
    ret := index.WithBlockBloom({1}, 0, MAX_NUMBER - 1);
  }

  /** `ret` is what a search returns. */
  ghost predicate Found(mem: Store, db: Store, b: Bloom, earliest: nat, latest: nat, ret: seq<nat>) {
    forall x :: x in ret <==> 0 <= x
                              && earliest / (SIZE * SIZE) <= x / (SIZE * SIZE) <= CeilDiv(latest, SIZE * SIZE)
                              && Hit(mem, db, b, earliest, latest, x)
  }

  lemma FoundIs(mem: Store, db: Store, b: Bloom, earliest: nat, latest: nat, ret: seq<nat>, x: nat)
    requires earliest <= latest < MAX_NUMBER && Found(mem, db, b, earliest, latest, ret)
    ensures x in ret
            <==> earliest <= x && Reached(latest, x) && b <= At(mem, db, 1, x / SIZE) && b <= At(mem, db, 0, x)
  {
    HitTried(mem, db, b, earliest, latest, x);
    TriedIs(earliest, latest, x);
  }

  lemma FoundReached(mem: Store, db: Store, b: Bloom, earliest: nat, latest: nat, ret: seq<nat>)
    requires earliest <= latest < MAX_NUMBER && Found(mem, db, b, earliest, latest, ret)
    ensures forall n :: n in ret ==> earliest <= n && Reached(latest, n)
  {
    forall n | n in ret
      ensures earliest <= n && Reached(latest, n)
    {
      FoundIs(mem, db, b, earliest, latest, ret, n);
    }
  }

  lemma FoundAll(mem: Store, db: Store, canon: map<nat, Bloom>, b: Bloom, earliest: nat, latest: nat, ret: seq<nat>)
    requires Covers(mem, db, canon) && earliest <= latest < MAX_NUMBER && Found(mem, db, b, earliest, latest, ret)
    ensures forall n :: n in canon && earliest <= n && b <= canon[n] ==> (n in ret <==> Reached(latest, n))
  {
    forall n | n in canon && earliest <= n && b <= canon[n]
      ensures n in ret <==> Reached(latest, n)
    {
      assert Shows(mem, db, n, canon[n]);
      FoundIs(mem, db, b, earliest, latest, ret, n);
    }
  }

  /** When level 0 is exact, every result is a canonical match. */
  lemma FoundOnly(mem: Store, db: Store, canon: map<nat, Bloom>, b: Bloom, earliest: nat, latest: nat, ret: seq<nat>)
    requires Exact(mem, db, canon) && b != {} && earliest <= latest < MAX_NUMBER
    requires Found(mem, db, b, earliest, latest, ret)
    ensures forall n :: n in ret ==> n in canon && b <= canon[n]
  {
    forall n | n in ret
      ensures n in canon && b <= canon[n]
    {
      FoundIs(mem, db, b, earliest, latest, ret, n);
      ReachedIsNumber(latest, n);
      assert ExactAt(mem, db, canon, n);
    }
  }

  lemma EvictKeeps(mem: Store, db: Store, canon: map<nat, Bloom>, id: nat)
    requires Covers(mem, db, canon) && Covers(map[], db, canon) && forall n :: n in canon ==> n < MAX_NUMBER
    ensures Consistent(map i | i in mem && i != id :: mem[i], db, canon, true)
  {
    var mem' := map i | i in mem && i != id :: mem[i];
    forall n | n in canon
      ensures Shows(mem', db, n, canon[n])
    {
      assert Shows(mem, db, n, canon[n]) && Shows(map[], db, n, canon[n]);
    }
  }
}
