/** What holds of the block queue between any two of its steps, and why each step keeps it. */
module QueueOrder {
  import opened Collections

  type Hash = nat

  /** A block, as far as the queue looks at it. */
  datatype Job = Job(hash: Hash, parent: Hash)

  /**
   A slot of the `verifying` queue.  While verification is pending the slot holds an otherwise empty header with the
   block's hash in its uncles field; afterwards it holds the block, with its real uncles hash.
   */
  datatype Slot = Pending(job: Job) | Finished(job: Job, uncles: nat)

  /** What stands in a slot's uncles field.  A hash of an uncle list is never the hash of a header. */
  datatype UnclesField = OfHeader(hash: Hash) | OfUncles(uncles: nat)

  function Field(s: Slot): UnclesField { if s.Pending? then OfHeader(s.job.hash) else OfUncles(s.uncles) }

  function Jobs(s: seq<Slot>): (r: seq<Job>)
    ensures |r| == |s| && forall i :: 0 <= i < |s| ==> r[i] == s[i].job
  {
    seq(|s|, i requires 0 <= i < |s| => s[i].job)
  }

  function Hashes(p: seq<Job>): set<Hash> { set j | j in p :: j.hash }

  ghost predicate AllDiffer(p: seq<Job>) { forall i, j :: 0 <= i < j < |p| ==> p[i].hash != p[j].hash }

  /** The parent of block `i` is in `base` or comes earlier. */
  ghost predicate Follows(p: seq<Job>, base: set<Hash>, i: nat)
    requires i < |p|
  {
    p[i].parent in base + Hashes(p[..i])
  }

  ghost predicate Ordered(p: seq<Job>, base: set<Hash>) { forall i :: 0 <= i < |p| ==> Follows(p, base, i) }

  // ---------------------------------------------------------------- dropping bad blocks

  /** The blocks that are not in `bad`, in order. */
  function Kept(p: seq<Job>, bad: set<Hash>): seq<Job> {
    if p == [] then []
    else Kept(p[..|p| - 1], bad) + (if p[|p| - 1].hash in bad then [] else [p[|p| - 1]])
  }

  /** What is kept is in order: the blocks at the indexes `at`, which are those that are not bad. */
  lemma {:induction false} KeptInOrder(p: seq<Job>, bad: set<Hash>) returns (at: seq<nat>)
    ensures Selected(p, Kept(p, bad), at) && forall k :: 0 <= k < |p| ==> (k in at <==> p[k].hash !in bad)
  {
    at := [];
    if p != [] {
      var front, last := p[..|p| - 1], p[|p| - 1];
      at := KeptInOrder(front, bad);
      SelectedMore(front, Kept(front, bad), at, last);
      assert p == front + [last] && Kept(front, bad) + [] == Kept(front, bad);
      if last.hash !in bad {
        at := at + [|front|];
      }
    }
  }

  lemma {:induction false} KeptConcat(a: seq<Job>, b: seq<Job>, bad: set<Hash>)
    ensures Kept(a + b, bad) == Kept(a, bad) + Kept(b, bad)
  {
    if b == [] {
      assert a + b == a;
    } else {
      assert (a + b)[..|a + b| - 1] == a + b[..|b| - 1];
      KeptConcat(a, b[..|b| - 1], bad);
    }
  }

  lemma {:induction false} KeptHashes(p: seq<Job>, bad: set<Hash>)
    ensures Hashes(Kept(p, bad)) == Hashes(p) - bad
    ensures forall j :: j in Kept(p, bad) ==> j in p
  {
    if p != [] {
      var q, x := p[..|p| - 1], p[|p| - 1];
      KeptHashes(q, bad);
      assert p == q + [x];
      assert Hashes(p) == Hashes(q) + {x.hash};
      var tail := if x.hash in bad then [] else [x];
      assert Hashes(Kept(q, bad) + tail) == Hashes(Kept(q, bad)) + Hashes(tail);
    }
  }

  lemma DistinctConcat(p: seq<Job>, q: seq<Job>)
    ensures AllDiffer(p + q) <==> AllDiffer(p) && AllDiffer(q) && Hashes(p) !! Hashes(q)
  {
    var r := p + q;
    if AllDiffer(r) {
      assert forall i :: 0 <= i < |p| ==> p[i] == r[i];
      assert forall i :: 0 <= i < |q| ==> q[i] == r[|p| + i];
      assert forall i, j :: 0 <= i < |p| && 0 <= j < |q| ==> p[i].hash != q[j].hash;
    }
    if AllDiffer(p) && AllDiffer(q) && Hashes(p) !! Hashes(q) {
      forall i, j | 0 <= i < j < |r|
        ensures r[i].hash != r[j].hash
      {
        assert i < |p| ==> r[i].hash in Hashes(p);
        assert |p| <= j ==> r[j].hash in Hashes(q);
      }
    }
  }

  lemma {:induction false} KeptDistinct(p: seq<Job>, bad: set<Hash>)
    requires AllDiffer(p)
    ensures AllDiffer(Kept(p, bad))
  {
    if p != [] {
      var q, x := p[..|p| - 1], p[|p| - 1];
      assert p == q + [x];
      DistinctConcat(q, [x]);
      KeptDistinct(q, bad);
      KeptHashes(q, bad);
      DistinctConcat(Kept(q, bad), [x]);
    }
  }

  lemma OrderedConcat(p: seq<Job>, q: seq<Job>, base: set<Hash>)
    ensures Ordered(p + q, base) <==> Ordered(p, base) && Ordered(q, base + Hashes(p))
  {
    var r := p + q;
    forall i | 0 <= i < |p|
      ensures Follows(r, base, i) <==> Follows(p, base, i)
    {
      assert r[..i] == p[..i];
    }
    forall i | 0 <= i < |q|
      ensures Follows(r, base, |p| + i) <==> Follows(q, base + Hashes(p), i)
    {
      assert r[..|p| + i] == p + q[..i];
      assert Hashes(p + q[..i]) == Hashes(p) + Hashes(q[..i]);
    }
    if Ordered(r, base) {
      forall i | 0 <= i < |q|
        ensures Follows(q, base + Hashes(p), i)
      {
        assert Follows(r, base, |p| + i);
      }
      forall i | 0 <= i < |p|
        ensures Follows(p, base, i)
      {
        assert Follows(r, base, i);
      }
    }
    if Ordered(p, base) && Ordered(q, base + Hashes(p)) {
      forall i | 0 <= i < |r|
        ensures Follows(r, base, i)
      {
        assert |p| <= i ==> Follows(q, base + Hashes(p), i - |p|);
      }
    }
  }

  lemma OrderedOne(x: Job, base: set<Hash>)
    ensures Ordered([x], base) <==> x.parent in base
  {
    assert Ordered([x], base) <==> Follows([x], base, 0);
    assert Hashes([x][..0]) == {};
  }

  lemma OrderedMore(p: seq<Job>, base: set<Hash>, base': set<Hash>)
    requires Ordered(p, base) && base <= base'
    ensures Ordered(p, base')
  {
    forall i | 0 <= i < |p|
      ensures Follows(p, base', i)
    {
      assert Follows(p, base, i);
    }
  }

  /** Dropping blocks that are noted as bad leaves every other block's parent accounted for. */
  lemma {:induction false} KeptOrdered(p: seq<Job>, base: set<Hash>, bad: set<Hash>)
    requires Ordered(p, base)
    ensures Ordered(Kept(p, bad), base + bad)
  {
    if p != [] {
      var q, x := p[..|p| - 1], p[|p| - 1];
      assert p == q + [x];
      OrderedConcat(q, [x], base);
      OrderedOne(x, base + Hashes(q));
      KeptOrdered(q, base, bad);
      if x.hash in bad {
        assert Kept(p, bad) == Kept(q, bad);
      } else {
        KeptHashes(q, bad);
        OrderedConcat(Kept(q, bad), [x], base + bad);
        OrderedOne(x, base + bad + Hashes(Kept(q, bad)));
      }
    }
  }

  lemma {:induction false} KeptAll(p: seq<Job>, bad: set<Hash>)
    requires Hashes(p) !! bad
    ensures Kept(p, bad) == p
  {
    if p != [] {
      var q, x := p[..|p| - 1], p[|p| - 1];
      assert p == q + [x];
      assert x in p && forall j :: j in q ==> j in p;
      KeptAll(q, bad);
    }
  }

  lemma {:induction false} KeptTwice(p: seq<Job>, bad: set<Hash>, more: set<Hash>)
    requires bad <= more
    ensures Kept(Kept(p, bad), more) == Kept(p, more)
  {
    if p != [] {
      var q, x := p[..|p| - 1], p[|p| - 1];
      KeptTwice(q, bad, more);
      if x.hash in bad {
        assert Kept(p, bad) == Kept(q, bad) && Kept(p, more) == Kept(q, more);
      } else {
        KeptConcat(Kept(q, bad), [x], more);
        assert [x][..0] == [];
      }
    }
  }

  lemma DistinctMiddle(a: seq<Job>, x: Job, b: seq<Job>)
    requires AllDiffer(a + ([x] + b))
    ensures x.hash !in Hashes(a) && x.hash !in Hashes(b)
  {
    var p := a + ([x] + b);
    assert p[|a|] == x;
    forall i | 0 <= i < |a|
      ensures a[i].hash != x.hash
    {
      assert p[i] == a[i];
    }
    forall i | 0 <= i < |b|
      ensures b[i].hash != x.hash
    {
      assert p[|a| + 1 + i] == b[i];
    }
  }

  /** Dropping one block of many. */
  lemma KeptMiddle(a: seq<Job>, x: Job, b: seq<Job>)
    requires x.hash !in Hashes(a) && x.hash !in Hashes(b)
    ensures Kept(a + ([x] + b), {x.hash}) == a + b
  {
    KeptConcat(a, [x] + b, {x.hash});
    KeptAll(a, {x.hash});
    KeptFirst(x, b);
  }

  lemma KeptFirst(x: Job, b: seq<Job>)
    requires x.hash !in Hashes(b)
    ensures Kept([x] + b, {x.hash}) == b
  {
    KeptConcat([x], b, {x.hash});
    KeptAll(b, {x.hash});
    KeptOne(x, {x.hash});
  }

  lemma KeptOne(x: Job, bad: set<Hash>)
    ensures Kept([x], bad) == if x.hash in bad then [] else [x]
  {
    assert [x][..0] == [];
  }

  // ---------------------------------------------------------------- the invariant

  datatype Queue = Queue(verified: seq<Job>, verifying: seq<Slot>, unverified: seq<Job>, working: set<Job>,
                         ready: set<Hash>, draining: set<Hash>, unknownSet: set<Hash>, bad: set<Hash>,
                         unknown: seq<Job>, chain: set<Hash>)

  /** All the blocks that are on their way, in the order in which they will leave. */
  function Pipeline(q: Queue): seq<Job> { q.verified + Jobs(q.verifying) + q.unverified }

  /** The four sets that decide a block's status do not overlap. */
  ghost predicate Separate(q: Queue) {
    && q.ready !! q.draining !! q.unknownSet !! q.bad
    && AllDiffer(q.unknown) && q.unknownSet == Hashes(q.unknown)
  }

  ghost predicate InOrder(q: Queue) {
    && Ordered(Pipeline(q), q.chain + q.draining + q.bad)
    && Ordered(q.verified, q.chain + q.draining)
  }

  /** The threads' jobs are those of the pending slots. */
  ghost predicate Staffed(q: Queue) { forall j :: j in q.working <==> Pending(j) in q.verifying }

  /** What holds of the queues and the sets. */
  ghost predicate Lined(q: Queue) {
    AllDiffer(Pipeline(q)) && q.ready == Hashes(Pipeline(q)) && Separate(q) && InOrder(q)
  }

  /** A block waits for its parent only while nothing is known about the parent here. */
  ghost predicate Settled(q: Queue) {
    forall j :: j in q.unknown ==> j.parent !in q.ready && j.parent !in q.draining && j.parent !in q.bad
  }

  predicate FrontPending(q: Queue) { q.verifying == [] || q.verifying[0].Pending? }

  ghost predicate Inv(q: Queue) { Lined(q) && Staffed(q) && Settled(q) && FrontPending(q) }

  /** What `BlockQueue::invariants` checks: as many ready blocks as there are in the three queues. */
  lemma {:induction false} DistinctCount(p: seq<Job>)
    requires AllDiffer(p)
    ensures |Hashes(p)| == |p|
  {
    if p != [] {
      var q, x := p[..|p| - 1], p[|p| - 1];
      assert p == q + [x];
      DistinctConcat(q, [x]);
      DistinctCount(q);
      assert Hashes(p) == Hashes(q) + {x.hash};
      assert x.hash in Hashes([x]);
    } else {
      assert Hashes(p) == {};
    }
  }

  lemma ReadyCount(q: Queue)
    requires Inv(q)
    ensures |q.ready| == |q.verified| + |q.verifying| + |q.unverified|
  {
    DistinctCount(Pipeline(q));
  }

  /** No finished block is ever stuck: while `verifying` is not empty, some thread is at work on its front. */
  lemma FrontIsStaffed(q: Queue)
    requires Inv(q) && q.verifying != []
    ensures q.verifying[0].job in q.working
  {
    assert q.verifying[0] == Pending(q.verifying[0].job);
  }

  // ---------------------------------------------------------------- the steps, on values

  /** Move the front of `verifying` to `verified`, or drop it when its parent is bad. */
  function Advance(q: Queue): Queue
    requires q.verifying != []
  {
    var job := q.verifying[0].job;
    var rest := q.(verifying := q.verifying[1..]);
    if job.parent in q.bad then rest.(ready := q.ready - {job.hash}, bad := q.bad + {job.hash})
    else rest.(verified := q.verified + [job])
  }

  /** Drop a block from the pipeline and note it as bad. */
  lemma DropKeeps(q: Queue, q': Queue, h: Hash)
    requires Lined(q) && h in q.ready
    requires Pipeline(q') == Kept(Pipeline(q), {h}) && q'.verified == q.verified && h !in Hashes(q.verified)
    requires q'.ready == q.ready - {h} && q'.bad == q.bad + {h} && q'.draining == q.draining && q'.chain == q.chain
    requires q'.unknown == q.unknown && q'.unknownSet == q.unknownSet
    ensures Lined(q')
    ensures Pipeline(q') == Kept(Pipeline(q), q'.bad)
  {
    var p := Pipeline(q);
    KeptDistinct(p, {h});
    KeptHashes(p, {h});
    KeptOrdered(p, q.chain + q.draining + q.bad, {h});
    assert q.chain + q.draining + q.bad + {h} == q'.chain + q'.draining + q'.bad;
    KeptAll(Kept(p, {h}), q'.bad);
    KeptTwice(p, {h}, q'.bad);
  }

  /** Nothing in the pipeline is bad. */
  lemma KeptNow(q: Queue)
    requires q.ready == Hashes(Pipeline(q)) && Separate(q)
    ensures Kept(Pipeline(q), q.bad) == Pipeline(q)
  {
    KeptAll(Pipeline(q), q.bad);
  }

  lemma StaffedRest(q: Queue)
    requires AllDiffer(Pipeline(q)) && q.verifying != [] && Staffed(q)
    ensures Staffed(q.(verifying := q.verifying[1..], working := q.working - {q.verifying[0].job}))
    ensures q.verifying[0].Finished? ==> q.verifying[0].job !in q.working
  {
    var v := q.verifying;
    assert v == [v[0]] + v[1..];
    assert Pipeline(q)[|q.verified|] == v[0].job;
    forall i | 1 <= i < |v|
      ensures v[i].job.hash != v[0].job.hash
    {
      assert Pipeline(q)[|q.verified| + i] == v[i].job;
    }
  }

  lemma AdvanceParts(q: Queue)
    requires q.verifying != []
    ensures var job, rest := q.verifying[0].job, Jobs(q.verifying[1..]) + q.unverified;
            && Pipeline(q) == q.verified + ([job] + rest)
            && Pipeline(q.(verifying := q.verifying[1..])) == q.verified + rest
            && Pipeline(q.(verifying := q.verifying[1..], verified := q.verified + [job])) == Pipeline(q)
  {
    JobsFirst(q.verifying);
    var first, others := [q.verifying[0].job], Jobs(q.verifying[1..]);
    GroupFirst(q.verified, first, others, q.unverified);
    GroupRest(q.verified, others, q.unverified);
    MoveFirst(q.verified, first, others, q.unverified);
  }

  lemma JobsFirst(v: seq<Slot>)
    requires v != []
    ensures Jobs(v) == [v[0].job] + Jobs(v[1..])
  {
  }

  lemma GroupFirst(a: seq<Job>, x: seq<Job>, b: seq<Job>, c: seq<Job>)
    ensures a + (x + b) + c == a + (x + (b + c))
  {
  }

  lemma GroupRest(a: seq<Job>, b: seq<Job>, c: seq<Job>)
    ensures a + b + c == a + (b + c)
  {
  }

  lemma MoveFirst(a: seq<Job>, x: seq<Job>, b: seq<Job>, c: seq<Job>)
    ensures (a + x) + b + c == a + (x + b) + c
  {
  }

  lemma DropFront(q: Queue)
    requires Lined(q) && q.verifying != []
    ensures var job := q.verifying[0].job;
            && job.hash in q.ready && job.hash !in Hashes(q.verified)
            && Pipeline(q.(verifying := q.verifying[1..])) == Kept(Pipeline(q), {job.hash})
  {
    var job, rest := q.verifying[0].job, Jobs(q.verifying[1..]) + q.unverified;
    AdvanceParts(q);
    DistinctMiddle(q.verified, job, rest);
    KeptMiddle(q.verified, job, rest);
    assert job in [job] && job in q.verified + ([job] + rest);
  }

  lemma PassFront(q: Queue)
    requires InOrder(q) && q.verifying != [] && q.verifying[0].job.parent !in q.bad
    ensures Ordered(q.verified + [q.verifying[0].job], q.chain + q.draining)
  {
    var job, rest := q.verifying[0].job, Jobs(q.verifying[1..]) + q.unverified;
    AdvanceParts(q);
    OrderedConcat(q.verified, [job] + rest, q.chain + q.draining + q.bad);
    OrderedConcat([job], rest, q.chain + q.draining + q.bad + Hashes(q.verified));
    OrderedOne(job, q.chain + q.draining + q.bad + Hashes(q.verified));
    OrderedConcat(q.verified, [job], q.chain + q.draining);
    OrderedOne(job, q.chain + q.draining + Hashes(q.verified));
  }

  /** Advancing keeps the queues in order. */
  lemma AdvanceKeeps(q: Queue)
    requires Lined(q) && q.verifying != []
    ensures Lined(Advance(q)) && Pipeline(Advance(q)) == Kept(Pipeline(q), Advance(q).bad)
  {
    if q.verifying[0].job.parent in q.bad {
      DropFront(q);
      DropKeeps(q, Advance(q), q.verifying[0].job.hash);
    } else {
      KeptNow(q);
      PassFront(q);
      AdvanceParts(q);
    }
  }

  /** The slots whose uncles field is not `f`. */
  function Without(v: seq<Slot>, f: UnclesField): seq<Slot> {
    if v == [] then []
    else Without(v[..|v| - 1], f) + (if Field(v[|v| - 1]) == f then [] else [v[|v| - 1]])
  }

  lemma {:induction false} WithoutMiddle(v: seq<Slot>, k: nat)
    requires k < |v| && v[k].Pending?
    requires forall i :: 0 <= i < |v| && i != k ==> v[i].job.hash != v[k].job.hash
    ensures Without(v, Field(v[k])) == v[..k] + v[k + 1..]
  {
    var w := v[..|v| - 1];
    if k == |v| - 1 {
      WithoutNone(w, Field(v[k]));
    } else {
      WithoutMiddle(w, k);
      assert w[k + 1..] + [v[|v| - 1]] == v[k + 1..];
    }
  }

  lemma {:induction false} WithoutNone(v: seq<Slot>, f: UnclesField)
    requires forall i :: 0 <= i < |v| ==> Field(v[i]) != f
    ensures Without(v, f) == v
  {
    if v != [] {
      WithoutNone(v[..|v| - 1], f);
    }
  }

  /** Where a thread finds its slot. */
  lemma SlotOf(q: Queue, job: Job) returns (k: nat)
    requires Lined(q) && Staffed(q) && job in q.working
    ensures k < |q.verifying| && q.verifying[k] == Pending(job)
    ensures forall i :: 0 <= i < |q.verifying| && i != k ==> q.verifying[i].job.hash != job.hash
    ensures job.hash in q.ready && job.hash !in Hashes(q.verified)
  {
    var v, p := q.verifying, Pipeline(q);
    assert Pending(job) in v;
    k :| 0 <= k < |v| && v[k] == Pending(job);
    assert p[|q.verified| + k] == job;
    forall i | 0 <= i < |v| && i != k
      ensures v[i].job.hash != job.hash
    {
      assert p[|q.verified| + i] == v[i].job;
    }
    forall i | 0 <= i < |q.verified|
      ensures q.verified[i].hash != job.hash
    {
      assert p[i] == q.verified[i];
    }
  }

  lemma SplitAt(q: Queue, k: nat)
    requires k < |q.verifying|
    ensures var a, b := q.verified + Jobs(q.verifying[..k]), Jobs(q.verifying[k + 1..]) + q.unverified;
            && Pipeline(q) == a + ([q.verifying[k].job] + b)
            && Pipeline(q.(verifying := q.verifying[..k] + q.verifying[k + 1..])) == a + b
  {
    var v := q.verifying;
    JobsAround(v, k);
    JobsWithout(v, k);
    Regroup(q.verified, Jobs(v[..k]), [v[k].job], Jobs(v[k + 1..]), q.unverified);
  }

  lemma JobsAround(v: seq<Slot>, k: nat)
    requires k < |v|
    ensures Jobs(v) == Jobs(v[..k]) + ([v[k].job] + Jobs(v[k + 1..]))
  {
  }

  lemma JobsWithout(v: seq<Slot>, k: nat)
    requires k < |v|
    ensures Jobs(v[..k] + v[k + 1..]) == Jobs(v[..k]) + Jobs(v[k + 1..])
  {
  }

  lemma Regroup(a: seq<Job>, b: seq<Job>, x: seq<Job>, c: seq<Job>, d: seq<Job>)
    ensures a + (b + (x + c)) + d == (a + b) + (x + (c + d))
    ensures a + (b + c) + d == (a + b) + (c + d)
  {
    GroupRest(a, b, x + c);
    GroupFirst(a + b, x, c, d);
    MoveFirst(a, b, c, d);
    GroupRest(a + b, c, d);
  }

  /** A thread's block turns out to be bad. */
  function Rejected(q: Queue, job: Job): Queue {
    q.(verifying := Without(q.verifying, OfHeader(job.hash)), working := q.working - {job},
       ready := q.ready - {job.hash}, bad := q.bad + {job.hash})
  }

  lemma RejectedKeeps(q: Queue, job: Job)
    requires Inv(q) && job in q.working
    ensures var q' := Rejected(q, job);
            && Lined(q') && Staffed(q') && Settled(q')
            && Pipeline(q') == Kept(Pipeline(q), q'.bad)
  {
    var q' := Rejected(q, job);
    var k := SlotOf(q, job);
    var v := q.verifying;
    WithoutMiddle(v, k);
    SplitAt(q, k);
    var a, b := q.verified + Jobs(v[..k]), Jobs(v[k + 1..]) + q.unverified;
    DistinctMiddle(a, job, b);
    KeptMiddle(a, job, b);
    DropKeeps(q, q', job.hash);
    StaffedWithout(q, k);
  }

  lemma StaffedWithout(q: Queue, k: nat)
    requires Staffed(q) && k < |q.verifying| && q.verifying[k].Pending?
    requires forall i :: 0 <= i < |q.verifying| && i != k ==> q.verifying[i].job.hash != q.verifying[k].job.hash
    ensures Staffed(q.(verifying := q.verifying[..k] + q.verifying[k + 1..],
                       working := q.working - {q.verifying[k].job}))
    ensures forall s: Slot :: s.Finished? && s.job == q.verifying[k].job ==>
              Staffed(q.(verifying := q.verifying[k := s], working := q.working - {q.verifying[k].job}))
  {
    var v := q.verifying;
    forall j
      ensures Pending(j) in v[..k] + v[k + 1..] <==> Pending(j) in v && j != v[k].job
    {
      assert v == v[..k] + [v[k]] + v[k + 1..];
    }
    forall s: Slot, j | s.Finished? && s.job == v[k].job
      ensures Pending(j) in v[k := s] <==> Pending(j) in v && j != v[k].job
    {
      if Pending(j) in v && j != v[k].job {
        var i :| 0 <= i < |v| && v[i] == Pending(j);
        assert v[k := s][i] == Pending(j);
      }
    }
  }

  /** A thread's block passes while others are still ahead of it. */
  lemma FinishedKeeps(q: Queue, job: Job, k: nat, uncles: nat)
    requires Inv(q) && job in q.working && k < |q.verifying| && q.verifying[k] == Pending(job) && k != 0
    ensures var q' := q.(verifying := q.verifying[k := Finished(job, uncles)], working := q.working - {job});
            Inv(q') && Pipeline(q') == Pipeline(q)
  {
    var k' := SlotOf(q, job);
    assert k == k';
    StaffedWithout(q, k);
    assert Jobs(q.verifying[k := Finished(job, uncles)]) == Jobs(q.verifying);
  }

  /** A new block whose parent is known joins the end of the pipeline. */
  lemma AcceptKeeps(q: Queue, job: Job)
    requires Lined(q) && job.hash !in q.ready + q.draining + q.bad + q.unknownSet
    requires job.parent in q.chain + q.draining + q.ready
    ensures var q' := q.(unverified := q.unverified + [job], ready := q.ready + {job.hash});
            Lined(q') && Pipeline(q') == Pipeline(q) + [job]
  {
    var q' := q.(unverified := q.unverified + [job], ready := q.ready + {job.hash});
    var p := Pipeline(q);
    assert Pipeline(q') == p + [job];
    assert Hashes([job]) == {job.hash};
    assert Hashes(p + [job]) == Hashes(p) + {job.hash};
    DistinctConcat(p, [job]);
    OrderedConcat(p, [job], q.chain + q.draining + q.bad);
    OrderedOne(job, q.chain + q.draining + q.bad + Hashes(p));
  }

  /** A thread takes the next block. */
  lemma TakeKeeps(q: Queue)
    requires Inv(q) && q.unverified != []
    ensures var job := q.unverified[0];
            var q' := q.(unverified := q.unverified[1..], verifying := q.verifying + [Pending(job)],
                         working := q.working + {job});
            Inv(q') && Pipeline(q') == Pipeline(q)
  {
    var job := q.unverified[0];
    assert Jobs(q.verifying + [Pending(job)]) == Jobs(q.verifying) + [job];
    assert q.unverified == [job] + q.unverified[1..];
    assert Pipeline(q) == q.verified + (Jobs(q.verifying) + [job]) + q.unverified[1..];
  }

  /** Verified blocks leave for the chain. */
  lemma DrainKeeps(q: Queue, n: nat)
    requires Inv(q) && q.draining == {} && n <= |q.verified|
    ensures var out := q.verified[..n];
            var q' := q.(verified := q.verified[n..], ready := q.ready - Hashes(out), draining := Hashes(out));
            Inv(q') && Pipeline(q) == out + Pipeline(q') && Ordered(out, q.chain)
  {
    var out, rest := q.verified[..n], q.verified[n..];
    var q' := q.(verified := rest, ready := q.ready - Hashes(out), draining := Hashes(out));
    var p' := Pipeline(q');
    assert q.verified == out + rest;
    assert Pipeline(q) == out + p';
    assert Hashes(out + p') == Hashes(out) + Hashes(p');
    DistinctConcat(out, p');
    assert q.chain + q.draining == q.chain;
    OrderedConcat(out, rest, q.chain);
    assert q.chain + Hashes(out) == q'.chain + q'.draining;
    OrderedConcat(out, p', q.chain + q.bad);
    assert q.chain + q.draining + q.bad == q.chain + q.bad;
    assert q.chain + q.bad + Hashes(out) == q'.chain + q'.draining + q'.bad;
  }

  /** The chain grows. */
  lemma ChainKeeps(q: Queue, chain: set<Hash>)
    requires Inv(q) && q.chain <= chain
    ensures Inv(q.(chain := chain))
  {
    OrderedMore(Pipeline(q), q.chain + q.draining + q.bad, chain + q.draining + q.bad);
    OrderedMore(q.verified, q.chain + q.draining, chain + q.draining);
  }

  // ---------------------------------------------------------------- blocks that wait for their parent

  /** What `removeByKeyEqual` takes out of the waiting blocks. */
  function Waiting(u: seq<Job>, parent: Hash): seq<Job> {
    if u == [] then []
    else Waiting(u[..|u| - 1], parent) + (if u[|u| - 1].parent == parent then [u[|u| - 1]] else [])
  }

  /** What it leaves. */
  function NotWaiting(u: seq<Job>, parent: Hash): seq<Job> {
    if u == [] then []
    else NotWaiting(u[..|u| - 1], parent) + (if u[|u| - 1].parent == parent then [] else [u[|u| - 1]])
  }

  lemma {:induction false} WaitingMembers(u: seq<Job>, parent: Hash)
    ensures forall j :: j in Waiting(u, parent) <==> j in u && j.parent == parent
    ensures forall j :: j in NotWaiting(u, parent) <==> j in u && j.parent != parent
  {
    if u != [] {
      WaitingMembers(u[..|u| - 1], parent);
      assert u == u[..|u| - 1] + [u[|u| - 1]];
    }
  }

  lemma {:induction false} WaitingCount(u: seq<Job>, parent: Hash)
    ensures |Waiting(u, parent)| + |NotWaiting(u, parent)| == |u|
  {
    if u != [] {
      WaitingCount(u[..|u| - 1], parent);
    }
  }

  lemma WaitingSplits(u: seq<Job>, parent: Hash)
    ensures forall j :: j in Waiting(u, parent) <==> j in u && j.parent == parent
    ensures forall j :: j in NotWaiting(u, parent) <==> j in u && j.parent != parent
    ensures |Waiting(u, parent)| + |NotWaiting(u, parent)| == |u|
  {
    WaitingMembers(u, parent);
    WaitingCount(u, parent);
  }

  lemma DistinctSnoc(a: seq<Job>, x: Job)
    requires AllDiffer(a) && x.hash !in Hashes(a)
    ensures AllDiffer(a + [x]) && Hashes(a + [x]) == Hashes(a) + {x.hash}
  {
    assert Hashes([x]) == {x.hash};
    DistinctConcat(a, [x]);
  }

  ghost predicate Splits(a: seq<Job>, b: seq<Job>, all: set<Hash>) {
    AllDiffer(a) && AllDiffer(b) && Hashes(a) !! Hashes(b) && Hashes(a) + Hashes(b) == all
  }

  lemma SplitsSnoc(a: seq<Job>, b: seq<Job>, all: set<Hash>, x: Job)
    requires Splits(a, b, all) && x.hash !in all
    ensures Splits(a + [x], b, all + {x.hash})
  {
    DistinctSnoc(a, x);
  }

  lemma {:induction false} WaitingDistinct(u: seq<Job>, parent: Hash)
    requires AllDiffer(u)
    ensures Splits(Waiting(u, parent), NotWaiting(u, parent), Hashes(u))
  {
    if u != [] {
      var w, x := u[..|u| - 1], u[|u| - 1];
      assert u == w + [x];
      DistinctConcat(w, [x]);
      assert x in [x] && x.hash in Hashes([x]);
      assert Hashes(u) == Hashes(w) + {x.hash};
      WaitingDistinct(w, parent);
      if x.parent == parent {
        SplitsSnoc(Waiting(w, parent), NotWaiting(w, parent), Hashes(w), x);
        assert NotWaiting(u, parent) == NotWaiting(w, parent);
      } else {
        SplitsSnoc(NotWaiting(w, parent), Waiting(w, parent), Hashes(w), x);
        assert Waiting(u, parent) == Waiting(w, parent);
      }
    }
  }
}
