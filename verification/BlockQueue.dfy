/**
 The block queue between the network and the chain.  Several threads verify blocks at the same time, each taking one
 from `unverified` and leaving a placeholder in `verifying`, and yet blocks reach `verified` in the order in which they
 were accepted.  Every public method is one step taken under the queue's locks.
 */
module BlockQueue {
  import opened Collections
  import opened QueueOrder

  datatype ImportResult = Success | UnknownParent | BadChain | AlreadyInChain | AlreadyKnown

  /** Every block that became bad has a bad parent. */
  ghost predicate Blamed(p: seq<Job>, before: set<Hash>, after: set<Hash>) {
    && before <= after <= before + Hashes(p)
    && forall j :: j in p && j.hash in after && j.hash !in before ==> j.parent in after
  }

  /** Parts of the queue that verification does not touch. */
  ghost predicate SameElsewhere(q: Queue, q': Queue) {
    && q'.unverified == q.unverified && q'.draining == q.draining && q'.unknownSet == q.unknownSet
    && q'.unknown == q.unknown && q'.chain == q.chain
  }

  /** Advancing past a finished front. */
  lemma AdvanceStep(q: Queue, p: seq<Job>, bad: set<Hash>)
    requires Lined(q) && Staffed(q) && Settled(q) && q.verifying != [] && q.verifying[0].Finished?
    requires Pipeline(q) == Kept(p, q.bad) && Blamed(p, bad, q.bad)
    ensures var q' := Advance(q);
            && Lined(q') && Staffed(q') && Settled(q')
            && Pipeline(q') == Kept(p, q'.bad) && Blamed(p, bad, q'.bad)
  {
    AdvanceKeeps(q);
    StaffedRest(q);
    assert q.working - {q.verifying[0].job} == q.working;
    KeptTwice(p, q.bad, Advance(q).bad);
    BlamedMore(q, p, bad);
  }

  lemma BlamedMore(q: Queue, p: seq<Job>, bad: set<Hash>)
    requires AllDiffer(Pipeline(q)) && q.verifying != []
    requires Pipeline(q) == Kept(p, q.bad) && Blamed(p, bad, q.bad)
    ensures Blamed(p, bad, Advance(q).bad)
  {
    var job := q.verifying[0].job;
    assert Pipeline(q)[|q.verified|] == job;
    KeptIs(p, q.bad);
    DistinctUnique(Pipeline(q), job);
  }

  lemma BlamedTwice(p: seq<Job>, b0: set<Hash>, b1: set<Hash>, b2: set<Hash>)
    requires Blamed(p, b0, b1) && Blamed(Kept(p, b1), b1, b2)
    ensures Blamed(p, b0, b2) && Kept(Kept(p, b1), b2) == Kept(p, b2)
  {
    KeptHashes(p, b1);
    KeptTwice(p, b1, b2);
    KeptIs(p, b1);
  }

  lemma {:induction false} KeptIs(p: seq<Job>, bad: set<Hash>)
    ensures forall j :: j in Kept(p, bad) <==> j in p && j.hash !in bad
  {
    if p != [] {
      KeptIs(p[..|p| - 1], bad);
      assert p == p[..|p| - 1] + [p[|p| - 1]];
    }
  }

  /** The front of `verifying` finishes. */
  lemma FrontFinished(q: Queue, job: Job)
    requires Inv(q) && job in q.working && q.verifying != [] && q.verifying[0] == Pending(job)
    ensures var q' := Advance(q.(working := q.working - {job}));
            && Lined(q') && Staffed(q') && Settled(q')
            && Pipeline(q') == Kept(Pipeline(q), q'.bad) && Blamed(Pipeline(q), q.bad, q'.bad)
  {
    var q1 := q.(working := q.working - {job});
    AdvanceKeeps(q1);
    StaffedRest(q);
    AdvanceParts(q);
    DropFront(q);
    DistinctUnique(Pipeline(q), job);
  }

  lemma DistinctUnique(p: seq<Job>, x: Job)
    requires AllDiffer(p) && x in p
    ensures forall j :: j in p && j.hash == x.hash ==> j == x
  {
    var k :| 0 <= k < |p| && p[k] == x;
    assert forall i :: 0 <= i < |p| && i != k ==> p[i].hash != x.hash;
  }

  // ---------------------------------------------------------------- promoting and condemning waiting blocks

  /** A waiting block's parent has become known. */
  lemma PromoteKeeps(q: Queue, u: seq<Job>, x: Job, rest: seq<Job>)
    requires Lined(q) && q.unknown == u + ([x] + rest) && x.parent in q.chain + q.draining + q.ready
    ensures Lined(q.(unknown := u + rest, unknownSet := q.unknownSet - {x.hash},
                     unverified := q.unverified + [x], ready := q.ready + {x.hash}))
  {
    WaitingLess(u, x, rest);
    var q1 := q.(unknown := u + rest, unknownSet := q.unknownSet - {x.hash});
    assert Pipeline(q1) == Pipeline(q);
    AcceptKeeps(q1, x);
  }

  lemma WaitingLess(u: seq<Job>, x: Job, rest: seq<Job>)
    requires AllDiffer(u + ([x] + rest))
    ensures AllDiffer(u + rest) && Hashes(u + rest) == Hashes(u + ([x] + rest)) - {x.hash}
    ensures x.hash in Hashes(u + ([x] + rest))
  {
    var p := u + ([x] + rest);
    DistinctMiddle(u, x, rest);
    KeptMiddle(u, x, rest);
    KeptDistinct(p, {x.hash});
    KeptHashes(p, {x.hash});
    assert p[|u|] == x;
  }

  /** The queue once `done` of the waiting blocks have been promoted. */
  function Promoted(q: Queue, done: seq<Job>): Queue {
    q.(unverified := q.unverified + done, ready := q.ready + Hashes(done), unknownSet := q.unknownSet - Hashes(done))
  }

  lemma PromotedStep(q: Queue, removed: seq<Job>, i: nat)
    requires i < |removed|
    ensures var q1, x := Promoted(q, removed[..i]), removed[i];
            Promoted(q, removed[..i + 1]) == q1.(unverified := q1.unverified + [x], ready := q1.ready + {x.hash},
                                                 unknownSet := q1.unknownSet - {x.hash})
  {
    var x := removed[i];
    assert removed[..i + 1] == removed[..i] + [x];
    assert Hashes(removed[..i + 1]) == Hashes(removed[..i]) + {x.hash};
    assert q.unverified + removed[..i + 1] == q.unverified + removed[..i] + [x];
    assert q.unknownSet - Hashes(removed[..i + 1]) == q.unknownSet - Hashes(removed[..i]) - {x.hash};
    assert q.ready + Hashes(removed[..i + 1]) == q.ready + Hashes(removed[..i]) + {x.hash};
  }

  lemma {:induction false} PromotedKeeps(q: Queue, removed: seq<Job>, parent: Hash, i: nat)
    requires i <= |removed| && parent in q.chain + q.draining + q.ready
    requires forall j :: j in removed ==> j.parent == parent
    requires Lined(q.(unknown := q.unknown + removed))
    ensures Lined(Promoted(q, removed[..i]).(unknown := q.unknown + removed[i..]))
    decreases i
  {
    if i == 0 {
      assert removed[..0] == [] && removed[0..] == removed;
      PromotedNone(q);
    } else {
      PromotedKeeps(q, removed, parent, i - 1);
      var x := removed[i - 1];
      PromotedStep(q, removed, i - 1);
      assert removed[i - 1..] == [x] + removed[i..];
      PromoteKeeps(Promoted(q, removed[..i - 1]).(unknown := q.unknown + removed[i - 1..]), q.unknown, x, removed[i..]);
    }
  }

  lemma PromotedNone(q: Queue)
    ensures Promoted(q, []) == q
  {
  }

  /** Waiting blocks are taken out of the multimap in one go. */
  lemma TakenOut(q: Queue, parent: Hash)
    requires Lined(q)
    ensures var removed, left := Waiting(q.unknown, parent), NotWaiting(q.unknown, parent);
            && Lined(q.(unknown := left + removed))
            && Lined(q.(unknown := left, unknownSet := q.unknownSet - Hashes(removed), bad := q.bad + Hashes(removed)))
            && Hashes(removed) <= q.unknownSet
  {
    var removed, left := Waiting(q.unknown, parent), NotWaiting(q.unknown, parent);
    WaitingDistinct(q.unknown, parent);
    DistinctConcat(left, removed);
    assert Hashes(left + removed) == Hashes(left) + Hashes(removed);
    var q1 := q.(unknown := left + removed);
    assert Pipeline(q1) == Pipeline(q);
    var q2 := q.(unknown := left, unknownSet := q.unknownSet - Hashes(removed), bad := q.bad + Hashes(removed));
    assert Pipeline(q2) == Pipeline(q);
    OrderedMore(Pipeline(q), q.chain + q.draining + q.bad, q2.chain + q2.draining + q2.bad);
  }

  /** Waiting blocks whose parent has a status are those whose parent is still in the work list. */
  ghost predicate Listed(q: Queue, first: Hash, work: seq<Hash>) {
    forall j :: j in q.unknown && (j.parent == first || j.parent in q.ready + q.draining + q.bad) ==> j.parent in work
  }

  /** Of the waiting blocks, exactly those whose parent is in `decided` no longer wait. */
  ghost predicate Sifted(u: seq<Job>, u': seq<Job>, decided: set<Hash>) {
    && (forall j :: j in u' ==> j in u)
    && (forall j :: j in u ==> (j in u' <==> j.parent !in decided))
  }

  /** Only blocks that waited have joined the pipeline, at its end, and none is lost. */
  ghost predicate SameButWaiting(q: Queue, q': Queue) {
    && q' == q.(unverified := q'.unverified, ready := q'.ready, unknown := q'.unknown, unknownSet := q'.unknownSet)
    && Extends(q.unverified, q'.unverified) && q.ready <= q'.ready
    && q'.ready + q'.unknownSet == q.ready + q.unknownSet
  }

  /** One round of promotion. */
  function Round(q: Queue, parent: Hash): Queue {
    Promoted(q.(unknown := NotWaiting(q.unknown, parent)), Waiting(q.unknown, parent))
  }

  /** The blocks that wait for a block of `work` are promoted, then those that wait for them, and so on. */
  function Ready(q: Queue, work: seq<Hash>): Queue
    decreases |q.unknown|, |work|
  {
    if work == [] then q
    else
      WaitingSplits(q.unknown, work[0]);
      Ready(Round(q, work[0]), work[1..] + HashList(Waiting(q.unknown, work[0])))
  }

  lemma ReadyUnfold(q: Queue, work: seq<Hash>)
    requires work != []
    ensures Ready(q, work) == Ready(Round(q, work[0]), work[1..] + HashList(Waiting(q.unknown, work[0])))
    ensures |Round(q, work[0]).unknown| <= |q.unknown|
    ensures |Round(q, work[0]).unknown| == |q.unknown| ==> Waiting(q.unknown, work[0]) == []
  {
    WaitingSplits(q.unknown, work[0]);
  }

  lemma RoundLined(q: Queue, parent: Hash)
    requires Lined(q) && parent in q.chain + q.draining + q.ready
    ensures Lined(Round(q, parent))
  {
    var removed, left := Waiting(q.unknown, parent), NotWaiting(q.unknown, parent);
    TakenOut(q, parent);
    WaitingSplits(q.unknown, parent);
    PromotedKeeps(q.(unknown := left), removed, parent, |removed|);
    assert removed[..|removed|] == removed && left + removed[|removed|..] == left;
  }

  /** Promotion keeps the queues in order. */
  lemma {:induction false} ReadyLined(q: Queue, work: seq<Hash>)
    requires Lined(q) && forall h :: h in work ==> h in q.chain + q.draining + q.ready
    ensures Lined(Ready(q, work))
    decreases |q.unknown|, |work|
  {
    if work != [] {
      WaitingSplits(q.unknown, work[0]);
      RoundLined(q, work[0]);
      assert forall h :: h in work[1..] ==> h in work;
      assert work[0] in work;
      ReadyLined(Round(q, work[0]), work[1..] + HashList(Waiting(q.unknown, work[0])));
    }
  }

  lemma RoundListed(q: Queue, first: Hash, work: seq<Hash>)
    requires work != [] && Listed(q, first, work)
    ensures Listed(Round(q, work[0]), first, work[1..] + HashList(Waiting(q.unknown, work[0])))
  {
    WaitingSplits(q.unknown, work[0]);
    assert work == [work[0]] + work[1..];
  }

  /** Promotion does not stop before every block with a known parent is promoted. */
  lemma {:induction false} ReadySettled(q: Queue, first: Hash, work: seq<Hash>)
    requires Listed(q, first, work)
    ensures Settled(Ready(q, work))
    ensures forall j :: j in Ready(q, work).unknown ==> j in q.unknown && j.parent != first
    decreases |q.unknown|, |work|
  {
    if work != [] {
      WaitingSplits(q.unknown, work[0]);
      RoundListed(q, first, work);
      ReadySettled(Round(q, work[0]), first, work[1..] + HashList(Waiting(q.unknown, work[0])));
    }
  }

  lemma RoundSame(q: Queue, parent: Hash)
    requires Separate(q)
    ensures SameButWaiting(q, Round(q, parent)) && Separate(Round(q, parent))
  {
    var removed, left := Waiting(q.unknown, parent), NotWaiting(q.unknown, parent);
    WaitingDistinct(q.unknown, parent);
  }

  /** Promotion only moves blocks from the waiting ones to the end of the pipeline. */
  lemma {:induction false} ReadySame(q: Queue, work: seq<Hash>)
    requires Separate(q)
    ensures SameButWaiting(q, Ready(q, work))
    decreases |q.unknown|, |work|
  {
    if work != [] {
      WaitingSplits(q.unknown, work[0]);
      RoundSame(q, work[0]);
      ReadySame(Round(q, work[0]), work[1..] + HashList(Waiting(q.unknown, work[0])));
    }
  }

  /** Waiting blocks whose ancestors turn out bad are bad too. */
  function CondemnRound(q: Queue, parent: Hash): Queue {
    var removed := Waiting(q.unknown, parent);
    q.(unknown := NotWaiting(q.unknown, parent), unknownSet := q.unknownSet - Hashes(removed),
       bad := q.bad + Hashes(removed))
  }

  function Condemn(q: Queue, work: seq<Hash>): Queue
    decreases |q.unknown|, |work|
  {
    if work == [] then q
    else
      WaitingSplits(q.unknown, work[0]);
      Condemn(CondemnRound(q, work[0]), work[1..] + HashList(Waiting(q.unknown, work[0])))
  }

  lemma CondemnUnfold(q: Queue, work: seq<Hash>)
    requires work != []
    ensures Condemn(q, work) == Condemn(CondemnRound(q, work[0]), work[1..] + HashList(Waiting(q.unknown, work[0])))
    ensures |CondemnRound(q, work[0]).unknown| <= |q.unknown|
    ensures |CondemnRound(q, work[0]).unknown| == |q.unknown| ==> Waiting(q.unknown, work[0]) == []
  {
    WaitingSplits(q.unknown, work[0]);
  }

  lemma {:induction false} CondemnLined(q: Queue, work: seq<Hash>)
    requires Lined(q)
    ensures Lined(Condemn(q, work))
    ensures var q' := Condemn(q, work);
            q' == q.(unknown := q'.unknown, unknownSet := q'.unknownSet, bad := q'.bad)
            && q'.bad + q'.unknownSet == q.bad + q.unknownSet && q.bad <= q'.bad
    decreases |q.unknown|, |work|
  {
    if work != [] {
      WaitingSplits(q.unknown, work[0]);
      TakenOut(q, work[0]);
      CondemnLined(CondemnRound(q, work[0]), work[1..] + HashList(Waiting(q.unknown, work[0])));
    }
  }

  lemma {:induction false} CondemnSettled(q: Queue, first: Hash, work: seq<Hash>)
    requires Listed(q, first, work)
    ensures Settled(Condemn(q, work)) && forall j :: j in Condemn(q, work).unknown ==> j in q.unknown
    decreases |q.unknown|, |work|
  {
    if work != [] {
      WaitingSplits(q.unknown, work[0]);
      var q' := CondemnRound(q, work[0]);
      assert Listed(q', first, work[1..] + HashList(Waiting(q.unknown, work[0]))) by {
        assert work == [work[0]] + work[1..];
      }
      CondemnSettled(q', first, work[1..] + HashList(Waiting(q.unknown, work[0])));
    }
  }

  /** Only blocks whose parent turned out bad are condemned. */
  lemma {:induction false} CondemnBlames(q: Queue, work: seq<Hash>)
    requires forall h :: h in work ==> h in q.bad
    ensures q.bad <= Condemn(q, work).bad
    ensures forall j :: j in q.unknown && j !in Condemn(q, work).unknown ==>
              j.hash in Condemn(q, work).bad && j.parent in Condemn(q, work).bad
    decreases |q.unknown|, |work|
  {
    if work != [] {
      WaitingSplits(q.unknown, work[0]);
      var rest := work[1..] + HashList(Waiting(q.unknown, work[0]));
      assert work == [work[0]] + work[1..];
      CondemnBlames(CondemnRound(q, work[0]), rest);
    }
  }

  /** Only blocks whose parent became ready, or is in `known`, are promoted. */
  lemma {:induction false} ReadyBlames(q: Queue, work: seq<Hash>, known: set<Hash>)
    requires forall h :: h in work ==> h in q.ready + known
    ensures q.ready <= Ready(q, work).ready
    ensures forall j :: j in q.unknown && j !in Ready(q, work).unknown ==>
              j.hash in Ready(q, work).ready && j.parent in Ready(q, work).ready + known
    decreases |q.unknown|, |work|
  {
    if work != [] {
      WaitingSplits(q.unknown, work[0]);
      var rest := work[1..] + HashList(Waiting(q.unknown, work[0]));
      RoundWork(q, work, known);
      ReadyBlames(Round(q, work[0]), rest, known);
    }
  }

  lemma RoundWork(q: Queue, work: seq<Hash>, known: set<Hash>)
    requires work != [] && forall h :: h in work ==> h in q.ready + known
    ensures forall h :: h in work[1..] + HashList(Waiting(q.unknown, work[0])) ==> h in Round(q, work[0]).ready + known
    ensures work[0] in q.ready + known
  {
    var waiting := Waiting(q.unknown, work[0]);
    assert work[0] in work;
    forall h | h in work[1..] + HashList(waiting)
      ensures h in q.ready + Hashes(waiting) + known
    {
      if h !in HashList(waiting) {
        assert h in work[1..] && h in work;
      }
    }
  }

  /** Nothing is condemned for a block that no block waits for. */
  lemma CondemnNothing(q: Queue, h: Hash)
    requires forall j :: j in q.unknown ==> j.parent != h
    ensures Condemn(q, [h]) == q
  {
    NoneWaiting(q.unknown, h);
    assert q.unknownSet - Hashes([]) == q.unknownSet && q.bad + Hashes([]) == q.bad;
    assert CondemnRound(q, h) == q;
    assert [h][1..] + HashList([]) == [];
    assert Condemn(q, []) == q;
  }

  lemma {:induction false} NoneWaiting(u: seq<Job>, h: Hash)
    requires forall j :: j in u ==> j.parent != h
    ensures Waiting(u, h) == [] && NotWaiting(u, h) == u
  {
    if u != [] {
      assert u == u[..|u| - 1] + [u[|u| - 1]];
      NoneWaiting(u[..|u| - 1], h);
    }
  }

  // ---------------------------------------------------------------- removing queued blocks that turned out bad

  predicate IsBad(j: Job, bad: set<Hash>) { j.parent in bad || j.hash in bad }

  /** A finished slot has its real uncles hash where the removal looks for the block's own. */
  predicate SlotIsBad(s: Slot, bad: set<Hash>) { s.job.parent in bad || (s.Pending? && s.job.hash in bad) }

  /** The blocks of a queue that the removal leaves, in order. */
  function Good(p: seq<Job>, bad: set<Hash>): (r: seq<Job>)
    ensures |r| <= |p|
  {
    if p == [] then []
    else Good(p[..|p| - 1], bad) + (if IsBad(p[|p| - 1], bad) then [] else [p[|p| - 1]])
  }

  function GoodSlots(v: seq<Slot>, bad: set<Hash>): (r: seq<Slot>)
    ensures |r| <= |v|
  {
    if v == [] then []
    else GoodSlots(v[..|v| - 1], bad) + (if SlotIsBad(v[|v| - 1], bad) then [] else [v[|v| - 1]])
  }

  lemma {:induction false} GoodElems(p: seq<Job>, bad: set<Hash>)
    ensures forall x :: x in Good(p, bad) <==> x in p && !IsBad(x, bad)
  {
    if p != [] {
      GoodElems(p[..|p| - 1], bad);
      assert p == p[..|p| - 1] + [p[|p| - 1]];
    }
  }

  lemma {:induction false} GoodAll(p: seq<Job>, bad: set<Hash>)
    ensures |Good(p, bad)| == |p| ==> Good(p, bad) == p
    ensures (forall x :: x in p ==> !IsBad(x, bad)) ==> Good(p, bad) == p
  {
    if p != [] {
      var front, last := p[..|p| - 1], p[|p| - 1];
      GoodAll(front, bad);
      assert p == front + [last];
      assert IsBad(last, bad) ==> last in p;
      assert forall x :: x in front ==> x in p;
    }
  }

  lemma GoodIs(p: seq<Job>, bad: set<Hash>)
    ensures forall x :: x in Good(p, bad) <==> x in p && !IsBad(x, bad)
    ensures |Good(p, bad)| == |p| <==> forall x :: x in p ==> !IsBad(x, bad)
    ensures |Good(p, bad)| == |p| <==> Good(p, bad) == p
  {
    GoodElems(p, bad);
    GoodAll(p, bad);
  }

  lemma {:induction false} GoodSlotsElems(v: seq<Slot>, bad: set<Hash>)
    ensures forall x :: x in GoodSlots(v, bad) <==> x in v && !SlotIsBad(x, bad)
  {
    if v != [] {
      GoodSlotsElems(v[..|v| - 1], bad);
      assert v == v[..|v| - 1] + [v[|v| - 1]];
    }
  }

  lemma {:induction false} GoodSlotsAll(v: seq<Slot>, bad: set<Hash>)
    ensures |GoodSlots(v, bad)| == |v| ==> GoodSlots(v, bad) == v
    ensures (forall x :: x in v ==> !SlotIsBad(x, bad)) ==> GoodSlots(v, bad) == v
  {
    if v != [] {
      var front, last := v[..|v| - 1], v[|v| - 1];
      GoodSlotsAll(front, bad);
      assert v == front + [last];
      assert SlotIsBad(last, bad) ==> last in v;
      assert forall x :: x in front ==> x in v;
    }
  }

  lemma GoodSlotsIs(v: seq<Slot>, bad: set<Hash>)
    ensures forall x :: x in GoodSlots(v, bad) <==> x in v && !SlotIsBad(x, bad)
    ensures |GoodSlots(v, bad)| == |v| <==> forall x :: x in v ==> !SlotIsBad(x, bad)
    ensures |GoodSlots(v, bad)| == |v| <==> GoodSlots(v, bad) == v
  {
    GoodSlotsElems(v, bad);
    GoodSlotsAll(v, bad);
  }

  /** What is left is in order: the blocks at the indexes `at`, which are those that are not bad. */
  lemma {:induction false} GoodInOrder(p: seq<Job>, bad: set<Hash>) returns (at: seq<nat>)
    ensures Selected(p, Good(p, bad), at) && forall k :: 0 <= k < |p| ==> (k in at <==> !IsBad(p[k], bad))
  {
    at := [];
    if p != [] {
      var front, last := p[..|p| - 1], p[|p| - 1];
      at := GoodInOrder(front, bad);
      SelectedMore(front, Good(front, bad), at, last);
      assert p == front + [last] && Good(front, bad) + [] == Good(front, bad);
      if !IsBad(last, bad) {
        at := at + [|front|];
      }
    }
  }

  lemma {:induction false} GoodSlotsInOrder(v: seq<Slot>, bad: set<Hash>) returns (at: seq<nat>)
    ensures Selected(v, GoodSlots(v, bad), at) && forall k :: 0 <= k < |v| ==> (k in at <==> !SlotIsBad(v[k], bad))
  {
    at := [];
    if v != [] {
      var front, last := v[..|v| - 1], v[|v| - 1];
      at := GoodSlotsInOrder(front, bad);
      SelectedMore(front, GoodSlots(front, bad), at, last);
      assert v == front + [last] && GoodSlots(front, bad) + [] == GoodSlots(front, bad);
      if !SlotIsBad(last, bad) {
        at := at + [|front|];
      }
    }
  }

  lemma {:induction false} GoodSnoc(p: seq<Job>, x: Job, bad: set<Hash>)
    ensures Good(p + [x], bad) == Good(p, bad) + if IsBad(x, bad) then [] else [x]
  {
    assert (p + [x])[..|p|] == p;
  }

  lemma {:induction false} GoodSlotsSnoc(v: seq<Slot>, x: Slot, bad: set<Hash>)
    ensures GoodSlots(v + [x], bad) == GoodSlots(v, bad) + if SlotIsBad(x, bad) then [] else [x]
  {
    assert (v + [x])[..|v|] == v;
  }

  /** Removing by more bad blocks later leaves what removing by them at once does. */
  lemma {:induction false} GoodTwice(p: seq<Job>, bad: set<Hash>, more: set<Hash>)
    requires bad <= more
    ensures Good(Good(p, bad), more) == Good(p, more)
  {
    if p != [] {
      var q, x := p[..|p| - 1], p[|p| - 1];
      GoodTwice(q, bad, more);
      assert p == q + [x];
      GoodSnoc(q, x, bad);
      GoodSnoc(q, x, more);
      GoodSnoc(Good(q, bad), x, more);
      assert Good(q, bad) + [] == Good(q, bad) && Good(q, more) + [] == Good(q, more);
    }
  }

  lemma {:induction false} GoodSlotsTwice(v: seq<Slot>, bad: set<Hash>, more: set<Hash>)
    requires bad <= more
    ensures GoodSlots(GoodSlots(v, bad), more) == GoodSlots(v, more)
  {
    if v != [] {
      var q, x := v[..|v| - 1], v[|v| - 1];
      GoodSlotsTwice(q, bad, more);
      assert v == q + [x];
      GoodSlotsSnoc(q, x, bad);
      GoodSlotsSnoc(q, x, more);
      GoodSlotsSnoc(GoodSlots(q, bad), x, more);
      assert GoodSlots(q, bad) + [] == GoodSlots(q, bad) && GoodSlots(q, more) + [] == GoodSlots(q, more);
    }
  }

  /** Nothing waits for a bad block, but perhaps for one of `later`. */
  ghost predicate Calm(q: Queue, later: set<Hash>) { forall j :: j in q.unknown ==> j.parent !in q.bad - later }

  /** The waiting blocks that are gone had a bad parent. */
  ghost predicate Lost(u: seq<Job>, u': seq<Job>, bad: set<Hash>) {
    && (forall j :: j in u' ==> j in u)
    && (forall j :: j in u && j !in u' ==> j.parent in bad)
  }

  /** Condemning what waits for `first` leaves nothing that waits for it, and takes away only what has a bad parent. */
  lemma CondemnCalms(q: Queue, first: Hash, later: set<Hash>)
    requires Calm(q, {first} + later) && first in q.bad
    ensures var q' := Condemn(q, [first]);
            && Calm(q', later) && q.bad <= q'.bad && Lost(q.unknown, q'.unknown, q'.bad)
            && q' == q.(unknown := q'.unknown, unknownSet := q'.unknownSet, bad := q'.bad)
  {
    CondemnBlames(q, [first]);
    CondemnRests(q, [first], later);
  }

  lemma {:induction false} CondemnRests(q: Queue, work: seq<Hash>, later: set<Hash>)
    requires forall j :: j in q.unknown && j.parent in q.bad - later ==> j.parent in work
    ensures var q' := Condemn(q, work);
            && Calm(q', later) && (forall j :: j in q'.unknown ==> j in q.unknown)
            && q' == q.(unknown := q'.unknown, unknownSet := q'.unknownSet, bad := q'.bad)
    decreases |q.unknown|, |work|
  {
    if work != [] {
      WaitingSplits(q.unknown, work[0]);
      assert work == [work[0]] + work[1..];
      CondemnRests(CondemnRound(q, work[0]), work[1..] + HashList(Waiting(q.unknown, work[0])), later);
    }
  }

  /**
   What removing bad blocks leaves: of each queue the blocks that are not bad and have no bad parent, in order, and of
   the waiting blocks those without a bad parent.  Others than these may be noted as bad and not ready: the code takes
   the unspecified values that the removal returns for the removed blocks.
   */
  ghost predicate Purged(q: Queue, q': Queue) {
    && q'.working == q.working && q'.chain == q.chain && q'.draining == q.draining
    && q.bad <= q'.bad && q'.ready <= q.ready && Sifted(q.unknown, q'.unknown, q'.bad)
    && q'.verified == Good(q.verified, q'.bad) && q'.unverified == Good(q.unverified, q'.bad)
    && q'.verifying == GoodSlots(q.verifying, q'.bad)
  }

  /** On the way there. */
  ghost predicate Purging(q: Queue, q': Queue) {
    && q'.working == q.working && q'.chain == q.chain && q'.draining == q.draining
    && q.bad <= q'.bad && q'.ready <= q.ready && Lost(q.unknown, q'.unknown, q'.bad)
    && Good(q'.verified, q'.bad) == Good(q.verified, q'.bad)
    && Good(q'.unverified, q'.bad) == Good(q.unverified, q'.bad)
    && GoodSlots(q'.verifying, q'.bad) == GoodSlots(q.verifying, q'.bad)
  }

  lemma PurgingTrans(q: Queue, q1: Queue, q2: Queue)
    requires Purging(q, q1) && Purging(q1, q2)
    ensures Purging(q, q2)
  {
    GoodTwice(q.verified, q1.bad, q2.bad);
    GoodTwice(q1.verified, q1.bad, q2.bad);
    GoodTwice(q.unverified, q1.bad, q2.bad);
    GoodTwice(q1.unverified, q1.bad, q2.bad);
    GoodSlotsTwice(q.verifying, q1.bad, q2.bad);
    GoodSlotsTwice(q1.verifying, q1.bad, q2.bad);
  }

  /** More bad blocks, and what waited for them. */
  ghost predicate Noted(q: Queue, q': Queue, rest: seq<Hash>) {
    && q' == q.(ready := q.ready - Elems(rest), unknown := q'.unknown, unknownSet := q'.unknownSet, bad := q'.bad)
    && q.bad + Elems(rest) <= q'.bad && Lost(q.unknown, q'.unknown, q'.bad)
    && (rest == [] ==> q' == q)
  }

  /** No queued block would be removed. */
  ghost predicate Quiet(q: Queue) {
    && Good(q.verified, q.bad) == q.verified && Good(q.unverified, q.bad) == q.unverified
    && GoodSlots(q.verifying, q.bad) == q.verifying
  }

  lemma NotedPurges(q: Queue, q': Queue, rest: seq<Hash>)
    requires Noted(q, q', rest)
    ensures Purging(q, q')
  {
  }

  lemma PurgingEnds(q: Queue, q': Queue)
    requires Purging(q, q') && Quiet(q') && Calm(q', {})
    ensures Purged(q, q')
  {
  }

  lemma InPipeline(q: Queue)
    ensures forall j :: j in q.verified || j in q.unverified ==> j in Pipeline(q)
    ensures forall x :: x in q.verifying ==> x.job in Pipeline(q)
    ensures forall j :: j in Pipeline(q) ==>
              j in q.verified || j in q.unverified || exists x :: x in q.verifying && x.job == j
  {
    var jobs := Jobs(q.verifying);
    forall x | x in q.verifying
      ensures x.job in jobs
    {
      var i :| 0 <= i < |q.verifying| && q.verifying[i] == x;
      assert jobs[i] in jobs;
    }
    forall j | j in jobs
      ensures exists x :: x in q.verifying && x.job == j
    {
      var i :| 0 <= i < |jobs| && jobs[i] == j;
      assert q.verifying[i] in q.verifying;
    }
  }

  lemma QuietIs(q: Queue)
    requires q.ready == Hashes(Pipeline(q)) && q.ready !! q.bad
    ensures Quiet(q) <==> forall j :: j in Pipeline(q) ==> j.parent !in q.bad
  {
    GoodIs(q.verified, q.bad);
    GoodIs(q.unverified, q.bad);
    GoodSlotsIs(q.verifying, q.bad);
    InPipeline(q);
    forall j | j in Pipeline(q)
      ensures j.hash !in q.bad
    {
      assert j.hash in q.ready;
    }
  }

  // ---------------------------------------------------------------- the queue

  ghost predicate Extends(p: seq<Job>, q: seq<Job>) { |p| <= |q| && q[..|p|] == p }

  function HashList(p: seq<Job>): (r: seq<Hash>)
    ensures |r| == |p| && forall i :: 0 <= i < |p| ==> r[i] == p[i].hash
    ensures forall h :: h in r <==> h in Hashes(p)
  {
    var r := seq(|p|, i requires 0 <= i < |p| => p[i].hash);
    assert forall i :: 0 <= i < |p| ==> r[i] == p[i].hash && p[i] in p;
    r
  }

  class BlockQueue {
    var verified: seq<Job>
    var verifying: seq<Slot>
    var unverified: seq<Job>
    var working: set<Job>
    var readySet: set<Hash>
    var drainingSet: set<Hash>
    var unknownSet: set<Hash>
    var knownBad: set<Hash>
    var unknown: seq<Job>
    /** The blocks that the chain knows. */
    var chain: set<Hash>

    ghost function State(): Queue
      reads this
    {
      Queue(verified, verifying, unverified, working, readySet, drainingSet, unknownSet, knownBad, unknown, chain)
    }

    ghost predicate Valid()
      reads this
    {
      Inv(State())
    }

    constructor (known: set<Hash>)
      ensures Valid() && chain == known && Pipeline(State()) == [] && unknown == [] && knownBad == {}
              && drainingSet == {}
    {
      verified, verifying, unverified, working := [], [], [], {};
      readySet, drainingSet, unknownSet, knownBad, unknown, chain := {}, {}, {}, {}, [], known;
    }

    /** A verifier thread takes the next block. */
    method Take() returns (taken: seq<Job>)
      requires Valid()
      modifies this
      ensures Valid() && Pipeline(State()) == old(Pipeline(State()))
      ensures taken == (if old(unverified) == [] then [] else old(unverified)[..1])
      ensures State() == old(State()).(unverified := unverified, verifying := verifying,
                                       working := old(working) + set j | j in taken)
    {
      if unverified == [] {
        return [];
      }
      TakeKeeps(State());
      var job := unverified[0];
      unverified := unverified[1..];
      verifying := verifying + [Pending(job)];
      working := working + {job};
      taken := [job];
    }

    /** Move finished blocks from the front of `verifying` on. */
    method DrainVerified()
      requires Lined(State()) && Staffed(State()) && Settled(State())
      modifies this
      ensures Valid() && SameElsewhere(old(State()), State()) && working == old(working)
      ensures Pipeline(State()) == Kept(old(Pipeline(State())), knownBad)
      ensures Blamed(old(Pipeline(State())), old(knownBad), knownBad)
    {
      ghost var p := Pipeline(State());
      KeptNow(State());
      while verifying != [] && verifying[0].Finished?
        invariant Lined(State()) && Staffed(State()) && Settled(State())
        invariant SameElsewhere(old(State()), State()) && working == old(working)
        invariant Pipeline(State()) == Kept(p, knownBad) && Blamed(p, old(knownBad), knownBad)
        decreases |verifying|
      {
        ghost var q := State();
        AdvanceStep(q, p, old(knownBad));
        PassOn();
        assert State() == Advance(q);
      }
    }

    /** Dequeue the front of `verifying` into `verified`, or drop it when its parent is bad. */
    method PassOn()
      requires verifying != []
      modifies this
      ensures State() == Advance(old(State()))
    {
      var job := verifying[0].job;
      verifying := verifying[1..];
      if job.parent in knownBad {
        readySet := readySet - {job.hash};
        knownBad := knownBad + {job.hash};
      } else {
        verified := verified + [job];
      }
    }

    /** A thread finds its block bad. */
    method FinishBad(job: Job)
      requires Valid() && job in working
      modifies this
      ensures Valid() && SameElsewhere(old(State()), State()) && working == old(working) - {job}
      ensures job.hash in knownBad && Pipeline(State()) == Kept(old(Pipeline(State())), knownBad)
      ensures Blamed(old(Pipeline(State())), old(knownBad) + {job.hash}, knownBad)
    {
      ghost var q := State();
      RejectedKeeps(q, job);
      readySet := readySet - {job.hash};
      knownBad := knownBad + {job.hash};
      verifying := Without(verifying, OfHeader(job.hash));
      working := working - {job};
      assert State() == Rejected(q, job);
      KeptHashes(Pipeline(q), knownBad);
      DrainVerified();
      BlamedTwice(Pipeline(q), q.bad + {job.hash}, q.bad + {job.hash}, knownBad);
    }

    /** The first slot whose uncles field is the hash. */
    method FindSlot(h: Hash) returns (k: nat)
      ensures k <= |verifying| && (k < |verifying| ==> Field(verifying[k]) == OfHeader(h))
      ensures forall i :: 0 <= i < k ==> Field(verifying[i]) != OfHeader(h)
    {
      k := 0;
      while k < |verifying| && Field(verifying[k]) != OfHeader(h)
        invariant k <= |verifying| && forall i :: 0 <= i < k ==> Field(verifying[i]) != OfHeader(h)
      {
        k := k + 1;
      }
    }

    /** A thread finds its block good.  Blocks only move on once everything ahead of them has. */
    method FinishGood(job: Job, uncles: nat)
      requires Valid() && job in working
      modifies this
      ensures Valid() && SameElsewhere(old(State()), State()) && working == old(working) - {job}
      ensures Pipeline(State()) == Kept(old(Pipeline(State())), knownBad)
      ensures Blamed(old(Pipeline(State())), old(knownBad), knownBad)
    {
      ghost var slot := SlotOf(State(), job);
      if verifying != [] && Field(verifying[0]) == OfHeader(job.hash) {
        FinishNext(job);
      } else {
        assert Field(verifying[slot]) == OfHeader(job.hash);
        FinishLater(job, uncles);
      }
    }

    /** The thread's block is next. */
    method FinishNext(job: Job)
      requires Valid() && job in working && verifying != [] && verifying[0] == Pending(job)
      modifies this
      ensures Valid() && SameElsewhere(old(State()), State()) && working == old(working) - {job}
      ensures Pipeline(State()) == Kept(old(Pipeline(State())), knownBad)
      ensures Blamed(old(Pipeline(State())), old(knownBad), knownBad)
    {
      ghost var q := State();
      FrontFinished(q, job);
      working := working - {job};
      PassOn();
      ghost var bad := knownBad;
      DrainVerified();
      BlamedTwice(Pipeline(q), q.bad, bad, knownBad);
    }

    /** Others are ahead: the result is left in the block's slot. */
    method FinishLater(job: Job, uncles: nat)
      requires Valid() && job in working && Field(verifying[0]) != OfHeader(job.hash)
      requires exists k :: 0 <= k < |verifying| && Field(verifying[k]) == OfHeader(job.hash)
      modifies this
      ensures Valid() && SameElsewhere(old(State()), State()) && working == old(working) - {job}
      ensures Pipeline(State()) == Kept(old(Pipeline(State())), knownBad) && knownBad == old(knownBad)
    {
      ghost var q := State();
      ghost var slot := SlotOf(q, job);
      var k := FindSlot(job.hash);
      assert verifying[k].job.hash == job.hash;
      FinishedKeeps(q, job, k, uncles);
      KeptNow(q);
      verifying := verifying[k := Finished(job, uncles)];
      working := working - {job};
    }

    /** The chain asks for verified blocks; each one's parent is in the chain or earlier among them. */
    method Drain(max: nat) returns (out: seq<Job>)
      requires Valid()
      modifies this
      ensures Valid() && Ordered(out, chain)
      ensures old(drainingSet) != {} ==> out == [] && State() == old(State())
      ensures old(drainingSet) == {} ==>
                && |out| == (if max < |old(verified)| then max else |old(verified)|) && out == old(verified)[..|out|]
                && State() == old(State()).(verified := old(verified)[|out|..], ready := readySet,
                                            draining := drainingSet)
                && drainingSet == Hashes(out) && readySet == old(readySet) - drainingSet
                && old(Pipeline(State())) == out + Pipeline(State())
    {
      out := [];
      if drainingSet == {} {
        var n := if max < |verified| then max else |verified|;
        DrainKeeps(State(), n);
        out := verified[..n];
        verified := verified[n..];
        drainingSet := Hashes(out);
        readySet := readySet - drainingSet;
      }
    }

    /** The chain imports a block. */
    method ChainImports(h: Hash)
      requires Valid()
      modifies this`chain
      ensures Valid() && chain == old(chain) + {h}
    {
      ChainKeeps(State(), chain + {h});
      chain := chain + {h};
    }

    /**
     The chain has imported the drained blocks, but for some that were bad.  Nothing is removed exactly if no queued
     block has a bad parent.
     */
    method DoneDrain(bad: seq<Hash>) returns (more: bool)
      requires Valid() && Elems(bad) <= drainingSet <= chain + Elems(bad)
      modifies this
      ensures more <==> readySet != {}
      ensures drainingSet == {} && old(knownBad) + Elems(bad) <= knownBad
      ensures bad != [] ==> Purged(old(State()).(draining := {}), State())
      ensures bad != [] && Pipeline(State()) == old(Pipeline(State())) ==>
                forall j :: j in old(Pipeline(State())) ==> j.parent !in old(knownBad) + Elems(bad)
      ensures bad == [] || (forall j :: j in old(Pipeline(State())) ==> j.parent !in old(knownBad) + Elems(bad)) ==>
                Valid() && State() == old(State()).(draining := {}, bad := old(knownBad) + Elems(bad))
    {
      ghost var q := State().(draining := {}, bad := knownBad + Elems(bad));
      ghost var quiet := bad == [] || forall j :: j in Pipeline(State()) ==> j.parent !in knownBad + Elems(bad);
      if quiet {
        DrainedKeeps(State(), Elems(bad));
        QuietIs(q);
      }
      drainingSet := {};
      if bad == [] {
        assert knownBad + Elems(bad) == knownBad;
        return readySet != {};
      }
      ghost var q0 := State();
      knownBad := knownBad + Elems(bad);
      PurgeDrained(q0, bad, quiet);
      if Pipeline(State()) == Pipeline(q0) {
        PurgedNothing(q0, State());
      }
      more := readySet != {};
    }

    /** The waiting children of a block that became ready join the pipeline. */
    method Promote(removed: seq<Job>, parent: Hash) returns (hashes: seq<Hash>)
      requires forall j :: j in removed ==> j.parent == parent
      modifies this
      ensures hashes == HashList(removed) && State() == Promoted(old(State()), removed)
    {
      hashes := [];
      ghost var q := State();
      PromotedNone(q);
      assert removed[..0] == [];
      for i := 0 to |removed|
        invariant |hashes| == i && forall k :: 0 <= k < i ==> hashes[k] == removed[k].hash
        invariant State() == Promoted(q, removed[..i])
      {
        PromotedStep(q, removed, i);
        var x := removed[i];
        unverified := unverified + [Job(x.hash, parent)];
        unknownSet := unknownSet - {x.hash};
        readySet := readySet + {x.hash};
        hashes := hashes + [x.hash];
      }
      assert removed[..|removed|] == removed;
    }

    /** All the blocks that wait for `good`, for one of them, and so on, join the pipeline. */
    method NoteReadyWithLock(good: Hash)
      modifies this
      ensures State() == Ready(old(State()), [good])
    {
      var goodQueue := [good];
      while goodQueue != []
        invariant Ready(State(), goodQueue) == Ready(old(State()), [good])
        decreases |unknown|, |goodQueue|
      {
        ReadyUnfold(State(), goodQueue);
        var hashes := PromoteChildren(goodQueue[0]);
        goodQueue := goodQueue[1..] + hashes;
      }
    }

    /** The blocks that wait for `parent` join the pipeline. */
    method PromoteChildren(parent: Hash) returns (hashes: seq<Hash>)
      modifies this
      ensures State() == Round(old(State()), parent) && hashes == HashList(Waiting(old(unknown), parent))
    {
      WaitingSplits(unknown, parent);
      var removed := Waiting(unknown, parent);
      unknown := NotWaiting(unknown, parent);
      hashes := Promote(removed, parent);
    }

    /** All the blocks that wait for `first`, for one of them, and so on, are bad. */
    method CollectUnknownBad(first: Hash)
      modifies this
      ensures State() == Condemn(old(State()), [first])
    {
      var badQueue := [first];
      while badQueue != []
        invariant Condemn(State(), badQueue) == Condemn(old(State()), [first])
        decreases |unknown|, |badQueue|
      {
        CondemnUnfold(State(), badQueue);
        var removed := CondemnChildren(badQueue[0]);
        badQueue := badQueue[1..] + HashList(removed);
      }
    }

    /** A block turned out bad: remove the queued blocks that are bad or have a bad parent, and so on. */
    method UpdateBad(first: Hash, ghost later: set<Hash>)
      requires first in knownBad && Calm(State(), {first} + later)
      modifies this
      ensures Purging(old(State()), State()) && Quiet(State()) && Calm(State(), later)
      ensures var q := Condemn(old(State()), [first]); q.bad <= knownBad && (Quiet(q) ==> State() == q)
      ensures forall j :: j in verified || j in unverified ==> j.parent !in knownBad && j.hash !in knownBad
      ensures forall x :: x in verifying ==> x.job.parent !in knownBad && (x.Pending? ==> x.job.hash !in knownBad)
    {
      ghost var q0 := State();
      CondemnCalms(q0, first, later);
      CollectUnknownBad(first);
      ghost var q := State();
      assert Purging(q0, q);
      var more := true;
      while more
        invariant Purging(q0, State()) && Calm(State(), later) && q.bad <= knownBad
        invariant Quiet(q) ==> State() == q
        invariant !more ==> Quiet(State())
        decreases |verified| + |verifying| + |unverified|, if more then 1 else 0
      {
        ghost var q1 := State();
        var a := PurgeVerified(later);
        ghost var q2 := State();
        var b := PurgeUnverified(later);
        ghost var q3 := State();
        var c := PurgeVerifying(later);
        PurgingTrans(q0, q1, q2);
        PurgingTrans(q0, q2, q3);
        PurgingTrans(q0, q3, State());
        more := a || b || c;
      }
      GoodIs(verified, knownBad);
      GoodIs(unverified, knownBad);
      GoodSlotsIs(verifying, knownBad);
    }

    /** Remove bad blocks from `verified` and note what the removal returned as bad. */
    method PurgeVerified(ghost later: set<Hash>) returns (more: bool)
      requires Calm(State(), later)
      modifies this
      ensures Purging(old(State()), State()) && Calm(State(), later)
      ensures verifying == old(verifying) && unverified == old(unverified) && |verified| <= |old(verified)|
      ensures more ==> |verified| < |old(verified)|
      ensures !more ==> State() == old(State())
      ensures !more <==> Good(old(verified), old(knownBad)) == old(verified)
    {
      ghost var q := State();
      var rest;
      GoodIs(verified, knownBad);
      GoodTwice(verified, knownBad, knownBad);
      verified, rest := RemoveIf(verified, knownBad);
      ghost var q1 := State();
      assert Purging(q, q1);
      NoteBad(rest, later);
      NotedPurges(q1, State(), rest);
      PurgingTrans(q, q1, State());
      more := rest != [];
    }

    method PurgeUnverified(ghost later: set<Hash>) returns (more: bool)
      requires Calm(State(), later)
      modifies this
      ensures Purging(old(State()), State()) && Calm(State(), later)
      ensures verified == old(verified) && verifying == old(verifying) && |unverified| <= |old(unverified)|
      ensures more ==> |unverified| < |old(unverified)|
      ensures !more ==> State() == old(State())
      ensures !more <==> Good(old(unverified), old(knownBad)) == old(unverified)
    {
      ghost var q := State();
      var rest;
      GoodIs(unverified, knownBad);
      GoodTwice(unverified, knownBad, knownBad);
      unverified, rest := RemoveIf(unverified, knownBad);
      ghost var q1 := State();
      assert Purging(q, q1);
      NoteBad(rest, later);
      NotedPurges(q1, State(), rest);
      PurgingTrans(q, q1, State());
      more := rest != [];
    }

    method PurgeVerifying(ghost later: set<Hash>) returns (more: bool)
      requires Calm(State(), later)
      modifies this
      ensures Purging(old(State()), State()) && Calm(State(), later)
      ensures verified == old(verified) && unverified == old(unverified) && |verifying| <= |old(verifying)|
      ensures more ==> |verifying| < |old(verifying)|
      ensures !more ==> State() == old(State())
      ensures !more <==> GoodSlots(old(verifying), old(knownBad)) == old(verifying)
    {
      ghost var q := State();
      var rest;
      GoodSlotsIs(verifying, knownBad);
      GoodSlotsTwice(verifying, knownBad, knownBad);
      verifying, rest := RemoveSlotsIf(verifying, knownBad);
      ghost var q1 := State();
      assert Purging(q, q1);
      NoteBad(rest, later);
      NotedPurges(q1, State(), rest);
      PurgingTrans(q, q1, State());
      more := rest != [];
    }

    /** Note blocks as bad, with all that waits for them. */
    method NoteBad(rest: seq<Hash>, ghost later: set<Hash>)
      requires Calm(State(), later)
      modifies this
      ensures Noted(old(State()), State(), rest) && Calm(State(), later)
    {
      ghost var q := State();
      assert readySet - Elems([]) == readySet;
      for i := 0 to |rest|
        invariant Noted(q, State(), rest[..i]) && Calm(State(), later)
      {
        assert rest[..i + 1] == rest[..i] + [rest[i]];
        assert Elems(rest[..i + 1]) == Elems(rest[..i]) + {rest[i]};
        knownBad := knownBad + {rest[i]};
        readySet := readySet - {rest[i]};
        CondemnCalms(State(), rest[i], later);
        CollectUnknownBad(rest[i]);
      }
      assert rest[..|rest|] == rest;
    }

    /** The purges after `DoneDrain`. */
    method PurgeDrained(ghost q0: Queue, bad: seq<Hash>, ghost quiet: bool)
      requires Purging(q0, State()) && Elems(bad) <= knownBad && bad != [] && Calm(State(), Elems(bad))
      requires quiet ==> Quiet(State()) && Calm(State(), {})
      modifies this
      ensures Purged(q0, State()) && (quiet ==> State() == old(State())) && old(knownBad) <= knownBad
    {
      ghost var q := State();
      assert bad[0..] == bad;
      for i := 0 to |bad|
        invariant Purging(q0, State()) && q.bad <= knownBad && (quiet ==> State() == q)
        invariant Calm(State(), Elems(bad[i..])) && (0 < i ==> Quiet(State()))
      {
        ghost var q1 := State();
        assert bad[i..] == [bad[i]] + bad[i + 1..];
        assert Elems(bad[i..]) == {bad[i]} + Elems(bad[i + 1..]);
        assert bad[i] in Elems(bad);
        if quiet {
          CondemnNothing(q, bad[i]);
        }
        UpdateBad(bad[i], Elems(bad[i + 1..]));
        PurgingTrans(q0, q1, State());
      }
      assert bad[|bad|..] == [];
      PurgingEnds(q0, State());
    }

    /** The blocks that wait for `parent` are bad. */
    method CondemnChildren(parent: Hash) returns (removed: seq<Job>)
      modifies this
      ensures State() == CondemnRound(old(State()), parent) && removed == Waiting(old(unknown), parent)
    {
      removed := Waiting(unknown, parent);
      unknown := NotWaiting(unknown, parent);
      unknownSet := unknownSet - Hashes(removed);
      knownBad := knownBad + Hashes(removed);
    }

    /**
     A block arrives.  When its parent is bad, so are the block and everything that waits for it, and queued blocks that
     are bad or have a bad parent are removed.  Nothing else is lost exactly unless there are such blocks.
     */
    method Import(h: Hash, parent: Hash) returns (r: ImportResult)
      requires Valid()
      modifies this
      ensures chain == old(chain) && drainingSet == old(drainingSet) && working == old(working)
      ensures !r.BadChain? ==> Valid() && verified == old(verified) && verifying == old(verifying)
      ensures r.AlreadyKnown? <==> h in old(readySet) + old(drainingSet) + old(unknownSet) + old(knownBad)
      ensures r.AlreadyKnown? || r.AlreadyInChain? ==> State() == old(State())
      ensures r.AlreadyInChain? <==>
                h !in old(readySet) + old(drainingSet) + old(unknownSet) + old(knownBad) && h in old(chain)
      ensures r.Success? ==>
                && h in readySet && knownBad == old(knownBad) && parent in old(readySet) + drainingSet + chain
                && Extends(old(unverified) + [Job(h, parent)], unverified)
                && readySet + unknownSet == old(readySet) + old(unknownSet) + {h}
                && Sifted(old(unknown), unknown, readySet)
      ensures r.UnknownParent? ==>
                && parent !in readySet + drainingSet + chain + knownBad
                && State() == old(State()).(unknown := old(unknown) + [Job(h, parent)],
                                            unknownSet := old(unknownSet) + {h})
      ensures r.BadChain? <==> !r.AlreadyKnown? && !r.AlreadyInChain? && parent in old(knownBad)
      ensures r.BadChain? ==> h in knownBad && Purged(old(State()), State())
      ensures r.BadChain? ==>
                var q := Condemn(old(State()).(bad := old(knownBad) + {h}), [h]);
                && (Pipeline(State()) == old(Pipeline(State())) <==>
                      forall j :: j in old(Pipeline(State())) ==> j.parent !in q.bad)
                && (Pipeline(State()) == old(Pipeline(State())) ==>
                      Valid() && State() == q && knownBad + unknownSet == old(knownBad) + old(unknownSet) + {h})
    {
      if h in readySet || h in drainingSet || h in unknownSet || h in knownBad {
        return AlreadyKnown;
      }
      if h in chain {
        return AlreadyInChain;
      }
      if parent in knownBad {
        ghost var q := State();
        BadParent(q, h);
        knownBad := knownBad + {h};
        UpdateBad(h, {});
        PurgingEnds(q, State());
        PurgedPipeline(q, Condemn(q.(bad := q.bad + {h}), [h]), State());
        return BadChain;
      }
      if parent !in readySet && parent !in drainingSet && parent !in chain {
        Postpone(State(), Job(h, parent));
        unknown := unknown + [Job(h, parent)];
        unknownSet := unknownSet + {h};
        return UnknownParent;
      }
      AcceptBlock(h, parent);
      r := Success;
    }

    /** Append a block to the pipeline, and then the blocks that wait for it. */
    method AcceptBlock(h: Hash, parent: Hash)
      requires Valid() && Unheard(State(), h) && parent in readySet + drainingSet + chain
      modifies this
      ensures Valid() && h in readySet && readySet + unknownSet == old(readySet) + old(unknownSet) + {h}
      ensures Extends(old(unverified) + [Job(h, parent)], unverified)
      ensures State() == old(State()).(unverified := unverified, ready := readySet, unknown := unknown,
                                       unknownSet := unknownSet)
      ensures Sifted(old(unknown), unknown, readySet)
    {
      Accept(State(), Job(h, parent));
      unverified := unverified + [Job(h, parent)];
      readySet := readySet + {h};
      NoteReadyWithLock(h);
    }

    /** The chain reports that it has imported `good`. */
    method NoteReady(good: Hash)
      requires Valid() && good in chain + drainingSet + readySet
      modifies this
      ensures Valid() && SameButWaiting(old(State()), State())
      ensures Sifted(old(unknown), unknown, readySet + {good})
    {
      ReadyInv(State(), good);
      NoteReadyWithLock(good);
    }
  }

  lemma ReadyInv(q: Queue, good: Hash)
    requires Lined(q) && Staffed(q) && FrontPending(q) && good in q.chain + q.draining + q.ready
    requires Listed(q, good, [good])
    ensures Inv(Ready(q, [good])) && SameButWaiting(q, Ready(q, [good]))
    ensures Sifted(q.unknown, Ready(q, [good]).unknown, Ready(q, [good]).ready + {good})
  {
    ReadyLined(q, [good]);
    ReadySettled(q, good, [good]);
    ReadyBlames(q, [good], {good});
    ReadySame(q, [good]);
  }

  /** The drained blocks are in the chain or bad, and no queued block has a bad parent. */
  lemma DrainedKeeps(q: Queue, bad: set<Hash>)
    requires Inv(q) && bad <= q.draining <= q.chain + bad
    requires bad != {} ==> forall j :: j in Pipeline(q) ==> j.parent !in q.bad + bad
    ensures Inv(q.(draining := {}, bad := q.bad + bad))
    ensures forall j :: j in q.unknown ==> j.parent !in q.bad + bad
  {
    var q' := q.(draining := {}, bad := q.bad + bad);
    assert Pipeline(q') == Pipeline(q);
    OrderedMore(Pipeline(q), q.chain + q.draining + q.bad, q'.chain + q'.draining + q'.bad);
    forall i | 0 <= i < |q.verified|
      ensures Follows(q.verified, q'.chain + q'.draining, i)
    {
      assert Follows(q.verified, q.chain + q.draining, i);
      assert Pipeline(q)[i] == q.verified[i];
    }
  }

  ghost predicate Unheard(q: Queue, h: Hash) { h !in q.ready + q.draining + q.unknownSet + q.bad + q.chain }

  lemma Accept(q: Queue, job: Job)
    requires Inv(q) && Unheard(q, job.hash) && job.parent in q.ready + q.draining + q.chain
    ensures var q1 := q.(unverified := q.unverified + [job], ready := q.ready + {job.hash});
            var q' := Ready(q1, [job.hash]);
            && Inv(q') && job.hash in q'.ready && q'.ready + q'.unknownSet == q.ready + q.unknownSet + {job.hash}
            && Extends(q.unverified + [job], q'.unverified) && Sifted(q.unknown, q'.unknown, q'.ready)
            && q' == q.(unverified := q'.unverified, ready := q'.ready, unknown := q'.unknown,
                        unknownSet := q'.unknownSet)
  {
    AcceptKeeps(q, job);
    var q1 := q.(unverified := q.unverified + [job], ready := q.ready + {job.hash});
    ReadyInv(q1, job.hash);
    assert job.hash in q1.ready && Ready(q1, [job.hash]).ready + {job.hash} == Ready(q1, [job.hash]).ready;
  }

  lemma Postpone(q: Queue, job: Job)
    requires Inv(q) && Unheard(q, job.hash) && job.parent !in q.ready + q.draining + q.bad
    ensures Inv(q.(unknown := q.unknown + [job], unknownSet := q.unknownSet + {job.hash}))
  {
    DistinctSnoc(q.unknown, job);
    assert Pipeline(q.(unknown := q.unknown + [job], unknownSet := q.unknownSet + {job.hash})) == Pipeline(q);
  }

  /** `std::remove_if` and the values it leaves behind, which are not specified. */
  method RemoveIf(p: seq<Job>, bad: set<Hash>) returns (kept: seq<Job>, rest: seq<Hash>)
    ensures kept == Good(p, bad) && |kept| + |rest| == |p|
  {
    kept, rest := [], [];
    for i := 0 to |p|
      invariant kept == Good(p[..i], bad) && |kept| + |rest| == i
    {
      GoodSnoc(p[..i], p[i], bad);
      assert p[..i + 1] == p[..i] + [p[i]];
      if IsBad(p[i], bad) {
        var unspecified: Hash := *;
        rest := rest + [unspecified];
      } else {
        kept := kept + [p[i]];
      }
    }
    assert p[..|p|] == p;
  }

  method RemoveSlotsIf(v: seq<Slot>, bad: set<Hash>) returns (kept: seq<Slot>, rest: seq<Hash>)
    ensures kept == GoodSlots(v, bad) && |kept| + |rest| == |v|
  {
    kept, rest := [], [];
    for i := 0 to |v|
      invariant kept == GoodSlots(v[..i], bad) && |kept| + |rest| == i
    {
      GoodSlotsSnoc(v[..i], v[i], bad);
      assert v[..i + 1] == v[..i] + [v[i]];
      if SlotIsBad(v[i], bad) {
        var unspecified: Hash := *;
        rest := rest + [unspecified];
      } else {
        kept := kept + [v[i]];
      }
    }
    assert v[..|v|] == v;
  }

  /** The new block and all that waits for it are condemned; removal finds only queued blocks with a bad parent. */
  lemma BadParent(q: Queue, h: Hash)
    requires Inv(q) && Unheard(q, h)
    ensures var q' := Condemn(q.(bad := q.bad + {h}), [h]);
            && Inv(q') && Pipeline(q') == Pipeline(q) && q'.bad + q'.unknownSet == q.bad + q.unknownSet + {h}
            && q' == q.(unknown := q'.unknown, unknownSet := q'.unknownSet, bad := q'.bad) && h in q'.bad
            && Sifted(q.unknown, q'.unknown, q'.bad)
            && (Quiet(q') <==> forall j :: j in Pipeline(q) ==> j.parent !in q'.bad)
  {
    var q1 := q.(bad := q.bad + {h});
    var p := Pipeline(q);
    assert Pipeline(q1) == p;
    OrderedMore(p, q.chain + q.draining + q.bad, q1.chain + q1.draining + q1.bad);
    CondemnLined(q1, [h]);
    CondemnSettled(q1, h, [h]);
    CondemnBlames(q1, [h]);
    var q' := Condemn(q1, [h]);
    assert Pipeline(q') == p;
    QuietIs(q');
  }

  lemma PurgedNothing(q: Queue, q': Queue)
    requires Purged(q, q') && Pipeline(q') == Pipeline(q)
    ensures forall j :: j in q.verified || j in q.unverified ==> !IsBad(j, q'.bad)
    ensures forall x :: x in q.verifying ==> !SlotIsBad(x, q'.bad)
    ensures forall j :: j in Pipeline(q) ==> j.parent !in q'.bad
  {
    GoodIs(q.verified, q'.bad);
    GoodIs(q.unverified, q'.bad);
    GoodSlotsIs(q.verifying, q'.bad);
    InPipeline(q);
  }

  /** Nothing was removed exactly if nothing was to be found at first. */
  lemma PurgedPipeline(q0: Queue, q: Queue, q': Queue)
    requires Purged(q0, q') && q == q0.(unknown := q.unknown, unknownSet := q.unknownSet, bad := q.bad)
    requires q.bad <= q'.bad && (Quiet(q) ==> q' == q)
    ensures Pipeline(q') == Pipeline(q0) <==> Quiet(q)
  {
    if Pipeline(q') == Pipeline(q0) {
      PurgedNothing(q0, q');
      GoodIs(q0.verified, q.bad);
      GoodIs(q0.unverified, q.bad);
      GoodSlotsIs(q0.verifying, q.bad);
    }
  }
}
